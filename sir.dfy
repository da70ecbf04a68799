/**
 * The part of the Swift intermediate representation (SIR) the bridge
 * generator reads: types, parameters and functions. The SIR class
 * hierarchy is abstracted to a tagged datatype; the nine scalar
 * declarations of the Swift standard module are named by `SwiftScalar`.
 */
module Sir {
  import opened Wrappers

  /** The scalar declarations of the Swift module the generator recognises. */
  datatype SwiftScalar = Bool | Int8 | Int16 | Int32 | Int64 | UInt8 | UInt16 | UInt32 | UInt64
  {
    /** Width and signedness, as the Swift type's name gives them. */
    function Kind(): ScalarKind
    {
      match this
      case Bool => BooleanKind
      case Int8 => IntegerKind(8, true)
      case Int16 => IntegerKind(16, true)
      case Int32 => IntegerKind(32, true)
      case Int64 => IntegerKind(64, true)
      case UInt8 => IntegerKind(8, false)
      case UInt16 => IntegerKind(16, false)
      case UInt32 => IntegerKind(32, false)
      case UInt64 => IntegerKind(64, false)
    }
  }

  /** What crosses the boundary: a boolean, or an integer of a width and signedness. */
  datatype ScalarKind = BooleanKind | IntegerKind(bits: nat, signed: bool)

  /** A declaration a nominal type refers to: one of the Swift scalars, or anything else. */
  datatype SirDeclaration =
    | SwiftScalarDeclaration(scalar: SwiftScalar)
    | OtherDeclaration(name: string)

  /** A SIR type: a nominal reference to a declaration, or a type of any other shape. */
  datatype SirType =
    | SirNominalType(declaration: SirDeclaration)
    | SirOtherType(description: string)

  /** A function parameter; its argument name may be absent. */
  datatype SirParameter = SirParameter(argumentName: Option<string>, parameterType: SirType)

  /** The signature of the function to bridge. */
  datatype SirFunction = SirFunction(parameters: seq<SirParameter>, returnType: SirType)
}
