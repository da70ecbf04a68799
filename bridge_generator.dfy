/**
 * The function bridge generator (BridgeGeneratorImpl.kt). From a request
 * it renders a C declaration of the bridge symbol and a Kotlin trampoline
 * exported under that symbol, which calls the bridged function and
 * returns its value. Only the nine Swift scalars can be bridged; any
 * other parameter or return type makes the whole request fail.
 */
module BridgeGenerator {
  import opened Wrappers
  import opened Text
  import opened Sir
  import opened Bridge

  /** The annotation that exports the trampoline to the C++ runtime. */
  const ExportAnnotationFqName: string := "kotlin.native.internal.ExportForCppRuntime"
  /** The header that declares the fixed-width C integer types. */
  const StdintHeader: string := "stdint.h"
  /** The local the trampoline binds the call's value to. */
  const ResultName: string := "result"

  /** The C types a bridge declaration uses. */
  datatype CType = Bool | Int8 | Int16 | Int32 | Int64 | UInt8 | UInt16 | UInt32 | UInt64
  {
    /** The C spelling of the type: an identifier, so free of separators. */
    function Repr(): (spelling: string)
      ensures ',' !in spelling && ' ' !in spelling
    {
      match this
      case Bool => "_Bool"
      case Int8 => "int8_t"
      case Int16 => "int16_t"
      case Int32 => "int32_t"
      case Int64 => "int64_t"
      case UInt8 => "uint8_t"
      case UInt16 => "uint16_t"
      case UInt32 => "uint32_t"
      case UInt64 => "uint64_t"
    }

    /** Width and signedness, as the C type's name gives them. */
    function Kind(): ScalarKind
    {
      match this
      case Bool => BooleanKind
      case Int8 => IntegerKind(8, true)
      case Int16 => IntegerKind(16, true)
      case Int32 => IntegerKind(32, true)
      case Int64 => IntegerKind(64, true)
      case UInt8 => IntegerKind(8, false)
      case UInt16 => IntegerKind(16, false)
      case UInt32 => IntegerKind(32, false)
      case UInt64 => IntegerKind(64, false)
    }
  }

  /** The Kotlin types a trampoline uses. */
  datatype KotlinType = Boolean | Byte | Short | Int | Long | UByte | UShort | UInt | ULong
  {
    /** The Kotlin spelling of the type: an identifier, so free of separators. */
    function Repr(): (spelling: string)
      ensures ',' !in spelling && ' ' !in spelling
    {
      match this
      case Boolean => "Boolean"
      case Byte => "Byte"
      case Short => "Short"
      case Int => "Int"
      case Long => "Long"
      case UByte => "UByte"
      case UShort => "UShort"
      case UInt => "UInt"
      case ULong => "ULong"
    }

    /** Width and signedness of the Kotlin type. */
    function Kind(): ScalarKind
    {
      match this
      case Boolean => BooleanKind
      case Byte => IntegerKind(8, true)
      case Short => IntegerKind(16, true)
      case Int => IntegerKind(32, true)
      case Long => IntegerKind(64, true)
      case UByte => IntegerKind(8, false)
      case UShort => IntegerKind(16, false)
      case UInt => IntegerKind(32, false)
      case ULong => IntegerKind(64, false)
    }
  }

  /** Why a type cannot be bridged; both carry the offending type. */
  datatype BridgeError =
    | NotNominal(offender: SirType)       // the `require(type is SirNominalType)` fails
    | UnsupportedType(offender: SirType)  // a nominal type other than the nine scalars

  datatype KotlinBridgeParameter = KotlinBridgeParameter(name: string, kotlinType: KotlinType)
  datatype CBridgeParameter = CBridgeParameter(name: string, cType: CType)
  datatype BridgeParameter = BridgeParameter(kotlin: KotlinBridgeParameter, c: CBridgeParameter)

  /** A type the generator can bridge: a nominal reference to one of the nine Swift scalars. */
  predicate Bridgeable(t: SirType)
  {
    t.SirNominalType? && t.declaration.SwiftScalarDeclaration?
  }

  /** Parameter `i` is the first one whose type cannot be bridged. */
  ghost predicate IsFirstUnbridgeable(parameters: seq<SirParameter>, i: int)
  {
    && 0 <= i < |parameters|
    && !Bridgeable(parameters[i].parameterType)
    && forall j :: 0 <= j < i ==> Bridgeable(parameters[j].parameterType)
  }

  /**
   * The Kotlin and C types of a SIR type: defined exactly for the nine
   * scalars, each side of the same width and signedness as the Swift type.
   */
  function BridgeType(t: SirType): (r: Result<(KotlinType, CType), BridgeError>)
    ensures r.Success? <==> Bridgeable(t)
    ensures r.Failure? ==> r.error.offender == t
    ensures r.Failure? ==> (r.error.NotNominal? <==> !t.SirNominalType?)
    ensures r.Success? ==>
      && r.value.0.Kind() == t.declaration.scalar.Kind()
      && r.value.1.Kind() == t.declaration.scalar.Kind()
  {
    if !t.SirNominalType? then Failure(NotNominal(t))
    else match t.declaration
      case SwiftScalarDeclaration(scalar) =>
        Success(match scalar
          case Bool => (KotlinType.Boolean, CType.Bool)
          case Int8 => (KotlinType.Byte, CType.Int8)
          case Int32 => (KotlinType.Int, CType.Int32)
          case Int64 => (KotlinType.Long, CType.Int64)
          case Int16 => (KotlinType.Short, CType.Int16)
          case UInt8 => (KotlinType.UByte, CType.UInt8)
          case UInt32 => (KotlinType.UInt, CType.UInt32)
          case UInt64 => (KotlinType.ULong, CType.UInt64)
          case UInt16 => (KotlinType.UShort, CType.UInt16))
      case OtherDeclaration(_) => Failure(UnsupportedType(t))
  }

  /** The name a bridge gives a parameter; C's stricter identifier rules are not yet applied. */
  function CreateBridgeParameterName(kotlinName: string): string
  {
    kotlinName
  }

  /** A parameter's bridge name: its argument name unchanged, or empty when it has none. */
  function ParameterName(p: SirParameter): (name: string)
    ensures name == p.argumentName.GetOr("")
  {
    match p.argumentName
    case Some(n) => CreateBridgeParameterName(n)
    case None => ""
  }

  /** One parameter bridged: the same name and the same source type on the Kotlin and the C side. */
  function BridgeParameterOf(p: SirParameter): (r: Result<BridgeParameter, BridgeError>)
    ensures r.Success? <==> Bridgeable(p.parameterType)
    ensures r.Failure? ==> r.error == BridgeType(p.parameterType).error
    ensures r.Success? ==>
      && r.value.kotlin.name == p.argumentName.GetOr("")
      && r.value.c.name == p.argumentName.GetOr("")
      && (r.value.kotlin.kotlinType, r.value.c.cType) == BridgeType(p.parameterType).value
  {
    var name := ParameterName(p);
    match BridgeType(p.parameterType)
    case Failure(e) => Failure(e)
    case Success((kotlinType, cType)) =>
      Success(BridgeParameter(KotlinBridgeParameter(name, kotlinType), CBridgeParameter(name, cType)))
  }

  /** Past a bridgeable first parameter, the first unbridgeable one of the rest is the first of all. */
  lemma FirstUnbridgeableTail(parameters: seq<SirParameter>, e: BridgeError)
    requires |parameters| > 0 && Bridgeable(parameters[0].parameterType)
    requires exists k :: IsFirstUnbridgeable(parameters[1..], k) && BridgeParameterOf(parameters[1..][k]) == Failure(e)
    ensures exists i :: IsFirstUnbridgeable(parameters, i) && BridgeParameterOf(parameters[i]) == Failure(e)
  {
    var k :| IsFirstUnbridgeable(parameters[1..], k) && BridgeParameterOf(parameters[1..][k]) == Failure(e);
    forall j | 1 <= j < k + 1
      ensures Bridgeable(parameters[j].parameterType)
    {
      assert parameters[j] == parameters[1..][j - 1];
    }
    assert parameters[1..][k] == parameters[k + 1];
    assert IsFirstUnbridgeable(parameters, k + 1);
  }

  /**
   * All parameters bridged in declared order (`parameters.map { bridgeParameter(it) }`):
   * either every one succeeds, position for position, or the error is that
   * of the first parameter that cannot be bridged.
   */
  function BridgeParameters(parameters: seq<SirParameter>): (r: Result<seq<BridgeParameter>, BridgeError>)
    ensures r.Success? <==> forall i :: 0 <= i < |parameters| ==> Bridgeable(parameters[i].parameterType)
    ensures r.Success? ==>
      && |r.value| == |parameters|
      && forall i :: 0 <= i < |parameters| ==> BridgeParameterOf(parameters[i]) == Success(r.value[i])
    ensures r.Failure? ==>
      exists i :: IsFirstUnbridgeable(parameters, i) && BridgeParameterOf(parameters[i]) == Failure(r.error)
  {
    if |parameters| == 0 then Success([])
    else
      match BridgeParameterOf(parameters[0])
      case Failure(e) =>
        assert IsFirstUnbridgeable(parameters, 0);
        Failure(e)
      case Success(first) =>
        match BridgeParameters(parameters[1..])
        case Failure(e) =>
          FirstUnbridgeableTail(parameters, e);
          Failure(e)
        case Success(rest) =>
          assert forall i :: 1 <= i < |parameters| ==> parameters[i] == parameters[1..][i - 1];
          Success([first] + rest)
  }

  /** Each C parameter rendered as `<type> <name>`. */
  function CParameterTexts(parameters: seq<CBridgeParameter>): (texts: seq<string>)
    ensures |texts| == |parameters|
  {
    seq(|parameters|, i requires 0 <= i < |parameters| => parameters[i].cType.Repr() + " " + parameters[i].name)
  }

  /** Each Kotlin parameter rendered as `<name>: <type>`. */
  function KotlinParameterTexts(parameters: seq<KotlinBridgeParameter>): (texts: seq<string>)
    ensures |texts| == |parameters|
  {
    seq(|parameters|, i requires 0 <= i < |parameters| => parameters[i].name + ": " + parameters[i].kotlinType.Repr())
  }

  /** No item holds a comma, so a list joined with `", "` can be read back. */
  predicate CommaFree(items: seq<string>)
  {
    forall i :: 0 <= i < |items| ==> ',' !in items[i]
  }

  /** The one-line C declaration `<ret> <bridgeName>(<type name>, ...);`. */
  function CDeclaration(bridgeName: string, returnType: CType, parameters: seq<CBridgeParameter>): (lines: seq<string>)
    ensures |lines| == 1
  {
    [returnType.Repr() + " " + bridgeName + "(" + Join(CParameterTexts(parameters), ", ") + ");"]
  }

  /** The C declaration's parenthesised list reads back as its parameters in order (`()` when none). */
  lemma CDeclarationInOrder(bridgeName: string, returnType: CType, parameters: seq<CBridgeParameter>)
    ensures exists list ::
      && CDeclaration(bridgeName, returnType, parameters)[0] == returnType.Repr() + " " + bridgeName + "(" + list + ");"
      && ((forall i :: 0 <= i < |parameters| ==> ',' !in parameters[i].name)
          ==> ListsInOrder(list, CParameterTexts(parameters)))
  {
    var list := Join(CParameterTexts(parameters), ", ");
    CTextsCommaFree(parameters);
    CommaListInOrder(CParameterTexts(parameters));
    assert && CDeclaration(bridgeName, returnType, parameters)[0] == returnType.Repr() + " " + bridgeName + "(" + list + ");"
           && ((forall i :: 0 <= i < |parameters| ==> ',' !in parameters[i].name)
               ==> ListsInOrder(list, CParameterTexts(parameters)));
  }

  /** The names the trampoline passes to the call, in parameter order. */
  function KotlinNames(parameters: seq<KotlinBridgeParameter>): (names: seq<string>)
    ensures |names| == |parameters| && forall i :: 0 <= i < |parameters| ==> names[i] == parameters[i].name
  {
    seq(|parameters|, i requires 0 <= i < |parameters| => parameters[i].name)
  }

  /** No C type's spelling holds a comma, so comma-free names give comma-free texts. */
  lemma CTextsCommaFree(parameters: seq<CBridgeParameter>)
    ensures (forall i :: 0 <= i < |parameters| ==> ',' !in parameters[i].name)
      ==> CommaFree(CParameterTexts(parameters))
  {
    forall i | 0 <= i < |parameters| && (forall j :: 0 <= j < |parameters| ==> ',' !in parameters[j].name)
      ensures ',' !in CParameterTexts(parameters)[i]
    {
      CTextCommaFree(parameters, i);
    }
  }

  lemma CTextCommaFree(parameters: seq<CBridgeParameter>, i: int)
    requires 0 <= i < |parameters| && ',' !in parameters[i].name
    ensures ',' !in CParameterTexts(parameters)[i]
  {
    var p := parameters[i];
    assert CParameterTexts(parameters)[i] == p.cType.Repr() + " " + p.name;
  }

  /** No Kotlin type's spelling holds a comma, so comma-free names give comma-free texts. */
  lemma KotlinTextsCommaFree(parameters: seq<KotlinBridgeParameter>)
    ensures CommaFree(KotlinNames(parameters)) ==> CommaFree(KotlinParameterTexts(parameters))
  {
    forall i | 0 <= i < |parameters| && CommaFree(KotlinNames(parameters))
      ensures ',' !in KotlinParameterTexts(parameters)[i]
    {
      KotlinTextCommaFree(parameters, i);
    }
  }

  lemma KotlinTextCommaFree(parameters: seq<KotlinBridgeParameter>, i: int)
    requires 0 <= i < |parameters| && ',' !in parameters[i].name
    ensures ',' !in KotlinParameterTexts(parameters)[i]
  {
    var p := parameters[i];
    assert KotlinParameterTexts(parameters)[i] == p.name + ": " + p.kotlinType.Repr();
  }

  /** The trampoline's signature `public fun <bridgeName>(<name: Type>, ...): <Ret>`. */
  function KotlinDeclarationSignature(bridgeName: string, returnType: KotlinType, parameters: seq<KotlinBridgeParameter>): string
  {
    "public fun " + bridgeName + "(" + Join(KotlinParameterTexts(parameters), ", ") + "): " + returnType.Repr()
  }

  /** The signature's parenthesised list reads back as its parameters in order. */
  lemma KotlinSignatureInOrder(bridgeName: string, returnType: KotlinType, parameters: seq<KotlinBridgeParameter>)
    ensures exists list ::
      && KotlinDeclarationSignature(bridgeName, returnType, parameters)
         == "public fun " + bridgeName + "(" + list + "): " + returnType.Repr()
      && (CommaFree(KotlinNames(parameters)) ==> ListsInOrder(list, KotlinParameterTexts(parameters)))
  {
    var list := Join(KotlinParameterTexts(parameters), ", ");
    KotlinTextsCommaFree(parameters);
    CommaListInOrder(KotlinParameterTexts(parameters));
    assert && KotlinDeclarationSignature(bridgeName, returnType, parameters)
              == "public fun " + bridgeName + "(" + list + "): " + returnType.Repr()
           && (CommaFree(KotlinNames(parameters)) ==> ListsInOrder(list, KotlinParameterTexts(parameters)));
  }

  /** The trampoline's call `val <result> = <a.b.f>(<names>)`. */
  function CallSite(functionFqName: seq<string>, parameterNames: seq<string>, resultName: string): string
  {
    "val " + resultName + " = " + Join(functionFqName, ".") + "(" + Join(parameterNames, ", ") + ")"
  }

  /** The qualified name has segments, none of them holding a dot. */
  predicate DotFreePath(segments: seq<string>)
  {
    |segments| > 0 && forall i :: 0 <= i < |segments| ==> '.' !in segments[i]
  }

  /**
   * In a rendered call the dotted path reads back as the qualified name's
   * segments and the arguments as the parameter names, both in their given order.
   */
  lemma CallSiteInOrder(functionFqName: seq<string>, parameterNames: seq<string>, resultName: string)
    ensures exists path, arguments ::
      && CallSite(functionFqName, parameterNames, resultName) == "val " + resultName + " = " + path + "(" + arguments + ")"
      && (DotFreePath(functionFqName) ==> Split(path, '.') == functionFqName)
      && (CommaFree(parameterNames) ==> ListsInOrder(arguments, parameterNames))
  {
    var path := Join(functionFqName, ".");
    var arguments := Join(parameterNames, ", ");
    SplitJoinIf(functionFqName);
    CommaListInOrder(parameterNames);
    assert CallSite(functionFqName, parameterNames, resultName) == "val " + resultName + " = " + path + "(" + arguments + ")";
    // Name the read-back terms, so that the existential finds its witnesses.
    assert Split(path, '.') == Split(Join(functionFqName, "."), '.');
    assert ListsInOrder(arguments, parameterNames) == ListsInOrder(Join(parameterNames, ", "), parameterNames);
  }

  /** A dotted path of dot-free segments reads back as its segments. */
  lemma SplitJoinIf(segments: seq<string>)
    ensures DotFreePath(segments) ==> Split(Join(segments, "."), '.') == segments
  {
    if DotFreePath(segments) {
      SplitJoinExact(segments, '.');
      assert ['.'] == ".";
    }
  }

  /** The export annotation's simple name, the text after the last dot of its qualified name. */
  function ExportAnnotationSimpleName(): (name: string)
    ensures name == "ExportForCppRuntime"
  {
    assert ExportAnnotationFqName == "kotlin.native.internal" + ['.'] + "ExportForCppRuntime";
    SubstringAfterLastOf("kotlin.native.internal", "ExportForCppRuntime", '.');
    SubstringAfterLast(ExportAnnotationFqName, '.')
  }

  /**
   * The Kotlin trampoline, five lines: the export annotation naming the
   * bridge symbol, the signature opening the body, the indented call, the
   * indented return of its value, and the closing brace.
   */
  function KotlinBridge(bridgeName: string, functionFqName: seq<string>, returnType: KotlinType,
                        parameterBridges: seq<KotlinBridgeParameter>): (lines: seq<string>)
    ensures |lines| == 5
    ensures lines[0] == "@ExportForCppRuntime(\"" + bridgeName + "\")"
    ensures lines[1] == KotlinDeclarationSignature(bridgeName, returnType, parameterBridges) + " {"
    ensures lines[2] == "    " + CallSite(functionFqName, KotlinNames(parameterBridges), "result")
    ensures lines[3] == "    return result"
    ensures lines[4] == "}"
  {
    var declaration := KotlinDeclarationSignature(bridgeName, returnType, parameterBridges);
    var callSite := CallSite(functionFqName, KotlinNames(parameterBridges), ResultName);
    ReturnLine();
    [ExportAnnotation(bridgeName), declaration + " {", "    " + callSite, "    return " + ResultName, "}"]
  }

  lemma ReturnLine()
    ensures "    return " + ResultName == "    return result"
  {
  }

  /** The annotation line `@ExportForCppRuntime("<bridgeName>")`, by the annotation's simple name. */
  function ExportAnnotation(bridgeName: string): (line: string)
    ensures line == "@ExportForCppRuntime(\"" + bridgeName + "\")"
  {
    var simpleName := ExportAnnotationSimpleName();
    AnnotationText(simpleName, bridgeName);
    "@" + simpleName + "(\"" + bridgeName + "\")"
  }

  lemma AnnotationText(simpleName: string, bridgeName: string)
    requires simpleName == "ExportForCppRuntime"
    ensures "@" + simpleName + "(\"" + bridgeName + "\")" == "@ExportForCppRuntime(\"" + bridgeName + "\")"
  {
  }

  function KotlinSide(bridges: seq<BridgeParameter>): (parameters: seq<KotlinBridgeParameter>)
    ensures |parameters| == |bridges| && forall i :: 0 <= i < |bridges| ==> parameters[i] == bridges[i].kotlin
  {
    seq(|bridges|, i requires 0 <= i < |bridges| => bridges[i].kotlin)
  }

  function CSide(bridges: seq<BridgeParameter>): (parameters: seq<CBridgeParameter>)
    ensures |parameters| == |bridges| && forall i :: 0 <= i < |bridges| ==> parameters[i] == bridges[i].c
  {
    seq(|bridges|, i requires 0 <= i < |bridges| => bridges[i].c)
  }

  /**
   * The generator's entry point. The return type is bridged first, then the
   * parameters in order; the first type that cannot be bridged fails the
   * whole request. Otherwise the result is the Kotlin trampoline with its
   * export annotation and the C declaration with `stdint.h`.
   */
  function Generate(request: BridgeRequest): (r: Result<FunctionBridge, BridgeError>)
    ensures r.Success? <==>
      && Bridgeable(request.sirFunction.returnType)
      && forall i :: 0 <= i < |request.sirFunction.parameters| ==>
           Bridgeable(request.sirFunction.parameters[i].parameterType)
    ensures !Bridgeable(request.sirFunction.returnType) ==>
      r == Failure(BridgeType(request.sirFunction.returnType).error)
    ensures Bridgeable(request.sirFunction.returnType) && r.Failure? ==>
      exists i :: IsFirstUnbridgeable(request.sirFunction.parameters, i)
        && r == Failure(BridgeType(request.sirFunction.parameters[i].parameterType).error)
    ensures r.Success? ==>
      && r.value.kotlin.exportMarkers == ["kotlin.native.internal.ExportForCppRuntime"]
      && r.value.c.includes == ["stdint.h"]
      && |r.value.c.lines| == 1
      && |r.value.kotlin.lines| == 5
      && r.value.kotlin.lines[0] == "@ExportForCppRuntime(\"" + request.bridgeName + "\")"
      && r.value.kotlin.lines[3] == "    return result"
      && r.value.kotlin.lines[4] == "}"
  {
    match BridgeType(request.sirFunction.returnType)
    case Failure(e) => Failure(e)
    case Success((kotlinReturnType, cReturnType)) =>
      match BridgeParameters(request.sirFunction.parameters)
      case Failure(e) => Failure(e)
      case Success(parameterBridges) =>
        var cDeclaration := CDeclaration(request.bridgeName, cReturnType, CSide(parameterBridges));
        var kotlinBridge := KotlinBridge(request.bridgeName, request.fqName, kotlinReturnType, KotlinSide(parameterBridges));
        Success(FunctionBridge(
          KotlinFunctionBridge(kotlinBridge, [ExportAnnotationFqName]),
          CFunctionBridge(cDeclaration, [StdintHeader])))
  }
}
