/**
 * Properties of the generator as a whole: the exact type table, the
 * order and consistency of parameters in the three rendered places, and
 * worked requests with their exact output.
 */
module BridgeProperties {
  import opened Wrappers
  import opened Text
  import opened Sir
  import opened Bridge
  import opened BridgeGenerator

  /** The table of supported scalars: Swift type, Kotlin spelling, C spelling. */
  const ScalarTable: map<SwiftScalar, (string, string)> := map[
    SwiftScalar.Bool := ("Boolean", "_Bool"),
    SwiftScalar.Int8 := ("Byte", "int8_t"),
    SwiftScalar.Int16 := ("Short", "int16_t"),
    SwiftScalar.Int32 := ("Int", "int32_t"),
    SwiftScalar.Int64 := ("Long", "int64_t"),
    SwiftScalar.UInt8 := ("UByte", "uint8_t"),
    SwiftScalar.UInt16 := ("UShort", "uint16_t"),
    SwiftScalar.UInt32 := ("UInt", "uint32_t"),
    SwiftScalar.UInt64 := ("ULong", "uint64_t")
  ]

  /** Every Swift scalar is bridged, to exactly the pair of spellings the table gives. */
  lemma BridgeTypeTable(k: SwiftScalar)
    ensures k in ScalarTable
    ensures var r := BridgeType(SirNominalType(SwiftScalarDeclaration(k)));
      r.Success? && (r.value.0.Repr(), r.value.1.Repr()) == ScalarTable[k]
  {
    match k
    case Bool =>
    case Int8 =>
    case Int16 =>
    case Int32 =>
    case Int64 =>
    case UInt8 =>
    case UInt16 =>
    case UInt32 =>
    case UInt64 =>
  }

  /** Distinct Swift scalars get distinct Kotlin and distinct C types. */
  lemma BridgeTypeInjective(a: SwiftScalar, b: SwiftScalar)
    requires a != b
    ensures var ra := BridgeType(SirNominalType(SwiftScalarDeclaration(a)));
      var rb := BridgeType(SirNominalType(SwiftScalarDeclaration(b)));
      ra.Success? && rb.Success? &&
      ra.value.0.Repr() != rb.value.0.Repr() && ra.value.1.Repr() != rb.value.1.Repr()
  {
    var ra := BridgeType(SirNominalType(SwiftScalarDeclaration(a)));
    var rb := BridgeType(SirNominalType(SwiftScalarDeclaration(b)));
    assert a.Kind() != b.Kind();
    CSpellingsDistinct(ra.value.1, rb.value.1);
    KotlinSpellingsDistinct(ra.value.0, rb.value.0);
  }

  /** Distinct C types are spelled differently. */
  lemma CSpellingsDistinct(x: CType, y: CType)
    ensures x != y ==> x.Repr() != y.Repr()
  {
  }

  /** Distinct Kotlin types are spelled differently. */
  lemma KotlinSpellingsDistinct(x: KotlinType, y: KotlinType)
    ensures x != y ==> x.Repr() != y.Repr()
  {
  }

  ghost predicate AllBridgeable(parameters: seq<SirParameter>)
  {
    forall i :: 0 <= i < |parameters| ==> Bridgeable(parameters[i].parameterType)
  }

  /** What the C declaration must list for parameter `i`: its C type and its argument name. */
  ghost function NativeParameterTexts(parameters: seq<SirParameter>): seq<string>
    requires AllBridgeable(parameters)
  {
    seq(|parameters|, i requires 0 <= i < |parameters| =>
      BridgeType(parameters[i].parameterType).value.1.Repr() + " " + parameters[i].argumentName.GetOr(""))
  }

  /** What the Kotlin signature must list for parameter `i`: its argument name and its Kotlin type. */
  ghost function ManagedParameterTexts(parameters: seq<SirParameter>): seq<string>
    requires AllBridgeable(parameters)
  {
    seq(|parameters|, i requires 0 <= i < |parameters| =>
      parameters[i].argumentName.GetOr("") + ": " + BridgeType(parameters[i].parameterType).value.0.Repr())
  }

  /** The argument names, empty where absent, in declared order. */
  ghost function ArgumentNames(parameters: seq<SirParameter>): seq<string>
  {
    seq(|parameters|, i requires 0 <= i < |parameters| => parameters[i].argumentName.GetOr(""))
  }

  /** The bridged parameters, side by side, are the request's parameters in order. */
  lemma BridgedSides(parameters: seq<SirParameter>)
    requires BridgeParameters(parameters).Success?
    ensures AllBridgeable(parameters)
    ensures var bridges := BridgeParameters(parameters).value;
      && CParameterTexts(CSide(bridges)) == NativeParameterTexts(parameters)
      && KotlinParameterTexts(KotlinSide(bridges)) == ManagedParameterTexts(parameters)
      && KotlinNames(KotlinSide(bridges)) == ArgumentNames(parameters)
  {
    var bridges := BridgeParameters(parameters).value;
    forall i | 0 <= i < |parameters|
      ensures bridges[i].c.name == parameters[i].argumentName.GetOr("")
      ensures bridges[i].kotlin.name == parameters[i].argumentName.GetOr("")
      ensures bridges[i].c.cType == BridgeType(parameters[i].parameterType).value.1
      ensures bridges[i].kotlin.kotlinType == BridgeType(parameters[i].parameterType).value.0
    {
      assert BridgeParameterOf(parameters[i]) == Success(bridges[i]);
    }
  }

  /** The indented call line, with the result variable's name spelled out. */
  lemma CallLine(path: string, arguments: string)
    ensures "    " + ("val " + "result" + " = " + path + "(" + arguments + ")")
         == "    val result = " + path + "(" + arguments + ")"
  {
    assert "    " + "val " + "result" + " = " == "    val result = ";
  }

  /** Type spellings hold no comma, so comma-free argument names give comma-free C texts. */
  lemma NativeTextsCommaFree(parameters: seq<SirParameter>)
    requires AllBridgeable(parameters)
    ensures CommaFree(ArgumentNames(parameters)) ==> CommaFree(NativeParameterTexts(parameters))
  {
    var names := ArgumentNames(parameters);
    var texts := NativeParameterTexts(parameters);
    forall i | 0 <= i < |parameters| && CommaFree(names)
      ensures ',' !in texts[i]
    {
      var spelling := BridgeType(parameters[i].parameterType).value.1.Repr();
      assert ',' !in names[i];
      assert texts[i] == spelling + " " + names[i];
    }
  }

  /** Type spellings hold no comma, so comma-free argument names give comma-free Kotlin texts. */
  lemma ManagedTextsCommaFree(parameters: seq<SirParameter>)
    requires AllBridgeable(parameters)
    ensures CommaFree(ArgumentNames(parameters)) ==> CommaFree(ManagedParameterTexts(parameters))
  {
    var names := ArgumentNames(parameters);
    var texts := ManagedParameterTexts(parameters);
    forall i | 0 <= i < |parameters| && CommaFree(names)
      ensures ',' !in texts[i]
    {
      var spelling := BridgeType(parameters[i].parameterType).value.0.Repr();
      assert ',' !in names[i];
      assert texts[i] == names[i] + ": " + spelling;
    }
  }

  /**
   * For a request whose types are all bridgeable, the C declaration is
   * `<ret> <bridgeName>(<list>);` where the list joins each parameter's C
   * type and argument name in declared order; with comma-free names the
   * list reads back as those texts.
   */
  lemma GeneratedCDeclarationInOrder(request: BridgeRequest)
    requires Bridgeable(request.sirFunction.returnType) && AllBridgeable(request.sirFunction.parameters)
    ensures Generate(request).Success?
    ensures Generate(request).value.c.lines
      == [BridgeType(request.sirFunction.returnType).value.1.Repr() + " " + request.bridgeName
          + "(" + Join(NativeParameterTexts(request.sirFunction.parameters), ", ") + ");"]
    ensures CommaFree(ArgumentNames(request.sirFunction.parameters)) ==>
      var texts := NativeParameterTexts(request.sirFunction.parameters);
      ListsInOrder(Join(texts, ", "), texts)
  {
    var parameters := request.sirFunction.parameters;
    BridgedSides(parameters);
    NativeTextsCommaFree(parameters);
    CommaListInOrder(NativeParameterTexts(parameters));
  }

  /**
   * For a request whose types are all bridgeable, the Kotlin line 1 is
   * `public fun <bridgeName>(<list>): <Ret> {` where the list joins each
   * parameter's argument name and Kotlin type in declared order; with
   * comma-free names the list reads back as those texts.
   */
  lemma GeneratedKotlinSignatureInOrder(request: BridgeRequest)
    requires Bridgeable(request.sirFunction.returnType) && AllBridgeable(request.sirFunction.parameters)
    ensures Generate(request).Success?
    ensures Generate(request).value.kotlin.lines[1]
      == "public fun " + request.bridgeName + "(" + Join(ManagedParameterTexts(request.sirFunction.parameters), ", ")
         + "): " + BridgeType(request.sirFunction.returnType).value.0.Repr() + " {"
    ensures CommaFree(ArgumentNames(request.sirFunction.parameters)) ==>
      var texts := ManagedParameterTexts(request.sirFunction.parameters);
      ListsInOrder(Join(texts, ", "), texts)
  {
    var parameters := request.sirFunction.parameters;
    BridgedSides(parameters);
    ManagedTextsCommaFree(parameters);
    CommaListInOrder(ManagedParameterTexts(parameters));
  }

  /**
   * For a request whose types are all bridgeable, the Kotlin line 2 is
   * `    val result = <path>(<arguments>)`: the qualified name joined with
   * dots and the argument names joined with commas, in declared order. A
   * dot-free path splits back into the qualified name, and comma-free
   * arguments read back as the argument names.
   */
  lemma GeneratedCallInOrder(request: BridgeRequest)
    requires Bridgeable(request.sirFunction.returnType) && AllBridgeable(request.sirFunction.parameters)
    ensures Generate(request).Success?
    ensures Generate(request).value.kotlin.lines[2]
      == "    val result = " + Join(request.fqName, ".")
         + "(" + Join(ArgumentNames(request.sirFunction.parameters), ", ") + ")"
    ensures DotFreePath(request.fqName) ==> Split(Join(request.fqName, "."), '.') == request.fqName
    ensures CommaFree(ArgumentNames(request.sirFunction.parameters)) ==>
      var names := ArgumentNames(request.sirFunction.parameters);
      ListsInOrder(Join(names, ", "), names)
  {
    var parameters := request.sirFunction.parameters;
    BridgedSides(parameters);
    CallLine(Join(request.fqName, "."), Join(ArgumentNames(parameters), ", "));
    SplitJoinIf(request.fqName);
    CommaListInOrder(ArgumentNames(parameters));
  }

  const Int32Type: SirType := SirNominalType(SwiftScalarDeclaration(SwiftScalar.Int32))
  const BoolType: SirType := SirNominalType(SwiftScalarDeclaration(SwiftScalar.Bool))

  const AddParameters: seq<SirParameter> := [SirParameter(Some("a"), Int32Type), SirParameter(Some("b"), Int32Type)]
  const AddBridges: seq<BridgeParameter> := [
    BridgeParameter(KotlinBridgeParameter("a", KotlinType.Int), CBridgeParameter("a", CType.Int32)),
    BridgeParameter(KotlinBridgeParameter("b", KotlinType.Int), CBridgeParameter("b", CType.Int32))
  ]
  const AddCParameters: seq<CBridgeParameter> := [CBridgeParameter("a", CType.Int32), CBridgeParameter("b", CType.Int32)]
  const AddKotlinParameters: seq<KotlinBridgeParameter> :=
    [KotlinBridgeParameter("a", KotlinType.Int), KotlinBridgeParameter("b", KotlinType.Int)]

  /** Both parameters of `add` bridge to `Int` / `int32_t` under their own names. */
  lemma AddParametersBridged()
    ensures BridgeParameters(AddParameters) == Success(AddBridges)
    ensures CSide(AddBridges) == AddCParameters && KotlinSide(AddBridges) == AddKotlinParameters
  {
    var a := AddParameters[0];
    var b := AddParameters[1];
    assert BridgeType(Int32Type) == Success((KotlinType.Int, CType.Int32));
    assert BridgeParameterOf(a) == Success(AddBridges[0]);
    assert BridgeParameterOf(b) == Success(AddBridges[1]);
    assert AddParameters[1..] == [b] && [b][1..] == [];
    assert [AddBridges[1]] + [] == [AddBridges[1]];
    assert BridgeParameters([b]) == Success([AddBridges[1]]);
    assert [AddBridges[0]] + [AddBridges[1]] == AddBridges;
  }

  /** The C declaration of `add`: both parameters, type then name, in order. */
  lemma AddCDeclaration()
    ensures CDeclaration("bridge_add", CType.Int32, AddCParameters) == ["int32_t bridge_add(int32_t a, int32_t b);"]
  {
    AddCList();
    assert CType.Int32.Repr() == "int32_t";
    assert "int32_t" + " " + "bridge_add" + "(" == "int32_t bridge_add(";
    assert "int32_t bridge_add(" + "int32_t a, int32_t b" + ");" == "int32_t bridge_add(int32_t a, int32_t b);";
  }

  lemma AddCList()
    ensures Join(CParameterTexts(AddCParameters), ", ") == "int32_t a, int32_t b"
  {
    var texts := CParameterTexts(AddCParameters);
    assert texts[0] == "int32_t" + " " + "a" == "int32_t a";
    assert texts[1] == "int32_t" + " " + "b" == "int32_t b";
    assert texts[1..] == ["int32_t b"];
    assert Join(texts, ", ") == "int32_t a" + ", " + "int32_t b";
  }

  /** The signature line of `add`'s trampoline: both parameters, name then type, in order. */
  lemma AddSignatureLine()
    ensures KotlinDeclarationSignature("bridge_add", KotlinType.Int, AddKotlinParameters) + " {"
         == "public fun bridge_add(a: Int, b: Int): Int {"
  {
    AddKotlinList();
    assert "public fun " + "bridge_add" + "(" == "public fun bridge_add(";
  }

  lemma AddKotlinList()
    ensures Join(KotlinParameterTexts(AddKotlinParameters), ", ") == "a: Int, b: Int"
  {
    var texts := KotlinParameterTexts(AddKotlinParameters);
    assert texts[0] == "a" + ": " + "Int" == "a: Int";
    assert texts[1] == "b" + ": " + "Int" == "b: Int";
    assert texts[1..] == ["b: Int"];
    assert Join(texts, ", ") == "a: Int" + ", " + "b: Int";
  }

  /** The call line of `add`'s trampoline: the dotted name and both names, in order. */
  lemma AddCallLine()
    ensures "    " + CallSite(["pkg", "add"], KotlinNames(AddKotlinParameters), "result") == "    val result = pkg.add(a, b)"
  {
    var names := KotlinNames(AddKotlinParameters);
    assert names == ["a", "b"] && names[1..] == ["b"];
    assert Join(names, ", ") == "a" + ", " + "b";
    assert ["pkg", "add"][1..] == ["add"];
    assert Join(["pkg", "add"], ".") == "pkg" + "." + "add";
    CallLine("pkg.add", "a, b");
  }

  const AddKotlinLines: seq<string> := [
    "@ExportForCppRuntime(\"bridge_add\")",
    "public fun bridge_add(a: Int, b: Int): Int {",
    "    val result = pkg.add(a, b)",
    "    return result",
    "}"
  ]

  /** The trampoline of `add`, line by line. */
  lemma AddKotlinBridge()
    ensures KotlinBridge("bridge_add", ["pkg", "add"], KotlinType.Int, AddKotlinParameters) == AddKotlinLines
  {
    var lines := KotlinBridge("bridge_add", ["pkg", "add"], KotlinType.Int, AddKotlinParameters);
    AddAnnotation();
    AddSignatureLine();
    AddCallLine();
    assert lines == [lines[0], lines[1], lines[2], lines[3], lines[4]];
  }

  /** The annotation line of `add`'s trampoline names its bridge symbol. */
  lemma AddAnnotation()
    ensures ExportAnnotation("bridge_add") == "@ExportForCppRuntime(\"bridge_add\")"
  {
    assert "@ExportForCppRuntime(\"" + "bridge_add" == "@ExportForCppRuntime(\"bridge_add";
    assert "@ExportForCppRuntime(\"bridge_add" + "\")" == "@ExportForCppRuntime(\"bridge_add\")";
  }

  /** `add(a: Int32, b: Int32): Int32` in `pkg`, bridged as `bridge_add`: the complete output. */
  lemma AddBridge()
    ensures Generate(BridgeRequest(SirFunction(AddParameters, Int32Type), "bridge_add", ["pkg", "add"]))
      == Success(FunctionBridge(
           KotlinFunctionBridge(
             ["@ExportForCppRuntime(\"bridge_add\")",
              "public fun bridge_add(a: Int, b: Int): Int {",
              "    val result = pkg.add(a, b)",
              "    return result",
              "}"],
             ["kotlin.native.internal.ExportForCppRuntime"]),
           CFunctionBridge(["int32_t bridge_add(int32_t a, int32_t b);"], ["stdint.h"])))
  {
    AddParametersBridged();
    AddCDeclaration();
    AddKotlinBridge();
    assert BridgeType(Int32Type) == Success((KotlinType.Int, CType.Int32));
  }

  /** The C declaration of `flag`, with an empty list. */
  lemma NoParameterCDeclaration()
    ensures CDeclaration("bridge_flag", CType.Bool, []) == ["_Bool bridge_flag();"]
  {
    assert CParameterTexts([]) == [] && CType.Bool.Repr() == "_Bool";
    assert "_Bool" + " " + "bridge_flag" + "(" + "" == "_Bool bridge_flag(";
    assert "_Bool bridge_flag(" + ");" == "_Bool bridge_flag();";
  }

  /** The signature line of `flag`'s trampoline, with an empty list. */
  lemma NoParameterSignatureLine()
    ensures KotlinDeclarationSignature("bridge_flag", KotlinType.Boolean, []) + " {" == "public fun bridge_flag(): Boolean {"
  {
    assert KotlinParameterTexts([]) == [];
    assert "public fun " + "bridge_flag" + "(" + "" == "public fun bridge_flag(";
  }

  /** The call line of `flag`'s trampoline, passing nothing. */
  lemma NoParameterCallLine()
    ensures "    " + CallSite(["pkg", "flag"], [], "result") == "    val result = pkg.flag()"
  {
    assert ["pkg", "flag"][1..] == ["flag"];
    assert Join(["pkg", "flag"], ".") == "pkg" + "." + "flag";
    CallLine("pkg.flag", "");
  }

  /** With no parameters both declarations have an empty list, `()`, not `(void)`. */
  lemma NoParameterBridge()
    ensures var r := Generate(BridgeRequest(SirFunction([], BoolType), "bridge_flag", ["pkg", "flag"]));
      && r.Success?
      && r.value.c.lines == ["_Bool bridge_flag();"]
      && r.value.kotlin.lines[1] == "public fun bridge_flag(): Boolean {"
      && r.value.kotlin.lines[2] == "    val result = pkg.flag()"
  {
    assert CSide([]) == [] && KotlinSide([]) == [] && KotlinNames([]) == [];
    NoParameterCDeclaration();
    NoParameterSignatureLine();
    NoParameterCallLine();
  }

  const UnnamedBridge: BridgeParameter := BridgeParameter(KotlinBridgeParameter("", KotlinType.Int), CBridgeParameter("", CType.Int32))

  /** A parameter without an argument name is bridged under the empty name on both sides. */
  lemma UnnamedBridged()
    ensures BridgeParameters([SirParameter(None, Int32Type)]) == Success([UnnamedBridge])
    ensures CSide([UnnamedBridge]) == [UnnamedBridge.c] && KotlinSide([UnnamedBridge]) == [UnnamedBridge.kotlin]
    ensures KotlinNames([UnnamedBridge.kotlin]) == [""]
  {
    var p := SirParameter(None, Int32Type);
    assert BridgeParameterOf(p) == Success(UnnamedBridge);
    assert [p][1..] == [] && [UnnamedBridge] + [] == [UnnamedBridge];
  }

  /** The C declaration of `anon`: the type, a space, and the empty name. */
  lemma UnnamedCDeclaration()
    ensures CDeclaration("bridge_anon", CType.Int32, [UnnamedBridge.c]) == ["int32_t bridge_anon(int32_t );"]
  {
    assert CParameterTexts([UnnamedBridge.c]) == ["int32_t" + " " + ""];
    assert "int32_t" + " " + "" == "int32_t ";
    assert Join(["int32_t "], ", ") == "int32_t ";
    assert CType.Int32.Repr() == "int32_t";
    assert "int32_t" + " " + "bridge_anon" + "(" == "int32_t bridge_anon(";
    assert "int32_t bridge_anon(" + "int32_t " + ");" == "int32_t bridge_anon(int32_t );";
  }

  /** The signature line of `anon`'s trampoline: the empty name, then the type. */
  lemma UnnamedSignatureLine()
    ensures KotlinDeclarationSignature("bridge_anon", KotlinType.Int, [UnnamedBridge.kotlin]) + " {" == "public fun bridge_anon(: Int): Int {"
  {
    assert KotlinParameterTexts([UnnamedBridge.kotlin]) == ["" + ": " + "Int"];
    assert "public fun " + "bridge_anon" + "(" == "public fun bridge_anon(";
  }

  /** The call line of `anon`'s trampoline: the empty name leaves the argument list empty. */
  lemma UnnamedCallLine()
    ensures "    " + CallSite(["pkg", "anon"], [""], "result") == "    val result = pkg.anon()"
  {
    assert ["pkg", "anon"][1..] == ["anon"];
    assert Join(["pkg", "anon"], ".") == "pkg" + "." + "anon";
    assert Join([""], ", ") == "";
    CallLine("pkg.anon", "");
  }

  /**
   * A parameter without an argument name gets the empty name on both sides,
   * so the C declaration lists its type alone and the call passes nothing for it.
   */
  lemma UnnamedParameterBridge()
    ensures var r := Generate(BridgeRequest(SirFunction([SirParameter(None, Int32Type)], Int32Type), "bridge_anon", ["pkg", "anon"]));
      && r.Success?
      && r.value.c.lines == ["int32_t bridge_anon(int32_t );"]
      && r.value.kotlin.lines[1] == "public fun bridge_anon(: Int): Int {"
      && r.value.kotlin.lines[2] == "    val result = pkg.anon()"
  {
    UnnamedBridged();
    UnnamedCDeclaration();
    UnnamedSignatureLine();
    UnnamedCallLine();
  }

  /** A class return type fails the request, blamed on the return type, whatever the parameters. */
  lemma ClassReturnTypeFails(parameters: seq<SirParameter>)
    ensures var classType := SirNominalType(OtherDeclaration("Widget"));
      Generate(BridgeRequest(SirFunction(parameters, classType), "bridge_widget", ["pkg", "widget"]))
        == Failure(UnsupportedType(classType))
  {
  }

  /** A return type that is not nominal fails the `require`, before any parameter is looked at. */
  lemma NonNominalReturnTypeFails(parameters: seq<SirParameter>)
    ensures var other := SirOtherType("(Int32) -> Int32");
      Generate(BridgeRequest(SirFunction(parameters, other), "bridge_fn", ["pkg", "fn"]))
        == Failure(NotNominal(other))
  {
  }

  /** With a supported return type, the first unsupported parameter is the one blamed. */
  lemma FirstBadParameterBlamed()
    ensures var bad := SirNominalType(OtherDeclaration("String"));
      var worse := SirOtherType("[Int32]");
      var parameters := [SirParameter(Some("x"), Int32Type), SirParameter(Some("s"), bad), SirParameter(Some("l"), worse)];
      Generate(BridgeRequest(SirFunction(parameters, Int32Type), "bridge_mixed", ["pkg", "mixed"]))
        == Failure(UnsupportedType(bad))
  {
    var bad := SirNominalType(OtherDeclaration("String"));
    var worse := SirOtherType("[Int32]");
    var parameters := [SirParameter(Some("x"), Int32Type), SirParameter(Some("s"), bad), SirParameter(Some("l"), worse)];
    var r := Generate(BridgeRequest(SirFunction(parameters, Int32Type), "bridge_mixed", ["pkg", "mixed"]));
    assert !Bridgeable(parameters[1].parameterType);
    assert r.Failure?;
    var i :| IsFirstUnbridgeable(parameters, i) && r == Failure(BridgeType(parameters[i].parameterType).error);
    assert i == 1 by {
      if i == 2 {
        assert !Bridgeable(parameters[1].parameterType);
      }
    }
  }
}
