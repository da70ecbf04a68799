# Swift export function bridge generator

This project models the function bridge generator of the Kotlin/Native
Swift export pipeline (`BridgeGeneratorImpl.kt`). It takes a bridge
request: a SIR function (the Swift intermediate representation of a
Kotlin function), a bridge symbol name and the function's fully
qualified name. From it the generator produces two artefacts:

- a C declaration of the bridge symbol, one line
  `<ret> <bridgeName>(<type name, ...>);`, which needs the header
  `stdint.h`;
- a Kotlin trampoline of five lines. The first is the annotation
  `@ExportForCppRuntime("<bridgeName>")`, then the signature
  `public fun <bridgeName>(<name: Type, ...>): <Ret> {`, then
  `    val result = <a.b.f>(<names>)`, then `    return result`, then `}`.
  The trampoline needs the marker `kotlin.native.internal.ExportForCppRuntime`.

Only the nine Swift scalars can cross the bridge: `Bool` and the signed
and unsigned integers of 8, 16, 32 and 64 bits. The generator bridges the
return type first, then every parameter in declared order. The first type
that cannot be bridged fails the whole request:

- a type that is not nominal fails the generator's `require`;
- a nominal type outside the nine fails as "Unsupported type".

A parameter's bridge name is its argument name unchanged, or the empty
string when it has none.

Modules:

- `Wrappers`: `Option` and `Result`.
- `Text`: the Kotlin standard-library string operations the generator uses (`joinToString`, `substringAfterLast`), plus `split`. The model uses `split` to read rendered lists back.
- `Sir`: the abstracted SIR types.
- `Bridge`: the request and result records.
- `BridgeGenerator`: the generator itself.
- `BridgeProperties`: whole-request properties and worked requests with their exact output.

The generator's exceptions become `Failure` values of `BridgeError`:

- `NotNominal` stands for the failed `require`;
- `UnsupportedType` stands for `error("Unsupported type: …")`.

Each carries the offending type.

"Read back in order" in the table below means this. Splitting the rendered list at `,` gives the listed items in order, each after the first with a leading space (`ListsInOrder`). Splitting the rendered path at `.` gives the qualified name's segments.

## Model

All source paths are relative to the repository root. `BG` stands for
`native/swift/sir-compiler-bridge/src/org/jetbrains/kotlin/sir/bridge/impl/BridgeGeneratorImpl.kt`
in the prose only; the table spells it out.

| member | source | states |
|---|---|---|
| BridgeGenerator.CType.Repr | native/swift/sir-compiler-bridge/src/org/jetbrains/kotlin/sir/bridge/impl/BridgeGeneratorImpl.kt:114-126 | every C type spelling is a single identifier, with no comma and no space, so it cannot break a parameter list |
| BridgeGenerator.KotlinType.Repr | native/swift/sir-compiler-bridge/src/org/jetbrains/kotlin/sir/bridge/impl/BridgeGeneratorImpl.kt:133-145 | every Kotlin type spelling is a single identifier, with no comma and no space |
| BridgeGenerator.BridgeType | native/swift/sir-compiler-bridge/src/org/jetbrains/kotlin/sir/bridge/impl/BridgeGeneratorImpl.kt:71-88 | succeeds exactly for a nominal reference to one of the nine Swift scalars. A failure carries the offending type, and is the `require` failure exactly when the type is not nominal. On success, the Kotlin and C types have the Swift scalar's width and signedness |
| BridgeGenerator.ParameterName | native/swift/sir-compiler-bridge/src/org/jetbrains/kotlin/sir/bridge/impl/BridgeGeneratorImpl.kt:91 | the bridge name is the argument name unchanged, or "" when the parameter has none |
| BridgeGenerator.BridgeParameterOf | native/swift/sir-compiler-bridge/src/org/jetbrains/kotlin/sir/bridge/impl/BridgeGeneratorImpl.kt:90-97 | succeeds exactly when the parameter's type is bridgeable, otherwise fails with that type's error. Both sides get the same name (the argument name or "") and the pair of types the type mapper gives |
| BridgeGenerator.BridgeParameters | native/swift/sir-compiler-bridge/src/org/jetbrains/kotlin/sir/bridge/impl/BridgeGeneratorImpl.kt:20 | succeeds exactly when every parameter is bridgeable, and then gives each parameter's bridge at its own position. On failure the error is that of the first unbridgeable parameter |
| BridgeGenerator.KotlinSide | native/swift/sir-compiler-bridge/src/org/jetbrains/kotlin/sir/bridge/impl/BridgeGeneratorImpl.kt:23 | the Kotlin halves of the bridges, same length, position for position |
| BridgeGenerator.CSide | native/swift/sir-compiler-bridge/src/org/jetbrains/kotlin/sir/bridge/impl/BridgeGeneratorImpl.kt:22 | the C halves of the bridges, same length, position for position |
| BridgeGenerator.KotlinNames | native/swift/sir-compiler-bridge/src/org/jetbrains/kotlin/sir/bridge/impl/BridgeGeneratorImpl.kt:40 | the names passed to the call are the Kotlin parameters' names, same length, position for position |
| BridgeGenerator.CDeclaration | native/swift/sir-compiler-bridge/src/org/jetbrains/kotlin/sir/bridge/impl/BridgeGeneratorImpl.kt:64-68 | the C declaration is exactly one line |
| BridgeGenerator.CDeclarationInOrder | native/swift/sir-compiler-bridge/src/org/jetbrains/kotlin/sir/bridge/impl/BridgeGeneratorImpl.kt:64-68 | the line is `<ret> <name>(<list>);`. With comma-free names, the list reads back as the `<type> <name>` texts in order; an empty list gives `()` |
| BridgeGenerator.KotlinSignatureInOrder | native/swift/sir-compiler-bridge/src/org/jetbrains/kotlin/sir/bridge/impl/BridgeGeneratorImpl.kt:55-62 | the signature is `public fun <name>(<list>): <Ret>`. With comma-free names, the list reads back as the `<name>: <Type>` texts in order |
| BridgeGenerator.CallSiteInOrder | native/swift/sir-compiler-bridge/src/org/jetbrains/kotlin/sir/bridge/impl/BridgeGeneratorImpl.kt:50-53 | the call is `val <result> = <path>(<arguments>)`. For a non-empty, dot-free qualified name, the path splits at `.` back into its segments. With comma-free names, the arguments read back as the names in order |
| BridgeGenerator.ExportAnnotationSimpleName | native/swift/sir-compiler-bridge/src/org/jetbrains/kotlin/sir/bridge/impl/BridgeGeneratorImpl.kt:38 | the text after the last `.` of the qualified annotation name `kotlin.native.internal.ExportForCppRuntime` is `ExportForCppRuntime` |
| BridgeGenerator.ExportAnnotation | native/swift/sir-compiler-bridge/src/org/jetbrains/kotlin/sir/bridge/impl/BridgeGeneratorImpl.kt:38 | the annotation line is `@ExportForCppRuntime("<bridgeName>")` |
| BridgeGenerator.KotlinBridge | native/swift/sir-compiler-bridge/src/org/jetbrains/kotlin/sir/bridge/impl/BridgeGeneratorImpl.kt:31-48 | the trampoline is exactly five lines: the annotation, the signature followed by ` {`, the call indented by four spaces binding `result`, `    return result`, and `}` |
| BridgeGenerator.Generate | native/swift/sir-compiler-bridge/src/org/jetbrains/kotlin/sir/bridge/impl/BridgeGeneratorImpl.kt:18-28 | succeeds exactly when the return type and every parameter type are bridgeable (all or nothing). An unbridgeable return type is blamed before any parameter; otherwise the first unbridgeable parameter is blamed. On success the markers are exactly the annotation's qualified name and the includes exactly `stdint.h`; the C side has one line and the Kotlin side five, with annotation, return and closing lines as given |
| Text.SubstringAfterLast | native/swift/sir-compiler-bridge/src/org/jetbrains/kotlin/sir/bridge/impl/BridgeGeneratorImpl.kt:38 | the result is a suffix of the text that holds no delimiter. When the text holds the delimiter, the character just before the result is the delimiter; otherwise the result is the whole text |
| Text.CommaListInOrder | native/swift/sir-compiler-bridge/src/org/jetbrains/kotlin/sir/bridge/impl/BridgeGeneratorImpl.kt:65 | a list joined with `", "` whose items hold no comma reads back as those items in order |
| BridgeProperties.BridgeTypeTable | native/swift/sir-compiler-bridge/src/org/jetbrains/kotlin/sir/bridge/impl/BridgeGeneratorImpl.kt:73-85 | each of the nine scalars is bridged to exactly the Kotlin and C spellings of the nine-entry table |
| BridgeProperties.BridgeTypeInjective | native/swift/sir-compiler-bridge/src/org/jetbrains/kotlin/sir/bridge/impl/BridgeGeneratorImpl.kt:73-85 | distinct scalars get distinct Kotlin spellings and distinct C spellings |
| BridgeProperties.BridgedSides | native/swift/sir-compiler-bridge/src/org/jetbrains/kotlin/sir/bridge/impl/BridgeGeneratorImpl.kt:20-23 | after bridging, the C texts, the Kotlin texts and both name lists are those of the request's parameters, in declared order, with the same name on both sides |
| BridgeProperties.GeneratedCDeclarationInOrder | native/swift/sir-compiler-bridge/src/org/jetbrains/kotlin/sir/bridge/impl/BridgeGeneratorImpl.kt:22 | for a request whose types are all bridgeable, generation succeeds and the C line is exactly `<C type of the return type> <bridgeName>(<list>);`, the list joining each request parameter's `<C type> <argument name>` with `", "` in declared order. When no argument name holds a comma, the list reads back as those texts in order |
| BridgeProperties.GeneratedKotlinSignatureInOrder | native/swift/sir-compiler-bridge/src/org/jetbrains/kotlin/sir/bridge/impl/BridgeGeneratorImpl.kt:23 | for a request whose types are all bridgeable, generation succeeds and Kotlin line 1 is exactly `public fun <bridgeName>(<list>): <Kotlin return type> {`, the list joining each request parameter's `<argument name>: <Kotlin type>` with `", "` in declared order. When no argument name holds a comma, the list reads back as those texts in order |
| BridgeProperties.GeneratedCallInOrder | native/swift/sir-compiler-bridge/src/org/jetbrains/kotlin/sir/bridge/impl/BridgeGeneratorImpl.kt:40 | for a request whose types are all bridgeable, generation succeeds and Kotlin line 2 is exactly `    val result = <path>(<arguments>)`, the path joining the qualified name with `.` and the arguments joining the argument names with `", "` in declared order. A non-empty, dot-free qualified name splits back from the path, and comma-free names read back from the arguments, in order |
| BridgeProperties.AddBridge | native/swift/sir-compiler-bridge/src/org/jetbrains/kotlin/sir/bridge/impl/BridgeGeneratorImpl.kt:18-28 | the complete output for `pkg.add(a: Int32, b: Int32) -> Int32` bridged as `bridge_add` |
| BridgeProperties.NoParameterBridge | native/swift/sir-compiler-bridge/src/org/jetbrains/kotlin/sir/bridge/impl/BridgeGeneratorImpl.kt:64-66 | with no parameters both lists are empty: `_Bool bridge_flag();`, `public fun bridge_flag(): Boolean {` and `    val result = pkg.flag()` |
| BridgeProperties.UnnamedParameterBridge | native/swift/sir-compiler-bridge/src/org/jetbrains/kotlin/sir/bridge/impl/BridgeGeneratorImpl.kt:91 | a parameter without an argument name gets "": `int32_t bridge_anon(int32_t );`, `public fun bridge_anon(: Int): Int {` and the call `pkg.anon()` |
| BridgeProperties.ClassReturnTypeFails | native/swift/sir-compiler-bridge/src/org/jetbrains/kotlin/sir/bridge/impl/BridgeGeneratorImpl.kt:86 | a nominal non-scalar return type fails as unsupported, blamed on the return type, whatever the parameters |
| BridgeProperties.NonNominalReturnTypeFails | native/swift/sir-compiler-bridge/src/org/jetbrains/kotlin/sir/bridge/impl/BridgeGeneratorImpl.kt:72 | a non-nominal return type fails the `require`, whatever the parameters |
| BridgeProperties.FirstBadParameterBlamed | native/swift/sir-compiler-bridge/src/org/jetbrains/kotlin/sir/bridge/impl/BridgeGeneratorImpl.kt:19-20 | with a good return type, the first bad parameter is blamed (here an unsupported nominal type), not a later non-nominal one |

## Left out

- The `BridgeGenerator` interface and its factory: only the implementation is modelled. `BridgeRequest`, `FunctionBridge`, `KotlinFunctionBridge` and `CFunctionBridge` are declared in files that are not part of this model. Their fields follow their uses in `BG:18-27`. The request's `function` field is called `sirFunction`, because `function` is a Dafny keyword.
- BridgeType: the source's `require(type is SirNominalType)` (`BG:72`) has no message. The offending type carried by `NotNominal`, and so the statement that a non-nominal return type is what gets blamed, are additions of the model; the source only fails.
- Exceptions: `IllegalArgumentException` (the `require`) and `IllegalStateException` (`error`) become the two `BridgeError` cases. The message text "Unsupported type: …" is not modelled.
- `SirSwiftModule` declarations are compared by identity in the source. The model has a tagged `SirDeclaration` instead: one of the nine scalars, or anything else. The SIR type hierarchy is reduced to nominal versus any other type.
- KotlinBridge: it states the five lines that `trimIndent().lines()` produces when no interpolated name holds a line break. With a line break inside the bridge name, a qualified-name segment or a parameter name, `lines()` would split that line. The model does not capture this.
- Generate: its five Kotlin lines rest on the same assumption as `KotlinBridge`, that no interpolated name holds a line break.
- GeneratedKotlinSignatureInOrder: the signature sits at line index 1 only under that same no-line-break assumption.
- GeneratedCallInOrder: the call sits at line index 2 only under that same no-line-break assumption.
- ParameterName: C's stricter identifier rules are a TODO in the source (`BG:100`), so no sanitising is applied. The model reproduces the as-written output for an unnamed parameter (`UnnamedParameterBridge`), which is not a valid Kotlin signature.
- GeneratedCDeclarationInOrder: the read-back of the list is proved only for argument names without commas. With a comma in a name the rendered list is ambiguous. The exact line is stated for every bridgeable request.
- GeneratedKotlinSignatureInOrder: the read-back has the same comma-free condition on names. The exact line is stated for every bridgeable request.
- GeneratedCallInOrder: splitting the path back also needs a non-empty qualified name whose segments hold no `.`.
- GeneratedCallInOrder: an unnamed parameter passes the empty name, so it drops out of the call (`pkg.anon()` in `UnnamedParameterBridge`). The read-back does not catch this, because the empty argument list reads back both as no names and as one empty name.
- `ScalarKind` (width and signedness) is not in the source. It is an independent table, added so that the type mapping can be checked for consistency across its three sides.
- Export markers and includes are sequences (`listOf` in the source), not sets.
