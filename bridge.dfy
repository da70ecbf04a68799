/**
 * The records of the bridge generator's interface: one request per
 * exported function, and the pair of artefacts produced for it.
 */
module Bridge {
  import opened Sir

  /** The function to bridge, the symbol both sides agree on, and the function's qualified name. */
  datatype BridgeRequest = BridgeRequest(sirFunction: SirFunction, bridgeName: string, fqName: seq<string>)

  /** The Kotlin trampoline's lines and the annotations it needs. */
  datatype KotlinFunctionBridge = KotlinFunctionBridge(lines: seq<string>, exportMarkers: seq<string>)

  /** The C declaration's lines and the headers it needs. */
  datatype CFunctionBridge = CFunctionBridge(lines: seq<string>, includes: seq<string>)

  datatype FunctionBridge = FunctionBridge(kotlin: KotlinFunctionBridge, c: CFunctionBridge)
}
