/**
 * What an invocation emits. Each `print` call of the CLI is one `Printed`
 * item; the byte-level renderings that Foundation and the Swift runtime
 * produce (pretty-printed JSON, a dictionary's description, the usage text)
 * stay abstract as their own variants.
 */
module Output {
  import opened Json

  datatype Printed =
    | Line(text: string)                 // print(text)
    | Envelope(ok: bool, result: Json)   // printJSON(ok:result:)
    | Description(obj: Object)           // print(res) of a dictionary
    | PrettyJson(value: Json)            // pretty-printed JSON of an array or dictionary
    | Described(value: Json)             // String(describing: value)
    | Usage                              // printHelp()

  datatype FileData = TextFile(text: string) | PrettyJsonFile(obj: Object)

  datatype Effect =
    | Stdout(item: Printed)
    | Stderr(line: string)
    | WriteFile(path: string, data: FileData)

  /** The machine-mode envelope of a failure: `{"ok": false, "result": {"error": msg}}`. */
  function ErrorEnvelope(msg: string): Printed {
    Envelope(false, JObj(map["error" := JStr(msg)]))
  }

  /** How the top-level `catch` of `run` reports a failure: the envelope in
      machine mode, one line on standard error otherwise. */
  function ReportFailure(msg: string, jsonOutput: bool): (r: seq<Effect>)
    ensures |r| == 1
    ensures jsonOutput <==> r[0].Stdout?
    ensures r[0] == Stdout(ErrorEnvelope(msg)) || r[0] == Stderr(msg)
  {
    if jsonOutput then [Stdout(ErrorEnvelope(msg))] else [Stderr(msg)]
  }
}
