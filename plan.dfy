/**
 * Dispatch and request planning of `BrowserCLI.run`: from the subcommand, the
 * scanned flags, the configuration and the caller's environment to either an
 * exit with no request, an error thrown out of `run`, or exactly one request
 * to the control server together with the way its answer is to be shown.
 */
module Plan {
  import opened Wrappers
  import opened Json
  import Text
  import opened Args
  import opened Config
  import opened Output
  import Errors

  datatype Method = Get | Post | Delete {
    function Name(): string {
      match this
      case Get => "GET"
      case Post => "POST"
      case Delete => "DELETE"
    }
  }

  datatype QueryItem = QueryItem(name: string, value: string)

  /** One HTTP call: the path is appended to the base URL; an empty `query`
      means the URL carries no query string; the timeout is in seconds. */
  datatype Request = Request(verb: Method, path: string, query: seq<QueryItem>, body: Option<Object>, timeout: nat)

  /** How the answer of each subcommand is shown. */
  datatype View =
    | ResultView
    | TabsView
    | ScreenshotView
    | EvalView
    | QueryView(asJson: bool)
    | DomView(outPath: Option<string>)
    | SnapshotView(outPath: Option<string>, domSnapshot: bool)

  /** Reading the `--js-file` script. */
  datatype ScriptFile = Contents(text: string) | Unreadable(description: string)

  /** What the invocation gets from outside: the file system for `--js-file`,
      standard input (none when it is not valid UTF-8), whether Foundation's
      `URL(string:)` accepts a string, and the outcome of writing `--out`
      (none on success, else the error's description). */
  datatype Env = Env(
    readFile: string -> ScriptFile,
    stdin: Option<string>,
    urlParses: string -> bool,
    writeError: Option<string>)

  datatype Step =
    | Exit(code: int, effects: seq<Effect>)
    | Throw(message: string)
    | Send(request: Request, view: View, base: string)

  const Usage2: Step := Exit(2, [Stdout(Usage)])
  const DisabledMessage: string := "Browser control is disabled in ~/.clawdis/clawdis.json (browser.enabled=false)."

  predicate IsHelp(sub: string) {
    sub == "--help" || sub == "-h" || sub == "help"
  }

  const Subcommands: set<string> :=
    {"status", "start", "stop", "tabs", "open", "focus", "close", "screenshot", "eval", "query", "dom", "snapshot"}

  // ----- query items -----

  /** The value of the first item named `name`. */
  function Lookup(items: seq<QueryItem>, name: string): Option<string> {
    if items == [] then None
    else if items[0].name == name then Some(items[0].value)
    else Lookup(items[1..], name)
  }

  predicate NonEmpty(v: Option<string>) {
    v.Some? && v.value != []
  }

  /** `targetId=<id>` when `--target-id` gave a non-empty id. */
  function TargetItem(f: Flags): (r: seq<QueryItem>)
    ensures |r| <= 1 && (r != [] ==> r[0].name == "targetId")
    ensures Lookup(r, "targetId") == (if NonEmpty(f.targetId) then Some(f.targetId.value) else None)
  {
    if NonEmpty(f.targetId) then [QueryItem("targetId", f.targetId.value)] else []
  }

  /** `<name>=<n>` for a positive integer value; `String(n)` renders it. */
  function PositiveItem(name: string, n: Option<int>): (r: seq<QueryItem>)
    ensures |r| <= 1 && (r != [] ==> r[0].name == name)
    ensures Lookup(r, name).Some? <==> n.Some? && n.value > 0
  {
    if n.Some? && n.value > 0 then [QueryItem(name, Text.Decimal(n.value))] else []
  }

  function ScreenshotItems(f: Flags): seq<QueryItem> {
    TargetItem(f) + (if f.fullPage then [QueryItem("fullPage", "1")] else [])
  }

  /** The `selector` of `query`: `--selector` if given (even when blank),
      else the first positional, trimmed. */
  function QuerySelector(f: Flags): (sel: string)
    ensures f.selector.Some? ==> sel == Text.Trim(f.selector.value)
    ensures f.selector.None? && f.rest != [] ==> sel == Text.Trim(f.rest[0])
    ensures f.selector.None? && f.rest == [] ==> sel == []
  {
    Text.Trim(f.selector.GetOr(if f.rest != [] then f.rest[0] else ""))
  }

  function QueryItems(sel: string, f: Flags): seq<QueryItem> {
    [QueryItem("selector", sel)] + TargetItem(f) + PositiveItem("limit", f.limit)
  }

  /** `dom` asks for "text" exactly when `--format text` was given. */
  function DomFormat(f: Flags): (fmt: string)
    ensures fmt in {"text", "html"}
    ensures fmt == "text" <==> f.format == Some("text")
  {
    if f.format == Some("text") then "text" else "html"
  }

  function DomItems(f: Flags): seq<QueryItem> {
    var sel := if f.selector.Some? then Text.Trim(f.selector.value) else "";
    [QueryItem("format", DomFormat(f))] + TargetItem(f)
    + (if sel != [] then [QueryItem("selector", sel)] else [])
    + PositiveItem("maxChars", f.maxChars)
  }

  /** `snapshot` asks for "domSnapshot" exactly when `--format domSnapshot` was given. */
  function SnapshotFormat(f: Flags): (fmt: string)
    ensures fmt in {"domSnapshot", "aria"}
    ensures fmt == "domSnapshot" <==> f.format == Some("domSnapshot")
  {
    if f.format == Some("domSnapshot") then "domSnapshot" else "aria"
  }

  function SnapshotItems(f: Flags): seq<QueryItem> {
    [QueryItem("format", SnapshotFormat(f))] + TargetItem(f) + PositiveItem("limit", f.limit)
  }

  // The `items` arrays of `run`, appended to one condition at a time.

  method CollectScreenshotItems(f: Flags) returns (items: seq<QueryItem>)
    ensures items == ScreenshotItems(f)
  {
    items := [];
    if f.targetId.Some? && f.targetId.value != [] {
      items := items + [QueryItem("targetId", f.targetId.value)];
    }
    if f.fullPage {
      items := items + [QueryItem("fullPage", "1")];
    }
  }

  method CollectQueryItems(sel: string, f: Flags) returns (items: seq<QueryItem>)
    ensures items == QueryItems(sel, f)
  {
    items := [QueryItem("selector", sel)];
    if f.targetId.Some? && f.targetId.value != [] {
      items := items + [QueryItem("targetId", f.targetId.value)];
    }
    if f.limit.Some? && f.limit.value > 0 {
      items := items + [QueryItem("limit", Text.Decimal(f.limit.value))];
    }
  }

  method CollectDomItems(f: Flags) returns (items: seq<QueryItem>)
    ensures items == DomItems(f)
  {
    var fmt := if f.format == Some("text") then "text" else "html";
    items := [QueryItem("format", fmt)];
    if f.targetId.Some? && f.targetId.value != [] {
      items := items + [QueryItem("targetId", f.targetId.value)];
    }
    assert items == [QueryItem("format", DomFormat(f))] + TargetItem(f);
    ghost var sel := if f.selector.Some? then Text.Trim(f.selector.value) else "";
    ghost var before := items;
    if f.selector.Some? {
      var selector := Text.Trim(f.selector.value);
      if selector != [] {
        items := items + [QueryItem("selector", selector)];
      }
    }
    assert items == before + (if sel != [] then [QueryItem("selector", sel)] else []);
    ghost var middle := items;
    if f.maxChars.Some? && f.maxChars.value > 0 {
      items := items + [QueryItem("maxChars", Text.Decimal(f.maxChars.value))];
    }
    assert items == middle + PositiveItem("maxChars", f.maxChars);
  }

  method CollectSnapshotItems(f: Flags) returns (items: seq<QueryItem>)
    ensures items == SnapshotItems(f)
  {
    var fmt := if f.format == Some("domSnapshot") then "domSnapshot" else "aria";
    items := [QueryItem("format", fmt)];
    if f.targetId.Some? && f.targetId.value != [] {
      items := items + [QueryItem("targetId", f.targetId.value)];
    }
    if f.limit.Some? && f.limit.value > 0 {
      items := items + [QueryItem("limit", Text.Decimal(f.limit.value))];
    }
  }

  // ----- eval -----

  /** Where the script of `eval` comes from. */
  datatype ScriptSource = FromFile(path: string) | FromStdin | Inline(js: string) | FromPositionals(words: seq<string>) | NoScript

  /** The source `eval` reads its script from; none when `--js-stdin` and
      `--js-file` were both given, which is a usage error. */
  function SelectScript(f: Flags): Option<ScriptSource> {
    if f.jsStdin && f.jsFile.Some? then None
    else if NonEmpty(f.jsFile) then Some(FromFile(f.jsFile.value))
    else if f.jsStdin then Some(FromStdin)
    else if NonEmpty(f.js) then Some(Inline(f.js.value))
    else if f.rest != [] then Some(FromPositionals(f.rest))
    else Some(NoScript)
  }

  /** The script text, or the description of the error reading the file. */
  function ReadScript(src: ScriptSource, env: Env): Result<string, string> {
    match src
    case FromFile(path) =>
      (match env.readFile(path)
       case Contents(text) => Ok(text)
       case Unreadable(d) => Err(d))
    case FromStdin => Ok(env.stdin.GetOr(""))
    case Inline(js) => Ok(js)
    case FromPositionals(words) => Ok(Text.Join(words, " "))
    case NoScript => Ok("")
  }

  /** The body `eval` posts. */
  function EvalBody(code: string, f: Flags): Object {
    map["js" := JStr(code), "targetId" := JStr(f.targetId.GetOr("")), "await" := JBool(f.awaitPromise)]
  }

  function PlanEval(f: Flags, base: string, jsonOutput: bool, env: Env): (s: Step)
    ensures s.Exit? ==> s.code in {1, 2}
    ensures s.Send? ==> s.request.verb == Post && s.request.path == "/eval" && s.view == EvalView
  {
    match SelectScript(f)
    case None => Usage2
    case Some(src) =>
      match ReadScript(src, env)
      case Err(d) => Exit(1, ReportFailure(Errors.DescribeError(d, base), jsonOutput))
      case Ok(code) =>
        if Text.Trim(code) == [] then Usage2
        else Send(Request(Post, "/eval", [], Some(EvalBody(code, f)), 15), EvalView, base)
  }

  // ----- dispatch -----

  /** The first positional, when there is one and it is not empty. */
  function FirstPositional(f: Flags): Option<string> {
    if f.rest != [] && f.rest[0] != [] then Some(f.rest[0]) else None
  }

  /** `open <url>`. */
  function PlanOpen(f: Flags, base: string): Step {
    match FirstPositional(f)
    case None => Usage2
    case Some(url) => Send(Request(Post, "/tabs/open", [], Some(map["url" := JStr(url)]), 15), ResultView, base)
  }

  /** `focus <targetId>`. */
  function PlanFocus(f: Flags, base: string): Step {
    match FirstPositional(f)
    case None => Usage2
    case Some(id) => Send(Request(Post, "/tabs/focus", [], Some(map["targetId" := JStr(id)]), 5), ResultView, base)
  }

  /** `close <targetId>`: the target goes into the path. */
  function PlanClose(f: Flags, base: string): Step {
    match FirstPositional(f)
    case None => Usage2
    case Some(id) => Send(Request(Delete, "/tabs/" + id, [], None, 5), ResultView, base)
  }

  /** `query <selector>`. */
  function PlanQuery(f: Flags, base: string): Step {
    var sel := QuerySelector(f);
    if sel == [] then Usage2
    else Send(Request(Get, "/query", QueryItems(sel, f), None, 15), QueryView(f.format == Some("json")), base)
  }

  /** `snapshot`. */
  function PlanSnapshot(f: Flags, base: string): Step {
    Send(Request(Get, "/snapshot", SnapshotItems(f), None, 20),
         SnapshotView(f.outPath, SnapshotFormat(f) == "domSnapshot"), base)
  }

  /** The `switch sub` of `run`, once the base URL is known. */
  function PlanCommand(sub: string, f: Flags, base: string, jsonOutput: bool, env: Env): (s: Step)
    ensures s.Exit? ==> s.code in {1, 2}
  {
    match sub
    case "status" => Send(Request(Get, "/", [], None, 2), ResultView, base)
    case "start" => Send(Request(Post, "/start", [], None, 15), ResultView, base)
    case "stop" => Send(Request(Post, "/stop", [], None, 15), ResultView, base)
    case "tabs" => Send(Request(Get, "/tabs", [], None, 3), TabsView, base)
    case "open" => PlanOpen(f, base)
    case "focus" => PlanFocus(f, base)
    case "close" => PlanClose(f, base)
    case "screenshot" => Send(Request(Get, "/screenshot", ScreenshotItems(f), None, 20), ScreenshotView, base)
    case "eval" => PlanEval(f, base, jsonOutput, env)
    case "query" => PlanQuery(f, base)
    case "dom" => Send(Request(Get, "/dom", DomItems(f), None, 20), DomView(f.outPath), base)
    case "snapshot" => PlanSnapshot(f, base)
    case _ => Usage2
  }

  /** Everything `run` does after the scan and before the request: the
      configuration gate, the base URL, then the subcommand. */
  function Dispatch(sub: string, f: Flags, jsonOutput: bool, cfg: BrowserConfig, env: Env): Step {
    if !cfg.enabled then
      Exit(1, [Stdout(if jsonOutput then Envelope(false, JObj(map["error" := JStr("browser control disabled")]))
                      else Line(DisabledMessage))])
    else
      var base := Base(f, cfg);
      if !env.urlParses(base) then Throw("Invalid browser control URL: " + base)
      else PlanCommand(sub, f, base, jsonOutput, env)
  }

  /** The base URL: `--url` if given, else the configured one, trimmed. */
  function Base(f: Flags, cfg: BrowserConfig): string {
    Text.Trim(f.overrideUrl.GetOr(cfg.controlUrl))
  }

  /** `run` up to the request, with the scan given by its specification. */
  function Invoke(args: seq<string>, jsonOutput: bool, cfg: BrowserConfig, env: Env): Step {
    if args == [] || IsHelp(args[0]) then Exit(0, [Stdout(Usage)])
    else Dispatch(args[0], Scan(args[1..]), jsonOutput, cfg, env)
  }
}
