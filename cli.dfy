/**
 * `BrowserCLI.run` end to end: the scan, the planning, the single exchange
 * with the control server (an input), and the rendering of its answer or of
 * its failure for humans or for machines.
 */
module Cli {
  import opened Wrappers
  import opened Json
  import Text
  import opened Args
  import opened Config
  import opened Output
  import opened Plan
  import opened Transport
  import opened Render
  import Errors
  import PlanProperties

  datatype Outcome =
    | Exited(code: int, effects: seq<Effect>)
    | Thrown(message: string)   // an error `run` does not catch

  function Printing(items: seq<Printed>): (r: seq<Effect>)
    ensures |r| == |items|
    ensures forall i :: 0 <= i < |r| ==> r[i] == Stdout(items[i])
  {
    seq(|items|, i requires 0 <= i < |items| => Stdout(items[i]))
  }

  function Success(items: seq<Printed>): Outcome {
    Exited(0, Printing(items))
  }

  function Failure(description: string, base: string, jsonOutput: bool): Outcome {
    Exited(1, ReportFailure(Errors.DescribeError(description, base), jsonOutput))
  }

  /** The output after `--out` was written: `{"ok": true, "out": out}` or the path. */
  function WroteOut(out: string, data: FileData, base: string, jsonOutput: bool, writeError: Option<string>): Outcome {
    match writeError
    case Some(d) => Failure(d, base, jsonOutput)
    case None =>
      Exited(0, [WriteFile(out, data)]
                + Printing([if jsonOutput then Envelope(true, JObj(map["ok" := JBool(true), "out" := JStr(out)]))
                            else Line(out)]))
  }

  /** What `run` shows once the answer has been classified. */
  function Finish(view: View, res: Result<Object, string>, base: string, jsonOutput: bool, writeError: Option<string>): Outcome {
    match res
    case Err(d) => Failure(d, base, jsonOutput)
    case Ok(obj) =>
      var whole := [Envelope(true, JObj(obj))];
      match view
      case ResultView => Success(if jsonOutput then whole else ResultLines(obj))
      case TabsView => Success(if jsonOutput then whole else TabsOutput(obj))
      case ScreenshotView =>
        Success(if jsonOutput then whole
                else match GetString(obj, "path")
                  case Some(path) => if path != [] then [Line("MEDIA:" + path)] else ResultLines(obj)
                  case None => ResultLines(obj))
      case EvalView => Success(if jsonOutput then whole else EvalLines(obj))
      case QueryView(asJson) => Success(if jsonOutput || asJson then whole else QueryLines(obj))
      case DomView(outPath) =>
        var text := GetString(obj, "text").GetOr("");
        if NonEmpty(outPath) then WroteOut(outPath.value, TextFile(text), base, jsonOutput, writeError)
        else Success(if jsonOutput then whole else [Line(text)])
      case SnapshotView(outPath, domSnapshot) =>
        if NonEmpty(outPath) then WroteOut(outPath.value, PrettyJsonFile(obj), base, jsonOutput, writeError)
        else Success(if jsonOutput || domSnapshot then whole else AriaLines(obj))
  }

  /** The whole invocation, for a given answer of the server. */
  function Complete(step: Step, ex: Exchange, jsonOutput: bool, env: Env): Outcome {
    match step
    case Exit(code, effects) => Exited(code, effects)
    case Throw(msg) => Thrown(msg)
    case Send(req, view, base) =>
      var res := HttpJson(req.verb, UrlString(base, req), req.timeout, ex);
      Finish(view, res, base, jsonOutput, env.writeError)
  }

  /** `run`: scan the tokens with the loop, plan, make at most one request
      (`sent`), and render. */
  method Run(args: seq<string>, jsonOutput: bool, cfg: BrowserConfig, env: Env, ex: Exchange)
    returns (outcome: Outcome, sent: Option<Request>)
    ensures var step := Invoke(args, jsonOutput, cfg, env);
            && outcome == Complete(step, ex, jsonOutput, env)
            && (sent.Some? <==> step.Send?)
            && (sent.Some? ==> sent.value == step.request)
    ensures outcome.Exited? ==> outcome.code in {0, 1, 2}
  {
    if args == [] || IsHelp(args[0]) {
      return Exited(0, [Stdout(Usage)]), None;
    }
    var flags := ScanArgs(args[1..]);
    var step := Dispatch(args[0], flags, jsonOutput, cfg, env);
    CompleteExitCodes(args, jsonOutput, cfg, env, ex);
    outcome, sent := Perform(step, ex, jsonOutput, env);
  }

  /** The planned step carried out: at most one request, then the rendering. */
  method Perform(step: Step, ex: Exchange, jsonOutput: bool, env: Env)
    returns (outcome: Outcome, sent: Option<Request>)
    ensures outcome == Complete(step, ex, jsonOutput, env)
    ensures sent.Some? <==> step.Send?
    ensures sent.Some? ==> sent.value == step.request
  {
    match step
    case Exit(code, effects) =>
      outcome, sent := Exited(code, effects), None;
    case Throw(msg) =>
      outcome, sent := Thrown(msg), None;
    case Send(req, view, base) =>
      sent := Some(req);
      var res := HttpJson(req.verb, UrlString(base, req), req.timeout, ex);
      outcome := Finish(view, res, base, jsonOutput, env.writeError);
  }

  /** After a request `run` never throws: it exits 1 when the request failed
      or writing the `--out` file failed, and 0 otherwise. */
  lemma FinishExitsZeroOrOne(view: View, res: Result<Object, string>, base: string, jsonOutput: bool, writeError: Option<string>)
    ensures var o := Finish(view, res, base, jsonOutput, writeError);
            && o.Exited? && o.code in {0, 1}
            && (res.Err? ==> o.code == 1)
            && (res.Ok? && !(WritesOut(view) && writeError.Some?) ==> o.code == 0)
            && (res.Ok? && WritesOut(view) && writeError.Some? ==> o.code == 1)
  {
  }

  /** The view saves the answer to the `--out` file. */
  predicate WritesOut(view: View) {
    (view.DomView? || view.SnapshotView?) && NonEmpty(view.outPath)
  }

  /** Every exit of `run` uses one of the three codes 0, 1 and 2. */
  lemma CompleteExitCodes(args: seq<string>, jsonOutput: bool, cfg: BrowserConfig, env: Env, ex: Exchange)
    ensures var o := Complete(Invoke(args, jsonOutput, cfg, env), ex, jsonOutput, env);
            o.Exited? ==> o.code in {0, 1, 2}
  {
    var step := Invoke(args, jsonOutput, cfg, env);
    PlanProperties.ExitCodesAreZeroOneTwo(args, jsonOutput, cfg, env);
    if step.Send? {
      var req := step.request;
      FinishExitsZeroOrOne(step.view, HttpJson(req.verb, UrlString(step.base, req), req.timeout, ex),
                           step.base, jsonOutput, env.writeError);
    }
  }

  // ----- scenarios -----

  /** A server that cannot be reached ends the invocation with exit 1 and the
      two-line hint naming the request URL: as the envelope's `error` in
      machine mode, or on standard error alone, with standard output left
      clean, for humans. */
  lemma UnreachableServerExitsOne(step: Step, code: int, jsonOutput: bool, env: Env)
    requires step.Send? && Errors.IsConnectivityFailure(Errors.UrlErrorDomain, code)
    ensures var url := UrlString(step.base, step.request);
            var msg := Errors.UnreachableHint(url);
            && Complete(step, Failed(Errors.UrlErrorDomain, code), jsonOutput, env)
               == Exited(1, [if jsonOutput then Stdout(ErrorEnvelope(msg)) else Stderr(msg)])
            && Text.StartsWith(msg, Errors.HintHead)
            && Text.Contains(msg, url)
            && Text.Contains(msg, Errors.StartAdvice)
  {
    var req := step.request;
    var url := UrlString(step.base, req);
    var msg := Errors.WrapNetworkError(Errors.UrlErrorDomain, code, url, req.timeout);
    assert msg == Errors.UnreachableHint(url);
    assert HttpJson(req.verb, url, req.timeout, Failed(Errors.UrlErrorDomain, code)) == Err(msg);
    Errors.WrappedFailureIsShownVerbatim(Errors.UrlErrorDomain, code, url, req.timeout, step.base);
  }

  /** `tabs` for humans on a one-tab answer: the running flag, the summary
      line with the id cut to 8 characters, and the full id on its own line. */
  lemma OneTabShown(id: string, title: string, url: string, running: bool, base: string)
    requires id != []
    ensures var tab := map["targetId" := JStr(id), "title" := JStr(title), "url" := JStr(url)];
            var res := map["running" := JBool(running), "tabs" := JArr([JObj(tab)])];
            Finish(TabsView, Ok(res), base, false, None)
            == Exited(0, [Stdout(Line(if running then "Running: true" else "Running: false")),
                          Stdout(Line("- " + Text.Prefix(id, 8) + "  " + title + "  " + url)),
                          Stdout(Line("  id: " + id))])
  {
    var tab := map["targetId" := JStr(id), "title" := JStr(title), "url" := JStr(url)];
    var res := map["running" := JBool(running), "tabs" := JArr([JObj(tab)])];
    assert res["tabs"] == JArr([JObj(tab)]);
    var found := GetObjects(res, "tabs");
    assert AllObjects([JObj(tab)]);
    assert found.Some? && |found.value| == 1 && found.value[0] == tab;
    assert found.value == [tab];
    assert [tab][..0] == [];
    assert GetString(tab, "targetId") == Some(id);
    assert GetString(tab, "title") == Some(title);
    assert GetString(tab, "url") == Some(url);
    assert TabsLines(res) == TabsLinesOf([tab]);
    assert TabsLinesOf([tab]) == TabsLinesOf([]) + TabEntry(tab);
    assert TabsLines(res) == TabEntry(tab);
  }

  /** `screenshot` for humans shows `MEDIA:<path>` when the answer names a
      non-empty path, and the generic rendering of the answer otherwise. */
  lemma ScreenshotShowsMedia(obj: Object, base: string, writeError: Option<string>)
    ensures var o := Finish(ScreenshotView, Ok(obj), base, false, writeError);
            && (GetString(obj, "path").Some? && obj["path"].s != [] ==>
                  o == Exited(0, [Stdout(Line("MEDIA:" + obj["path"].s))]))
            && (!(GetString(obj, "path").Some? && obj["path"].s != []) ==>
                  o == Exited(0, Printing(ResultLines(obj))))
  {
  }

  /** `snapshot --out <path>` writes the whole answer as pretty JSON to the
      file and then shows only `{"ok": true, "out": <path>}` (or the path),
      whatever the format. */
  lemma SnapshotOutWritesFile(out: string, domSnapshot: bool, obj: Object, base: string, jsonOutput: bool)
    requires out != []
    ensures Finish(SnapshotView(Some(out), domSnapshot), Ok(obj), base, jsonOutput, None)
            == Exited(0, [WriteFile(out, PrettyJsonFile(obj)),
                          Stdout(if jsonOutput then Envelope(true, JObj(map["ok" := JBool(true), "out" := JStr(out)]))
                                 else Line(out))])
  {
  }

  /** A file that cannot be written after `--out` is a failure like any other: exit 1. */
  lemma FailedWriteExitsOne(view: View, obj: Object, base: string, jsonOutput: bool, d: string)
    requires view.DomView? || view.SnapshotView?
    requires NonEmpty(view.outPath)
    ensures Finish(view, Ok(obj), base, jsonOutput, Some(d))
            == Exited(1, ReportFailure(Errors.DescribeError(d, base), jsonOutput))
  {
    var out := view.outPath.value;
    if view.DomView? {
      var text := GetString(obj, "text").GetOr("");
      assert Finish(view, Ok(obj), base, jsonOutput, Some(d)) == WroteOut(out, TextFile(text), base, jsonOutput, Some(d));
    } else {
      assert Finish(view, Ok(obj), base, jsonOutput, Some(d)) == WroteOut(out, PrettyJsonFile(obj), base, jsonOutput, Some(d));
    }
  }
}
