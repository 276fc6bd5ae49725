/**
 * What the planning of `BrowserCLI.run` promises: which invocations end
 * without a request and with what exit code, the endpoint and timeout of each
 * subcommand, the precedence of the `eval` script sources, and the shape of
 * the query strings.
 */
module PlanProperties {
  import opened Wrappers
  import opened Json
  import Text
  import opened Args
  import opened Config
  import opened Output
  import opened Plan

  // ----- exit codes -----

  /** No subcommand, `help`, `--help` or `-h`: exit 0 after the usage text;
      nothing is scanned, no URL is built and no request is planned. */
  lemma HelpExitsZero(args: seq<string>, jsonOutput: bool, cfg: BrowserConfig, env: Env)
    requires args == [] || IsHelp(args[0])
    ensures Invoke(args, jsonOutput, cfg, env) == Exit(0, [Stdout(Usage)])
  {
  }

  /** With browser control disabled every other invocation exits 1 with the
      disabled message, whatever the environment: the URL oracle, the files and
      standard input are never consulted. */
  lemma DisabledExitsOne(args: seq<string>, jsonOutput: bool, cfg: BrowserConfig, env: Env, env': Env)
    requires args != [] && !IsHelp(args[0]) && !cfg.enabled
    ensures Invoke(args, jsonOutput, cfg, env) == Invoke(args, jsonOutput, cfg, env')
    ensures var s := Invoke(args, jsonOutput, cfg, env);
            s.Exit? && s.code == 1 && |s.effects| == 1
            && s.effects[0] == Stdout(if jsonOutput then ErrorEnvelope("browser control disabled")
                                      else Line(DisabledMessage))
  {
  }

  /** Past the configuration gate and the URL check, `run` plans the subcommand
      against the trimmed base URL. */
  lemma DispatchPlans(sub: string, f: Flags, jsonOutput: bool, cfg: BrowserConfig, env: Env)
    requires cfg.enabled && env.urlParses(Base(f, cfg))
    ensures Dispatch(sub, f, jsonOutput, cfg, env) == PlanCommand(sub, f, Base(f, cfg), jsonOutput, env)
  {
  }

  /** A base URL that Foundation refuses is thrown out of `run`, for every
      subcommand, known or not. */
  lemma InvalidBaseThrows(sub: string, f: Flags, jsonOutput: bool, cfg: BrowserConfig, env: Env)
    requires cfg.enabled && !env.urlParses(Base(f, cfg))
    ensures Dispatch(sub, f, jsonOutput, cfg, env) == Throw("Invalid browser control URL: " + Base(f, cfg))
  {
  }

  /** `open`, `focus` and `close` need a non-empty first positional; without
      one they exit 2 with no request. */
  lemma MissingTargetExitsTwo(sub: string, f: Flags, jsonOutput: bool, cfg: BrowserConfig, env: Env)
    requires sub in {"open", "focus", "close"}
    requires f.rest == [] || f.rest[0] == []
    requires cfg.enabled && env.urlParses(Base(f, cfg))
    ensures Dispatch(sub, f, jsonOutput, cfg, env) == Usage2
  {
    DispatchPlans(sub, f, jsonOutput, cfg, env);
    var base := Base(f, cfg);
    assert FirstPositional(f).None?;
    if sub == "open" {
      assert PlanCommand(sub, f, base, jsonOutput, env) == PlanOpen(f, base);
    } else if sub == "focus" {
      assert PlanCommand(sub, f, base, jsonOutput, env) == PlanFocus(f, base);
    } else {
      assert PlanCommand(sub, f, base, jsonOutput, env) == PlanClose(f, base);
    }
  }

  /** An unknown subcommand exits 2 with the usage text, but only once the
      configuration gate and the URL check have passed. */
  lemma UnknownSubcommandExitsTwo(sub: string, f: Flags, jsonOutput: bool, cfg: BrowserConfig, env: Env)
    requires sub !in Subcommands
    ensures var s := Dispatch(sub, f, jsonOutput, cfg, env);
            && (!cfg.enabled ==> s.Exit? && s.code == 1)
            && (cfg.enabled && !env.urlParses(Base(f, cfg)) ==> s.Throw?)
            && (cfg.enabled && env.urlParses(Base(f, cfg)) ==> s == Usage2)
  {
    if cfg.enabled && env.urlParses(Base(f, cfg)) {
      DispatchPlans(sub, f, jsonOutput, cfg, env);
      UnknownPlan(sub, f, Base(f, cfg), jsonOutput, env);
    }
  }

  lemma UnknownPlan(sub: string, f: Flags, base: string, jsonOutput: bool, env: Env)
    requires sub !in Subcommands
    ensures PlanCommand(sub, f, base, jsonOutput, env) == Usage2
  {
  }

  /** Every planned exit uses one of the three codes of the CLI. */
  lemma ExitCodesAreZeroOneTwo(args: seq<string>, jsonOutput: bool, cfg: BrowserConfig, env: Env)
    ensures var s := Invoke(args, jsonOutput, cfg, env);
            s.Exit? ==> s.code in {0, 1, 2}
  {
    if args != [] && !IsHelp(args[0]) && cfg.enabled {
      var f := Scan(args[1..]);
      var base := Text.Trim(f.overrideUrl.GetOr(cfg.controlUrl));
      if env.urlParses(base) {
        assert Invoke(args, jsonOutput, cfg, env) == PlanCommand(args[0], f, base, jsonOutput, env);
      }
    }
  }

  // ----- the endpoint table -----

  /** The method, path and timeout (seconds) of each subcommand's request. */
  function Endpoint(sub: string): Option<(Method, string, nat)> {
    match sub
    case "status" => Some((Get, "/", 2))
    case "start" => Some((Post, "/start", 15))
    case "stop" => Some((Post, "/stop", 15))
    case "tabs" => Some((Get, "/tabs", 3))
    case "open" => Some((Post, "/tabs/open", 15))
    case "focus" => Some((Post, "/tabs/focus", 5))
    case "close" => Some((Delete, "/tabs/", 5))
    case "screenshot" => Some((Get, "/screenshot", 20))
    case "eval" => Some((Post, "/eval", 15))
    case "query" => Some((Get, "/query", 15))
    case "dom" => Some((Get, "/dom", 20))
    case "snapshot" => Some((Get, "/snapshot", 20))
    case _ => None
  }

  /** Every request the CLI plans follows the endpoint table; `close` carries
      the target in the path, and only `open`, `focus` and `eval` send a body. */
  lemma RequestsFollowEndpointTable(sub: string, f: Flags, base: string, jsonOutput: bool, env: Env)
    requires PlanCommand(sub, f, base, jsonOutput, env).Send?
    ensures var r := PlanCommand(sub, f, base, jsonOutput, env).request;
            && Endpoint(sub).Some?
            && r.verb == Endpoint(sub).value.0
            && r.timeout == Endpoint(sub).value.2
            && (sub != "close" ==> r.path == Endpoint(sub).value.1)
            && (sub == "close" ==> r.path == "/tabs/" + f.rest[0] && f.rest[0] != [])
            && (r.body.Some? <==> sub in {"open", "focus", "eval"})
            && (sub == "open" ==> r.body == Some(map["url" := JStr(f.rest[0])]))
            && (sub == "focus" ==> r.body == Some(map["targetId" := JStr(f.rest[0])]))
            && (sub !in {"query", "dom", "snapshot", "screenshot"} ==> r.query == [])
  {
  }

  // ----- eval -----

  /** The sources that are available, in order of precedence. */
  function Available(f: Flags): seq<ScriptSource> {
    (if NonEmpty(f.jsFile) then [FromFile(f.jsFile.value)] else [])
    + (if f.jsStdin then [FromStdin] else [])
    + (if NonEmpty(f.js) then [Inline(f.js.value)] else [])
    + (if f.rest != [] then [FromPositionals(f.rest)] else [])
  }

  /** `--js-stdin` together with `--js-file` (even an empty path) is refused;
      otherwise the script comes from the first available source: a non-empty
      file path, standard input, a non-empty `--js`, the positionals; else
      it is empty. */
  lemma ScriptPrecedence(f: Flags)
    ensures SelectScript(f) == None <==> f.jsStdin && f.jsFile.Some?
    ensures SelectScript(f) != None ==>
              SelectScript(f) == Some(if Available(f) == [] then NoScript else Available(f)[0])
  {
  }

  /** Both `--js-stdin` and `--js-file`: exit 2 before any source is read (the
      result is the same for every file system and standard input). */
  lemma EvalConflictExitsTwo(f: Flags, jsonOutput: bool, cfg: BrowserConfig, env: Env)
    requires f.jsStdin && f.jsFile.Some?
    requires cfg.enabled && env.urlParses(Base(f, cfg))
    ensures Dispatch("eval", f, jsonOutput, cfg, env) == Usage2
  {
    DispatchPlans("eval", f, jsonOutput, cfg, env);
    assert PlanCommand("eval", f, Base(f, cfg), jsonOutput, env) == PlanEval(f, Base(f, cfg), jsonOutput, env);
  }

  /** `eval` sends a request exactly when the selected source could be read
      and its text is not blank; the body carries that text, the target
      (empty when absent) and the await switch. A blank script exits 2. */
  lemma EvalSendsScript(f: Flags, base: string, jsonOutput: bool, env: Env)
    requires SelectScript(f).Some?
    ensures var read := ReadScript(SelectScript(f).value, env);
            var s := PlanEval(f, base, jsonOutput, env);
            && (s.Send? <==> read.Ok? && !Text.IsBlank(read.value))
            && (read.Ok? && Text.IsBlank(read.value) ==> s == Usage2)
            && (read.Err? ==> s.Exit? && s.code == 1)
            && (s.Send? ==> s.request.body == Some(map["js" := JStr(read.value),
                                                      "targetId" := JStr(f.targetId.GetOr("")),
                                                      "await" := JBool(f.awaitPromise)]))
  {
  }

  /** With only positionals to go on, the script is those positionals joined by
      single spaces. */
  lemma EvalJoinsPositionals(f: Flags, env: Env)
    requires !f.jsStdin && !NonEmpty(f.jsFile) && !NonEmpty(f.js) && f.rest != []
    ensures ReadScript(SelectScript(f).value, env) == Ok(Text.Join(f.rest, " "))
  {
  }

  // ----- query strings -----

  predicate HasItem(items: seq<QueryItem>, name: string) {
    exists i :: 0 <= i < |items| && items[i].name == name
  }

  /** Position of `name` in `order`, or `|order|` when absent. */
  function Rank(order: seq<string>, name: string): (r: nat)
    ensures r <= |order|
    ensures r < |order| ==> order[r] == name
    ensures name in order ==> r < |order|
  {
    if order == [] then 0 else if order[0] == name then 0 else 1 + Rank(order[1..], name)
  }

  /** The item names are drawn from `order`, and appear in that order, at most once each. */
  predicate InOrder(items: seq<QueryItem>, order: seq<string>) {
    && (forall i :: 0 <= i < |items| ==> items[i].name in order)
    && (forall i, j :: 0 <= i < j < |items| ==> Rank(order, items[i].name) < Rank(order, items[j].name))
  }

  /** Every item name ranks below `k` in `order`. */
  predicate RanksBelow(items: seq<QueryItem>, order: seq<string>, k: nat) {
    forall i :: 0 <= i < |items| ==> Rank(order, items[i].name) < k
  }

  /** Appending at most one item of rank `k` to an ordered run whose ranks are
      all below `k` keeps it ordered. */
  lemma InOrderSnoc(a: seq<QueryItem>, b: seq<QueryItem>, order: seq<string>, k: nat)
    requires InOrder(a, order) && RanksBelow(a, order, k)
    requires |b| <= 1 && (b != [] ==> b[0].name in order && Rank(order, b[0].name) == k)
    ensures InOrder(a + b, order) && RanksBelow(a + b, order, k + 1)
  {
    var c := a + b;
    if b == [] {
      assert c == a;
    } else {
      assert c[|a|] == b[0];
      forall i | 0 <= i < |c| ensures c[i].name in order && Rank(order, c[i].name) <= k {
        if i < |a| { assert c[i] == a[i]; }
      }
      forall i, j | 0 <= i < j < |c| ensures Rank(order, c[i].name) < Rank(order, c[j].name) {
        assert c[i] == a[i];
        if j < |a| { assert c[j] == a[j]; }
      }
    }
  }

  /** A positive integer sent as a query value reads back as that integer. */
  lemma PositiveItemRoundTrip(name: string, n: Option<int>)
    requires n.Some? && n.value > 0 && n.value <= Text.IntMax
    ensures Lookup(PositiveItem(name, n), name).Some?
    ensures Text.ParseInt(Lookup(PositiveItem(name, n), name).value) == n
  {
    Text.DecimalRoundTrip(n.value);
  }

  /** `query`: the selector first, then `targetId` only when non-empty, then
      `limit` only when positive. */
  lemma QueryItemsShape(sel: string, f: Flags)
    ensures var items := QueryItems(sel, f);
            && items[0] == QueryItem("selector", sel)
            && InOrder(items, ["selector", "targetId", "limit"])
            && (HasItem(items, "targetId") <==> NonEmpty(f.targetId))
            && (HasItem(items, "limit") <==> f.limit.Some? && f.limit.value > 0)
  {
    var order := ["selector", "targetId", "limit"];
    var a := [QueryItem("selector", sel)];
    var t := TargetItem(f);
    var l := PositiveItem("limit", f.limit);
    assert Rank(order, "selector") == 0 && Rank(order, "targetId") == 1 && Rank(order, "limit") == 2;
    assert InOrder(a, order) && RanksBelow(a, order, 1);
    InOrderSnoc(a, t, order, 1);
    InOrderSnoc(a + t, l, order, 2);
    assert QueryItems(sel, f) == a + t + l;
    HasItem3(a, t, l, "targetId");
    HasItem3(a, t, l, "limit");
  }

  /** `query` needs a selector that is not blank (from `--selector`, else
      the first positional); a blank `--selector` is not replaced by a
      positional. */
  lemma QueryNeedsSelector(f: Flags, base: string, jsonOutput: bool, env: Env)
    ensures Text.Trim(f.selector.GetOr(if f.rest != [] then f.rest[0] else "")) == [] ==>
              PlanCommand("query", f, base, jsonOutput, env) == Usage2
    ensures f.selector.Some? && Text.IsBlank(f.selector.value) ==>
              PlanCommand("query", f, base, jsonOutput, env) == Usage2
  {
    QueryPlansQuery(f, base, jsonOutput, env);
  }

  /** `query` sends the trimmed `--selector` when one was given, else the
      trimmed first positional, as its first item, and only when that is not
      blank; `--format json` asks for the raw answer. */
  lemma QuerySendsSelector(f: Flags, base: string, jsonOutput: bool, env: Env)
    ensures var s := PlanCommand("query", f, base, jsonOutput, env);
            && (f.selector.Some? ==>
                  && (s.Send? <==> !Text.IsBlank(f.selector.value))
                  && (s.Send? ==> s.request.query[0] == QueryItem("selector", Text.Trim(f.selector.value))))
            && (f.selector.None? ==>
                  && (s.Send? <==> f.rest != [] && !Text.IsBlank(f.rest[0]))
                  && (s.Send? ==> s.request.query[0] == QueryItem("selector", Text.Trim(f.rest[0]))))
            && (s.Send? ==> s.view == QueryView(f.format == Some("json")))
            && (!s.Send? ==> s == Usage2)
  {
    QueryPlansQuery(f, base, jsonOutput, env);
    var sel := QuerySelector(f);
    QueryItemsHead(sel, f);
    assert PlanQuery(f, base).Send? <==> sel != [];
    if f.selector.Some? {
      assert sel == Text.Trim(f.selector.value);
    } else if f.rest != [] {
      assert sel == Text.Trim(f.rest[0]);
    }
  }

  lemma QueryItemsHead(sel: string, f: Flags)
    ensures QueryItems(sel, f) != [] && QueryItems(sel, f)[0] == QueryItem("selector", sel)
  {
  }

  lemma QueryPlansQuery(f: Flags, base: string, jsonOutput: bool, env: Env)
    ensures PlanCommand("query", f, base, jsonOutput, env) == PlanQuery(f, base)
  {
  }

  /** `dom` asks for `text` exactly when `--format text` was given, and for
      `html` otherwise; `--out` goes to the view. */
  lemma DomAsksForFormat(f: Flags, base: string, jsonOutput: bool, env: Env)
    ensures var s := PlanCommand("dom", f, base, jsonOutput, env);
            && s.Send? && s.request.query != []
            && s.request.query[0] in {QueryItem("format", "text"), QueryItem("format", "html")}
            && (s.request.query[0] == QueryItem("format", "text") <==> f.format == Some("text"))
            && s.view == DomView(f.outPath)
  {
    DomItemsShape(f);
  }

  /** `snapshot` asks for `domSnapshot` exactly when `--format domSnapshot`
      was given, and for `aria` otherwise; only `aria` is rendered as lines. */
  lemma SnapshotAsksForFormat(f: Flags, base: string, jsonOutput: bool, env: Env)
    ensures var s := PlanCommand("snapshot", f, base, jsonOutput, env);
            && s.Send? && s.request.query != []
            && s.request.query[0] in {QueryItem("format", "domSnapshot"), QueryItem("format", "aria")}
            && (s.request.query[0] == QueryItem("format", "domSnapshot") <==> f.format == Some("domSnapshot"))
            && s.view.SnapshotView? && s.view.outPath == f.outPath
            && (s.view.domSnapshot <==> f.format == Some("domSnapshot"))
  {
    assert PlanCommand("snapshot", f, base, jsonOutput, env) == PlanSnapshot(f, base);
    SnapshotItemsShape(f);
  }

  /** `dom`: the format first, then `targetId`, the trimmed selector when not
      blank, and `maxChars` when positive. */
  lemma DomItemsShape(f: Flags)
    ensures var items := DomItems(f);
            && items[0] == QueryItem("format", DomFormat(f))
            && InOrder(items, ["format", "targetId", "selector", "maxChars"])
            && (HasItem(items, "targetId") <==> NonEmpty(f.targetId))
            && (HasItem(items, "selector") <==> f.selector.Some? && !Text.IsBlank(f.selector.value))
            && (HasItem(items, "maxChars") <==> f.maxChars.Some? && f.maxChars.value > 0)
            && Lookup(items, "selector") ==
                 (if f.selector.Some? && !Text.IsBlank(f.selector.value) then Some(Text.Trim(f.selector.value)) else None)
            && Lookup(items, "targetId") == (if NonEmpty(f.targetId) then Some(f.targetId.value) else None)
  {
    var sel := if f.selector.Some? then Text.Trim(f.selector.value) else "";
    var a := [QueryItem("format", DomFormat(f))];
    var t := TargetItem(f);
    var s: seq<QueryItem> := if sel != [] then [QueryItem("selector", sel)] else [];
    var m := PositiveItem("maxChars", f.maxChars);
    assert DomItems(f) == a + t + s + m;
    assert sel != [] <==> f.selector.Some? && !Text.IsBlank(f.selector.value);
    DomRunsOrdered(a, t, s, m);
    HasItem4(a, t, s, m, "targetId");
    HasItem4(a, t, s, m, "selector");
    HasItem4(a, t, s, m, "maxChars");
    Lookup4(a, t, s, m, "selector");
    Lookup4(a, t, s, m, "targetId");
  }

  /** The four runs of `dom`'s query, one item at most each, come out in order. */
  lemma DomRunsOrdered(a: seq<QueryItem>, t: seq<QueryItem>, s: seq<QueryItem>, m: seq<QueryItem>)
    requires |a| == 1 && a[0].name == "format"
    requires |t| <= 1 && (t != [] ==> t[0].name == "targetId")
    requires |s| <= 1 && (s != [] ==> s[0].name == "selector")
    requires |m| <= 1 && (m != [] ==> m[0].name == "maxChars")
    ensures InOrder(a + t + s + m, ["format", "targetId", "selector", "maxChars"])
  {
    var order := ["format", "targetId", "selector", "maxChars"];
    assert Rank(order, "format") == 0 && Rank(order, "targetId") == 1;
    assert Rank(order, "selector") == 2 && Rank(order, "maxChars") == 3;
    assert InOrder(a, order) && RanksBelow(a, order, 1);
    InOrderSnoc(a, t, order, 1);
    InOrderSnoc(a + t, s, order, 2);
    InOrderSnoc(a + t + s, m, order, 3);
  }

  /** Which names three runs of at most one item each contain. */
  lemma HasItem3(a: seq<QueryItem>, t: seq<QueryItem>, l: seq<QueryItem>, name: string)
    requires |a| <= 1 && |t| <= 1 && |l| <= 1
    ensures HasItem(a + t + l, name) <==> Heads(a, name) || Heads(t, name) || Heads(l, name)
  {
    HasItemAppend(a, t, name);
    HasItemAppend(a + t, l, name);
    HasItemOne(a, name);
    HasItemOne(t, name);
    HasItemOne(l, name);
  }

  /** Which names four runs of at most one item each contain. */
  lemma HasItem4(a: seq<QueryItem>, t: seq<QueryItem>, s: seq<QueryItem>, m: seq<QueryItem>, name: string)
    requires |a| <= 1 && |t| <= 1 && |s| <= 1 && |m| <= 1
    ensures HasItem(a + t + s + m, name) <==> Heads(a, name) || Heads(t, name) || Heads(s, name) || Heads(m, name)
  {
    HasItem3(a, t, s, name);
    HasItemAppend(a + t + s, m, name);
    HasItemOne(m, name);
  }

  /** The value four runs of at most one item each give `name`: that of the
      first run headed by `name`. */
  lemma Lookup4(a: seq<QueryItem>, t: seq<QueryItem>, s: seq<QueryItem>, m: seq<QueryItem>, name: string)
    requires |a| <= 1 && |t| <= 1 && |s| <= 1 && |m| <= 1
    ensures Lookup(a + t + s + m, name) ==
              if Heads(a, name) then Some(a[0].value)
              else if Heads(t, name) then Some(t[0].value)
              else if Heads(s, name) then Some(s[0].value)
              else if Heads(m, name) then Some(m[0].value)
              else None
  {
    LookupAppend(a, t, name);
    LookupAppend(a + t, s, name);
    LookupAppend(a + t + s, m, name);
  }

  /** Looking a name up in two runs finds it in the first if it is there. */
  lemma {:induction false} LookupAppend(a: seq<QueryItem>, b: seq<QueryItem>, name: string)
    ensures Lookup(a + b, name) == if Lookup(a, name).Some? then Lookup(a, name) else Lookup(b, name)
  {
    if a == [] {
      assert a + b == b;
    } else {
      assert (a + b)[1..] == a[1..] + b;
      LookupAppend(a[1..], b, name);
    }
  }

  /** A run of at most one item holds `name` when its item is so named. */
  predicate Heads(x: seq<QueryItem>, name: string) {
    x != [] && x[0].name == name
  }

  lemma HasItemOne(x: seq<QueryItem>, name: string)
    requires |x| <= 1
    ensures HasItem(x, name) <==> Heads(x, name)
  {
  }

  lemma HasItemAppend(a: seq<QueryItem>, b: seq<QueryItem>, name: string)
    ensures HasItem(a + b, name) <==> HasItem(a, name) || HasItem(b, name)
  {
    if HasItem(a, name) {
      var j :| 0 <= j < |a| && a[j].name == name;
      assert (a + b)[j] == a[j];
    }
    if HasItem(b, name) {
      var j :| 0 <= j < |b| && b[j].name == name;
      assert (a + b)[|a| + j] == b[j];
    }
    if HasItem(a + b, name) {
      var k :| 0 <= k < |a + b| && (a + b)[k].name == name;
      if k >= |a| { assert b[k - |a|] == (a + b)[k]; } else { assert a[k] == (a + b)[k]; }
    }
  }

  /** `snapshot`: the format first, then `targetId`, then `limit` when positive. */
  lemma SnapshotItemsShape(f: Flags)
    ensures var items := SnapshotItems(f);
            && items[0] == QueryItem("format", SnapshotFormat(f))
            && InOrder(items, ["format", "targetId", "limit"])
            && (HasItem(items, "targetId") <==> NonEmpty(f.targetId))
            && (HasItem(items, "limit") <==> f.limit.Some? && f.limit.value > 0)
  {
    var order := ["format", "targetId", "limit"];
    var a := [QueryItem("format", SnapshotFormat(f))];
    var t := TargetItem(f);
    var l := PositiveItem("limit", f.limit);
    assert Rank(order, "format") == 0 && Rank(order, "targetId") == 1 && Rank(order, "limit") == 2;
    assert InOrder(a, order) && RanksBelow(a, order, 1);
    InOrderSnoc(a, t, order, 1);
    InOrderSnoc(a + t, l, order, 2);
    assert SnapshotItems(f) == a + t + l;
    HasItem3(a, t, l, "targetId");
    HasItem3(a, t, l, "limit");
  }

  /** `screenshot`: `targetId` then `fullPage=1`, each only when it applies;
      with neither the URL has no query string at all. */
  lemma ScreenshotItemsShape(f: Flags)
    ensures var items := ScreenshotItems(f);
            && InOrder(items, ["targetId", "fullPage"])
            && (items == [] <==> !NonEmpty(f.targetId) && !f.fullPage)
            && (HasItem(items, "fullPage") <==> f.fullPage)
            && (HasItem(items, "targetId") <==> NonEmpty(f.targetId))
            && (f.fullPage ==> items[|items| - 1] == QueryItem("fullPage", "1"))
            && Lookup(items, "targetId") == (if NonEmpty(f.targetId) then Some(f.targetId.value) else None)
  {
    var t := TargetItem(f);
    var p: seq<QueryItem> := if f.fullPage then [QueryItem("fullPage", "1")] else [];
    assert ScreenshotItems(f) == t + p;
    ScreenshotRunsOrdered(t, p);
    HasItemAppend(t, p, "fullPage");
    HasItemAppend(t, p, "targetId");
    LookupAppend(t, p, "targetId");
  }

  /** The two optional runs of the screenshot items come out in order. */
  lemma ScreenshotRunsOrdered(t: seq<QueryItem>, p: seq<QueryItem>)
    requires |t| <= 1 && (t != [] ==> t[0].name == "targetId")
    requires |p| <= 1 && (p != [] ==> p[0].name == "fullPage")
    ensures InOrder(t + p, ["targetId", "fullPage"])
  {
    var order := ["targetId", "fullPage"];
    assert Rank(order, "targetId") == 0 && Rank(order, "fullPage") == 1;
    assert InOrder(t, order) && RanksBelow(t, order, 1);
    InOrderSnoc(t, p, order, 1);
  }
}
