/**
 * The human-mode renderers of the browser CLI: `printResult`, `formatTabs` /
 * `printTabs`, `printEval`, `printQuery` and `printSnapshotAria`. Each is a
 * specification function on the decoded dictionary; the three that loop in
 * the source are also methods with that loop, proved to agree with it.
 */
module Render {
  import opened Wrappers
  import opened Json
  import Text
  import opened Output

  // ----- printResult -----

  /** `printResult(jsonOutput: false, res:)`: the `message` when it is a
      non-empty string, else the dictionary's description. */
  function ResultLines(res: Object): (r: seq<Printed>)
    ensures |r| == 1
    ensures r[0].Line? <==> GetString(res, "message").Some? && GetString(res, "message").value != []
    ensures r[0].Line? ==> r[0].text == res["message"].s
    ensures !r[0].Line? ==> r[0] == Description(res)
  {
    match GetString(res, "message")
    case Some(text) => if text != [] then [Line(text)] else [Description(res)]
    case None => [Description(res)]
  }

  // ----- formatTabs -----

  /** The lines of one tab: a summary with the first 8 characters of the id,
      and the full id on a line of its own when there is one. */
  function TabEntry(tab: Object): seq<string> {
    var id := GetString(tab, "targetId").GetOr("");
    [TabHead(tab)] + (if id != [] then ["  id: " + id] else [])
  }

  /** The summary line of a tab. */
  function TabHead(tab: Object): string {
    var id := GetString(tab, "targetId").GetOr("");
    "- " + (if id == [] then "" else Text.Prefix(id, 8)) + "  "
    + GetString(tab, "title").GetOr("") + "  " + GetString(tab, "url").GetOr("")
  }

  function TabsLinesOf(tabs: seq<Object>): seq<string> {
    if tabs == [] then [] else TabsLinesOf(tabs[..|tabs| - 1]) + TabEntry(tabs[|tabs| - 1])
  }

  /** `formatTabs`: nothing when `tabs` is missing, not an array of
      dictionaries, or empty. */
  function TabsLines(res: Object): seq<string> {
    match GetObjects(res, "tabs")
    case None => []
    case Some(tabs) => TabsLinesOf(tabs)
  }

  /** The loop of `formatTabs`. */
  method FormatTabs(res: Object) returns (lines: seq<string>)
    ensures lines == TabsLines(res)
  {
    var found := GetObjects(res, "tabs");
    if found.None? || found.value == [] {
      return [];
    }
    var tabs := found.value;
    lines := [];
    for i := 0 to |tabs|
      invariant lines == TabsLinesOf(tabs[..i])
    {
      var tab := tabs[i];
      var id := GetString(tab, "targetId").GetOr("");
      var title := GetString(tab, "title").GetOr("");
      var url := GetString(tab, "url").GetOr("");
      var shortId := if id == [] then "" else Text.Prefix(id, 8);
      lines := lines + ["- " + shortId + "  " + title + "  " + url];
      if id != [] {
        lines := lines + ["  id: " + id];
      }
      assert tabs[..i + 1][..i] == tabs[..i];
    }
    assert tabs[..|tabs|] == tabs;
  }

  predicate HasId(tab: Object) {
    GetString(tab, "targetId").Some? && GetString(tab, "targetId").value != []
  }

  /** How many of the tabs have a non-empty id. */
  function CountIds(tabs: seq<Object>): nat {
    if tabs == [] then 0 else CountIds(tabs[..|tabs| - 1]) + (if HasId(tabs[|tabs| - 1]) then 1 else 0)
  }

  lemma {:induction false} CountIdsAtMost(tabs: seq<Object>)
    ensures CountIds(tabs) <= |tabs|
  {
    if tabs != [] { CountIdsAtMost(tabs[..|tabs| - 1]); }
  }

  lemma {:induction false} CountIdsGrows(tabs: seq<Object>, k: nat)
    requires k <= |tabs|
    ensures CountIds(tabs[..k]) <= CountIds(tabs)
    decreases |tabs| - k
  {
    if k < |tabs| {
      CountIdsGrows(tabs, k + 1);
      CountIdsStep(tabs, k);
    } else {
      assert tabs[..k] == tabs;
    }
  }

  /** Where the lines of tab `k` begin: after one summary line per earlier tab
      and one id line per earlier tab with an id. */
  function TabStart(tabs: seq<Object>, k: nat): (at: nat)
    requires k < |tabs|
    ensures at + (if HasId(tabs[k]) then 2 else 1) <= |tabs| + CountIds(tabs)
  {
    CountIdsStep(tabs, k);
    CountIdsGrows(tabs, k + 1);
    k + CountIds(tabs[..k])
  }

  /** One line per tab plus one per tab with an id. */
  lemma {:induction false} TabsLinesCount(tabs: seq<Object>)
    ensures |TabsLinesOf(tabs)| == |tabs| + CountIds(tabs)
  {
    if tabs != [] { TabsLinesCount(tabs[..|tabs| - 1]); }
  }

  /** Tab `k`'s summary line is at `TabStart(tabs, k)`, and the line after it
      is its `  id: <id>` line exactly when it has a non-empty id. */
  lemma {:induction false} TabsLinesLayout(tabs: seq<Object>, k: nat)
    requires k < |tabs|
    ensures |TabsLinesOf(tabs)| == |tabs| + CountIds(tabs)
    ensures TabsLinesOf(tabs)[TabStart(tabs, k)] == TabHead(tabs[k])
    ensures HasId(tabs[k]) ==> TabsLinesOf(tabs)[TabStart(tabs, k) + 1] == "  id: " + tabs[k]["targetId"].s
    ensures !HasId(tabs[k]) && k + 1 < |tabs| ==> TabStart(tabs, k + 1) == TabStart(tabs, k) + 1
  {
    TabsLinesCount(tabs);
    var init := tabs[..|tabs| - 1];
    var prev := TabsLinesOf(init);
    TabsLinesCount(init);
    if k + 1 < |tabs| {
      CountIdsStep(tabs, k);
    }
    if k < |init| {
      assert tabs[..k] == init[..k];
      assert tabs[k] == init[k];
      TabsLinesLayout(init, k);
      assert TabStart(tabs, k) == TabStart(init, k);
    } else {
      assert tabs[..k] == init;
    }
  }

  lemma CountIdsStep(tabs: seq<Object>, k: nat)
    requires k < |tabs|
    ensures CountIds(tabs[..k + 1]) == CountIds(tabs[..k]) + (if HasId(tabs[k]) then 1 else 0)
  {
    assert tabs[..k + 1][..k] == tabs[..k];
  }

  /** `formatTabs` prints nothing for a missing or empty tab list. */
  lemma NoTabsNoLines(res: Object)
    requires GetObjects(res, "tabs").None? || GetObjects(res, "tabs").value == []
    ensures TabsLines(res) == []
  {
  }

  /** `printTabs`: the running flag (false when absent), then the tab lines. */
  function TabsOutput(res: Object): (r: seq<Printed>)
    ensures |r| == 1 + |TabsLines(res)|
    ensures r[0] == Line(if GetBool(res, "running") == Some(true) then "Running: true" else "Running: false")
    ensures forall i :: 0 < i < |r| ==> r[i] == Line(TabsLines(res)[i - 1])
  {
    var running := GetBool(res, "running").GetOr(false);
    var lines := TabsLines(res);
    [Line(if running then "Running: true" else "Running: false")]
    + seq(|lines|, i requires 0 <= i < |lines| => Line(lines[i]))
  }

  // ----- printEval -----

  /** `printEval`: the inner `result` dictionary's `value` (pretty JSON when
      an array or dictionary, else its description), else its non-empty
      `description`, else the generic rendering of the inner dictionary; the
      generic rendering of the whole answer when there is no inner dictionary. */
  function EvalLines(res: Object): (r: seq<Printed>)
    ensures |r| == 1
    ensures GetObject(res, "result").None? ==> r == ResultLines(res)
    ensures GetObject(res, "result").Some? && "value" in GetObject(res, "result").value ==>
              var v := GetObject(res, "result").value["value"];
              r[0] == (if IsValidTopLevel(v) then PrettyJson(v) else Described(v))
    ensures GetObject(res, "result").Some? && "value" !in GetObject(res, "result").value ==>
              var inner := GetObject(res, "result").value;
              r == if GetString(inner, "description").Some? && inner["description"].s != []
                   then [Line(inner["description"].s)]
                   else ResultLines(inner)
  {
    match GetObject(res, "result")
    case None => ResultLines(res)
    case Some(obj) =>
      if "value" in obj then
        var v := obj["value"];
        [if IsValidTopLevel(v) then PrettyJson(v) else Described(v)]
      else
        match GetString(obj, "description")
        case Some(desc) => if desc != [] then [Line(desc)] else ResultLines(obj)
        case None => ResultLines(obj)
  }

  // ----- printQuery -----

  /** The first three classes of a space-separated class list. */
  function ClassParts(className: string): (r: seq<string>)
    ensures |r| <= 3 && |r| <= |Text.Split(className, ' ')|
    ensures r == Text.Split(className, ' ')[..|r|]
    ensures |r| == 3 || r == Text.Split(className, ' ')
    ensures forall i :: 0 <= i < |r| ==> r[i] != [] && ' ' !in r[i]
  {
    var all := Text.Split(className, ' ');
    if |all| <= 3 then all else all[..3]
  }

  /** The class part of a match head: `.c1.c2.c3`, or nothing. */
  function ClassSuffix(className: string): string {
    var parts := ClassParts(className);
    if parts == [] then "" else "." + Text.Join(parts, ".")
  }

  /** The head line of a match: `<index>. <tag#id.c1.c2.c3>`. The `#id` part
      appears whenever `id` is a string, even an empty one. */
  function MatchHead(m: Object): string {
    var index := GetInt(m, "index").GetOr(0);
    var tag := GetString(m, "tag").GetOr("");
    var id := match GetString(m, "id") case Some(s) => "#" + s case None => "";
    Text.Decimal(index) + ". <" + tag + id + ClassSuffix(GetString(m, "className").GetOr("")) + ">"
  }

  predicate HasText(m: Object) {
    GetString(m, "text").Some? && GetString(m, "text").value != []
  }

  function MatchLines(m: Object): seq<Printed> {
    [Line(MatchHead(m))] + (if HasText(m) then [Line("   " + m["text"].s)] else [])
  }

  function MatchesLinesOf(ms: seq<Object>): seq<Printed> {
    if ms == [] then [] else MatchesLinesOf(ms[..|ms| - 1]) + MatchLines(ms[|ms| - 1])
  }

  /** `printQuery`. */
  function QueryLines(res: Object): seq<Printed> {
    match GetObjects(res, "matches")
    case None => ResultLines(res)
    case Some(ms) => if ms == [] then [Line("No matches.")] else MatchesLinesOf(ms)
  }

  /** The loop of `printQuery`. */
  method PrintQuery(res: Object) returns (out: seq<Printed>)
    ensures out == QueryLines(res)
  {
    var found := GetObjects(res, "matches");
    if found.None? {
      return ResultLines(res);
    }
    var matches := found.value;
    if matches == [] {
      return [Line("No matches.")];
    }
    out := [];
    for i := 0 to |matches|
      invariant out == MatchesLinesOf(matches[..i])
    {
      var printed := PrintMatch(matches[i]);
      MatchesLinesStep(matches, i);
      out := out + printed;
    }
    assert matches[..|matches|] == matches;
  }

  /** One match of `printQuery`: its head, then its text when non-empty. */
  method PrintMatch(m: Object) returns (printed: seq<Printed>)
    ensures printed == MatchLines(m)
  {
    printed := [Line(MatchHead(m))];
    var text := GetString(m, "text");
    if text.Some? && text.value != [] {
      printed := printed + [Line("   " + text.value)];
    }
  }

  lemma MatchesLinesStep(ms: seq<Object>, i: nat)
    requires i < |ms|
    ensures MatchesLinesOf(ms[..i + 1]) == MatchesLinesOf(ms[..i]) + MatchLines(ms[i])
  {
    assert ms[..i + 1][..i] == ms[..i];
  }

  function CountTexts(ms: seq<Object>): nat {
    if ms == [] then 0 else CountTexts(ms[..|ms| - 1]) + (if HasText(ms[|ms| - 1]) then 1 else 0)
  }

  /** An empty match list prints exactly "No matches."; otherwise one head
      per match and one text line per match with non-empty text. */
  lemma {:induction false} QueryLinesCount(res: Object)
    requires GetObjects(res, "matches").Some?
    ensures var ms := GetObjects(res, "matches").value;
            && (ms == [] ==> QueryLines(res) == [Line("No matches.")])
            && (ms != [] ==> |QueryLines(res)| == |ms| + CountTexts(ms))
  {
    var ms := GetObjects(res, "matches").value;
    MatchesCount(ms);
  }

  lemma {:induction false} MatchesCount(ms: seq<Object>)
    ensures |MatchesLinesOf(ms)| == |ms| + CountTexts(ms)
  {
    if ms != [] {
      MatchesCount(ms[..|ms| - 1]);
    }
  }

  /** The class part is empty exactly when there are no classes; otherwise
      it is a dot and then the shown classes (at most three, in order), which
      read back when split at the dots, as long as no class holds a dot. */
  lemma ClassSuffixShape(className: string)
    ensures var parts := ClassParts(className);
            var suffix := ClassSuffix(className);
            && (suffix == "" <==> Text.Split(className, ' ') == [])
            && |parts| <= 3
            && (parts != [] ==> suffix[0] == '.')
            && (parts != [] && (forall i :: 0 <= i < |parts| ==> '.' !in parts[i]) ==>
                  Text.Split(suffix[1..], '.') == parts)
  {
    var parts := ClassParts(className);
    if parts != [] && (forall i :: 0 <= i < |parts| ==> '.' !in parts[i]) {
      Text.SplitJoinRoundTrip(parts, '.');
      assert ClassSuffix(className)[1..] == Text.Join(parts, ".");
    }
  }

  // ----- printSnapshotAria -----

  /** The indent depth as written: `min(depth, 20)`, which
      `String(repeating:count:)` refuses (a runtime trap) when negative. */
  function IndentAsWritten(depth: int): Option<string> {
    var n := if depth < 20 then depth else 20;
    if n < 0 then None else Some(Text.Repeat("  ", n))
  }

  /** The clamped indent depth, between 0 and 20. */
  function IndentLevel(depth: int): (n: nat)
    ensures n <= 20
    ensures 0 <= depth <= 20 ==> n == depth
    ensures depth > 20 ==> n == 20
    ensures depth < 0 ==> n == 0
  {
    if depth < 0 then 0 else if depth < 20 then depth else 20
  }

  /** The negative `depth` a server could send crashes the CLI as written;
      on every other depth the clamped indent is the written one. */
  lemma NegativeDepthTraps(depth: int)
    ensures depth < 0 ==> IndentAsWritten(depth) == None
    ensures depth >= 0 ==> IndentAsWritten(depth) == Some(Text.Repeat("  ", IndentLevel(depth)))
  {
  }

  /** The ` "<name>"` part of a node line, only when the name is non-empty. */
  function NamePart(name: string): string {
    if name != [] then " \"" + name + "\"" else ""
  }

  /** The ` = "<value>"` part of a node line, only when the value is non-empty. */
  function ValuePart(value: string): string {
    if value != [] then " = \"" + value + "\"" else ""
  }

  /** Two spaces per indent level. */
  function Indent(level: nat): (r: string)
    ensures |r| == 2 * level
    ensures forall i :: 0 <= i < |r| ==> r[i] == ' '
  {
    Text.RepeatSpaces("  ", level);
    Text.Repeat("  ", level)
  }

  /** One node line: `- <role>` and its name and value, indented by two
      spaces per level. */
  function AriaLine(n: Object): string {
    NodeLine(GetInt(n, "depth").GetOr(0), GetString(n, "role").GetOr("unknown"),
             GetString(n, "name").GetOr(""), GetString(n, "value").GetOr(""))
  }

  function NodeLine(depth: int, role: string, name: string, value: string): string {
    Indent(IndentLevel(depth)) + "- " + role + NamePart(name) + ValuePart(value)
  }

  function NodesLinesOf(nodes: seq<Object>): (r: seq<Printed>)
    ensures |r| == |nodes|
  {
    if nodes == [] then [] else NodesLinesOf(nodes[..|nodes| - 1]) + [Line(AriaLine(nodes[|nodes| - 1]))]
  }

  /** `printSnapshotAria`. */
  function AriaLines(res: Object): seq<Printed> {
    match GetObjects(res, "nodes")
    case None => ResultLines(res)
    case Some(nodes) => NodesLinesOf(nodes)
  }

  /** The loop of `printSnapshotAria`. */
  method PrintSnapshotAria(res: Object) returns (out: seq<Printed>)
    ensures out == AriaLines(res)
  {
    var found := GetObjects(res, "nodes");
    if found.None? {
      return ResultLines(res);
    }
    var nodes := found.value;
    out := [];
    for i := 0 to |nodes|
      invariant out == NodesLinesOf(nodes[..i])
    {
      var line := PrintNode(nodes[i]);
      NodesLinesStep(nodes, i);
      out := out + [Line(line)];
    }
    assert nodes[..|nodes|] == nodes;
  }

  lemma NodesLinesStep(nodes: seq<Object>, i: nat)
    requires i < |nodes|
    ensures NodesLinesOf(nodes[..i + 1]) == NodesLinesOf(nodes[..i]) + [Line(AriaLine(nodes[i]))]
  {
    assert nodes[..i + 1][..i] == nodes[..i];
  }

  /** The body of that loop: the fields of one node, with their defaults. */
  method PrintNode(n: Object) returns (line: string)
    ensures line == AriaLine(n)
  {
    var depth := GetInt(n, "depth").GetOr(0);
    var role := GetString(n, "role").GetOr("unknown");
    var name := GetString(n, "name").GetOr("");
    var value := GetString(n, "value").GetOr("");
    line := BuildNodeLine(depth, role, name, value);
  }

  /** The line of one node, built piece by piece. */
  method BuildNodeLine(depth: int, role: string, name: string, value: string) returns (line: string)
    ensures line == NodeLine(depth, role, name, value)
  {
    line := Indent(IndentLevel(depth)) + "- " + role;
    if name != [] {
      line := line + (" \"" + name + "\"");
    } else {
      assert line + NamePart(name) == line;
    }
    if value != [] {
      line := line + (" = \"" + value + "\"");
    } else {
      assert line + ValuePart(value) == line;
    }
  }

  /** A node line starts with `2 * min(depth, 20)` spaces (none for a negative
      depth), then `- ` and the role, which is "unknown" when absent. */
  lemma AriaLineShape(n: Object)
    ensures var k := 2 * IndentLevel(GetInt(n, "depth").GetOr(0));
            var role := GetString(n, "role").GetOr("unknown");
            var line := AriaLine(n);
            && |line| >= k + 2 + |role|
            && (forall i :: 0 <= i < k ==> line[i] == ' ')
            && line[k..k + 2] == "- "
            && line[k + 2..k + 2 + |role|] == role
  {
    NodeLineShape(GetInt(n, "depth").GetOr(0), GetString(n, "role").GetOr("unknown"),
                  GetString(n, "name").GetOr(""), GetString(n, "value").GetOr(""));
  }

  lemma NodeLineShape(depth: int, role: string, name: string, value: string)
    ensures var k := 2 * IndentLevel(depth);
            var line := NodeLine(depth, role, name, value);
            && |line| >= k + 2 + |role|
            && (forall i :: 0 <= i < k ==> line[i] == ' ')
            && line[k..k + 2] == "- "
            && line[k + 2..k + 2 + |role|] == role
  {
    var indent := Indent(IndentLevel(depth));
    var line := NodeLine(depth, role, name, value);
    Layout(indent, "- ", role, NamePart(name), ValuePart(value));
    forall i | 0 <= i < |indent|
      ensures line[i] == ' '
    {
      assert line[i] == line[..|indent|][i];
    }
  }

  /** Where the first three of five concatenated strings sit in the result. */
  lemma Layout(a: string, b: string, c: string, d: string, e: string)
    ensures var s := a + b + c + d + e;
            && |s| == |a| + |b| + |c| + |d| + |e|
            && s[..|a|] == a
            && s[|a|..|a| + |b|] == b
            && s[|a| + |b|..|a| + |b| + |c|] == c
  {
    var s := a + b + c + d + e;
    assert s == a + (b + (c + (d + e)));
    assert s[|a|..] == b + (c + (d + e));
    assert s[|a| + |b|..] == c + (d + e);
  }

  /** A node without a string role is shown with the role "unknown". */
  lemma MissingRoleIsUnknown(n: Object)
    requires GetString(n, "role").None?
    ensures var k := 2 * IndentLevel(GetInt(n, "depth").GetOr(0));
            AriaLine(n)[k + 2..k + 9] == "unknown"
  {
    AriaLineShape(n);
  }
}
