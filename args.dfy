/**
 * The argument scanner of `BrowserCLI.run`: the tokens after the subcommand are
 * read left to right; a known switch sets its flag, a known value flag takes
 * the token after it (whatever that token looks like) or nothing when no token
 * is left, and every other token is kept, in order, as a positional.
 */
module Args {
  import opened Wrappers
  import Text

  /** What the scanner produces (the flag variables of `run` and `rest`). */
  datatype Flags = Flags(
    overrideUrl: Option<string>,
    fullPage: bool,
    targetId: Option<string>,
    awaitPromise: bool,
    js: Option<string>,
    jsFile: Option<string>,
    jsStdin: bool,
    selector: Option<string>,
    format: Option<string>,
    limit: Option<int>,
    maxChars: Option<int>,
    outPath: Option<string>,
    rest: seq<string>)

  /** Flags that take the next token as their value. */
  predicate IsValueFlag(t: string) {
    t in {"--url", "--target-id", "--js", "--js-file", "--selector", "--format", "--limit", "--max-chars", "--out"}
  }

  /** Flags that take no value. */
  predicate IsSwitch(t: string) {
    t in {"--full-page", "--await", "--js-stdin"}
  }

  predicate IsKnownFlag(t: string) {
    IsValueFlag(t) || IsSwitch(t)
  }

  // ----- reference definition, by token position -----

  /** Token `i` is swallowed as the value of the value flag just before it
      (which is itself a flag only if it was not swallowed in turn). */
  predicate IsConsumed(ts: seq<string>, i: nat)
    requires i < |ts|
  {
    i > 0 && IsValueFlag(ts[i - 1]) && !IsConsumed(ts, i - 1)
  }

  /** Token `i` ends up in `rest`. */
  predicate IsPositional(ts: seq<string>, i: nat)
    requires i < |ts|
  {
    !IsConsumed(ts, i) && !IsKnownFlag(ts[i])
  }

  /** The positional tokens among the first `n`, in their original order. */
  function PositionalsBefore(ts: seq<string>, n: nat): seq<string>
    requires n <= |ts|
  {
    if n == 0 then []
    else PositionalsBefore(ts, n - 1) + (if IsPositional(ts, n - 1) then [ts[n - 1]] else [])
  }

  /** The value given by the last occurrence of value flag `name` among the
      first `n` tokens: the token after it, or none if it is the last token. */
  function ValueBefore(ts: seq<string>, n: nat, name: string): Option<string>
    requires n <= |ts|
  {
    if n == 0 then None
    else if ts[n - 1] == name && !IsConsumed(ts, n - 1) then
      (if n < |ts| then Some(ts[n]) else None)
    else ValueBefore(ts, n - 1, name)
  }

  /** Switch `name` occurs, as a flag, among the first `n` tokens. */
  predicate SwitchBefore(ts: seq<string>, n: nat, name: string)
    requires n <= |ts|
  {
    n > 0 && ((ts[n - 1] == name && !IsConsumed(ts, n - 1)) || SwitchBefore(ts, n - 1, name))
  }

  /** `popFirst().flatMap(Int.init)`. */
  function IntValue(v: Option<string>): Option<int> {
    match v
    case None => None
    case Some(s) => Text.ParseInt(s)
  }

  /** The flags after the first `n` tokens. */
  function ScanPrefix(ts: seq<string>, n: nat): Flags
    requires n <= |ts|
  {
    Flags(
      overrideUrl := ValueBefore(ts, n, "--url"),
      fullPage := SwitchBefore(ts, n, "--full-page"),
      targetId := ValueBefore(ts, n, "--target-id"),
      awaitPromise := SwitchBefore(ts, n, "--await"),
      js := ValueBefore(ts, n, "--js"),
      jsFile := ValueBefore(ts, n, "--js-file"),
      jsStdin := SwitchBefore(ts, n, "--js-stdin"),
      selector := ValueBefore(ts, n, "--selector"),
      format := ValueBefore(ts, n, "--format"),
      limit := IntValue(ValueBefore(ts, n, "--limit")),
      maxChars := IntValue(ValueBefore(ts, n, "--max-chars")),
      outPath := ValueBefore(ts, n, "--out"),
      rest := PositionalsBefore(ts, n))
  }

  /** What scanning all of `ts` yields. */
  function Scan(ts: seq<string>): Flags {
    ScanPrefix(ts, |ts|)
  }

  // ----- the loop -----

  /** `args.popFirst()`. */
  function PopFirst(args: seq<string>): (Option<string>, seq<string>) {
    if args == [] then (None, []) else (Some(args[0]), args[1..])
  }

  /** What the body of the loop does to the flags for one token `arg`, given
      the token popped after it when `arg` is a value flag. */
  function Apply(f: Flags, arg: string, value: Option<string>): Flags {
    match arg
    case "--url" => f.(overrideUrl := value)
    case "--full-page" => f.(fullPage := true)
    case "--target-id" => f.(targetId := value)
    case "--await" => f.(awaitPromise := true)
    case "--js" => f.(js := value)
    case "--js-file" => f.(jsFile := value)
    case "--js-stdin" => f.(jsStdin := true)
    case "--selector" => f.(selector := value)
    case "--format" => f.(format := value)
    case "--limit" => f.(limit := IntValue(value))
    case "--max-chars" => f.(maxChars := IntValue(value))
    case "--out" => f.(outPath := value)
    case _ => f.(rest := f.rest + [arg])
  }

  /** The `while !args.isEmpty` loop of `run`, which takes the tokens one at a
      time off the front of `args` and sets the flag variables. */
  method ScanArgs(tokens: seq<string>) returns (flags: Flags)
    ensures flags == Scan(tokens)
  {
    var args := tokens;
    flags := Flags(None, false, None, false, None, None, false, None, None, None, None, None, []);
    ghost var pos := 0;
    while args != []
      invariant pos <= |tokens| && args == tokens[pos..]
      invariant pos < |tokens| ==> !IsConsumed(tokens, pos)
      invariant flags == ScanPrefix(tokens, pos)
      decreases |args|
    {
      var arg := args[0];
      args := args[1..];
      var value: Option<string> := None;
      if IsValueFlag(arg) {
        var popped := PopFirst(args);
        value, args := popped.0, popped.1;
        ValueStep(tokens, pos);
        pos := if pos + 1 < |tokens| then pos + 2 else pos + 1;
      } else {
        OtherStep(tokens, pos);
        pos := pos + 1;
      }
      flags := Apply(flags, arg, value);
    }
  }

  lemma ValueBeforeNext(ts: seq<string>, p: nat, name: string)
    requires p < |ts|
    ensures ValueBefore(ts, p + 1, name) ==
            if ts[p] == name && !IsConsumed(ts, p) then (if p + 1 < |ts| then Some(ts[p + 1]) else None)
            else ValueBefore(ts, p, name)
  {
  }

  /** One step of the scan over a value flag at a token boundary: the flag and
      the token after it (if any) are consumed together. */
  lemma ValueStep(ts: seq<string>, p: nat)
    requires p < |ts| && !IsConsumed(ts, p) && IsValueFlag(ts[p])
    ensures var q := if p + 1 < |ts| then p + 2 else p + 1;
            var v := if p + 1 < |ts| then Some(ts[p + 1]) else None;
            && (q < |ts| ==> !IsConsumed(ts, q))
            && ScanPrefix(ts, q) == Apply(ScanPrefix(ts, p), ts[p], v)
  {
    ValueFlagToken(ts, p);
    if p + 1 < |ts| {
      assert IsConsumed(ts, p + 1);
      ConsumedStep(ts, p + 1);
    }
  }

  /** The value flag's own token sets that flag to the token after it. */
  lemma ValueFlagToken(ts: seq<string>, p: nat)
    requires p < |ts| && !IsConsumed(ts, p) && IsValueFlag(ts[p])
    ensures ScanPrefix(ts, p + 1) == Apply(ScanPrefix(ts, p), ts[p], if p + 1 < |ts| then Some(ts[p + 1]) else None)
  {
    var v := if p + 1 < |ts| then Some(ts[p + 1]) else None;
    forall name | IsValueFlag(name)
      ensures ValueBefore(ts, p + 1, name) == if ts[p] == name then v else ValueBefore(ts, p, name)
    {
      ValueBeforeNext(ts, p, name);
    }
  }

  /** A consumed token changes nothing by itself. */
  lemma ConsumedStep(ts: seq<string>, p: nat)
    requires p < |ts| && IsConsumed(ts, p)
    ensures p + 1 < |ts| ==> !IsConsumed(ts, p + 1)
    ensures ScanPrefix(ts, p + 1) == ScanPrefix(ts, p)
  {
    forall name | IsValueFlag(name) ensures ValueBefore(ts, p + 1, name) == ValueBefore(ts, p, name) {
      ValueBeforeNext(ts, p, name);
    }
  }

  /** One step of the scan over a switch or a positional at a token boundary. */
  lemma OtherStep(ts: seq<string>, p: nat)
    requires p < |ts| && !IsConsumed(ts, p) && !IsValueFlag(ts[p])
    ensures p + 1 < |ts| ==> !IsConsumed(ts, p + 1)
    ensures ScanPrefix(ts, p + 1) == Apply(ScanPrefix(ts, p), ts[p], None)
  {
    forall name | IsValueFlag(name) ensures ValueBefore(ts, p + 1, name) == ValueBefore(ts, p, name) {
      ValueBeforeNext(ts, p, name);
    }
  }

  // ----- properties of the scan -----

  /** The last token of `ts` is a value flag still waiting for its value. */
  predicate AwaitsValue(ts: seq<string>) {
    ts != [] && IsValueFlag(ts[|ts| - 1]) && !IsConsumed(ts, |ts| - 1)
  }

  /** Whether a token is consumed depends only on the tokens before it. */
  lemma {:induction false} ConsumedIsPrefixStable(ts: seq<string>, more: seq<string>, i: nat)
    requires i < |ts|
    ensures IsConsumed(ts + more, i) == IsConsumed(ts, i)
  {
    if i > 0 {
      ConsumedIsPrefixStable(ts, more, i - 1);
      assert (ts + more)[i - 1] == ts[i - 1];
    }
  }

  lemma {:induction false} PositionalsArePrefixStable(ts: seq<string>, more: seq<string>, n: nat)
    requires n <= |ts|
    ensures PositionalsBefore(ts + more, n) == PositionalsBefore(ts, n)
  {
    if n > 0 {
      PositionalsArePrefixStable(ts, more, n - 1);
      ConsumedIsPrefixStable(ts, more, n - 1);
      assert (ts + more)[n - 1] == ts[n - 1];
    }
  }

  lemma {:induction false} ValuesArePrefixStable(ts: seq<string>, more: seq<string>, n: nat, name: string)
    requires n < |ts| || (n == |ts| && !AwaitsValue(ts))
    requires IsValueFlag(name)
    ensures ValueBefore(ts + more, n, name) == ValueBefore(ts, n, name)
  {
    if n > 0 {
      ConsumedIsPrefixStable(ts, more, n - 1);
      assert (ts + more)[n - 1] == ts[n - 1];
      if n < |ts| { assert (ts + more)[n] == ts[n]; }
      ValuesArePrefixStable(ts, more, n - 1, name);
    }
  }

  lemma {:induction false} SwitchesArePrefixStable(ts: seq<string>, more: seq<string>, n: nat, name: string)
    requires n <= |ts|
    ensures SwitchBefore(ts + more, n, name) == SwitchBefore(ts, n, name)
  {
    if n > 0 {
      ConsumedIsPrefixStable(ts, more, n - 1);
      assert (ts + more)[n - 1] == ts[n - 1];
      SwitchesArePrefixStable(ts, more, n - 1, name);
    }
  }

  /** Scanning further tokens never changes what the tokens already scanned
      decided, unless the scanned part ends in a value flag still waiting. */
  lemma ScanIsPrefixStable(ts: seq<string>, more: seq<string>)
    requires !AwaitsValue(ts)
    ensures ScanPrefix(ts + more, |ts|) == Scan(ts)
  {
    var n := |ts|;
    PositionalsArePrefixStable(ts, more, n);
    ValuesArePrefixStable(ts, more, n, "--url");
    ValuesArePrefixStable(ts, more, n, "--target-id");
    ValuesArePrefixStable(ts, more, n, "--js");
    ValuesArePrefixStable(ts, more, n, "--js-file");
    ValuesArePrefixStable(ts, more, n, "--selector");
    ValuesArePrefixStable(ts, more, n, "--format");
    ValuesArePrefixStable(ts, more, n, "--limit");
    ValuesArePrefixStable(ts, more, n, "--max-chars");
    ValuesArePrefixStable(ts, more, n, "--out");
    SwitchesArePrefixStable(ts, more, n, "--full-page");
    SwitchesArePrefixStable(ts, more, n, "--await");
    SwitchesArePrefixStable(ts, more, n, "--js-stdin");
  }

  /** A token that is not a known flag, read where no value flag is waiting,
      is appended to `rest` and changes nothing else. */
  lemma AppendPositional(ts: seq<string>, t: string)
    requires !AwaitsValue(ts) && !IsKnownFlag(t)
    ensures Scan(ts + [t]) == Scan(ts).(rest := Scan(ts).rest + [t])
  {
    var us := ts + [t];
    ScanIsPrefixStable(ts, [t]);
    ConsumedIsNotAwaited(ts, [t]);
    assert us[|ts|] == t;
    OtherStep(us, |ts|);
  }

  lemma ConsumedIsNotAwaited(ts: seq<string>, more: seq<string>)
    requires !AwaitsValue(ts) && more != []
    ensures !IsConsumed(ts + more, |ts|)
  {
    if ts != [] {
      ConsumedIsPrefixStable(ts, more, |ts| - 1);
      assert (ts + more)[|ts| - 1] == ts[|ts| - 1];
    }
  }

  /** A value flag followed by a token, read where no value flag is waiting,
      takes that token as its value, whatever the token looks like; `rest`
      and every other flag stay as they were. */
  lemma AppendValueFlag(ts: seq<string>, name: string, v: string)
    requires !AwaitsValue(ts) && IsValueFlag(name)
    ensures Scan(ts + [name, v]) == Apply(Scan(ts), name, Some(v))
    ensures Scan(ts + [name, v]).rest == Scan(ts).rest
    ensures ValueBefore(ts + [name, v], |ts| + 2, name) == Some(v)
  {
    var us := ts + [name, v];
    ScanIsPrefixStable(ts, [name, v]);
    ConsumedIsNotAwaited(ts, [name, v]);
    assert us[|ts|] == name && us[|ts| + 1] == v;
    ValueStep(us, |ts|);
    ValueBeforeNext(us, |ts| + 1, name);
    ValueBeforeNext(us, |ts|, name);
  }

  /** A value flag that is the last token yields no value: the flag is
      reset to absent, not an error. */
  lemma AppendDanglingFlag(ts: seq<string>, name: string)
    requires !AwaitsValue(ts) && IsValueFlag(name)
    ensures Scan(ts + [name]) == Apply(Scan(ts), name, None)
    ensures ValueBefore(ts + [name], |ts| + 1, name) == None
  {
    var us := ts + [name];
    ScanIsPrefixStable(ts, [name]);
    ConsumedIsNotAwaited(ts, [name]);
    assert us[|ts|] == name;
    ValueStep(us, |ts|);
    ValueBeforeNext(us, |ts|, name);
  }

  /** `--limit` and `--max-chars` with a value that is not an integer yield absent. */
  lemma NonIntegerLimitIsAbsent(ts: seq<string>, v: string)
    requires !AwaitsValue(ts) && Text.ParseInt(v) == None
    ensures Scan(ts + ["--limit", v]).limit == None
    ensures Scan(ts + ["--max-chars", v]).maxChars == None
  {
    AppendValueFlag(ts, "--limit", v);
    AppendValueFlag(ts, "--max-chars", v);
  }

  /** With no known flag among the tokens, every token is a positional, in order,
      and every flag is absent. */
  lemma {:induction false} NoFlagsAllPositional(ts: seq<string>)
    requires forall i :: 0 <= i < |ts| ==> !IsKnownFlag(ts[i])
    ensures Scan(ts) == Flags(None, false, None, false, None, None, false, None, None, None, None, None, ts)
  {
    if ts != [] {
      var init := ts[..|ts| - 1];
      var last := ts[|ts| - 1];
      NoFlagsAllPositional(init);
      assert init + [last] == ts;
      assert !AwaitsValue(init) by {
        if init != [] { assert init[|init| - 1] == ts[|init| - 1]; }
      }
      AppendPositional(init, last);
    }
  }

  // ----- the scan as a fold over the tokens -----

  /** The scan read as the loop reads it: from flags `f`, a value flag takes
      the token after it (or nothing when none is left) and every other token
      is applied alone. */
  function Run(f: Flags, ts: seq<string>): Flags
    decreases |ts|
  {
    if ts == [] then f
    else if IsValueFlag(ts[0]) then
      (if |ts| > 1 then Run(Apply(f, ts[0], Some(ts[1])), ts[2..]) else Apply(f, ts[0], None))
    else Run(Apply(f, ts[0], None), ts[1..])
  }

  /** From any token boundary `p`, the rest of the scan is the fold of the
      remaining tokens over the flags so far. */
  lemma {:induction false} ScanSplits(ts: seq<string>, p: nat)
    requires p <= |ts| && (p < |ts| ==> !IsConsumed(ts, p))
    ensures Scan(ts) == Run(ScanPrefix(ts, p), ts[p..])
    decreases |ts| - p
  {
    var rest := ts[p..];
    if p < |ts| {
      assert rest[0] == ts[p];
      if IsValueFlag(ts[p]) {
        ValueStep(ts, p);
        if p + 1 < |ts| {
          assert rest[1] == ts[p + 1] && rest[2..] == ts[p + 2..];
          ScanSplits(ts, p + 2);
        }
      } else {
        OtherStep(ts, p);
        assert rest[1..] == ts[p + 1..];
        ScanSplits(ts, p + 1);
      }
    }
  }

  /** Where no value flag is waiting, the tokens after `x` are folded over
      the flags `x` produced: nothing else about `x` matters. */
  lemma ScanThenRun(x: seq<string>, b: seq<string>)
    requires !AwaitsValue(x)
    ensures Scan(x + b) == Run(Scan(x), b)
  {
    if b == [] {
      assert x + b == x;
    } else {
      ConsumedIsNotAwaited(x, b);
      ScanIsPrefixStable(x, b);
      assert (x + b)[|x|..] == b;
      ScanSplits(x + b, |x|);
    }
  }

  /** The two readings of the scan agree: the position-based reference
      definition is the fold of all the tokens over the initial flags. */
  lemma ScanIsFold(ts: seq<string>)
    ensures Scan(ts) == Run(Flags(None, false, None, false, None, None, false, None, None, None, None, None, []), ts)
  {
    ScanThenRun([], ts);
    assert [] + ts == ts;
  }

  /** A switch alone, or a value flag with the token after it. */
  predicate IsGroup(g: seq<string>) {
    || (|g| == 1 && IsSwitch(g[0]))
    || (|g| == 2 && IsValueFlag(g[0]))
  }

  /** What a group does to the flags. */
  function GroupEffect(f: Flags, g: seq<string>): Flags
    requires IsGroup(g)
  {
    if |g| == 2 then Apply(f, g[0], Some(g[1])) else Apply(f, g[0], None)
  }

  lemma RunGroup(f: Flags, g: seq<string>, rest: seq<string>)
    requires IsGroup(g)
    ensures Run(f, g + rest) == Run(GroupEffect(f, g), rest)
  {
    var ts := g + rest;
    assert ts[0] == g[0];
    if |g| == 2 {
      assert ts[1] == g[1] && ts[2..] == rest;
    } else {
      assert ts[1..] == rest;
    }
  }

  /** The flag variable a known flag sets. */
  datatype Slot = UrlSlot | FullPageSlot | TargetIdSlot | AwaitSlot | JsSlot | JsFileSlot
                | JsStdinSlot | SelectorSlot | FormatSlot | LimitSlot | MaxCharsSlot | OutSlot

  function SlotOf(x: string): Slot
    requires IsKnownFlag(x)
  {
    match x
    case "--url" => UrlSlot
    case "--full-page" => FullPageSlot
    case "--target-id" => TargetIdSlot
    case "--await" => AwaitSlot
    case "--js" => JsSlot
    case "--js-file" => JsFileSlot
    case "--js-stdin" => JsStdinSlot
    case "--selector" => SelectorSlot
    case "--format" => FormatSlot
    case "--limit" => LimitSlot
    case "--max-chars" => MaxCharsSlot
    case "--out" => OutSlot
  }

  /** Setting one flag variable from the popped value, field by field. */
  function Put(f: Flags, slot: Slot, v: Option<string>): Flags {
    Flags(
      overrideUrl := if slot == UrlSlot then v else f.overrideUrl,
      fullPage := f.fullPage || slot == FullPageSlot,
      targetId := if slot == TargetIdSlot then v else f.targetId,
      awaitPromise := f.awaitPromise || slot == AwaitSlot,
      js := if slot == JsSlot then v else f.js,
      jsFile := if slot == JsFileSlot then v else f.jsFile,
      jsStdin := f.jsStdin || slot == JsStdinSlot,
      selector := if slot == SelectorSlot then v else f.selector,
      format := if slot == FormatSlot then v else f.format,
      limit := if slot == LimitSlot then IntValue(v) else f.limit,
      maxChars := if slot == MaxCharsSlot then IntValue(v) else f.maxChars,
      outPath := if slot == OutSlot then v else f.outPath,
      rest := f.rest)
  }

  /** A known flag sets just its own variable, and different flags own
      different variables. */
  lemma ApplyIsPut(f: Flags, x: string, v: Option<string>)
    requires IsKnownFlag(x)
    ensures Apply(f, x, v) == Put(f, SlotOf(x), v)
  {
    if x in {"--url", "--full-page", "--target-id", "--await"} {
      ApplyIsPutFirst(f, x, v);
    } else if x in {"--js", "--js-file", "--js-stdin", "--selector"} {
      ApplyIsPutSecond(f, x, v);
    } else {
      ApplyIsPutThird(f, x, v);
    }
  }

  lemma ApplyIsPutFirst(f: Flags, x: string, v: Option<string>)
    requires x in {"--url", "--full-page", "--target-id", "--await"}
    ensures Apply(f, x, v) == Put(f, SlotOf(x), v)
  {
  }

  lemma ApplyIsPutSecond(f: Flags, x: string, v: Option<string>)
    requires x in {"--js", "--js-file", "--js-stdin", "--selector"}
    ensures Apply(f, x, v) == Put(f, SlotOf(x), v)
  {
  }

  lemma ApplyIsPutThird(f: Flags, x: string, v: Option<string>)
    requires x in {"--format", "--limit", "--max-chars", "--out"}
    ensures Apply(f, x, v) == Put(f, SlotOf(x), v)
  {
  }

  lemma SlotsDiffer(x: string, y: string)
    requires IsKnownFlag(x) && IsKnownFlag(y) && x != y
    ensures SlotOf(x) != SlotOf(y)
  {
  }

  lemma PutCommutes(f: Flags, s: Slot, vs: Option<string>, t: Slot, vt: Option<string>)
    requires s != t
    ensures Put(Put(f, s, vs), t, vt) == Put(Put(f, t, vt), s, vs)
  {
  }

  /** Two different known flags set different variables, so their effects
      commute. */
  lemma ApplyCommutes(f: Flags, x: string, vx: Option<string>, y: string, vy: Option<string>)
    requires IsKnownFlag(x) && IsKnownFlag(y) && x != y
    ensures Apply(Apply(f, x, vx), y, vy) == Apply(Apply(f, y, vy), x, vx)
  {
    ApplyIsPut(f, x, vx);
    ApplyIsPut(f, y, vy);
    ApplyIsPut(Apply(f, x, vx), y, vy);
    ApplyIsPut(Apply(f, y, vy), x, vx);
    SlotsDiffer(x, y);
    PutCommutes(f, SlotOf(x), vx, SlotOf(y), vy);
  }

  /** The order of two complete flag groups with different flags does not
      change what the scan yields, wherever they stand and whatever follows. */
  lemma FlagOrderIrrelevant(a: seq<string>, g: seq<string>, h: seq<string>, b: seq<string>)
    requires !AwaitsValue(a) && IsGroup(g) && IsGroup(h) && g[0] != h[0]
    ensures Scan(a + g + h + b) == Scan(a + h + g + b)
  {
    var f := Scan(a);
    assert a + g + h + b == a + (g + (h + b));
    assert a + h + g + b == a + (h + (g + b));
    ScanThenRun(a, g + (h + b));
    ScanThenRun(a, h + (g + b));
    RunGroup(f, g, h + b);
    RunGroup(GroupEffect(f, g), h, b);
    RunGroup(f, h, g + b);
    RunGroup(GroupEffect(f, h), g, b);
    ApplyCommutes(f, g[0], if |g| == 2 then Some(g[1]) else None, h[0], if |h| == 2 then Some(h[1]) else None);
  }

  /** A token that is no known flag is applied alone. */
  lemma RunPositional(f: Flags, p: string, rest: seq<string>)
    requires !IsKnownFlag(p)
    ensures Run(f, [p] + rest) == Run(Apply(f, p, None), rest)
  {
    assert ([p] + rest)[0] == p && ([p] + rest)[1..] == rest;
  }

  /** A known flag and a positional touch different parts of the flags. */
  lemma PositionalCommutes(f: Flags, x: string, v: Option<string>, p: string)
    requires IsKnownFlag(x) && !IsKnownFlag(p)
    ensures Apply(Apply(f, x, v), p, None) == Apply(Apply(f, p, None), x, v)
  {
    ApplyIsPut(f, x, v);
    ApplyIsPut(Apply(f, p, None), x, v);
  }

  /** Moving a complete flag group past a positional does not change what
      the scan yields: the flag is set the same, and the positionals keep
      their relative order. */
  lemma FlagPastPositional(a: seq<string>, g: seq<string>, p: string, b: seq<string>)
    requires !AwaitsValue(a) && IsGroup(g) && !IsKnownFlag(p)
    ensures Scan(a + g + [p] + b) == Scan(a + [p] + g + b)
  {
    var f := Scan(a);
    assert a + g + [p] + b == a + (g + ([p] + b));
    assert a + [p] + g + b == a + ([p] + (g + b));
    ScanThenRun(a, g + ([p] + b));
    ScanThenRun(a, [p] + (g + b));
    RunGroup(f, g, [p] + b);
    RunPositional(GroupEffect(f, g), p, b);
    RunPositional(f, p, g + b);
    RunGroup(Apply(f, p, None), g, b);
    PositionalCommutes(f, g[0], if |g| == 2 then Some(g[1]) else None, p);
  }
}
