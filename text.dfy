/**
 * The string operations of Foundation and the Swift standard library that the
 * browser CLI relies on: whitespace trimming, splitting and joining, decimal
 * rendering and parsing of integers, prefixes and repetition.
 * Strings are sequences of Unicode scalar values.
 */
module Text {
  import opened Wrappers

  /** Membership in Foundation's `CharacterSet.whitespacesAndNewlines`:
      general category Zs, the tab, and the newlines U+000A..U+000D, U+0085,
      U+2028 and U+2029. */
  predicate IsWhitespace(c: char) {
    || c == ' ' || c == '\t' || c == '\n' || c == '\r'
    || c == '\U{000B}' || c == '\U{000C}' || c == '\U{0085}' || c == '\U{00A0}'
    || c == '\U{1680}' || ('\U{2000}' <= c <= '\U{200A}')
    || c == '\U{2028}' || c == '\U{2029}' || c == '\U{202F}' || c == '\U{205F}'
    || c == '\U{3000}'
  }

  /** Every character of `s` is whitespace (true of the empty string). */
  predicate IsBlank(s: string) {
    forall i :: 0 <= i < |s| ==> IsWhitespace(s[i])
  }

  /** Drops the leading whitespace. */
  function TrimStart(s: string): (r: string)
    ensures |r| <= |s| && r == s[|s| - |r|..]
    ensures IsBlank(s[..|s| - |r|])
    ensures r == [] || !IsWhitespace(r[0])
  {
    if s != [] && IsWhitespace(s[0]) then
      var r := TrimStart(s[1..]);
      assert s[..|s| - |r|] == [s[0]] + s[1..][..|s| - 1 - |r|];
      r
    else s
  }

  /** Drops the trailing whitespace. */
  function TrimEnd(s: string): (r: string)
    ensures |r| <= |s| && r == s[..|r|]
    ensures IsBlank(s[|r|..])
    ensures r == [] || !IsWhitespace(r[|r| - 1])
  {
    if s != [] && IsWhitespace(s[|s| - 1]) then
      var r := TrimEnd(s[..|s| - 1]);
      assert s[..|s| - 1][..|r|] == s[..|r|];
      assert s[|r|..] == s[..|s| - 1][|r|..] + [s[|s| - 1]];
      r
    else s
  }

  /** `s.trimmingCharacters(in: .whitespacesAndNewlines)`. */
  function Trim(s: string): (r: string)
    ensures |r| <= |s|
    ensures r == [] || (!IsWhitespace(r[0]) && !IsWhitespace(r[|r| - 1]))
    ensures r == [] <==> IsBlank(s)
    // trimming removes only whitespace, and only at the two ends
    ensures CutFrom(s, r, |s| - |TrimStart(s)|)
  {
    var t := TrimStart(s);
    var r := TrimEnd(t);
    TrimEndInSuffix(s, t, r);
    assert r == [] ==> IsBlank(s) by {
      if r == [] {
        assert s == s[..|s| - |t|] + t;
        assert IsBlank(t) by { assert t[|r|..] == t; }
      }
    }
    r
  }

  /** `r` is `s` with a blank head of length `k` and a blank tail cut off. */
  predicate CutFrom(s: string, r: string, k: nat) {
    && k + |r| <= |s|
    && r == s[k..k + |r|]
    && IsBlank(s[..k]) && IsBlank(s[k + |r|..])
  }

  /** Cutting a blank head off `s` and then a blank tail off what remains. */
  lemma TrimEndInSuffix(s: string, t: string, r: string)
    requires |t| <= |s| && t == s[|s| - |t|..] && IsBlank(s[..|s| - |t|])
    requires |r| <= |t| && r == t[..|r|] && IsBlank(t[|r|..])
    ensures CutFrom(s, r, |s| - |t|)
  {
    SuffixPrefix(s, t, r);
  }

  /** A prefix `r` of a suffix `t` of `s` sits in `s` where `t` starts. */
  lemma SuffixPrefix(s: string, t: string, r: string)
    requires |t| <= |s| && t == s[|s| - |t|..]
    requires |r| <= |t| && r == t[..|r|]
    ensures var k := |s| - |t|;
            && s[k..k + |r|] == r
            && s[k + |r|..] == t[|r|..]
  {
  }

  /** Trimming twice changes nothing more than trimming once. */
  lemma {:induction false} TrimIdempotent(s: string)
    ensures Trim(Trim(s)) == Trim(s)
  {
    TrimOfTrimmed(Trim(s));
  }

  /** A string with no whitespace at either end is its own trim. */
  lemma TrimOfTrimmed(s: string)
    requires s == [] || (!IsWhitespace(s[0]) && !IsWhitespace(s[|s| - 1]))
    ensures Trim(s) == s
  {
    if s != [] {
      assert TrimStart(s) == s;
      assert TrimEnd(s) == s;
    }
  }

  /** `parts.joined(separator: sep)`. */
  function Join(parts: seq<string>, sep: string): string {
    if parts == [] then []
    else if |parts| == 1 then parts[0]
    else Join(parts[..|parts| - 1], sep) + sep + parts[|parts| - 1]
  }

  /** The length of the joined string: every part plus a separator between each pair. */
  lemma {:induction false} JoinLength(parts: seq<string>, sep: string)
    requires parts != []
    ensures |Join(parts, sep)| == TotalLength(parts) + (|parts| - 1) * |sep|
  {
    if |parts| > 1 {
      var init, last := parts[..|parts| - 1], parts[|parts| - 1];
      JoinLength(init, sep);
      assert |Join(parts, sep)| == |Join(init, sep)| + |sep| + |last|;
      assert TotalLength(parts) == TotalLength(init) + |last|;
      assert (|parts| - 1) * |sep| == (|init| - 1) * |sep| + |sep|;
    }
  }

  /** Joining one more part adds the separator and that part at the end. */
  lemma JoinSnoc(parts: seq<string>, p: string, sep: string)
    requires parts != []
    ensures Join(parts + [p], sep) == Join(parts, sep) + sep + p
  {
    assert (parts + [p])[..|parts|] == parts;
  }

  function TotalLength(parts: seq<string>): nat {
    if parts == [] then 0 else TotalLength(parts[..|parts| - 1]) + |parts[|parts| - 1]|
  }

  /** The leading run of `s` that holds no `sep`. */
  function Word(s: string, sep: char): (w: string)
    ensures |w| <= |s| && w == s[..|w|]
    ensures sep !in w
    ensures |w| < |s| ==> s[|w|] == sep
  {
    if s == [] || s[0] == sep then [] else [s[0]] + Word(s[1..], sep)
  }

  /** `s.split(separator: sep)`, which omits empty pieces. */
  function Split(s: string, sep: char): (r: seq<string>)
    ensures forall i :: 0 <= i < |r| ==> r[i] != [] && sep !in r[i]
    decreases |s|
  {
    if s == [] then []
    else if s[0] == sep then Split(s[1..], sep)
    else
      var w := Word(s, sep);
      [w] + Split(s[|w|..], sep)
  }

  function Concat(parts: seq<string>): string {
    if parts == [] then [] else parts[0] + Concat(parts[1..])
  }

  function Without(s: string, sep: char): (r: string)
    ensures sep !in r
  {
    if s == [] then [] else (if s[0] == sep then [] else [s[0]]) + Without(s[1..], sep)
  }

  lemma WithoutAppend(a: string, b: string, sep: char)
    ensures Without(a + b, sep) == Without(a, sep) + Without(b, sep)
  {
    if a == [] {
      assert a + b == b;
    } else {
      assert (a + b)[0] == a[0];
      assert (a + b)[1..] == a[1..] + b;
      WithoutAppend(a[1..], b, sep);
      var h := if a[0] == sep then [] else [a[0]];
      calc {
        Without(a + b, sep);
        h + Without(a[1..] + b, sep);
        h + (Without(a[1..], sep) + Without(b, sep));
        (h + Without(a[1..], sep)) + Without(b, sep);
      }
    }
  }

  /** Splitting loses only the separators: the pieces laid end to end are
      the input with every `sep` removed. */
  lemma {:induction false} SplitKeepsEverythingElse(s: string, sep: char)
    ensures Concat(Split(s, sep)) == Without(s, sep)
    decreases |s|
  {
    if s == [] {
    } else if s[0] == sep {
      SplitKeepsEverythingElse(s[1..], sep);
    } else {
      var w := Word(s, sep);
      SplitKeepsEverythingElse(s[|w|..], sep);
      assert s == w + s[|w|..];
      WithoutAppend(w, s[|w|..], sep);
      WithoutNone(w, sep);
    }
  }

  /** `Word` stops at the first separator, so what follows it does not matter. */
  lemma {:induction false} WordBeforeSeparator(a: string, b: string, sep: char)
    ensures Word(a + [sep] + b, sep) == Word(a, sep)
  {
    if a != [] && a[0] != sep {
      assert (a + [sep] + b)[1..] == a[1..] + [sep] + b;
      WordBeforeSeparator(a[1..], b, sep);
    }
  }

  /** The pieces are the maximal separator-free runs: a separator always cuts,
      and a non-empty run without one is a single piece. */
  lemma SplitSeparatesRuns(a: string, b: string, sep: char)
    ensures Split(a + [sep] + b, sep) == Split(a, sep) + Split(b, sep)
    ensures a != [] && sep !in a ==> Split(a, sep) == [a]
  {
    SplitAtSeparator(a, b, sep);
    if a != [] && sep !in a {
      SplitSingleRun(a, sep);
    }
  }

  lemma {:induction false} SplitAtSeparator(a: string, b: string, sep: char)
    ensures Split(a + [sep] + b, sep) == Split(a, sep) + Split(b, sep)
    decreases |a|
  {
    var s := a + [sep] + b;
    if a == [] {
      assert s == [sep] + b && s[1..] == b;
      SplitDropSep(s, sep);
    } else if a[0] == sep {
      assert s[0] == sep && s[1..] == a[1..] + [sep] + b;
      SplitAtSeparator(a[1..], b, sep);
      SplitDropSep(s, sep);
      SplitDropSep(a, sep);
    } else {
      var w := Word(a, sep);
      WordBeforeSeparator(a, b, sep);
      assert s[0] == a[0];
      assert s[|w|..] == a[|w|..] + [sep] + b;
      SplitAtSeparator(a[|w|..], b, sep);
      SplitTakeWord(s, sep);
      SplitTakeWord(a, sep);
    }
  }

  lemma SplitDropSep(x: string, sep: char)
    requires x != [] && x[0] == sep
    ensures Split(x, sep) == Split(x[1..], sep)
  {
  }

  lemma SplitTakeWord(x: string, sep: char)
    requires x != [] && x[0] != sep
    ensures Split(x, sep) == [Word(x, sep)] + Split(x[|Word(x, sep)|..], sep)
  {
  }

  /** A non-empty run without a separator is one piece. */
  lemma SplitSingleRun(a: string, sep: char)
    requires a != [] && sep !in a
    ensures Split(a, sep) == [a]
  {
    var w := Word(a, sep);
    assert |w| == |a|;
    assert w == a;
    assert a[|w|..] == [];
  }

  /** Splitting the words joined by a one-character separator gives the
      words back, when every word is non-empty and holds no separator. */
  lemma {:induction false} SplitJoinRoundTrip(words: seq<string>, sep: char)
    requires forall i :: 0 <= i < |words| ==> words[i] != [] && sep !in words[i]
    ensures Split(Join(words, [sep]), sep) == words
  {
    if |words| == 1 {
      SplitSeparatesRuns(words[0], [], sep);
    } else if |words| > 1 {
      var init, last := words[..|words| - 1], words[|words| - 1];
      SplitJoinRoundTrip(init, sep);
      SplitSeparatesRuns(Join(init, [sep]), last, sep);
      SplitSeparatesRuns(last, [], sep);
      assert Join(words, [sep]) == Join(init, [sep]) + [sep] + last;
      assert words == init + [last];
    }
  }

  lemma WithoutNone(s: string, sep: char)
    requires sep !in s
    ensures Without(s, sep) == s
  {
    if s != [] {
      assert s[0] != sep;
      WithoutNone(s[1..], sep);
    }
  }

  /** `String(s.prefix(n))`: the first `n` characters, or all of them. */
  function Prefix(s: string, n: nat): (r: string)
    ensures |r| == if |s| < n then |s| else n
    ensures r == s[..|r|]
  {
    if |s| < n then s else s[..n]
  }

  /** `String(repeating: unit, count: n)`. */
  function Repeat(unit: string, n: nat): (r: string)
    ensures |r| == n * |unit|
  {
    if n == 0 then [] else unit + Repeat(unit, n - 1)
  }

  /** Repeating a run of spaces gives only spaces. */
  lemma {:induction false} RepeatSpaces(unit: string, n: nat)
    requires forall i :: 0 <= i < |unit| ==> unit[i] == ' '
    ensures forall i :: 0 <= i < |Repeat(unit, n)| ==> Repeat(unit, n)[i] == ' '
  {
    if n > 0 {
      RepeatSpaces(unit, n - 1);
    }
  }

  // ----- integers -----

  const IntMin: int := -0x8000_0000_0000_0000
  const IntMax: int := 0x7FFF_FFFF_FFFF_FFFF

  predicate IsDigit(c: char) { '0' <= c <= '9' }

  predicate AllDigits(s: string) {
    forall i :: 0 <= i < |s| ==> IsDigit(s[i])
  }

  function DigitChar(d: nat): (c: char)
    requires d < 10
    ensures IsDigit(c) && c as int - '0' as int == d
  {
    ('0' as int + d) as char
  }

  /** The number a string of decimal digits denotes. */
  function DigitsValue(s: string): nat
    requires AllDigits(s)
  {
    if s == [] then 0 else DigitsValue(s[..|s| - 1]) * 10 + (s[|s| - 1] as int - '0' as int)
  }

  /** The decimal digits of `n`, without leading zeros. */
  function Digits(n: nat): (r: string)
    ensures r != [] && AllDigits(r)
    ensures r[0] != '0' || n == 0
  {
    if n < 10 then [DigitChar(n)] else Digits(n / 10) + [DigitChar(n % 10)]
  }

  /** `String(n)` for an `Int`. */
  function Decimal(n: int): (r: string)
    ensures r != []
    ensures n >= 0 ==> AllDigits(r)
    ensures n < 0 ==> r[0] == '-' && AllDigits(r[1..])
  {
    if n < 0 then "-" + Digits(-n) else Digits(n)
  }

  /** `Int(s)`: an optional sign and then at least one decimal digit, within the
      range of a 64-bit `Int`; anything else is `nil`. */
  function ParseInt(s: string): (r: Option<int>)
    ensures r.Some? ==> IntMin <= r.value <= IntMax
    ensures s == [] ==> r == None
    ensures r.Some? ==> forall i :: 0 < i < |s| ==> IsDigit(s[i])
    ensures r.Some? ==> IsDigit(s[0]) || (|s| > 1 && (s[0] == '+' || s[0] == '-'))
    ensures s != [] && AllDigits(s) && DigitsValue(s) <= IntMax ==> r == Some(DigitsValue(s) as int)
    ensures |s| > 1 && s[0] == '+' && AllDigits(s[1..]) && DigitsValue(s[1..]) <= IntMax ==>
              r == Some(DigitsValue(s[1..]) as int)
    ensures |s| > 1 && s[0] == '-' && AllDigits(s[1..]) && -(DigitsValue(s[1..]) as int) >= IntMin ==>
              r == Some(-(DigitsValue(s[1..]) as int))
    // an accepted string is its digits' value, with its sign: so a value
    // outside 64 bits is refused
    ensures r.Some? ==>
              && s != []
              && var d := if s[0] == '+' || s[0] == '-' then s[1..] else s;
                 && AllDigits(d)
                 && r.value == (if s[0] == '-' then -(DigitsValue(d) as int) else DigitsValue(d) as int)
    ensures s != [] && AllDigits(s) && DigitsValue(s) > IntMax ==> r == None
  {
    var signed := s != [] && (s[0] == '+' || s[0] == '-');
    var digits := if signed then s[1..] else s;
    if digits == [] || !AllDigits(digits) then None
    else
      var v: int := if signed && s[0] == '-' then -(DigitsValue(digits) as int) else DigitsValue(digits);
      if IntMin <= v <= IntMax then Some(v) else None
  }

  lemma {:induction false} DigitsValueOfDigits(n: nat)
    ensures DigitsValue(Digits(n)) == n
  {
    if n >= 10 {
      DigitsValueOfDigits(n / 10);
      var d := Digits(n / 10) + [DigitChar(n % 10)];
      assert d[..|d| - 1] == Digits(n / 10);
    }
  }

  /** `Int(String(n)) == n` for every 64-bit `n`: what the CLI puts into a
      query string is what a decimal parser reads back. */
  lemma DecimalRoundTrip(n: int)
    requires IntMin <= n <= IntMax
    ensures ParseInt(Decimal(n)) == Some(n)
  {
    var s := Decimal(n);
    if n < 0 {
      var d := Digits(-n);
      DigitsValueOfDigits(-n);
      assert s == "-" + d;
      assert s[0] == '-' && s[1..] == d;
      assert -(DigitsValue(d) as int) == n;
    } else {
      DigitsValueOfDigits(n);
      assert s == Digits(n);
      assert IsDigit(s[0]);
      assert DigitsValue(s) == n;
    }
  }

  /** `t` begins with `p`. */
  predicate StartsWith(t: string, p: string) {
    |p| <= |t| && t[..|p|] == p
  }

  /** `s` occurs inside `t`. */
  predicate Contains(t: string, s: string) {
    exists i :: 0 <= i <= |t| && OccursAt(t, s, i)
  }

  /** `s` occurs in `t` starting at index `i`. */
  predicate OccursAt(t: string, s: string, i: nat) {
    i + |s| <= |t| && t[i..i + |s|] == s
  }
}
