/** String operations of Python's `str` that the pipeline relies on:
    whitespace stripping, ASCII lower-casing, substring search, `split`,
    `join`, `replace`, and decimal rendering of integers. */
module Strings {
  import opened Wrappers

  /** Python's `str.isspace` for a single code point. */
  predicate IsSpace(c: char) {
    var n := c as int;
    || (9 <= n <= 13) || (28 <= n <= 32) || n == 0x85 || n == 0xA0 || n == 0x1680
    || (0x2000 <= n <= 0x200A) || n == 0x2028 || n == 0x2029 || n == 0x202F
    || n == 0x205F || n == 0x3000
  }

  predicate IsPrefix(p: string, s: string) {
    |p| <= |s| && s[..|p|] == p
  }

  lemma PrefixOfAppend(p: string, a: string, b: string)
    requires IsPrefix(p, a)
    ensures IsPrefix(p, a + b)
  {
    assert (a + b)[..|p|] == a[..|p|];
  }

  lemma PrefixTransitive(p: string, q: string, s: string)
    requires IsPrefix(p, q) && IsPrefix(q, s)
    ensures IsPrefix(p, s)
  {
    assert s[..|p|] == s[..|q|][..|p|];
  }

  predicate IsSuffix(p: string, s: string) {
    |p| <= |s| && s[|s| - |p|..] == p
  }

  /** `p` occurs in `s` starting at index `i`. */
  predicate ContainsAt(s: string, p: string, i: int) {
    0 <= i && i + |p| <= |s| && s[i..i + |p|] == p
  }

  // ---------------------------------------------------------------------------
  // Stripping

  /** Python's `str.lstrip()`. */
  function LStrip(s: string): (r: string)
    ensures IsSuffix(r, s)
    ensures |r| > 0 ==> !IsSpace(r[0])
    ensures forall i :: 0 <= i < |s| - |r| ==> IsSpace(s[i])
  {
    if |s| > 0 && IsSpace(s[0]) then LStrip(s[1..]) else s
  }

  /** Python's `str.rstrip()`. */
  function RStrip(s: string): (r: string)
    ensures IsPrefix(r, s)
    ensures |r| > 0 ==> !IsSpace(r[|r| - 1])
    ensures forall i :: |r| <= i < |s| ==> IsSpace(s[i])
  {
    if |s| > 0 && IsSpace(s[|s| - 1]) then RStrip(s[..|s| - 1]) else s
  }

  /** Python's `str.strip()`: no whitespace at either end of the result. */
  function Strip(s: string): (r: string)
    ensures |r| <= |s|
    ensures |r| > 0 ==> !IsSpace(r[0]) && !IsSpace(r[|r| - 1])
  {
    RStrip(LStrip(s))
  }

  /** Python's `str.rstrip(c)` for one character `c`. */
  function RStripChar(s: string, c: char): (r: string)
    ensures IsPrefix(r, s)
    ensures |r| > 0 ==> r[|r| - 1] != c
    ensures forall i :: |r| <= i < |s| ==> s[i] == c
  {
    if |s| > 0 && s[|s| - 1] == c then RStripChar(s[..|s| - 1], c) else s
  }

  lemma {:induction false} LStripAppend(s: string, t: string)
    ensures LStrip(s + t) == if LStrip(s) == "" then LStrip(t) else LStrip(s) + t
  {
    if |s| > 0 && IsSpace(s[0]) {
      assert (s + t)[1..] == s[1..] + t;
      LStripAppend(s[1..], t);
    } else if |s| == 0 {
      assert s + t == t;
    }
  }

  /** Whitespace added around a text does not survive `strip()`. */
  lemma StripPadded(s: string, c: char, d: char)
    requires IsSpace(c) && IsSpace(d)
    ensures Strip([c] + s + [d]) == Strip(s)
  {
    assert ([c] + s + [d])[1..] == s + [d];
    assert LStrip([c] + s + [d]) == LStrip(s + [d]);
    LStripAppend(s, [d]);
    if LStrip(s) == "" {
      assert LStrip([d]) == "";
    } else {
      var l := LStrip(s);
      assert (l + [d])[..|l + [d]| - 1] == l;
    }
  }

  // ---------------------------------------------------------------------------
  // Case

  /** ASCII lower-casing of one character. */
  function LowerChar(c: char): char {
    if 'A' <= c <= 'Z' then (c as int + 32) as char else c
  }

  /** Python's `str.lower()`, restricted to ASCII letters. */
  function Lower(s: string): (r: string)
    ensures |r| == |s|
  {
    if |s| == 0 then "" else [LowerChar(s[0])] + Lower(s[1..])
  }

  /** ASCII upper-casing of one character. */
  function UpperChar(c: char): char {
    if 'a' <= c <= 'z' then (c as int - 32) as char else c
  }

  /** Python's `str.upper()`, restricted to ASCII letters. */
  function Upper(s: string): (r: string)
    ensures |r| == |s|
  {
    if |s| == 0 then "" else [UpperChar(s[0])] + Upper(s[1..])
  }

  lemma {:induction false} LowerAppend(a: string, b: string)
    ensures Lower(a + b) == Lower(a) + Lower(b)
  {
    if |a| == 0 {
      assert a + b == b;
    } else {
      assert (a + b)[1..] == a[1..] + b;
      LowerAppend(a[1..], b);
    }
  }

  /** A text without upper-case ASCII letters is its own lower-case form. */
  lemma {:induction false} LowerOfLower(s: string)
    requires forall i :: 0 <= i < |s| ==> !('A' <= s[i] <= 'Z')
    ensures Lower(s) == s
  {
    if |s| > 0 {
      LowerOfLower(s[1..]);
    }
  }

  // ---------------------------------------------------------------------------
  // Search

  /** First index at or after `from` where `p` occurs in `s`. */
  function IndexFrom(s: string, p: string, from: nat): (r: Option<nat>)
    decreases |s| - from
    ensures r.Some? ==> from <= r.value && ContainsAt(s, p, r.value)
    ensures r.Some? ==> forall j :: from <= j < r.value ==> !ContainsAt(s, p, j)
    ensures r.None? ==> forall j :: from <= j ==> !ContainsAt(s, p, j)
  {
    if from + |p| > |s| then None
    else if s[from..from + |p|] == p then Some(from)
    else IndexFrom(s, p, from + 1)
  }

  /** Python's `s.find(p)`, with `None` for -1. */
  function IndexOf(s: string, p: string): (r: Option<nat>)
    ensures r.Some? ==> ContainsAt(s, p, r.value)
    ensures r.Some? ==> forall j :: 0 <= j < r.value ==> !ContainsAt(s, p, j)
    ensures r.None? ==> forall j :: !ContainsAt(s, p, j)
  {
    IndexFrom(s, p, 0)
  }

  /** Python's `p in s`. */
  predicate Contains(s: string, p: string) {
    IndexOf(s, p).Some?
  }

  lemma ContainsAtContains(s: string, p: string, i: int)
    requires ContainsAt(s, p, i)
    ensures Contains(s, p)
  {
  }

  /** A text contains every piece it is assembled around. */
  lemma ContainsMiddle(a: string, p: string, b: string)
    ensures Contains(a + p + b, p)
  {
    assert (a + p + b)[|a|..|a| + |p|] == p;
    ContainsAtContains(a + p + b, p, |a|);
  }

  /** A text that is `a + p + b`, however bracketed, contains `p`. */
  lemma ContainsSplit(a: string, p: string, b: string, s: string)
    requires s == a + p + b
    ensures Contains(s, p)
  {
    ContainsMiddle(a, p, b);
  }

  lemma ContainsPrefix(s: string, p: string)
    requires IsPrefix(p, s)
    ensures Contains(s, p)
  {
    ContainsAtContains(s, p, 0);
  }

  lemma ContainsExtend(a: string, s: string, b: string, p: string)
    requires Contains(s, p)
    ensures Contains(a + s + b, p)
  {
    var i := IndexOf(s, p).value;
    assert (a + s + b)[|a| + i..|a| + i + |p|] == s[i..i + |p|];
    ContainsAtContains(a + s + b, p, |a| + i);
  }

  // ---------------------------------------------------------------------------
  // Splitting, joining, replacing

  /** Python's `sep.join(parts)`. */
  function Join(parts: seq<string>, sep: string): string {
    if |parts| == 0 then ""
    else if |parts| == 1 then parts[0]
    else parts[0] + sep + Join(parts[1..], sep)
  }

  lemma JoinHead(parts: seq<string>, sep: string)
    requires |parts| > 0
    ensures IsPrefix(parts[0], Join(parts, sep))
  {
  }

  /** Python's `s.split(sep)` for a non-empty separator: the pieces between
      non-overlapping occurrences of `sep`, scanned left to right. */
  function SplitOn(s: string, sep: string): (r: seq<string>)
    requires |sep| > 0
    ensures |r| >= 1
    decreases |s|
  {
    if |s| < |sep| then [s]
    else if s[..|sep|] == sep then [""] + SplitOn(s[|sep|..], sep)
    else
      var rest := SplitOn(s[1..], sep);
      [[s[0]] + rest[0]] + rest[1..]
  }

  /** Python's `s.replace(pat, rep)` for a non-empty `pat`. */
  function ReplaceAll(s: string, pat: string, rep: string): string
    requires |pat| > 0
    decreases |s|
  {
    if |s| < |pat| then s
    else if s[..|pat|] == pat then rep + ReplaceAll(s[|pat|..], pat, rep)
    else [s[0]] + ReplaceAll(s[1..], pat, rep)
  }

  lemma JoinCons(x: string, rest: seq<string>, sep: string)
    requires |rest| >= 1
    ensures Join([x] + rest, sep) == x + sep + Join(rest, sep)
  {
    assert ([x] + rest)[1..] == rest;
  }

  lemma {:induction false} JoinExtendHead(c: char, rest: seq<string>, sep: string)
    requires |rest| >= 1
    ensures Join([[c] + rest[0]] + rest[1..], sep) == [c] + Join(rest, sep)
  {
    if |rest| == 1 {
    } else {
      JoinCons([c] + rest[0], rest[1..], sep);
      JoinCons(rest[0], rest[1..], sep);
      assert rest == [rest[0]] + rest[1..];
    }
  }

  /** Every part of a joined text sits inside it, between a prefix and a
      suffix. */
  lemma {:induction false} JoinAround(parts: seq<string>, sep: string, k: nat) returns (a: string, b: string)
    requires k < |parts|
    ensures Join(parts, sep) == a + parts[k] + b
  {
    if |parts| == 1 {
      a, b := "", "";
    } else if k == 0 {
      a, b := "", sep + Join(parts[1..], sep);
    } else {
      var a', b' := JoinAround(parts[1..], sep, k - 1);
      a, b := parts[0] + sep + a', b';
    }
  }

  /** Splitting on a separator and joining back with it restores the text. */
  lemma {:induction false} JoinSplit(s: string, sep: string)
    requires |sep| > 0
    ensures Join(SplitOn(s, sep), sep) == s
    decreases |s|
  {
    if |s| < |sep| {
    } else if s[..|sep|] == sep {
      var tail := s[|sep|..];
      var rest := SplitOn(tail, sep);
      assert SplitOn(s, sep) == [""] + rest;
      JoinSplit(tail, sep);
      JoinCons("", rest, sep);
      assert Join(SplitOn(s, sep), sep) == "" + sep + tail;
      assert s == s[..|sep|] + tail;
    } else {
      var rest := SplitOn(s[1..], sep);
      assert SplitOn(s, sep) == [[s[0]] + rest[0]] + rest[1..];
      JoinSplit(s[1..], sep);
      JoinExtendHead(s[0], rest, sep);
      assert s == [s[0]] + s[1..];
    }
  }

  /** `replace` keeps every piece between occurrences and only swaps the
      occurrences themselves. */
  lemma {:induction false} ReplaceIsJoinOfSplit(s: string, pat: string, rep: string)
    requires |pat| > 0
    ensures ReplaceAll(s, pat, rep) == Join(SplitOn(s, pat), rep)
    decreases |s|
  {
    if |s| < |pat| {
    } else if s[..|pat|] == pat {
      var tail := s[|pat|..];
      assert SplitOn(s, pat) == [""] + SplitOn(tail, pat);
      assert ReplaceAll(s, pat, rep) == rep + ReplaceAll(tail, pat, rep);
      ReplaceIsJoinOfSplit(tail, pat, rep);
      JoinCons("", SplitOn(tail, pat), rep);
    } else {
      var rest := SplitOn(s[1..], pat);
      assert SplitOn(s, pat) == [[s[0]] + rest[0]] + rest[1..];
      assert ReplaceAll(s, pat, rep) == [s[0]] + ReplaceAll(s[1..], pat, rep);
      ReplaceIsJoinOfSplit(s[1..], pat, rep);
      JoinExtendHead(s[0], rest, rep);
    }
  }

  /** Replacing a pattern that does not occur changes nothing. */
  lemma {:induction false} ReplaceAbsent(s: string, pat: string, rep: string)
    requires |pat| > 0
    requires forall j :: !ContainsAt(s, pat, j)
    ensures ReplaceAll(s, pat, rep) == s
    decreases |s|
  {
    if |s| >= |pat| {
      assert !ContainsAt(s, pat, 0);
      forall j ensures !ContainsAt(s[1..], pat, j) {
        assert !ContainsAt(s, pat, j + 1);
      }
      ReplaceAbsent(s[1..], pat, rep);
      assert s == [s[0]] + s[1..];
    }
  }

  /** The text before the first occurrence of `sep`, or all of `s`
      (Python's `s.split(sep)[0]`). */
  function Before(s: string, sep: string): (r: string)
    ensures IsPrefix(r, s)
  {
    match IndexOf(s, sep)
    case Some(i) => s[..i]
    case None => s
  }

  /** The text after the first occurrence of `sep` (Python's
      `s.split(sep, 1)[1]`), or `None` when `sep` does not occur. */
  function After(s: string, sep: string): (r: Option<string>)
    ensures r.Some? <==> Contains(s, sep)
    ensures r.Some? ==> IsSuffix(r.value, s)
  {
    match IndexOf(s, sep)
    case Some(i) => Some(s[i + |sep|..])
    case None => None
  }

  // ---------------------------------------------------------------------------
  // Decimal rendering

  function DigitChar(d: int): (c: char)
    requires 0 <= d < 10
    ensures '0' <= c <= '9'
  {
    ('0' as int + d) as char
  }

  function DigitValue(c: char): int {
    c as int - '0' as int
  }

  predicate AllDigits(s: string) {
    forall i :: 0 <= i < |s| ==> '0' <= s[i] <= '9'
  }

  /** Python's `str(n)` for a natural number. */
  function NatToString(n: nat): (r: string)
    ensures |r| >= 1 && AllDigits(r)
  {
    if n < 10 then [DigitChar(n)] else NatToString(n / 10) + [DigitChar(n % 10)]
  }

  /** Python's `str(i)` for an integer. */
  function IntToString(i: int): string {
    if i < 0 then "-" + NatToString(-i) else NatToString(i)
  }

  /** The value of a string of decimal digits (Python's `int(s)`). */
  function ParseDigits(s: string): int {
    if |s| == 0 then 0 else ParseDigits(s[..|s| - 1]) * 10 + DigitValue(s[|s| - 1])
  }

  /** Rendering a natural number and reading it back gives the number. */
  lemma {:induction false} NatToStringRoundTrip(n: nat)
    ensures ParseDigits(NatToString(n)) == n
  {
    if n >= 10 {
      NatToStringRoundTrip(n / 10);
      var s := NatToString(n / 10) + [DigitChar(n % 10)];
      assert s[..|s| - 1] == NatToString(n / 10);
    }
  }
}
