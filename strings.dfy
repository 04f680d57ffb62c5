/** The handful of Python string operations the generator relies on:
    `str.strip`, `", ".join`, `str.upper`, left-aligned padding (`{:<55}`),
    `str(int)`, `in` on strings and `str.replace`. */
module Strings {

  /** `str.isspace` on the ASCII and Latin-1 range: tab, line feed, vertical
      tab, form feed, carriage return, the four information separators,
      space, next line and no-break space. */
  predicate IsSpace(c: char) {
    c == ' ' || c == '\t' || c == '\n' || c == '\r' || c == '\U{0B}' || c == '\U{0C}'
    || ('\U{1C}' <= c <= '\U{1F}') || c == '\U{85}' || c == '\U{A0}'
  }

  /** Every character of `s` is whitespace. */
  predicate AllSpace(s: string) {
    s == [] || (IsSpace(s[0]) && AllSpace(s[1..]))
  }

  lemma {:induction false} AllSpaceAppend(a: string, b: string)
    ensures AllSpace(a + b) <==> AllSpace(a) && AllSpace(b)
  {
    if a == [] {
      assert a + b == b;
    } else {
      assert (a + b)[1..] == a[1..] + b;
      AllSpaceAppend(a[1..], b);
    }
  }

  /** Neither end of `s` is whitespace. */
  predicate IsStripped(s: string) {
    s == [] || (!IsSpace(s[0]) && !IsSpace(s[|s| - 1]))
  }

  /** Python's `str.strip()` with no argument: whitespace is dropped from
      the front, then from the back, one character at a time. */
  function Strip(s: string): string
    decreases |s|
  {
    if s != [] && IsSpace(s[0]) then Strip(s[1..])
    else if s != [] && IsSpace(s[|s| - 1]) then Strip(s[..|s| - 1])
    else s
  }

  /** The result of stripping starts and ends with a non-space. */
  lemma {:induction false} StripIsStripped(s: string)
    ensures IsStripped(Strip(s))
    decreases |s|
  {
    if s != [] && IsSpace(s[0]) {
      StripIsStripped(s[1..]);
    } else if s != [] && IsSpace(s[|s| - 1]) {
      StripIsStripped(s[..|s| - 1]);
    }
  }

  /** Stripping changes nothing on a stripped text. */
  lemma StripStripped(s: string)
    requires IsStripped(s)
    ensures Strip(s) == s
  {
  }

  /** Stripping leaves nothing exactly when everything is whitespace. */
  lemma {:induction false} StripEmpty(s: string)
    ensures Strip(s) == [] <==> AllSpace(s)
    decreases |s|
  {
    if s != [] && IsSpace(s[0]) {
      StripEmpty(s[1..]);
    } else if s != [] && IsSpace(s[|s| - 1]) {
      StripEmpty(s[..|s| - 1]);
      assert s == s[..|s| - 1] + [s[|s| - 1]];
      AllSpaceAppend(s[..|s| - 1], [s[|s| - 1]]);
    }
  }

  /** Leading whitespace does not change the stripped text. */
  lemma {:induction false} StripLeading(w: string, x: string)
    requires AllSpace(w)
    ensures Strip(w + x) == Strip(x)
    decreases |w|
  {
    if w != [] {
      assert (w + x)[0] == w[0] && (w + x)[1..] == w[1..] + x;
      StripLeading(w[1..], x);
    } else {
      assert w + x == x;
    }
  }

  /** Trailing whitespace does not change the stripped text of a text that
      starts with a non-space. */
  lemma {:induction false} StripTrailing(x: string, w: string)
    requires x != [] && !IsSpace(x[0]) && AllSpace(w)
    ensures Strip(x + w) == Strip(x)
    decreases |w|
  {
    if w != [] {
      var v := w[..|w| - 1];
      assert w == v + [w[|w| - 1]];
      AllSpaceAppend(v, [w[|w| - 1]]);
      var u := x + w;
      assert u[0] == x[0] && u[|u| - 1] == w[|w| - 1];
      assert u[..|u| - 1] == x + v;
      StripTrailing(x, v);
    } else {
      assert x + w == x;
    }
  }

  /** Stripping removes exactly the surrounding whitespace: any whitespace
      around an already-stripped text `t` is dropped and `t` is kept whole. */
  lemma StripAround(w: string, t: string, w': string)
    requires AllSpace(w) && AllSpace(w')
    requires IsStripped(t) && t != []
    ensures Strip(w + t + w') == t
  {
    assert w + t + w' == w + (t + w');
    StripLeading(w, t + w');
    StripTrailing(t, w');
  }

  /** `s` with every whitespace character removed. */
  function NoSpace(s: string): string
    decreases |s|
  {
    if s == [] then [] else (if IsSpace(s[0]) then [] else [s[0]]) + NoSpace(s[1..])
  }

  lemma {:induction false} NoSpaceAppend(a: string, b: string)
    ensures NoSpace(a + b) == NoSpace(a) + NoSpace(b)
    decreases |a|
  {
    if a == [] {
      assert a + b == b;
    } else {
      assert (a + b)[0] == a[0] && (a + b)[1..] == a[1..] + b;
      NoSpaceAppend(a[1..], b);
      AppendAssoc(if IsSpace(a[0]) then [] else [a[0]], NoSpace(a[1..]), NoSpace(b));
    }
  }

  /** Stripping removes only whitespace. */
  /** Strings equal up to whitespace stay so when appended. */
  lemma NoSpaceAppendBoth(a: string, b: string, a': string, b': string)
    requires NoSpace(a) == NoSpace(a') && NoSpace(b) == NoSpace(b')
    ensures NoSpace(a + b) == NoSpace(a' + b')
  {
    NoSpaceAppend(a, b);
    NoSpaceAppend(a', b');
  }

  lemma {:induction false} NoSpaceStrip(s: string)
    ensures NoSpace(Strip(s)) == NoSpace(s)
    decreases |s|
  {
    if s != [] && IsSpace(s[0]) {
      NoSpaceStrip(s[1..]);
      AppendEmpty(NoSpace(s[1..]));
    } else if s != [] && IsSpace(s[|s| - 1]) {
      var init, last := s[..|s| - 1], s[|s| - 1];
      NoSpaceStrip(init);
      assert s == init + [last];
      NoSpaceAppend(init, [last]);
      assert NoSpace([last]) == [];
      AppendEmpty(NoSpace(init));
    }
  }

  /** `sep.join(parts)`. */
  function Join(sep: string, parts: seq<string>): string {
    if |parts| == 0 then ""
    else if |parts| == 1 then parts[0]
    else parts[0] + sep + Join(sep, parts[1..])
  }

  /** Concatenation is associative. */
  lemma AppendAssoc<T>(a: seq<T>, b: seq<T>, c: seq<T>)
    ensures a + (b + c) == a + b + c
  {
  }

  /** The empty sequence is a unit of concatenation. */
  lemma AppendEmpty<T>(a: seq<T>)
    ensures [] + a == a && a + [] == a
  {
  }

  /** The text a `StringIO` holds after writing `parts` in order. */
  function Concat(parts: seq<string>): string {
    if parts == [] then "" else Concat(parts[..|parts| - 1]) + parts[|parts| - 1]
  }

  lemma {:induction false} ConcatAppend(a: seq<string>, b: seq<string>)
    ensures Concat(a + b) == Concat(a) + Concat(b)
    decreases |b|
  {
    if b == [] {
      assert a + b == a;
      AppendEmpty(Concat(a));
    } else {
      var init, last := b[..|b| - 1], b[|b| - 1];
      assert (a + b)[..|a + b| - 1] == a + init && (a + b)[|a + b| - 1] == last;
      ConcatAppend(a, init);
      AppendAssoc(Concat(a), Concat(init), last);
    }
  }

  /** Writing one more part appends it. */
  lemma ConcatSnoc(parts: seq<string>, x: string)
    ensures Concat(parts + [x]) == Concat(parts) + x
  {
    assert (parts + [x])[..|parts|] == parts;
  }

  /** A concatenation holds its `i`-th part right after the first `i` parts. */
  lemma ConcatAt(parts: seq<string>, i: nat)
    requires i < |parts|
    ensures Concat(parts) == Concat(parts[..i]) + parts[i] + Concat(parts[i + 1..])
  {
    var front := parts[..i + 1];
    assert parts == front + parts[i + 1..];
    ConcatAppend(front, parts[i + 1..]);
    assert front[..i] == parts[..i];
  }

  /** `str.upper` on ASCII letters; every other character is kept. */
  function UpperChar(c: char): char {
    if 'a' <= c <= 'z' then (c as int - 'a' as int + 'A' as int) as char else c
  }

  function Upper(s: string): (r: string)
    ensures |r| == |s| && forall k | 0 <= k < |s| :: r[k] == UpperChar(s[k])
  {
    if s == [] then "" else [UpperChar(s[0])] + Upper(s[1..])
  }

  /** `s * n`, used for the indentation unit. */
  function Repeat(s: string, n: nat): string {
    if n == 0 then "" else s + Repeat(s, n - 1)
  }

  function Spaces(n: nat): (r: string)
    ensures |r| == n && forall k | 0 <= k < n :: r[k] == ' '
  {
    if n == 0 then "" else " " + Spaces(n - 1)
  }

  /** `format(s, "<w")`: `s` left-aligned in a field of `w` characters,
      padded with spaces and never truncated. */
  function PadRight(s: string, w: nat): (r: string)
    ensures |r| == if |s| < w then w else |s|
    ensures r[..|s|] == s
    ensures forall k | |s| <= k < |r| :: r[k] == ' '
  {
    if |s| < w then s + Spaces(w - |s|) else s
  }

  predicate IsDigit(c: char) {
    '0' <= c <= '9'
  }

  predicate AllDigits(s: string) {
    forall k | 0 <= k < |s| :: IsDigit(s[k])
  }

  function DigitChar(d: nat): (c: char)
    requires d < 10
    ensures IsDigit(c) && c as int - '0' as int == d
  {
    (d + '0' as int) as char
  }

  /** `str(n)` for a non-negative integer: decimal, no leading zero. */
  function NatToString(n: nat): (r: string)
    ensures r != [] && AllDigits(r)
    ensures r[0] == '0' ==> n == 0
  {
    if n < 10 then [DigitChar(n)] else NatToString(n / 10) + [DigitChar(n % 10)]
  }

  /** Reads a decimal numeral back: the inverse of `NatToString`. */
  function ParseNat(s: string): nat
    requires AllDigits(s)
  {
    if s == [] then 0 else ParseNat(s[..|s| - 1]) * 10 + (s[|s| - 1] as int - '0' as int)
  }

  lemma {:induction false} ParseNatToString(n: nat)
    ensures ParseNat(NatToString(n)) == n
  {
    if n >= 10 {
      var s := NatToString(n);
      assert s[..|s| - 1] == NatToString(n / 10);
      ParseNatToString(n / 10);
    }
  }

  /** Distinct numbers print differently: no two slots share an index text. */
  lemma NatToStringInjective(m: nat, n: nat)
    requires NatToString(m) == NatToString(n)
    ensures m == n
  {
    ParseNatToString(m);
    ParseNatToString(n);
  }

  /** `pat` occurs in `s` starting at index `i`. */
  predicate OccursAt(s: string, pat: string, i: int) {
    0 <= i && i + |pat| <= |s| && s[i..i + |pat|] == pat
  }

  /** Python's `pat in s`. */
  predicate Contains(s: string, pat: string) {
    exists i | 0 <= i <= |s| - |pat| :: OccursAt(s, pat, i)
  }

  /** The middle of a concatenation occurs in it. */
  lemma ContainsMiddle(a: string, b: string, c: string)
    ensures Contains(a + b + c, b)
  {
    assert (a + b + c)[|a|..|a| + |b|] == b;
    assert OccursAt(a + b + c, b, |a|);
  }

  /** A part of a concatenation occurs in it. */
  lemma ConcatContains(parts: seq<string>, k: nat)
    requires k < |parts|
    ensures Contains(Concat(parts), parts[k])
  {
    ConcatAt(parts, k);
    ContainsMiddle(Concat(parts[..k]), parts[k], Concat(parts[k + 1..]));
  }

  /** What occurs in `b` occurs in `a + b`. */
  lemma ContainsSuffix(a: string, b: string, pat: string)
    requires Contains(b, pat)
    ensures Contains(a + b, pat)
  {
    var i :| 0 <= i <= |b| - |pat| && OccursAt(b, pat, i);
    assert (a + b)[|a| + i..|a| + i + |pat|] == b[i..i + |pat|];
    assert OccursAt(a + b, pat, |a| + i);
  }

  /** Python's `s.replace(pat, v)`: every non-overlapping occurrence of `pat`,
      found left to right, is replaced by `v`. */
  function ReplaceAll(s: string, pat: string, v: string): string
    requires pat != []
    decreases |s|
  {
    if |s| < |pat| then s
    else if s[..|pat|] == pat then v + ReplaceAll(s[|pat|..], pat, v)
    else [s[0]] + ReplaceAll(s[1..], pat, v)
  }

  /** Without an occurrence nothing is replaced. */
  lemma {:induction false} ReplaceAbsent(s: string, pat: string, v: string)
    requires pat != [] && !Contains(s, pat)
    ensures ReplaceAll(s, pat, v) == s
    decreases |s|
  {
    if |s| >= |pat| {
      assert !OccursAt(s, pat, 0);
      assert !Contains(s[1..], pat) by {
        forall i | 0 <= i <= |s[1..]| - |pat|
          ensures !OccursAt(s[1..], pat, i)
        {
          assert s[1..][i..i + |pat|] == s[i + 1..i + 1 + |pat|];
          assert !OccursAt(s, pat, i + 1);
        }
      }
      ReplaceAbsent(s[1..], pat, v);
    }
  }

  /** A stretch `a` in which no occurrence starts is copied unchanged. */
  lemma {:induction false} ReplaceSkip(a: string, s: string, pat: string, v: string)
    requires pat != []
    requires forall i | 0 <= i < |a| :: !OccursAt(a + s, pat, i)
    ensures ReplaceAll(a + s, pat, v) == a + ReplaceAll(s, pat, v)
    decreases |a|
  {
    if a != [] {
      var t := a + s;
      assert !OccursAt(t, pat, 0);
      assert t[1..] == a[1..] + s;
      forall i | 0 <= i < |a[1..]|
        ensures !OccursAt(a[1..] + s, pat, i)
      {
        assert !OccursAt(t, pat, i + 1);
        if i + |pat| <= |t[1..]| {
          assert t[i + 1..i + 1 + |pat|] == t[1..][i..i + |pat|];
        }
      }
      ReplaceSkip(a[1..], s, pat, v);
      if |t| >= |pat| {
        assert t[..|pat|] != pat by {
          assert t[0..|pat|] == t[..|pat|];
        }
        assert ReplaceAll(t, pat, v) == [t[0]] + ReplaceAll(t[1..], pat, v);
        assert ReplaceAll(t[1..], pat, v) == a[1..] + ReplaceAll(s, pat, v);
        assert [t[0]] + a[1..] == a;
      } else {
        ReplaceAbsentShort(t, pat, v);
        ReplaceAbsentShort(s, pat, v);
      }
    } else {
      assert a + s == s;
    }
  }

  lemma ReplaceAbsentShort(s: string, pat: string, v: string)
    requires pat != [] && |s| < |pat|
    ensures ReplaceAll(s, pat, v) == s
  {
  }

  /** A marker that occurs exactly once is replaced at that one place. */
  lemma ReplaceOnce(a: string, pat: string, b: string, v: string)
    requires pat != []
    requires forall i | OccursAt(a + pat + b, pat, i) :: i == |a|
    ensures ReplaceAll(a + pat + b, pat, v) == a + v + b
  {
    var s := a + pat + b;
    assert s == a + (pat + b);
    ReplaceSkip(a, pat + b, pat, v);
    assert (pat + b)[..|pat|] == pat && (pat + b)[|pat|..] == b;
    assert !Contains(b, pat) by {
      forall j | 0 <= j <= |b| - |pat|
        ensures !OccursAt(b, pat, j)
      {
        var k := |a| + |pat| + j;
        assert s[k..k + |pat|] == b[j..j + |pat|];
        assert OccursAt(s, pat, k) ==> k == |a|;
      }
    }
    ReplaceAbsent(b, pat, v);
  }

  /** A marker that occurs twice is replaced at both places; nothing fails. */
  lemma ReplaceTwice(a: string, pat: string, b: string, c: string, v: string)
    requires pat != []
    requires forall i | OccursAt(a + pat + (b + pat + c), pat, i) ::
               i == |a| || i == |a| + |pat| + |b|
    ensures ReplaceAll(a + pat + (b + pat + c), pat, v) == a + v + (b + v + c)
  {
    var rest := b + pat + c;
    ShiftOccurrences(a + pat, rest, pat, |b|);
    ReplaceOnce(b, pat, c, v);
    ReplaceLead(a, pat, rest, v);
  }

  /** The occurrences in a tail `t` of `h + t` are those of `h + t` after `h`. */
  lemma ShiftOccurrences(h: string, t: string, pat: string, only: int)
    requires forall i | OccursAt(h + t, pat, i) :: i < |h| || i == |h| + only
    ensures forall i | OccursAt(t, pat, i) :: i == only
  {
    forall i | OccursAt(t, pat, i)
      ensures i == only
    {
      assert (h + t)[|h| + i..|h| + i + |pat|] == t[i..i + |pat|];
      assert OccursAt(h + t, pat, |h| + i);
    }
  }

  /** The first occurrence, at the end of a stretch without one, is replaced
      and the scan goes on after it. */
  lemma ReplaceLead(a: string, pat: string, rest: string, v: string)
    requires pat != []
    requires forall i | 0 <= i < |a| :: !OccursAt(a + pat + rest, pat, i)
    ensures ReplaceAll(a + pat + rest, pat, v) == a + v + ReplaceAll(rest, pat, v)
  {
    assert a + pat + rest == a + (pat + rest);
    ReplaceSkip(a, pat + rest, pat, v);
    assert (pat + rest)[..|pat|] == pat && (pat + rest)[|pat|..] == rest;
  }
}
