/**
 * String helpers shared by the URL builders: prefix tests, first-occurrence
 * search and replacement (JavaScript's `String.prototype.replace` with a
 * string pattern), and decimal rendering of integers (`Number.prototype.toString`
 * on integral values).
 */
module StringUtil {

  predicate StartsWith(s: string, prefix: string) {
    |prefix| <= |s| && s[..|prefix|] == prefix
  }

  /** `pat` occurs in `s` starting at index `i`. */
  predicate OccursAt(s: string, pat: string, i: int) {
    0 <= i && i + |pat| <= |s| && s[i..i + |pat|] == pat
  }

  ghost predicate Contains(s: string, pat: string) {
    exists i :: OccursAt(s, pat, i)
  }

  /** The first index at or after `from` where `pat` occurs in `s`, or -1. */
  function IndexFrom(s: string, pat: string, from: nat): (r: int)
    requires from <= |s|
    ensures r == -1 || from <= r
    ensures r >= 0 ==> OccursAt(s, pat, r)
    ensures forall j :: from <= j && (r < 0 || j < r) ==> !OccursAt(s, pat, j)
    decreases |s| - from
  {
    if from + |pat| > |s| then -1
    else if s[from..from + |pat|] == pat then from
    else if from == |s| then -1
    else IndexFrom(s, pat, from + 1)
  }

  /** `s.indexOf(pat)`: the first index where `pat` occurs, or -1. */
  function IndexOf(s: string, pat: string): (r: int)
    ensures r >= 0 ==> OccursAt(s, pat, r) && forall j :: 0 <= j < r ==> !OccursAt(s, pat, j)
    ensures r < 0 <==> !Contains(s, pat)
  {
    IndexFrom(s, pat, 0)
  }

  /**
   * `s.replace(pat, rep)` for a string pattern: the first occurrence of `pat`
   * is replaced by `rep` taken literally; without an occurrence `s` is returned.
   */
  function ReplaceFirst(s: string, pat: string, rep: string): (r: string)
    ensures !Contains(s, pat) ==> r == s
  {
    var i := IndexOf(s, pat);
    if i < 0 then s else s[..i] + rep + s[i + |pat|..]
  }

  /**
   * When no occurrence of `pat` starts inside `a`, replacing the first
   * occurrence in `a + pat + b` rewrites exactly the `pat` after `a`.
   */
  lemma ReplaceFirstAt(a: string, pat: string, b: string, rep: string)
    requires forall j :: 0 <= j < |a| ==> !OccursAt(a + pat + b, pat, j)
    ensures ReplaceFirst(a + pat + b, pat, rep) == a + rep + b
  {
    var s := a + pat + b;
    assert s[|a|..|a| + |pat|] == pat;
    assert OccursAt(s, pat, |a|);
    var i := IndexOf(s, pat);
    assert i == |a|;
    assert s[..i] == a;
    assert s[i + |pat|..] == b;
  }

  /** A pattern starting with `c` cannot start at a position of `a` if `a` has no `c`. */
  lemma NoOccurrenceInFreePrefix(a: string, pat: string, b: string, c: char)
    requires |pat| > 0 && pat[0] == c && c !in a
    ensures forall j :: 0 <= j < |a| ==> !OccursAt(a + b, pat, j)
  {
    forall j | 0 <= j < |a|
      ensures !OccursAt(a + b, pat, j)
    {
      if j + |pat| <= |a + b| {
        assert (a + b)[j..j + |pat|][0] == a[j] != pat[0];
      }
    }
  }

  /** The first `c` in `a + [c] + ra` is the one after `a`, when `a` has none. */
  lemma FirstSeparator(a: string, ra: string, c: char)
    requires c !in a
    ensures IndexOf(a + [c] + ra, [c]) == |a|
  {
    NoOccurrenceInFreePrefix(a, [c], [c] + ra, c);
    assert a + [c] + ra == a + ([c] + ra);
    assert OccursAt(a + [c] + ra, [c], |a|);
  }

  /**
   * Splitting at the first separator character is unique: if neither `a` nor
   * `b` contains `c`, then `a + [c] + ra == b + [c] + rb` forces `a == b` and `ra == rb`.
   */
  lemma SeparatorSplitUnique(a: string, ra: string, b: string, rb: string, c: char)
    requires c !in a && c !in b
    requires a + [c] + ra == b + [c] + rb
    ensures a == b && ra == rb
  {
    var s := a + [c] + ra;
    FirstSeparator(a, ra, c);
    FirstSeparator(b, rb, c);
    assert a == s[..|a|] == b;
    assert ra == s[|a| + 1..] == rb;
  }

  predicate IsDigit(ch: char) {
    '0' <= ch <= '9'
  }

  function DigitChar(d: nat): (ch: char)
    requires d < 10
    ensures IsDigit(ch) && (ch as int) - ('0' as int) == d
  {
    ['0', '1', '2', '3', '4', '5', '6', '7', '8', '9'][d]
  }

  /** The decimal digits of `n`, without leading zeros. */
  function NatToString(n: nat): (s: string)
    ensures |s| > 0
    ensures forall i :: 0 <= i < |s| ==> IsDigit(s[i])
  {
    if n < 10 then [DigitChar(n)] else NatToString(n / 10) + [DigitChar(n % 10)]
  }

  /** `String(i)` for an integral number: a minus sign, then the digits of |i|. */
  function IntToString(i: int): (s: string)
    ensures i >= 0 ==> s == NatToString(i)
    ensures i < 0 ==> s == "-" + NatToString(-i)
  {
    if i < 0 then "-" + NatToString(-i) else NatToString(i)
  }

  /** The value of a string of decimal digits: the reference decoder for `NatToString`. */
  function DecimalValue(s: string): int
    requires forall i :: 0 <= i < |s| ==> IsDigit(s[i])
  {
    if s == [] then 0
    else DecimalValue(s[..|s| - 1]) * 10 + ((s[|s| - 1] as int) - ('0' as int))
  }

  lemma {:induction false} DecimalRoundTrip(n: nat)
    ensures DecimalValue(NatToString(n)) == n
  {
    var s := NatToString(n);
    if n >= 10 {
      DecimalRoundTrip(n / 10);
      assert s[..|s| - 1] == NatToString(n / 10);
    }
  }

  lemma NatToStringInjective(m: nat, n: nat)
    requires NatToString(m) == NatToString(n)
    ensures m == n
  {
    DecimalRoundTrip(m);
    DecimalRoundTrip(n);
  }

  /** Distinct integers render as distinct strings. */
  lemma IntToStringInjective(x: int, y: int)
    requires IntToString(x) == IntToString(y)
    ensures x == y
  {
    var s := IntToString(x);
    assert x < 0 <==> s[0] == '-' by {
      if x >= 0 { assert IsDigit(NatToString(x)[0]); }
    }
    assert y < 0 <==> s[0] == '-' by {
      if y >= 0 { assert IsDigit(NatToString(y)[0]); }
    }
    if x < 0 {
      assert NatToString(-x) == s[1..] == NatToString(-y);
      NatToStringInjective(-x, -y);
    } else {
      NatToStringInjective(x, y);
    }
  }
}
