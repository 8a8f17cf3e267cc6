/**
 * Character classes, case folding, trimming, digit strings and the
 * leftmost-match search that the regular expressions of the agents are
 * encoded with. Strings are sequences of characters.
 */
module Text {
  import opened Wrappers

  // ---------------------------------------------------------------------
  // Character classes
  // ---------------------------------------------------------------------

  /** `\d` in a JavaScript regular expression: ASCII digits only. */
  predicate IsDigit(c: char) {
    '0' <= c <= '9'
  }

  /** `[a-fA-F0-9]`. */
  predicate IsHexDigit(c: char) {
    IsDigit(c) || 'a' <= c <= 'f' || 'A' <= c <= 'F'
  }

  /** The line terminators, which `.` does not match. */
  predicate IsLineTerminator(c: char) {
    c == '\n' || c == '\r' || c == '\U{2028}' || c == '\U{2029}'
  }

  /**
   * `\s` in a JavaScript regular expression, which is also the set that
   * `String.prototype.trim` and `parseInt` skip: the white-space characters
   * and the line terminators.
   */
  predicate IsSpace(c: char) {
    || c == '\t' || c == '\U{000B}' || c == '\U{000C}' || c == ' '
    || c == '\U{00A0}' || c == '\U{FEFF}' || c == '\U{1680}'
    || ('\U{2000}' <= c <= '\U{200A}')
    || c == '\U{202F}' || c == '\U{205F}' || c == '\U{3000}'
    || IsLineTerminator(c)
  }

  // ---------------------------------------------------------------------
  // Case folding (ASCII letters)
  // ---------------------------------------------------------------------

  function LowerChar(c: char): (r: char)
    ensures 'A' <= c <= 'Z' ==> 'a' <= r <= 'z' && r as int == c as int + 32
    ensures !('A' <= c <= 'Z') ==> r == c
  {
    if 'A' <= c <= 'Z' then (c as int + 32) as char else c
  }

  function UpperChar(c: char): (r: char)
    ensures 'a' <= c <= 'z' ==> 'A' <= r <= 'Z' && r as int == c as int - 32
    ensures !('a' <= c <= 'z') ==> r == c
  {
    if 'a' <= c <= 'z' then (c as int - 32) as char else c
  }

  /** `s.toLowerCase()`, on ASCII letters. */
  function Lower(s: string): (r: string)
    ensures |r| == |s|
    ensures forall i :: 0 <= i < |s| ==> r[i] == LowerChar(s[i])
  {
    seq(|s|, i requires 0 <= i < |s| => LowerChar(s[i]))
  }

  /** Two strings that differ at most in the case of their letters. */
  predicate EqualIgnoringCase(a: string, b: string) {
    |a| == |b| && forall i :: 0 <= i < |a| ==> LowerChar(a[i]) == LowerChar(b[i])
  }

  lemma LowerEqualIffEqualIgnoringCase(a: string, b: string)
    ensures Lower(a) == Lower(b) <==> EqualIgnoringCase(a, b)
  {
    if EqualIgnoringCase(a, b) {
      assert forall i :: 0 <= i < |a| ==> Lower(a)[i] == Lower(b)[i];
    }
    if Lower(a) == Lower(b) {
      assert forall i :: 0 <= i < |a| ==> LowerChar(a[i]) == Lower(a)[i];
    }
  }

  lemma LowerIdempotent(s: string)
    ensures Lower(Lower(s)) == Lower(s)
  {
  }

  // ---------------------------------------------------------------------
  // Literal and case-insensitive matching of a word at a position
  // ---------------------------------------------------------------------

  /** The literal `w` occurs in `s` at position `i`. */
  predicate MatchesAt(s: string, i: nat, w: string) {
    i + |w| <= |s| && forall k :: 0 <= k < |w| ==> s[i + k] == w[k]
  }

  /** The literal `w` occurs in `s` at position `i`, under the `i` flag. */
  predicate MatchesAtIgnoringCase(s: string, i: nat, w: string) {
    i + |w| <= |s| && forall k :: 0 <= k < |w| ==> LowerChar(s[i + k]) == LowerChar(w[k])
  }

  /** An unanchored, case-sensitive test `/w/.test(s)`. */
  predicate Contains(s: string, w: string) {
    exists i: nat :: i <= |s| && MatchesAt(s, i, w)
  }

  /** An unanchored, case-insensitive test `/w/i.test(s)`. */
  predicate ContainsIgnoringCase(s: string, w: string) {
    exists i: nat :: i <= |s| && MatchesAtIgnoringCase(s, i, w)
  }

  /** No line terminator among `s[from..to]`, so `.*` can cover it. */
  predicate OnOneLine(s: string, from: nat, to: nat)
    requires from <= to <= |s|
  {
    forall k :: from <= k < to ==> !IsLineTerminator(s[k])
  }

  /** Only `\s` characters among `s[from..to]`. */
  predicate AllSpace(s: string, from: nat, to: nat)
    requires from <= to <= |s|
  {
    forall k :: from <= k < to ==> IsSpace(s[k])
  }

  /** Index of the first of `words` that occurs at `i` under the `i` flag. */
  function FirstWordAt(s: string, i: nat, words: seq<string>): (r: Option<nat>)
    ensures r.Some? ==> r.value < |words| && MatchesAtIgnoringCase(s, i, words[r.value])
    ensures r.Some? ==> forall j :: 0 <= j < r.value ==> !MatchesAtIgnoringCase(s, i, words[j])
    ensures r.None? ==> forall j :: 0 <= j < |words| ==> !MatchesAtIgnoringCase(s, i, words[j])
  {
    if |words| == 0 then None
    else if MatchesAtIgnoringCase(s, i, words[0]) then Some(0)
    else match FirstWordAt(s, i, words[1..])
      case None => None
      case Some(j) => Some(j + 1)
  }

  // ---------------------------------------------------------------------
  // Runs of characters
  // ---------------------------------------------------------------------

  /** End of the maximal run of digits starting at `i` (greedy `\d*`). */
  function DigitRunEnd(s: string, i: nat): (e: nat)
    requires i <= |s|
    ensures i <= e <= |s|
    ensures forall k :: i <= k < e ==> IsDigit(s[k])
    ensures e == |s| || !IsDigit(s[e])
    decreases |s| - i
  {
    if i < |s| && IsDigit(s[i]) then DigitRunEnd(s, i + 1) else i
  }

  /** The digit run from `p` ends at `e` when digits fill `[p, e)` and a non-digit or the end follows. */
  lemma {:induction false} DigitRunEndIs(s: string, p: nat, e: nat)
    requires p <= e <= |s|
    requires forall k :: p <= k < e ==> IsDigit(s[k])
    requires e == |s| || !IsDigit(s[e])
    ensures DigitRunEnd(s, p) == e
    decreases e - p
  {
    if p < e {
      DigitRunEndIs(s, p + 1, e);
    }
  }

  /** End of the maximal run of `\s` starting at `i` (greedy `\s*`). */
  function SpaceRunEnd(s: string, i: nat): (e: nat)
    requires i <= |s|
    ensures i <= e <= |s|
    ensures AllSpace(s, i, e)
    ensures e == |s| || !IsSpace(s[e])
    decreases |s| - i
  {
    if i < |s| && IsSpace(s[i]) then SpaceRunEnd(s, i + 1) else i
  }

  // ---------------------------------------------------------------------
  // Trimming
  // ---------------------------------------------------------------------

  /** Drops the leading `\s` characters. */
  function TrimStart(s: string): (r: string)
    ensures |r| <= |s| && r == s[|s| - |r|..]
    ensures r == [] || !IsSpace(r[0])
    ensures forall k :: 0 <= k < |s| - |r| ==> IsSpace(s[k])
  {
    if |s| > 0 && IsSpace(s[0]) then TrimStart(s[1..]) else s
  }

  /** Drops the trailing `\s` characters. */
  function TrimEnd(s: string): (r: string)
    ensures |r| <= |s| && r == s[..|r|]
    ensures r == [] || !IsSpace(r[|r| - 1])
    ensures forall k :: |r| <= k < |s| ==> IsSpace(s[k])
  {
    if |s| > 0 && IsSpace(s[|s| - 1]) then TrimEnd(s[..|s| - 1]) else s
  }

  /** `r` is `s` with `a` characters of `\s` cut from its front and only `\s` cut from its back. */
  predicate TrimmedAt(s: string, r: string, a: nat) {
    a + |r| <= |s| && r == s[a..a + |r|] && AllSpace(s, 0, a) && AllSpace(s, a + |r|, |s|)
  }

  /** `s.trim()`: `s` less its leading and trailing `\s`, which it then neither starts nor ends with. */
  function Trim(s: string): (r: string)
    ensures exists a: nat :: TrimmedAt(s, r, a)
    ensures r == [] || (!IsSpace(r[0]) && !IsSpace(r[|r| - 1]))
  {
    var t := TrimStart(s);
    assert |t| <= |s| && t == s[|s| - |t|..] && AllSpace(s, 0, |s| - |t|) && (t == [] || !IsSpace(t[0]));
    var r := TrimEnd(t);
    assert |r| <= |t| && r == t[..|r|] && AllSpace(t, |r|, |t|) && (r == [] || !IsSpace(r[|r| - 1]));
    TrimmedAtBothEnds(s, t, r);
    r
  }

  lemma TrimmedAtBothEnds(s: string, t: string, r: string)
    requires |t| <= |s| && t == s[|s| - |t|..] && AllSpace(s, 0, |s| - |t|)
    requires |r| <= |t| && r == t[..|r|] && AllSpace(t, |r|, |t|)
    requires t == [] || !IsSpace(t[0])
    requires r == [] || !IsSpace(r[|r| - 1])
    ensures TrimmedAt(s, r, |s| - |t|)
    ensures r == [] || (!IsSpace(r[0]) && !IsSpace(r[|r| - 1]))
  {
    assert r == [] || r[0] == t[0];
    var a := |s| - |t|;
    assert r == s[a..a + |r|];
    forall k | a + |r| <= k < |s|
      ensures IsSpace(s[k])
    {
      assert s[k] == t[k - a];
    }
  }

  /** Text that neither starts nor ends with `\s` trims to itself. */
  lemma TrimUnpadded(s: string)
    requires s == [] || (!IsSpace(s[0]) && !IsSpace(s[|s| - 1]))
    ensures Trim(s) == s
  {
    var r := Trim(s);
    var a: nat :| TrimmedAt(s, r, a);
    if s != [] {
      var first, last := s[0], s[|s| - 1];
      assert 0 < a ==> IsSpace(first);
      assert a + |r| < |s| ==> IsSpace(last);
    }
  }

  // ---------------------------------------------------------------------
  // Digit strings and their values
  // ---------------------------------------------------------------------

  predicate AllDigits(d: string) {
    forall k :: 0 <= k < |d| ==> IsDigit(d[k])
  }

  function DigitValue(c: char): (v: nat)
    requires IsDigit(c)
    ensures v < 10
  {
    c as int - '0' as int
  }

  function DigitChar(v: nat): (c: char)
    requires v < 10
    ensures IsDigit(c) && DigitValue(c) == v
  {
    ('0' as int + v) as char
  }

  /** The number a string of decimal digits denotes (the empty string denotes 0). */
  function DigitsValue(d: string): nat
    requires AllDigits(d)
  {
    if d == [] then 0 else 10 * DigitsValue(d[..|d| - 1]) + DigitValue(d[|d| - 1])
  }

  function Pow10(n: nat): (p: nat)
    ensures p >= 1
  {
    if n == 0 then 1 else 10 * Pow10(n - 1)
  }

  /** Decimal rendering of a natural number, without leading zeros. */
  function NatToString(n: nat): (s: string)
    ensures |s| >= 1 && AllDigits(s)
    decreases n
  {
    if n < 10 then [DigitChar(n)] else NatToString(n / 10) + [DigitChar(n % 10)]
  }

  /** Decimal rendering of an integer, as template literals render one. */
  function IntToString(n: int): (s: string)
    ensures |s| >= 1
    ensures s[0] == '-' <==> n < 0
  {
    if n < 0 then "-" + NatToString(-n) else NatToString(n)
  }

  /** Reading back what `NatToString` wrote gives the number again. */
  lemma {:induction false} NatToStringRoundTrip(n: nat)
    ensures DigitsValue(NatToString(n)) == n
    decreases n
  {
    var s := NatToString(n);
    if n >= 10 {
      NatToStringRoundTrip(n / 10);
      assert s[..|s| - 1] == NatToString(n / 10);
    }
  }

  lemma NatToStringInjective(m: nat, n: nat)
    ensures NatToString(m) == NatToString(n) ==> m == n
  {
    NatToStringRoundTrip(m);
    NatToStringRoundTrip(n);
  }

  lemma IntToStringInjective(m: int, n: int)
    ensures IntToString(m) == IntToString(n) ==> m == n
  {
    assert m < 0 <==> IntToString(m)[0] == '-';
    assert n < 0 <==> IntToString(n)[0] == '-';
    if m < 0 && n < 0 {
      assert NatToString(-m) == IntToString(m)[1..];
      assert NatToString(-n) == IntToString(n)[1..];
      NatToStringInjective(-m, -n);
    } else if 0 <= m && 0 <= n {
      NatToStringInjective(m, n);
    }
  }

  // ---------------------------------------------------------------------
  // Leftmost match
  // ---------------------------------------------------------------------

  /**
   * The first position `p` in `[from, n)` at which `matchAt` succeeds,
   * with what it captured there: how `String.prototype.match` without the
   * `g` flag picks among the places a pattern could match.
   */
  function Leftmost<T>(n: nat, from: nat, matchAt: nat -> Option<T>): (r: Option<(nat, T)>)
    ensures r.Some? ==> from <= r.value.0 < n && matchAt(r.value.0) == Some(r.value.1)
    ensures r.Some? ==> forall q :: from <= q < r.value.0 ==> matchAt(q).None?
    ensures r.None? ==> forall q :: from <= q < n ==> matchAt(q).None?
    decreases n - from
  {
    if from >= n then None
    else match matchAt(from)
      case Some(v) => Some((from, v))
      case None => Leftmost(n, from + 1, matchAt)
  }
}
