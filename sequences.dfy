/** Windows onto the end of a sequence, as `array.slice(-n)` takes them. */
module Sequences {

  /** `s.slice(-n)` for a positive `n`: the last `n` elements, or all of them. */
  function Last<T>(s: seq<T>, n: nat): (r: seq<T>)
    requires n > 0
    ensures |r| == if |s| <= n then |s| else n
    ensures forall i :: 0 <= i < |r| ==> r[i] == s[|s| - |r| + i]
  {
    if |s| <= n then s else s[|s| - n..]
  }

  /**
   * Keeping a window of the last `n` after each append keeps exactly the
   * last `n` of everything appended.
   */
  lemma LastAfterAppend<T>(s: seq<T>, x: T, n: nat)
    requires n > 0
    ensures Last(Last(s, n) + [x], n) == Last(s + [x], n)
  {
    if |s| >= n {
      var w := s[|s| - n..] + [x];
      assert Last(w, n) == w[1..];
      assert w[1..] == s[|s| - n + 1..] + [x];
      assert (s + [x])[|s| + 1 - n..] == s[|s| + 1 - n..] + [x];
    }
  }

  /** A shorter window of a window is the shorter window of the whole. */
  lemma LastOfLast<T>(s: seq<T>, m: nat, n: nat)
    requires 0 < m <= n
    ensures Last(Last(s, n), m) == Last(s, m)
  {
    var r := Last(Last(s, n), m);
    assert |r| == |Last(s, m)|;
    forall i | 0 <= i < |r| ensures r[i] == Last(s, m)[i] {
    }
  }
}
