/** The Fisher–Yates shuffle the grid effects run in place:
    `for (i = n - 1; i > 0; i--) { j = floor(random() * (i + 1)); swap(i, j) }`.
    `Math.random` is not modelled; the index `j` drawn at step `i` is supplied
    as `js[i]`, and every draw lies in `[0, i]`. */
module Shuffle {

  function Swap<T>(s: seq<T>, i: nat, j: nat): (r: seq<T>)
    requires i < |s| && j < |s|
    ensures |r| == |s| && r[i] == s[j] && r[j] == s[i]
    ensures forall k :: 0 <= k < |s| && k != i && k != j ==> r[k] == s[k]
  {
    s[i := s[j]][j := s[i]]
  }

  lemma SwapPermutes<T>(s: seq<T>, i: nat, j: nat)
    requires i < |s| && j < |s|
    ensures multiset(Swap(s, i, j)) == multiset(s)
  {
  }

  /** Draws `Math.floor(Math.random() * (i + 1))` can produce: one per step,
      the draw of step `i` lying in `[0, i]` (entry 0 is unused). */
  predicate ValidDraws(js: seq<nat>, n: nat)
  {
    |js| == n && forall i :: 0 < i < n ==> js[i] <= i
  }

  /** The steps `i, i - 1, ..., 1` of the shuffle applied to `s`. */
  function ShuffleDown<T>(s: seq<T>, js: seq<nat>, i: nat): seq<T>
    requires i < |s| && ValidDraws(js, |s|)
    decreases i
  {
    if i == 0 then s else ShuffleDown(Swap(s, i, js[i]), js, i - 1)
  }

  /** The whole shuffle of `s` with draws `js`. */
  function FisherYates<T>(s: seq<T>, js: seq<nat>): seq<T>
    requires ValidDraws(js, |s|)
  {
    if |s| == 0 then s else ShuffleDown(s, js, |s| - 1)
  }

  lemma {:induction false} ShuffleDownPermutes<T>(s: seq<T>, js: seq<nat>, i: nat)
    requires i < |s| && ValidDraws(js, |s|)
    ensures |ShuffleDown(s, js, i)| == |s|
    ensures multiset(ShuffleDown(s, js, i)) == multiset(s)
    decreases i
  {
    if i > 0 {
      var t := Swap(s, i, js[i]);
      SwapPermutes(s, i, js[i]);
      ShuffleDownPermutes(t, js, i - 1);
      assert ShuffleDown(s, js, i) == ShuffleDown(t, js, i - 1);
    }
  }

  /** Whatever the draws, the shuffle returns a permutation of its input. */
  lemma FisherYatesPermutes<T>(s: seq<T>, js: seq<nat>)
    requires ValidDraws(js, |s|)
    ensures |FisherYates(s, js)| == |s|
    ensures multiset(FisherYates(s, js)) == multiset(s)
  {
    if |s| > 0 {
      ShuffleDownPermutes(s, js, |s| - 1);
    }
  }

  /** Positions above `i` are final once step `i + 1` is done: step `i` only
      touches positions `0..i`. */
  lemma {:induction false} ShuffleDownKeepsTail<T>(s: seq<T>, js: seq<nat>, i: nat, k: nat)
    requires i < k < |s| && ValidDraws(js, |s|)
    ensures |ShuffleDown(s, js, i)| == |s| && ShuffleDown(s, js, i)[k] == s[k]
    decreases i
  {
    ShuffleDownPermutes(s, js, i);
    if i > 0 {
      ShuffleDownKeepsTail(Swap(s, i, js[i]), js, i - 1, k);
    }
  }

  /** Drawing `j == i` at every step leaves the order unchanged. */
  lemma {:induction false} IdentityDraws<T>(s: seq<T>, js: seq<nat>, i: nat)
    requires i < |s| && ValidDraws(js, |s|)
    requires forall k :: 0 < k < |s| ==> js[k] == k
    ensures ShuffleDown(s, js, i) == s
    decreases i
  {
    if i > 0 {
      assert Swap(s, i, js[i]) == s;
      IdentityDraws(s, js, i - 1);
    }
  }

  /** The in-place loop over an array, proved to compute `FisherYates`. */
  method ShuffleInPlace<T>(a: array<T>, js: seq<nat>)
    requires ValidDraws(js, a.Length)
    modifies a
    ensures a[..] == FisherYates(old(a[..]), js)
    ensures multiset(a[..]) == multiset(old(a[..]))
  {
    FisherYatesPermutes(a[..], js);
    if a.Length == 0 {
      return;
    }
    ghost var goal := FisherYates(a[..], js);
    var i := a.Length - 1;
    while i > 0
      invariant 0 <= i < a.Length
      invariant ShuffleDown(a[..], js, i) == goal
    {
      var j := js[i];
      ghost var before := a[..];
      var tmp := a[i];
      a[i] := a[j];
      assert a[..] == before[i := before[j]];
      a[j] := tmp;
      assert a[..] == before[i := before[j]][j := before[i]];
      assert ShuffleDown(before, js, i) == ShuffleDown(a[..], js, i - 1);
      i := i - 1;
    }
  }
}
