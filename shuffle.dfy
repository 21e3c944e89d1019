/** `shuffleArray`: a Fisher–Yates shuffle of a copy of the gallery's image
    list. The values `Math.random()` returns are given in `draws`, in the
    order the loop uses them. */
module Shuffle {
  import opened Numbers

  /** `Math.floor(Math.random() * (i + 1))` for a draw `r` in `[0, 1)`:
      an index in `[0, i]`. */
  function Pick(r: real, i: nat): (j: int)
    requires 0.0 <= r < 1.0
    ensures 0 <= j <= i
  {
    var m := (i + 1) as real;
    ScaleBelow(r, m);
    (r * m).Floor
  }

  /** The loop over a list of length `n` runs for `i = n - 1` down to `1`;
      round `t` handles position `n - 1 - t` and its index lies in
      `[0, n - 1 - t]`, as `Pick` guarantees. */
  predicate ValidPicks(picks: seq<int>, n: nat)
  {
    n <= |picks| + 1 && forall t :: 0 <= t < n - 1 ==> 0 <= picks[t] <= n - 1 - t
  }

  /** Unit draws, as `Math.random()` returns them. */
  predicate UnitDraws(draws: seq<real>)
  {
    forall k :: 0 <= k < |draws| ==> 0.0 <= draws[k] < 1.0
  }

  /** The indices the loop over a list of length `n` computes from its
      draws: round `t` turns draw `t` into an index for position
      `n - 1 - t`. */
  function PicksOf(draws: seq<real>, n: nat): (picks: seq<int>)
    requires n <= |draws| + 1 && UnitDraws(draws)
    ensures ValidPicks(picks, n)
  {
    var rounds := if n == 0 then 0 else n - 1;
    seq(rounds, t requires 0 <= t < rounds => Pick(draws[t], n - 1 - t))
  }

  /** `[a[i], a[j]] = [a[j], a[i]]` on the value of the list. */
  function Swap<T>(s: seq<T>, i: nat, j: nat): (t: seq<T>)
    requires i < |s| && j < |s|
    ensures |t| == |s|
  {
    s[i := s[j]][j := s[i]]
  }

  /** A swap keeps the same elements with the same multiplicities. */
  lemma SwapPermutes<T>(s: seq<T>, i: nat, j: nat)
    requires i < |s| && j < |s|
    ensures multiset(Swap(s, i, j)) == multiset(s)
  {
    var t := Swap(s, i, j);
    var u := s[i := s[j]];
    assert multiset(u) == multiset(s) - multiset{s[i]} + multiset{s[j]};
    assert multiset(t) == multiset(u) - multiset{u[j]} + multiset{s[i]};
  }

  /** The swaps the loop still performs when its counter is `i`: one for
      each position `i, i - 1, ..., 1`, the swap at position `i` using pick
      number `|s| - 1 - i`. */
  function Swaps<T>(s: seq<T>, picks: seq<int>, i: int): (t: seq<T>)
    requires i < |s| && ValidPicks(picks, |s|)
    ensures |t| == |s|
    ensures 0 <= i ==> t[i + 1..] == s[i + 1..]
    decreases i
  {
    if i <= 0 then s
    else Swaps(Swap(s, i, picks[|s| - 1 - i]), picks, i - 1)
  }

  /** Whatever the picks, the shuffle is a permutation of its input. */
  lemma {:induction false} SwapsPermutes<T>(s: seq<T>, picks: seq<int>, i: int)
    requires i < |s| && ValidPicks(picks, |s|)
    ensures multiset(Swaps(s, picks, i)) == multiset(s)
    decreases i
  {
    if i > 0 {
      var next := Swap(s, i, picks[|s| - 1 - i]);
      SwapPermutes(s, i, picks[|s| - 1 - i]);
      SwapsPermutes(next, picks, i - 1);
    }
  }

  /** `shuffleArray(arr)`: shuffles a fresh copy (`arr.slice()`), leaving
      `arr` as it was, and returns a permutation of it. */
  method ShuffleArray<T>(arr: array<T>, draws: seq<real>) returns (a: array<T>)
    requires arr.Length <= |draws| + 1 && UnitDraws(draws)
    ensures fresh(a)
    ensures arr[..] == old(arr[..])
    ensures a[..] == Swaps(arr[..], PicksOf(draws, arr.Length), arr.Length - 1)
    ensures multiset(a[..]) == multiset(arr[..])
  {
    a := new T[arr.Length](k reads arr requires 0 <= k < arr.Length => arr[k]);
    ghost var s0 := arr[..];
    ghost var picks := PicksOf(draws, arr.Length);
    assert a[..] == s0;
    var i := a.Length - 1;
    while i > 0
      invariant -1 <= i < a.Length == |s0|
      invariant Swaps(a[..], picks, i) == Swaps(s0, picks, |s0| - 1)
    {
      var j := Pick(draws[a.Length - 1 - i], i);
      assert j == picks[a.Length - 1 - i];
      ghost var next := Swap(a[..], i, j);
      assert Swaps(a[..], picks, i) == Swaps(next, picks, i - 1);
      a[i], a[j] := a[j], a[i];
      assert a[..] == next;
      i := i - 1;
    }
    SwapsPermutes(s0, picks, |s0| - 1);
  }
}
