/** The in-place Fisher–Yates shuffle that both services run on a copy of
    their candidate list (proxies or mirror hosts). `Math.random` is replaced
    by the swap indices it would have produced. */
module Shuffle {

  /** The random source: `rng(c, i)` is the index drawn at step `i` of the
      `c`-th shuffle, i.e. `Math.floor(Math.random() * (i + 1))`. */
  type Rng = (nat, nat) -> nat

  /** Every drawn index `j` at step `i` satisfies `0 <= j <= i`. */
  predicate ValidPicks(picks: seq<nat>) {
    forall i :: 0 <= i < |picks| ==> picks[i] <= i
  }

  ghost predicate ValidRng(rng: Rng) {
    forall c: nat, i: nat :: rng(c, i) <= i
  }

  /** The indices drawn by the `c`-th shuffle of a list of length `n`. */
  function Picks(rng: Rng, c: nat, n: nat): (p: seq<nat>)
    requires ValidRng(rng)
    ensures |p| == n && ValidPicks(p)
  {
    seq(n, i requires 0 <= i < n => rng(c, i))
  }

  function Swap<T>(s: seq<T>, i: nat, j: nat): (r: seq<T>)
    requires i < |s| && j < |s|
    ensures |r| == |s|
  {
    s[i := s[j]][j := s[i]]
  }

  lemma SwapPermutes<T>(s: seq<T>, i: nat, j: nat)
    requires i < |s| && j < |s|
    ensures multiset(Swap(s, i, j)) == multiset(s)
  {
  }

  /** The swaps still to be done when the countdown stands at `i`: positions
      `i, i - 1, ..., 1`, each with its drawn partner. */
  function ShuffleFrom<T>(s: seq<T>, picks: seq<nat>, i: nat): seq<T>
    requires |picks| == |s| && ValidPicks(picks)
    requires i == 0 || i < |s|
    decreases i
  {
    if i == 0 then s else ShuffleFrom(Swap(s, i, picks[i]), picks, i - 1)
  }

  /** The order `shuffleArray` leaves its argument in. */
  function Shuffled<T>(s: seq<T>, picks: seq<nat>): seq<T>
    requires |picks| == |s| && ValidPicks(picks)
  {
    if |s| == 0 then s else ShuffleFrom(s, picks, |s| - 1)
  }

  lemma {:induction false} ShuffleFromPermutes<T>(s: seq<T>, picks: seq<nat>, i: nat)
    requires |picks| == |s| && ValidPicks(picks)
    requires i == 0 || i < |s|
    ensures |ShuffleFrom(s, picks, i)| == |s|
    ensures multiset(ShuffleFrom(s, picks, i)) == multiset(s)
    decreases i
  {
    if i > 0 {
      SwapPermutes(s, i, picks[i]);
      ShuffleFromPermutes(Swap(s, i, picks[i]), picks, i - 1);
    }
  }

  /** The shuffle returns a permutation of its input: same length, same
      multiset of elements. */
  lemma ShuffledIsPermutation<T>(s: seq<T>, picks: seq<nat>)
    requires |picks| == |s| && ValidPicks(picks)
    ensures |Shuffled(s, picks)| == |s|
    ensures multiset(Shuffled(s, picks)) == multiset(s)
  {
    if |s| > 0 {
      ShuffleFromPermutes(s, picks, |s| - 1);
    }
  }

  lemma ShuffledLength<T>(s: seq<T>, picks: seq<nat>)
    requires |picks| == |s| && ValidPicks(picks)
    ensures |Shuffled(s, picks)| == |s|
  {
    ShuffledIsPermutation(s, picks);
  }

  /** Every element of the input is still present after the shuffle, and
      nothing else is. */
  lemma ShuffledSameElements<T>(s: seq<T>, picks: seq<nat>, x: T)
    requires |picks| == |s| && ValidPicks(picks)
    ensures x in Shuffled(s, picks) <==> x in s
  {
    ShuffledIsPermutation(s, picks);
    assert x in multiset(Shuffled(s, picks)) <==> x in multiset(s);
  }

  /** `shuffleArray`: the countdown loop of swaps, in place. */
  method ShuffleInPlace<T>(a: array<T>, picks: seq<nat>)
    requires |picks| == a.Length && ValidPicks(picks)
    modifies a
    ensures a[..] == Shuffled(old(a[..]), picks)
  {
    ghost var goal := Shuffled(a[..], picks);
    var i := a.Length - 1;
    while i > 0
      invariant if a.Length == 0 then i == -1 else 0 <= i < a.Length
      invariant a.Length == 0 ==> a[..] == goal
      invariant i >= 0 ==> ShuffleFrom(a[..], picks, i) == goal
      decreases i
    {
      var j := picks[i];
      ghost var before := a[..];
      assert ShuffleFrom(before, picks, i) == ShuffleFrom(Swap(before, i, j), picks, i - 1);
      var t := a[i];
      a[i] := a[j];
      a[j] := t;
      assert a[..] == Swap(before, i, j);
      i := i - 1;
    }
  }

  /** `shuffleArray([...list])`: the caller shuffles a fresh copy, so the
      configured list is left as it was (it is a value here). */
  method ShuffledCopy<T>(list: seq<T>, picks: seq<nat>) returns (r: seq<T>)
    requires |picks| == |list| && ValidPicks(picks)
    ensures r == Shuffled(list, picks)
  {
    var a := new T[|list|](i requires 0 <= i < |list| => list[i]);
    assert a[..] == list;
    ShuffleInPlace(a, picks);
    r := a[..];
  }
}
