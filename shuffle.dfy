/**
 * The in-place Fisher-Yates shuffle (shuffle). The random index drawn at
 * loop index i is supplied by the caller as picks[i], any value in [0, i].
 */
module Shuffling {

  /** `picks` supplies one draw per index of an n-element array, each draw in [0, i]; picks[0] is never drawn. */
  predicate ValidPicks(picks: seq<nat>, n: nat) {
    |picks| == n && forall i :: 0 < i < n ==> picks[i] <= i
  }

  /** `s` with the elements at i and j exchanged (the destructuring swap). */
  function Swap<T>(s: seq<T>, i: nat, j: nat): (r: seq<T>)
    requires i < |s| && j < |s|
    ensures |r| == |s| && r[i] == s[j] && r[j] == s[i]
    ensures forall k :: 0 <= k < |s| && k != i && k != j ==> r[k] == s[k]
  {
    s[i := s[j]][j := s[i]]
  }

  /** What the loop still does to `s` when its index is i: swap at i, i - 1, ..., 1. */
  function Steps<T>(s: seq<T>, picks: seq<nat>, i: nat): seq<T>
    requires i < |s| && ValidPicks(picks, |s|)
    decreases i
  {
    if i == 0 then s else Steps(Swap(s, i, picks[i]), picks, i - 1)
  }

  /** The whole shuffle of `s` under the draws `picks`. */
  function Shuffled<T>(s: seq<T>, picks: seq<nat>): seq<T>
    requires ValidPicks(picks, |s|)
  {
    if |s| == 0 then s else Steps(s, picks, |s| - 1)
  }

  lemma SwapPermutes<T>(s: seq<T>, i: nat, j: nat)
    requires i < |s| && j < |s|
    ensures multiset(Swap(s, i, j)) == multiset(s)
  {
    var t := s[i := s[j]];
    assert multiset(t) == multiset(s) - multiset{s[i]} + multiset{s[j]};
  }

  lemma {:induction false} StepsPermutes<T>(s: seq<T>, picks: seq<nat>, i: nat)
    requires i < |s| && ValidPicks(picks, |s|)
    ensures |Steps(s, picks, i)| == |s|
    ensures multiset(Steps(s, picks, i)) == multiset(s)
    decreases i
  {
    if i > 0 {
      SwapPermutes(s, i, picks[i]);
      StepsPermutes(Swap(s, i, picks[i]), picks, i - 1);
    }
  }

  /** For every choice of draws, the shuffle is a permutation of its input. */
  lemma ShuffledIsPermutation<T>(s: seq<T>, picks: seq<nat>)
    requires ValidPicks(picks, |s|)
    ensures |Shuffled(s, picks)| == |s|
    ensures multiset(Shuffled(s, picks)) == multiset(s)
  {
    if |s| > 0 {
      StepsPermutes(s, picks, |s| - 1);
    }
  }

  /**
   * Fisher-Yates in place: for i from the last index down to 1, swap a[i]
   * with a[picks[i]].
   */
  method Shuffle<T>(a: array<T>, picks: seq<nat>)
    requires ValidPicks(picks, a.Length)
    modifies a
    ensures a[..] == Shuffled(old(a[..]), picks)
    ensures multiset(a[..]) == multiset(old(a[..]))
  {
    var i := a.Length - 1;
    while i > 0
      invariant -1 <= i < a.Length
      invariant a.Length > 0 ==> 0 <= i && Steps(a[..], picks, i) == Shuffled(old(a[..]), picks)
      decreases i
    {
      ghost var before := a[..];
      var j := picks[i];
      var t := a[i];
      a[i] := a[j];
      a[j] := t;
      assert a[..] == Swap(before, i, j);
      i := i - 1;
    }
    ShuffledIsPermutation(old(a[..]), picks);
  }
}
