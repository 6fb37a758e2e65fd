/**
 * `shuffleArray`: the in-place Fisher–Yates shuffle applied to the roster
 * when a game starts. The random indices are supplied by the caller:
 * `draws[i]` is the index `j` chosen when the loop stands at position `i`.
 */
module Shuffle {
  import opened Roster

  /**
   * The swap partner for position `i`. `Math.floor(Math.random() * (i + 1))`
   * always lies in [0, i]; a missing or larger draw, which the random source
   * cannot produce, is read as `j = i`, a swap that moves nothing.
   */
  function Pick(draws: seq<nat>, i: nat): (j: nat)
    ensures j <= i
    ensures i < |draws| && draws[i] <= i ==> j == draws[i]
  {
    if i < |draws| && draws[i] <= i then draws[i] else i
  }

  /** The destructuring swap `[s[i], s[j]] = [s[j], s[i]]`. */
  function Swap(s: seq<UserId>, i: nat, j: nat): (r: seq<UserId>)
    requires i < |s| && j < |s|
    ensures |r| == |s|
  {
    s[i := s[j]][j := s[i]]
  }

  /** A swap moves entries around without creating a duplicate. */
  lemma SwapPermutes(s: seq<UserId>, i: nat, j: nat)
    requires i < |s| && j < |s|
    ensures multiset(Swap(s, i, j)) == multiset(s)
    ensures NoDup(s) ==> NoDup(Swap(s, i, j))
  {
    var r := Swap(s, i, j);
    assert forall k :: 0 <= k < |s| ==> r[k] == s[if k == i then j else if k == j then i else k];
  }

  /** Loop iterations for positions `i`, `i - 1`, ..., 1. */
  function ShuffleDown(s: seq<UserId>, i: nat, draws: seq<nat>): (r: seq<UserId>)
    requires i < |s|
    ensures |r| == |s|
    decreases i
  {
    if i == 0 then s else ShuffleDown(Swap(s, i, Pick(draws, i)), i - 1, draws)
  }

  /** The whole shuffle, run from the last position down. */
  function FisherYates(s: seq<UserId>, draws: seq<nat>): seq<UserId>
  {
    if |s| == 0 then s else ShuffleDown(s, |s| - 1, draws)
  }

  /** Each swap is a permutation without new duplicates, so a run of the loop is one too. */
  lemma {:induction false} ShuffleDownPermutes(s: seq<UserId>, i: nat, draws: seq<nat>)
    requires i < |s|
    ensures multiset(ShuffleDown(s, i, draws)) == multiset(s)
    ensures NoDup(s) ==> NoDup(ShuffleDown(s, i, draws))
    decreases i
  {
    if i > 0 {
      SwapPermutes(s, i, Pick(draws, i));
      ShuffleDownPermutes(Swap(s, i, Pick(draws, i)), i - 1, draws);
    }
  }

  /** The shuffle is a permutation of the roster, and duplicate-free when the roster was. */
  lemma ShufflePermutes(s: seq<UserId>, draws: seq<nat>)
    ensures |FisherYates(s, draws)| == |s|
    ensures multiset(FisherYates(s, draws)) == multiset(s)
    ensures NoDup(s) ==> NoDup(FisherYates(s, draws))
  {
    if |s| > 0 {
      ShuffleDownPermutes(s, |s| - 1, draws);
    }
  }

  /** `shuffleArray` as the source writes it: a loop running `i` down from the last position to 1. */
  method ShuffleArray(a: seq<UserId>, draws: seq<nat>) returns (r: seq<UserId>)
    ensures r == FisherYates(a, draws)
  {
    r := a;
    var i := |a| - 1;
    while i > 0
      invariant -1 <= i < |a|
      invariant |r| == |a|
      invariant 0 <= i ==> ShuffleDown(r, i, draws) == FisherYates(a, draws)
      invariant i == -1 ==> a == [] && r == a
    {
      r := Swap(r, i, Pick(draws, i));
      i := i - 1;
    }
  }

  /** Draws that pick `j = i` at every step leave the loop's prefix in its original order. */
  lemma {:induction false} ShuffleDownFixed(s: seq<UserId>, i: nat, draws: seq<nat>)
    requires i < |s|
    requires forall k :: 0 < k <= i ==> Pick(draws, k) == k
    ensures ShuffleDown(s, i, draws) == s
    decreases i
  {
    if i > 0 {
      assert Swap(s, i, i) == s;
      ShuffleDownFixed(s, i - 1, draws);
    }
  }

  /** With the identity draws (`draws[i] == i`) the shuffle keeps the join order. */
  lemma IdentityDrawsKeepOrder(s: seq<UserId>, draws: seq<nat>)
    requires |s| <= |draws|
    requires forall k :: 0 <= k < |s| ==> draws[k] == k
    ensures FisherYates(s, draws) == s
  {
    if |s| > 0 {
      ShuffleDownFixed(s, |s| - 1, draws);
    }
  }
}
