/**
 * The shuffle of script.js (`shuffleArray`, lines 35-41): Durstenfeld's in-place variant of the
 * Fisher-Yates shuffle. The loop walks `i` from the last index down to 1 and swaps `array[i]` with
 * `array[j]` for a random `j` in [0, i]. Math.random is an arbitrary choice of `j` in that range;
 * the choices made are the "draws", and the result is the function `Shuffled` of the input and the
 * draws.
 */
module Shuffle {

  /** `s` with the elements at `i` and `j` exchanged, as the destructuring assignment at line 38. */
  function Swap<T>(s: seq<T>, i: nat, j: nat): (r: seq<T>)
    requires i < |s| && j < |s|
    ensures |r| == |s| && r[i] == s[j] && r[j] == s[i]
    ensures forall k :: 0 <= k < |s| && k != i && k != j ==> r[k] == s[k]
  {
    s[i := s[j]][j := s[i]]
  }

  /**
   * `draws[k]` is the index picked in the k-th iteration of the loop over an array of length `n`,
   * when the loop variable is `n - 1 - k`; so it lies in [0, n - 1 - k].
   */
  predicate DrawsFit(n: nat, draws: seq<nat>)
  {
    |draws| <= n && forall k :: 0 <= k < |draws| ==> draws[k] < n - k
  }

  /** The draws of one complete run of the loop: one per `i` in n-1, ..., 1. */
  predicate CompleteDraws(n: nat, draws: seq<nat>)
  {
    DrawsFit(n, draws) && |draws| == (if n == 0 then 0 else n - 1)
  }

  /** The contents of the array after the loop has made the swaps chosen by `draws`, in order. */
  function Shuffled<T>(s: seq<T>, draws: seq<nat>): (r: seq<T>)
    requires DrawsFit(|s|, draws)
    ensures |r| == |s|
    decreases |draws|
  {
    if draws == [] then s
    else
      var k := |draws| - 1;
      Swap(Shuffled(s, draws[..k]), |s| - 1 - k, draws[k])
  }

  /** Exchanging two elements keeps the multiset of elements. */
  lemma SwapIsPermutation<T>(s: seq<T>, i: nat, j: nat)
    requires i < |s| && j < |s|
    ensures multiset(Swap(s, i, j)) == multiset(s)
  {
  }

  /** Whatever the draws, the shuffle returns a permutation of its input. */
  lemma {:induction false} ShuffledIsPermutation<T>(s: seq<T>, draws: seq<nat>)
    requires DrawsFit(|s|, draws)
    ensures multiset(Shuffled(s, draws)) == multiset(s)
    decreases |draws|
  {
    if draws != [] {
      var k := |draws| - 1;
      ShuffledIsPermutation(s, draws[..k]);
      SwapIsPermutation(Shuffled(s, draws[..k]), |s| - 1 - k, draws[k]);
    }
  }

  /**
   * Once the loop has passed position `|s| - 1 - k`, that position is final: later swaps only
   * touch indices below the loop variable.
   */
  lemma {:induction false} ShuffledSettles<T>(s: seq<T>, draws: seq<nat>, k: nat)
    requires DrawsFit(|s|, draws) && k < |draws|
    ensures DrawsFit(|s|, draws[..k + 1])
    ensures Shuffled(s, draws)[|s| - 1 - k] == Shuffled(s, draws[..k + 1])[|s| - 1 - k]
    decreases |draws|
  {
    if k + 1 < |draws| {
      var m := |draws| - 1;
      assert draws[..m][..k + 1] == draws[..k + 1];
      ShuffledSettles(s, draws[..m], k);
    } else {
      assert draws[..k + 1] == draws;
    }
  }

  /** The element that ends in the last slot is the one the first draw picked. */
  lemma ShuffledLast<T>(s: seq<T>, draws: seq<nat>)
    requires DrawsFit(|s|, draws) && |draws| > 0
    ensures Shuffled(s, draws)[|s| - 1] == s[draws[0]]
  {
    ShuffledSettles(s, draws, 0);
    assert draws[..1][..0] == [];
  }

  /** `shuffleArray` (lines 35-41): shuffles `a` in place; `draws` are the indices Math.random gave. */
  method ShuffleArray<T>(a: array<T>) returns (ghost draws: seq<nat>)
    modifies a
    ensures CompleteDraws(a.Length, draws)
    ensures a[..] == Shuffled(old(a[..]), draws)
    ensures multiset(a[..]) == multiset(old(a[..]))
  {
    draws := [];
    var i: int := a.Length - 1;
    while i > 0
      invariant -1 <= i < a.Length
      invariant a.Length > 0 ==> 0 <= i
      invariant |draws| == a.Length - 1 - i
      invariant DrawsFit(a.Length, draws)
      invariant a[..] == Shuffled(old(a[..]), draws)
    {
      var j: nat :| j <= i;
      a[i], a[j] := a[j], a[i];
      assert (draws + [j])[..|draws|] == draws;
      draws := draws + [j];
      i := i - 1;
    }
    ShuffledIsPermutation(old(a[..]), draws);
  }

  /**
   * Shuffles a copy of `s` held in a fresh array: how a JavaScript array that lives inside another
   * value (a map entry, a question's options) is passed to `shuffleArray` here.
   */
  method ShuffleSeq<T>(s: seq<T>) returns (r: seq<T>, ghost draws: seq<nat>)
    ensures CompleteDraws(|s|, draws) && r == Shuffled(s, draws)
    ensures multiset(r) == multiset(s)
  {
    var a := new T[|s|](i requires 0 <= i < |s| => s[i]);
    assert a[..] == s;
    draws := ShuffleArray(a);
    r := a[..];
  }
}
