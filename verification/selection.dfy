/**
 * The generator's two pseudo-random selection primitives: `pick`, which
 * indexes a table by a seed modulo its length, and `shuffle`, a
 * Fisher-Yates shuffle driven by the Park-Miller "minimal standard"
 * linear-congruential generator.
 */
module Selection {

  /** Park-Miller multiplier. */
  const LcgMultiplier: nat := 16807
  /** Park-Miller modulus, the Mersenne prime 2^31 - 1. */
  const LcgModulus: nat := 2147483647

  /** `items[seed % items.length]`. */
  function Pick<T>(items: seq<T>, seed: nat): (r: T)
    requires |items| > 0
    ensures r in items
  {
    items[seed % |items|]
  }

  /** One step of the generator: `(s * 16807) % 2147483647`. */
  function LcgNext(s: nat): (r: nat)
    ensures r <= LcgModulus - 1
  {
    (s * LcgMultiplier) % LcgModulus
  }

  /** The partner index of position `i` in one Fisher-Yates step: `s % (i + 1)`. */
  function SwapIndex(s: nat, i: nat): (j: nat)
    ensures j <= i
  {
    s % (i + 1)
  }

  /** Exchange of positions `i` and `j`, as the destructuring swap does. */
  function Swap<T>(a: seq<T>, i: nat, j: nat): (r: seq<T>)
    requires i < |a| && j < |a|
    ensures |r| == |a|
    ensures r[i] == a[j] && r[j] == a[i]
    ensures forall k :: 0 <= k < |a| && k != i && k != j ==> r[k] == a[k]
  {
    a[i := a[j]][j := a[i]]
  }

  /** A swap rearranges the sequence without adding or losing entries. */
  lemma SwapPermutes<T>(a: seq<T>, i: nat, j: nat)
    requires i < |a| && j < |a|
    ensures multiset(Swap(a, i, j)) == multiset(a)
  {
    var b := a[i := a[j]];
    assert multiset(b) == multiset(a) - multiset{a[i]} + multiset{a[j]};
    assert multiset(b[j := a[i]]) == multiset(b) - multiset{b[j]} + multiset{a[i]};
  }

  /**
   * The shuffle loop from position `i` down to 1 with generator state `s`:
   * each step advances the state, then swaps position `i` with `s % (i + 1)`.
   */
  function ShuffleFrom<T>(a: seq<T>, s: nat, i: nat): (r: seq<T>)
    requires i < |a|
    ensures |r| == |a|
    decreases i
  {
    if i == 0 then a
    else
      var s' := LcgNext(s);
      ShuffleFrom(Swap(a, i, SwapIndex(s', i)), s', i - 1)
  }

  /** Every remaining step of the loop only rearranges the working copy. */
  lemma {:induction false} ShuffleFromPermutes<T>(a: seq<T>, s: nat, i: nat)
    requires i < |a|
    ensures multiset(ShuffleFrom(a, s, i)) == multiset(a)
    decreases i
  {
    if i > 0 {
      var s' := LcgNext(s);
      var j := SwapIndex(s', i);
      SwapPermutes(a, i, j);
      ShuffleFromPermutes(Swap(a, i, j), s', i - 1);
    }
  }

  /** `shuffle(items, seed)`: the loop run over a copy of `items`. */
  function Shuffle<T>(items: seq<T>, seed: nat): (r: seq<T>)
    ensures |r| == |items|
  {
    if |items| == 0 then items else ShuffleFrom(items, seed, |items| - 1)
  }

  /** The shuffle returns a permutation of its input. */
  lemma ShufflePermutes<T>(items: seq<T>, seed: nat)
    ensures multiset(Shuffle(items, seed)) == multiset(items)
  {
    if |items| > 0 {
      ShuffleFromPermutes(items, seed, |items| - 1);
    }
  }

  /** A shuffled table holds exactly the entries of the table. */
  lemma ShuffleMembers<T>(items: seq<T>, seed: nat, x: T)
    ensures x in Shuffle(items, seed) <==> x in items
  {
    ShufflePermutes(items, seed);
    assert x in Shuffle(items, seed) <==> x in multiset(Shuffle(items, seed));
  }

  /** A pick from a shuffled table is an entry of the table. */
  lemma PickShuffled<T>(items: seq<T>, seed: nat, n: nat)
    requires |items| > 0
    ensures Pick(Shuffle(items, seed), n) in items
  {
    ShuffleMembers(items, seed, Pick(Shuffle(items, seed), n));
  }

  /**
   * The shuffle written as an in-place loop over a working copy: the
   * generator state stays below the modulus after every step and every
   * swap partner lies in [0, i].
   */
  method ShuffleCopy<T>(items: seq<T>, seed: nat) returns (result: seq<T>)
    ensures result == Shuffle(items, seed)
  {
    result := items;
    if |items| == 0 {
      return;
    }
    var s: nat := seed;
    var i := |items| - 1;
    while i > 0
      invariant 0 <= i < |items|
      invariant |result| == |items|
      invariant i < |items| - 1 ==> s < LcgModulus
      invariant ShuffleFrom(result, s, i) == Shuffle(items, seed)
      decreases i
    {
      var s' := LcgNext(s);
      var j := SwapIndex(s', i);
      assert j <= i && s' < LcgModulus;
      result := Swap(result, i, j);
      s := s';
      i := i - 1;
    }
  }
}
