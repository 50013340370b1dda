/**
 * `shuffleDeck` of the card module: an in-place Fisher-Yates shuffle over a copy of the deck. The calls to
 * `Math.random()` are replaced by a sequence of injected draws in [0, 1).
 */
module Shuffle {
  import opened Types

  /** The values `Math.random()` may return. */
  predicate RandomDraws(rand: seq<real>)
  {
    forall k :: 0 <= k < |rand| ==> 0.0 <= rand[k] < 1.0
  }

  lemma PositiveProduct(a: real, b: real)
    requires a > 0.0 && b > 0.0
    ensures a * b > 0.0
  {
  }

  /** `Math.floor(Math.random() * (i + 1))` for a draw `r`: always a position in [0, i]. */
  function SwapIndex(r: real, i: nat): (j: int)
    requires 0.0 <= r < 1.0
    ensures 0 <= j <= i
  {
    var x := r * (i + 1) as real;
    assert x < (i + 1) as real by {
      var n := (i + 1) as real;
      assert n - x == (1.0 - r) * n;
      assert 1.0 - r > 0.0 && n > 0.0;
      PositiveProduct(1.0 - r, n);
    }
    x.Floor
  }

  /** `[s[i], s[j]] = [s[j], s[i]]`. */
  function Swap(s: seq<Card>, i: int, j: int): (r: seq<Card>)
    requires 0 <= i < |s| && 0 <= j < |s|
    ensures |r| == |s|
  {
    s[i := s[j]][j := s[i]]
  }

  /** A swap keeps the multiset of cards. */
  lemma SwapPermutes(s: seq<Card>, i: int, j: int)
    requires 0 <= i < |s| && 0 <= j < |s|
    ensures multiset(Swap(s, i, j)) == multiset(s)
  {
    var u := s[i := s[j]];
    assert multiset(u) == multiset(s) - multiset{s[i]} + multiset{s[j]};
    assert Swap(s, i, j) == u[j := s[i]];
  }

  /**
   * The Fisher-Yates passes i, i-1, ..., 1 of `shuffleDeck` applied to `s`, pass i swapping position i
   * with the position drawn from `rand[i]`.
   */
  function FisherYates(s: seq<Card>, rand: seq<real>, i: int): (r: seq<Card>)
    requires |rand| == |s| && RandomDraws(rand) && i < |s|
    ensures |r| == |s|
    decreases i
  {
    if i <= 0 then s else FisherYates(Swap(s, i, SwapIndex(rand[i], i)), rand, i - 1)
  }

  /** Shuffling reorders the cards and changes nothing else: a permutation of the input. */
  lemma {:induction false} FisherYatesPermutes(s: seq<Card>, rand: seq<real>, i: int)
    requires |rand| == |s| && RandomDraws(rand) && i < |s|
    ensures |FisherYates(s, rand, i)| == |s|
    ensures multiset(FisherYates(s, rand, i)) == multiset(s)
    decreases i
  {
    if i > 0 {
      var j := SwapIndex(rand[i], i);
      var t := Swap(s, i, j);
      FisherYatesPermutes(t, rand, i - 1);
      SwapPermutes(s, i, j);
    }
  }

  /** One pass of the loop in `ShuffleDeck`: it advances `FisherYates` by one step and keeps the multiset. */
  lemma SwapStep(before: seq<Card>, after: seq<Card>, rand: seq<real>, i: int, j: int)
    requires |rand| == |before| && RandomDraws(rand) && 0 < i < |before|
    requires j == SwapIndex(rand[i], i) && after == Swap(before, i, j)
    ensures FisherYates(after, rand, i - 1) == FisherYates(before, rand, i)
    ensures multiset(after) == multiset(before)
  {
    SwapPermutes(before, i, j);
  }

  /**
   * `shuffleDeck` with `Math.random` replaced by the injected draws `rand` (`rand[i]` is the draw made when
   * the loop is at `i`): it copies the deck into a fresh array and swaps in place from the top down.
   */
  method ShuffleDeck(deck: seq<Card>, rand: seq<real>) returns (shuffled: seq<Card>)
    requires |rand| == |deck| && RandomDraws(rand)
    ensures shuffled == FisherYates(deck, rand, |deck| - 1)
    ensures |shuffled| == |deck| && multiset(shuffled) == multiset(deck)
  {
    var a := new Card[|deck|](k requires 0 <= k < |deck| => deck[k]);
    assert a[..] == deck;
    var i := a.Length - 1;
    while i > 0
      invariant -1 <= i < a.Length
      invariant FisherYates(a[..], rand, i) == FisherYates(deck, rand, |deck| - 1)
      invariant multiset(a[..]) == multiset(deck)
    {
      var j := SwapIndex(rand[i], i);
      ghost var before := a[..];
      a[i], a[j] := a[j], a[i];
      SwapStep(before, a[..], rand, i, j);
      i := i - 1;
    }
    shuffled := a[..];
  }
}
