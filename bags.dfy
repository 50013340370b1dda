/**
 * Multiset arithmetic used by the card-conservation proofs: each lemma is one rearrangement of a sum of
 * multisets, proved element by element.
 */
module Bags {
  /** Adding the same part to both sides of an equation. */
  lemma AddBoth<T>(x: multiset<T>, b: multiset<T>, r: multiset<T>, a: multiset<T>, l: multiset<T>)
    requires x + b == r + a
    ensures (x + l) + b == (r + l) + a
  {
    forall y
      ensures ((x + l) + b)[y] == ((r + l) + a)[y]
    {
      assert (x + b)[y] == (r + a)[y];
    }
  }

  /** The order in which two parts are added does not matter. */
  lemma Swap<T>(r: multiset<T>, a: multiset<T>, b: multiset<T>)
    ensures (r + a) + b == (r + b) + a
  {
    forall y
      ensures ((r + a) + b)[y] == ((r + b) + a)[y]
    {
    }
  }

  /**
   * One part of a total is replaced by a part smaller by `c`: the new total plus `c` is the old total.
   */
  lemma Shrink<T>(after: multiset<T>, before: multiset<T>, pp: multiset<T>, qq: multiset<T>, c: multiset<T>)
    requires qq + c == pp && after + pp == before + qq
    ensures after + c == before
  {
    forall y
      ensures (after + c)[y] == before[y]
    {
      assert (qq + c)[y] == pp[y];
      assert (after + pp)[y] == (before + qq)[y];
    }
  }

  /** ... and replaced by a part larger by `c`: the new total is the old total plus `c`. */
  lemma Grow<T>(after: multiset<T>, before: multiset<T>, pp: multiset<T>, qq: multiset<T>, c: multiset<T>)
    requires qq == pp + c && after + pp == before + qq
    ensures after == before + c
  {
    forall y
      ensures after[y] == (before + c)[y]
    {
      assert (after + pp)[y] == (before + qq)[y];
    }
  }

  /**
   * Three places hold the cards, `d`, `f` and `p`: `c` leaves `p`, and `f` trades with `moved` so that the
   * card `c` ends in `f` or in `moved`; the three places plus `moved` hold what they held before.
   */
  lemma Move<T>(d: multiset<T>, f0: multiset<T>, f1: multiset<T>, p0: multiset<T>, p1: multiset<T>,
                c: multiset<T>, moved: multiset<T>)
    requires p1 + c == p0 && f1 + moved == f0 + c
    ensures (d + f1 + p1) + moved == d + f0 + p0
  {
    forall y
      ensures ((d + f1 + p1) + moved)[y] == (d + f0 + p0)[y]
    {
      assert (p1 + c)[y] == p0[y];
      assert (f1 + moved)[y] == (f0 + c)[y];
    }
  }

  /** The same, with the card `c` leaving the first place `d` instead. */
  lemma MoveFirst<T>(d0: multiset<T>, d1: multiset<T>, f0: multiset<T>, f1: multiset<T>, p: multiset<T>,
                     c: multiset<T>, moved: multiset<T>)
    requires d1 + c == d0 && f1 + moved == f0 + c
    ensures (d1 + f1 + p) + moved == d0 + f0 + p
  {
    forall y
      ensures ((d1 + f1 + p) + moved)[y] == (d0 + f0 + p)[y]
    {
      assert (d1 + c)[y] == d0[y];
      assert (f1 + moved)[y] == (f0 + c)[y];
    }
  }
}
