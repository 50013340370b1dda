/** Bomb and shake: the months of which a hand holds four or three cards (checkBomb and checkShake of src/game/engine.ts). */
module HandCheck {
  import opened Wrappers
  import opened Types
  import opened Cards

  /** How many cards of `month` the hand holds, counted card by card. */
  function MonthCount(hand: seq<Card>, month: Month): nat
  {
    if hand == [] then 0
    else MonthCount(hand[..|hand| - 1], month) + (if hand[|hand| - 1].month == month then 1 else 0)
  }

  /** The count is the number of cards the month filter keeps. */
  lemma {:induction false} MonthCountFilter(hand: seq<Card>, month: Month)
    ensures MonthCount(hand, month) == |FindCardsByMonth(hand, month)|
    decreases |hand|
  {
    if hand == [] {
      assert FindCardsByMonth(hand, month) == [];
    } else {
      var n := |hand| - 1;
      MonthCountFilter(hand[..n], month);
      FindCardsByMonthSnoc(hand, month, n);
      assert hand[..n + 1] == hand;
    }
  }

  /** `monthCounts[m] || 0`. */
  function CountOf(counts: map<int, nat>, month: int): nat
  {
    if month in counts then counts[month] else 0
  }

  /** One more card adds one to the count of its own month and leaves the other months' counts alone. */
  lemma MonthCountStep(hand: seq<Card>, k: int, m: Month)
    requires 0 <= k < |hand|
    ensures hand[k].month == m ==> MonthCount(hand[..k + 1], m) == MonthCount(hand[..k], m) + 1
    ensures hand[k].month != m ==> MonthCount(hand[..k + 1], m) == MonthCount(hand[..k], m)
  {
    assert hand[..k + 1][..k] == hand[..k];
  }

  /** `counts` is the tally of `cards`: an entry for each month seen, holding the number of its cards. */
  predicate IsTally(counts: map<int, nat>, cards: seq<Card>)
  {
    (forall m :: m in counts ==> 1 <= m <= 12 && counts[m] > 0) &&
    forall m: Month :: CountOf(counts, m) == MonthCount(cards, m)
  }

  /** So counting one more card keeps the tally exact for every month. */
  lemma TallyStep(counts: map<int, nat>, hand: seq<Card>, k: int)
    requires 0 <= k < |hand| && IsTally(counts, hand[..k])
    ensures IsTally(counts[hand[k].month := CountOf(counts, hand[k].month) + 1], hand[..k + 1])
  {
    var next := counts[hand[k].month := CountOf(counts, hand[k].month) + 1];
    forall m: Month
      ensures CountOf(next, m) == MonthCount(hand[..k + 1], m)
    {
      MonthCountStep(hand, k, m);
    }
    forall m | m in next
      ensures 1 <= m <= 12 && next[m] > 0
    {
      if m != hand[k].month {
        assert m in counts && next[m] == counts[m];
      }
    }
  }

  /** The per-month tally that `checkBomb` and `checkShake` both build: only months seen get an entry. */
  method CountMonths(hand: seq<Card>) returns (counts: map<int, nat>)
    ensures forall m :: m in counts ==> 1 <= m <= 12 && counts[m] > 0
    ensures forall m: Month :: CountOf(counts, m) == MonthCount(hand, m)
  {
    counts := map[];
    var k := 0;
    assert IsTally(counts, hand[..k]) by {
      assert hand[..k] == [];
    }
    while k < |hand|
      invariant 0 <= k <= |hand| && IsTally(counts, hand[..k])
    {
      var month := hand[k].month;
      TallyStep(counts, hand, k);
      counts := counts[month := CountOf(counts, month) + 1];
      k := k + 1;
    }
    assert hand[..k] == hand;
  }

  /**
   * `checkBomb`: the lowest month of which the hand holds exactly four cards (the tally is read in ascending
   * month order), or none.
   */
  method CheckBomb(hand: seq<Card>) returns (r: Option<Month>)
    ensures r.Some? ==> MonthCount(hand, r.value) == 4 &&
                        forall m: Month :: m < r.value ==> MonthCount(hand, m) != 4
    ensures r.None? <==> forall m: Month :: MonthCount(hand, m) != 4
  {
    var monthCounts := CountMonths(hand);
    var month := 1;
    while month <= 12
      invariant 1 <= month <= 13
      invariant forall m: Month :: m < month ==> MonthCount(hand, m) != 4
    {
      if month in monthCounts && monthCounts[month] == 4 {
        return Some(month);
      }
      month := month + 1;
    }
    return None;
  }

  /** `checkShake`: every month of which the hand holds exactly three cards, in ascending order. */
  method CheckShake(hand: seq<Card>) returns (shakeMonths: seq<Month>)
    ensures forall m: Month :: m in shakeMonths <==> MonthCount(hand, m) == 3
    ensures forall a, b :: 0 <= a < b < |shakeMonths| ==> shakeMonths[a] < shakeMonths[b]
  {
    var monthCounts := CountMonths(hand);
    shakeMonths := [];
    var month := 1;
    while month <= 12
      invariant 1 <= month <= 13
      invariant forall m: Month :: m in shakeMonths <==> m < month && MonthCount(hand, m) == 3
      invariant forall a :: 0 <= a < |shakeMonths| ==> shakeMonths[a] < month
      invariant forall a, b :: 0 <= a < b < |shakeMonths| ==> shakeMonths[a] < shakeMonths[b]
    {
      if month in monthCounts && monthCounts[month] == 3 {
        shakeMonths := shakeMonths + [month];
      }
      month := month + 1;
    }
  }
}
