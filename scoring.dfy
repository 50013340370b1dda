/**
 * The scoring rules (src/game/scoring.ts): per-category sub-scores of a player's captured cards, their
 * total and combination list, the go multiplier and the go/stop eligibility check.
 */
module Scoring {
  import opened Types
  import opened Cards

  /** The combinations (족보) a sub-score reports, as tags instead of display text. */
  datatype Yaku =
    | FiveGwang | FourGwang | BiFourGwang | ThreeGwang | BiThreeGwang   // 오광, 사광, 비사광, 삼광, 비삼광
    | HongdanSet | CheongdanSet | ChodanSet | TtiCount(count: nat)               // 홍단, 청단, 초단, "띠 N장"
    | GodoriSet | AnimalCount(count: nat)                                  // 고도리, "열끗 N장"
    | PiPoints(points: int)                                             // "피 N점"

  /** The `{ score, yaku }` pair each category scorer returns. */
  datatype SubScore = SubScore(score: int, yaku: seq<Yaku>)

  /** What each combination is worth under the rules; the count combinations pay for every card past four. */
  function YakuPoints(y: Yaku): (p: int)
    ensures !(y.TtiCount? || y.AnimalCount? || y.PiPoints?) ==> 2 <= p <= 15
    ensures (y.TtiCount? || y.AnimalCount?) ==> (p > 0 <==> y.count >= 5)
    ensures y.PiPoints? ==> (p > 0 <==> y.points >= 10)
  {
    match y
    case FiveGwang => 15
    case FourGwang => 4
    case BiFourGwang => 3
    case ThreeGwang => 3
    case BiThreeGwang => 2
    case HongdanSet => 3
    case CheongdanSet => 3
    case ChodanSet => 3
    case TtiCount(n) => n - 4
    case GodoriSet => 5
    case AnimalCount(n) => n - 4
    case PiPoints(p) => p - 9
  }

  function SumYakuPoints(ys: seq<Yaku>): int
  {
    if ys == [] then 0 else SumYakuPoints(ys[..|ys| - 1]) + YakuPoints(ys[|ys| - 1])
  }

  lemma {:induction false} SumYakuPointsAppend(a: seq<Yaku>, b: seq<Yaku>)
    ensures SumYakuPoints(a + b) == SumYakuPoints(a) + SumYakuPoints(b)
    decreases |b|
  {
    if b != [] {
      assert (a + b)[..|a + b| - 1] == a + b[..|b| - 1];
      assert (a + b)[|a + b| - 1] == b[|b| - 1];
      SumYakuPointsAppend(a, b[..|b| - 1]);
    } else {
      assert a + b == a;
    }
  }

  /** The place of a combination in the combined list: gwang, then tti, then animal, then pi. */
  function Rank(y: Yaku): nat
  {
    match y
    case FiveGwang => 0
    case FourGwang => 0
    case BiFourGwang => 0
    case ThreeGwang => 0
    case BiThreeGwang => 0
    case HongdanSet => 1
    case CheongdanSet => 2
    case ChodanSet => 3
    case TtiCount(_) => 4
    case GodoriSet => 5
    case AnimalCount(_) => 6
    case PiPoints(_) => 7
  }

  /** The combinations appear in table order, each kind at most once. */
  predicate InTableOrder(ys: seq<Yaku>)
  {
    forall i, j :: 0 <= i < j < |ys| ==> Rank(ys[i]) < Rank(ys[j])
  }

  /** Every combination of `ys` has a rank in [lo, hi]. */
  predicate RanksWithin(ys: seq<Yaku>, lo: nat, hi: nat)
  {
    forall y :: y in ys ==> lo <= Rank(y) <= hi
  }

  /** `[y]` when the condition holds, else nothing. */
  function Opt(b: bool, y: Yaku): seq<Yaku>
  {
    if b then [y] else []
  }

  /** The points of `Opt(taken, y)`. */
  function OptPoints(taken: bool, y: Yaku): int
  {
    if taken then YakuPoints(y) else 0
  }

  /** The points of a list of at most one combination. */
  lemma SumOpt(taken: bool, y: Yaku)
    ensures SumYakuPoints(Opt(taken, y)) == OptPoints(taken, y)
  {
    if taken {
      assert [y][..0] == [];
    }
  }

  /** A list of at most one combination is ordered and ranked at that combination's place. */
  lemma OptOrdered(taken: bool, y: Yaku)
    ensures InTableOrder(Opt(taken, y)) && RanksWithin(Opt(taken, y), Rank(y), Rank(y))
  {
  }

  /** The sub-score made of the one combination `y`. */
  function Single(y: Yaku): (r: SubScore)
    ensures r.yaku == [y] && r.score == YakuPoints(y) == SumYakuPoints(r.yaku)
  {
    assert [y][..0] == [];
    SubScore(YakuPoints(y), [y])
  }

  /** `cards.map(c => c.id)`. */
  function Ids(cards: seq<Card>): (ids: seq<string>)
    ensures |ids| == |cards| && forall k :: 0 <= k < |cards| ==> ids[k] == cards[k].id
  {
    seq(|cards|, k requires 0 <= k < |cards| => cards[k].id)
  }

  /** `required.every(id => ids.includes(id))`. */
  function HoldsAll(ids: seq<string>, required: seq<string>): (r: bool)
    ensures r <==> forall id :: id in required ==> id in ids
  {
    required == [] || (required[0] in ids && HoldsAll(ids, required[1..]))
  }

  /** `gwangCards.some(c => c.month === 12)`: the rain (비) gwang is among the cards. */
  function HasBiGwang(cards: seq<Card>): (r: bool)
    ensures r <==> exists c :: c in cards && c.month == 12
  {
    exists k :: 0 <= k < |cards| && cards[k].month == 12
  }

  /**
   * `calculateGwangScore`: 15 for five gwang; 4 for four and 3 for three, one point less when the rain gwang
   * is among them; nothing for any other count.
   */
  function GwangScore(gwangCards: seq<Card>): (r: SubScore)
    ensures r.score == SumYakuPoints(r.yaku) && 0 <= r.score <= 15 && |r.yaku| <= 1
    ensures r.score > 0 <==> 3 <= |gwangCards| <= 5
    ensures |gwangCards| == 5 ==> r.yaku == [FiveGwang]
    ensures |gwangCards| == 4 ==> r.yaku == if HasBiGwang(gwangCards) then [BiFourGwang] else [FourGwang]
    ensures |gwangCards| == 3 ==> r.yaku == if HasBiGwang(gwangCards) then [BiThreeGwang] else [ThreeGwang]
    ensures !(3 <= |gwangCards| <= 5) ==> r == SubScore(0, [])
  {
    var hasBiGwang := HasBiGwang(gwangCards);
    if |gwangCards| == 5 then Single(FiveGwang)
    else if |gwangCards| == 4 then (if hasBiGwang then Single(BiFourGwang) else Single(FourGwang))
    else if |gwangCards| == 3 then (if hasBiGwang then Single(BiThreeGwang) else Single(ThreeGwang))
    else SubScore(0, [])
  }

  /**
   * The accumulation of `calculateTtiScore` once its tests are made: each complete set adds 3, `count` >= 5
   * ribbons add `count - 4`, and each test that holds pushes its combination. The score is always what the
   * combination table says the pushed combinations are worth.
   */
  function TtiTally(count: nat, hasHongdan: bool, hasCheongdan: bool, hasChodan: bool): (r: SubScore)
    ensures r.score == SumYakuPoints(r.yaku) && r.score >= 0
  {
    var many := count >= 5;
    var o1, o2, o3, o4 := Opt(hasHongdan, HongdanSet), Opt(hasCheongdan, CheongdanSet),
                          Opt(hasChodan, ChodanSet), Opt(many, TtiCount(count));
    SumOpt(hasHongdan, HongdanSet);
    SumOpt(hasCheongdan, CheongdanSet);
    SumOpt(hasChodan, ChodanSet);
    SumOpt(many, TtiCount(count));
    SumYakuPointsAppend(o1, o2);
    SumYakuPointsAppend(o1 + o2, o3);
    SumYakuPointsAppend(o1 + o2 + o3, o4);
    var score := (if hasHongdan then 3 else 0) + (if hasCheongdan then 3 else 0) + (if hasChodan then 3 else 0)
                 + (if many then count - 4 else 0);
    SubScore(score, o1 + o2 + o3 + o4)
  }

  /** A ribbon combination is reported exactly when its test holds; a count combination carries the count. */
  lemma TtiTallyReports(count: nat, hasHongdan: bool, hasCheongdan: bool, hasChodan: bool)
    ensures var ys := TtiTally(count, hasHongdan, hasCheongdan, hasChodan).yaku;
            (HongdanSet in ys <==> hasHongdan) && (CheongdanSet in ys <==> hasCheongdan) &&
            (ChodanSet in ys <==> hasChodan) && (TtiCount(count) in ys <==> count >= 5) &&
            (forall y :: y in ys && y.TtiCount? ==> y.count == count)
  {
    var o1, o2, o3, o4 := Opt(hasHongdan, HongdanSet), Opt(hasCheongdan, CheongdanSet),
                          Opt(hasChodan, ChodanSet), Opt(count >= 5, TtiCount(count));
    assert TtiTally(count, hasHongdan, hasCheongdan, hasChodan).yaku == o1 + o2 + o3 + o4;
    TtiOptsReport(count, hasHongdan, hasCheongdan, hasChodan);
  }

  /** The same, for the list the tally builds. */
  lemma TtiOptsReport(count: nat, hasHongdan: bool, hasCheongdan: bool, hasChodan: bool)
    ensures var ys := Opt(hasHongdan, HongdanSet) + Opt(hasCheongdan, CheongdanSet) +
                      Opt(hasChodan, ChodanSet) + Opt(count >= 5, TtiCount(count));
            (HongdanSet in ys <==> hasHongdan) && (CheongdanSet in ys <==> hasCheongdan) &&
            (ChodanSet in ys <==> hasChodan) && (TtiCount(count) in ys <==> count >= 5) &&
            (forall y :: y in ys && y.TtiCount? ==> y.count == count)
  {
    var o1, o2, o3, o4 := Opt(hasHongdan, HongdanSet), Opt(hasCheongdan, CheongdanSet),
                          Opt(hasChodan, ChodanSet), Opt(count >= 5, TtiCount(count));
    forall y
      ensures y in o1 + o2 + o3 + o4 <==> y in o1 || y in o2 || y in o3 || y in o4
    {
      InFour(y, o1, o2, o3, o4);
    }
  }

  lemma InFour(y: Yaku, o1: seq<Yaku>, o2: seq<Yaku>, o3: seq<Yaku>, o4: seq<Yaku>)
    ensures y in o1 + o2 + o3 + o4 <==> y in o1 || y in o2 || y in o3 || y in o4
  {
  }

  /**
   * `calculateTtiScore`: each complete ribbon set (hongdan, cheongdan, chodan) is reported and pays 3, and
   * five or more ribbons pay one point per ribbon past four; the rewards stack.
   */
  function TtiScore(ttiCards: seq<Card>): (r: SubScore)
    ensures r.score == SumYakuPoints(r.yaku) && r.score >= 0
    ensures HongdanSet in r.yaku <==> HoldsAll(Ids(ttiCards), HONGDAN_CARDS)
    ensures CheongdanSet in r.yaku <==> HoldsAll(Ids(ttiCards), CHEONGDAN_CARDS)
    ensures ChodanSet in r.yaku <==> HoldsAll(Ids(ttiCards), CHODAN_CARDS)
    ensures TtiCount(|ttiCards|) in r.yaku <==> |ttiCards| >= 5
    ensures forall y :: y in r.yaku && y.TtiCount? ==> y.count == |ttiCards|
  {
    var cardIds := Ids(ttiCards);
    TtiTallyReports(|ttiCards|, HoldsAll(cardIds, HONGDAN_CARDS), HoldsAll(cardIds, CHEONGDAN_CARDS),
                    HoldsAll(cardIds, CHODAN_CARDS));
    TtiTally(|ttiCards|, HoldsAll(cardIds, HONGDAN_CARDS), HoldsAll(cardIds, CHEONGDAN_CARDS),
             HoldsAll(cardIds, CHODAN_CARDS))
  }

  /**
   * The accumulation of `calculateAnimalScore` once its tests are made: a complete godori set adds 5,
   * `count` >= 5 animals add `count - 4`, and each test that holds pushes its combination.
   */
  function AnimalTally(count: nat, hasGodori: bool): (r: SubScore)
    ensures r.score == SumYakuPoints(r.yaku) && r.score >= 0
  {
    var many := count >= 5;
    var o1, o2 := Opt(hasGodori, GodoriSet), Opt(many, AnimalCount(count));
    SumOpt(hasGodori, GodoriSet);
    SumOpt(many, AnimalCount(count));
    SumYakuPointsAppend(o1, o2);
    var score := (if hasGodori then 5 else 0) + (if many then count - 4 else 0);
    SubScore(score, o1 + o2)
  }

  /** The godori combination is reported exactly when the set is complete; a count combination carries the count. */
  lemma AnimalTallyReports(count: nat, hasGodori: bool)
    ensures var ys := AnimalTally(count, hasGodori).yaku;
            (GodoriSet in ys <==> hasGodori) && (AnimalCount(count) in ys <==> count >= 5) &&
            (forall y :: y in ys && y.AnimalCount? ==> y.count == count)
  {
    var o1, o2 := Opt(hasGodori, GodoriSet), Opt(count >= 5, AnimalCount(count));
    var ys := AnimalTally(count, hasGodori).yaku;
    assert ys == o1 + o2;
    forall y
      ensures y in ys <==> y in o1 || y in o2
    {
    }
  }

  /**
   * `calculateAnimalScore`: the complete godori set is reported and pays 5, and five or more animals pay one
   * point per animal past four.
   */
  function AnimalScore(animalCards: seq<Card>): (r: SubScore)
    ensures r.score == SumYakuPoints(r.yaku) && r.score >= 0
    ensures GodoriSet in r.yaku <==> HoldsAll(Ids(animalCards), GODORI_CARDS)
    ensures AnimalCount(|animalCards|) in r.yaku <==> |animalCards| >= 5
    ensures forall y :: y in r.yaku && y.AnimalCount? ==> y.count == |animalCards|
  {
    AnimalTallyReports(|animalCards|, HoldsAll(Ids(animalCards), GODORI_CARDS));
    AnimalTally(|animalCards|, HoldsAll(Ids(animalCards), GODORI_CARDS))
  }

  function Max(a: int, b: int): int
  {
    if a < b then b else a
  }

  /**
   * `calculatePiScore`: the pi points (a double pi counts 2) pay one point each past nine, and nothing
   * below ten.
   */
  function PiScore(piCards: seq<Card>): (r: SubScore)
    ensures r.score == SumYakuPoints(r.yaku)
    ensures r.score == Max(0, SumPoints(piCards) - 9)
    ensures r.yaku == [] <==> SumPoints(piCards) < 10
    ensures r.yaku != [] ==> r.yaku == [PiPoints(SumPoints(piCards))]
  {
    var totalPiPoints := SumPoints(piCards);
    if totalPiPoints >= 10 then Single(PiPoints(totalPiPoints)) else SubScore(0, [])
  }

  datatype Details = Details(gwang: SubScore, tti: SubScore, animal: SubScore, pi: SubScore)
  datatype Total = Total(totalScore: int, yakuList: seq<Yaku>, details: Details)

  /**
   * `calculateTotalScore`: each bucket is scored by its own category; the total is the sum of the four
   * sub-scores and the combination list is their concatenation in the order gwang, tti, animal, pi.
   */
  function TotalScore(captured: Captured): (r: Total)
    ensures r.details == Details(GwangScore(captured.gwang), TtiScore(captured.tti),
                                 AnimalScore(captured.animal), PiScore(captured.pi))
    ensures r.totalScore == r.details.gwang.score + r.details.tti.score + r.details.animal.score + r.details.pi.score
    ensures r.yakuList == r.details.gwang.yaku + r.details.tti.yaku + r.details.animal.yaku + r.details.pi.yaku
    ensures r.totalScore >= 0
    ensures r.totalScore == SumYakuPoints(r.yakuList)
  {
    var gwangResult := GwangScore(captured.gwang);
    var ttiResult := TtiScore(captured.tti);
    var animalResult := AnimalScore(captured.animal);
    var piResult := PiScore(captured.pi);
    var yakuList := gwangResult.yaku + ttiResult.yaku + animalResult.yaku + piResult.yaku;
    SumYakuPointsAppend(gwangResult.yaku, ttiResult.yaku);
    SumYakuPointsAppend(gwangResult.yaku + ttiResult.yaku, animalResult.yaku);
    SumYakuPointsAppend(gwangResult.yaku + ttiResult.yaku + animalResult.yaku, piResult.yaku);
    Total(gwangResult.score + ttiResult.score + animalResult.score + piResult.score,
          yakuList,
          Details(gwangResult, ttiResult, animalResult, piResult))
  }

  /** Two ordered lists whose ranks lie in consecutive bands concatenate to an ordered list. */
  lemma OrderedConcat(a: seq<Yaku>, lo: nat, aHi: nat, b: seq<Yaku>, bLo: nat, hi: nat)
    requires InTableOrder(a) && RanksWithin(a, lo, aHi)
    requires InTableOrder(b) && RanksWithin(b, bLo, hi)
    requires lo <= bLo && aHi < bLo && aHi <= hi
    ensures InTableOrder(a + b) && RanksWithin(a + b, lo, hi)
  {
    forall y | y in a + b
      ensures lo <= Rank(y) <= hi
    {
      assert y in a || y in b;
    }
    forall i, j | 0 <= i < j < |a + b|
      ensures Rank((a + b)[i]) < Rank((a + b)[j])
    {
      if j < |a| {
        assert (a + b)[i] == a[i] && (a + b)[j] == a[j];
      } else if i < |a| {
        assert (a + b)[i] in a && (a + b)[j] in b;
      } else {
        assert (a + b)[i] == b[i - |a|] && (a + b)[j] == b[j - |a|];
      }
    }
  }

  lemma TtiTallyInOrder(count: nat, hasHongdan: bool, hasCheongdan: bool, hasChodan: bool)
    ensures var ys := TtiTally(count, hasHongdan, hasCheongdan, hasChodan).yaku;
            InTableOrder(ys) && RanksWithin(ys, 1, 4)
  {
    var o1, o2, o3, o4 := Opt(hasHongdan, HongdanSet), Opt(hasCheongdan, CheongdanSet),
                          Opt(hasChodan, ChodanSet), Opt(count >= 5, TtiCount(count));
    OptOrdered(hasHongdan, HongdanSet);
    OptOrdered(hasCheongdan, CheongdanSet);
    OptOrdered(hasChodan, ChodanSet);
    OptOrdered(count >= 5, TtiCount(count));
    OrderedConcat(o1, 1, 1, o2, 2, 2);
    OrderedConcat(o1 + o2, 1, 2, o3, 3, 3);
    OrderedConcat(o1 + o2 + o3, 1, 3, o4, 4, 4);
  }

  lemma AnimalTallyInOrder(count: nat, hasGodori: bool)
    ensures var ys := AnimalTally(count, hasGodori).yaku;
            InTableOrder(ys) && RanksWithin(ys, 5, 6)
  {
    OptOrdered(hasGodori, GodoriSet);
    OptOrdered(count >= 5, AnimalCount(count));
    OrderedConcat(Opt(hasGodori, GodoriSet), 5, 5, Opt(count >= 5, AnimalCount(count)), 6, 6);
  }

  /** Each category reports its combinations in table order, within its own band of ranks. */
  lemma CategoriesInOrder(captured: Captured)
    ensures InTableOrder(GwangScore(captured.gwang).yaku) && RanksWithin(GwangScore(captured.gwang).yaku, 0, 0)
    ensures InTableOrder(TtiScore(captured.tti).yaku) && RanksWithin(TtiScore(captured.tti).yaku, 1, 4)
    ensures InTableOrder(AnimalScore(captured.animal).yaku) && RanksWithin(AnimalScore(captured.animal).yaku, 5, 6)
    ensures InTableOrder(PiScore(captured.pi).yaku) && RanksWithin(PiScore(captured.pi).yaku, 7, 7)
  {
    GwangInOrder(captured.gwang);
    TtiInOrder(captured.tti);
    AnimalInOrder(captured.animal);
    PiInOrder(captured.pi);
  }

  lemma GwangInOrder(cards: seq<Card>)
    ensures InTableOrder(GwangScore(cards).yaku) && RanksWithin(GwangScore(cards).yaku, 0, 0)
  {
  }

  lemma TtiInOrder(cards: seq<Card>)
    ensures InTableOrder(TtiScore(cards).yaku) && RanksWithin(TtiScore(cards).yaku, 1, 4)
  {
    var ids := Ids(cards);
    TtiTallyInOrder(|cards|, HoldsAll(ids, HONGDAN_CARDS), HoldsAll(ids, CHEONGDAN_CARDS), HoldsAll(ids, CHODAN_CARDS));
  }

  lemma AnimalInOrder(cards: seq<Card>)
    ensures InTableOrder(AnimalScore(cards).yaku) && RanksWithin(AnimalScore(cards).yaku, 5, 6)
  {
    AnimalTallyInOrder(|cards|, HoldsAll(Ids(cards), GODORI_CARDS));
  }

  lemma PiInOrder(cards: seq<Card>)
    ensures InTableOrder(PiScore(cards).yaku) && RanksWithin(PiScore(cards).yaku, 7, 7)
  {
  }

  /**
   * The combination list of `calculateTotalScore` is in table order: gwang first, then the ribbon sets and
   * ribbon count, then godori and the animal count, then pi, with no kind repeated.
   */
  lemma TotalInTableOrder(captured: Captured)
    ensures InTableOrder(TotalScore(captured).yakuList)
  {
    var d := TotalScore(captured).details;
    CategoriesInOrder(captured);
    OrderedConcat(d.gwang.yaku, 0, 0, d.tti.yaku, 1, 4);
    OrderedConcat(d.gwang.yaku + d.tti.yaku, 0, 4, d.animal.yaku, 5, 6);
    OrderedConcat(d.gwang.yaku + d.tti.yaku + d.animal.yaku, 0, 6, d.pi.yaku, 7, 7);
  }

  /** Holding more ids never loses a complete set. */
  lemma {:induction false} HoldsAllGrows(ids: seq<string>, extra: seq<string>, required: seq<string>)
    ensures HoldsAll(ids, required) ==> HoldsAll(ids + extra, required)
    decreases |required|
  {
    if required != [] {
      HoldsAllGrows(ids, extra, required[1..]);
    }
  }

  lemma IdsSnoc(cards: seq<Card>, c: Card)
    ensures Ids(cards + [c]) == Ids(cards) + [c.id]
  {
    assert forall k :: 0 <= k < |cards| ==> (cards + [c])[k] == cards[k];
  }

  /** Capturing one more ribbon never lowers the ribbon score. */
  lemma TtiScoreMonotone(ttiCards: seq<Card>, c: Card)
    ensures TtiScore(ttiCards).score <= TtiScore(ttiCards + [c]).score
  {
    IdsSnoc(ttiCards, c);
    HoldsAllGrows(Ids(ttiCards), [c.id], HONGDAN_CARDS);
    HoldsAllGrows(Ids(ttiCards), [c.id], CHEONGDAN_CARDS);
    HoldsAllGrows(Ids(ttiCards), [c.id], CHODAN_CARDS);
  }

  /** Capturing one more animal never lowers the animal score. */
  lemma AnimalScoreMonotone(animalCards: seq<Card>, c: Card)
    ensures AnimalScore(animalCards).score <= AnimalScore(animalCards + [c]).score
  {
    IdsSnoc(animalCards, c);
    HoldsAllGrows(Ids(animalCards), [c.id], GODORI_CARDS);
  }

  /** Capturing one more pi card (its points are never negative) never lowers the pi score. */
  lemma PiScoreMonotone(piCards: seq<Card>, c: Card)
    requires c.points >= 0
    ensures PiScore(piCards).score <= PiScore(piCards + [c]).score
  {
    assert (piCards + [c])[..|piCards|] == piCards;
  }

  /** `2 ** n`. */
  function Pow2(n: nat): (p: nat)
    ensures p >= 1
  {
    if n == 0 then 1 else 2 * Pow2(n - 1)
  }

  /** What `calculateFinalScore` computes: the base score doubled once per go (a negative count doubles never). */
  function FinalScore(baseScore: int, goCount: int): (r: int)
    ensures goCount <= 0 ==> r == baseScore
    ensures baseScore >= 0 ==> r >= baseScore
    ensures r == 0 <==> baseScore == 0
  {
    var m := Pow2(if goCount < 0 then 0 else goCount);
    if baseScore >= 0 then MulMonotone(baseScore, m); baseScore * m
    else MulMonotone(-baseScore, m); baseScore * m
  }

  /** `calculateFinalScore`: doubles a multiplier once per go, then scales the base score by it. */
  method CalculateFinalScore(baseScore: int, goCount: int) returns (score: int)
    ensures score == FinalScore(baseScore, goCount)
  {
    var multiplier := 1;
    var i := 0;
    while i < goCount
      invariant 0 <= i && (goCount >= 0 ==> i <= goCount) && (goCount < 0 ==> i == 0)
      invariant multiplier == Pow2(i)
    {
      multiplier := multiplier * 2;
      i := i + 1;
    }
    score := baseScore * multiplier;
  }

  /** Doubling composes: `2^(a+b) = 2^a * 2^b`. */
  lemma {:induction false} Pow2Add(a: nat, b: nat)
    ensures Pow2(a + b) == Pow2(a) * Pow2(b)
    decreases b
  {
    if b > 0 {
      Pow2Add(a, b - 1);
      assert Pow2(a + b) == 2 * Pow2(a + (b - 1));
    }
  }

  /** Each further go doubles the final score, and with a non-negative base more gos never lower it. */
  lemma FinalScoreGo(baseScore: int, goCount: nat, more: nat)
    ensures FinalScore(baseScore, goCount + more) == FinalScore(baseScore, goCount) * Pow2(more)
    ensures FinalScore(baseScore, goCount + 1) == 2 * FinalScore(baseScore, goCount)
    ensures baseScore >= 0 ==> FinalScore(baseScore, goCount) <= FinalScore(baseScore, goCount + more)
  {
    Pow2Add(goCount, more);
    MulAssociative(baseScore, Pow2(goCount), Pow2(more));
    assert Pow2(goCount + 1) == 2 * Pow2(goCount);
    MulAssociative(baseScore, 2, Pow2(goCount));
    if baseScore >= 0 {
      MulMonotone(baseScore * Pow2(goCount), Pow2(more));
    }
  }

  lemma MulAssociative(a: int, b: int, c: int)
    ensures a * (b * c) == (a * b) * c && a * (b * c) == (a * c) * b
  {
  }

  lemma MulMonotone(a: int, m: nat)
    requires a >= 0 && m >= 1
    ensures a <= a * m
  {
  }

  /** `hasMinimumScore`: the three-point threshold (판) for going or stopping. */
  function HasMinimumScore(score: int): (r: bool)
    ensures r ==> forall goCount: int :: FinalScore(score, goCount) >= 3
    ensures !r ==> FinalScore(score, 0) < 3
  {
    score >= 3
  }

  datatype WinCheck = WinCheck(canGo: bool, canStop: bool, score: int, yakuList: seq<Yaku>)

  /**
   * `checkWinCondition`: a player may go and may stop exactly when their captured cards score at least three
   * points, and the reported score is that total under the go multiplier.
   */
  function CheckWinCondition(player: Player, goCount: int): (r: WinCheck)
    ensures var total := TotalScore(player.captured);
            r.canGo == r.canStop == HasMinimumScore(total.totalScore) &&
            r.score == FinalScore(total.totalScore, goCount) && r.yakuList == total.yakuList
    ensures r.score >= 0 && (r.canStop ==> r.score >= 3)
  {
    var total := TotalScore(player.captured);
    var finalScore := FinalScore(total.totalScore, goCount);
    MulMonotone(total.totalScore, Pow2(if goCount < 0 then 0 else goCount));
    WinCheck(HasMinimumScore(total.totalScore), HasMinimumScore(total.totalScore), finalScore, total.yakuList)
  }
}
