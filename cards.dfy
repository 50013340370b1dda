/** The 48-card rule table and the deck helpers (src/game/cards.ts). */
module Cards {
  import opened Wrappers
  import opened Types
  import opened Seqs

  /** One row of `CARD_DEFINITIONS`. */
  datatype CardDef = CardDef(month: Month, index: CardIndex, cardType: CardType,
                             subType: Option<SubType>, points: int)

  /** The four rows of `CARD_DEFINITIONS` for one month, in index order. */
  function MonthRow(month: Month): (row: seq<CardDef>)
    ensures |row| == 4
    ensures forall j :: 0 <= j < 4 ==> row[j].month == month && row[j].index == j + 1
  {
    if month == 1 then
      [CardDef(1, 1, Gwang, None, 0), CardDef(1, 2, Tti, Some(Hongdan), 0),
       CardDef(1, 3, Pi, None, 1), CardDef(1, 4, Pi, None, 1)]
    else if month == 2 then
      [CardDef(2, 1, Animal, Some(Godori), 0), CardDef(2, 2, Tti, Some(Hongdan), 0),
       CardDef(2, 3, Pi, None, 1), CardDef(2, 4, Pi, None, 1)]
    else if month == 3 then
      [CardDef(3, 1, Gwang, None, 0), CardDef(3, 2, Tti, Some(Hongdan), 0),
       CardDef(3, 3, Pi, None, 1), CardDef(3, 4, Pi, None, 1)]
    else if month == 4 then
      [CardDef(4, 1, Animal, Some(Godori), 0), CardDef(4, 2, Tti, Some(Chodan), 0),
       CardDef(4, 3, Pi, None, 1), CardDef(4, 4, Pi, None, 1)]
    else if month == 5 then
      [CardDef(5, 1, Animal, None, 0), CardDef(5, 2, Tti, Some(Chodan), 0),
       CardDef(5, 3, Pi, None, 1), CardDef(5, 4, Pi, None, 1)]
    else if month == 6 then
      [CardDef(6, 1, Animal, None, 0), CardDef(6, 2, Tti, Some(Cheongdan), 0),
       CardDef(6, 3, Pi, None, 1), CardDef(6, 4, Pi, None, 1)]
    else if month == 7 then
      [CardDef(7, 1, Animal, None, 0), CardDef(7, 2, Tti, Some(Chodan), 0),
       CardDef(7, 3, Pi, None, 1), CardDef(7, 4, Pi, None, 1)]
    else if month == 8 then
      [CardDef(8, 1, Gwang, None, 0), CardDef(8, 2, Animal, Some(Godori), 0),
       CardDef(8, 3, Pi, None, 1), CardDef(8, 4, Pi, None, 1)]
    else if month == 9 then
      [CardDef(9, 1, Animal, None, 0), CardDef(9, 2, Tti, Some(Cheongdan), 0),
       CardDef(9, 3, Pi, None, 1), CardDef(9, 4, Pi, None, 1)]
    else if month == 10 then
      [CardDef(10, 1, Animal, None, 0), CardDef(10, 2, Tti, Some(Cheongdan), 0),
       CardDef(10, 3, Pi, None, 1), CardDef(10, 4, Pi, None, 1)]
    else if month == 11 then
      [CardDef(11, 1, Gwang, None, 0), CardDef(11, 2, Animal, None, 0),
       CardDef(11, 3, Pi, Some(SsangPi), 2), CardDef(11, 4, Pi, None, 1)]
    else
      [CardDef(12, 1, Gwang, None, 0), CardDef(12, 2, Animal, None, 0),
       CardDef(12, 3, Tti, Some(Hongdan), 0), CardDef(12, 4, Pi, Some(SsangPi), 2)]
  }

  /** `CARD_DEFINITIONS`: the month rows 1 to 12 laid end to end. */
  function CardDefinitions(): (defs: seq<CardDef>)
    ensures |defs| == 48
    ensures forall k :: 0 <= k < 48 ==> defs[k].month == k / 4 + 1 && defs[k].index == k % 4 + 1
  {
    seq(48, k requires 0 <= k < 48 => MonthRow(k / 4 + 1)[k % 4])
  }

  function Digit(d: int): char
    requires 0 <= d <= 9
  {
    ('0' as int + d) as char
  }

  function DigitValue(c: char): int
  {
    c as int - '0' as int
  }

  /** `createCardId`: the month zero-padded to two digits, a dash, the index ("MM-i"). */
  function CardId(month: Month, index: CardIndex): (id: string)
    ensures |id| == 4 && id[2] == '-'
    ensures DigitValue(id[0]) * 10 + DigitValue(id[1]) == month && 0 <= DigitValue(id[1]) <= 9
    ensures DigitValue(id[3]) == index
  {
    [Digit(month / 10), Digit(month % 10), '-', Digit(index)]
  }

  /** Distinct (month, index) pairs get distinct ids. */
  lemma CardIdInjective(m1: Month, i1: CardIndex, m2: Month, i2: CardIndex)
    ensures CardId(m1, i1) == CardId(m2, i2) <==> m1 == m2 && i1 == i2
  {
    if CardId(m1, i1) == CardId(m2, i2) {
      var a, b := CardId(m1, i1), CardId(m2, i2);
      assert a[0] == b[0] && a[1] == b[1] && a[3] == b[3];
    }
  }

  function MakeCard(def: CardDef): (card: Card)
  {
    Card(CardId(def.month, def.index), def.month, def.index, def.cardType, def.subType, def.points)
  }

  /** `createDeck`: one card per table row, in table order. */
  function CreateDeck(): (deck: seq<Card>)
    ensures |deck| == 48
    ensures forall k :: 0 <= k < 48 ==>
      deck[k].month == k / 4 + 1 && deck[k].index == k % 4 + 1 &&
      deck[k].id == CardId(deck[k].month, deck[k].index)
  {
    seq(48, k requires 0 <= k < 48 => MakeCard(CardDefinitions()[k]))
  }

  /** The table row of every deck card, read back from the month rows. */
  lemma DeckCardAt(k: int)
    requires 0 <= k < 48
    ensures var d := MonthRow(k / 4 + 1)[k % 4]; CreateDeck()[k] == MakeCard(d)
  {
  }

  /** The deck's ids are pairwise distinct. */
  lemma DeckIdsDistinct()
    ensures forall i, j :: 0 <= i < j < 48 ==> CreateDeck()[i].id != CreateDeck()[j].id
  {
    var deck := CreateDeck();
    forall i, j | 0 <= i < j < 48 ensures deck[i].id != deck[j].id {
      CardIdInjective(deck[i].month, deck[i].index, deck[j].month, deck[j].index);
    }
  }

  /** `findCardsByMonth`: the cards of the given month, in their original order. */
  function FindCardsByMonth(cards: seq<Card>, month: Month): (r: seq<Card>)
    ensures forall c :: multiset(r)[c] == if c.month == month then multiset(cards)[c] else 0
    ensures IsSubsequence(r, cards)
  {
    Filter(cards, (c: Card) => c.month == month)
  }

  /** `filterByType`: the cards of the given type, in their original order. */
  function FilterByType(cards: seq<Card>, t: CardType): (r: seq<Card>)
    ensures forall c :: multiset(r)[c] == if c.cardType == t then multiset(cards)[c] else 0
    ensures IsSubsequence(r, cards)
  {
    Filter(cards, (c: Card) => c.cardType == t)
  }

  /** `cards.reduce((sum, card) => sum + card.points, 0)`. */
  function SumPoints(cards: seq<Card>): (total: int)
    ensures (forall k :: 0 <= k < |cards| ==> cards[k].points >= 0) ==> total >= 0
  {
    if cards == [] then 0 else SumPoints(cards[..|cards| - 1]) + cards[|cards| - 1].points
  }

  const GWANG_MONTHS: seq<Month> := [1, 3, 8, 11, 12]
  const GODORI_CARDS: seq<string> := ["02-1", "04-1", "08-2"]
  const HONGDAN_CARDS: seq<string> := ["01-2", "02-2", "03-2"]
  const CHEONGDAN_CARDS: seq<string> := ["06-2", "09-2", "10-2"]
  const CHODAN_CARDS: seq<string> := ["04-2", "05-2", "07-2"]

  /** The kind of each row of a month, read off the table. */
  lemma RowKinds(month: Month, j: int)
    requires 0 <= j < 4
    ensures var d := MonthRow(month)[j];
      && (d.cardType == Gwang <==> j == 0 && (month == 1 || month == 3 || month == 8 || month == 11 || month == 12))
      && (d.cardType == Pi <==> j >= 2 && !(month == 12 && j == 2))
      && (d.cardType != Pi ==> d.points == 0)
      && (d.cardType == Pi ==> d.points == if (month == 11 && j == 2) || (month == 12 && j == 3) then 2 else 1)
      && (d.subType == Some(SsangPi) <==> (month == 11 && j == 2) || (month == 12 && j == 3))
  {
  }

  /** The rows that carry a combination subtype, and the card type each of them has. */
  lemma RowSubTypes(month: Month, j: int)
    requires 0 <= j < 4
    ensures var d := MonthRow(month)[j];
      && (d.subType == Some(Godori) <==> (j == 0 && (month == 2 || month == 4)) || (month == 8 && j == 1))
      && (d.subType == Some(Godori) ==> d.cardType == Animal)
      && (d.subType == Some(Hongdan) <==> (j == 1 && 1 <= month <= 3) || (month == 12 && j == 2))
      && (d.subType == Some(Hongdan) ==> d.cardType == Tti)
      && (d.subType == Some(Cheongdan) <==> j == 1 && (month == 6 || month == 9 || month == 10))
      && (d.subType == Some(Cheongdan) ==> d.cardType == Tti)
      && (d.subType == Some(Chodan) <==> j == 1 && (month == 4 || month == 5 || month == 7))
      && (d.subType == Some(Chodan) ==> d.cardType == Tti)
  {
  }

  /** Deck position `k` holds row `k % 4` of month `k / 4 + 1`. */
  lemma DeckRowAt(k: int) returns (month: Month, j: int)
    requires 0 <= k < 48
    ensures 0 <= j < 4 && k == 4 * (month - 1) + j
    ensures CreateDeck()[k] == MakeCard(MonthRow(month)[j])
    ensures CreateDeck()[k].month == month && CreateDeck()[k].index == j + 1
  {
    DeckCardAt(k);
    month, j := k / 4 + 1, k % 4;
  }

  /** Which deck position holds which kind of card, read off the month rows. */
  lemma DeckKinds(k: int)
    requires 0 <= k < 48
    ensures var c := CreateDeck()[k];
      && (c.cardType == Gwang <==> k in {0, 8, 28, 40, 44})
      && (c.cardType == Pi <==> k % 4 >= 2 && k != 46)
      && (c.cardType != Pi ==> c.points == 0)
      && (c.cardType == Pi ==> c.points == if k == 42 || k == 47 then 2 else 1)
      && (c.subType == Some(SsangPi) <==> k == 42 || k == 47)
  {
    var m, j := DeckRowAt(k);
    RowKinds(m, j);
  }

  lemma FindCardsByMonthSnoc(cards: seq<Card>, month: Month, n: int)
    requires 0 <= n < |cards|
    ensures FindCardsByMonth(cards[..n + 1], month) ==
      FindCardsByMonth(cards[..n], month) + (if cards[n].month == month then [cards[n]] else [])
  {
    FilterSnoc(cards, (c: Card) => c.month == month, n);
  }

  lemma FilterByTypeSnoc(cards: seq<Card>, t: CardType, n: int)
    requires 0 <= n < |cards|
    ensures FilterByType(cards[..n + 1], t) ==
      FilterByType(cards[..n], t) + (if cards[n].cardType == t then [cards[n]] else [])
  {
    FilterSnoc(cards, (c: Card) => c.cardType == t, n);
  }

  /** The layout `createDeck` produces: four cards per month, months in order. */
  predicate MonthBlocks(deck: seq<Card>)
  {
    |deck| == 48 && forall k :: 0 <= k < 48 ==> deck[k].month == k / 4 + 1
  }

  /** ... the gwang cards at positions 0, 8, 28, 40 and 44 ... */
  predicate GwangAt(deck: seq<Card>)
  {
    |deck| == 48 && forall k :: 0 <= k < 48 ==> (deck[k].cardType == Gwang <==> k == 0 || k == 8 || k == 28 || k == 40 || k == 44)
  }

  /** ... and the pi cards at positions 2 and 3 of each month except 46, the ssang-pi at 42 and 47 worth 2. */
  predicate PiAt(deck: seq<Card>)
  {
    |deck| == 48 &&
    forall k :: 0 <= k < 48 ==>
      (deck[k].cardType == Pi <==> k % 4 >= 2 && k != 46) &&
      (deck[k].cardType == Pi ==> deck[k].points == if k == 42 || k == 47 then 2 else 1)
  }

  lemma DeckLayout()
    ensures MonthBlocks(CreateDeck()) && GwangAt(CreateDeck()) && PiAt(CreateDeck())
  {
    var deck := CreateDeck();
    forall k | 0 <= k < 48
      ensures (deck[k].cardType == Gwang <==> k == 0 || k == 8 || k == 28 || k == 40 || k == 44)
      ensures (deck[k].cardType == Pi <==> k % 4 >= 2 && k != 46)
      ensures deck[k].cardType == Pi ==> deck[k].points == if k == 42 || k == 47 then 2 else 1
    {
      DeckKinds(k);
    }
  }

  /** The cards of `month` among the first `n` deck cards: those of its block that lie below `n`. */
  lemma {:induction false} MonthCountBelow(deck: seq<Card>, month: Month, n: int)
    requires MonthBlocks(deck) && 0 <= n <= 48
    ensures var below := n - 4 * (month - 1);
      |FindCardsByMonth(deck[..n], month)| == if below <= 0 then 0 else if below >= 4 then 4 else below
  {
    if n > 0 {
      MonthCountBelow(deck, month, n - 1);
      FindCardsByMonthSnoc(deck, month, n - 1);
    }
  }

  /** Every month contributes exactly four cards to the deck. */
  lemma DeckFourPerMonth(month: Month)
    ensures |FindCardsByMonth(CreateDeck(), month)| == 4
  {
    DeckLayout();
    FourPerMonth(CreateDeck(), month);
  }

  lemma FourPerMonth(deck: seq<Card>, month: Month)
    requires MonthBlocks(deck)
    ensures |FindCardsByMonth(deck, month)| == 4
  {
    MonthCountBelow(deck, month, 48);
    assert deck[..48] == deck;
  }

  /** The gwang cards among the first `n` deck cards: positions 0, 8, 28, 40 and 44 lie below `n`. */
  lemma {:induction false} GwangCountBelow(deck: seq<Card>, n: int)
    requires GwangAt(deck) && 0 <= n <= 48
    ensures |FilterByType(deck[..n], Gwang)| ==
      (if n > 0 then 1 else 0) + (if n > 8 then 1 else 0) + (if n > 28 then 1 else 0) +
      (if n > 40 then 1 else 0) + (if n > 44 then 1 else 0)
  {
    if n > 0 {
      GwangCountBelow(deck, n - 1);
      FilterByTypeSnoc(deck, Gwang, n - 1);
    }
  }

  /** Exactly five gwang cards. */
  lemma DeckGwangCount()
    ensures |FilterByType(CreateDeck(), Gwang)| == 5
  {
    DeckLayout();
    FiveGwang(CreateDeck());
  }

  lemma FiveGwang(deck: seq<Card>)
    requires GwangAt(deck)
    ensures |FilterByType(deck, Gwang)| == 5
  {
    GwangCountBelow(deck, 48);
    assert deck[..48] == deck;
  }

  /** The gwang cards are the first cards of exactly the months in `GWANG_MONTHS`. */
  lemma DeckGwangMonths()
    ensures forall c :: c in CreateDeck() ==> (c.cardType == Gwang <==> c.index == 1 && c.month in GWANG_MONTHS)
  {
    var deck := CreateDeck();
    forall c | c in deck ensures c.cardType == Gwang <==> c.index == 1 && c.month in GWANG_MONTHS {
      var k :| 0 <= k < 48 && deck[k] == c;
      DeckKinds(k);
      assert c.month == k / 4 + 1 && c.index == k % 4 + 1;
    }
  }

  /** The pi cards among the first `n` deck cards: positions 2 and 3 of each month, except 46. */
  lemma {:induction false} PiCountBelow(deck: seq<Card>, n: int)
    requires PiAt(deck) && 0 <= n <= 48
    ensures |FilterByType(deck[..n], Pi)| == PiPositionsBelow(n)
  {
    if n > 0 {
      var k := n - 1;
      PiCountBelow(deck, k);
      FilterByTypeSnoc(deck, Pi, k);
      PiPositionsStep(k);
    }
  }

  /** How many of the positions 0 .. n-1 are pi positions (2 and 3 of each month, except 46). */
  function PiPositionsBelow(n: int): int
  {
    2 * (n / 4) + (if n % 4 == 3 then 1 else 0) - (if n > 46 then 1 else 0)
  }

  lemma PiPositionsStep(k: int)
    requires 0 <= k < 48
    ensures PiPositionsBelow(k + 1) == PiPositionsBelow(k) + if k % 4 >= 2 && k != 46 then 1 else 0
  {
    var q, r := k / 4, k % 4;
    assert k == 4 * q + r && 0 <= r < 4;
    assert (k + 1) / 4 == if r == 3 then q + 1 else q;
    assert (k + 1) % 4 == if r == 3 then 0 else r + 1;
  }

  /** Their points: one per pi card, plus one more for each ssang-pi (positions 42 and 47). */
  lemma {:induction false} PiPointsBelow(deck: seq<Card>, n: int)
    requires PiAt(deck) && 0 <= n <= 48
    ensures SumPoints(FilterByType(deck[..n], Pi)) ==
      |FilterByType(deck[..n], Pi)| + (if n > 42 then 1 else 0) + (if n > 47 then 1 else 0)
  {
    if n > 0 {
      var k := n - 1;
      PiPointsBelow(deck, k);
      var prev := FilterByType(deck[..k], Pi);
      FilterByTypeSnoc(deck, Pi, k);
      var extra := if k == 42 || k == 47 then 1 else 0;
      if deck[k].cardType == Pi {
        var next := prev + [deck[k]];
        assert FilterByType(deck[..n], Pi) == next;
        assert next[..|prev|] == prev;
        assert SumPoints(next) == SumPoints(prev) + deck[k].points;
        assert deck[k].points == 1 + extra;
        assert |next| == |prev| + 1;
      } else {
        assert FilterByType(deck[..n], Pi) == prev;
        assert extra == 0;
      }
    }
  }

  lemma PiPositionsAll()
    ensures PiPositionsBelow(48) == 23
  {
  }

  /** 23 pi cards. */
  lemma DeckPiCount()
    ensures |FilterByType(CreateDeck(), Pi)| == 23
  {
    DeckLayout();
    PiTotals(CreateDeck());
  }

  lemma PiTotals(deck: seq<Card>)
    requires PiAt(deck)
    ensures |FilterByType(deck, Pi)| == 23
    ensures SumPoints(FilterByType(deck, Pi)) == 25
  {
    PiCountBelow(deck, 48);
    PiPointsBelow(deck, 48);
    PiPositionsAll();
    assert deck[..48] == deck;
  }

  /** The pi cards are worth 25 points together: the two ssang-pi count double. */
  lemma DeckPiPoints()
    ensures SumPoints(FilterByType(CreateDeck(), Pi)) == 25
  {
    DeckLayout();
    PiTotals(CreateDeck());
  }

  /** Non-pi cards are worth 0; pi cards 1, except the ssang-pi 11-3 and 12-4, worth 2. */
  lemma DeckPoints()
    ensures forall c :: c in CreateDeck() && c.cardType != Pi ==> c.points == 0
    ensures forall c :: c in CreateDeck() && c.cardType == Pi ==>
      c.points == if c.id == "11-3" || c.id == "12-4" then 2 else 1
  {
    var deck := CreateDeck();
    forall c | c in deck ensures (c.cardType != Pi ==> c.points == 0) &&
      (c.cardType == Pi ==> c.points == if c.id == "11-3" || c.id == "12-4" then 2 else 1)
    {
      var k :| 0 <= k < 48 && deck[k] == c;
      DeckKinds(k);
      CardIdInjective(c.month, c.index, 11, 3);
      CardIdInjective(c.month, c.index, 12, 4);
      assert CardId(11, 3) == "11-3" && CardId(12, 4) == "12-4";
    }
  }

  lemma CombinationIds()
    ensures GODORI_CARDS == [CardId(2, 1), CardId(4, 1), CardId(8, 2)]
    ensures HONGDAN_CARDS == [CardId(1, 2), CardId(2, 2), CardId(3, 2)]
    ensures CHEONGDAN_CARDS == [CardId(6, 2), CardId(9, 2), CardId(10, 2)]
    ensures CHODAN_CARDS == [CardId(4, 2), CardId(5, 2), CardId(7, 2)]
    ensures CardId(12, 3) == "12-3"
  {
  }

  /** A deck card's id is in a three-id list exactly when its (month, index) is one of the three. */
  lemma IdInTriple(c: Card, m1: Month, i1: CardIndex, m2: Month, i2: CardIndex, m3: Month, i3: CardIndex)
    requires c.id == CardId(c.month, c.index)
    ensures c.id in [CardId(m1, i1), CardId(m2, i2), CardId(m3, i3)] <==>
      (c.month == m1 && c.index == i1) || (c.month == m2 && c.index == i2) || (c.month == m3 && c.index == i3)
  {
    CardIdInjective(c.month, c.index, m1, i1);
    CardIdInjective(c.month, c.index, m2, i2);
    CardIdInjective(c.month, c.index, m3, i3);
  }

  /** `GODORI_CARDS` names exactly the godori animals. */
  lemma GodoriConsistent()
    ensures forall c :: c in CreateDeck() ==>
      (c.id in GODORI_CARDS <==> c.subType == Some(Godori)) && (c.subType == Some(Godori) ==> c.cardType == Animal)
  {
    var deck := CreateDeck();
    CombinationIds();
    forall c | c in deck ensures (c.id in GODORI_CARDS <==> c.subType == Some(Godori)) && (c.subType == Some(Godori) ==> c.cardType == Animal) {
      var k :| 0 <= k < 48 && deck[k] == c;
      var m, j := DeckRowAt(k);
      RowSubTypes(m, j);
      IdInTriple(c, 2, 1, 4, 1, 8, 2);
    }
  }

  /** `HONGDAN_CARDS` names the hongdan ribbons except 12-3, which carries the subtype but is left out of the set. */
  lemma HongdanConsistent()
    ensures forall c :: c in CreateDeck() ==>
      (c.id in HONGDAN_CARDS <==> c.subType == Some(Hongdan) && c.id != "12-3") && (c.subType == Some(Hongdan) ==> c.cardType == Tti)
    ensures exists c :: c in CreateDeck() && c.id == "12-3" && c.cardType == Tti && c.subType == Some(Hongdan)
  {
    var deck := CreateDeck();
    CombinationIds();
    forall c | c in deck ensures (c.id in HONGDAN_CARDS <==> c.subType == Some(Hongdan) && c.id != "12-3") && (c.subType == Some(Hongdan) ==> c.cardType == Tti) {
      var k :| 0 <= k < 48 && deck[k] == c;
      var m, j := DeckRowAt(k);
      RowSubTypes(m, j);
      IdInTriple(c, 1, 2, 2, 2, 3, 2);
      CardIdInjective(c.month, c.index, 12, 3);
    }
    DeckCardAt(46);
    assert deck[46].id == "12-3";
  }

  /** `CHEONGDAN_CARDS` names exactly the cheongdan ribbons. */
  lemma CheongdanConsistent()
    ensures forall c :: c in CreateDeck() ==>
      (c.id in CHEONGDAN_CARDS <==> c.subType == Some(Cheongdan)) && (c.subType == Some(Cheongdan) ==> c.cardType == Tti)
  {
    var deck := CreateDeck();
    CombinationIds();
    forall c | c in deck ensures (c.id in CHEONGDAN_CARDS <==> c.subType == Some(Cheongdan)) && (c.subType == Some(Cheongdan) ==> c.cardType == Tti) {
      var k :| 0 <= k < 48 && deck[k] == c;
      var m, j := DeckRowAt(k);
      RowSubTypes(m, j);
      IdInTriple(c, 6, 2, 9, 2, 10, 2);
    }
  }

  /** `CHODAN_CARDS` names exactly the chodan ribbons. */
  lemma ChodanConsistent()
    ensures forall c :: c in CreateDeck() ==>
      (c.id in CHODAN_CARDS <==> c.subType == Some(Chodan)) && (c.subType == Some(Chodan) ==> c.cardType == Tti)
  {
    var deck := CreateDeck();
    CombinationIds();
    forall c | c in deck ensures (c.id in CHODAN_CARDS <==> c.subType == Some(Chodan)) && (c.subType == Some(Chodan) ==> c.cardType == Tti) {
      var k :| 0 <= k < 48 && deck[k] == c;
      var m, j := DeckRowAt(k);
      RowSubTypes(m, j);
      IdInTriple(c, 4, 2, 5, 2, 7, 2);
    }
  }
}
