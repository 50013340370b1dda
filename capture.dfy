/** Taking captured cards onto a player's piles (captureCards of src/game/engine.ts). */
module Capture {
  import opened Types
  import opened Cards
  import opened Zones
  import opened Bags

  /** The piles after `cards` are pushed, in order, each onto the pile of its card type. */
  function CapturedWith(c: Captured, cards: seq<Card>): Captured
  {
    Captured(c.gwang + FilterByType(cards, Gwang), c.tti + FilterByType(cards, Tti),
             c.animal + FilterByType(cards, Animal), c.pi + FilterByType(cards, Pi))
  }

  /** Every card has exactly one type, so the four type filters split a list without loss. */
  lemma TypePartition(cards: seq<Card>)
    ensures multiset(FilterByType(cards, Gwang)) + multiset(FilterByType(cards, Tti)) +
            multiset(FilterByType(cards, Animal)) + multiset(FilterByType(cards, Pi)) == multiset(cards)
  {
    var g, t, a, p := FilterByType(cards, Gwang), FilterByType(cards, Tti),
                      FilterByType(cards, Animal), FilterByType(cards, Pi);
    forall x
      ensures (multiset(g) + multiset(t) + multiset(a) + multiset(p))[x] == multiset(cards)[x]
    {
      var n := multiset(cards)[x];
      match x.cardType
      case Gwang =>
        assert multiset(g)[x] == n && multiset(t)[x] == 0 && multiset(a)[x] == 0 && multiset(p)[x] == 0;
      case Tti =>
        assert multiset(g)[x] == 0 && multiset(t)[x] == n && multiset(a)[x] == 0 && multiset(p)[x] == 0;
      case Animal =>
        assert multiset(g)[x] == 0 && multiset(t)[x] == 0 && multiset(a)[x] == n && multiset(p)[x] == 0;
      case Pi =>
        assert multiset(g)[x] == 0 && multiset(t)[x] == 0 && multiset(a)[x] == 0 && multiset(p)[x] == n;
    }
  }

  /** Capturing adds exactly the captured cards to the player's piles. */
  lemma CapturedWithCards(c: Captured, cards: seq<Card>)
    ensures CapturedCards(CapturedWith(c, cards)) == CapturedCards(c) + multiset(cards)
  {
    TypePartition(cards);
    var g, t, a, p := FilterByType(cards, Gwang), FilterByType(cards, Tti),
                      FilterByType(cards, Animal), FilterByType(cards, Pi);
    var d := CapturedWith(c, cards);
    assert multiset(d.gwang) == multiset(c.gwang) + multiset(g);
    assert multiset(d.tti) == multiset(c.tti) + multiset(t);
    assert multiset(d.animal) == multiset(c.animal) + multiset(a);
    assert multiset(d.pi) == multiset(c.pi) + multiset(p);
    forall x
      ensures CapturedCards(d)[x] == (CapturedCards(c) + multiset(cards))[x]
    {
      assert (multiset(g) + multiset(t) + multiset(a) + multiset(p))[x] == multiset(cards)[x];
    }
  }

  lemma SumPointsSnoc(cards: seq<Card>, c: Card)
    ensures SumPoints(cards + [c]) == SumPoints(cards) + c.points
  {
    assert (cards + [c])[..|cards|] == cards;
  }

  /** The pile of type `t`. */
  function Pile(c: Captured, t: CardType): seq<Card>
  {
    match t
    case Gwang => c.gwang
    case Tti => c.tti
    case Animal => c.animal
    case Pi => c.pi
  }

  /** One card taken: pushed onto the pile of its type, and its points added to the running total if a pi. */
  function Place(p: Player, card: Card): Player
  {
    match card.cardType
    case Gwang => p.(captured := p.captured.(gwang := p.captured.gwang + [card]))
    case Tti => p.(captured := p.captured.(tti := p.captured.tti + [card]))
    case Animal => p.(captured := p.captured.(animal := p.captured.animal + [card]))
    case Pi => p.(captured := p.captured.(pi := p.captured.pi + [card]), totalPoints := p.totalPoints + card.points)
  }

  /** The cards taken one after another, in order. */
  function PlaceAll(p: Player, cards: seq<Card>): Player
  {
    if cards == [] then p else Place(PlaceAll(p, cards[..|cards| - 1]), cards[|cards| - 1])
  }

  /** Placing one more card of the list. */
  lemma PlaceAllSnoc(p: Player, cards: seq<Card>, k: nat)
    requires k < |cards|
    ensures PlaceAll(p, cards[..k + 1]) == Place(PlaceAll(p, cards[..k]), cards[k])
  {
    assert cards[..k + 1][..k] == cards[..k];
  }

  lemma PlacePile(p: Player, card: Card, t: CardType)
    ensures card.cardType == t ==> Pile(Place(p, card).captured, t) == Pile(p.captured, t) + [card]
    ensures card.cardType != t ==> Pile(Place(p, card).captured, t) == Pile(p.captured, t)
  {
  }

  lemma PlacePoints(p: Player, card: Card)
    ensures card.cardType == Pi ==> Place(p, card).totalPoints == p.totalPoints + card.points
    ensures card.cardType != Pi ==> Place(p, card).totalPoints == p.totalPoints
  {
  }

  /** Taking cards one by one leaves on each pile exactly the taken cards of its type, in order. */
  lemma {:induction false} PlaceAllPile(p: Player, cards: seq<Card>, t: CardType)
    ensures Pile(PlaceAll(p, cards).captured, t) == Pile(p.captured, t) + FilterByType(cards, t)
    decreases |cards|
  {
    if cards == [] {
      assert FilterByType(cards, t) == [];
    } else {
      var n := |cards| - 1;
      var before := PlaceAll(p, cards[..n]);
      PlaceAllPile(p, cards[..n], t);
      PlacePile(before, cards[n], t);
      FilterByTypeSnoc(cards, t, n);
      assert cards[..n + 1] == cards;
      if cards[n].cardType == t {
        assert FilterByType(cards, t) == FilterByType(cards[..n], t) + [cards[n]];
        AppendAssoc(Pile(p.captured, t), FilterByType(cards[..n], t), cards[n]);
      } else {
        assert FilterByType(cards, t) == FilterByType(cards[..n], t);
      }
    }
  }

  /** ... and adds to the running total exactly the points of the taken pi cards. */
  lemma {:induction false} PlaceAllPoints(p: Player, cards: seq<Card>)
    ensures PlaceAll(p, cards).totalPoints == p.totalPoints + SumPoints(FilterByType(cards, Pi))
    decreases |cards|
  {
    if cards == [] {
      assert FilterByType(cards, Pi) == [];
    } else {
      var n := |cards| - 1;
      var before := PlaceAll(p, cards[..n]);
      PlaceAllPoints(p, cards[..n]);
      PiPointsStep(cards, n);
      assert cards[..n + 1] == cards;
      assert PlaceAll(p, cards) == Place(before, cards[n]);
      PlacePoints(before, cards[n]);
    }
  }

  /** Taking cards changes nothing but the piles and the running total. */
  lemma {:induction false} PlaceAllKeeps(p: Player, cards: seq<Card>)
    ensures PlaceAll(p, cards) ==
              p.(captured := PlaceAll(p, cards).captured, totalPoints := PlaceAll(p, cards).totalPoints)
    decreases |cards|
  {
    if cards != [] {
      PlaceAllKeeps(p, cards[..|cards| - 1]);
    }
  }

  /** So taking cards one by one is `CapturedWith` on the piles. */
  lemma PlaceAllCaptures(p: Player, cards: seq<Card>)
    ensures PlaceAll(p, cards) == p.(captured := CapturedWith(p.captured, cards),
                                     totalPoints := p.totalPoints + SumPoints(FilterByType(cards, Pi)))
  {
    var q := PlaceAll(p, cards);
    PlaceAllPile(p, cards, Gwang);
    PlaceAllPile(p, cards, Tti);
    PlaceAllPile(p, cards, Animal);
    PlaceAllPile(p, cards, Pi);
    PlaceAllPoints(p, cards);
    PlaceAllKeeps(p, cards);
    assert q.captured == CapturedWith(p.captured, cards);
  }

  /** The pi total after one more card: it grows by the card's points exactly when the card is a pi. */
  lemma PiPointsStep(cards: seq<Card>, k: int)
    requires 0 <= k < |cards|
    ensures cards[k].cardType == Pi ==>
              SumPoints(FilterByType(cards[..k + 1], Pi)) == SumPoints(FilterByType(cards[..k], Pi)) + cards[k].points
    ensures cards[k].cardType != Pi ==>
              SumPoints(FilterByType(cards[..k + 1], Pi)) == SumPoints(FilterByType(cards[..k], Pi))
  {
    FilterByTypeSnoc(cards, Pi, k);
    if cards[k].cardType == Pi {
      assert FilterByType(cards[..k + 1], Pi) == FilterByType(cards[..k], Pi) + [cards[k]];
      SumPointsSnoc(FilterByType(cards[..k], Pi), cards[k]);
    } else {
      assert FilterByType(cards[..k + 1], Pi) == FilterByType(cards[..k], Pi);
    }
  }

  lemma AppendAssoc(a: seq<Card>, b: seq<Card>, x: Card)
    ensures (a + b) + [x] == a + (b + [x])
  {
  }

  /** Capturing adds exactly the captured cards to a player's cards. */
  lemma PlayerGains(p: Player, cards: seq<Card>)
    ensures PlayerCards(p.(captured := CapturedWith(p.captured, cards))) == PlayerCards(p) + multiset(cards)
  {
    CapturedWithCards(p.captured, cards);
  }

  /** Giving one player more cards adds exactly those cards to the game. */
  lemma PlayerGainConserves(s: GameState, t: GameState, i: nat, added: multiset<Card>)
    requires i < |s.players| && t.deck == s.deck && t.field == s.field
    requires |t.players| == |s.players| && t.players == s.players[i := t.players[i]]
    requires PlayerCards(t.players[i]) == PlayerCards(s.players[i]) + added
    ensures AllCards(t) == AllCards(s) + added
  {
    PlayersCardsUpdate(s.players, i, t.players[i]);
    Grow(PlayersCards(t.players), PlayersCards(s.players), PlayerCards(s.players[i]), PlayerCards(t.players[i]), added);
  }

  /** Capturing into one player's piles adds exactly the captured cards to the game. */
  lemma CaptureConserves(s: GameState, t: GameState, i: nat, cards: seq<Card>, points: int)
    requires i < |s.players| && t.deck == s.deck && t.field == s.field
    requires t.players == s.players[i := s.players[i].(captured := CapturedWith(s.players[i].captured, cards),
                                                       totalPoints := points)]
    ensures AllCards(t) == AllCards(s) + multiset(cards)
  {
    PlayerGains(s.players[i], cards);
    PlayerGainConserves(s, t, i, multiset(cards));
  }

  /** The player after taking `cards`: their piles extended as `CapturedWith` says, their pi points added. */
  function Captures(p: Player, cards: seq<Card>): Player
  {
    p.(captured := CapturedWith(p.captured, cards), totalPoints := p.totalPoints + SumPoints(FilterByType(cards, Pi)))
  }

  /**
   * `captureCards`: pushes each card onto the pile of its type, in the order given, and adds the points of
   * every pi card to the player's running pi total. The captured cards join the game's cards: they come
   * from the returned `capturedCards` of a play or draw, which had taken them out of play.
   */
  method CaptureCards(gameState: GameState, playerId: string, cards: seq<Card>) returns (state: GameState)
    requires HasPlayer(gameState, playerId)
    ensures var i := PlayerIndex(gameState, playerId);
            state == gameState.(players := gameState.players[i := Captures(gameState.players[i], cards)])
    ensures AllCards(state) == AllCards(gameState) + multiset(cards)
  {
    state := gameState;
    var i := PlayerIndex(state, playerId);
    var player := state.players[i];
    ghost var p0 := player;
    var k := 0;
    while k < |cards|
      invariant 0 <= k <= |cards|
      invariant player == PlaceAll(p0, cards[..k])
    {
      var card := cards[k];
      PlaceAllSnoc(p0, cards, k);
      match card.cardType {
        case Gwang =>
          player := player.(captured := player.captured.(gwang := player.captured.gwang + [card]));
        case Tti =>
          player := player.(captured := player.captured.(tti := player.captured.tti + [card]));
        case Animal =>
          player := player.(captured := player.captured.(animal := player.captured.animal + [card]));
        case Pi =>
          player := player.(captured := player.captured.(pi := player.captured.pi + [card]),
                            totalPoints := player.totalPoints + card.points);
      }
      k := k + 1;
    }
    assert cards[..k] == cards;
    PlaceAllCaptures(p0, cards);
    state := state.(players := state.players[i := player]);
    assert player == Captures(p0, cards);
    CaptureConserves(gameState, state, i, cards, player.totalPoints);
  }
}
