/**
 * Playing a card and drawing from the deck (canPlayCard, findMatchingCards, playCard and drawCard of
 * src/game/engine.ts). Every transition takes a game state and returns a new one (the source deep-copies
 * its argument before changing it), so each is a method over `GameState` values whose contract states the
 * whole new state and what it does to the cards of the game.
 */
module Play {
  import opened Wrappers
  import opened Types
  import opened Cards
  import opened Zones
  import opened Bags

  /**
   * `canPlayCard`: only the player whose turn it is, only while cards are being played, and only a card
   * whose id is in that player's hand. The player is looked up only once the first two tests pass.
   */
  function CanPlayCard(gameState: GameState, playerId: string, card: Card): (r: bool)
    requires gameState.currentTurn == playerId && gameState.phase == Playing ==> HasPlayer(gameState, playerId)
    ensures r <==> gameState.currentTurn == playerId && gameState.phase == Playing &&
                   exists c :: c in gameState.players[PlayerIndex(gameState, playerId)].hand && c.id == card.id
  {
    if gameState.currentTurn != playerId then false
    else if gameState.phase != Playing then false
    else
      var hand := gameState.players[PlayerIndex(gameState, playerId)].hand;
      assert HasId(hand, card.id) <==> exists c :: c in hand && c.id == card.id by {
        if HasId(hand, card.id) {
          var j :| 0 <= j < |hand| && hand[j].id == card.id;
          assert hand[j] in hand;
        }
      }
      HasId(hand, card.id)
  }

  /** `findMatchingCards`: the field cards of `month`, in field order. */
  function FindMatchingCards(field: seq<Card>, month: Month): (r: seq<Card>)
    ensures forall c :: multiset(r)[c] == if c.month == month then multiset(field)[c] else 0
    ensures forall k :: 0 <= k < |r| ==> r[k].month == month && r[k] in field
  {
    var r := FindCardsByMonth(field, month);
    assert forall k :: 0 <= k < |r| ==> r[k] in multiset(r);
    r
  }

  /** `if (targetCardId)`: an absent or empty id selects nothing. */
  function Truthy(id: Option<string>): (r: bool)
    ensures id.None? ==> !r
    ensures id == Some("") ==> !r
    ensures id.Some? && |id.value| > 0 ==> r
  {
    id.Some? && id.value != ""
  }

  // ---------------------------------------------------------------------------------------------
  // Card accounting for the moves that take cards off the field
  // ---------------------------------------------------------------------------------------------

  /** Taking one field card with the played card: the table loses `t` and the pair leaves together. */
  lemma TakeOne(field: seq<Card>, card: Card, t: Card)
    requires DistinctIds(field) && t in field
    ensures multiset(RemoveId(field, t.id)) + multiset([card, t]) == multiset(field) + multiset{card}
  {
    RemoveIdOne(field, t);
    assert multiset([card, t]) == multiset{card} + multiset{t};
  }

  /** Sweeping all matched field cards with the played card. */
  lemma TakeAll(field: seq<Card>, card: Card, ms: seq<Card>)
    requires DistinctIds(field) && multiset(ms) <= multiset(field)
    ensures multiset(RemoveIds(field, ms)) + multiset([card] + ms) == multiset(field) + multiset{card}
  {
    RemoveIdsAll(field, ms);
    assert multiset([card] + ms) == multiset{card} + multiset(ms);
  }

  /** Removing a card from a player's hand takes exactly that card out of the player's cards. */
  lemma PlayerLoses(p: Player, card: Card)
    requires card in p.hand && DistinctIds(p.hand)
    ensures PlayerCards(p.(hand := RemoveId(p.hand, card.id))) + multiset{card} == PlayerCards(p)
  {
    RemoveIdOne(p.hand, card);
  }

  /** The same, for one player at the table. */
  lemma HandLoses(ps: seq<Player>, i: nat, card: Card)
    requires i < |ps| && card in ps[i].hand && DistinctIds(ps[i].hand)
    ensures PlayersCards(ps[i := ps[i].(hand := RemoveId(ps[i].hand, card.id))]) + multiset{card} == PlayersCards(ps)
  {
    var q := ps[i].(hand := RemoveId(ps[i].hand, card.id));
    PlayerLoses(ps[i], card);
    PlayersCardsUpdate(ps, i, q);
    Shrink(PlayersCards(ps[i := q]), PlayersCards(ps), PlayerCards(ps[i]), PlayerCards(q), multiset{card});
  }

  /**
   * A move of `card` out of player `i`'s hand: if the field and the cards `moved` out of play together are
   * the old field plus `card`, no card of the game is created or lost.
   */
  lemma HandMove(s: GameState, t: GameState, i: nat, card: Card, moved: seq<Card>)
    requires i < |s.players| && card in s.players[i].hand && DistinctIds(s.players[i].hand)
    requires t.deck == s.deck
    requires t.players == s.players[i := s.players[i].(hand := RemoveId(s.players[i].hand, card.id))]
    requires multiset(t.field) + multiset(moved) == multiset(s.field) + multiset{card}
    ensures AllCards(t) + multiset(moved) == AllCards(s)
  {
    HandLoses(s.players, i, card);
    Move(multiset(s.deck), multiset(s.field), multiset(t.field), PlayersCards(s.players), PlayersCards(t.players),
         multiset{card}, multiset(moved));
  }

  /** A move of the top deck card: the same accounting, with the deck losing its first card. */
  lemma DeckMove(s: GameState, t: GameState, moved: seq<Card>)
    requires s.deck != [] && t.deck == s.deck[1..] && t.players == s.players
    requires multiset(t.field) + multiset(moved) == multiset(s.field) + multiset{s.deck[0]}
    ensures AllCards(t) + multiset(moved) == AllCards(s)
  {
    assert s.deck == [s.deck[0]] + t.deck;
    assert multiset(s.deck) == multiset(t.deck) + multiset{s.deck[0]};
    MoveFirst(multiset(s.deck), multiset(t.deck), multiset(s.field), multiset(t.field), PlayersCards(s.players),
              multiset{s.deck[0]}, multiset(moved));
  }

  // ---------------------------------------------------------------------------------------------
  // Playing a card from the hand and drawing from the deck
  // ---------------------------------------------------------------------------------------------

  datatype PlayResult = PlayResult(newState: GameState, capturedCards: seq<Card>, needsSelection: bool,
                                   matchingCards: seq<Card>)

  /**
   * The field side of `playCard`: the played card is laid down, or captures the one match, the chosen one of
   * two, or all three. With two matches and no valid target, or more than three, the field stays as it was.
   */
  method PlayOnField(field: seq<Card>, card: Card, targetCardId: Option<string>)
    returns (newField: seq<Card>, capturedCards: seq<Card>, matchingCards: seq<Card>)
    ensures matchingCards == FindMatchingCards(field, card.month)
    ensures var m := matchingCards;
            |m| == 0 ==> newField == field + [card] && capturedCards == []
    ensures var m := matchingCards;
            |m| == 1 ==> newField == RemoveId(field, m[0].id) && capturedCards == [card, m[0]]
    ensures var m := matchingCards;
            |m| == 2 && Truthy(targetCardId) && FindById(m, targetCardId.value).Some? ==>
              var t := FindById(m, targetCardId.value).value;
              newField == RemoveId(field, t.id) && capturedCards == [card, t]
    ensures var m := matchingCards;
            |m| == 3 ==> newField == RemoveIds(field, m) && capturedCards == [card] + m
    ensures var m := matchingCards;
            (|m| == 2 && !(Truthy(targetCardId) && FindById(m, targetCardId.value).Some?)) || |m| > 3 ==>
              capturedCards == [] && newField == field
    ensures capturedCards == [] && |matchingCards| > 0 ==> newField == field
    ensures DistinctIds(field) && (capturedCards != [] || matchingCards == []) ==>
              multiset(newField) + multiset(capturedCards) == multiset(field) + multiset{card}
  {
    newField := field;
    matchingCards := FindMatchingCards(field, card.month);
    capturedCards := [];
    if |matchingCards| == 0 {
      newField := newField + [card];
    } else if |matchingCards| == 1 {
      capturedCards := [card, matchingCards[0]];
      if DistinctIds(field) {
        TakeOne(field, card, matchingCards[0]);
      }
      newField := RemoveId(newField, matchingCards[0].id);
    } else if |matchingCards| == 2 {
      if Truthy(targetCardId) {
        var targetCard := FindById(matchingCards, targetCardId.value);
        if targetCard.Some? {
          capturedCards := [card, targetCard.value];
          if DistinctIds(field) {
            TakeOne(field, card, targetCard.value);
          }
          newField := RemoveId(newField, targetCard.value.id);
        }
      }
    } else if |matchingCards| == 3 {
      capturedCards := [card] + matchingCards;
      if DistinctIds(field) {
        TakeAll(field, card, matchingCards);
      }
      newField := RemoveIds(newField, matchingCards);
    }
  }

  /**
   * `playCard`. Every card with the played card's id leaves the hand. With no field card of its month it is
   * laid on the field; with one it captures it; with two it captures the chosen target, or asks for a choice
   * when no target is given; with three it sweeps them all. A target that is not among the two matches, and
   * more than three matches, leave the played card nowhere: it is out of the hand and on no pile.
   */
  method PlayCard(gameState: GameState, playerId: string, card: Card, targetCardId: Option<string>)
    returns (r: PlayResult)
    requires HasPlayer(gameState, playerId)
    ensures r.matchingCards == FindMatchingCards(gameState.field, card.month)
    ensures var i := PlayerIndex(gameState, playerId);
            r.newState.players ==
              gameState.players[i := gameState.players[i].(hand := RemoveId(gameState.players[i].hand, card.id))]
    ensures var m := r.matchingCards;
            |m| == 0 ==> r.newState.field == gameState.field + [card] && r.capturedCards == []
    ensures var m := r.matchingCards;
            |m| == 1 ==> r.newState.field == RemoveId(gameState.field, m[0].id) && r.capturedCards == [card, m[0]]
    ensures var m := r.matchingCards;
            |m| == 2 && Truthy(targetCardId) && FindById(m, targetCardId.value).Some? ==>
              var t := FindById(m, targetCardId.value).value;
              r.newState.field == RemoveId(gameState.field, t.id) && r.capturedCards == [card, t]
    ensures var m := r.matchingCards;
            |m| == 3 ==> r.newState.field == RemoveIds(gameState.field, m) && r.capturedCards == [card] + m
    ensures r.needsSelection <==> |r.matchingCards| == 2 && !Truthy(targetCardId)
    ensures r.needsSelection ==>
              r.newState.selectedCard == Some(card) && r.newState.matchingCards == Some(r.matchingCards)
    ensures !r.needsSelection ==>
              r.newState.selectedCard == gameState.selectedCard && r.newState.matchingCards == gameState.matchingCards
    ensures var m := r.matchingCards;
            (|m| == 2 && !(Truthy(targetCardId) && FindById(m, targetCardId.value).Some?)) || |m| > 3 ==>
              r.capturedCards == [] && r.newState.field == gameState.field
    ensures r.capturedCards == [] && |r.matchingCards| > 0 ==> r.newState.field == gameState.field
    ensures r.newState == gameState.(players := r.newState.players, field := r.newState.field,
                                     selectedCard := r.newState.selectedCard, matchingCards := r.newState.matchingCards)
    ensures var hand := gameState.players[PlayerIndex(gameState, playerId)].hand;
            card in hand && DistinctIds(hand) && DistinctIds(gameState.field) ==>
              if r.capturedCards != [] || r.matchingCards == [] then
                AllCards(r.newState) + multiset(r.capturedCards) == AllCards(gameState)
              else
                AllCards(r.newState) + multiset{card} == AllCards(gameState)
  {
    var state := gameState;
    var i := PlayerIndex(state, playerId);
    var player := state.players[i];
    player := player.(hand := RemoveId(player.hand, card.id));
    state := state.(players := state.players[i := player]);

    var field, capturedCards, matchingCards := PlayOnField(state.field, card, targetCardId);
    state := state.(field := field);
    var needsSelection := false;
    if |matchingCards| == 2 && !Truthy(targetCardId) {
      needsSelection := true;
      state := state.(selectedCard := Some(card), matchingCards := Some(matchingCards));
    }

    r := PlayResult(state, capturedCards, needsSelection, matchingCards);
    if card in gameState.players[i].hand && DistinctIds(gameState.players[i].hand) && DistinctIds(gameState.field) {
      ghost var moved := if capturedCards != [] || matchingCards == [] then capturedCards else [card];
      HandMove(gameState, state, i, card, moved);
    }
  }


  datatype DrawResult = DrawResult(newState: GameState, drawnCard: Option<Card>, capturedCards: seq<Card>,
                                   needsSelection: bool, matchingCards: seq<Card>)

  /**
   * `drawCard`: turns over the top card of the deck and settles it against the field like a played card,
   * except that two matches always ask for a choice. An empty deck changes nothing. The player id is not
   * consulted.
   */
  method DrawCard(gameState: GameState, playerId: string) returns (r: DrawResult)
    ensures gameState.deck == [] ==>
              r == DrawResult(gameState, None, [], false, [])
    ensures gameState.deck != [] ==>
              r.drawnCard == Some(gameState.deck[0]) && r.newState.deck == gameState.deck[1..] &&
              r.matchingCards == FindMatchingCards(gameState.field, gameState.deck[0].month)
    ensures var m := r.matchingCards;
            gameState.deck != [] && |m| == 0 ==>
              r.newState.field == gameState.field + [gameState.deck[0]] && r.capturedCards == []
    ensures var m := r.matchingCards;
            gameState.deck != [] && |m| == 1 ==>
              r.newState.field == RemoveId(gameState.field, m[0].id) && r.capturedCards == [gameState.deck[0], m[0]]
    ensures var m := r.matchingCards;
            gameState.deck != [] && |m| == 3 ==>
              r.newState.field == RemoveIds(gameState.field, m) && r.capturedCards == [gameState.deck[0]] + m
    ensures r.needsSelection <==> gameState.deck != [] && |r.matchingCards| == 2
    ensures r.needsSelection ==>
              r.newState.selectedCard == r.drawnCard && r.newState.matchingCards == Some(r.matchingCards)
    ensures !r.needsSelection ==>
              r.newState.selectedCard == gameState.selectedCard && r.newState.matchingCards == gameState.matchingCards
    ensures gameState.deck != [] && (|r.matchingCards| == 2 || |r.matchingCards| > 3) ==>
              r.capturedCards == [] && r.newState.field == gameState.field
    ensures r.capturedCards == [] && |r.matchingCards| > 0 ==> r.newState.field == gameState.field
    ensures r.newState == gameState.(deck := r.newState.deck, field := r.newState.field,
                                     selectedCard := r.newState.selectedCard, matchingCards := r.newState.matchingCards)
    ensures gameState.deck != [] && DistinctIds(gameState.field) ==>
              if r.capturedCards != [] || r.matchingCards == [] then
                AllCards(r.newState) + multiset(r.capturedCards) == AllCards(gameState)
              else
                AllCards(r.newState) + multiset{gameState.deck[0]} == AllCards(gameState)
  {
    var state := gameState;
    if |state.deck| == 0 {
      return DrawResult(state, None, [], false, []);
    }
    var drawnCard := state.deck[0];
    state := state.(deck := state.deck[1..]);

    var matchingCards := FindMatchingCards(state.field, drawnCard.month);
    var capturedCards: seq<Card> := [];
    var needsSelection := false;
    ghost var moved: seq<Card> := [drawnCard];

    if |matchingCards| == 0 {
      state := state.(field := state.field + [drawnCard]);
      moved := [];
    } else if |matchingCards| == 1 {
      capturedCards := [drawnCard, matchingCards[0]];
      if DistinctIds(gameState.field) {
        TakeOne(gameState.field, drawnCard, matchingCards[0]);
      }
      state := state.(field := RemoveId(state.field, matchingCards[0].id));
      moved := capturedCards;
    } else if |matchingCards| == 2 {
      needsSelection := true;
      state := state.(selectedCard := Some(drawnCard), matchingCards := Some(matchingCards));
    } else if |matchingCards| == 3 {
      capturedCards := [drawnCard] + matchingCards;
      if DistinctIds(gameState.field) {
        TakeAll(gameState.field, drawnCard, matchingCards);
      }
      state := state.(field := RemoveIds(state.field, matchingCards));
      moved := capturedCards;
    }

    r := DrawResult(state, Some(drawnCard), capturedCards, needsSelection, matchingCards);
    if DistinctIds(gameState.field) {
      DeckMove(gameState, state, moved);
    }
  }
}
