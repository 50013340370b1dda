/**
 * A move followed by taking its captures, in the order the game board calls the engine: `playCard` or
 * `drawCard`, then `captureCards` on the cards the move returned. Over the two calls every card of the
 * game stays in exactly one place, unless the move left its card in no zone.
 */
module Round {
  import opened Wrappers
  import opened Types
  import opened Zones
  import opened Play
  import opened Capture

  /**
   * `playCard` and then `captureCards` on its captured cards. When the played card was in the hand and the
   * hand and field carry distinct ids, the cards of the game are conserved whenever the play captured or
   * laid down its card. Otherwise (two matches and no valid target, or more than three matches) exactly
   * the played card is out of every zone.
   */
  method PlayAndCapture(gameState: GameState, playerId: string, card: Card, targetCardId: Option<string>)
    returns (state: GameState, r: PlayResult)
    requires HasPlayer(gameState, playerId)
    ensures r.matchingCards == FindMatchingCards(gameState.field, card.month)
    ensures var m := FindMatchingCards(gameState.field, card.month);
            var hand := gameState.players[PlayerIndex(gameState, playerId)].hand;
            card in hand && DistinctIds(hand) && DistinctIds(gameState.field) ==>
              if |m| <= 1 || |m| == 3 || (|m| == 2 && Truthy(targetCardId) && FindById(m, targetCardId.value).Some?)
              then AllCards(state) == AllCards(gameState)
              else AllCards(state) + multiset{card} == AllCards(gameState)
    ensures r.needsSelection <==> |FindMatchingCards(gameState.field, card.month)| == 2 && !Truthy(targetCardId)
    ensures r.needsSelection ==> state.selectedCard == Some(card)
  {
    r := PlayCard(gameState, playerId, card, targetCardId);
    ghost var i := PlayerIndex(gameState, playerId);
    assert r.newState.players[i].id == playerId;
    ghost var hand := gameState.players[i].hand;
    ghost var before := AllCards(gameState);
    ghost var played := AllCards(r.newState);
    ghost var conserved := r.capturedCards != [] || r.matchingCards == [];
    ghost var held := card in hand && DistinctIds(hand) && DistinctIds(gameState.field);
    assert held && conserved ==> played + multiset(r.capturedCards) == before;
    assert held && !conserved ==> played + multiset{card} == before && r.capturedCards == [];
    state := CaptureCards(r.newState, playerId, r.capturedCards);
    assert AllCards(state) == played + multiset(r.capturedCards);
    if !conserved {
      assert multiset(r.capturedCards) == multiset{};
      assert AllCards(state) == played;
    }
  }

  /**
   * `drawCard` and then `captureCards` on its captured cards, for a player at the table. With distinct ids
   * on the field, the cards of the game are conserved whenever the drawn card was captured or laid down, or
   * the deck was empty. Otherwise (two matches, or more than three) exactly the drawn card is out of every
   * zone; with two matches it waits as the selected card.
   */
  method DrawAndCapture(gameState: GameState, playerId: string) returns (state: GameState, r: DrawResult)
    requires HasPlayer(gameState, playerId)
    ensures gameState.deck == [] ==> AllCards(state) == AllCards(gameState)
    ensures gameState.deck != [] ==> r.matchingCards == FindMatchingCards(gameState.field, gameState.deck[0].month)
    ensures gameState.deck != [] && DistinctIds(gameState.field) ==>
              var m := FindMatchingCards(gameState.field, gameState.deck[0].month);
              if |m| <= 1 || |m| == 3 then AllCards(state) == AllCards(gameState)
              else AllCards(state) + multiset{gameState.deck[0]} == AllCards(gameState)
    ensures r.needsSelection <==>
              gameState.deck != [] && |FindMatchingCards(gameState.field, gameState.deck[0].month)| == 2
    ensures r.needsSelection ==> state.selectedCard == Some(gameState.deck[0])
  {
    r := DrawCard(gameState, playerId);
    ghost var played := AllCards(r.newState);
    state := CaptureCards(r.newState, playerId, r.capturedCards);
    assert AllCards(state) == played + multiset(r.capturedCards);
    if r.capturedCards == [] {
      assert multiset(r.capturedCards) == multiset{};
      assert AllCards(state) == played;
    }
  }
}
