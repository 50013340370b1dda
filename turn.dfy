/**
 * The end of a turn and of the game: endTurn, declareGo, declareStop, checkGameEnd and handleDraw of
 * src/game/engine.ts, each a method over `GameState` values like the moves of the Play module.
 */
module Turn {
  import opened Wrappers
  import opened Types
  import opened Scoring
  import opened Zones

  /** `checkGameEnd`: the deck is empty and so is every hand. */
  function CheckGameEnd(gameState: GameState): (r: bool)
    ensures r <==> gameState.deck == [] &&
                   forall k :: 0 <= k < |gameState.players| ==> gameState.players[k].hand == []
  {
    if |gameState.deck| == 0 then
      forall k :: 0 <= k < |gameState.players| ==> |gameState.players[k].hand| == 0
    else
      false
  }

  /** At the end of the game, once no hand holds a card, every card is on the field or on a pile. */
  lemma GameEndCards(gameState: GameState)
    requires CheckGameEnd(gameState)
    ensures AllCards(gameState) == multiset(gameState.field) + CapturedOf(gameState.players)
  {
    EmptyHandsCards(gameState.players);
  }

  /** The captured piles of all players. */
  function CapturedOf(ps: seq<Player>): multiset<Card>
  {
    if ps == [] then multiset{} else CapturedOf(ps[..|ps| - 1]) + CapturedCards(ps[|ps| - 1].captured)
  }

  lemma {:induction false} EmptyHandsCards(ps: seq<Player>)
    requires forall k :: 0 <= k < |ps| ==> ps[k].hand == []
    ensures PlayersCards(ps) == CapturedOf(ps)
    decreases |ps|
  {
    if ps != [] {
      EmptyHandsCards(ps[..|ps| - 1]);
    }
  }

  /** The total of each player's captured cards, in seat order. */
  function BaseScores(ps: seq<Player>): (r: seq<int>)
    ensures |r| == |ps|
  {
    if ps == [] then [] else BaseScores(ps[..|ps| - 1]) + [TotalScore(ps[|ps| - 1].captured).totalScore]
  }

  /** The base score of a seat is the total of that player's captured cards. */
  lemma {:induction false} BaseAt(ps: seq<Player>, k: nat)
    requires k < |ps|
    ensures BaseScores(ps)[k] == TotalScore(ps[k].captured).totalScore
    decreases |ps|
  {
    if k < |ps| - 1 {
      BaseAt(ps[..|ps| - 1], k);
    }
  }

  /** Players with the same captured piles seat by seat have the same base scores. */
  lemma SameBases(ps: seq<Player>, qs: seq<Player>)
    requires |ps| == |qs| && forall k :: 0 <= k < |ps| ==> ps[k].captured == qs[k].captured
    ensures BaseScores(ps) == BaseScores(qs)
  {
    forall k | 0 <= k < |ps|
      ensures BaseScores(ps)[k] == BaseScores(qs)[k]
    {
      BaseAt(ps, k);
      BaseAt(qs, k);
    }
  }

  /**
   * `bases` holds each player's captured total, seat by seat. The totals are matched only where a player's
   * total is computed, so that the scoring rules stay out of the proofs that merely pass the totals along.
   */
  predicate IsBaseScores(ps: seq<Player>, bases: seq<int>)
  {
    |bases| == |ps| &&
    forall k {:trigger TotalScore(ps[k].captured)} :: 0 <= k < |ps| ==> bases[k] == TotalScore(ps[k].captured).totalScore
  }

  lemma BasesHold(ps: seq<Player>)
    ensures IsBaseScores(ps, BaseScores(ps))
  {
    forall k | 0 <= k < |ps|
      ensures BaseScores(ps)[k] == TotalScore(ps[k].captured).totalScore
    {
      BaseAt(ps, k);
    }
  }

  /** Every player's `score` set to the given total. */
  function Rescored(ps: seq<Player>, bases: seq<int>): (r: seq<Player>)
    requires |bases| == |ps|
    ensures |r| == |ps|
  {
    seq(|ps|, k requires 0 <= k < |ps| => ps[k].(score := bases[k]))
  }

  /** Each player's final score: the given total under their own go multiplier. */
  function Finals(gameState: GameState, bases: seq<int>): (r: seq<int>)
    requires |bases| == |gameState.players|
    ensures |r| == |gameState.players|
  {
    var ps := gameState.players;
    seq(|ps|, k requires 0 <= k < |ps| => FinalScore(bases[k], GoCountOf(gameState, ps[k].id)))
  }

  /** Every player's `score` set to the total of their captured cards. */
  function ScoredPlayers(ps: seq<Player>): (r: seq<Player>)
    ensures |r| == |ps|
  {
    Rescored(ps, BaseScores(ps))
  }

  /** Each player's final score: the total of their captured cards under their own go multiplier. */
  function FinalScores(gameState: GameState): (r: seq<int>)
    ensures |r| == |gameState.players|
  {
    Finals(gameState, BaseScores(gameState.players))
  }

  /** The running state of the winner search: the best score so far and the position holding it alone. */
  datatype Standing = Standing(top: Option<int>, leader: Option<nat>)

  /**
   * One step of the winner search of `endTurn`, at seat `k` with final score `v`: a higher score takes the
   * lead, an equal score leaves no one leading. `None` as the top is the search's starting value below every
   * score.
   */
  function Step(prev: Standing, v: int, k: nat): Standing
  {
    if prev.top.None? || v > prev.top.value then Standing(Some(v), Some(k))
    else if v == prev.top.value then Standing(prev.top, None)
    else prev
  }

  /** The winner search over the first `n` final scores, in seat order. */
  function TieBreakUpTo(finals: seq<int>, n: nat): (st: Standing)
    requires n <= |finals|
    ensures n > 0 ==> st.top.Some?
    ensures st.leader.Some? ==> st.leader.value < n
  {
    if n == 0 then Standing(None, None) else Step(TieBreakUpTo(finals, n - 1), finals[n - 1], n - 1)
  }

  /** The winner search over all final scores. */
  function TieBreak(finals: seq<int>): (st: Standing)
    ensures finals != [] ==> st.top.Some?
    ensures st.leader.Some? ==> st.leader.value < |finals|
  {
    TieBreakUpTo(finals, |finals|)
  }

  /** `v` is the highest of the first `n` scores. */
  predicate TopAmong(finals: seq<int>, n: nat, v: int)
    requires n <= |finals|
  {
    (forall k :: 0 <= k < n ==> finals[k] <= v) && exists k :: 0 <= k < n && finals[k] == v
  }

  /** Among the first `n` scores, position `w` has a score strictly above every other position's. */
  predicate UniqueTopAmong(finals: seq<int>, n: nat, w: int)
    requires n <= |finals|
  {
    0 <= w < n && forall j :: 0 <= j < n && j != w ==> finals[j] < finals[w]
  }

  /** `v` is the highest of the scores. */
  predicate IsTop(finals: seq<int>, v: int)
  {
    TopAmong(finals, |finals|, v)
  }

  /** Position `w` has a score strictly above every other position's. */
  predicate IsUniqueTop(finals: seq<int>, w: int)
  {
    UniqueTopAmong(finals, |finals|, w)
  }

  /** The winner search over a prefix finds its highest score, and a leader exactly when one seat holds it alone. */
  lemma {:induction false} TieBreakPrefix(finals: seq<int>, n: nat)
    requires n <= |finals|
    ensures n > 0 ==> TopAmong(finals, n, TieBreakUpTo(finals, n).top.value)
    ensures forall w :: TieBreakUpTo(finals, n).leader == Some(w) <==> UniqueTopAmong(finals, n, w)
  {
    if n > 0 {
      var m := n - 1;
      var prev := TieBreakUpTo(finals, m);
      var st := TieBreakUpTo(finals, n);
      TieBreakPrefix(finals, m);
      if prev.top.None? {
        assert m == 0;
      } else if finals[m] > prev.top.value {
        assert UniqueTopAmong(finals, n, m);
        forall w | 0 <= w < m
          ensures !UniqueTopAmong(finals, n, w)
        {
          assert finals[w] <= prev.top.value < finals[m];
        }
      } else if finals[m] == prev.top.value {
        var j :| 0 <= j < m && finals[j] == prev.top.value;
        forall w | 0 <= w < n
          ensures !UniqueTopAmong(finals, n, w)
        {
          if w == m {
            assert finals[j] == finals[m] && j != m;
          } else {
            assert finals[w] <= finals[m];
          }
        }
      } else {
        var j :| 0 <= j < m && finals[j] == prev.top.value;
        forall w
          ensures st.leader == Some(w) <==> UniqueTopAmong(finals, n, w)
        {
          if w == m {
            assert finals[j] > finals[m];
          } else if 0 <= w < m {
            if UniqueTopAmong(finals, n, w) {
              assert UniqueTopAmong(finals, m, w);
            }
            if UniqueTopAmong(finals, m, w) {
              assert finals[w] == prev.top.value;
            }
          }
        }
      }
    }
  }

  /**
   * The winner search finds the highest final score, and it names a leader exactly when one position holds
   * that score alone: a shared top score is a draw.
   */
  lemma TieBreakSpec(finals: seq<int>)
    ensures finals != [] ==> IsTop(finals, TieBreak(finals).top.value)
    ensures forall w :: TieBreak(finals).leader == Some(w) <==> IsUniqueTop(finals, w)
  {
    TieBreakPrefix(finals, |finals|);
  }

  /** `state.winner = winnerId || undefined`: the leader's id, unless there is no leader or the id is empty. */
  function WinnerId(players: seq<Player>, leader: Option<nat>): (w: Option<string>)
    ensures w.Some? ==> w.value != "" && leader.Some? && leader.value < |players| && players[leader.value].id == w.value
    ensures leader.Some? && leader.value < |players| && players[leader.value].id != "" ==>
              w == Some(players[leader.value].id)
    ensures leader.None? ==> w.None?
  {
    if leader.Some? && leader.value < |players| && players[leader.value].id != "" then
      Some(players[leader.value].id)
    else
      None
  }

  /** The event recorded at the end of the game: the winner's victory, or a draw. */
  function GameOverEvent(winner: Option<string>, top: int): Event
  {
    if winner.Some? then Victory(winner.value, top) else ExhaustedDraw
  }

  /** One seat of the game-end pass: the player's base score and their final score. */
  method RescoreSeat(state: GameState, ghost bases: seq<int>, k: nat) returns (base: int, finalScore: int)
    requires IsBaseScores(state.players, bases) && k < |state.players|
    ensures base == bases[k]
    ensures finalScore == FinalScore(base, GoCountOf(state, state.players[k].id))
  {
    var p := state.players[k];
    var ts := TotalScore(p.captured);
    base := ts.totalScore;
    finalScore := CalculateFinalScore(base, GoCountOf(state, p.id));
  }

  /**
   * The game-end pass of `endTurn` over the players in seating order, given every player's captured total
   * as `bases`: each player's score becomes that total, and the winner search of `TieBreak` runs over their
   * final scores.
   */
  method SettleScores(state: GameState, ghost bases: seq<int>)
    returns (players: seq<Player>, topScore: Option<int>, winnerIndex: Option<nat>)
    requires IsBaseScores(state.players, bases)
    ensures players == Rescored(state.players, bases)
    ensures Standing(topScore, winnerIndex) == TieBreak(Finals(state, bases))
  {
    winnerIndex := None;
    topScore := None;
    ghost var finals := Finals(state, bases);
    ghost var scored := Rescored(state.players, bases);
    players := state.players;
    var k := 0;
    while k < |players|
      invariant |players| == |state.players| && 0 <= k <= |players|
      invariant Standing(topScore, winnerIndex) == TieBreakUpTo(finals, k)
      invariant forall j :: 0 <= j < k ==> players[j] == scored[j]
      invariant forall j :: k <= j < |players| ==> players[j] == state.players[j]
    {
      var p := players[k];
      var base, finalScore := RescoreSeat(state, bases, k);
      if topScore.None? || finalScore > topScore.value {
        topScore := Some(finalScore);
        winnerIndex := Some(k);
      } else if finalScore == topScore.value {
        winnerIndex := None;
      }
      players := players[k := p.(score := base)];
      k := k + 1;
    }
    assert players == scored;
  }

  /**
   * The end of the game inside `endTurn`: every player is rescored, the highest final score is recorded,
   * its holder is the winner when no one else shares it, and the victory or the draw is announced.
   */
  method FinishGame(gameState: GameState) returns (state: GameState)
    requires |gameState.players| > 0
    ensures var st := TieBreak(FinalScores(gameState));
            var winner := WinnerId(gameState.players, st.leader);
            st.top.Some? &&
            state == gameState.(
              phase := Finished, players := ScoredPlayers(gameState.players),
              finalScore := st.top, winner := winner,
              specialEvents := gameState.specialEvents + [GameOverEvent(winner, st.top.value)],
              selectedCard := None, matchingCards := None)
  {
    state := gameState;
    BasesHold(state.players);
    var players, topScore, winnerIndex := SettleScores(state, BaseScores(state.players));
    state := state.(phase := Finished, players := players, finalScore := topScore);
    var winnerId := if winnerIndex.Some? && players[winnerIndex.value].id != "" then
                      Some(players[winnerIndex.value].id) else None;
    assert winnerId == WinnerId(gameState.players, winnerIndex);
    state := state.(winner := winnerId);
    if winnerId.Some? {
      state := state.(specialEvents := state.specialEvents + [Victory(winnerId.value, topScore.value)]);
    } else {
      state := state.(specialEvents := state.specialEvents + [ExhaustedDraw]);
    }
    state := state.(selectedCard := None, matchingCards := None);
  }

  /** Players differing only in their scores are rescored alike from the same totals. */
  lemma RescoredAlike(s: GameState, t: GameState, bases: seq<int>)
    requires t.goCount == s.goCount && |t.players| == |s.players| == |bases|
    requires forall k :: 0 <= k < |t.players| ==> t.players[k] == s.players[k].(score := t.players[k].score)
    ensures Rescored(t.players, bases) == Rescored(s.players, bases)
    ensures Finals(t, bases) == Finals(s, bases)
  {
    forall k | 0 <= k < |t.players|
      ensures Rescored(t.players, bases)[k] == Rescored(s.players, bases)[k]
      ensures Finals(t, bases)[k] == Finals(s, bases)[k]
    {
      assert t.players[k].(score := bases[k]) == s.players[k].(score := bases[k]);
    }
  }

  /** Rescoring one player first changes nothing at the end of the game: every score is recomputed. */
  lemma RescoredSame(s: GameState, t: GameState)
    requires t.goCount == s.goCount && |t.players| == |s.players|
    requires forall k :: 0 <= k < |t.players| ==> t.players[k] == s.players[k].(score := t.players[k].score)
    ensures ScoredPlayers(t.players) == ScoredPlayers(s.players)
    ensures FinalScores(t) == FinalScores(s)
    ensures forall leader :: WinnerId(t.players, leader) == WinnerId(s.players, leader)
  {
    SameBases(t.players, s.players);
    RescoredAlike(s, t, BaseScores(s.players));
    SameWinner(t.players, s.players);
  }

  /** Seats with the same ids name the same winner. */
  lemma SameWinner(ps: seq<Player>, qs: seq<Player>)
    requires |ps| == |qs| && forall k :: 0 <= k < |ps| ==> ps[k] == qs[k].(score := ps[k].score)
    ensures forall leader :: WinnerId(ps, leader) == WinnerId(qs, leader)
  {
    forall leader: Option<nat>
      ensures WinnerId(ps, leader) == WinnerId(qs, leader)
    {
      if leader.Some? && leader.value < |ps| {
        assert ps[leader.value].id == qs[leader.value].id;
      }
    }
  }

  datatype EndTurnResult = EndTurnResult(newState: GameState, canGoStop: bool, score: int, yakuList: seq<Yaku>)

  /**
   * `endTurn`. The player's captured cards are scored and the total becomes their `score`. They may choose
   * go or stop when the total reaches three points and either no go has been declared yet or the total
   * has risen since the last turn. When deck and hands are exhausted the game ends instead: every player's
   * score is refreshed, the highest final score is recorded, and its holder wins unless it is shared.
   * Otherwise the game waits for the go/stop choice, or passes the turn to the next seat.
   */
  method EndTurn(gameState: GameState, playerId: string) returns (r: EndTurnResult)
    requires HasPlayer(gameState, playerId)
    ensures var p := gameState.players[PlayerIndex(gameState, playerId)];
            r.score == TotalScore(p.captured).totalScore && r.yakuList == TotalScore(p.captured).yakuList
    ensures var i := PlayerIndex(gameState, playerId);
            var p := gameState.players[i];
            var total := TotalScore(p.captured).totalScore;
            var goCount := GoCountOf(gameState, playerId);
            !CheckGameEnd(gameState) ==>
              r.canGoStop == (total >= 3 && (goCount == 0 || total > p.score)) &&
              r.newState == gameState.(
                players := gameState.players[i := p.(score := total)],
                phase := if r.canGoStop then GoStop else gameState.phase,
                currentTurn := if r.canGoStop then gameState.currentTurn
                               else NextPlayerId(gameState.players, playerId),
                selectedCard := None, matchingCards := None)
    ensures var st := TieBreak(FinalScores(gameState));
            var winner := WinnerId(gameState.players, st.leader);
            CheckGameEnd(gameState) ==>
              !r.canGoStop && st.top.Some? &&
              r.newState == gameState.(
                phase := Finished, players := ScoredPlayers(gameState.players),
                finalScore := st.top, winner := winner,
                specialEvents := gameState.specialEvents + [GameOverEvent(winner, st.top.value)],
                selectedCard := None, matchingCards := None)
    ensures r.canGoStop ==>
              CheckWinCondition(gameState.players[PlayerIndex(gameState, playerId)], GoCountOf(gameState, playerId)).canStop
  {
    var state := gameState;
    var i := PlayerIndex(state, playerId);
    var player := state.players[i];
    var total := TotalScore(player.captured);
    var currentGoCount := GoCountOf(state, playerId);
    var canGoStop := total.totalScore >= 3 && (currentGoCount == 0 || total.totalScore > player.score);
    player := player.(score := total.totalScore);
    state := state.(players := state.players[i := player]);
    assert CheckGameEnd(state) == CheckGameEnd(gameState) by {
      assert forall k :: 0 <= k < |state.players| ==> state.players[k].hand == gameState.players[k].hand;
    }

    if CheckGameEnd(state) {
      RescoredSame(gameState, state);
      state := FinishGame(state);
      return EndTurnResult(state, false, total.totalScore, total.yakuList);
    }

    SameSeats(state.players, gameState.players, playerId);
    var nextPlayerId := NextPlayerId(state.players, playerId);
    if canGoStop {
      state := state.(phase := GoStop);
    } else {
      state := state.(currentTurn := nextPlayerId);
    }
    state := state.(selectedCard := None, matchingCards := None);
    r := EndTurnResult(state, canGoStop, total.totalScore, total.yakuList);
  }

  /** At the end of the game the winner, if any, is the one player whose final score beats everyone else's. */
  lemma GameOverWinner(gameState: GameState)
    requires |gameState.players| > 0
    ensures var finals := FinalScores(gameState);
            var st := TieBreak(finals);
            IsTop(finals, st.top.value) &&
            (WinnerId(gameState.players, st.leader).Some? ==>
               exists w :: IsUniqueTop(finals, w) && gameState.players[w].id == WinnerId(gameState.players, st.leader).value) &&
            (forall w :: IsUniqueTop(finals, w) && gameState.players[w].id != "" ==>
               WinnerId(gameState.players, st.leader) == Some(gameState.players[w].id))
  {
    TieBreakSpec(FinalScores(gameState));
  }

  // ---------------------------------------------------------------------------------------------
  // Go and stop
  // ---------------------------------------------------------------------------------------------

  /**
   * `declareGo`: one more go for the player, which doubles the stake of their final score; play resumes
   * with the next seat.
   */
  method DeclareGo(gameState: GameState, playerId: string) returns (state: GameState)
    requires HasPlayer(gameState, playerId)
    ensures var goCount := GoCountOf(gameState, playerId) + 1;
            state == gameState.(
              goCount := gameState.goCount[playerId := goCount], phase := Playing,
              specialEvents := gameState.specialEvents + [GoDeclared(playerId, goCount)],
              currentTurn := NextPlayerId(gameState.players, playerId))
    ensures forall q :: q != playerId ==> GoCountOf(state, q) == GoCountOf(gameState, q)
    ensures forall baseScore: int ::
              FinalScore(baseScore, GoCountOf(state, playerId)) == 2 * FinalScore(baseScore, GoCountOf(gameState, playerId))
  {
    state := gameState;
    state := state.(goCount := state.goCount[playerId := GoCountOf(state, playerId) + 1]);
    state := state.(phase := Playing);
    state := state.(specialEvents := state.specialEvents + [GoDeclared(playerId, state.goCount[playerId])]);
    state := state.(currentTurn := NextPlayerId(state.players, playerId));
    forall baseScore: int
      ensures FinalScore(baseScore, GoCountOf(state, playerId)) == 2 * FinalScore(baseScore, GoCountOf(gameState, playerId))
    {
      FinalScoreGo(baseScore, GoCountOf(gameState, playerId), 1);
    }
  }

  /**
   * `declareStop`: the game ends with the player as winner and their final score (their captured total
   * under their go multiplier) as the game's score. Their `score` field is left as it was.
   */
  method DeclareStop(gameState: GameState, playerId: string) returns (state: GameState)
    requires HasPlayer(gameState, playerId)
    ensures var p := gameState.players[PlayerIndex(gameState, playerId)];
            var finalScore := FinalScore(TotalScore(p.captured).totalScore, GoCountOf(gameState, playerId));
            state == gameState.(
              phase := Finished, winner := Some(playerId), finalScore := Some(finalScore),
              specialEvents := gameState.specialEvents + [Victory(playerId, finalScore)])
    ensures var p := gameState.players[PlayerIndex(gameState, playerId)];
            state.finalScore == Some(CheckWinCondition(p, GoCountOf(gameState, playerId)).score) &&
            state.finalScore.value >= 0
  {
    state := gameState;
    var player := state.players[PlayerIndex(state, playerId)];
    var total := TotalScore(player.captured);
    var goCount := GoCountOf(state, playerId);
    var finalScore := CalculateFinalScore(total.totalScore, goCount);
    state := state.(phase := Finished, winner := Some(playerId), finalScore := Some(finalScore));
    state := state.(specialEvents := state.specialEvents + [Victory(playerId, finalScore)]);
  }

  /** `handleDraw`: the game ends as a nagari (no winner); nothing else changes. */
  method HandleDraw(gameState: GameState) returns (state: GameState)
    ensures state == gameState.(phase := Finished, specialEvents := gameState.specialEvents + [Nagari])
    ensures state.winner == gameState.winner && AllCards(state) == AllCards(gameState)
  {
    state := gameState;
    state := state.(phase := Finished);
    state := state.(specialEvents := state.specialEvents + [Nagari]);
  }
}
