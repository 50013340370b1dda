/** The records of the game: cards, players and the shared game state (src/types/index.ts). */
module Types {
  import opened Wrappers

  /** `CardMonth`: the twelve suits. */
  type Month = m: int | 1 <= m <= 12 witness 1
  /** `CardIndex`: position of a card within its month. */
  type CardIndex = i: int | 1 <= i <= 4 witness 1

  /** 광 (gwang), 띠 (tti), 열끗 (animal), 피 (pi). */
  datatype CardType = Gwang | Tti | Animal | Pi
  datatype SubType = Hongdan | Cheongdan | Chodan | Godori | SsangPi

  /** `HwaTuCard` without its presentation-only `imagePath`. */
  datatype Card = Card(id: string, month: Month, index: CardIndex, cardType: CardType,
                       subType: Option<SubType>, points: int)

  /** `Player['captured']`: one bucket per card type. */
  datatype Captured = Captured(gwang: seq<Card>, tti: seq<Card>, animal: seq<Card>, pi: seq<Card>)

  /** `Player` without nickname and lobby flags; `totalPoints` is the running pi-point sum. */
  datatype Player = Player(id: string, hand: seq<Card>, captured: Captured, score: int, totalPoints: int)

  datatype Phase = Waiting | Dealing | Playing | GoStop | Finished

  /** `specialEvents` entries, as tags instead of display text. */
  datatype Event =
    | GoDeclared(playerId: string, goCount: nat)   // "N고!"
    | Victory(playerId: string, score: int)         // "... 점으로 승리!"
    | ExhaustedDraw                                 // deck and hands exhausted with no single top score
    | Nagari                                        // handleDraw's "나가리! 무승부"

  /**
   * `GameState`. `players` keeps the players in `Object.keys` order, which decides whose turn is next;
   * `goCount` is the per-player "go" dictionary, read with a default of 0.
   */
  datatype GameState = GameState(
    phase: Phase,
    currentTurn: string,
    deck: seq<Card>,
    field: seq<Card>,
    players: seq<Player>,
    selectedCard: Option<Card>,
    matchingCards: Option<seq<Card>>,
    goCount: map<string, nat>,
    winner: Option<string>,
    finalScore: Option<int>,
    specialEvents: seq<Event>)

  const EmptyCaptured := Captured([], [], [], [])

  /** `state.goCount[playerId] || 0`. */
  function GoCountOf(state: GameState, playerId: string): nat
  {
    if playerId in state.goCount then state.goCount[playerId] else 0
  }

  predicate HasPlayer(state: GameState, playerId: string)
  {
    exists k :: 0 <= k < |state.players| && state.players[k].id == playerId
  }

  /** `playerIds.indexOf(playerId)`: the first position holding `playerId`, or -1. */
  function IndexOf(players: seq<Player>, playerId: string): (i: int)
    ensures -1 <= i < |players|
    ensures i >= 0 ==> players[i].id == playerId && forall k :: 0 <= k < i ==> players[k].id != playerId
    ensures i == -1 <==> forall k :: 0 <= k < |players| ==> players[k].id != playerId
  {
    if players == [] then -1
    else if players[0].id == playerId then 0
    else
      var j := IndexOf(players[1..], playerId);
      if j == -1 then -1 else j + 1
  }

  /** `playerIds[(currentIndex + 1) % playerIds.length]`. */
  function NextPlayerId(players: seq<Player>, playerId: string): (next: string)
    requires |players| > 0
    ensures exists k :: 0 <= k < |players| && players[k].id == next
  {
    players[(IndexOf(players, playerId) + 1) % |players|].id
  }

  /** Two seatings with the same ids in the same order find the same seat and pass to the same next player. */
  lemma SameSeat(ps: seq<Player>, qs: seq<Player>, playerId: string)
    requires |ps| == |qs| && forall k :: 0 <= k < |ps| ==> ps[k].id == qs[k].id
    ensures IndexOf(ps, playerId) == IndexOf(qs, playerId)
  {
    if IndexOf(ps, playerId) != -1 {
      assert qs[IndexOf(ps, playerId)].id == playerId;
    }
    if IndexOf(qs, playerId) != -1 {
      assert ps[IndexOf(qs, playerId)].id == playerId;
    }
  }

  lemma SameSeats(ps: seq<Player>, qs: seq<Player>, playerId: string)
    requires |ps| == |qs| && forall k :: 0 <= k < |ps| ==> ps[k].id == qs[k].id
    ensures IndexOf(ps, playerId) == IndexOf(qs, playerId)
    ensures |ps| > 0 ==> NextPlayerId(ps, playerId) == NextPlayerId(qs, playerId)
  {
    SameSeat(ps, qs, playerId);
    if |ps| > 0 {
      var j := (IndexOf(ps, playerId) + 1) % |ps|;
      assert ps[j].id == qs[j].id;
    }
  }

  /** With two players, passing the turn always goes to the other player, and passing twice comes back. */
  lemma TwoSeats(players: seq<Player>, playerId: string)
    requires |players| == 2 && players[0].id != players[1].id
    requires players[0].id == playerId || players[1].id == playerId
    ensures NextPlayerId(players, playerId) != playerId
    ensures NextPlayerId(players, NextPlayerId(players, playerId)) == playerId
  {
    if players[0].id == playerId {
      assert IndexOf(players, playerId) == 0;
      assert IndexOf(players, players[1].id) == 1;
    } else {
      assert IndexOf(players, playerId) == 1;
      assert IndexOf(players, players[0].id) == 0;
    }
  }

  /** The position of a player that is known to sit at the table. */
  function PlayerIndex(state: GameState, playerId: string): (i: nat)
    requires HasPlayer(state, playerId)
    ensures i < |state.players| && state.players[i].id == playerId
  {
    IndexOf(state.players, playerId)
  }
}
