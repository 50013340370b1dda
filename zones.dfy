/**
 * Where the cards of a game are: the deck, the field, and each player's hand and captured buckets. The
 * multiset of all of them is what the engine's transitions conserve. Also the id-based list filters the
 * engine uses to take cards out of a hand or off the field.
 */
module Zones {
  import opened Wrappers
  import opened Types
  import opened Seqs
  import opened Bags

  function CapturedCards(c: Captured): multiset<Card>
  {
    multiset(c.gwang) + multiset(c.tti) + multiset(c.animal) + multiset(c.pi)
  }

  function PlayerCards(p: Player): multiset<Card>
  {
    multiset(p.hand) + CapturedCards(p.captured)
  }

  function PlayersCards(ps: seq<Player>): multiset<Card>
  {
    if ps == [] then multiset{} else PlayersCards(ps[..|ps| - 1]) + PlayerCards(ps[|ps| - 1])
  }

  /** Every card of the game, wherever it lies. */
  function AllCards(s: GameState): multiset<Card>
  {
    multiset(s.deck) + multiset(s.field) + PlayersCards(s.players)
  }

  /** Replacing one player replaces exactly that player's cards in the total. */
  lemma {:induction false} PlayersCardsUpdate(ps: seq<Player>, i: int, p: Player)
    requires 0 <= i < |ps|
    ensures PlayersCards(ps[i := p]) + PlayerCards(ps[i]) == PlayersCards(ps) + PlayerCards(p)
    decreases |ps|
  {
    var n := |ps| - 1;
    var qs := ps[i := p];
    assert PlayersCards(ps) == PlayersCards(ps[..n]) + PlayerCards(ps[n]);
    assert PlayersCards(qs) == PlayersCards(qs[..n]) + PlayerCards(qs[n]);
    if i < n {
      assert qs[..n] == ps[..n][i := p] && qs[n] == ps[n];
      PlayersCardsUpdate(ps[..n], i, p);
      AddBoth(PlayersCards(qs[..n]), PlayerCards(ps[i]), PlayersCards(ps[..n]), PlayerCards(p), PlayerCards(ps[n]));
    } else {
      assert qs[..n] == ps[..n] && qs[n] == p;
      Swap(PlayersCards(ps[..n]), PlayerCards(p), PlayerCards(ps[n]));
    }
  }

  /** No two positions of `cards` hold cards with the same id. */
  predicate DistinctIds(cards: seq<Card>)
  {
    forall i, j :: 0 <= i < j < |cards| ==> cards[i].id != cards[j].id
  }

  /** With distinct ids, a card is determined by its id and occurs at most once. */
  lemma {:induction false} DistinctOnce(cards: seq<Card>, x: Card)
    requires DistinctIds(cards)
    ensures multiset(cards)[x] <= 1
    ensures forall y :: y in cards && y.id == x.id && x in cards ==> y == x
    decreases |cards|
  {
    if cards != [] {
      var n := |cards| - 1;
      assert cards == cards[..n] + [cards[n]];
      DistinctOnce(cards[..n], x);
    }
    forall y | y in cards && y.id == x.id && x in cards
      ensures y == x
    {
      var a :| 0 <= a < |cards| && cards[a] == y;
      var b :| 0 <= b < |cards| && cards[b] == x;
      assert a == b;
    }
  }

  /** `cards.filter(c => c.id !== id)`. */
  function RemoveId(cards: seq<Card>, id: string): (r: seq<Card>)
    ensures forall x :: multiset(r)[x] == if x.id != id then multiset(cards)[x] else 0
    ensures IsSubsequence(r, cards)
  {
    Filter(cards, (c: Card) => c.id != id)
  }

  /** With distinct ids, filtering out the id of a card that is present removes exactly that card. */
  lemma RemoveIdOne(cards: seq<Card>, x: Card)
    requires x in cards && DistinctIds(cards)
    ensures multiset(RemoveId(cards, x.id)) == multiset(cards) - multiset{x}
  {
    DistinctOnce(cards, x);
    var r := RemoveId(cards, x.id);
    forall y
      ensures multiset(r)[y] == (multiset(cards) - multiset{x})[y]
    {
      if y.id == x.id && y != x {
        assert y !in cards;
      }
    }
  }

  /** `ms.some(m => m.id === id)`. */
  predicate HasId(ms: seq<Card>, id: string)
  {
    exists j :: 0 <= j < |ms| && ms[j].id == id
  }

  /** `cards.filter(c => !ms.some(m => m.id === c.id))`. */
  function RemoveIds(cards: seq<Card>, ms: seq<Card>): (r: seq<Card>)
    ensures forall x :: multiset(r)[x] == if !HasId(ms, x.id) then multiset(cards)[x] else 0
    ensures IsSubsequence(r, cards)
  {
    Filter(cards, (c: Card) => !HasId(ms, c.id))
  }

  /** With distinct ids, filtering out the ids of a sub-multiset removes exactly that sub-multiset. */
  lemma RemoveIdsAll(cards: seq<Card>, ms: seq<Card>)
    requires DistinctIds(cards) && multiset(ms) <= multiset(cards)
    ensures multiset(RemoveIds(cards, ms)) == multiset(cards) - multiset(ms)
  {
    var r := RemoveIds(cards, ms);
    forall y
      ensures multiset(r)[y] == (multiset(cards) - multiset(ms))[y]
    {
      DistinctOnce(cards, y);
      if HasId(ms, y.id) {
        var j :| 0 <= j < |ms| && ms[j].id == y.id;
        assert ms[j] in multiset(ms);
        if y in cards {
          DistinctOnce(cards, ms[j]);
          assert ms[j] == y;
        }
      } else {
        assert y !in ms;
      }
    }
  }

  /** `cards.find(c => c.id === id)`: the first card carrying `id`, if any. */
  function FindById(cards: seq<Card>, id: string): (r: Option<Card>)
    ensures r.Some? ==> r.value in cards && r.value.id == id
    ensures r.None? <==> !HasId(cards, id)
    ensures r.Some? ==> exists k :: 0 <= k < |cards| && cards[k] == r.value && forall j :: 0 <= j < k ==> cards[j].id != id
  {
    if cards == [] then None
    else if cards[0].id == id then Some(cards[0])
    else
      var r := FindById(cards[1..], id);
      if r.Some? then FirstPastHead(cards, id, r.value); r else r
  }

  /** A first card with `id` in the tail is the first in the whole list when the head has another id. */
  lemma FirstPastHead(cards: seq<Card>, id: string, x: Card)
    requires cards != [] && cards[0].id != id
    requires exists k :: 0 <= k < |cards| - 1 && cards[1..][k] == x && forall j :: 0 <= j < k ==> cards[1..][j].id != id
    ensures exists k :: 0 <= k < |cards| && cards[k] == x && forall j :: 0 <= j < k ==> cards[j].id != id
  {
    var k :| 0 <= k < |cards| - 1 && cards[1..][k] == x && forall j :: 0 <= j < k ==> cards[1..][j].id != id;
    assert cards[k + 1] == x && forall j :: 0 <= j < k + 1 ==> cards[j].id != id;
  }
}
