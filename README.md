# Go-Stop game engine, modelled in Dafny

This project models the rules engine of a two-player Go-Stop (화투) web game: the three files under
`src/game/` that hold its rules.

- **`cards.ts`**: the 48-card rule table, card ids of the form `"MM-i"`, the deck, the Fisher–Yates
  shuffle, the month and type filters, and the id sets of the ribbon and godori combinations.
- **`scoring.ts`**: the four category scores (gwang, tti, animal, pi), the total with its ordered list of
  combinations (yaku), the go multiplier `base × 2^goCount`, and the win check.
- **`engine.ts`**: the state transitions `playCard`, `drawCard`, `captureCards`, `endTurn`, `declareGo`,
  `declareStop` and `handleDraw`, the tests `canPlayCard`, `findMatchingCards` and `checkGameEnd`, and the
  hand checks `checkBomb` and `checkShake`.

The records of `src/types/index.ts` become datatypes (module `Types`).

Every engine transition deep-clones its argument and then changes the clone step by step. The model
therefore writes each transition as a `method` that takes a `GameState` value and returns a new one. The
body makes the same field updates in the same order. The loops of the source stay loops, each proved
against a specification function:

- the `captureCards` `forEach`;
- the winner search of `endTurn`;
- the month tallies of `checkBomb` and `checkShake`;
- the multiplier loop of `calculateFinalScore`;
- the swap loop of `shuffleDeck`, which runs on an `array`.

The pure parts are functions:

- the card table and the deck;
- the filters;
- the per-category scorers, whose `if`/`push` chains are written as list concatenations.

The global invariant of the game is card conservation. `Zones.AllCards` is the multiset of all the cards
in the deck, on the field, in the hands and on the captured piles. Each move states how it changes that
multiset. `Round` composes a move with the capture of its cards, in the order the game board calls them.
Its contracts decide conservation from the inputs alone, through the matches `findMatchingCards` finds
on the field for the card's month. With at most one match, with three, or with two and a valid target,
the cards are conserved. With two matches and no valid target, or with more than three matches, the
played or drawn card is in no zone afterwards.

Modules (one file each):

- `Wrappers`: `Option`.
- `Seqs`: order-keeping filter.
- `Bags`: multiset bookkeeping steps.
- `Types`: the records.
- `Cards`: `cards.ts`.
- `Shuffle`: `shuffleDeck`.
- `Scoring`: `scoring.ts`.
- `Zones`: card zones, and removal by id.
- `Play`: `canPlayCard`, `findMatchingCards`, `playCard`, `drawCard`.
- `Capture`: `captureCards`.
- `HandCheck`: `checkBomb`, `checkShake`.
- `Turn`: `endTurn`, `declareGo`, `declareStop`, `checkGameEnd`, `handleDraw`.
- `Round`: a move followed by its capture.

Some behaviours of the code differ from the usual Go-Stop rules. The model follows the code.

- **Validation.** `playCard`, `declareGo` and `declareStop` do not check whose turn it is, whether the
  card is in the hand, or whether a target is one of the matches. The model does not check these either.
  It does require the acting player to be seated; see "Left out". `canPlayCard` is modelled as the
  separate test it is.
- **Go/stop eligibility.** The usual rules let a player choose go or stop each time their score rises to
  a new qualifying level. The code offers the choice when the total is at least 3 and either no go has
  been declared or the total exceeds the stored score (src/game/engine.ts:161-162). The model keeps that
  comparison.
- **Lost cards.** Under the usual rules no card ever leaves the game. The code loses a card in two
  cases: two matches with a target that is neither of them, and more than three matches on the field.
  In `playCard` the card leaves the hand (src/game/engine.ts:35) but reaches no pile and not the field;
  in `drawCard` it leaves the deck the same way. `Play.PlayCard`, `Play.DrawCard`,
  `Round.PlayAndCapture` and `Round.DrawAndCapture` state this loss exactly. It is not an error result.
- **Missing winner id.** `state.winner = winnerId || undefined` drops a winner whose id is the empty
  string. `Turn.WinnerId` keeps that behaviour.

## Model

| member | source | states |
|---|---|---|
| Cards.MonthRow | src/game/cards.ts:15-87 | each month has exactly four definitions, with indices 1 to 4 in order |
| Cards.CardDefinitions | src/game/cards.ts:15-87 | the table has 48 entries; entry k is month k/4+1, index k%4+1 |
| Cards.CardId | src/game/cards.ts:90-92 | the id has four characters: a two-digit zero-padded month, a dash, then the index |
| Cards.CardIdInjective | src/game/cards.ts:90-92 | two ids are equal exactly when month and index are equal |
| Cards.CreateDeck | src/game/cards.ts:100-116 | 48 cards; card k has month k/4+1, index k%4+1, and the id built from them |
| Cards.DeckCardAt | src/game/cards.ts:100-116 | card k of the deck is the card made from table entry k |
| Cards.DeckRowAt | src/game/cards.ts:100-116 | every deck position is the month row and column it comes from |
| Cards.DeckIdsDistinct | src/game/cards.ts:90-116 | the 48 deck ids are pairwise distinct |
| Cards.FindCardsByMonth | src/game/cards.ts:129-131 | exactly the cards of the month, each as often as in the input, in input order |
| Cards.FindCardsByMonthSnoc | src/game/cards.ts:129-131 | filtering a list extended by one card extends the result by that card exactly when it has the month |
| Cards.FilterByType | src/game/cards.ts:134-136 | exactly the cards of the type, each as often as in the input, in input order |
| Cards.FilterByTypeSnoc | src/game/cards.ts:134-136 | filtering a list extended by one card extends the result by that card exactly when it has the type |
| Cards.RowKinds | src/game/cards.ts:15-87 | in every month row: gwang exactly in the first slot of months 1, 3, 8, 11, 12; pi exactly in slots 3-4 except 12-3; non-pi cards 0 points; pi 1 point, or 2 for the ssang-pi 11-3 and 12-4 |
| Cards.RowSubTypes | src/game/cards.ts:15-87 | the godori, hongdan (including 12-3), cheongdan and chodan subtypes sit exactly where the table puts them, on animals and ribbons |
| Cards.DeckKinds | src/game/cards.ts:15-116 | the same facts by deck position: gwang at positions 0, 8, 28, 40, 44; ssang-pi at 42 and 47 |
| Cards.DeckLayout | src/game/cards.ts:15-116 | the deck is laid out in month blocks of four, with gwang and pi at those positions |
| Cards.MonthCountBelow | src/game/cards.ts:15-87 | a deck laid out in month blocks holds, among its first n cards, the part of the month's block below n |
| Cards.DeckFourPerMonth | src/game/cards.ts:100-131 | the deck holds exactly four cards of every month |
| Cards.FourPerMonth | src/game/cards.ts:129-131 | any deck laid out in month blocks has four cards per month |
| Cards.GwangCountBelow | src/game/cards.ts:15-87 | the number of gwang among the first n cards counts the gwang positions below n |
| Cards.FiveGwang | src/game/cards.ts:134-136 | a deck with gwang at those positions has five gwang |
| Cards.DeckGwangCount | src/game/cards.ts:15-116 | the deck has exactly five gwang |
| Cards.DeckGwangMonths | src/game/cards.ts:15-142 | a deck card is a gwang exactly when it is the first card of a month in `GWANG_MONTHS` |
| Cards.PiCountBelow | src/game/cards.ts:15-87 | the number of pi among the first n cards counts the pi positions below n |
| Cards.PiPositionsStep | src/game/cards.ts:15-87 | the count of pi positions grows by one exactly at a pi position |
| Cards.PiPointsBelow | src/game/cards.ts:15-87 | the pi points among the first n cards are their pi count plus one for each ssang-pi below n |
| Cards.PiPositionsAll | src/game/cards.ts:15-87 | the table has 23 pi positions |
| Cards.PiTotals | src/game/cards.ts:15-136 | a deck with pi at those positions has 23 pi worth 25 points |
| Cards.DeckPiCount | src/game/cards.ts:15-116 | the deck has exactly 23 pi cards |
| Cards.DeckPiPoints | src/game/cards.ts:15-116 | the pi cards of the deck are worth 25 points together |
| Cards.DeckPoints | src/game/cards.ts:15-116 | non-pi cards are worth 0; pi cards 1, except 11-3 and 12-4, worth 2 |
| Cards.CombinationIds | src/game/cards.ts:145-154 | the four combination id lists are the ids of the named cards, and 12-3 is the id "12-3" |
| Cards.IdInTriple | src/game/cards.ts:90-92 | a card with a well-formed id is in a three-id list exactly when its month and index match one entry |
| Cards.GodoriConsistent | src/game/cards.ts:15-145 | a deck card is in `GODORI_CARDS` exactly when its subtype is godori, and every godori is an animal |
| Cards.HongdanConsistent | src/game/cards.ts:15-148 | a deck card is in `HONGDAN_CARDS` exactly when it is a hongdan other than 12-3; 12-3 is a hongdan ribbon |
| Cards.CheongdanConsistent | src/game/cards.ts:15-151 | a deck card is in `CHEONGDAN_CARDS` exactly when its subtype is cheongdan, always a ribbon |
| Cards.ChodanConsistent | src/game/cards.ts:15-154 | a deck card is in `CHODAN_CARDS` exactly when its subtype is chodan, always a ribbon |
| Seqs.Filter | src/game/cards.ts:129-136 | the kept elements, each as often as in the input, in input order, no longer than the input |
| Seqs.FilterSnoc | src/game/cards.ts:129-136 | filtering a list extended by one element extends the result by it exactly when it is kept |
| Shuffle.SwapIndex | src/game/cards.ts:122 | `Math.floor(r * (i + 1))` for a draw r in [0, 1) lies in [0, i] |
| Shuffle.Swap | src/game/cards.ts:123 | swapping two positions keeps the length |
| Shuffle.SwapPermutes | src/game/cards.ts:123 | a swap keeps the multiset of cards |
| Shuffle.FisherYates | src/game/cards.ts:121-124 | the shuffle keeps the length |
| Shuffle.FisherYatesPermutes | src/game/cards.ts:119-126 | the shuffle keeps the length and the multiset of cards |
| Shuffle.SwapStep | src/game/cards.ts:121-124 | one loop step moves the remaining shuffle from index i to index i-1 and keeps the multiset |
| Shuffle.ShuffleDeck | src/game/cards.ts:119-126 | the loop on a copied array returns the Fisher–Yates shuffle of the draws: a permutation of the argument, which is left unchanged |
| Scoring.YakuPoints | src/game/scoring.ts:32-126 | the fixed combinations are worth between 2 and 15; a ribbon or animal count scores exactly from five cards; the pi combination scores exactly from 10 points |
| Scoring.SumYakuPointsAppend | src/game/scoring.ts:143-149 | combination points add over concatenation |
| Scoring.SumOpt | src/game/scoring.ts:57-114 | an optional combination contributes its points exactly when taken |
| Scoring.OptOrdered | src/game/scoring.ts:57-114 | an optional combination is an ordered list within its own rank |
| Scoring.HasBiGwang | src/game/scoring.ts:28 | true exactly when some card is of month 12 |
| Scoring.HoldsAll | src/game/scoring.ts:64-78 | true exactly when every required id is among the held ids |
| Scoring.Single | src/game/scoring.ts:26-54 | a single combination scores its own points |
| Scoring.Ids | src/game/scoring.ts:61 | the ids of the cards, position by position |
| Scoring.GwangScore | src/game/scoring.ts:26-54 | 5 gwang score 15; 4 score 3 with a December card and 4 without; 3 score 2 with and 3 without; any other count scores 0 with no combination; the score is the points of the reported combination |
| Scoring.TtiTally | src/game/scoring.ts:63-90 | the tally scores the sum of its combinations and is never negative |
| Scoring.TtiTallyReports | src/game/scoring.ts:63-90 | each ribbon set is reported exactly when held; the count combination exactly from five ribbons, carrying the count |
| Scoring.TtiOptsReport | src/game/scoring.ts:63-90 | the same, for the concatenated optional lists |
| Cards.SumPoints | src/game/scoring.ts:119 | cards of non-negative points sum to a non-negative total |
| Scoring.TtiScore | src/game/scoring.ts:57-91 | hongdan, cheongdan and chodan are each reported exactly when all three of their ids are held (they stack); the count combination exactly from five ribbons; score = sum of the reported combinations, at least 0 |
| Scoring.AnimalTally | src/game/scoring.ts:101-113 | the tally scores the sum of its combinations and is never negative |
| Scoring.AnimalTallyReports | src/game/scoring.ts:101-113 | godori is reported exactly when complete; the count combination exactly from five animals, carrying the count |
| Scoring.AnimalScore | src/game/scoring.ts:94-114 | godori reported exactly when all three ids are held; the count combination exactly from five animals; score = sum of the reported combinations, at least 0 |
| Scoring.PiScore | src/game/scoring.ts:117-130 | the score is the pi-point sum minus 9 when the sum is at least 10, else 0 with no combination; the one combination carries the sum |
| Scoring.TotalScore | src/game/scoring.ts:133-161 | the details are the four category scores; the total is their sum, at least 0, and equals the points of `yakuList`, the categories' lists concatenated as gwang, tti, animal, pi |
| Scoring.OrderedConcat | src/game/scoring.ts:149 | two ordered lists with ranks in consecutive ranges concatenate to an ordered list |
| Scoring.TtiTallyInOrder | src/game/scoring.ts:63-90 | the ribbon combinations come in table order: hongdan, cheongdan, chodan, count |
| Scoring.AnimalTallyInOrder | src/game/scoring.ts:101-113 | godori comes before the animal count |
| Scoring.GwangInOrder | src/game/scoring.ts:26-54 | the gwang list is ordered and within the gwang rank |
| Scoring.TtiInOrder | src/game/scoring.ts:57-91 | the tti list is ordered and within the ribbon ranks |
| Scoring.AnimalInOrder | src/game/scoring.ts:94-114 | the animal list is ordered and within the animal ranks |
| Scoring.PiInOrder | src/game/scoring.ts:117-130 | the pi list is ordered and within the pi rank |
| Scoring.CategoriesInOrder | src/game/scoring.ts:143-146 | each category's list is ordered within its own rank range |
| Scoring.TotalInTableOrder | src/game/scoring.ts:133-161 | the combined `yakuList` is in table order, gwang first and pi last |
| Scoring.HoldsAllGrows | src/game/scoring.ts:64-101 | holding a set of ids stays true when more cards are captured |
| Scoring.IdsSnoc | src/game/scoring.ts:61 | the ids of a list extended by one card |
| Scoring.TtiScoreMonotone | src/game/scoring.ts:57-91 | capturing one more ribbon never lowers the ribbon score |
| Scoring.AnimalScoreMonotone | src/game/scoring.ts:94-114 | capturing one more animal never lowers the animal score |
| Scoring.PiScoreMonotone | src/game/scoring.ts:117-130 | capturing one more card of non-negative points never lowers the pi score |
| Scoring.Pow2 | src/game/scoring.ts:166-169 | the multiplier is at least 1 |
| Scoring.FinalScore | src/game/scoring.ts:164-171 | a go count of 0 or less leaves the base; a non-negative base is never lowered; the score is 0 exactly when the base is 0 |
| Scoring.HasMinimumScore | src/game/scoring.ts:174-176 | a passing score stays at least 3 under any go multiplier; a failing one is below 3 without gos |
| Scoring.CalculateFinalScore | src/game/scoring.ts:164-171 | the doubling loop returns `FinalScore`, the base times 2 to the go count (no doubling for a count of 0 or less) |
| Scoring.Pow2Add | src/game/scoring.ts:166-169 | 2^(a+b) = 2^a · 2^b |
| Scoring.FinalScoreGo | src/game/scoring.ts:164-171 | each further go doubles the final score; k further gos multiply it by 2^k; for a non-negative base more gos never lower it |
| Scoring.CheckWinCondition | src/game/scoring.ts:179-194 | canGo = canStop = (total ≥ 3, `hasMinimumScore`); score = the total under the go multiplier, never negative and at least 3 when stopping is allowed; yakuList = the total's list |
| Types.IndexOf | src/game/engine.ts:205 | the first seat holding the id, or -1 exactly when no seat holds it |
| Types.NextPlayerId | src/game/engine.ts:204-206 | the next id belongs to a seated player |
| Types.SameSeat | src/game/engine.ts:204-205 | two seatings with the same ids in the same order find the same seat |
| Types.SameSeats | src/game/engine.ts:204-206 | such seatings also pass the turn to the same player |
| Types.TwoSeats | src/game/engine.ts:204-206 | with two distinct players the turn always passes to the other one, and passing twice comes back |
| Types.PlayerIndex | src/game/engine.ts:32 | a seated player's seat holds their id |
| Zones.PlayersCardsUpdate | src/game/engine.ts:32-35 | replacing one player changes the players' cards by exactly that player's difference |
| Zones.DistinctOnce | src/game/engine.ts:35 | in a list with distinct ids a card occurs at most once, and is the only card with its id |
| Zones.RemoveId | src/game/engine.ts:35 | drops exactly the cards with the id, keeping the order of the rest |
| Zones.RemoveIdOne | src/game/engine.ts:49 | removing a present card's id from a list with distinct ids removes exactly that card |
| Zones.RemoveIds | src/game/engine.ts:66 | drops exactly the cards whose id is among the given ones, keeping the order of the rest |
| Zones.RemoveIdsAll | src/game/engine.ts:66 | for distinct ids and cards that are present, removes exactly those cards |
| Zones.FindById | src/game/engine.ts:53 | the first card with the id: a found card is in the list, has the id, and no earlier card has it; none is found exactly when no card has the id |
| Zones.FirstPastHead | src/game/engine.ts:53 | a first occurrence past a head with another id is the first occurrence in the whole list |
| Play.CanPlayCard | src/game/engine.ts:6-12 | true exactly when the player has the turn, the phase is playing, and their hand holds a card with the id |
| Play.Truthy | src/game/engine.ts:52 | an absent target and the empty string are falsy; any non-empty id is truthy |
| Play.FindMatchingCards | src/game/engine.ts:15-17 | exactly the field cards of the month, each as often as on the field |
| Play.TakeOne | src/game/engine.ts:48-56 | capturing one field card with the played card conserves field plus played card |
| Play.TakeAll | src/game/engine.ts:65-66 | sweeping the matches with the played card conserves field plus played card |
| Play.PlayerLoses | src/game/engine.ts:35 | a hand with distinct ids loses exactly the played card |
| Play.HandLoses | src/game/engine.ts:32-35 | the players' cards lose exactly the played card |
| Play.HandMove | src/game/engine.ts:35-67 | a hand card moved to the field or to the captured cards keeps all cards |
| Play.DeckMove | src/game/engine.ts:89-107 | the top deck card moved to the field or to the captured cards keeps all cards |
| Play.PlayOnField | src/game/engine.ts:38-67 | the field after the 0/1/2/3-match rule; two matches without a valid target, or more than three matches, capture nothing and leave the field as it was; conservation whenever the card is captured or laid down |
| Play.PlayCard | src/game/engine.ts:20-70 | every card with the played card's id leaves the hand; 0 matches: the card joins the field; 1: captures card and match; 2 with a valid target: captures card and target, and only the target leaves the field; 2 without a target: needsSelection, the card and matches become the pending selection; 2 with a target that is not a match, or more than 3: nothing captured and the field unchanged; 3: captures all four; the deck and everything else are unchanged; conservation, or the played card alone is lost |
| Play.DrawCard | src/game/engine.ts:73-111 | an empty deck returns the state unchanged with no drawn card; otherwise the deck loses exactly its first card, which follows the 0/1/3-match rules; 2 matches always ask for a selection; 2 or more than 3 matches capture nothing and leave the field unchanged; conservation, or only the drawn card is out of every zone |
| Capture.TypePartition | src/game/engine.ts:122-138 | the four type filters together are exactly the list |
| Capture.CapturedWithCards | src/game/engine.ts:122-138 | the piles after capturing hold exactly the old piles plus the cards |
| Capture.SumPointsSnoc | src/game/engine.ts:135 | the points of a list extended by one card |
| Capture.PlaceAllSnoc | src/game/engine.ts:122 | taking one more card is one more step of the loop |
| Capture.PlacePile | src/game/engine.ts:123-137 | one card goes onto the pile of its own type and no other |
| Capture.PlacePoints | src/game/engine.ts:133-135 | the running total grows by the card's points exactly for a pi |
| Capture.PlaceAllPile | src/game/engine.ts:122-138 | each pile grows by the captured cards of its type, in order |
| Capture.PlaceAllPoints | src/game/engine.ts:122-138 | the running total grows by the points of the captured pi |
| Capture.PlaceAllKeeps | src/game/engine.ts:122-138 | capturing changes only the piles and the running total |
| Capture.PlaceAllCaptures | src/game/engine.ts:122-138 | the loop's result is the piles extended type by type and the pi points added |
| Capture.PiPointsStep | src/game/engine.ts:133-135 | the pi points over one more card grow by its points exactly for a pi |
| Capture.PlayerGains | src/game/engine.ts:122-138 | the player's cards grow by exactly the captured cards |
| Capture.PlayerGainConserves | src/game/engine.ts:119-140 | a player gaining cards, with nothing else changed, adds exactly those cards to the game |
| Capture.CaptureConserves | src/game/engine.ts:119-140 | capturing adds exactly the captured cards to the game's cards |
| Capture.CaptureCards | src/game/engine.ts:114-141 | the loop pushes each card onto the pile of its type in order and adds pi points to the running total; hands, field, deck and other players unchanged; the game's cards gain exactly the captured cards |
| HandCheck.MonthCountFilter | src/game/engine.ts:263-265 | the month tally of a hand is the number of its cards of that month |
| HandCheck.MonthCountStep | src/game/engine.ts:263-265 | the tally over one more card grows exactly for that card's month |
| HandCheck.TallyStep | src/game/engine.ts:264 | one loop step keeps the dictionary equal to the tally of the cards read so far |
| HandCheck.CountMonths | src/game/engine.ts:262-265 | the dictionary has an entry exactly for the months present, each holding that month's card count |
| HandCheck.CheckBomb | src/game/engine.ts:261-273 | the least month with exactly four cards in the hand; none exactly when no month has four |
| HandCheck.CheckShake | src/game/engine.ts:276-289 | exactly the months with three cards in the hand, in ascending order |
| Round.PlayAndCapture | src/game/engine.ts:20-141 | `playCard` then `captureCards`: the matches are `findMatchingCards` of the field and the card's month; with the card in a hand of distinct ids and a field of distinct ids, all cards are conserved for 0, 1 or 3 matches or 2 with a valid target, and exactly the played card is missing for 2 without a valid target or more than 3; selection is asked exactly for 2 matches and no target, and records the card |
| Round.DrawAndCapture | src/game/engine.ts:73-141 | `drawCard` then `captureCards`: conservation with an empty deck; otherwise, with a field of distinct ids, conservation for 0, 1 or 3 matches of the top card's month and exactly the drawn card missing for 2 or more than 3; selection is asked exactly for 2 matches and records the drawn card |
| Turn.CheckGameEnd | src/game/engine.ts:292-298 | true exactly when the deck is empty and every hand is empty |
| Turn.GameEndCards | src/game/engine.ts:292-298 | at the end of the game every card is on the field or on a captured pile |
| Turn.EmptyHandsCards | src/game/engine.ts:295 | with empty hands the players' cards are their captured piles |
| Turn.BaseScores | src/game/engine.ts:172-173 | one base score per seat |
| Turn.BaseAt | src/game/engine.ts:173 | the base score of seat k is the captured total of that seat |
| Turn.SameBases | src/game/engine.ts:172-173 | seatings with the same captured piles have the same base scores |
| Turn.BasesHold | src/game/engine.ts:172-173 | the base scores are the seats' captured totals |
| Turn.Rescored | src/game/engine.ts:182 | one player per seat |
| Turn.Finals | src/game/engine.ts:174 | one final score per seat |
| Turn.ScoredPlayers | src/game/engine.ts:172-183 | one player per seat, each with the score refreshed |
| Turn.FinalScores | src/game/engine.ts:172-174 | one final score per seat |
| Turn.TieBreakUpTo | src/game/engine.ts:175-180 | after a non-empty prefix there is a top score, and a leader is a seat of the prefix |
| Turn.TieBreak | src/game/engine.ts:171-183 | a top score exists for a non-empty table, and a leader is a seat |
| Turn.TieBreakPrefix | src/game/engine.ts:172-183 | after any prefix the search holds the prefix's highest score, and a leader exactly when one seat alone holds it |
| Turn.TieBreakSpec | src/game/engine.ts:172-183 | the search returns the highest final score, and a leader exactly when one seat alone reaches it |
| Turn.RescoreSeat | src/game/engine.ts:173-174 | the seat's base is its captured total, and its final score is that base under its go multiplier |
| Turn.SettleScores | src/game/engine.ts:170-183 | the loop refreshes every seat's score and returns the winner search's top score and leader |
| Turn.FinishGame | src/game/engine.ts:185-200 | phase finished, every score refreshed, finalScore the top, winner the unique top holder or none, one victory or draw event, selection cleared |
| Turn.RescoredAlike | src/game/engine.ts:165-174 | refreshing the acting player's score first changes neither the refreshed players nor the final scores |
| Turn.RescoredSame | src/game/engine.ts:165-183 | the same for the whole game end, winner id included |
| Turn.WinnerId | src/game/engine.ts:187 | a winner is the id of the leading seat and is never empty; a leader with a non-empty id is the winner; no leader, no winner |
| Turn.SameWinner | src/game/engine.ts:187 | players differing only in score name the same winner |
| Turn.EndTurn | src/game/engine.ts:144-219 | the score and yakuList are the player's captured total; canGoStop exactly when total ≥ 3 and (no go yet or total above the last score); score updated; then go-stop phase or the turn passes, selection cleared; at exhaustion the game finishes as `FinishGame` says; canGoStop implies the win check allows a stop |
| Turn.GameOverWinner | src/game/engine.ts:168-195 | at the end of the game the recorded top is the highest final score; a winner is the seat that alone holds it, and such a seat (with a non-empty id) is the winner |
| Turn.DeclareGo | src/game/engine.ts:222-238 | the caller's go count grows by one, phase playing, one go event, the turn passes; other counts unchanged; the caller's final score doubles |
| Turn.DeclareStop | src/game/engine.ts:241-258 | phase finished, winner the caller, finalScore the caller's total under their multiplier (the win check's score, never negative), one victory event |
| Turn.HandleDraw | src/game/engine.ts:301-306 | phase finished with one draw event; nothing else changes: the winner is left as it was and all cards stay |

## Left out

- The React components, the Firestore room service and its deal helper, and the styling configuration:
  user interface and I/O, outside the engine.
- `Math.random` in `shuffleDeck`: the draws are a parameter, a sequence of reals in [0, 1).
- The JSON deep clone: transitions take and return values, so the argument is never changed.
- `imagePath`, `nickname`, `isHost` and `isReady`: presentation and lobby fields.
- The `roomId` and `lastAction` fields of the game state: the engine's transitions neither read nor write
  them, so they would only be carried along unchanged.
- Play.PlayCard, Capture.CaptureCards, Turn.EndTurn, Turn.DeclareGo, Turn.DeclareStop,
  Round.PlayAndCapture, Round.DrawAndCapture: these require the player id to be seated. For an id with
  no seat the source reads a property of `undefined` and throws a `TypeError`; the model does not
  model that exception.
- The Korean text of combinations and events: these are tags. The go event names the player id where
  the source shows the nickname.
- The `YAKU_LIST` metadata: descriptive, and not read by the computations.
- Number semantics: scores are unbounded integers, so `2^goCount` in floating point and its rounding
  for very large counts are not modelled.
- The `-Infinity` start of the winner search: it is `None` in `Turn.Standing`. The finish requires a
  non-empty table, which `endTurn` always has because the acting player is seated.
- The players dictionary is an ordered sequence keyed by each player's `id` field, in `Object.keys`
  order.
- Object keys are not checked against the `id` field.
- The tally dictionary of `checkBomb` and `checkShake` is read in ascending month order, which is the
  order `Object.entries` gives integer-like keys.
- Types.NextPlayerId: the contract states only that the next id belongs to a seated player. The rule
  `(index + 1) % n` is its body, and for two players `Types.TwoSeats` proves that the turn alternates.
- Play.PlayOnField, Turn.SettleScores, Turn.RescoreSeat, Turn.FinishGame: these factor out code that
  is inline in `playCard` and `endTurn`. Turn.SettleScores takes the captured totals as a ghost
  argument, used only by its specification.
- The draw-pass two-match selection is completed in the game board component, outside the engine. The
  model stops where `drawCard` stops: the drawn card waits as `selectedCard`.
