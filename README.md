# Blackjack trainer engine — a Dafny model

This project models the engine of a blackjack trainer and strategy simulator
in Dafny, and proves properties of the model. It covers:

- **Cards** (`cards.dfy`): the 52-card deck, blackjack card values and the Hi-Lo tags.
- **Hands** (`hands.dfy`): the hand evaluator, with hard, soft and best totals, naturals, busts, soft hands, and split, double and surrender eligibility.
- **Payouts** (`payouts.dfy`): the payout calculator, with the outcome of one hand against the dealer and the insurance side bet.
- **BasicStrategy** (`strategy.dfy`): the H17 multi-deck basic-strategy tables and their action codes.
- **Counting** (`counting.dfy`): player advantage and the recommended-bet ramp.
- **ShoeTracker** (`shoe.dfy`): the multi-deck shoe as a class, with its Fisher-Yates shuffle, dealing, the Hi-Lo running and true counts, and penetration.
- **Table** and **RoundEngine** (`table.dfy`, `engine.dfy`): the round engine as a class. A round moves from betting through the deal, the insurance prompt, the player turns and the dealer's turn to settlement. Player actions are hit, stand, double, split and surrender.
- **Simulator** and its helpers (`simulator.dfy`, `sim_counting.dfy`, `sim_betting.dfy`, `deviations.dfy`): the headless simulator. It drives a real engine in chunks of 500 rounds and supports:
  - ten play strategies, including five parallel counting systems;
  - the Illustrious 18 / Fab 4 deviations;
  - spread, Kelly and seven progression betting systems;
  - wonging;
  - tallies of results and a sampled bankroll history.
- **Grading** (`grading.dfy`): shoe grading, which weighs strategy accuracy, bet sizing and play under pressure into a grade out of 100.

The model follows the shape of the code:

- Pure functions become Dafny functions, with lemmas about them.
- The shoe, the game engine, the simulation state and the betting progression are classes. Their fields are updated in place by methods with `modifies` clauses.
- Loops become methods with invariants. Each is proved equal to a specification function whose properties are proved separately.
- Money and counts that the source keeps as JavaScript numbers are `real`. `Math.round` is rounding half up: `floor(x + 0.5)`.
- Randomness is a nondeterministic choice. Each Fisher-Yates swap index is any index in the range the source draws from, so every property of the shuffle holds for all random draws.

Where the written description of the system and the code disagree, the model follows the code:

- **Hole card counted twice.** On a dealer natural, and when the dealer's turn starts, the hole card is added to the running count although it was already counted when dealt. `RoundEngine.GameEngine.StartPlayerTurns` and `RoundEngine.GameEngine.StartDealerTurn` state this.
- **Split aces.** Splitting aces freezes only the first of the two ace hands. The second stays in play (`Table.SplitAcesSecondHandPlayable`).
- **Doubled stakes.** The bankroll check for further actions adds a doubled hand's bet twice, and that bet is already doubled. A doubled hand of stake b therefore ties up 4b (`Table.DoubledStakeCountedTwice`).
- **The bet ramp** compares the true count with 2, 3 and 4 for equality. Any count above 1 that is not exactly 2, 3 or 4 therefore bets the top 12 units: 1.5 bets 12 units while 2 bets 2 (`Counting.RampSteps`). The aggressive spread bets one unit at 1.5 (`SimBetting.AggressiveSpreadBetweenCounts`).
- **Deviation fallback.** When a deviation's action is unavailable, a surrender or double falls back to hit. Any other action gives no deviation, and basic strategy decides. The fallback does not follow the suffix of the basic-strategy code. A matching surrender deviation overrides a stand deviation, so a Hi-Lo hard 15 against a ten at a count of 4 or more hits when surrender is not offered (`Simulator.HiLoFifteenAgainstTen`).
- **Sat-out rounds.** A round a wonging player sits out counts both as watched and as played.
- **Amount wagered.** The amount wagered grows by the initial bet once per played round. It is therefore not the number of hands times the bet once hands are split or doubled.

## Model

| member | source | states |
|---|---|---|
| Cards.CreateDeck | src/engine/card.ts:6-14 | builds 52 face-up cards, suit by suit in hearts, diamonds, clubs, spades order and ranks 2..A within each suit; the card for suit i and rank j sits at 13*i+j |
| Cards.DeckHasEveryCard | src/engine/card.ts:3-14 | every suit/rank pair occurs in the deck, face up, at index 13*suit+rank |
| Cards.DeckHasNoDuplicates | src/engine/card.ts:3-14 | no suit/rank pair occurs twice in the deck, and every card is face up |
| Cards.CardValue | src/engine/card.ts:16-20 | an ace (and only an ace) has the two values [11, 1]; ten, jack, queen and king are worth exactly [10]; a two to nine is worth its own pip number |
| Cards.HiLoByValue | src/engine/card.ts:22-27 | the Hi-Lo tag is +1 exactly for cards worth 2-6, 0 exactly for 7-9 and -1 exactly for ten-valued cards and aces |
| Cards.StandardDeckIsBalanced | src/engine/card.ts:6-27 | the Hi-Lo tags of a full deck sum to zero |
| Cards.HiLoSumAppend | src/engine/card.ts:22-27 | the Hi-Lo sum of two runs of cards is the sum of their sums |
| Hands.HardSumBounds | src/engine/hand.ts:8-17 | each card adds 1..10 points to the hard total and each ace exactly one |
| Hands.GetHandTotal | src/engine/hand.ts:4-28 | the one-pass loop computes the hard total (aces as 1), a soft total 10 higher exactly when there is an ace and that stays within 21, and best = soft unless soft busts |
| Hands.Totals | src/engine/hand.ts:4-28 | soft is hard or hard+10; a best total over 21 is the hard total; a hard total within 21 gives a best total within 21 |
| Hands.BestIsBlackjackValue | src/engine/hand.ts:4-28 | best is reachable by counting each ace as 1 or 11, is the largest such total within 21, and is the hard total when every choice busts |
| Hands.BlackjackIsAceAndTen | src/engine/hand.ts:30-34 | a hand is blackjack exactly when it is two cards, an ace and a ten-valued card in either order |
| Hands.BustedIffHardOver21 | src/engine/hand.ts:36-38 | a hand is busted exactly when its hard total exceeds 21 |
| Hands.SoftIffAceAndLowHard | src/engine/hand.ts:40-43 | a hand is soft exactly when it holds an ace and its hard total is at most 11, and then its best total is hard+10 |
| Hands.SplitByRank | src/engine/hand.ts:45-51 | splitting is allowed exactly for two cards of equal rank or two ten-valued cards, given bankroll at least the bet |
| Hands.EligibilityNests | src/engine/hand.ts:53-61 | a hand that may double may surrender; an undoubled hand that may split may double; doubling is surrender eligibility plus enough bankroll |
| Hands.GetAvailableActions | src/engine/hand.ts:63-87 | hit and stand come first; double is offered iff the hand may double and it is not a split hand or double-after-split is on; split iff the hand may split; surrender iff surrender is on, the hand may surrender and it is not a split hand; never insurance; no action twice |
| Hands.CreateEmptyHand | src/engine/hand.ts:89-98 | a hand with no cards, the given stake, no flags set, no insurance and no result; its totals are all 0 and it is neither blackjack nor busted |
| Hands.SameRanksSameTotals | src/engine/hand.ts:4-43 | totals, blackjack, bust and softness depend only on ranks, not on which cards are face up |
| Payouts.ResolveHand | src/engine/payoutCalculator.ts:9-56 | the rules in priority order: surrender loses half the bet; a busted player loses even against a busted dealer; two naturals push; a player-only natural pays bet times the blackjack rate; a dealer-only natural takes the bet; otherwise a dealer bust or a higher best total wins even money, a lower one loses, equal pushes |
| Payouts.PayoutMatchesResult | src/engine/payoutCalculator.ts:9-56 | the result is never pending; win pays +bet, loss -bet, push 0, surrender -bet/2 (and surrender occurs exactly for surrendered hands), blackjack bet times the rate |
| Payouts.OutcomeConditions | src/engine/payoutCalculator.ts:18-55 | for an unsurrendered hand, each result stated as a necessary and sufficient condition on busts, naturals and best totals |
| Payouts.ResolveInsurance | src/engine/payoutCalculator.ts:58-67 | insurance pays twice the side bet against a dealer natural and loses the side bet otherwise |
| Payouts.ResolveExamples | src/engine/payoutCalculator.ts:9-56 | ace-king against 10-7 pays 15 on a 10 bet at the default 3:2 table; a busted 26 loses 10 against a busted dealer |
| BasicStrategy.GetDealerUpcardKey | src/engine/basicStrategy.ts:7-10 | jack, queen and king key as 10; every other rank keys as itself |
| BasicStrategy.TablesAreComplete | src/engine/basicStrategy.ts:16-61 | the hard table has exactly the rows 5-21, the soft table exactly 13-21, and the pair table a row for every rank except jack, queen and king |
| BasicStrategy.ResolveAction | src/engine/basicStrategy.ts:63-81 | H hits, S stands; D/Ds double when doubling is available, else hit/stand; P/Ph split when splitting is available, else hit; Rh/Rs surrender when available, else hit/stand; an unknown code stands; the result is hit, stand or an available action |
| BasicStrategy.GetBasicStrategyActionCode | src/engine/basicStrategy.ts:128-159 | a two-card pair of equal value reads the pair row of its first card, with ten-valued cards keyed as 10, at the dealer's upcard key |
| BasicStrategy.GetBasicStrategyAction | src/engine/basicStrategy.ts:83-126 | the advised action is hit, stand or one of the available actions |
| BasicStrategy.ActionIsResolvedCode | src/engine/basicStrategy.ts:83-159 | the code lookup always finds a row, so neither the null nor the final stand fallback is reachable; the advised action is exactly the looked-up code resolved against the available actions |
| BasicStrategy.SoftThenHard | src/engine/basicStrategy.ts:108-123 | a soft non-pair hand of best total 13 or more reads the soft row; a hard non-pair hand reads the hard row of its best total clamped to 5-21 |
| BasicStrategy.Hard16Example | src/engine/basicStrategy.ts:28 | hard 16 (10,6) against a king surrenders when surrender is offered and hits when it is not |
| BasicStrategy.Soft18Example | src/engine/basicStrategy.ts:43 | soft 18 (A,7) against a 3 stands when doubling is not offered |
| Counting.CalculatePlayerAdvantage | src/engine/countingSystem.ts:3-6 | the advantage is (true count - 1)/200: half a percent per point, offset by a half-percent house edge |
| Counting.AdvantageIsIncreasing | src/engine/countingSystem.ts:3-6 | the advantage is zero at true count 1, negative below it, positive above it, and strictly increasing |
| Counting.RampUnits | src/engine/countingSystem.ts:13-25 | the ramp is 1, 2, 4, 8 or 12 units; 1 exactly for counts at most 1, and 2, 4, 8 exactly for the counts 2, 3, 4 |
| Counting.GetRecommendedBet | src/engine/countingSystem.ts:8-31 | the amount is the ramp units times the table minimum capped by the bankroll (at most both, equal to one), with the advantage for the same count |
| Counting.RampSteps | src/engine/countingSystem.ts:13-27 | with a non-negative minimum the amount never falls from count 1 to 2 to 3 to 4 to 5, while a count of 1.5 already selects 12 units |
| ShoeTracker.FullShoeContents | src/engine/shoe.ts:17-21 | a fresh shoe of n decks holds only face-up cards, and each suit/rank pair exactly n times |
| ShoeTracker.Shoe.constructor | src/engine/shoe.ts:11-15 | a new shoe keeps its deck count and penetration and starts shuffled: every card undealt, nothing dealt, count 0 |
| ShoeTracker.Shoe.Shuffle | src/engine/shoe.ts:17-29 | after the rebuild and the Fisher-Yates swaps the undealt cards are a permutation of the full decks, the dealt log is empty and the count is 0 |
| ShoeTracker.Shoe.Deal | src/engine/shoe.ts:31-41 | the dealt card is the last undealt card, now removed, appended to the dealt log and added to the count; an empty shoe is reshuffled first; the dealt card is always face up, so every card is counted |
| ShoeTracker.Shoe.TakeCard | src/engine/shoe.ts:35-40 | the pop: the old undealt cards are the new ones followed by the card; the dealt log gains the card and the count its Hi-Lo value |
| ShoeTracker.Shoe.UpdateCountForReveal | src/engine/shoe.ts:43-45 | the running count gains the revealed card's Hi-Lo value, whether or not it was counted when dealt |
| ShoeTracker.Shoe.CardsDealt | src/engine/shoe.ts:59-65 | the dealt and the remaining cards always add up to the total cards of the shoe |
| ShoeTracker.Shoe.DecksRemaining | src/engine/shoe.ts:51-53 | the undealt cards in decks, but never less than half a deck |
| ShoeTracker.Shoe.TrueCount | src/engine/shoe.ts:55-57 | the true count is within 0.05 of the running count divided by the decks remaining |
| ShoeTracker.Shoe.NeedsReshuffleIffPenetration | src/engine/shoe.ts:71-74 | a reshuffle is due exactly when the dealt cards reach the penetration share of the total |
| ShoeTracker.TrueCountSign | src/engine/shoe.ts:55-57 | the true count keeps the sign of the running count |
| ShoeTracker.HalfShoeReshuffle | src/engine/shoe.ts:71-74 | a one-deck shoe at 50% penetration is due for a reshuffle exactly once 26 cards are dealt |
| Table.HumanSeat | src/engine/gameEngine.ts:32-33 | the human's seat is the requested position, pulled back to the last seat when it is past it |
| Table.InitPlayers | src/engine/gameEngine.ts:29-60 | one seat per AI player plus the human's; every seat knows its index, starts with the starting bankroll, one empty hand with a zero bet, active, on hand 0; exactly the human's seat is human and named "You"; AI seats take the names in order, skipping the human's seat and wrapping after nine |
| Table.NextUnfinishedHand | src/engine/gameEngine.ts:308-317 | the hand advanceHand moves to lies after the current one |
| Table.NextUnfinishedHandIsFirst | src/engine/gameEngine.ts:308-317 | advanceHand moves to the first later hand that is neither busted nor at 21, and finds none exactly when every later hand is finished |
| Table.TotalBets | src/engine/gameEngine.ts:223-225 | the total of the stakes is non-negative when every stake is |
| Table.DoubledStakeCountedTwice | src/engine/gameEngine.ts:223-225 | a single undoubled hand of stake b counts b; after doubling to 2b it counts 4b, because the doubled stake is added a second time |
| Table.HitPlayer | src/engine/gameEngine.ts:247-249 | a hit appends the drawn card to the current hand and changes nothing else: every other hand, the bankroll, the hand index and the player's other fields stay as they were |
| Table.DoublePlayer | src/engine/gameEngine.ts:257-260 | a double marks the current hand doubled, doubles its bet and appends the drawn card; every other hand and every other field of the player stays as it was |
| Table.SurrenderPlayer | src/engine/gameEngine.ts:266-267 | a surrender marks the current hand surrendered and changes nothing else of that hand, of the other hands or of the player |
| Table.SplitPlayer | src/engine/gameEngine.ts:281-293 | the last card of the current hand moves to a new hand with the same bet inserted right after it; each of the two gets one drawn card; the hands before and after are unchanged |
| Table.HoleRevealed | src/engine/gameEngine.ts:355-359 | a face-down second dealer card is turned up without changing its rank; every other card is unchanged |
| Table.HoleTurnedUp | src/engine/gameEngine.ts:176-179 | on a dealer natural the second card is turned up; ranks and suits are unchanged |
| Table.ActionTakenFacts | src/engine/gameEngine.ts:238-328 | every player action keeps the number of seats, and reports the turns over only when no seat is left to play |
| Table.SplitAcesSecondHandPlayable | src/engine/gameEngine.ts:295-316 | splitting aces freezes only the first ace hand: play moves to the second ace hand, which stays open for more cards when it is not already finished |
| Table.SplitOk | src/engine/gameEngine.ts:281-293 | splitting the current hand keeps the table invariant: both resulting hands hold two cards |
| Table.CurrentHandOk | src/engine/gameEngine.ts:247-267 | replacing the current hand by one with at least as many cards keeps the table invariant |
| Table.DealtSeatsOk | src/engine/gameEngine.ts:127-139 | dealing both rounds from a betting table gives a dealing table whose dealt-in seats and dealer hold two cards |
| Table.InsuredOk | src/engine/gameEngine.ts:156-162 | insuring a seat's first hand keeps the table invariant |
| Table.NextTurnOk | src/engine/gameEngine.ts:319-327 | handing the turn to the next eligible seat keeps the table invariant |
| Table.AdvanceStep | src/engine/gameEngine.ts:310-315 | advanceHand's recursive call: skipping a finished next hand and then advancing is advancing |
| Table.AdvanceToNextHand | src/engine/gameEngine.ts:310-316 | advanceHand stops at an unfinished next hand of the same player, with done and nextPlayer false |
| Table.AdvanceToNextPlayer | src/engine/gameEngine.ts:319-327 | after a player's last hand the hand index returns to 0 and the turn goes to the next eligible seat; done exactly when there is none |
| Table.SettleHand | src/engine/gameEngine.ts:403-407 | a settled hand keeps its cards and bet and records the payout the payout calculator gives |
| Table.SettlePlayer | src/engine/gameEngine.ts:398-430 | a seat that was not dealt in is left alone; a dealt-in seat's bankroll moves by the net of its hands (payouts and insurance), and it stays active exactly when the bankroll still covers the minimum bet |
| Table.SettleKeepsCards | src/engine/gameEngine.ts:402-408 | settling records outcomes only: every hand keeps its cards and its bet |
| Table.PlayerResults | src/engine/gameEngine.ts:402-424 | a dealt-in seat reports one row per hand; any other seat reports none |
| Table.SettlementBalances | src/engine/gameEngine.ts:402-424 | a seat's bankroll moves by exactly the payouts of its result rows plus the insurance outcomes |
| Table.ResultsCount | src/engine/gameEngine.ts:394-433 | the round reports exactly one row per hand of each dealt-in seat |
| Table.AllResultsSettled | src/engine/gameEngine.ts:394-433 | no reported row is left pending |
| Table.ResolvePlayerHands | src/engine/gameEngine.ts:402-429 | the per-hand loop computes exactly the settled seat and its result rows |
| Table.SettleSeats | src/engine/gameEngine.ts:398-430 | the per-seat loop settles every seat and collects the rows of the dealt-in seats in seat order |
| Table.SettledSeatsStaySeated | src/engine/gameEngine.ts:394-433 | settlement keeps every seat well formed |
| RoundEngine.AIBet | src/engine/gameEngine.ts:99-111 | an active AI seat that can afford the minimum stakes it through placeBet (so only while betting); one that cannot sits out; human and inactive seats are untouched; name, seat, bankroll and hand index never change |
| RoundEngine.GameEngine.constructor | src/engine/gameEngine.ts:12-27 | a new engine keeps its settings, starts betting with no active player, no results, round 0, an empty dealer hand and a fresh full shoe, and seats the players initPlayers describes |
| RoundEngine.GameEngine.ConsumeReshuffle | src/engine/gameEngine.ts:74-78 | returns whether a reshuffle happened since the last call, and clears the flag |
| RoundEngine.GameEngine.PlaceBet | src/engine/gameEngine.ts:89-97 | accepts exactly when betting, the seat exists, the amount is within the table limits and within the seat's bankroll; then the seat holds one fresh hand carrying the bet and nothing else changes; otherwise nothing changes |
| RoundEngine.GameEngine.PlaceAIBets | src/engine/gameEngine.ts:99-111 | every seat ends as AIBet makes it, in seat order |
| RoundEngine.GameEngine.FindNextActivePlayer | src/engine/gameEngine.ts:193-204 | returns the first seat after the given index that is active, has a positive first bet and no natural, or -1 when there is none |
| RoundEngine.GameEngine.DealCardToHand | src/engine/gameEngine.ts:275-279 | the hand gains exactly one face-up card from the shoe |
| RoundEngine.GameEngine.AdvanceHand | src/engine/gameEngine.ts:308-328 | play moves to the current player's next unfinished hand, or else (hand index back to 0) to the next eligible seat, reporting done exactly when there is none |
| RoundEngine.GameEngine.SplitCurrentHand | src/engine/gameEngine.ts:281-293 | the seat becomes the one SplitPlayer describes for the two cards drawn |
| RoundEngine.GameEngine.HandleSplit | src/engine/gameEngine.ts:281-306 | the split as ActionTaken states it: a first hand that is an ace or finished advances play, any other stays in play |
| RoundEngine.GameEngine.HitCurrentHand | src/engine/gameEngine.ts:247-252 | one card on the current hand; play advances only when the hand is bust or at 21 |
| RoundEngine.GameEngine.DoubleCurrentHand | src/engine/gameEngine.ts:257-261 | the bet doubles, one card is added, and play advances |
| RoundEngine.GameEngine.SurrenderCurrentHand | src/engine/gameEngine.ts:266-268 | the hand is marked surrendered and play advances |
| RoundEngine.GameEngine.PlayerAction | src/engine/gameEngine.ts:238-273 | outside a player turn it reports done and changes nothing; otherwise the seats change exactly as ActionTaken states for the action and the cards drawn; insurance is a no-op |
| RoundEngine.GameEngine.StartDealerTurn | src/engine/gameEngine.ts:352-360 | the dealer's turn starts with a face-down hole card turned up and counted a second time; a card already up is not counted again; no card is dealt |
| RoundEngine.GameEngine.DealerShouldHit | src/engine/gameEngine.ts:362-371 | the dealer hits below 17, and on soft 17 (an ace over a hard 7) only under the hit-soft-17 rule; a dealer who hits has a hard total below 17 |
| RoundEngine.GameEngine.DealerHit | src/engine/gameEngine.ts:373-378 | the dealer gains one face-up card, the last card the shoe dealt |
| RoundEngine.GameEngine.AllPlayersBusted | src/engine/gameEngine.ts:381-391 | true exactly when every hand of every dealt-in seat is busted or surrendered |
| RoundEngine.GameEngine.ResolveAllHands | src/engine/gameEngine.ts:394-433 | every seat is settled as SettlePlayer describes, the round reports AllResults, and the phase is round over |
| RoundEngine.GameEngine.ResetForNewRound | src/engine/gameEngine.ts:436-446 | back to betting with no active player, an empty dealer hand and no results; each seat keeps everything except that it holds one empty hand, on hand 0 |
| RoundEngine.GameEngine.DealRound | src/engine/gameEngine.ts:129-134 | one round of the deal: every dealt-in seat's first hand gets one more card, other seats are untouched |
| RoundEngine.GameEngine.DealCards | src/engine/gameEngine.ts:128-139 | two rounds: each dealt-in seat ends with two cards, and the dealer with two more, the first face up and the second face down |
| RoundEngine.GameEngine.ReshuffleIfDue | src/engine/gameEngine.ts:117-121 | a shoe at its penetration is reshuffled and the reshuffle flagged; otherwise the shoe is untouched |
| RoundEngine.GameEngine.DealOut | src/engine/gameEngine.ts:114-139 | from betting: reshuffle when due, enter dealing, count the round, clear the results and deal both rounds |
| RoundEngine.GameEngine.Deal | src/engine/gameEngine.ts:114-148 | outside betting nothing changes; otherwise the round is counted, the two rounds are dealt, and an ace up under the insurance rule opens the insurance prompt while any other upcard starts the player turns |
| RoundEngine.GameEngine.PlaceInsurance | src/engine/gameEngine.ts:151-163 | accepts exactly at the insurance prompt for an existing seat whose half-bet side bet fits in the bankroll beyond the bet; then the first hand is insured for half its bet and nothing else changes |
| RoundEngine.GameEngine.DeclineInsurance | src/engine/gameEngine.ts:165-168 | moves on to the player turns as startPlayerTurns does |
| RoundEngine.GameEngine.ResolveInsuranceAndContinue | src/engine/gameEngine.ts:170-172 | moves on to the player turns as startPlayerTurns does; the side bets are settled with the hands |
| RoundEngine.GameEngine.StartPlayerTurns | src/engine/gameEngine.ts:174-191 | a dealer natural turns the hole card up, counts it once more and settles every seat; otherwise the turn goes to the first eligible seat, or to the dealer when there is none |
| RoundEngine.GameEngine.GetAvailableActionsForCurrentPlayer | src/engine/gameEngine.ts:207-221 | none outside a player turn; otherwise hit and stand, plus double, split and surrender as the current hand allows against the bankroll net of all stakes out, with split-hand rules once the seat holds more than one hand |
| RoundEngine.GameEngine.GetBasicStrategyHint | src/engine/gameEngine.ts:227-236 | no hint exactly outside a player turn; otherwise the hint is the basic-strategy action for the current hand against the dealer's up-card and the actions offered for it, hence hit, stand or an offered action |
| RoundEngine.GameEngine.PlayAITurn | src/engine/gameEngine.ts:331-344 | nothing happens exactly outside a player turn or on a human's turn; otherwise the action taken is the basic-strategy action for the current hand against the dealer's up-card and the offered actions, applied through playerAction |
| Grading.PressureByDealerValue | src/utils/grading.ts:3-19 | a decision is a pressure one exactly for hard 15/16 against a dealer card worth 7 or more, a pair of eights, or soft 18 against a card worth 9 or more |
| Grading.Weight | src/utils/grading.ts:78 | a decision weighs 2 exactly when it is a pressure decision, and 1 otherwise |
| Grading.CountCorrect | src/utils/grading.ts:30-35 | the correct decisions never outnumber the decisions |
| Grading.DecisionStep | src/utils/grading.ts:74-82 | one more decision adds one to the count, its weight to the weighted total, and both when it was correct |
| Grading.WeightCounts | src/utils/grading.ts:73-82 | the weighted total is the number of decisions plus the number of pressure decisions, and the weighted correct count never exceeds it |
| Grading.HandBetScore | src/utils/grading.ts:65-68 | a hand's bet score lies in [0, 1] and is 1 exactly when the bet equals the recommendation |
| Grading.BetScoreSumBounds | src/utils/grading.ts:62-70 | the summed bet score lies between 0 and the number of hands that had a recommendation |
| Grading.StrategyScore | src/utils/grading.ts:59 | with the correct count within the total the strategy score lies in [0, 100], and it is 100 when every decision was correct |
| Grading.BetScore | src/utils/grading.ts:71 | the bet component lies in [0, 100] |
| Grading.QualityScore | src/utils/grading.ts:83-85 | the quality component lies in [0, 100] |
| Grading.GradeBounds | src/utils/grading.ts:51-88 | with the correct count within the total the grade lies in [0, 100], and a shoe without decisions grades 100 |
| Grading.PerfectShoe | src/utils/grading.ts:51-88 | every decision correct and every recommended bet matched exactly gives a grade of 100 |
| Grading.ComputeGrade | src/utils/grading.ts:51-88 | the method's loops compute exactly the grade Grade defines |
| Grading.SumBetScores | src/utils/grading.ts:62-70 | the bet-sizing loop computes the summed score and the number of hands with a recommendation |
| Grading.WeighDecisions | src/utils/grading.ts:74-82 | the quality loop computes the weighted correct count and the weighted total over every decision of the shoe |
| Grading.BuildShoeRecord | src/utils/grading.ts:21-49 | the record counts every decision and the correct ones (never more than the total), carries the grade, which lies in [0, 100], the profit between the bankrolls, and the inputs unchanged |
| Deviations.SituationOf | src/engine/simulator.ts:195-215 | the situation carries the hand's best total and softness, a pair key exactly for two-card pairs (every ten-valued pair keyed as ten) and the dealer's upcard key |
| Deviations.FirstMatch | src/engine/simulator.ts:217-228 | the index found is the first deviation that matches; none is found exactly when no deviation in range matches |
| Deviations.LastSurrender | src/engine/simulator.ts:226-228 | the index found is the last matching surrender deviation; none is found exactly when no surrender in range matches |
| Deviations.ChosenAmong | src/engine/simulator.ts:217-228 | the chosen deviation matches, none is chosen exactly when nothing matches, and any matching surrender makes the choice a surrender |
| Deviations.Fallback | src/engine/simulator.ts:230-236 | an available chosen action is returned as it is; an unavailable surrender or double falls back to hit when hit is available; the result is always an available action |
| Deviations.GetDeviationAction | src/engine/simulator.ts:195-237 | the scan over the deviation list returns exactly the fallback of the chosen deviation for the hand's situation |
| Deviations.Fifteen | src/engine/simulator.ts:173-188 | hard 15 against a ten at a true count of 4 or more matches the stand deviation but surrenders, or hits when surrender is not available |
| Deviations.SixteenStands | src/engine/simulator.ts:172 | hard 16 against a ten stands from a true count of 0 up |
| SimCounting.CustomSystem | src/engine/simulator.ts:22-48 | exactly KO, Hi-Opt I, Hi-Opt II, Omega II and Zen keep a count of their own |
| SimCounting.TagValue | src/engine/simulator.ts:22-48 | every tag of every system lies in [-2, 2] |
| SimCounting.RankAt | src/engine/card.ts:4 | the j-th rank of a suit is the j-th entry of the rank list |
| SimCounting.BalancedSystemsNetZero | src/engine/simulator.ts:22-48 | a system is flagged balanced exactly when its tags cancel over a full deck; KO's add up to +4 per deck |
| SimCounting.SystemSuitTag | src/engine/simulator.ts:22-48 | over one suit KO's tags add up to 1 and every other system's to 0 |
| SimCounting.DeckTag | src/engine/simulator.ts:22-48 | a full deck tags to four times one suit |
| SimCounting.TallyCustomCount | src/engine/simulator.ts:263-277 | the count is the sum of the tags of every card in every seat's hands plus the dealer's cards, face up or not |
| SimCounting.SimTrueCount | src/engine/simulator.ts:245-261 | strategies without their own system read the engine's true count, KO its running count, and a balanced system its running count per deck left (52 cards a deck), or 0 once a quarter deck or less remains |
| SimBetting.LastReached | src/engine/simulator.ts:66-71 | the index found is the last spread row whose threshold the count reaches; none is found exactly when the count reaches no threshold |
| SimBetting.SpreadUnitsMeaning | src/engine/simulator.ts:64-73 | the spread bets one unit when the count is below every threshold, and otherwise the units of the last threshold reached |
| SimBetting.ResolveBetFromSpread | src/engine/simulator.ts:64-73 | the loop's bet is the spread's units times the unit, capped by bankroll and table maximum, so it never exceeds either |
| SimBetting.AggressiveSpreadMatchesRamp | src/engine/simulator.ts:57 | at the whole counts 1 to 5 the aggressive 1-12 spread bets the same units as the counting module's bet ramp |
| SimBetting.AggressiveSpreadBetweenCounts | src/engine/simulator.ts:57 | at a true count of 1.5 the aggressive spread bets one unit while the counting module's ramp bets twelve |
| SimBetting.InitialProgressionOk | src/engine/simulator.ts:88-99 | the initial progression satisfies every betting system's invariant |
| SimBetting.LabouchereUnits | src/engine/simulator.ts:333-341 | a Labouchere stake is the first plus the last number of the line, the one number of a one-number line, or one unit on an empty line |
| SimBetting.MartingaleStep | src/engine/simulator.ts:361-368 | a Martingale update keeps the progression's fields in range |
| SimBetting.ParoliStep | src/engine/simulator.ts:369-382 | a Paroli update keeps the multiplier equal to 2 to the power of the winning streak, and the streak below three |
| SimBetting.OneThreeTwoSixStep | src/engine/simulator.ts:383-393 | a 1-3-2-6 update keeps the step index within the four steps |
| SimBetting.OscarStep | src/engine/simulator.ts:394-412 | an Oscar's Grind update keeps the series from ever standing to win more than one unit |
| SimBetting.FibonacciStep | src/engine/simulator.ts:413-420 | a Fibonacci update keeps the index within the Fibonacci table |
| SimBetting.DalembertStep | src/engine/simulator.ts:421-428 | a D'Alembert update keeps the stake at one unit or more |
| SimBetting.LabouchereStep | src/engine/simulator.ts:429-449 | a Labouchere update keeps every number of the line positive and the line non-empty |
| SimBetting.Next | src/engine/simulator.ts:352-451 | every update preserves the system's invariant and records whether the hand was won, lost or pushed |
| SimBetting.MartingaleDoubling | src/engine/simulator.ts:361-368 | after n straight losses from the start the Martingale multiplier is 2^n, one more than the n stakes lost before |
| SimBetting.MartingaleResets | src/engine/simulator.ts:361-368 | anything but a loss resets the Martingale multiplier to one |
| SimBetting.ParoliCycle | src/engine/simulator.ts:369-382 | from a fresh run three wins take the multiplier through 1, 2 and 4 and back to 1; a non-win resets it at once |
| SimBetting.OneThreeTwoSixCycle | src/engine/simulator.ts:383-393 | four straight wins bet 1, 3, 2 and 6 units and return to the first step |
| SimBetting.OscarNeverOvershoots | src/engine/simulator.ts:394-412 | a win never takes a series past +1 unit, closes the series exactly when it reaches +1, and a loss keeps the stake |
| SimBetting.LabouchereBalance | src/engine/simulator.ts:429-449 | a loss adds its stake to the line's total and a win strikes it off, restarting the line once it runs out |
| SimBetting.ProgressionState.constructor | src/engine/simulator.ts:88-99 | a new progression starts at multiplier 1, step 0, one unit, no result and the line 1, 2, 3, 4 |
| SimBetting.ProgressionState.UpdateProgression | src/engine/simulator.ts:352-451 | the fields move exactly as Next says, so the system's invariant is kept |
| SimBetting.ClampBet | src/engine/simulator.ts:349 | the clamped bet is never below the table minimum, never above bankroll and maximum when the minimum fits under them, and a bet already within bounds is kept |
| SimBetting.SystemBet | src/engine/simulator.ts:287-347 | flat bets the base amount; Kelly never bets below it and bets exactly it without an edge; every progression bets the base amount times its units, never below the base amount |
| SimBetting.ProgressionUnits | src/engine/simulator.ts:309-341 | the units each system stakes: the multiplier for Martingale and Paroli, the 1-3-2-6 step, the unit count for Oscar's Grind and D'Alembert, the Fibonacci number, the Labouchere ends, one otherwise; never below one |
| SimBetting.MartingaleStakeAfterLosses | src/engine/simulator.ts:309-311 | after n straight losses from the start Martingale stakes 2^n base bets, one base bet more than the n lost stakes together |
| SimBetting.MartingaleStakeAt | src/engine/simulator.ts:309-311 | a Martingale progression whose multiplier is 2^n stakes 2^n base bets |
| SimBetting.OneThreeTwoSixStakes | src/engine/simulator.ts:317-319 | from the first step, four straight wins stake 1, 3, 2 and 6 base bets |
| SimBetting.KellyStake | src/engine/simulator.ts:297-307 | with an edge Kelly bets the base amount or the bankroll-times-edge-times-fraction target rounded to within half a unit |
| SimBetting.CalculateSimBet | src/engine/simulator.ts:279-350 | the bet is the system's stake (or the spread's, for spread betting) clamped to table and bankroll, so it is at least the minimum and within bankroll and maximum whenever the minimum fits |
| Simulator.SimSettings | src/engine/simulator.ts:459-465 | the simulation's table is the configured one with the simulated player in seat 0 and five AI players exactly when wonging, none otherwise |
| Simulator.SampleInterval | src/engine/simulator.ts:469 | the sampling interval is 1 up to 1000 hands and otherwise the whole number of thousands of hands, so it is at least 1 |
| Simulator.InitialResults | src/engine/simulator.ts:474-492 | a simulation starts with nothing played or wagered, the starting bankroll as peak, low and final, and one history point at hand 0 |
| Simulator.InitialResultsOk | src/engine/simulator.ts:474-492 | the initial results satisfy the results invariant |
| Simulator.SampleBankroll | src/engine/simulator.ts:761-777 | the peak and the low widen just enough to take in the bankroll, a history point with the true count and no bet is appended exactly on a sampled round, and nothing else changes |
| Simulator.NextRound | src/engine/simulator.ts:559-560 | one more round is counted, and one more round sat out exactly when the round was watched; nothing else changes |
| Simulator.SampleNextRoundOk | src/engine/simulator.ts:559-561 | counting a round and sampling the bankroll keeps the results invariant, the history included |
| Simulator.SampleCountClosed | src/engine/simulator.ts:768 | the rounds sampled among the first n are the multiples of the interval, plus round 1 when the interval exceeds 1 |
| Simulator.SampleCountBounds | src/engine/simulator.ts:768 | a run of up to 1000 hands samples every round, and a longer one samples between 1000 and 2000 rounds |
| Simulator.SampleCountMonotone | src/engine/simulator.ts:768 | later rounds never have fewer samples |
| Simulator.CountResult | src/engine/simulator.ts:732-756 | the rows of one seat with one result never outnumber the rows |
| Simulator.SeatCount | src/engine/simulator.ts:732-734 | the rows of one seat never outnumber the rows |
| Simulator.FirstResult | src/engine/simulator.ts:735 | the seat's first result is the result of its earliest row, and there is none exactly when the seat has no row |
| Simulator.SettledRowsBalance | src/engine/simulator.ts:737-755 | every settled row of the seat is counted as exactly one of win, loss and push, blackjacks as wins and surrenders as losses |
| Simulator.TallyOk | src/engine/simulator.ts:728-759 | tallying settled rows keeps the results invariant and adds one hand per row of the seat |
| Simulator.TallyRoundResults | src/engine/simulator.ts:728-759 | the loop's counts are exactly the tally of the seat's rows by result, and the result returned is the seat's first |
| Simulator.HumanAction | src/engine/simulator.ts:676-716 | the simulated player's move is hit, stand or an available action |
| Simulator.ChooseHumanAction | src/engine/simulator.ts:676-716 | the move chosen for each strategy, with the deviation found by the deviation scan, is exactly HumanAction's |
| Simulator.MimicPlaysLikeTheDealer | src/engine/simulator.ts:678-686 | on the dealer's cards the mimic player hits exactly when the dealer would, and only ever hits or stands |
| Simulator.NeverBustCannotBust | src/engine/simulator.ts:688-696 | whenever the never-bust player takes a card, no card can bust the hand |
| Simulator.HiLoTakesDeviation | src/engine/simulator.ts:698-704 | a Hi-Lo player takes the chosen deviation whenever its action is available |
| Simulator.HiLoFifteenAgainstTen | src/engine/simulator.ts:698-704 | at a true count of 4 or more a Hi-Lo hard 15 against a ten surrenders when allowed and otherwise hits, never stands |
| Simulator.PlayAllPlayerTurns | src/engine/simulator.ts:654-726 | the loop runs at most 500 moves, keeps the engine consistent and the seats in place, and stops inside the player turns only with no seat left to act or at a watching player's turn |
| Simulator.PlayDealer | src/engine/simulator.ts:606-614 | outside the player and dealer turns nothing changes; otherwise the dealer's turn starts, the hole card is only turned up when every dealt hand is out, and otherwise the dealer draws until the drawing rule says stop |
| Simulator.Simulation.constructor | src/engine/simulator.ts:458-504 | a new simulation has a fresh engine at its own table with the simulated player in seat 0, the initial results, progress and progression, a zero parallel count and the full shoe as reshuffle reference |
| Simulator.Simulation.CountTable | src/engine/simulator.ts:622-625 | with a parallel count the tags of every card on the table are added and the shoe's size noted; without one nothing changes |
| Simulator.Simulation.CloseRound | src/engine/simulator.ts:622-630 | the round is counted and the bankroll sampled as SampleBankroll and NextRound say, the parallel count moves as CountTable says, and the table is back at betting |
| Simulator.Simulation.SettleRound | src/engine/simulator.ts:619-621 | the results are the tally of the seat's rows and the progression moves by the seat's first result, or stays put without one |
| Simulator.Simulation.SitOutRound | src/engine/simulator.ts:532-564 | a sat-out round counts as a round and a round watched, with no hand played and nothing wagered |
| Simulator.Simulation.PlayRound | src/engine/simulator.ts:566-631 | a played round wagers its bet, which lies between the table minimum and the bankroll and maximum when the minimum fits under them, and counts one round and no round watched |
| Simulator.Simulation.PlayNextRound | src/engine/simulator.ts:515-631 | each round of the chunk counts one round, and only a wonging player ever sits one out |
| Simulator.Simulation.RecordFinalStats | src/engine/simulator.ts:633-645 | the final bankroll, net, house edge (net lost per unit wagered, 0 with nothing wagered), average bet (0 with no hand played) and progress are recorded, and nothing else in the results changes |
| Simulator.Simulation.RunSimulationChunk | src/engine/simulator.ts:506-652 | a chunk plays the remaining rounds up to 500, or stops early exactly with a bankroll below the table minimum, keeps the simulation invariant, records the final figures, and is done exactly when bankrupt or all rounds are played |
| Simulator.HistoryBounded | src/engine/simulator.ts:768-776 | a simulation's bankroll history never holds more than 2001 points, however many hands it is configured for |

## Left out

- Display helpers `cardLabel`, `suitSymbol` and `isRedSuit` (src/engine/card.ts:29-44): they only build display strings.
- Read-only accessors of the engine and the shoe (`getState`, `getShoeState`, `getPhase`, `getDealerUpcard`, `getHumanPlayerIndex`, `isCurrentPlayerHuman`, `getCountInfo`, the `runningCount`/`cardsRemaining` getters): the model reads the fields directly. The snapshots copy state for the UI and change nothing.
- `updateSettings` on the engine: it only replaces the settings between sessions, and neither the simulator nor the round logic calls it mid-round.
- Aliasing of mutable card and hand objects: cards, hands and seats are values, and the engine reassigns them. The hole card's turn face-up is therefore a new card value in the dealer's hand, not a flag flipped on a shared object.
- A shoe of zero decks: the shoe requires at least one deck. With none, the source's deal pops from an empty array.
- Floating point: money, counts and ratios are exact reals. `Math.round` is rounding half up on reals, so JavaScript's floating-point error is not modelled.
- Randomness: the Fisher-Yates swap index is a nondeterministic choice in the range the source draws from. Uniformity of the shuffle is not modelled.
- Long-run statistics: house-edge convergence is out of scope. Only the derived figures (net, house edge, average bet) are stated.
- Host scheduling of chunks: timers and UI progress events are outside the core.
- Simulator.PlayAllPlayerTurns: the source's exit on an empty list of available actions has no counterpart. A player turn always offers hit and stand, so that exit cannot be taken. The contract states the bound of 500 moves and when the loop may stop early; it does not restate the sequence of moves. Each move is the one `Simulator.ChooseHumanAction` or `RoundEngine.GameEngine.PlayAITurn` describes.
- Simulator.HumanAction: its own contract states only that the move is hit, stand or available. What each strategy plays is stated by `Simulator.MimicPlaysLikeTheDealer`, `Simulator.NeverBustCannotBust`, `Simulator.HiLoTakesDeviation` and `Simulator.HiLoFifteenAgainstTen`.
- Simulator.Simulation.PlayRound: states the bet's bounds, the amount wagered, the round counts and the simulation invariant. It does not restate the cards dealt and played in the round; those are the engine methods' contracts.
- Simulator.Simulation.SitOutRound: states the round counts, that nothing is wagered or played, and the simulation invariant. It does not restate the AI players' round.
- Simulator.Simulation.PlayNextRound: the reset of the parallel count on a reshuffle is in the body, but the contract states only the round counts and that only wonging sits out.
- Simulator.Simulation.RunSimulationChunk: `totalWagered` is not claimed to be non-negative. The table minimum, and with it a bet, may be configured negative.
- RoundEngine.GameEngine.DeclineInsurance: requires a round whose cards are dealt (the dealing, insurance-prompt or player-turn phase). The source does not check the phase. From betting or after settlement it would start player turns over hands that were never dealt.
- RoundEngine.GameEngine.ResolveInsuranceAndContinue: requires a dealt round, for the same reason.
- Table.TotalBets: states only that the total is non-negative when every stake is. How a doubled hand is counted is stated by `Table.DoubledStakeCountedTwice`.
- Grading inputs: the hand record keeps only the decisions, bet, recommended bet, result and payout. The decision record drops the strategy code, counts and hand index. Grading never reads the dropped fields.
- SimBetting: a bet spread is a list of rows in ascending threshold order. It stands for the source's object keyed by threshold, whose keys the source sorts before scanning.
