/** The round engine (src/engine/gameEngine.ts): one table, its shoe, the
    seats and the dealer, driven through the phases of a round. */
module RoundEngine {
  import opened Wrappers
  import opened Cards
  import opened Hands
  import opened Settings
  import opened Payouts
  import opened BasicStrategy
  import opened ShoeTracker
  import opened Numeric
  import opened Table

  /** placeAIBets for one seat: an active AI player stakes the table minimum
      when it can afford it and sits out when it cannot; the stake is placed
      through placeBet, so outside the betting phase it is refused. */
  function AIBet(p: Player, settings: GameSettings, betting: bool): (q: Player)
    ensures q.name == p.name && q.seatIndex == p.seatIndex && q.bankroll == p.bankroll
    ensures q.isHuman == p.isHuman && q.currentHandIndex == p.currentHandIndex
    ensures q.isActive <==> p.isActive && (p.isHuman || p.bankroll >= settings.minimumBet)
    ensures q.hands != p.hands ==>
      betting && q.hands == [CreateEmptyHand(settings.minimumBet)] && settings.minimumBet <= p.bankroll
    ensures !p.isHuman && p.isActive && betting && settings.minimumBet <= p.bankroll && settings.minimumBet <= settings.maximumBet ==>
      q.hands == [CreateEmptyHand(settings.minimumBet)]
  {
    if !p.isHuman && p.isActive then
      var bet := MinR(settings.minimumBet, p.bankroll);
      if bet >= settings.minimumBet then
        if betting && settings.minimumBet <= bet <= settings.maximumBet && bet <= p.bankroll then
          p.(hands := [CreateEmptyHand(bet)])
        else p
      else p.(isActive := false)
    else p
  }

  /** What a player turn offers the seat `p`: hit and stand first, never
      insurance, and double, split and surrender exactly as the current hand,
      the bankroll net of every stake out and the table rules allow. */
  predicate Offered(p: Player, settings: GameSettings, actions: seq<Action>)
    requires 0 <= p.currentHandIndex < |p.hands|
  {
    var h := CurrentHand(p);
    var free := p.bankroll - TotalBets(p.hands);
    |actions| >= 2 && actions[0] == Hit && actions[1] == Stand && Insurance !in actions &&
    (Double in actions <==> CanDouble(h, free) && (|p.hands| <= 1 || settings.allowDoubleAfterSplit)) &&
    (Split in actions <==> CanSplit(h, free)) &&
    (Surrender in actions <==> settings.allowSurrender && CanSurrender(h) && |p.hands| <= 1)
  }

  class GameEngine {
    const shoe: Shoe
    var settings: GameSettings
    var players: seq<Player>
    var dealerHand: HandState
    var phase: RoundPhase
    var activePlayerIndex: int
    var roundResults: seq<RoundResult>
    var roundNumber: nat
    var reshuffled: bool

    /** The shoe is consistent, the table keeps its invariant and every
        reported result is final. */
    ghost predicate Valid()
      reads this, shoe
    {
      shoe.Valid() && TableOk(players, phase, activePlayerIndex, dealerHand) && Settled(roundResults)
    }

    constructor (settings: GameSettings)
      requires settings.numberOfDecks >= 1
      ensures Valid() && fresh(shoe)
      ensures this.settings == settings && phase == Betting && activePlayerIndex == -1
      ensures roundResults == [] && roundNumber == 0 && !reshuffled && dealerHand == CreateEmptyHand(0.0)
      ensures shoe.numberOfDecks == settings.numberOfDecks && shoe.penetration == settings.penetration
      ensures |shoe.cards| == 52 * settings.numberOfDecks && shoe.runningCount == 0
      ensures |players| == settings.numberOfAIPlayers + 1
      ensures forall i :: 0 <= i < |players| ==>
        (players[i].isHuman <==> i == HumanSeat(settings)) && players[i].isActive &&
        players[i].bankroll == settings.startingBankroll
    {
      this.settings := settings;
      shoe := new Shoe(settings.numberOfDecks, settings.penetration);
      dealerHand := CreateEmptyHand(0.0);
      phase := Betting;
      activePlayerIndex := -1;
      roundResults := [];
      roundNumber := 0;
      reshuffled := false;
      var seats := InitPlayers(settings);
      players := seats;
    }

    /** consumeReshuffle: report whether the shoe was reshuffled since the
        last call, and clear the flag. */
    method ConsumeReshuffle() returns (was: bool)
      requires Valid()
      modifies this`reshuffled
      ensures Valid()
      ensures was == old(reshuffled) && !reshuffled
    {
      was := reshuffled;
      reshuffled := false;
    }

    /** placeBet: only while betting, only for an existing seat, only within
        the table limits and the seat's bankroll; the seat gets one fresh hand
        carrying the bet. */
    method PlaceBet(playerIndex: int, amount: real) returns (ok: bool)
      requires Valid()
      modifies this`players
      ensures Valid()
      ensures ok <==> phase == Betting && 0 <= playerIndex < |old(players)| &&
                      settings.minimumBet <= amount <= settings.maximumBet &&
                      amount <= old(players)[playerIndex].bankroll
      ensures ok ==> players == old(players)[playerIndex := old(players)[playerIndex].(hands := [CreateEmptyHand(amount)])]
      ensures !ok ==> players == old(players)
    {
      if phase != Betting {
        return false;
      }
      if !(0 <= playerIndex < |players|) || amount < settings.minimumBet || amount > settings.maximumBet {
        return false;
      }
      var player := players[playerIndex];
      if amount > player.bankroll {
        return false;
      }
      players := players[playerIndex := player.(hands := [CreateEmptyHand(amount)])];
      ok := true;
    }

    /** placeAIBets: every seat goes through AIBet, in seat order. */
    method PlaceAIBets()
      requires Valid()
      modifies this`players
      ensures Valid()
      ensures |players| == |old(players)|
      ensures forall i :: 0 <= i < |players| ==> players[i] == AIBet(old(players)[i], settings, phase == Betting)
    {
      for i := 0 to |players|
        invariant Valid()
        invariant |players| == |old(players)|
        invariant forall k :: 0 <= k < i ==> players[k] == AIBet(old(players)[k], settings, phase == Betting)
        invariant forall k :: i <= k < |players| ==> players[k] == old(players)[k]
      {
        var player := players[i];
        if !player.isHuman && player.isActive {
          var bet := MinR(settings.minimumBet, player.bankroll);
          if bet >= settings.minimumBet {
            var _ := PlaceBet(i, bet);
          } else {
            players := players[i := player.(isActive := false)];
          }
        }
      }
    }

    /** findNextActivePlayer: the first eligible seat after `fromIndex`, or -1. */
    method FindNextActivePlayer(fromIndex: int) returns (r: int)
      requires fromIndex >= -1
      ensures IsNextActive(players, fromIndex, r)
    {
      var i := fromIndex + 1;
      while i < |players|
        invariant fromIndex + 1 <= i
        invariant forall k :: 0 <= k < |players| && fromIndex < k < i ==> !Eligible(players[k])
      {
        var player := players[i];
        if player.isActive && |player.hands| > 0 && player.hands[0].bet > 0.0 {
          if !IsBlackjack(player.hands[0].cards) {
            return i;
          }
        }
        i := i + 1;
      }
      return -1;
    }

    /** dealCardToHand: one card from the shoe, face up, onto the hand. */
    method DealCardToHand(hand: HandState) returns (dealt: HandState, ghost card: Card)
      requires shoe.Valid()
      modifies shoe
      ensures shoe.Valid()
      ensures card.faceUp && dealt == hand.(cards := hand.cards + [card])
    {
      var c := shoe.Deal();
      c := c.(faceUp := true);
      dealt := hand.(cards := hand.cards + [c]);
      card := c;
    }

    /** advanceHand: on to the current player's next unfinished hand, else
        to the next eligible player (the current player's hand index going
        back to 0). */
    method AdvanceHand() returns (outcome: ActionOutcome)
      requires Valid() && phase == PlayerTurn && activePlayerIndex >= 0
      modifies this`players, this`activePlayerIndex
      ensures Valid()
      // checked as one fact rather than conjunct by conjunct
      ensures Advanced(old(players), old(activePlayerIndex), players, activePlayerIndex, outcome) == true
      decreases |players[activePlayerIndex].hands| - players[activePlayerIndex].currentHandIndex
    {
      var a := activePlayerIndex;
      var player := players[a];
      if player.currentHandIndex < |player.hands| - 1 {
        var moved := player.(currentHandIndex := player.currentHandIndex + 1);
        HandIndexOk(players, phase, a, dealerHand, a, player.currentHandIndex + 1);
        players := players[a := moved];
        var nextHand := player.hands[player.currentHandIndex + 1];
        if HandFinished(nextHand) {
          outcome := AdvanceHand();
          AdvanceStep(old(players), a, players, activePlayerIndex, outcome);
        } else {
          outcome := ActionOutcome(false, false);
          AdvanceToNextHand(old(players), a);
        }
      } else {
        var reset := player.(currentHandIndex := 0);
        HandIndexOk(players, phase, a, dealerHand, a, 0);
        players := players[a := reset];
        var next := FindNextActivePlayer(a);
        NextTurnOk(players, a, dealerHand, next);
        activePlayerIndex := next;
        outcome := ActionOutcome(next == -1, true);
        AdvanceToNextPlayer(old(players), a, next);
      }
    }

    /** handleSplit's first half: the last card of the current hand starts a
        new hand with the same bet right after it, and each of the two hands
        gets one card from the shoe. */
    method SplitCurrentHand() returns (ghost drawn: seq<Card>)
      requires Valid() && phase == PlayerTurn && activePlayerIndex >= 0
      modifies this`players, shoe
      ensures Valid() && |drawn| == 2
      ensures |CurrentHand(old(players)[activePlayerIndex]).cards| >= 2
      ensures players == old(players)[activePlayerIndex := SplitPlayer(old(players)[activePlayerIndex], drawn[0], drawn[1])]
    {
      var a := activePlayerIndex;
      var player := players[a];
      var i := player.currentHandIndex;
      var original := player.hands[i];
      var n := |original.cards|;
      var secondCard := original.cards[n - 1];
      var hand := original.(cards := original.cards[..n - 1]);
      var newHand := CreateEmptyHand(hand.bet).(cards := [secondCard]);
      ghost var c1, c2;
      hand, c1 := DealCardToHand(hand);
      newHand, c2 := DealCardToHand(newHand);
      drawn := [c1, c2];
      SplitParts(player, c1, c2, hand, newHand);
      SplitOk(players, a, dealerHand, c1, c2);
      players := players[a := player.(hands := player.hands[..i] + [hand, newHand] + player.hands[i + 1..])];
    }

    /** handleSplit: split the current hand; a split ace hand, or a first
        hand already at 21 or bust, is finished at once. */
    method HandleSplit() returns (outcome: ActionOutcome, ghost drawn: seq<Card>)
      requires Valid() && phase == PlayerTurn && activePlayerIndex >= 0
      modifies this`players, this`activePlayerIndex, shoe
      ensures Valid()
      // checked as one fact rather than conjunct by conjunct
      ensures ActionTaken(old(players), old(activePlayerIndex), Split, drawn, players, activePlayerIndex, outcome) == true
    {
      drawn := SplitCurrentHand();
      ghost var mid := players;
      var a := activePlayerIndex;
      var player := players[a];
      var hand := player.hands[player.currentHandIndex];
      if hand.cards[0].rank == Ace || HandFinished(hand) {
        outcome := AdvanceHand();
        SplitFrozenTaken(old(players), a, drawn, mid, players, activePlayerIndex, outcome);
      } else {
        outcome := ActionOutcome(false, false);
        SplitOpenTaken(old(players), a, drawn, players);
      }
    }

    /** playerAction's 'hit': one card on the current hand; play moves on
        when the hand is bust or at 21. */
    method HitCurrentHand() returns (outcome: ActionOutcome, ghost drawn: seq<Card>)
      requires Valid() && phase == PlayerTurn && activePlayerIndex >= 0
      modifies this`players, this`activePlayerIndex, shoe
      ensures Valid()
      ensures ActionTaken(old(players), old(activePlayerIndex), Hit, drawn, players, activePlayerIndex, outcome)
    {
      var a := activePlayerIndex;
      var player := players[a];
      var hand := player.hands[player.currentHandIndex];
      ghost var c;
      hand, c := DealCardToHand(hand);
      drawn := [c];
      CurrentHandOk(players, a, dealerHand, hand);
      players := players[a := WithCurrentHand(player, hand)];
      if HandFinished(hand) {
        outcome := AdvanceHand();
      } else {
        outcome := ActionOutcome(false, false);
      }
      HitTaken(old(players), a, drawn, players, activePlayerIndex, outcome);
    }

    /** playerAction's 'double': the bet doubles, one card, and play moves on. */
    method DoubleCurrentHand() returns (outcome: ActionOutcome, ghost drawn: seq<Card>)
      requires Valid() && phase == PlayerTurn && activePlayerIndex >= 0
      modifies this`players, this`activePlayerIndex, shoe
      ensures Valid()
      ensures ActionTaken(old(players), old(activePlayerIndex), Double, drawn, players, activePlayerIndex, outcome)
    {
      var a := activePlayerIndex;
      var player := players[a];
      var hand := player.hands[player.currentHandIndex];
      hand := hand.(isDoubled := true, bet := hand.bet * 2.0);
      ghost var c;
      hand, c := DealCardToHand(hand);
      drawn := [c];
      assert WithCurrentHand(player, hand) == DoublePlayer(player, c);
      CurrentHandOk(players, a, dealerHand, hand);
      players := players[a := WithCurrentHand(player, hand)];
      outcome := AdvanceHand();
      DoubleTaken(old(players), a, drawn, players, activePlayerIndex, outcome);
    }

    /** playerAction's 'surrender': the hand is given up and play moves on. */
    method SurrenderCurrentHand() returns (outcome: ActionOutcome)
      requires Valid() && phase == PlayerTurn && activePlayerIndex >= 0
      modifies this`players, this`activePlayerIndex
      ensures Valid()
      ensures ActionTaken(old(players), old(activePlayerIndex), Surrender, [], players, activePlayerIndex, outcome)
    {
      var a := activePlayerIndex;
      var player := players[a];
      var hand := player.hands[player.currentHandIndex];
      hand := hand.(isSurrendered := true);
      CurrentHandOk(players, a, dealerHand, hand);
      players := players[a := WithCurrentHand(player, hand)];
      outcome := AdvanceHand();
      SurrenderTaken(old(players), a, players, activePlayerIndex, outcome);
    }

    /** playerAction: apply one action to the current hand of the player whose
        turn it is; outside a player turn nothing happens. */
    method PlayerAction(action: Action) returns (outcome: ActionOutcome, ghost drawn: seq<Card>)
      requires Valid()
      modifies this`players, this`activePlayerIndex, shoe
      ensures Valid()
      ensures phase != PlayerTurn || old(activePlayerIndex) == -1 ==>
        outcome == ActionOutcome(true, false) && players == old(players) &&
        activePlayerIndex == old(activePlayerIndex) && unchanged(shoe)
      ensures phase == PlayerTurn && old(activePlayerIndex) >= 0 ==>
        ActionTaken(old(players), old(activePlayerIndex), action, drawn, players, activePlayerIndex, outcome)
    {
      if phase != PlayerTurn || activePlayerIndex == -1 {
        return ActionOutcome(true, false), [];
      }
      match action {
        case Hit =>
          outcome, drawn := HitCurrentHand();
        case Stand =>
          drawn := [];
          outcome := AdvanceHand();
        case Double =>
          outcome, drawn := DoubleCurrentHand();
        case Split =>
          outcome, drawn := HandleSplit();
        case Surrender =>
          drawn := [];
          outcome := SurrenderCurrentHand();
        case Insurance =>
          drawn := [];
          outcome := ActionOutcome(false, false);
      }
    }

    /** startDealerTurn: turn the hole card up if it is down, and count it. */
    method StartDealerTurn()
      requires Valid()
      modifies this`phase, this`dealerHand, shoe
      ensures Valid()
      ensures phase == DealerTurn && dealerHand == HoleRevealed(old(dealerHand))
      ensures shoe.cards == old(shoe.cards) && shoe.dealtCards == old(shoe.dealtCards)
      ensures dealerHand != old(dealerHand) ==>
        shoe.runningCount == old(shoe.runningCount) + HiLoValue(dealerHand.cards[1]) &&
        shoe.revealed == old(shoe.revealed) + [dealerHand.cards[1]]
      ensures dealerHand == old(dealerHand) ==> shoe.runningCount == old(shoe.runningCount)
    {
      phase := DealerTurn;
      if |dealerHand.cards| > 1 && !dealerHand.cards[1].faceUp {
        dealerHand := dealerHand.(cards := dealerHand.cards[1 := dealerHand.cards[1].(faceUp := true)]);
        shoe.UpdateCountForReveal(dealerHand.cards[1]);
      }
    }

    /** dealerShouldHit: below 17 always; on a soft 17 (an ace counted as 11
        over a hard 7) only under the hit-soft-17 rule. A dealer who should hit
        has a hard total under 17, so dealer play ends. */
    function DealerShouldHit(): (hit: bool)
      reads this
      ensures hit ==> HardSum(dealerHand.cards) < 17
      ensures !settings.hitSoft17 ==> (hit <==> Totals(dealerHand.cards).best < 17)
      ensures settings.hitSoft17 ==>
        (hit <==> Totals(dealerHand.cards).best < 17 ||
                  (AceCount(dealerHand.cards) > 0 && HardSum(dealerHand.cards) == 7))
    {
      var total := Totals(dealerHand.cards);
      if settings.hitSoft17 then
        if total.best < 17 then true
        else if total.best == 17 && total.soft != total.hard && total.soft <= 21 then true
        else false
      else total.best < 17
    }

    /** dealerHit: one more face-up card for the dealer. */
    method DealerHit() returns (card: Card)
      requires Valid()
      modifies this`dealerHand, shoe
      ensures Valid()
      ensures card.faceUp && dealerHand == old(dealerHand).(cards := old(dealerHand.cards) + [card])
      ensures |shoe.dealtCards| > 0 && shoe.dealtCards[|shoe.dealtCards| - 1] == card
    {
      card := shoe.Deal();
      card := card.(faceUp := true);
      dealerHand := dealerHand.(cards := dealerHand.cards + [card]);
    }

    /** allPlayersBusted: no dealt-in seat has a hand that is neither busted
        nor surrendered (so the dealer need not draw). */
    method AllPlayersBusted() returns (r: bool)
      requires Valid()
      ensures r <==> forall i :: 0 <= i < |players| && Dealt(players[i]) ==> AllHandsOut(players[i])
    {
      for pi := 0 to |players|
        invariant forall i :: 0 <= i < pi && Dealt(players[i]) ==> AllHandsOut(players[i])
      {
        var player := players[pi];
        if !player.isActive || player.hands[0].bet == 0.0 {
          continue;
        }
        for hi := 0 to |player.hands|
          invariant forall h :: 0 <= h < hi ==> IsBusted(player.hands[h].cards) || player.hands[h].isSurrendered
        {
          var hand := player.hands[hi];
          if !IsBusted(hand.cards) && !hand.isSurrendered {
            return false;
          }
        }
      }
      return true;
    }

    /** resolveAllHands: settle every dealt-in seat against the dealer and
        report one result row per hand. */
    method ResolveAllHands()
      requires Valid()
      modifies this`phase, this`roundResults, this`players
      ensures Valid()
      ensures phase == RoundOver
      ensures players == SettledPlayers(old(players), dealerHand, settings)
      ensures roundResults == AllResults(old(players), dealerHand, settings)
    {
      phase := Resolving;
      roundResults := [];
      var seats, results := SettleSeats(players, dealerHand, settings);
      SettledSeatsStaySeated(players, old(phase), activePlayerIndex, dealerHand, settings);
      AllResultsSettled(players, dealerHand, settings);
      players := seats;
      roundResults := results;
      phase := RoundOver;
    }

    /** resetForNewRound: back to betting with every seat on one empty hand. */
    method ResetForNewRound()
      requires Valid()
      modifies this`phase, this`activePlayerIndex, this`dealerHand, this`roundResults, this`players
      ensures Valid()
      ensures phase == Betting && activePlayerIndex == -1 && dealerHand == CreateEmptyHand(0.0) && roundResults == []
      ensures |players| == |old(players)|
      ensures forall i :: 0 <= i < |players| ==>
        players[i] == old(players)[i].(hands := [CreateEmptyHand(0.0)], currentHandIndex := 0)
    {
      phase := Betting;
      activePlayerIndex := -1;
      dealerHand := CreateEmptyHand(0.0);
      roundResults := [];
      for i := 0 to |players|
        invariant phase == Betting && activePlayerIndex == -1 && dealerHand == CreateEmptyHand(0.0) && roundResults == []
        invariant |players| == |old(players)|
        invariant forall k :: 0 <= k < i ==> players[k] == old(players)[k].(hands := [CreateEmptyHand(0.0)], currentHandIndex := 0)
        invariant forall k :: i <= k < |players| ==> players[k] == old(players)[k]
      {
        players := players[i := players[i].(hands := [CreateEmptyHand(0.0)], currentHandIndex := 0)];
      }
    }

    /** One round of the deal to the seats: every dealt-in seat's first hand
        gets one face-up card, in seat order. */
    method DealRound(base: seq<Player>, seats: seq<Player>, round: nat) returns (next: seq<Player>)
      requires shoe.Valid() && |seats| == |base|
      requires forall k :: 0 <= k < |base| ==> |base[k].hands| >= 1 && DealtUpTo(base[k], seats[k], round)
      modifies shoe
      ensures shoe.Valid() && |next| == |base|
      ensures forall k :: 0 <= k < |base| ==> DealtUpTo(base[k], next[k], round + 1)
    {
      next := seats;
      for i := 0 to |next|
        invariant shoe.Valid() && |next| == |base|
        invariant forall k :: 0 <= k < i ==> DealtUpTo(base[k], next[k], round + 1)
        invariant forall k :: i <= k < |next| ==> next[k] == seats[k]
      {
        var player := next[i];
        if !player.isActive || player.hands[0].bet == 0.0 {
          continue;
        }
        var card := shoe.Deal();
        card := card.(faceUp := true);
        next := next[i := player.(hands := player.hands[0 := player.hands[0].(cards := player.hands[0].cards + [card])])];
      }
    }

    /** deal's two rounds of cards, on the seats and the dealer as values:
        each round gives every dealt-in seat a face-up card and then the
        dealer one card, face up in the first round only. */
    method DealCards(base: seq<Player>, d0: HandState) returns (hands: seq<Player>, dealer: HandState)
      requires shoe.Valid() && forall k :: 0 <= k < |base| ==> Fresh(base[k])
      modifies shoe
      ensures shoe.Valid() && |hands| == |base|
      ensures forall k :: 0 <= k < |base| ==> DealtUpTo(base[k], hands[k], 2)
      ensures |dealer.cards| == |d0.cards| + 2 && dealer.cards[..|d0.cards|] == d0.cards
      ensures dealer == d0.(cards := dealer.cards)
      ensures dealer.cards[|d0.cards|].faceUp && !dealer.cards[|d0.cards| + 1].faceUp
    {
      hands := base;
      dealer := d0;
      forall k | 0 <= k < |base| ensures |base[k].hands| >= 1 && DealtUpTo(base[k], hands[k], 0) {
        assert Fresh(base[k]);
      }
      for round := 0 to 2
        invariant shoe.Valid() && |hands| == |base|
        invariant forall k :: 0 <= k < |base| ==> |base[k].hands| >= 1 && DealtUpTo(base[k], hands[k], round)
        invariant |dealer.cards| == |d0.cards| + round && dealer.cards[..|d0.cards|] == d0.cards
        invariant dealer == d0.(cards := dealer.cards)
        invariant round >= 1 ==> dealer.cards[|d0.cards|].faceUp
        invariant round == 2 ==> !dealer.cards[|d0.cards| + 1].faceUp
      {
        hands := DealRound(base, hands, round);
        var dealerCard := shoe.Deal();
        dealerCard := dealerCard.(faceUp := round == 0);
        dealer := dealer.(cards := dealer.cards + [dealerCard]);
      }
    }

    /** deal's first step: a shoe at its penetration is reshuffled, and the
        reshuffle is flagged. */
    method ReshuffleIfDue()
      requires shoe.Valid()
      modifies this`reshuffled, shoe
      ensures shoe.Valid()
      ensures reshuffled == (old(reshuffled) || old(shoe.NeedsReshuffle()))
      ensures old(shoe.NeedsReshuffle()) ==> shoe.dealtCards == [] && shoe.runningCount == 0
      ensures !old(shoe.NeedsReshuffle()) ==> unchanged(shoe)
    {
      if shoe.NeedsReshuffle() {
        shoe.Shuffle();
        reshuffled := true;
      }
    }

    /** deal up to the insurance check: reshuffle when due, enter the
        dealing phase, count the round and deal both rounds of cards. */
    method DealOut()
      requires Valid() && phase == Betting
      modifies this`phase, this`roundNumber, this`roundResults, this`players, this`dealerHand, this`reshuffled, shoe
      ensures Valid() && phase == Dealing && roundResults == [] && roundNumber == old(roundNumber) + 1
      ensures reshuffled == (old(reshuffled) || old(shoe.NeedsReshuffle()))
      ensures |players| == |old(players)| && forall k :: 0 <= k < |players| ==> DealtUpTo(old(players)[k], players[k], 2)
      ensures |dealerHand.cards| == |old(dealerHand.cards)| + 2 && dealerHand.cards[..|old(dealerHand.cards)|] == old(dealerHand.cards)
      ensures dealerHand.cards[|old(dealerHand.cards)|].faceUp && !dealerHand.cards[|old(dealerHand.cards)| + 1].faceUp
    {
      ReshuffleIfDue();
      phase := Dealing;
      roundNumber := roundNumber + 1;
      roundResults := [];
      var base := players;
      var d0 := dealerHand;
      var hands, dealer := DealCards(base, d0);
      DealtSeatsOk(base, hands, dealer, d0);
      players := hands;
      dealerHand := dealer;
    }

    /** deal: only from the betting phase. The shoe is reshuffled first when
        it has reached its penetration; then two rounds, each giving every
        dealt-in seat a face-up card and the dealer one card, face up in the
        first round and face down (the hole card) in the second. An ace up
        under the insurance rule opens the insurance prompt; otherwise player
        turns start. `seats` and `dealt` are the seats and the dealer just
        after the two rounds. */
    method Deal() returns (ghost seats: seq<Player>, ghost dealt: HandState)
      requires Valid()
      modifies this`phase, this`roundNumber, this`roundResults, this`players, this`dealerHand,
               this`reshuffled, this`activePlayerIndex, shoe
      ensures Valid()
      ensures old(phase) != Betting ==>
        phase == old(phase) && players == old(players) && dealerHand == old(dealerHand) &&
        roundNumber == old(roundNumber) && roundResults == old(roundResults) &&
        reshuffled == old(reshuffled) && activePlayerIndex == old(activePlayerIndex) && unchanged(shoe)
      ensures old(phase) == Betting ==>
        roundNumber == old(roundNumber) + 1 &&
        reshuffled == (old(reshuffled) || old(shoe.NeedsReshuffle())) &&
        |seats| == |old(players)| &&
        (forall k :: 0 <= k < |seats| ==> DealtUpTo(old(players)[k], seats[k], 2)) &&
        |dealt.cards| == |old(dealerHand.cards)| + 2 && dealt.cards[..|old(dealerHand.cards)|] == old(dealerHand.cards) &&
        dealt.cards[|old(dealerHand.cards)|].faceUp && !dealt.cards[|old(dealerHand.cards)| + 1].faceUp &&
        if dealt.cards[0].rank == Ace && settings.allowInsurance then
          phase == InsurancePrompt && players == seats && dealerHand == dealt &&
          roundResults == [] && activePlayerIndex == -1
        else
          TurnsStarted(seats, dealt, [], settings, players, dealerHand, phase, activePlayerIndex, roundResults) == true
    {
      if phase != Betting {
        return old(players), old(dealerHand);
      }
      DealOut();
      seats, dealt := players, dealerHand;
      if dealerHand.cards[0].rank == Ace && settings.allowInsurance {
        phase := InsurancePrompt;
      } else {
        StartPlayerTurns();
      }
    }

    /** placeInsurance: only at the insurance prompt and for an existing
        seat; the side bet is half the first hand's bet and must fit in what
        the bankroll holds beyond that bet. */
    method PlaceInsurance(playerIndex: int) returns (ok: bool)
      requires Valid()
      modifies this`players
      ensures Valid()
      ensures ok <==> phase == InsurancePrompt && 0 <= playerIndex < |old(players)| &&
                      old(players)[playerIndex].hands[0].bet / 2.0 <=
                        old(players)[playerIndex].bankroll - old(players)[playerIndex].hands[0].bet
      ensures ok ==>
        var p := old(players)[playerIndex];
        players == old(players)[playerIndex := p.(hands := p.hands[0 := p.hands[0].(isInsured := true, insuranceBet := p.hands[0].bet / 2.0)])]
      ensures !ok ==> players == old(players)
    {
      if phase != InsurancePrompt {
        return false;
      }
      if !(0 <= playerIndex < |players|) {
        return false;
      }
      var player := players[playerIndex];
      var hand := player.hands[0];
      var insuranceBet := hand.bet / 2.0;
      if insuranceBet > player.bankroll - hand.bet {
        return false;
      }
      hand := hand.(isInsured := true, insuranceBet := insuranceBet);
      InsuredOk(players, phase, activePlayerIndex, dealerHand, playerIndex, hand);
      players := players[playerIndex := player.(hands := player.hands[0 := hand])];
      ok := true;
    }

    /** declineInsurance: move on to the player turns. */
    method DeclineInsurance()
      requires Valid() && phase in {Dealing, InsurancePrompt, PlayerTurn}
      modifies this`phase, this`activePlayerIndex, this`dealerHand, this`players, this`roundResults, shoe
      ensures Valid()
      ensures TurnsStarted(old(players), old(dealerHand), old(roundResults), settings,
                           players, dealerHand, phase, activePlayerIndex, roundResults)
    {
      StartPlayerTurns();
    }

    /** resolveInsuranceAndContinue: insurance bets stay on the hands until
        settlement, so this too just moves on to the player turns. */
    method ResolveInsuranceAndContinue()
      requires Valid() && phase in {Dealing, InsurancePrompt, PlayerTurn}
      modifies this`phase, this`activePlayerIndex, this`dealerHand, this`players, this`roundResults, shoe
      ensures Valid()
      ensures TurnsStarted(old(players), old(dealerHand), old(roundResults), settings,
                           players, dealerHand, phase, activePlayerIndex, roundResults)
    {
      StartPlayerTurns();
    }

    /** startPlayerTurns: a dealer blackjack ends the round at once, its hole
        card turned up and counted; otherwise the first eligible seat plays,
        or the dealer when there is none. */
    method StartPlayerTurns()
      requires Valid() && phase in {Dealing, InsurancePrompt, PlayerTurn}
      modifies this`phase, this`activePlayerIndex, this`dealerHand, this`players, this`roundResults, shoe
      ensures Valid()
      // checked as one fact rather than conjunct by conjunct
      ensures TurnsStarted(old(players), old(dealerHand), old(roundResults), settings,
                           players, dealerHand, phase, activePlayerIndex, roundResults) == true
      ensures IsBlackjack(old(dealerHand.cards)) ==>
        shoe.runningCount == old(shoe.runningCount) + HiLoValue(old(dealerHand.cards[1]))
      ensures !IsBlackjack(old(dealerHand.cards)) && activePlayerIndex >= 0 ==>
        shoe.runningCount == old(shoe.runningCount)
    {
      if IsBlackjack(dealerHand.cards) {
        dealerHand := dealerHand.(cards := dealerHand.cards[1 := dealerHand.cards[1].(faceUp := true)]);
        shoe.UpdateCountForReveal(dealerHand.cards[1]);
        phase := Resolving;
        ResolveAllHands();
        return;
      }
      phase := PlayerTurn;
      activePlayerIndex := FindNextActivePlayer(-1);
      if activePlayerIndex == -1 {
        StartDealerTurn();
      }
    }

    /** getAvailableActionsForCurrentPlayer: none outside a player turn;
        otherwise what the current hand allows, with the bankroll net of every
        stake the player has out and splitting counted once the player holds
        more than one hand. */
    method GetAvailableActionsForCurrentPlayer() returns (actions: seq<Action>)
      requires Valid()
      ensures phase != PlayerTurn || activePlayerIndex == -1 ==> actions == []
      ensures phase == PlayerTurn && activePlayerIndex >= 0 ==> Offered(players[activePlayerIndex], settings, actions)
    {
      if phase != PlayerTurn || activePlayerIndex == -1 {
        return [];
      }
      var player := players[activePlayerIndex];
      var hand := player.hands[player.currentHandIndex];
      var isSplitHand := |player.hands| > 1;
      actions := GetAvailableActions(hand, player.bankroll - TotalBets(player.hands),
                                     settings.allowSurrender, settings.allowDoubleAfterSplit, isSplitHand);
    }

    /** getBasicStrategyHint: none outside a player turn; otherwise the basic
        strategy action for the current hand against the dealer's first card,
        which is always hit, stand or an action the hand may take. */
    method GetBasicStrategyHint() returns (hint: Option<Action>, ghost available: seq<Action>)
      requires Valid()
      ensures hint.None? <==> phase != PlayerTurn || activePlayerIndex == -1
      ensures hint.Some? ==>
        var p := players[activePlayerIndex];
        Offered(p, settings, available) &&
        hint.value == GetBasicStrategyAction(CurrentHand(p), dealerHand.cards[0], available) &&
        (hint.value == Hit || hint.value == Stand || hint.value in available)
    {
      if phase != PlayerTurn || activePlayerIndex == -1 {
        return None, [];
      }
      var player := players[activePlayerIndex];
      var hand := player.hands[player.currentHandIndex];
      var dealerUpcard := dealerHand.cards[0];
      var offered := GetAvailableActionsForCurrentPlayer();
      available := offered;
      hint := Some(GetBasicStrategyAction(hand, dealerUpcard, offered));
    }

    /** playAITurn: on an AI player's turn, take the basic strategy action
        and report it; on a human's turn, or outside a player turn, nothing. */
    method PlayAITurn() returns (taken: Option<Action>, ghost drawn: seq<Card>, ghost available: seq<Action>)
      requires Valid()
      modifies this`players, this`activePlayerIndex, shoe
      ensures Valid()
      ensures taken.None? <==> phase != PlayerTurn || old(activePlayerIndex) == -1 || old(players)[old(activePlayerIndex)].isHuman
      ensures taken.None? ==> players == old(players) && activePlayerIndex == old(activePlayerIndex) && unchanged(shoe)
      ensures taken.Some? ==>
        var p := old(players)[old(activePlayerIndex)];
        Offered(p, settings, available) &&
        taken.value == GetBasicStrategyAction(CurrentHand(p), dealerHand.cards[0], available) &&
        taken.value != Insurance &&
        exists outcome :: ActionTaken(old(players), old(activePlayerIndex), taken.value, drawn, players, activePlayerIndex, outcome)
    {
      if phase != PlayerTurn || activePlayerIndex == -1 {
        return None, [], [];
      }
      var player := players[activePlayerIndex];
      if player.isHuman {
        return None, [], [];
      }
      var hand := player.hands[player.currentHandIndex];
      var dealerUpcard := dealerHand.cards[0];
      var offered := GetAvailableActionsForCurrentPlayer();
      available := offered;
      var action := GetBasicStrategyAction(hand, dealerUpcard, offered);
      var outcome;
      outcome, drawn := PlayerAction(action);
      taken := Some(action);
    }
  }
}
