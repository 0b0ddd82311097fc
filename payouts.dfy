/** The payout calculator (src/engine/payoutCalculator.ts): one player hand
    against the dealer's hand, and the insurance side bet. */
module Payouts {
  import opened Cards
  import opened Hands
  import opened Settings

  datatype ResolvedHand = ResolvedHand(result: HandResult, payout: real)

  function Best(cards: seq<Card>): int
  {
    Totals(cards).best
  }

  /** resolveHand: the casino rules in strict priority order. */
  function ResolveHand(player: HandState, dealer: HandState, settings: GameSettings): (r: ResolvedHand)
    // 1. a surrendered hand loses half its bet, whatever the cards
    ensures player.isSurrendered ==> r == ResolvedHand(Surrendered, -(player.bet * 0.5))
    // 2. a busted player loses, even against a busted dealer
    ensures !player.isSurrendered && IsBusted(player.cards) ==> r == ResolvedHand(Loss, -player.bet)
    // 3. two naturals push
    ensures !player.isSurrendered && !IsBusted(player.cards) && IsBlackjack(player.cards) && IsBlackjack(dealer.cards) ==>
                  r == ResolvedHand(Push, 0.0)
    // 4. a player-only natural is paid at the blackjack rate
    ensures !player.isSurrendered && IsBlackjack(player.cards) && !IsBlackjack(dealer.cards) ==>
                  r == ResolvedHand(Blackjack, player.bet * settings.blackjackPayout)
    // 5. a dealer-only natural wins the bet
    ensures !player.isSurrendered && !IsBusted(player.cards) && !IsBlackjack(player.cards) && IsBlackjack(dealer.cards) ==>
                  r == ResolvedHand(Loss, -player.bet)
    // 6. otherwise a dealer bust pays even money, and 7. the higher best total wins
    ensures !player.isSurrendered && !IsBusted(player.cards) && !IsBlackjack(player.cards) && !IsBlackjack(dealer.cards) ==>
                  r == (if IsBusted(dealer.cards) || Best(player.cards) > Best(dealer.cards) then ResolvedHand(Win, player.bet)
                        else if Best(player.cards) < Best(dealer.cards) then ResolvedHand(Loss, -player.bet)
                        else ResolvedHand(Push, 0.0))
  {
    if player.isSurrendered then ResolvedHand(Surrendered, -(player.bet * 0.5))
    else
      var playerTotal := Totals(player.cards);
      var dealerTotal := Totals(dealer.cards);
      var playerBJ := IsBlackjack(player.cards);
      var dealerBJ := IsBlackjack(dealer.cards);
      if playerTotal.best > 21 then ResolvedHand(Loss, -player.bet)
      else if playerBJ && dealerBJ then ResolvedHand(Push, 0.0)
      else if playerBJ then ResolvedHand(Blackjack, player.bet * settings.blackjackPayout)
      else if dealerBJ then ResolvedHand(Loss, -player.bet)
      else if dealerTotal.best > 21 then ResolvedHand(Win, player.bet)
      else if playerTotal.best > dealerTotal.best then ResolvedHand(Win, player.bet)
      else if playerTotal.best < dealerTotal.best then ResolvedHand(Loss, -player.bet)
      else ResolvedHand(Push, 0.0)
  }

  /** Each result carries its own payout: win +bet, loss -bet, push 0,
      surrender -bet/2, blackjack bet times the blackjack rate; never pending. */
  lemma PayoutMatchesResult(player: HandState, dealer: HandState, settings: GameSettings)
    ensures var r := ResolveHand(player, dealer, settings);
      r.result != Pending &&
      (r.result == Win ==> r.payout == player.bet) &&
      (r.result == Loss ==> r.payout == -player.bet) &&
      (r.result == Push ==> r.payout == 0.0) &&
      (r.result == Surrendered <==> player.isSurrendered) &&
      (r.result == Surrendered ==> r.payout == -player.bet / 2.0) &&
      (r.result == Blackjack ==> r.payout == player.bet * settings.blackjackPayout)
  {
  }

  /** Who wins an unsurrendered hand, stated as one condition per outcome. */
  lemma OutcomeConditions(player: HandState, dealer: HandState, settings: GameSettings)
    requires !player.isSurrendered
    ensures var r := ResolveHand(player, dealer, settings).result;
      var pBust, dBust := IsBusted(player.cards), IsBusted(dealer.cards);
      var pBJ, dBJ := IsBlackjack(player.cards), IsBlackjack(dealer.cards);
      var p, d := Best(player.cards), Best(dealer.cards);
      (r == Blackjack <==> pBJ && !dBJ) &&
      (r == Win <==> !pBust && !pBJ && !dBJ && (dBust || p > d)) &&
      (r == Loss <==> pBust || (!pBJ && (dBJ || (!dBust && p < d)))) &&
      (r == Push <==> (pBJ && dBJ) || (!pBust && !pBJ && !dBJ && !dBust && p == d))
  {
    if IsBlackjack(player.cards) {
      assert !IsBusted(player.cards);
    }
  }

  /** resolveInsurance: the side bet pays 2 to 1 against a dealer natural and
      is lost otherwise. */
  function ResolveInsurance(dealer: HandState, insuranceBet: real): (r: real)
    ensures IsBlackjack(dealer.cards) ==> r == 2.0 * insuranceBet
    ensures !IsBlackjack(dealer.cards) ==> r == -insuranceBet
  {
    var dealerBJ := IsBlackjack(dealer.cards);
    if dealerBJ then insuranceBet * 2.0 else -insuranceBet
  }

  /** A natural (ace, king) against dealer 10-7 pays 3 to 2 at the default
      table; a busted player loses against a busted dealer. */
  lemma ResolveExamples()
    ensures ResolveHand(CreateEmptyHand(10.0).(cards := [Card(Spades, Ace, true), Card(Hearts, King, true)]),
                        CreateEmptyHand(0.0).(cards := [Card(Clubs, Ten, true), Card(Clubs, Seven, true)]),
                        DefaultSettings)
            == ResolvedHand(Blackjack, 15.0)
    ensures ResolveHand(CreateEmptyHand(10.0).(cards := [Card(Spades, Ten, true), Card(Hearts, Six, true), Card(Hearts, King, true)]),
                        CreateEmptyHand(0.0).(cards := [Card(Clubs, Ten, true), Card(Clubs, Five, true), Card(Clubs, Nine, true)]),
                        DefaultSettings)
            == ResolvedHand(Loss, -10.0)
  {
    var bj := [Card(Spades, Ace, true), Card(Hearts, King, true)];
    BlackjackIsAceAndTen(bj);
    var dealer := [Card(Clubs, Ten, true), Card(Clubs, Seven, true)];
    BlackjackIsAceAndTen(dealer);
    var bust := [Card(Spades, Ten, true), Card(Hearts, Six, true), Card(Hearts, King, true)];
    assert bust[..1][..0] == [] && bust[..2][..1] == bust[..1] && bust[..3][..2] == bust[..2] && bust[..3] == bust;
    assert HardSum(bust[..1]) == 10;
    assert HardSum(bust[..2]) == 16;
    assert HardSum(bust) == 26;
    BustedIffHardOver21(bust);
  }
}
