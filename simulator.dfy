/** The headless simulator (createSimulation, runSimulationChunk,
    playAllPlayerTurns, tallyRoundResults and sampleBankroll in
    src/engine/simulator.ts): one strategy plays the seat at position 0 of a
    real engine round after round, in chunks of 500, while its results and a
    sampled bankroll history are collected. */
module Simulator {
  import opened Wrappers
  import opened Numeric
  import opened Cards
  import opened Hands
  import opened Settings
  import opened BasicStrategy
  import opened Table
  import opened RoundEngine
  import opened SimCounting
  import opened Deviations
  import opened SimBetting

  /** Rounds played per call of `RunSimulationChunk`. */
  const ChunkSize := 500
  /** AI players seated around a wonging player, to keep the shoe moving. */
  const WongAIPlayers := 5
  /** Moves allowed in one round's player turns before play is cut off. */
  const MaxMoves := 500

  /** One point of the bankroll history. */
  datatype HistoryEntry = HistoryEntry(handNumber: int, bankroll: real, trueCount: real, bet: real)

  datatype SimulationResults = SimulationResults(
    wins: nat,
    losses: nat,
    pushes: nat,
    blackjacks: nat,
    surrenders: nat,
    handsPlayed: nat,
    roundsPlayed: nat,
    roundsWatched: nat,
    netProfit: real,
    peakBankroll: real,
    lowBankroll: real,
    finalBankroll: real,
    bankrollHistory: seq<HistoryEntry>,
    totalWagered: real,
    houseEdge: real,
    avgBet: real)

  datatype Progress = Progress(handsCompleted: int, totalHands: int, currentBankroll: real)

  // ------------------------------------------------------------ set-up

  /** The table the simulation plays at: the configured rules, the simulated
      player in seat 0, and five AI players only when wonging. */
  function SimSettings(config: SimulationConfig): (s: GameSettings)
    ensures HumanSeat(s) == 0
    ensures s.numberOfAIPlayers == if config.playStrategy == Wonging then WongAIPlayers else 0
    ensures s == config.settings.(numberOfAIPlayers := s.numberOfAIPlayers, humanSeatPosition := 0)
  {
    config.settings.(numberOfAIPlayers := if config.playStrategy == Wonging then WongAIPlayers else 0,
                     humanSeatPosition := 0)
  }

  /** How often the bankroll is sampled: every round up to 1000 hands,
      otherwise every (hands / 1000)-th round. */
  function SampleInterval(numberOfHands: int): (k: int)
    ensures k >= 1
    ensures numberOfHands <= 1000 ==> k == 1
    ensures numberOfHands > 1000 ==> k * 1000 <= numberOfHands < (k + 1) * 1000
  {
    if numberOfHands <= 1000 then 1 else numberOfHands / 1000
  }

  /** Whether the round numbered `round` is sampled: the first round always,
      then every round that is a multiple of the interval. */
  predicate Sampled(round: int, interval: int)
    requires interval >= 1
  {
    round % interval == 0 || round <= 1
  }

  /** How many of the rounds 1..n are sampled. */
  function SampleCount(n: nat, interval: int): nat
    requires interval >= 1
  {
    if n == 0 then 0 else SampleCount(n - 1, interval) + (if Sampled(n, interval) then 1 else 0)
  }

  /** The results a simulation starts from: nothing played, the starting
      bankroll as peak, low and final, and one history point at hand 0. */
  function InitialResults(startingBankroll: real): (r: SimulationResults)
    ensures r.bankrollHistory == [HistoryEntry(0, startingBankroll, 0.0, 0.0)]
    ensures r.peakBankroll == r.lowBankroll == r.finalBankroll == startingBankroll
    ensures r.wins == r.losses == r.pushes == r.handsPlayed == r.roundsPlayed == r.roundsWatched == 0
    ensures r.totalWagered == 0.0
  {
    SimulationResults(0, 0, 0, 0, 0, 0, 0, 0, 0.0, startingBankroll, startingBankroll, startingBankroll,
                      [HistoryEntry(0, startingBankroll, 0.0, 0.0)], 0.0, 0.0, 0.0)
  }

  /** What the collected results always satisfy: every tallied hand is a
      win, a loss or a push, blackjacks are wins and surrenders losses, rounds
      sat out are rounds, the bankroll extremes bracket the starting bankroll,
      and the history holds its first point plus one per sampled round. */
  predicate ResultsOk(r: SimulationResults, startingBankroll: real, interval: int)
  {
    interval >= 1 &&
    r.wins + r.losses + r.pushes == r.handsPlayed &&
    r.blackjacks <= r.wins && r.surrenders <= r.losses &&
    r.roundsWatched <= r.roundsPlayed &&
    r.lowBankroll <= startingBankroll <= r.peakBankroll &&
    |r.bankrollHistory| == 1 + SampleCount(r.roundsPlayed, interval) &&
    r.bankrollHistory[0] == HistoryEntry(0, startingBankroll, 0.0, 0.0)
  }

  lemma InitialResultsOk(startingBankroll: real, interval: int)
    requires interval >= 1
    ensures ResultsOk(InitialResults(startingBankroll), startingBankroll, interval)
  {
  }

  // ------------------------------------------------------------ sampling

  /** sampleBankroll: widen the peak and the low to take in the bankroll, and
      log a history point (with the true count and no bet) on a sampled round. */
  function SampleBankroll(results: SimulationResults, bankroll: real, trueCount: real, interval: int)
    : (r: SimulationResults)
    requires interval >= 1
    ensures r.lowBankroll <= bankroll <= r.peakBankroll
    ensures r.lowBankroll <= results.lowBankroll && r.peakBankroll >= results.peakBankroll
    ensures r.lowBankroll == results.lowBankroll || r.lowBankroll == bankroll
    ensures r.peakBankroll == results.peakBankroll || r.peakBankroll == bankroll
    ensures r.bankrollHistory ==
      if Sampled(results.roundsPlayed, interval)
      then results.bankrollHistory + [HistoryEntry(results.roundsPlayed, bankroll, trueCount, 0.0)]
      else results.bankrollHistory
    ensures r == results.(peakBankroll := r.peakBankroll, lowBankroll := r.lowBankroll,
                          bankrollHistory := r.bankrollHistory)
  {
    var sampled := results.(peakBankroll := MaxR(results.peakBankroll, bankroll),
                            lowBankroll := MinR(results.lowBankroll, bankroll));
    if results.roundsPlayed % interval == 0 || results.roundsPlayed <= 1 then
      sampled.(bankrollHistory := sampled.bankrollHistory +
                                  [HistoryEntry(results.roundsPlayed, bankroll, trueCount, 0.0)])
    else sampled
  }

  /** One more round counted, and one more round sat out when `watched`. */
  function NextRound(results: SimulationResults, watched: bool): (r: SimulationResults)
    ensures r.roundsPlayed == results.roundsPlayed + 1
    ensures r.roundsWatched == results.roundsWatched + (if watched then 1 else 0)
    ensures r == results.(roundsPlayed := r.roundsPlayed, roundsWatched := r.roundsWatched)
  {
    results.(roundsPlayed := results.roundsPlayed + 1,
             roundsWatched := results.roundsWatched + if watched then 1 else 0)
  }

  /** Counting one more round and sampling it keeps the results consistent. */
  lemma SampleNextRoundOk(results: SimulationResults, startingBankroll: real, interval: int,
                          watched: bool, bankroll: real, trueCount: real)
    requires ResultsOk(results, startingBankroll, interval)
    ensures ResultsOk(SampleBankroll(NextRound(results, watched), bankroll, trueCount, interval),
                      startingBankroll, interval)
  {
  }

  /** The closed form of the sample count: one point per multiple of the
      interval, plus round 1 when the interval is larger than one. */
  lemma {:induction false} SampleCountClosed(n: nat, interval: int)
    requires interval >= 1
    ensures SampleCount(n, interval) == n / interval + (if interval > 1 && n >= 1 then 1 else 0)
  {
    if n > 0 {
      SampleCountClosed(n - 1, interval);
      DivStep(n, interval);
    }
  }

  /** Going from n - 1 to n, the quotient grows by one exactly at a multiple. */
  lemma DivStep(n: int, k: int)
    requires n >= 1 && k >= 1
    ensures n / k == (n - 1) / k + (if n % k == 0 then 1 else 0)
  {
    var q, r := (n - 1) / k, (n - 1) % k;
    assert n - 1 == q * k + r && 0 <= r < k;
    if r + 1 < k {
      DivUnique(n, k, q, r + 1);
    } else {
      assert n == (q + 1) * k;
      DivUnique(n, k, q + 1, 0);
    }
  }

  lemma DivUnique(n: int, k: int, q: int, r: int)
    requires k >= 1 && n == q * k + r && 0 <= r < k
    ensures n / k == q && n % k == r
  {
    var q', r' := n / k, n % k;
    assert (q' - q) * k == r - r';
    MulSmall(q' - q, k);
  }

  /** A multiple of k strictly between -k and k is zero. */
  lemma MulSmall(d: int, k: int)
    requires k >= 1 && -k < d * k < k
    ensures d == 0
  {
    if d > 0 {
      MulAtLeast(d, k);
    } else if d < 0 {
      MulAtLeast(-d, k);
    }
  }

  lemma MulAtLeast(a: int, k: int)
    requires a >= 1 && k >= 1
    ensures a * k >= k
  {
    assert (a - 1) * k >= 0;
  }

  /** Multiples of a positive k compare as their factors do. */
  lemma MulLess(a: int, b: int, k: int)
    requires k >= 1 && a * k < b * k
    ensures a < b
  {
    assert (b - a) * k > 0;
  }

  /** A long run is sampled at least 1000 and at most 2000 times, whatever
      its length: the history stays about a thousand points long. */
  lemma SampleCountBounds(n: nat)
    ensures n <= 1000 ==> SampleCount(n, SampleInterval(n)) == n
    ensures n > 1000 ==> 1000 <= SampleCount(n, SampleInterval(n)) <= 2000
  {
    var k := SampleInterval(n);
    SampleCountClosed(n, k);
    if n > 1000 {
      var q := n / k;
      assert q * k <= n < (q + 1) * k;
      MulLess(1000, q + 1, k);
      if k >= 2 {
        assert q * k < 1500 * k;
        MulLess(q, 1500, k);
      }
    }
  }

  /** Later rounds never have fewer samples. */
  lemma {:induction false} SampleCountMonotone(m: nat, n: nat, interval: int)
    requires interval >= 1 && m <= n
    ensures SampleCount(m, interval) <= SampleCount(n, interval)
  {
    if m < n {
      SampleCountMonotone(m, n - 1, interval);
    }
  }

  // ------------------------------------------------------------ tallying

  /** The rows of one seat with one result. */
  function CountResult(rows: seq<RoundResult>, seat: int, result: HandResult): (n: nat)
    ensures n <= |rows|
  {
    if rows == [] then 0
    else
      var last := rows[|rows| - 1];
      CountResult(rows[..|rows| - 1], seat, result) + (if last.seatIndex == seat && last.result == result then 1 else 0)
  }

  /** The rows of one seat. */
  function SeatCount(rows: seq<RoundResult>, seat: int): (n: nat)
    ensures n <= |rows|
  {
    if rows == [] then 0
    else SeatCount(rows[..|rows| - 1], seat) + (if rows[|rows| - 1].seatIndex == seat then 1 else 0)
  }

  /** The tally of a round's rows for one seat: one hand played per row;
      wins and blackjacks count as wins, losses and surrenders as losses. */
  function Tally(results: SimulationResults, rows: seq<RoundResult>, seat: int): SimulationResults
  {
    results.(
      handsPlayed := results.handsPlayed + SeatCount(rows, seat),
      wins := results.wins + CountResult(rows, seat, Win) + CountResult(rows, seat, Blackjack),
      losses := results.losses + CountResult(rows, seat, Loss) + CountResult(rows, seat, Surrendered),
      pushes := results.pushes + CountResult(rows, seat, Push),
      blackjacks := results.blackjacks + CountResult(rows, seat, Blackjack),
      surrenders := results.surrenders + CountResult(rows, seat, Surrendered))
  }

  /** The result of the seat's first row, if it has one. */
  function FirstResult(rows: seq<RoundResult>, seat: int): (r: Option<HandResult>)
    ensures r.None? <==> forall k :: 0 <= k < |rows| ==> rows[k].seatIndex != seat
    ensures r.Some? ==> exists k :: 0 <= k < |rows| && rows[k].seatIndex == seat && rows[k].result == r.value &&
                                    forall j :: 0 <= j < k ==> rows[j].seatIndex != seat
  {
    if rows == [] then None
    else
      var r := FirstResult(rows[..|rows| - 1], seat);
      if r.Some? then r
      else if rows[|rows| - 1].seatIndex == seat then Some(rows[|rows| - 1].result)
      else None
  }

  /** Every settled row of the seat lands in exactly one of win, loss and
      push, so the three counts add up to the hands played. */
  lemma {:induction false} SettledRowsBalance(rows: seq<RoundResult>, seat: int)
    requires Settled(rows)
    ensures CountResult(rows, seat, Win) + CountResult(rows, seat, Blackjack) +
            CountResult(rows, seat, Loss) + CountResult(rows, seat, Surrendered) +
            CountResult(rows, seat, Push) == SeatCount(rows, seat)
  {
    if rows != [] {
      var front := rows[..|rows| - 1];
      forall i | 0 <= i < |front| ensures front[i].result != Pending {
        assert front[i] == rows[i];
      }
      SettledRowsBalance(front, seat);
      assert rows[|rows| - 1].result != Pending;
    }
  }

  /** Tallying settled rows keeps the results consistent. */
  lemma TallyOk(results: SimulationResults, rows: seq<RoundResult>, seat: int, startingBankroll: real, interval: int)
    requires ResultsOk(results, startingBankroll, interval) && Settled(rows)
    ensures ResultsOk(Tally(results, rows, seat), startingBankroll, interval)
    ensures Tally(results, rows, seat).handsPlayed == results.handsPlayed + SeatCount(rows, seat)
  {
    SettledRowsBalance(rows, seat);
  }

  lemma TallyStep(results: SimulationResults, rows: seq<RoundResult>, seat: int, i: int)
    requires 0 <= i < |rows|
    ensures var rr := rows[i];
      var t := Tally(results, rows[..i], seat);
      Tally(results, rows[..i + 1], seat) ==
        if rr.seatIndex != seat then t
        else
          var t' := t.(handsPlayed := t.handsPlayed + 1);
          match rr.result
          case Blackjack => t'.(wins := t'.wins + 1, blackjacks := t'.blackjacks + 1)
          case Win => t'.(wins := t'.wins + 1)
          case Loss => t'.(losses := t'.losses + 1)
          case Push => t'.(pushes := t'.pushes + 1)
          case Surrendered => t'.(surrenders := t'.surrenders + 1, losses := t'.losses + 1)
          case Pending => t'
  {
    assert rows[..i + 1][..i] == rows[..i];
  }

  /** tallyRoundResults: walk the round's rows, count the seat's hands by
      result, and report the seat's first result. */
  method TallyRoundResults(roundResults: seq<RoundResult>, results: SimulationResults, playerIndex: int)
    returns (tallied: SimulationResults, firstResult: Option<HandResult>)
    ensures tallied == Tally(results, roundResults, playerIndex)
    ensures firstResult == FirstResult(roundResults, playerIndex)
  {
    tallied := results;
    firstResult := None;
    for i := 0 to |roundResults|
      invariant tallied == Tally(results, roundResults[..i], playerIndex)
      invariant firstResult == FirstResult(roundResults[..i], playerIndex)
    {
      TallyStep(results, roundResults, playerIndex, i);
      assert roundResults[..i + 1][..i] == roundResults[..i];
      var rr := roundResults[i];
      if rr.seatIndex != playerIndex {
        continue;
      }
      tallied := tallied.(handsPlayed := tallied.handsPlayed + 1);
      if firstResult.None? {
        firstResult := Some(rr.result);
      }
      match rr.result {
        case Blackjack =>
          tallied := tallied.(wins := tallied.wins + 1, blackjacks := tallied.blackjacks + 1);
        case Win =>
          tallied := tallied.(wins := tallied.wins + 1);
        case Loss =>
          tallied := tallied.(losses := tallied.losses + 1);
        case Push =>
          tallied := tallied.(pushes := tallied.pushes + 1);
        case Surrendered =>
          tallied := tallied.(surrenders := tallied.surrenders + 1, losses := tallied.losses + 1);
        case Pending =>
      }
    }
    assert roundResults[..|roundResults|] == roundResults;
  }

  // ------------------------------------------------------------ the simulated player

  /** The simulated player's move. `mimic` plays the dealer's rule; `never_bust`
      stands on every hard 12 or more and otherwise plays basic strategy;
      Hi-Lo and wonging take an available count deviation before basic
      strategy; every other strategy plays basic strategy. */
  function HumanAction(strategy: PlayStrategy, hitSoft17: bool, hand: HandState, dealerUpcard: Card,
                       trueCount: real, available: seq<Action>): (a: Action)
    ensures a == Hit || a == Stand || a in available
  {
    match strategy
    case Mimic =>
      var total := Totals(hand.cards);
      if total.best < 17 || (total.best == 17 && IsSoft(hand.cards) && hitSoft17) then Hit else Stand
    case NeverBust =>
      if !IsSoft(hand.cards) && Totals(hand.cards).best >= 12 then Stand
      else GetBasicStrategyAction(hand, dealerUpcard, available)
    case HiLo | Wonging =>
      var dev := Fallback(Chosen(SituationOf(hand, dealerUpcard), trueCount), available);
      if dev.Some? then dev.value else GetBasicStrategyAction(hand, dealerUpcard, available)
    case _ => GetBasicStrategyAction(hand, dealerUpcard, available)
  }

  /** playAllPlayerTurns' choice for the simulated player, with the
      deviation looked up by getDeviationAction's scan. */
  method ChooseHumanAction(strategy: PlayStrategy, hitSoft17: bool, hand: HandState, dealerUpcard: Card,
                           trueCount: real, available: seq<Action>) returns (action: Action)
    ensures action == HumanAction(strategy, hitSoft17, hand, dealerUpcard, trueCount, available)
  {
    match strategy {
      case Mimic =>
        var total := GetHandTotal(hand.cards);
        var soft := IsSoft(hand.cards);
        if total.best < 17 || (total.best == 17 && soft && hitSoft17) {
          action := Hit;
        } else {
          action := Stand;
        }
      case NeverBust =>
        var total := GetHandTotal(hand.cards);
        var soft := IsSoft(hand.cards);
        if !soft && total.best >= 12 {
          action := Stand;
        } else {
          action := GetBasicStrategyAction(hand, dealerUpcard, available);
        }
      case HiLo =>
        var devAction := GetDeviationAction(hand, dealerUpcard, trueCount, available);
        action := if devAction.Some? then devAction.value else GetBasicStrategyAction(hand, dealerUpcard, available);
      case Wonging =>
        var devAction := GetDeviationAction(hand, dealerUpcard, trueCount, available);
        action := if devAction.Some? then devAction.value else GetBasicStrategyAction(hand, dealerUpcard, available);
      case _ =>
        action := GetBasicStrategyAction(hand, dealerUpcard, available);
    }
  }

  /** `mimic` hits exactly when the dealer would on the same cards, and
      never doubles, splits or surrenders. */
  lemma MimicPlaysLikeTheDealer(engine: GameEngine, hand: HandState, dealerUpcard: Card,
                                trueCount: real, available: seq<Action>)
    requires hand.cards == engine.dealerHand.cards
    ensures var a := HumanAction(Mimic, engine.settings.hitSoft17, hand, dealerUpcard, trueCount, available);
      (a == Hit <==> engine.DealerShouldHit()) && (a == Hit || a == Stand)
  {
  }

  lemma HardSumAppend(cards: seq<Card>, c: Card)
    ensures HardSum(cards + [c]) == HardSum(cards) + HardValue(c)
  {
    assert (cards + [c])[..|cards|] == cards;
  }

  /** `never_bust` only takes a card (hit or double) on a hand that no
      single card can bust: a soft hand, or a hard total of 11 or less. */
  lemma NeverBustCannotBust(hitSoft17: bool, hand: HandState, dealerUpcard: Card, trueCount: real,
                            available: seq<Action>, c: Card)
    requires HumanAction(NeverBust, hitSoft17, hand, dealerUpcard, trueCount, available) in {Hit, Double}
    ensures !IsBusted(hand.cards + [c])
  {
    HardSumAppend(hand.cards, c);
    SoftIffAceAndLowHard(hand.cards);
    BustedIffHardOver21(hand.cards + [c]);
    HardSumBounds(hand.cards);
  }

  /** A Hi-Lo player takes the chosen deviation whenever its action is available. */
  lemma HiLoTakesDeviation(hitSoft17: bool, hand: HandState, dealerUpcard: Card, trueCount: real,
                           available: seq<Action>)
    requires Chosen(SituationOf(hand, dealerUpcard), trueCount).Some?
    requires Chosen(SituationOf(hand, dealerUpcard), trueCount).value.action in available
    ensures HumanAction(HiLo, hitSoft17, hand, dealerUpcard, trueCount, available) ==
            Chosen(SituationOf(hand, dealerUpcard), trueCount).value.action
  {
  }

  /** A Hi-Lo player with a hard 15 against a ten at a true count of 4 or
      more surrenders when allowed and otherwise hits: the surrender
      deviation overrides the stand deviation. */
  lemma HiLoFifteenAgainstTen(hitSoft17: bool, hand: HandState, dealerUpcard: Card, trueCount: real,
                              available: seq<Action>)
    requires trueCount >= 4.0 && Hit in available
    requires SituationOf(hand, dealerUpcard) == Situation(15, false, None, U10)
    ensures HumanAction(HiLo, hitSoft17, hand, dealerUpcard, trueCount, available) ==
            if Surrender in available then Surrender else Hit
  {
    Fifteen(trueCount, available);
  }

  // ------------------------------------------------------------ turns and the dealer

  /** playAllPlayerTurns: while it is a player's turn (and for at most 500
      moves), the simulated player moves by its strategy and AI players by
      basic strategy; a sitting-out player's turn ends the loop. Play stops
      early only once no seat is left, or at the sitting-out player's turn. */
  method PlayAllPlayerTurns(engine: GameEngine, config: SimulationConfig, humanIndex: int, humanIsPlaying: bool)
    returns (ghost moves: nat)
    requires engine.Valid() && 0 <= humanIndex < |engine.players|
    modifies engine`players, engine`activePlayerIndex, engine.shoe
    ensures engine.Valid() && |engine.players| == |old(engine.players)|
    ensures moves <= MaxMoves
    ensures engine.phase == PlayerTurn && moves < MaxMoves ==>
      engine.activePlayerIndex == -1 ||
      (!humanIsPlaying && engine.players[engine.activePlayerIndex].isHuman)
  {
    var safety := 0;
    while engine.phase == PlayerTurn && safety < MaxMoves
      invariant engine.Valid() && |engine.players| == |old(engine.players)|
      invariant 0 <= safety <= MaxMoves
      decreases MaxMoves - safety
    {
      safety := safety + 1;
      if engine.activePlayerIndex != -1 && engine.players[engine.activePlayerIndex].isHuman {
        if !humanIsPlaying {
          return safety;
        }
        // The hit and stand a player turn always offers make the source's
        // empty-list exit unreachable, so it has no counterpart here.
        var available := engine.GetAvailableActionsForCurrentPlayer();
        var player := engine.players[humanIndex];
        var hand := player.hands[player.currentHandIndex];
        var dealerUpcard := engine.dealerHand.cards[0];
        var action := ChooseHumanAction(config.playStrategy, config.settings.hitSoft17, hand, dealerUpcard,
                                        engine.shoe.TrueCount(), available);
        ghost var before, a := engine.players, engine.activePlayerIndex;
        var outcome, drawn := engine.PlayerAction(action);
        ActionTakenFacts(before, a, action, drawn, engine.players, engine.activePlayerIndex, outcome);
        if outcome.done {
          break;
        }
      } else {
        ghost var before, a := engine.players, engine.activePlayerIndex;
        var taken, drawn, offered := engine.PlayAITurn();
        if taken.None? {
          break;
        }
        ghost var outcome :| ActionTaken(before, a, taken.value, drawn, engine.players, engine.activePlayerIndex, outcome);
        ActionTakenFacts(before, a, taken.value, drawn, engine.players, engine.activePlayerIndex, outcome);
      }
    }
    moves := safety;
  }

  /** The dealer's part of a round that reached the player turns: the hole
      card is turned up, and unless every dealt hand is already busted or
      surrendered the dealer draws until the drawing rule says stop. */
  method PlayDealer(engine: GameEngine)
    requires engine.Valid()
    modifies engine`phase, engine`dealerHand, engine.shoe
    ensures engine.Valid()
    ensures old(engine.phase) !in {PlayerTurn, DealerTurn} ==>
      engine.phase == old(engine.phase) && engine.dealerHand == old(engine.dealerHand) && unchanged(engine.shoe)
    ensures old(engine.phase) in {PlayerTurn, DealerTurn} ==>
      engine.phase == DealerTurn &&
      |engine.dealerHand.cards| >= |old(engine.dealerHand.cards)| &&
      ((forall i :: 0 <= i < |engine.players| && Dealt(engine.players[i]) ==> AllHandsOut(engine.players[i]))
        ==> engine.dealerHand == HoleRevealed(old(engine.dealerHand))) &&
      ((exists i :: 0 <= i < |engine.players| && Dealt(engine.players[i]) && !AllHandsOut(engine.players[i]))
        ==> !engine.DealerShouldHit())
  {
    if engine.phase == PlayerTurn || engine.phase == DealerTurn {
      var busted := engine.AllPlayersBusted();
      if !busted {
        engine.StartDealerTurn();
        while engine.DealerShouldHit()
          invariant engine.Valid() && engine.phase == DealerTurn
          invariant |engine.dealerHand.cards| >= |old(engine.dealerHand.cards)|
          decreases 17 - HardSum(engine.dealerHand.cards)
        {
          ghost var cards := engine.dealerHand.cards;
          var c := engine.DealerHit();
          HardSumAppend(cards, c);
        }
      } else {
        engine.StartDealerTurn();
      }
    }
  }

  /** A played round's steps 2 and 3: the simulated player's bet (with the
      AI players' when wonging) and the deal; at the insurance prompt a
      counting strategy insures at a true count of 3 or more, and play moves
      on to the player turns. */
  method DealIn(engine: GameEngine, config: SimulationConfig, playerIndex: int, bet: real, customRunningCount: int)
    requires engine.Valid()
    modifies engine`phase, engine`activePlayerIndex, engine`dealerHand, engine`roundResults, engine`players,
             engine`roundNumber, engine`reshuffled, engine.shoe
    ensures engine.Valid()
  {
    var placed := engine.PlaceBet(playerIndex, bet);
    if config.playStrategy == Wonging {
      engine.PlaceAIBets();
    }
    ghost var seats, dealt := engine.Deal();
    if engine.phase == InsurancePrompt {
      if UsesCounting(config.playStrategy) {
        var insTc := SimTrueCount(config.playStrategy, engine, customRunningCount);
        if insTc >= 3.0 {
          var insured := engine.PlaceInsurance(playerIndex);
        }
      }
      engine.ResolveInsuranceAndContinue();
    }
  }

  /** A sit-out round on the table: only the AI players bet, insurance is
      passed over, and a round that did not end at the deal is played out
      with the simulated player watching. */
  method WatchRound(engine: GameEngine, config: SimulationConfig, playerIndex: int)
    requires engine.Valid() && 0 <= playerIndex < |engine.players|
    modifies engine`phase, engine`activePlayerIndex, engine`dealerHand, engine`roundResults, engine`players,
             engine`roundNumber, engine`reshuffled, engine.shoe
    ensures engine.Valid()
  {
    engine.PlaceAIBets();
    ghost var seats, dealt := engine.Deal();
    if engine.phase == InsurancePrompt {
      engine.ResolveInsuranceAndContinue();
    }
    if engine.phase != RoundOver && engine.phase != Resolving {
      PlayOut(engine, config, playerIndex, false);
    }
  }

  /** The rest of a round that did not end at the deal: the player turns,
      the dealer, and the settlement of every hand. */
  method PlayOut(engine: GameEngine, config: SimulationConfig, humanIndex: int, humanIsPlaying: bool)
    requires engine.Valid() && 0 <= humanIndex < |engine.players|
    modifies engine`phase, engine`activePlayerIndex, engine`dealerHand, engine`roundResults, engine`players, engine.shoe
    ensures engine.Valid() && engine.phase == RoundOver
  {
    if engine.phase == PlayerTurn {
      ghost var moves := PlayAllPlayerTurns(engine, config, humanIndex, humanIsPlaying);
    }
    PlayDealer(engine);
    engine.ResolveAllHands();
  }

  // ------------------------------------------------------------ the simulation

  /** The figures a chunk closes with, for a final bankroll: the net against
      the starting bankroll, the house edge as the net lost per unit wagered,
      the average bet per hand played (both zero when nothing was wagered or
      played), and the progress. */
  predicate FinalStats(r: SimulationResults, progress: Progress, finalBankroll: real, config: SimulationConfig)
  {
    r.finalBankroll == finalBankroll &&
    r.netProfit == finalBankroll - config.settings.startingBankroll &&
    (r.totalWagered > 0.0 ==> r.houseEdge * r.totalWagered == -r.netProfit) &&
    (r.totalWagered <= 0.0 ==> r.houseEdge == 0.0) &&
    (r.handsPlayed > 0 ==> r.avgBet * r.handsPlayed as real == r.totalWagered) &&
    (r.handsPlayed == 0 ==> r.avgBet == 0.0) &&
    progress == Progress(r.roundsPlayed, config.numberOfHands, finalBankroll)
  }

  /** SimulationState: the engine it drives, its configuration, the results
      so far, the betting progression and the parallel count. */
  class Simulation {
    const engine: GameEngine
    const config: SimulationConfig
    var results: SimulationResults
    var progress: Progress
    const progression: ProgressionState
    var done: bool
    const playerIndex: int
    const sampleInterval: int
    var customRunningCount: int
    var prevCardsRemaining: int

    /** Everything but the round boundary: the engine is consistent and set
        up as the simulation configured it, the results are consistent, and
        the progression keeps its system's invariant. */
    ghost predicate Core()
      reads this, engine, engine.shoe, progression
    {
      engine.Valid() &&
      engine.settings == SimSettings(config) &&
      playerIndex == 0 &&
      sampleInterval == SampleInterval(config.numberOfHands) &&
      ResultsOk(results, config.settings.startingBankroll, sampleInterval) &&
      Inv(progression.Snapshot(), config.betSystem)
    }

    /** Between rounds: the engine is back at betting, the simulated
        player's bankroll lies between the recorded low and peak, and no more
        rounds were played than configured. */
    ghost predicate Valid()
      reads this, engine, engine.shoe, progression
    {
      Core() &&
      engine.phase == Betting &&
      results.lowBankroll <= engine.players[playerIndex].bankroll <= results.peakBankroll &&
      (results.roundsPlayed <= config.numberOfHands || results.roundsPlayed == 0)
    }

    /** createSimulation: a fresh engine for the simulation's table, the
        initial results and progression, and the shoe's card count as the
        reshuffle reference. */
    constructor (config: SimulationConfig)
      requires config.settings.numberOfDecks >= 1
      ensures Valid() && fresh(engine) && fresh(engine.shoe) && fresh(progression)
      ensures this.config == config && !done && customRunningCount == 0
      ensures results == InitialResults(config.settings.startingBankroll)
      ensures progress == Progress(0, config.numberOfHands, config.settings.startingBankroll)
      ensures progression.Snapshot() == InitialProgression
      ensures |engine.players| == (if config.playStrategy == Wonging then WongAIPlayers else 0) + 1
      ensures engine.players[0].isHuman && prevCardsRemaining == 52 * config.settings.numberOfDecks
    {
      var simSettings := SimSettings(config);
      var e := new GameEngine(simSettings);
      var startingBankroll := config.settings.startingBankroll;
      var p := new ProgressionState();
      InitialProgressionOk(config.betSystem);
      InitialResultsOk(startingBankroll, SampleInterval(config.numberOfHands));
      engine := e;
      this.config := config;
      results := InitialResults(startingBankroll);
      progress := Progress(0, config.numberOfHands, startingBankroll);
      progression := p;
      done := false;
      playerIndex := 0;
      sampleInterval := SampleInterval(config.numberOfHands);
      customRunningCount := 0;
      prevCardsRemaining := e.shoe.CardsRemaining();
    }

    /** Step 8's parallel count: the tags of every card on the table are
        added to the running count, and the shoe's size is noted. */
    method CountTable(custom: Option<CountSystem>)
      modifies this`customRunningCount, this`prevCardsRemaining
      ensures custom.Some? ==>
        customRunningCount == old(customRunningCount) + SeatsTag(custom.value, engine.players) +
                              TagSum(custom.value, engine.dealerHand.cards) &&
        prevCardsRemaining == engine.shoe.CardsRemaining()
      ensures custom.None? ==> customRunningCount == old(customRunningCount) && prevCardsRemaining == old(prevCardsRemaining)
    {
      if custom.Some? {
        var tally := TallyCustomCount(engine, custom.value);
        customRunningCount := customRunningCount + tally;
        prevCardsRemaining := engine.shoe.CardsRemaining();
      }
    }

    /** The end of every round: add the table's cards to a parallel count
        (and note the shoe's size), count the round (and a round sat out),
        sample the bankroll, and reset the table. */
    method CloseRound(custom: Option<CountSystem>, watched: bool)
      requires Core() && results.roundsPlayed < config.numberOfHands
      modifies this`customRunningCount, this`prevCardsRemaining, this`results,
               engine`phase, engine`activePlayerIndex, engine`dealerHand, engine`roundResults, engine`players
      ensures Valid()
      ensures results == SampleBankroll(NextRound(old(results), watched),
                                        old(engine.players)[playerIndex].bankroll, engine.shoe.TrueCount(), sampleInterval)
      ensures custom.Some? ==>
        customRunningCount == old(customRunningCount) + SeatsTag(custom.value, old(engine.players)) +
                              TagSum(custom.value, old(engine.dealerHand).cards) &&
        prevCardsRemaining == engine.shoe.CardsRemaining()
      ensures custom.None? ==> customRunningCount == old(customRunningCount) && prevCardsRemaining == old(prevCardsRemaining)
    {
      CountTable(custom);
      var bankroll := engine.players[playerIndex].bankroll;
      var tc := engine.shoe.TrueCount();
      SampleNextRoundOk(results, config.settings.startingBankroll, sampleInterval, watched, bankroll, tc);
      results := SampleBankroll(NextRound(results, watched), bankroll, tc, sampleInterval);
      engine.ResetForNewRound();
      assert engine.players[playerIndex] == old(engine.players)[playerIndex].(hands := [CreateEmptyHand(0.0)], currentHandIndex := 0);
    }

    /** Step 8 of a played round: tally the simulated seat's results and move
        the progression on by its first result. */
    method SettleRound()
      requires Core()
      modifies this`results, progression
      ensures Core()
      ensures results == Tally(old(results), engine.roundResults, playerIndex)
      ensures var first := FirstResult(engine.roundResults, playerIndex);
        (first.Some? ==> progression.Snapshot() == Next(old(progression.Snapshot()), config.betSystem, first.value)) &&
        (first.None? ==> progression.Snapshot() == old(progression.Snapshot()))
    {
      TallyOk(results, engine.roundResults, playerIndex, config.settings.startingBankroll, sampleInterval);
      var tallied, roundResult := TallyRoundResults(engine.roundResults, results, playerIndex);
      results := tallied;
      if roundResult.Some? {
        progression.UpdateProgression(config.betSystem, roundResult.value);
      }
    }

    /** runSimulationChunk's sit-out round for a wonging player below the
        threshold: only the AI players bet, and the round runs to its end
        with the simulated player watching. */
    method SitOutRound(custom: Option<CountSystem>)
      requires Valid() && results.roundsPlayed < config.numberOfHands
      modifies this`customRunningCount, this`prevCardsRemaining, this`results,
               engine`phase, engine`activePlayerIndex, engine`dealerHand, engine`roundResults, engine`players,
               engine`roundNumber, engine`reshuffled, engine.shoe
      ensures Valid()
      ensures results.roundsPlayed == old(results.roundsPlayed) + 1
      ensures results.roundsWatched == old(results.roundsWatched) + 1
      ensures results.handsPlayed == old(results.handsPlayed) && results.totalWagered == old(results.totalWagered)
    {
      WatchRound(engine, config, playerIndex);
      CloseRound(custom, true);
    }

    /** runSimulationChunk's played round: size the bet, bet and deal,
        settle at once after a dealer blackjack or else play the round out,
        and close the round. Returns the bet, which is added to the amount
        wagered. */
    method PlayRound(custom: Option<CountSystem>, trueCount: real) returns (bet: real)
      requires Valid() && results.roundsPlayed < config.numberOfHands
      modifies this`customRunningCount, this`prevCardsRemaining, this`results, progression,
               engine`phase, engine`activePlayerIndex, engine`dealerHand, engine`roundResults, engine`players,
               engine`roundNumber, engine`reshuffled, engine.shoe
      ensures Valid()
      ensures bet >= config.settings.minimumBet
      ensures var bankroll := old(engine.players[playerIndex].bankroll);
        config.settings.minimumBet <= MinR(bankroll, config.settings.maximumBet) ==>
          bet <= MinR(bankroll, config.settings.maximumBet)
      ensures results.roundsPlayed == old(results.roundsPlayed) + 1
      ensures results.roundsWatched == old(results.roundsWatched)
      ensures results.totalWagered == old(results.totalWagered) + bet
    {
      var bankroll := engine.players[playerIndex].bankroll;
      bet := CalculateSimBet(config, progression.Snapshot(), trueCount, bankroll);
      DealIn(engine, config, playerIndex, bet, customRunningCount);
      results := results.(totalWagered := results.totalWagered + bet);
      if engine.phase != RoundOver && engine.phase != Resolving {
        PlayOut(engine, config, playerIndex, true);
      }
      SettleRound();
      CloseRound(custom, false);
    }

    /** The rounds the next chunk plays: up to 500, and no more than remain. */
    function ChunkHands(): int
      reads this
    {
      Min(ChunkSize, config.numberOfHands - results.roundsPlayed)
    }

    /** runSimulationChunk: play up to 500 rounds, stopping early once the
        simulated player cannot cover the table minimum; before each round a
        reshuffle (the shoe grew) clears a parallel count, and a wonging
        player below the threshold sits the round out. Then the final
        bankroll, the net, the house edge (the net lost per unit wagered), the
        average bet and the progress are recorded, and the simulation is done
        once every configured round has been played. */
    method RunSimulationChunk() returns (ghost bankrupt: bool)
      requires Valid()
      modifies this, progression,
               engine`phase, engine`activePlayerIndex, engine`dealerHand, engine`roundResults, engine`players,
               engine`roundNumber, engine`reshuffled, engine.shoe
      ensures Valid()
      ensures old(ChunkHands()) >= 0 && !bankrupt ==>
        results.roundsPlayed == old(results.roundsPlayed) + old(ChunkHands())
      ensures old(ChunkHands()) < 0 ==> results.roundsPlayed == old(results.roundsPlayed)
      ensures bankrupt ==>
        old(results.roundsPlayed) <= results.roundsPlayed < old(results.roundsPlayed) + old(ChunkHands()) &&
        engine.players[playerIndex].bankroll < config.settings.minimumBet
      ensures results.roundsWatched - old(results.roundsWatched) <= results.roundsPlayed - old(results.roundsPlayed)
      ensures done <==> old(done) || bankrupt || results.roundsPlayed >= config.numberOfHands
      ensures FinalStats(results, progress, engine.players[playerIndex].bankroll, config)
    {
      var handsThisChunk := ChunkHands();
      bankrupt := false;
      var i := 0;
      while i < handsThisChunk
        invariant Valid() && done == old(done) && !bankrupt
        invariant 0 <= i <= Max(handsThisChunk, 0)
        invariant results.roundsPlayed == old(results.roundsPlayed) + i
        invariant results.roundsWatched - old(results.roundsWatched) <= i
        decreases handsThisChunk - i
      {
        var player := engine.players[playerIndex];
        if player.bankroll < config.settings.minimumBet {
          done := true;
          bankrupt := true;
          break;
        }
        PlayNextRound();
        i := i + 1;
      }
      RecordFinalStats();
      if results.roundsPlayed >= config.numberOfHands {
        done := true;
      }
    }

    /** One round of the chunk: a reshuffle (the shoe holds more cards than
        after the last round) clears a parallel count; then a wonging player
        below the threshold sits the round out, and any other player plays it. */
    method PlayNextRound()
      requires Valid() && results.roundsPlayed < config.numberOfHands
      modifies this`customRunningCount, this`prevCardsRemaining, this`results, progression,
               engine`phase, engine`activePlayerIndex, engine`dealerHand, engine`roundResults, engine`players,
               engine`roundNumber, engine`reshuffled, engine.shoe
      ensures Valid()
      ensures results.roundsPlayed == old(results.roundsPlayed) + 1
      ensures results.roundsWatched <= old(results.roundsWatched) + 1
      ensures results.roundsWatched == old(results.roundsWatched) + 1 ==> config.playStrategy == Wonging
    {
      var customSystem := CustomSystem(config.playStrategy);
      if customSystem.Some? {
        var remaining := engine.shoe.CardsRemaining();
        if remaining > prevCardsRemaining {
          customRunningCount := 0;
        }
      }
      var tc := SimTrueCount(config.playStrategy, engine, customRunningCount);
      if config.playStrategy == Wonging && tc < config.wongThreshold {
        SitOutRound(customSystem);
      } else {
        var bet := PlayRound(customSystem, tc);
      }
    }

    /** The chunk's closing figures: the final bankroll, the net, the house
        edge (the net lost per unit wagered), the average bet per hand, and
        the progress; nothing else in the results changes. */
    method RecordFinalStats()
      requires Valid()
      modifies this`results, this`progress
      ensures Valid()
      ensures results == old(results).(finalBankroll := results.finalBankroll, netProfit := results.netProfit,
                                        houseEdge := results.houseEdge, avgBet := results.avgBet)
      ensures FinalStats(results, progress, engine.players[playerIndex].bankroll, config)
    {
      var finalBankroll := engine.players[playerIndex].bankroll;
      var netProfit := finalBankroll - config.settings.startingBankroll;
      results := results.(
        finalBankroll := finalBankroll,
        netProfit := netProfit,
        houseEdge := if results.totalWagered > 0.0 then -netProfit / results.totalWagered else 0.0,
        avgBet := if results.handsPlayed > 0 then results.totalWagered / results.handsPlayed as real else 0.0);
      progress := Progress(results.roundsPlayed, config.numberOfHands, finalBankroll);
    }
  }

  /** The bankroll history of a simulation never holds more than about two
      thousand points, however many hands it is configured for. */
  lemma HistoryBounded(sim: Simulation)
    requires sim.Valid()
    ensures |sim.results.bankrollHistory| <= 2001
  {
    var n := sim.config.numberOfHands;
    var played := sim.results.roundsPlayed;
    if played > 0 {
      SampleCountMonotone(played, n, sim.sampleInterval);
      SampleCountBounds(n);
    }
  }
}
