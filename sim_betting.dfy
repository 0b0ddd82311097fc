/** The simulator's bet sizing: spread tables, Kelly, and the progression
    systems with the state they carry from hand to hand (resolveBetFromSpread,
    calculateSimBet and updateProgression in src/engine/simulator.ts). */
module SimBetting {
  import opened Wrappers
  import opened Numeric
  import opened Hands
  import opened Settings
  import opened Counting
  import opened SimCounting

  datatype BetSystem = Flat | Spread | Kelly | Martingale | Paroli | OneThreeTwoSix
                     | OscarsGrind | Fibonacci | Dalembert | Labouchere

  /** One spread row: from this true count up, bet this many units. */
  datatype SpreadEntry = SpreadEntry(threshold: int, units: real)

  predicate Ascending(rows: seq<SpreadEntry>)
  {
    forall i, j :: 0 <= i < j < |rows| ==> rows[i].threshold < rows[j].threshold
  }

  /** A spread table, listed by increasing threshold: the order in which the
      thresholds are visited once sorted. */
  type BetSpread = rows: seq<SpreadEntry> | Ascending(rows) witness []

  const Conservative: BetSpread :=
    [SpreadEntry(1, 1.0), SpreadEntry(2, 2.0), SpreadEntry(3, 3.0), SpreadEntry(4, 4.0), SpreadEntry(5, 4.0)]
  const Moderate: BetSpread :=
    [SpreadEntry(1, 1.0), SpreadEntry(2, 2.0), SpreadEntry(3, 4.0), SpreadEntry(4, 6.0), SpreadEntry(5, 8.0)]
  const Aggressive: BetSpread :=
    [SpreadEntry(1, 1.0), SpreadEntry(2, 2.0), SpreadEntry(3, 4.0), SpreadEntry(4, 8.0), SpreadEntry(5, 12.0)]
  const WongSpread: BetSpread :=
    [SpreadEntry(1, 1.0), SpreadEntry(2, 4.0), SpreadEntry(3, 8.0), SpreadEntry(4, 12.0), SpreadEntry(5, 16.0)]
  const DefaultBetSpread: BetSpread := Aggressive

  datatype SimulationConfig = SimulationConfig(
    playStrategy: PlayStrategy,
    betSystem: BetSystem,
    betAmount: real,
    numberOfHands: int,
    betSpread: BetSpread,
    wongThreshold: real,
    kellyFraction: real,
    settings: GameSettings)

  // ------------------------------------------------------------ spreads

  /** The last of the first `n` rows whose threshold the count reaches. */
  function LastReached(spread: BetSpread, trueCount: real, n: nat): (r: Option<nat>)
    requires n <= |spread|
    ensures r.Some? ==> r.value < n && spread[r.value].threshold as real <= trueCount
    ensures r.Some? ==> forall k :: r.value < k < n ==> spread[k].threshold as real > trueCount
    ensures r.None? ==> forall k :: 0 <= k < n ==> spread[k].threshold as real > trueCount
  {
    if n == 0 then None
    else if spread[n - 1].threshold as real <= trueCount then Some(n - 1)
    else LastReached(spread, trueCount, n - 1)
  }

  /** The units the spread gives at `trueCount`. */
  function SpreadUnits(spread: BetSpread, trueCount: real): real
  {
    var r := LastReached(spread, trueCount, |spread|);
    if r.Some? then spread[r.value].units else 1.0
  }

  /** The spread gives the units of the largest threshold the count reaches,
      or one unit when it reaches none. */
  lemma SpreadUnitsMeaning(spread: BetSpread, trueCount: real)
    ensures (forall k :: 0 <= k < |spread| ==> spread[k].threshold as real > trueCount) ==> SpreadUnits(spread, trueCount) == 1.0
    ensures (exists k :: 0 <= k < |spread| && spread[k].threshold as real <= trueCount) ==>
      exists k :: 0 <= k < |spread| && spread[k].threshold as real <= trueCount && SpreadUnits(spread, trueCount) == spread[k].units &&
        forall j :: 0 <= j < |spread| && spread[j].threshold as real <= trueCount ==> spread[j].threshold <= spread[k].threshold
  {
    var r := LastReached(spread, trueCount, |spread|);
    if r.Some? {
      assert forall j :: 0 <= j < |spread| && spread[j].threshold as real <= trueCount ==> j <= r.value;
    }
  }

  /** resolveBetFromSpread: walk the thresholds in ascending order, keeping the
      units of the last one the count reaches, then cap the stake by the
      bankroll and the table maximum. */
  method ResolveBetFromSpread(trueCount: real, betUnit: real, spread: BetSpread, bankroll: real, maxBet: real)
    returns (bet: real)
    ensures bet == MinR(MinR(SpreadUnits(spread, trueCount) * betUnit, bankroll), maxBet)
    ensures bet <= bankroll && bet <= maxBet
  {
    var units := 1.0;
    for i := 0 to |spread|
      invariant units == (var r := LastReached(spread, trueCount, i); if r.Some? then spread[r.value].units else 1.0)
    {
      if trueCount >= spread[i].threshold as real {
        units := spread[i].units;
      }
    }
    bet := MinR(MinR(units * betUnit, bankroll), maxBet);
  }

  /** The aggressive 1-12 spread agrees with the counting module's ramp at the
      whole counts 1 to 5. */
  lemma AggressiveSpreadMatchesRamp(n: int)
    requires 1 <= n <= 5
    ensures SpreadUnits(Aggressive, n as real) == RampUnits(n as real) as real
  {
    match n {
      case 1 => assert LastReached(Aggressive, 1.0, 5) == Some(0);
      case 2 => assert LastReached(Aggressive, 2.0, 5) == Some(1);
      case 3 => assert LastReached(Aggressive, 3.0, 5) == Some(2);
      case 4 => assert LastReached(Aggressive, 4.0, 5) == Some(3);
      case 5 => assert LastReached(Aggressive, 5.0, 5) == Some(4);
    }
  }

  /** Between whole counts they part: at 1.5 the spread still bets one unit
      where the ramp already bets twelve. */
  lemma AggressiveSpreadBetweenCounts()
    ensures SpreadUnits(Aggressive, 1.5) == 1.0 && RampUnits(1.5) == 12
  {
    assert LastReached(Aggressive, 1.5, 5) == Some(0);
  }

  // ------------------------------------------------------------ progressions

  datatype Outcome = Won | Lost | Pushed

  /** The progression state one simulation carries between hands. */
  datatype Progression = Progression(
    currentMultiplier: int,
    consecutiveWins: int,
    sequenceStep: int,
    seriesProfit: int,
    currentUnits: int,
    lastResult: Option<Outcome>,
    fibIndex: int,
    labouchereSeq: seq<int>)

  const InitialProgression := Progression(1, 0, 0, 0, 1, None, 0, [1, 2, 3, 4])
  const OneThreeTwoSixSteps: seq<int> := [1, 3, 2, 6]
  const FibonacciUnits: seq<int> := [1, 1, 2, 3, 5, 8, 13, 21, 34, 55, 89, 144]

  /** A win is a win or a blackjack; a loss is a loss or a surrender. */
  predicate IsWin(r: HandResult) { r == Win || r == Blackjack }
  predicate IsLoss(r: HandResult) { r == Loss || r == Surrendered }

  function Pow2(n: nat): (p: int)
    ensures p >= 1
  {
    if n == 0 then 1 else 2 * Pow2(n - 1)
  }

  function Sum(s: seq<int>): int
  {
    if s == [] then 0 else Sum(s[..|s| - 1]) + s[|s| - 1]
  }

  /** The fields every system keeps in range, so that every table lookup is defined. */
  predicate InRange(p: Progression)
  {
    p.currentMultiplier >= 1 && 0 <= p.consecutiveWins <= 2 && 0 <= p.sequenceStep < |OneThreeTwoSixSteps|
    && p.currentUnits >= 1 && 0 <= p.fibIndex < |FibonacciUnits|
    && |p.labouchereSeq| >= 1 && forall i :: 0 <= i < |p.labouchereSeq| ==> p.labouchereSeq[i] >= 1
  }

  /** What each system keeps true of its own fields: Paroli's multiplier is
      two to the number of wins in the current run, and an Oscar's Grind
      series can never win more than one unit. */
  predicate Inv(p: Progression, system: BetSystem)
  {
    InRange(p)
    && (system == Paroli ==> p.currentMultiplier == Pow2(p.consecutiveWins))
    && (system == OscarsGrind ==> p.seriesProfit + p.currentUnits <= 1)
  }

  lemma InitialProgressionOk(system: BetSystem)
    ensures Inv(InitialProgression, system)
  {
  }

  /** The Labouchere stake in units: first plus last entry, the single entry
      when only one is left, and one unit when the line is empty. */
  function LabouchereUnits(line: seq<int>): (u: int)
    ensures |line| >= 2 ==> u == line[0] + line[|line| - 1]
    ensures |line| == 1 ==> u == line[0]
    ensures line == [] ==> u == 1
  {
    if |line| == 0 then 1 else if |line| == 1 then line[0] else line[0] + line[|line| - 1]
  }

  function Min(a: int, b: int): int { if a <= b then a else b }
  function Max(a: int, b: int): int { if a >= b then a else b }

  /** Martingale: double after a loss, back to one unit otherwise. */
  function MartingaleStep(p: Progression, lost: bool): (q: Progression)
    ensures InRange(p) ==> InRange(q)
  {
    p.(currentMultiplier := if lost then p.currentMultiplier * 2 else 1)
  }

  /** Paroli: double after each win, banking the run at the third. */
  function ParoliStep(p: Progression, won: bool): (q: Progression)
    ensures InRange(p) && p.currentMultiplier == Pow2(p.consecutiveWins) ==>
              InRange(q) && q.currentMultiplier == Pow2(q.consecutiveWins)
  {
    if won then
      if p.consecutiveWins + 1 >= 3 then p.(consecutiveWins := 0, currentMultiplier := 1)
      else p.(consecutiveWins := p.consecutiveWins + 1, currentMultiplier := p.currentMultiplier * 2)
    else p.(consecutiveWins := 0, currentMultiplier := 1)
  }

  /** 1-3-2-6: one step along after a win, wrapping after the fourth; back to the start otherwise. */
  function OneThreeTwoSixStep(p: Progression, won: bool): (q: Progression)
    ensures InRange(p) ==> InRange(q)
  {
    p.(sequenceStep := if won && p.sequenceStep + 1 <= 3 then p.sequenceStep + 1 else 0)
  }

  /** Oscar's Grind: a win books its units and raises the stake by one, capped
      at what completes the +1 series; a loss books its units at the same stake. */
  function OscarStep(p: Progression, won: bool, lost: bool): (q: Progression)
    ensures InRange(p) && p.seriesProfit + p.currentUnits <= 1 ==>
              InRange(q) && q.seriesProfit + q.currentUnits <= 1
  {
    if won then
      var profit := p.seriesProfit + p.currentUnits;
      if profit >= 1 then p.(seriesProfit := 0, currentUnits := 1)
      else p.(seriesProfit := profit, currentUnits := Min(p.currentUnits + 1, 1 - profit))
    else if lost then p.(seriesProfit := p.seriesProfit - p.currentUnits)
    else p
  }

  /** Fibonacci: one place up after a loss (stopping at the end of the
      sequence), two places down after a win (stopping at the start). */
  function FibonacciStep(p: Progression, won: bool, lost: bool): (q: Progression)
    ensures InRange(p) ==> InRange(q)
  {
    if lost then p.(fibIndex := Min(p.fibIndex + 1, |FibonacciUnits| - 1))
    else if won then p.(fibIndex := Max(p.fibIndex - 2, 0))
    else p
  }

  /** D'Alembert: one unit more after a loss, one less (never below one) after a win. */
  function DalembertStep(p: Progression, won: bool, lost: bool): (q: Progression)
    ensures InRange(p) ==> InRange(q)
  {
    if lost then p.(currentUnits := p.currentUnits + 1)
    else if won then p.(currentUnits := Max(1, p.currentUnits - 1))
    else p
  }

  /** Labouchere: a win strikes off both ends (starting a new line when
      nothing is left), a loss writes its stake at the end. */
  function LabouchereStep(p: Progression, won: bool, lost: bool): (q: Progression)
    ensures InRange(p) ==> InRange(q)
  {
    var line := p.labouchereSeq;
    if won then
      var rest := if |line| > 1 then line[1..|line| - 1] else [];
      p.(labouchereSeq := if rest == [] then [1, 2, 3, 4] else rest)
    else if lost then p.(labouchereSeq := line + [LabouchereUnits(line)])
    else p
  }

  /** updateProgression as a function of the old state: the system's own
      step, then the outcome recorded. */
  function Next(p: Progression, system: BetSystem, result: HandResult): (q: Progression)
    ensures Inv(p, system) ==> Inv(q, system)
    ensures q.lastResult == Some(if IsWin(result) then Won else if IsLoss(result) then Lost else Pushed)
  {
    var won := IsWin(result);
    var lost := IsLoss(result);
    var q := match system
      case Martingale => MartingaleStep(p, lost)
      case Paroli => ParoliStep(p, won)
      case OneThreeTwoSix => OneThreeTwoSixStep(p, won)
      case OscarsGrind => OscarStep(p, won, lost)
      case Fibonacci => FibonacciStep(p, won, lost)
      case Dalembert => DalembertStep(p, won, lost)
      case Labouchere => LabouchereStep(p, won, lost)
      case _ => p;
    q.(lastResult := Some(if won then Won else if lost then Lost else Pushed))
  }

  /** Martingale: every loss doubles the stake, anything else resets it. */
  function LosingRun(p: Progression, n: nat): Progression
  {
    if n == 0 then p else Next(LosingRun(p, n - 1), Martingale, Loss)
  }

  /** After n straight losses from the start the Martingale multiplier is 2^n,
      and one win at that stake recovers all n losses plus one unit. */
  lemma {:induction false} MartingaleDoubling(n: nat)
    ensures LosingRun(InitialProgression, n).currentMultiplier == Pow2(n)
    ensures Pow2(n) == SumPow2(n) + 1
  {
    if n > 0 {
      MartingaleDoubling(n - 1);
    }
  }

  function SumPow2(n: nat): int
  {
    if n == 0 then 0 else SumPow2(n - 1) + Pow2(n - 1)
  }

  lemma MartingaleResets(p: Progression, result: HandResult)
    requires !IsLoss(result)
    ensures Next(p, Martingale, result).currentMultiplier == 1
  {
  }

  /** Paroli: from a fresh run, wins take the multiplier 1, 2, 4 and the third
      win banks the run and goes back to 1; a non-win resets at once. */
  lemma ParoliCycle(p: Progression, other: HandResult)
    requires Inv(p, Paroli) && p.consecutiveWins == 0
    requires !IsWin(other)
    ensures var q1 := Next(p, Paroli, Win);
      var q2 := Next(q1, Paroli, Win);
      var q3 := Next(q2, Paroli, Win);
      p.currentMultiplier == 1 && q1.currentMultiplier == 2 && q2.currentMultiplier == 4 &&
      q3.currentMultiplier == 1 && q3.consecutiveWins == 0
    ensures Next(Next(p, Paroli, Win), Paroli, other).currentMultiplier == 1
  {
  }

  /** 1-3-2-6: four straight wins bet 1, 3, 2 and 6 units and return to the start. */
  lemma OneThreeTwoSixCycle(p: Progression)
    requires p.sequenceStep == 0
    ensures var q1 := Next(p, OneThreeTwoSix, Win);
      var q2 := Next(q1, OneThreeTwoSix, Win);
      var q3 := Next(q2, OneThreeTwoSix, Win);
      var q4 := Next(q3, OneThreeTwoSix, Win);
      [OneThreeTwoSixSteps[p.sequenceStep], OneThreeTwoSixSteps[q1.sequenceStep],
       OneThreeTwoSixSteps[q2.sequenceStep], OneThreeTwoSixSteps[q3.sequenceStep]] == [1, 3, 2, 6] &&
      q4.sequenceStep == 0
  {
  }

  /** Oscar's Grind: a win never takes a series past +1 unit, and the series
      closes (back to one unit, zero profit) exactly when the win reaches +1. */
  lemma OscarNeverOvershoots(p: Progression)
    requires Inv(p, OscarsGrind)
    ensures p.seriesProfit + p.currentUnits <= 1
    ensures var q := Next(p, OscarsGrind, Win);
      (p.seriesProfit + p.currentUnits == 1 ==> q.seriesProfit == 0 && q.currentUnits == 1) &&
      (p.seriesProfit + p.currentUnits < 1 ==>
         q.seriesProfit == p.seriesProfit + p.currentUnits && q.seriesProfit + q.currentUnits <= 1)
    ensures Next(p, OscarsGrind, Loss).currentUnits == p.currentUnits
  {
  }

  lemma {:induction false} SumFront(s: seq<int>)
    requires |s| >= 1
    ensures Sum(s) == s[0] + Sum(s[1..])
  {
    if |s| > 1 {
      SumFront(s[..|s| - 1]);
      assert s[..|s| - 1][1..] == s[1..][..|s| - 2];
    }
  }

  /** Labouchere: a loss adds its stake to the line and a win strikes it off,
      so the line's total always equals what the series still has to win. */
  lemma LabouchereBalance(p: Progression)
    requires Inv(p, Labouchere)
    ensures var line := p.labouchereSeq;
      Sum(Next(p, Labouchere, Loss).labouchereSeq) == Sum(line) + LabouchereUnits(line) &&
      (|line| >= 3 ==> Sum(Next(p, Labouchere, Win).labouchereSeq) == Sum(line) - LabouchereUnits(line)) &&
      (|line| <= 2 ==> Next(p, Labouchere, Win).labouchereSeq == [1, 2, 3, 4])
  {
    var line := p.labouchereSeq;
    assert (line + [LabouchereUnits(line)])[..|line|] == line;
    if |line| >= 3 {
      SumFront(line[..|line| - 1]);
      assert line[..|line| - 1][1..] == line[1..|line| - 1];
    }
  }

  /** The progression's fields, updated in place. */
  class ProgressionState {
    var currentMultiplier: int
    var consecutiveWins: int
    var sequenceStep: int
    var seriesProfit: int
    var currentUnits: int
    var lastResult: Option<Outcome>
    var fibIndex: int
    var labouchereSeq: seq<int>

    function Snapshot(): Progression
      reads this
    {
      Progression(currentMultiplier, consecutiveWins, sequenceStep, seriesProfit, currentUnits,
                  lastResult, fibIndex, labouchereSeq)
    }

    /** createProgressionState. */
    constructor ()
      ensures Snapshot() == InitialProgression
    {
      currentMultiplier := 1;
      consecutiveWins := 0;
      sequenceStep := 0;
      seriesProfit := 0;
      currentUnits := 1;
      lastResult := None;
      fibIndex := 0;
      labouchereSeq := [1, 2, 3, 4];
    }

    /** updateProgression: the system's fields move as `Next` says and the
        system's invariant is kept. */
    method UpdateProgression(system: BetSystem, result: HandResult)
      modifies this
      ensures Snapshot() == Next(old(Snapshot()), system, result)
      ensures Inv(old(Snapshot()), system) ==> Inv(Snapshot(), system)
    {
      var won := IsWin(result);
      var lost := IsLoss(result);
      match system {
        case Martingale =>
          if lost { currentMultiplier := currentMultiplier * 2; } else { currentMultiplier := 1; }
        case Paroli =>
          if won {
            consecutiveWins := consecutiveWins + 1;
            currentMultiplier := currentMultiplier * 2;
            if consecutiveWins >= 3 {
              consecutiveWins := 0;
              currentMultiplier := 1;
            }
          } else {
            consecutiveWins := 0;
            currentMultiplier := 1;
          }
        case OneThreeTwoSix =>
          if won {
            sequenceStep := sequenceStep + 1;
            if sequenceStep > 3 { sequenceStep := 0; }
          } else {
            sequenceStep := 0;
          }
        case OscarsGrind =>
          if won {
            seriesProfit := seriesProfit + currentUnits;
            if seriesProfit >= 1 {
              seriesProfit := 0;
              currentUnits := 1;
            } else {
              var needed := 1 - seriesProfit;
              currentUnits := Min(currentUnits + 1, needed);
            }
          } else if lost {
            seriesProfit := seriesProfit - currentUnits;
          }
        case Fibonacci =>
          if lost {
            fibIndex := Min(fibIndex + 1, |FibonacciUnits| - 1);
          } else if won {
            fibIndex := Max(fibIndex - 2, 0);
          }
        case Dalembert =>
          if lost { currentUnits := currentUnits + 1; } else if won { currentUnits := Max(1, currentUnits - 1); }
        case Labouchere =>
          var line := labouchereSeq;
          if won {
            if |line| > 1 { line := line[1..|line| - 1]; } else { line := []; }
            if line == [] { line := [1, 2, 3, 4]; }
            labouchereSeq := line;
          } else if lost {
            labouchereSeq := line + [LabouchereUnits(line)];
          }
        case _ =>
      }
      lastResult := Some(if won then Won else if lost then Lost else Pushed);
    }
  }

  // ------------------------------------------------------------ stakes

  /** Math.max(Math.min(bet, bankroll, maximumBet), minimumBet). */
  function ClampBet(bet: real, bankroll: real, settings: GameSettings): (r: real)
    ensures r >= settings.minimumBet
    ensures settings.minimumBet <= MinR(bankroll, settings.maximumBet) ==> r <= MinR(bankroll, settings.maximumBet)
    ensures settings.minimumBet <= bet <= MinR(bankroll, settings.maximumBet) ==> r == bet
  {
    MaxR(MinR(MinR(bet, bankroll), settings.maximumBet), settings.minimumBet)
  }

  /** The stake of a progression system, in base bets, read off its state. */
  function ProgressionUnits(system: BetSystem, p: Progression): (u: int)
    requires InRange(p)
    ensures u >= 1
    ensures system in {Martingale, Paroli} ==> u == p.currentMultiplier
    ensures system == OneThreeTwoSix ==> u == OneThreeTwoSixSteps[p.sequenceStep]
    ensures system in {OscarsGrind, Dalembert} ==> u == p.currentUnits
    ensures system == Fibonacci ==> u == FibonacciUnits[p.fibIndex]
    ensures system == Labouchere ==> u == LabouchereUnits(p.labouchereSeq)
    ensures system in {Flat, Spread, Kelly} ==> u == 1
  {
    match system
    case Martingale => p.currentMultiplier
    case Paroli => p.currentMultiplier
    case OneThreeTwoSix => OneThreeTwoSixSteps[p.sequenceStep]
    case OscarsGrind => p.currentUnits
    case Fibonacci => FibonacciUnits[Min(p.fibIndex, |FibonacciUnits| - 1)]
    case Dalembert => p.currentUnits
    case Labouchere => LabouchereUnits(p.labouchereSeq)
    case _ => 1
  }

  /** The unclamped stake of every system except the spread: flat bets the
      base bet, Kelly a rounded share of the bankroll once the count gives an
      edge, and a progression the base bet times its units. */
  function SystemBet(config: SimulationConfig, p: Progression, trueCount: real, bankroll: real): (bet: real)
    requires config.betSystem != Spread && InRange(p)
    ensures config.betSystem == Flat ==> bet == config.betAmount
    ensures config.betSystem == Kelly && CalculatePlayerAdvantage(trueCount) <= 0.0 ==> bet == config.betAmount
    ensures config.betSystem == Kelly ==> bet >= config.betAmount
    ensures config.betSystem != Kelly ==> bet == config.betAmount * ProgressionUnits(config.betSystem, p) as real
    ensures config.betSystem != Kelly && config.betAmount >= 0.0 ==> bet >= config.betAmount
  {
    var unit := config.betAmount;
    if config.betSystem == Kelly then
      var advantage := CalculatePlayerAdvantage(trueCount);
      if advantage <= 0.0 then unit
      else MaxR(Round(bankroll * advantage * config.kellyFraction) as real, unit)
    else
      var u := ProgressionUnits(config.betSystem, p);
      MulAtLeastUnit(unit, u);
      unit * u as real
  }

  lemma MulAtLeastUnit(unit: real, u: int)
    requires u >= 1
    ensures unit >= 0.0 ==> unit * u as real >= unit
  {
    if unit >= 0.0 {
      assert unit * u as real == unit + unit * (u - 1) as real;
    }
  }

  /** The Martingale stake after n straight losses from the start is 2^n
      base bets, which is one base bet more than all n losses together. */
  lemma MartingaleStakeAfterLosses(config: SimulationConfig, n: nat, trueCount: real, bankroll: real)
    requires config.betSystem == Martingale
    ensures InRange(LosingRun(InitialProgression, n))
    ensures SystemBet(config, LosingRun(InitialProgression, n), trueCount, bankroll) ==
            config.betAmount * Pow2(n) as real
    ensures SystemBet(config, LosingRun(InitialProgression, n), trueCount, bankroll) ==
            config.betAmount * SumPow2(n) as real + config.betAmount
  {
    LosingRunFacts(n);
    MartingaleStakeAt(config, LosingRun(InitialProgression, n), n, trueCount, bankroll);
  }

  lemma MartingaleStakeAt(config: SimulationConfig, p: Progression, n: nat, trueCount: real, bankroll: real)
    requires config.betSystem == Martingale && InRange(p) && p.currentMultiplier == Pow2(n)
    ensures SystemBet(config, p, trueCount, bankroll) == config.betAmount * Pow2(n) as real
    ensures SystemBet(config, p, trueCount, bankroll) == config.betAmount * SumPow2(n) as real + config.betAmount
  {
    MartingaleDoubling(n);
    StakeSplits(config.betAmount, Pow2(n), SumPow2(n), SystemBet(config, p, trueCount, bankroll));
  }

  lemma LosingRunFacts(n: nat)
    ensures var p := LosingRun(InitialProgression, n);
      InRange(p) && p.currentMultiplier == Pow2(n) == SumPow2(n) + 1
  {
    LosingRunOk(n);
    MartingaleDoubling(n);
  }

  lemma StakeSplits(a: real, m: int, x: int, stake: real)
    requires m == x + 1 && stake == a * m as real
    ensures stake == a * x as real + a
  {
  }

  lemma {:induction false} LosingRunOk(n: nat)
    ensures Inv(LosingRun(InitialProgression, n), Martingale)
  {
    if n > 0 {
      LosingRunOk(n - 1);
    }
  }

  /** From the first step, four straight 1-3-2-6 wins stake 1, 3, 2 and 6
      base bets. */
  lemma OneThreeTwoSixStakes(config: SimulationConfig, p: Progression, trueCount: real, bankroll: real)
    requires config.betSystem == OneThreeTwoSix && InRange(p) && p.sequenceStep == 0
    ensures var q1 := Next(p, OneThreeTwoSix, Win);
      var q2 := Next(q1, OneThreeTwoSix, Win);
      var q3 := Next(q2, OneThreeTwoSix, Win);
      InRange(q1) && InRange(q2) && InRange(q3) &&
      SystemBet(config, p, trueCount, bankroll) == config.betAmount &&
      SystemBet(config, q1, trueCount, bankroll) == 3.0 * config.betAmount &&
      SystemBet(config, q2, trueCount, bankroll) == 2.0 * config.betAmount &&
      SystemBet(config, q3, trueCount, bankroll) == 6.0 * config.betAmount
  {
    OneThreeTwoSixCycle(p);
  }

  /** Kelly bets a rounded fraction of bankroll times edge once the count gives
      an edge, never less than the base unit. */
  lemma KellyStake(config: SimulationConfig, p: Progression, trueCount: real, bankroll: real)
    requires config.betSystem == Kelly && InRange(p) && trueCount > 1.0
    ensures var target := bankroll * CalculatePlayerAdvantage(trueCount) * config.kellyFraction;
      var bet := SystemBet(config, p, trueCount, bankroll);
      bet >= config.betAmount && (bet == config.betAmount || target - 0.5 < bet <= target + 0.5)
  {
    AdvantageIsIncreasing(trueCount, trueCount);
  }

  /** calculateSimBet: the system's stake, then capped by bankroll and table
      maximum and floored at the table minimum. */
  method CalculateSimBet(config: SimulationConfig, p: Progression, trueCount: real, bankroll: real)
    returns (bet: real)
    requires InRange(p)
    ensures config.betSystem != Spread ==> bet == ClampBet(SystemBet(config, p, trueCount, bankroll), bankroll, config.settings)
    ensures config.betSystem == Spread ==>
      bet == ClampBet(MinR(MinR(SpreadUnits(config.betSpread, trueCount) * config.betAmount, bankroll),
                           config.settings.maximumBet), bankroll, config.settings)
    ensures bet >= config.settings.minimumBet
    ensures config.settings.minimumBet <= MinR(bankroll, config.settings.maximumBet) ==>
              bet <= MinR(bankroll, config.settings.maximumBet)
  {
    var raw: real;
    if config.betSystem == Spread {
      raw := ResolveBetFromSpread(trueCount, config.betAmount, config.betSpread, bankroll, config.settings.maximumBet);
    } else {
      raw := SystemBet(config, p, trueCount, bankroll);
    }
    bet := ClampBet(raw, bankroll, config.settings);
  }
}
