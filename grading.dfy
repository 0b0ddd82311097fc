/** Shoe grading (src/utils/grading.ts): the decisions of a shoe are counted,
    and strategy accuracy, bet sizing and play under pressure are weighted
    into a grade out of 100. */
module Grading {
  import opened Cards
  import opened Hands
  import opened Numeric

  /** The parts of a recorded decision that grading reads (DecisionRecord in
      src/engine/types.ts). */
  datatype DecisionRecord = DecisionRecord(
    playerCards: seq<Card>,
    handTotal: HandTotal,
    isSoftHand: bool,
    isPair: bool,
    dealerUpcard: Card,
    playerAction: Action,
    correctAction: Action,
    isCorrect: bool)

  /** The parts of a recorded hand that grading reads (HandRecord). */
  datatype HandRecord = HandRecord(
    decisions: seq<DecisionRecord>,
    bet: real,
    recommendedBet: real,
    result: HandResult,
    payout: real)

  datatype ShoeRecord = ShoeRecord(
    shoeNumber: int,
    hands: seq<HandRecord>,
    correctDecisions: nat,
    totalDecisions: nat,
    grade: int,
    netProfit: real,
    startingBankroll: real,
    endingBankroll: real)

  /** isPressureDecision: hard 15 or 16 against a 7 or better, a pair of
      eights, or soft 18 against a 9, a ten-valued card or an ace. */
  predicate IsPressureDecision(d: DecisionRecord)
  {
    (!d.isSoftHand && !d.isPair && (d.handTotal.best == 15 || d.handTotal.best == 16) &&
     d.dealerUpcard.rank in {Seven, Eight, Nine, Ten, Jack, Queen, King, Ace}) ||
    (d.isPair && |d.playerCards| >= 2 && d.playerCards[0].rank == Eight) ||
    (d.isSoftHand && d.handTotal.best == 18 &&
     d.dealerUpcard.rank in {Nine, Ten, Jack, Queen, King, Ace})
  }

  /** The dealer cards that make a decision a pressure one, stated through the
      card's blackjack value: 7 or more against hard 15/16, 9 or more against
      soft 18. */
  lemma PressureByDealerValue(d: DecisionRecord)
    ensures IsPressureDecision(d) <==>
      (!d.isSoftHand && !d.isPair && 15 <= d.handTotal.best <= 16 && CardValue(d.dealerUpcard)[0] >= 7) ||
      (d.isPair && |d.playerCards| >= 2 && d.playerCards[0].rank == Eight) ||
      (d.isSoftHand && d.handTotal.best == 18 && CardValue(d.dealerUpcard)[0] >= 9)
  {
  }

  /** A pressure decision weighs twice as much as any other. */
  function Weight(d: DecisionRecord): (w: nat)
    ensures w == 2 <==> IsPressureDecision(d)
    ensures w == 1 <==> !IsPressureDecision(d)
  {
    if IsPressureDecision(d) then 2 else 1
  }

  // ------------------------------------------------------- the decisions of a shoe

  /** Every decision of every hand, hand by hand. */
  function Decisions(hands: seq<HandRecord>): seq<DecisionRecord>
  {
    if hands == [] then [] else Decisions(hands[..|hands| - 1]) + hands[|hands| - 1].decisions
  }

  function CountCorrect(ds: seq<DecisionRecord>): (n: nat)
    ensures n <= |ds|
  {
    if ds == [] then 0 else CountCorrect(ds[..|ds| - 1]) + (if ds[|ds| - 1].isCorrect then 1 else 0)
  }

  /** The pressure-weighted number of decisions. */
  function WeightTotal(ds: seq<DecisionRecord>): nat
  {
    if ds == [] then 0 else WeightTotal(ds[..|ds| - 1]) + Weight(ds[|ds| - 1])
  }

  /** The pressure-weighted number of correct decisions. */
  function WeightCorrect(ds: seq<DecisionRecord>): nat
  {
    if ds == [] then 0
    else WeightCorrect(ds[..|ds| - 1]) + (if ds[|ds| - 1].isCorrect then Weight(ds[|ds| - 1]) else 0)
  }

  /** One more decision adds one to the count, its weight to the weighted
      total, and both when it was correct. */
  lemma DecisionStep(ds: seq<DecisionRecord>, d: DecisionRecord)
    ensures CountCorrect(ds + [d]) == CountCorrect(ds) + (if d.isCorrect then 1 else 0)
    ensures WeightTotal(ds + [d]) == WeightTotal(ds) + Weight(d)
    ensures WeightCorrect(ds + [d]) == WeightCorrect(ds) + (if d.isCorrect then Weight(d) else 0)
  {
    assert (ds + [d])[..|ds|] == ds;
  }

  /** Each decision weighs one, and pressure decisions one more: the weighted
      total is the number of decisions plus the number of pressure decisions,
      and the weighted correct count never exceeds the weighted total. */
  lemma {:induction false} WeightCounts(ds: seq<DecisionRecord>)
    ensures WeightTotal(ds) == |ds| + |PressureIndices(ds)|
    ensures WeightCorrect(ds) <= WeightTotal(ds)
  {
    if ds != [] {
      WeightCounts(ds[..|ds| - 1]);
      PressureIndicesStep(ds);
    }
  }

  /** The positions of the pressure decisions. */
  function PressureIndices(ds: seq<DecisionRecord>): set<int>
  {
    set i | 0 <= i < |ds| && IsPressureDecision(ds[i])
  }

  lemma PressureIndicesStep(ds: seq<DecisionRecord>)
    requires ds != []
    ensures |PressureIndices(ds)| == |PressureIndices(ds[..|ds| - 1])| + Weight(ds[|ds| - 1]) - 1
  {
    var init := ds[..|ds| - 1];
    assert forall i :: 0 <= i < |init| ==> init[i] == ds[i];
    if IsPressureDecision(ds[|ds| - 1]) {
      assert PressureIndices(ds) == PressureIndices(init) + {|ds| - 1};
    } else {
      assert PressureIndices(ds) == PressureIndices(init);
    }
  }

  // ------------------------------------------------------------ bet sizing

  /** A hand's bet-sizing score: one minus the relative distance of the bet
      from the recommendation, floored at zero. */
  function HandBetScore(h: HandRecord): (s: real)
    requires h.recommendedBet > 0.0
    ensures 0.0 <= s <= 1.0
    ensures s == 1.0 <==> h.bet == h.recommendedBet
  {
    MaxR(0.0, 1.0 - AbsR(h.bet - h.recommendedBet) / h.recommendedBet)
  }

  /** The summed score of the hands that had a recommendation. */
  function BetScoreSum(hands: seq<HandRecord>): real
  {
    if hands == [] then 0.0
    else
      var h := hands[|hands| - 1];
      BetScoreSum(hands[..|hands| - 1]) + (if h.recommendedBet > 0.0 then HandBetScore(h) else 0.0)
  }

  /** The number of hands that had a recommendation. */
  function BetCount(hands: seq<HandRecord>): nat
  {
    if hands == [] then 0
    else BetCount(hands[..|hands| - 1]) + (if hands[|hands| - 1].recommendedBet > 0.0 then 1 else 0)
  }

  /** Only hands with a recommendation count, each contributing between 0 and 1. */
  lemma {:induction false} BetScoreSumBounds(hands: seq<HandRecord>)
    ensures 0.0 <= BetScoreSum(hands) <= BetCount(hands) as real
  {
    if hands != [] {
      BetScoreSumBounds(hands[..|hands| - 1]);
    }
  }

  // ------------------------------------------------------------ the grade

  /** The strategy component: the share of correct decisions, in percent. */
  function StrategyScore(correct: int, total: int): (s: real)
    requires total != 0
    ensures 0 <= correct <= total ==> 0.0 <= s <= 100.0
    ensures correct == total ==> s == 100.0
  {
    correct as real / total as real * 100.0
  }

  /** The bet component: the mean bet-sizing score in percent, 100 when no
      hand had a recommendation. */
  function BetScore(hands: seq<HandRecord>): (s: real)
    ensures 0.0 <= s <= 100.0
  {
    BetScoreSumBounds(hands);
    if BetCount(hands) > 0 then BetScoreSum(hands) / BetCount(hands) as real * 100.0 else 100.0
  }

  /** The quality component: the pressure-weighted share of correct decisions
      in percent, 100 when there are none. */
  function QualityScore(ds: seq<DecisionRecord>): (s: real)
    ensures 0.0 <= s <= 100.0
  {
    WeightCounts(ds);
    if WeightTotal(ds) > 0 then WeightCorrect(ds) as real / WeightTotal(ds) as real * 100.0 else 100.0
  }

  /** computeGrade as a value: 100 for a shoe without decisions, otherwise
      the rounded 60/25/15 blend of the three components. */
  function Grade(hands: seq<HandRecord>, correct: int, total: int): int
  {
    if total == 0 then 100
    else Round(StrategyScore(correct, total) * 0.6 + BetScore(hands) * 0.25 + QualityScore(Decisions(hands)) * 0.15)
  }

  /** With a correct count within the total, the grade lies between 0 and
      100, and a shoe without decisions grades 100. */
  lemma GradeBounds(hands: seq<HandRecord>, correct: int, total: int)
    requires 0 <= correct <= total
    ensures 0 <= Grade(hands, correct, total) <= 100
    ensures total == 0 ==> Grade(hands, correct, total) == 100
  {
    if total != 0 {
      var x := StrategyScore(correct, total) * 0.6 + BetScore(hands) * 0.25 + QualityScore(Decisions(hands)) * 0.15;
      assert 0.0 <= x <= 100.0;
    }
  }

  /** Every decision right and every recommended bet matched exactly: the
      grade is 100. */
  lemma PerfectShoe(hands: seq<HandRecord>)
    requires forall i :: 0 <= i < |hands| ==> hands[i].recommendedBet > 0.0 ==> hands[i].bet == hands[i].recommendedBet
    requires forall d :: d in Decisions(hands) ==> d.isCorrect
    ensures Grade(hands, |Decisions(hands)|, |Decisions(hands)|) == 100
  {
    var ds := Decisions(hands);
    AllBetsMatched(hands);
    AllCorrect(ds);
    if |ds| > 0 {
      FullShare(|ds|);
      if BetCount(hands) > 0 {
        FullShare(BetCount(hands));
      }
      if WeightTotal(ds) > 0 {
        FullShare(WeightTotal(ds));
      }
      assert Round(100.0 * 0.6 + 100.0 * 0.25 + 100.0 * 0.15) == 100;
    }
  }

  /** n out of n is 100 percent. */
  lemma FullShare(n: nat)
    requires n > 0
    ensures n as real / n as real * 100.0 == 100.0
  {
  }

  lemma {:induction false} AllBetsMatched(hands: seq<HandRecord>)
    requires forall i :: 0 <= i < |hands| ==> hands[i].recommendedBet > 0.0 ==> hands[i].bet == hands[i].recommendedBet
    ensures BetScoreSum(hands) == BetCount(hands) as real
  {
    if hands != [] {
      AllBetsMatched(hands[..|hands| - 1]);
    }
  }

  lemma {:induction false} AllCorrect(ds: seq<DecisionRecord>)
    requires forall d :: d in ds ==> d.isCorrect
    ensures CountCorrect(ds) == |ds| && WeightCorrect(ds) == WeightTotal(ds)
  {
    if ds != [] {
      assert forall d :: d in ds[..|ds| - 1] ==> d in ds;
      AllCorrect(ds[..|ds| - 1]);
    }
  }

  // ------------------------------------------------------------ the routines

  /** The decisions so far, one more decision of the current hand along. */
  lemma DecisionAt(before: seq<DecisionRecord>, ds: seq<DecisionRecord>, j: int)
    requires 0 <= j < |ds|
    ensures CountCorrect(before + ds[..j + 1]) == CountCorrect(before + ds[..j]) + (if ds[j].isCorrect then 1 else 0)
    ensures WeightTotal(before + ds[..j + 1]) == WeightTotal(before + ds[..j]) + Weight(ds[j])
    ensures WeightCorrect(before + ds[..j + 1]) == WeightCorrect(before + ds[..j]) + (if ds[j].isCorrect then Weight(ds[j]) else 0)
  {
    assert before + ds[..j + 1] == (before + ds[..j]) + [ds[j]];
    DecisionStep(before + ds[..j], ds[j]);
  }

  /** The decisions of one more hand. */
  lemma HandAt(hands: seq<HandRecord>, i: int)
    requires 0 <= i < |hands|
    ensures Decisions(hands[..i + 1]) == Decisions(hands[..i]) + hands[i].decisions[..|hands[i].decisions|]
  {
    assert hands[..i + 1][..i] == hands[..i];
    assert hands[i].decisions[..|hands[i].decisions|] == hands[i].decisions;
  }

  /** computeGrade: 100 without decisions; otherwise the strategy share,
      then the bet-sizing and the pressure-weighted accumulations over the
      shoe's hands, blended and rounded. */
  method ComputeGrade(hands: seq<HandRecord>, correctDecisions: int, totalDecisions: int) returns (grade: int)
    ensures grade == Grade(hands, correctDecisions, totalDecisions)
  {
    if totalDecisions == 0 {
      return 100;
    }
    var strategyScore := correctDecisions as real / totalDecisions as real * 100.0;
    var betScoreSum, betCount := SumBetScores(hands);
    var betScore := if betCount > 0 then betScoreSum / betCount as real * 100.0 else 100.0;
    var weightedCorrect, weightedTotal := WeighDecisions(hands);
    var qualityScore := if weightedTotal > 0 then weightedCorrect as real / weightedTotal as real * 100.0 else 100.0;
    grade := Round(strategyScore * 0.6 + betScore * 0.25 + qualityScore * 0.15);
  }

  /** computeGrade's bet-sizing loop: the scores of the hands that had a
      recommendation, and how many there were. */
  method SumBetScores(hands: seq<HandRecord>) returns (betScoreSum: real, betCount: nat)
    ensures betScoreSum == BetScoreSum(hands) && betCount == BetCount(hands)
  {
    betScoreSum, betCount := 0.0, 0;
    for i := 0 to |hands|
      invariant betScoreSum == BetScoreSum(hands[..i]) && betCount == BetCount(hands[..i])
    {
      var hand := hands[i];
      if hand.recommendedBet > 0.0 {
        var deviation := AbsR(hand.bet - hand.recommendedBet) / hand.recommendedBet;
        betScoreSum := betScoreSum + MaxR(0.0, 1.0 - deviation);
        betCount := betCount + 1;
      }
      assert hands[..i + 1][..i] == hands[..i];
    }
    assert hands[..|hands|] == hands;
  }

  /** computeGrade's play-quality loop: the weighted correct and total
      decision counts, pressure decisions weighing two. */
  method WeighDecisions(hands: seq<HandRecord>) returns (weightedCorrect: nat, weightedTotal: nat)
    ensures weightedCorrect == WeightCorrect(Decisions(hands)) && weightedTotal == WeightTotal(Decisions(hands))
  {
    weightedCorrect, weightedTotal := 0, 0;
    for i := 0 to |hands|
      invariant weightedTotal == WeightTotal(Decisions(hands[..i]))
      invariant weightedCorrect == WeightCorrect(Decisions(hands[..i]))
    {
      var ds := hands[i].decisions;
      ghost var before := Decisions(hands[..i]);
      assert before + ds[..0] == before;
      for j := 0 to |ds|
        invariant weightedTotal == WeightTotal(before + ds[..j])
        invariant weightedCorrect == WeightCorrect(before + ds[..j])
      {
        var weight := if IsPressureDecision(ds[j]) then 2 else 1;
        weightedTotal := weightedTotal + weight;
        if ds[j].isCorrect {
          weightedCorrect := weightedCorrect + weight;
        }
        DecisionAt(before, ds, j);
      }
      HandAt(hands, i);
    }
    assert hands[..|hands|] == hands;
  }

  /** buildShoeRecord: count the decisions and the correct ones, grade the
      shoe, and record the bankrolls and the profit between them. */
  method BuildShoeRecord(shoeNumber: int, hands: seq<HandRecord>, startBankroll: real, endBankroll: real)
    returns (r: ShoeRecord)
    ensures r.totalDecisions == |Decisions(hands)| && r.correctDecisions == CountCorrect(Decisions(hands))
    ensures r.correctDecisions <= r.totalDecisions
    ensures r.grade == Grade(hands, r.correctDecisions, r.totalDecisions) && 0 <= r.grade <= 100
    ensures r.netProfit == endBankroll - startBankroll
    ensures r.startingBankroll == startBankroll && r.endingBankroll == endBankroll
    ensures r.shoeNumber == shoeNumber && r.hands == hands
  {
    var correctDecisions := 0;
    var totalDecisions := 0;
    for i := 0 to |hands|
      invariant totalDecisions == |Decisions(hands[..i])|
      invariant correctDecisions == CountCorrect(Decisions(hands[..i]))
    {
      var ds := hands[i].decisions;
      ghost var before := Decisions(hands[..i]);
      assert before + ds[..0] == before;
      for j := 0 to |ds|
        invariant totalDecisions == |before| + j
        invariant correctDecisions == CountCorrect(before + ds[..j])
      {
        totalDecisions := totalDecisions + 1;
        if ds[j].isCorrect {
          correctDecisions := correctDecisions + 1;
        }
        DecisionAt(before, ds, j);
      }
      HandAt(hands, i);
    }
    assert hands[..|hands|] == hands;
    var grade := ComputeGrade(hands, correctDecisions, totalDecisions);
    GradeBounds(hands, correctDecisions, totalDecisions);
    r := ShoeRecord(shoeNumber, hands, correctDecisions, totalDecisions, grade,
                    endBankroll - startBankroll, startBankroll, endBankroll);
  }
}
