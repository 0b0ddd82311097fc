/** Player advantage and the 1-2-4-8-12 bet ramp (src/engine/countingSystem.ts). */
module Counting {
  import opened Numeric

  datatype BetRecommendation = BetRecommendation(units: int, amount: real, advantage: real)

  /** Half a percent house edge, offset by half a percent per true-count point. */
  function CalculatePlayerAdvantage(trueCount: real): (adv: real)
    ensures adv == (trueCount - 1.0) / 200.0
  {
    -0.005 + trueCount * 0.005
  }

  /** The advantage is zero at true count 1, negative below it, positive above
      it, and strictly increasing in the count. */
  lemma AdvantageIsIncreasing(tc1: real, tc2: real)
    ensures CalculatePlayerAdvantage(1.0) == 0.0
    ensures tc1 < 1.0 ==> CalculatePlayerAdvantage(tc1) < 0.0
    ensures tc1 > 1.0 ==> CalculatePlayerAdvantage(tc1) > 0.0
    ensures tc1 < tc2 ==> CalculatePlayerAdvantage(tc1) < CalculatePlayerAdvantage(tc2)
  {
  }

  /** The unit ramp. Only the exact counts 2, 3 and 4 select 2, 4 and 8 units;
      every other count above 1 (including 1.5 or 2.5) selects 12. */
  function RampUnits(trueCount: real): (units: int)
    ensures units in {1, 2, 4, 8, 12}
    ensures units == 1 <==> trueCount <= 1.0
    ensures units == 2 <==> trueCount == 2.0
    ensures units == 4 <==> trueCount == 3.0
    ensures units == 8 <==> trueCount == 4.0
  {
    if trueCount <= 1.0 then 1
    else if trueCount == 2.0 then 2
    else if trueCount == 3.0 then 4
    else if trueCount == 4.0 then 8
    else 12
  }

  /** getRecommendedBet: units times the table minimum, capped by the bankroll. */
  function GetRecommendedBet(trueCount: real, minimumBet: real, bankroll: real): (rec: BetRecommendation)
    ensures rec.units == RampUnits(trueCount)
    ensures rec.amount <= bankroll && rec.amount <= rec.units as real * minimumBet
    ensures rec.amount == bankroll || rec.amount == rec.units as real * minimumBet
    ensures rec.advantage == CalculatePlayerAdvantage(trueCount)
  {
    var units := RampUnits(trueCount);
    BetRecommendation(units, MinR(units as real * minimumBet, bankroll), CalculatePlayerAdvantage(trueCount))
  }

  /** With a non-negative minimum, the recommendation never shrinks when the
      count moves from one ramp step to the next (1 to 2 to 3 to 4 to 5), but
      a fractional count between 1 and 2 already recommends the top step. */
  lemma RampSteps(minimumBet: real, bankroll: real)
    requires minimumBet >= 0.0
    ensures GetRecommendedBet(1.0, minimumBet, bankroll).amount <= GetRecommendedBet(2.0, minimumBet, bankroll).amount
    ensures GetRecommendedBet(2.0, minimumBet, bankroll).amount <= GetRecommendedBet(3.0, minimumBet, bankroll).amount
    ensures GetRecommendedBet(3.0, minimumBet, bankroll).amount <= GetRecommendedBet(4.0, minimumBet, bankroll).amount
    ensures GetRecommendedBet(4.0, minimumBet, bankroll).amount <= GetRecommendedBet(5.0, minimumBet, bankroll).amount
    ensures GetRecommendedBet(1.5, minimumBet, bankroll).units == 12
  {
  }
}
