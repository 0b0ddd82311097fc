/** The Illustrious 18 and Fab 4 count-based deviations the simulator's Hi-Lo
    players apply on top of basic strategy (src/engine/simulator.ts). */
module Deviations {
  import opened Cards
  import opened Hands
  import opened Wrappers
  import opened BasicStrategy

  datatype DevTable = HardTable | SoftTable | PairsTable

  /** Whether a deviation fires at or above its threshold, or at or below it. */
  datatype Direction = AtLeast | AtMost

  /** One deviation: the hand and upcard it applies to, the true-count
      threshold and the action it substitutes. A ten-valued pair is keyed `Ten`. */
  datatype Deviation = Deviation(
    table: DevTable,
    playerTotal: int,
    isSoft: bool,
    isPair: bool,
    pairRank: Option<Rank>,
    dealerUpcard: Upcard,
    threshold: int,
    direction: Direction,
    action: Action)

  function HardDev(total: int, up: Upcard, threshold: int, dir: Direction, a: Action): Deviation
  {
    Deviation(HardTable, total, false, false, None, up, threshold, dir, a)
  }

  function TenPairDev(up: Upcard, threshold: int): Deviation
  {
    Deviation(PairsTable, 20, false, true, Some(Ten), up, threshold, AtLeast, Split)
  }

  /** The deviation list, in the order it is scanned. */
  const Deviations: seq<Deviation> := [
    HardDev(16, U10, 0, AtLeast, Stand),
    HardDev(15, U10, 4, AtLeast, Stand),
    HardDev(10, U10, 4, AtLeast, Double),
    HardDev(10, UA, 4, AtLeast, Double),
    HardDev(12, U3, 2, AtLeast, Stand),
    HardDev(12, U2, 3, AtLeast, Stand),
    HardDev(11, UA, 1, AtLeast, Double),
    HardDev(9, U2, 1, AtLeast, Double),
    HardDev(9, U7, 3, AtLeast, Double),
    HardDev(16, U9, 5, AtLeast, Stand),
    HardDev(13, U2, -1, AtMost, Hit),
    HardDev(12, U4, 0, AtMost, Hit),
    HardDev(12, U5, -2, AtMost, Hit),
    HardDev(12, U6, -1, AtMost, Hit),
    HardDev(13, U3, -2, AtMost, Hit),
    TenPairDev(U5, 5),
    TenPairDev(U6, 4),
    HardDev(15, U10, 0, AtLeast, Surrender),
    HardDev(14, U10, 3, AtLeast, Surrender),
    HardDev(15, U9, 2, AtLeast, Surrender),
    HardDev(15, UA, 1, AtLeast, Surrender)
  ]

  /** What a deviation is matched against: the hand's best total, softness,
      pair rank (if it is a two-card pair) and the dealer's upcard key. */
  datatype Situation = Situation(total: int, soft: bool, pair: Option<Rank>, dealer: Upcard)

  /** The situation of a hand against an upcard: a two-card hand whose first
      values agree is a pair, keyed by rank with every ten-valued card as `Ten`. */
  function SituationOf(hand: HandState, dealerUpcard: Card): (s: Situation)
    ensures s.total == Totals(hand.cards).best && s.soft == IsSoft(hand.cards)
    ensures s.pair.Some? <==> IsPair(hand.cards)
    ensures s.pair.Some? && CardValue(hand.cards[0])[0] == 10 ==> s.pair == Some(Ten)
    ensures s.pair.Some? && CardValue(hand.cards[0])[0] != 10 ==> s.pair == Some(hand.cards[0].rank)
    ensures s.dealer == GetDealerUpcardKey(dealerUpcard)
  {
    var pair := if IsPair(hand.cards) then Some(PairKey(hand.cards[0])) else None;
    Situation(Totals(hand.cards).best, IsSoft(hand.cards), pair, GetDealerUpcardKey(dealerUpcard))
  }

  /** The count condition: at or above the threshold for `AtLeast`, at or below for `AtMost`. */
  predicate Active(dev: Deviation, trueCount: real)
  {
    match dev.direction
    case AtLeast => trueCount >= dev.threshold as real
    case AtMost => trueCount <= dev.threshold as real
  }

  /** A deviation applies when the upcard and total agree, a pair deviation
      sees the same pair (others the same softness), and its count condition holds. */
  predicate Matches(dev: Deviation, s: Situation, trueCount: real)
  {
    dev.dealerUpcard == s.dealer
    && dev.playerTotal == s.total
    && (if dev.isPair then s.pair.Some? && dev.pairRank == s.pair else dev.isSoft == s.soft)
    && Active(dev, trueCount)
  }

  /** The first of the first `n` deviations that matches. */
  function FirstMatch(s: Situation, trueCount: real, n: nat): (r: Option<nat>)
    requires n <= |Deviations|
    ensures r.Some? ==> r.value < n && Matches(Deviations[r.value], s, trueCount)
    ensures r.Some? ==> forall k :: 0 <= k < r.value ==> !Matches(Deviations[k], s, trueCount)
    ensures r.None? ==> forall k :: 0 <= k < n ==> !Matches(Deviations[k], s, trueCount)
  {
    if n == 0 then None
    else
      var r := FirstMatch(s, trueCount, n - 1);
      if r.Some? then r
      else if Matches(Deviations[n - 1], s, trueCount) then Some(n - 1)
      else None
  }

  /** The last of the first `n` deviations that matches and surrenders. */
  function LastSurrender(s: Situation, trueCount: real, n: nat): (r: Option<nat>)
    requires n <= |Deviations|
    ensures r.Some? ==> r.value < n && Matches(Deviations[r.value], s, trueCount) && Deviations[r.value].action == Surrender
    ensures r.Some? ==> forall k :: r.value < k < n ==> !(Matches(Deviations[k], s, trueCount) && Deviations[k].action == Surrender)
    ensures r.None? ==> forall k :: 0 <= k < n ==> !(Matches(Deviations[k], s, trueCount) && Deviations[k].action == Surrender)
  {
    if n == 0 then None
    else if Matches(Deviations[n - 1], s, trueCount) && Deviations[n - 1].action == Surrender then Some(n - 1)
    else LastSurrender(s, trueCount, n - 1)
  }

  /** The deviation chosen among the first `n`: the last matching surrender
      if there is one, otherwise the first match. */
  function ChosenAmong(s: Situation, trueCount: real, n: nat): (d: Option<Deviation>)
    requires n <= |Deviations|
    ensures d.Some? ==> Matches(d.value, s, trueCount)
    ensures d.None? <==> forall k :: 0 <= k < n ==> !Matches(Deviations[k], s, trueCount)
    ensures (exists k :: 0 <= k < n && Matches(Deviations[k], s, trueCount) && Deviations[k].action == Surrender)
            ==> d.Some? && d.value.action == Surrender
  {
    var ls := LastSurrender(s, trueCount, n);
    if ls.Some? then Some(Deviations[ls.value])
    else
      var fm := FirstMatch(s, trueCount, n);
      if fm.Some? then Some(Deviations[fm.value]) else None
  }

  function Chosen(s: Situation, trueCount: real): Option<Deviation>
  {
    ChosenAmong(s, trueCount, |Deviations|)
  }

  /** The chosen deviation's action if it is available; a surrender or a
      double that is not available falls back to hit (if hit is); anything
      else that is not available yields no deviation. */
  function Fallback(chosen: Option<Deviation>, availableActions: seq<Action>): (r: Option<Action>)
    ensures chosen.None? ==> r.None?
    ensures r.Some? ==> r.value in availableActions
    ensures chosen.Some? && chosen.value.action in availableActions ==> r == Some(chosen.value.action)
    ensures chosen.Some? && chosen.value.action !in availableActions ==>
              r == (if chosen.value.action in {Surrender, Double} && Hit in availableActions then Some(Hit) else None)
  {
    if chosen.None? then None
    else
      var a := chosen.value.action;
      if a in availableActions then Some(a)
      else if (a == Surrender || a == Double) && Hit in availableActions then Some(Hit)
      else None
  }

  /** getDeviationAction: scan the list keeping the first match, but let any
      later matching surrender replace it; then resolve against what is available. */
  method GetDeviationAction(hand: HandState, dealerUpcard: Card, trueCount: real, availableActions: seq<Action>)
    returns (r: Option<Action>)
    ensures r == Fallback(Chosen(SituationOf(hand, dealerUpcard), trueCount), availableActions)
  {
    var s := SituationOf(hand, dealerUpcard);
    var bestDev: Option<Deviation> := None;
    for i := 0 to |Deviations|
      invariant bestDev == ChosenAmong(s, trueCount, i)
    {
      var dev := Deviations[i];
      if Matches(dev, s, trueCount) {
        if bestDev.None? {
          bestDev := Some(dev);
        } else if dev.action == Surrender {
          bestDev := Some(dev);
        }
      }
    }
    r := Fallback(bestDev, availableActions);
  }

  /** Hard 15 against a ten at a true count of 4 or more matches both the
      stand deviation and the surrender deviation; surrender wins, so when
      surrender is not available the hand hits instead of standing. */
  lemma Fifteen(trueCount: real, availableActions: seq<Action>)
    requires trueCount >= 4.0
    ensures var s := Situation(15, false, None, U10);
      Matches(Deviations[1], s, trueCount) && Deviations[1].action == Stand &&
      Fallback(Chosen(s, trueCount), availableActions) ==
        if Surrender in availableActions then Some(Surrender)
        else if Hit in availableActions then Some(Hit) else None
  {
    var s := Situation(15, false, None, U10);
    assert Matches(Deviations[17], s, trueCount) && Deviations[17].action == Surrender;
  }

  /** Hard 16 against a ten stands from a true count of 0 up. */
  lemma SixteenStands(trueCount: real, availableActions: seq<Action>)
    requires trueCount >= 0.0 && Stand in availableActions
    ensures Fallback(Chosen(Situation(16, false, None, U10), trueCount), availableActions) == Some(Stand)
  {
    var s := Situation(16, false, None, U10);
    assert Matches(Deviations[0], s, trueCount);
    forall k | 0 <= k < |Deviations| && Deviations[k].action == Surrender
      ensures !Matches(Deviations[k], s, trueCount)
    {
      assert Deviations[k].playerTotal != 16;
    }
    assert FirstMatch(s, trueCount, |Deviations|) == Some(0);
  }
}
