/** The hand evaluator (src/engine/hand.ts) and the hand, action and result
    types it works on (src/engine/types.ts). */
module Hands {
  import opened Cards
  import opened Wrappers

  datatype Action = Hit | Stand | Double | Split | Surrender | Insurance

  datatype HandResult = Blackjack | Win | Loss | Push | Surrendered | Pending

  /** One betting box: its cards, its stake and what happened to it. */
  datatype HandState = HandState(
    cards: seq<Card>,
    bet: real,
    isDoubled: bool,
    isSurrendered: bool,
    isInsured: bool,
    insuranceBet: real,
    result: Option<HandResult>,
    payout: Option<real>)

  datatype HandTotal = HandTotal(hard: int, soft: int, best: int)

  /** What a card adds to the hard total: an ace counts 1. */
  function HardValue(c: Card): (v: int)
    ensures 1 <= v <= 10
    ensures v == 1 <==> c.rank == Ace
  {
    var values := CardValue(c);
    if |values| == 2 then 1 else values[0]
  }

  function HardSum(cards: seq<Card>): int
  {
    if cards == [] then 0 else HardSum(cards[..|cards| - 1]) + HardValue(cards[|cards| - 1])
  }

  function AceCount(cards: seq<Card>): nat
  {
    if cards == [] then 0 else AceCount(cards[..|cards| - 1]) + (if cards[|cards| - 1].rank == Ace then 1 else 0)
  }

  /** Every card adds at least one point, and every ace exactly one. */
  lemma {:induction false} HardSumBounds(cards: seq<Card>)
    ensures HardSum(cards) >= |cards|
    ensures HardSum(cards) >= AceCount(cards)
    ensures AceCount(cards) <= |cards|
    ensures HardSum(cards) <= 10 * |cards|
  {
    if cards != [] {
      HardSumBounds(cards[..|cards| - 1]);
    }
  }

  /** getHandTotal, as a value: hard counts every ace as 1; soft counts one ace
      as 11 when that stays within 21; best is soft unless soft busts. */
  function Totals(cards: seq<Card>): (t: HandTotal)
    ensures t.hard == HardSum(cards)
    ensures t.soft == t.hard || t.soft == t.hard + 10
    ensures t.best > 21 ==> t.best == t.hard
    ensures t.hard <= 21 ==> t.best <= 21
  {
    var hard := HardSum(cards);
    var soft := if AceCount(cards) > 0 && hard + 10 <= 21 then hard + 10 else hard;
    HandTotal(hard, soft, if soft <= 21 then soft else hard)
  }

  /** getHandTotal: one pass over the cards, counting aces as 1, then one ace
      promoted to 11 if the hand allows it. */
  method GetHandTotal(cards: seq<Card>) returns (t: HandTotal)
    ensures t == Totals(cards)
    ensures t.soft >= t.hard
    ensures t.soft == t.hard + 10 <==> AceCount(cards) > 0 && t.hard + 10 <= 21
    ensures t.best == if t.soft <= 21 then t.soft else t.hard
  {
    var hard := 0;
    var aceCount := 0;
    for i := 0 to |cards|
      invariant hard == HardSum(cards[..i])
      invariant aceCount == AceCount(cards[..i])
    {
      assert cards[..i + 1][..i] == cards[..i];
      var values := CardValue(cards[i]);
      if |values| == 2 {
        aceCount := aceCount + 1;
        hard := hard + 1;
      } else {
        hard := hard + values[0];
      }
    }
    assert cards[..|cards|] == cards;
    var soft := hard;
    if aceCount > 0 && hard + 10 <= 21 {
      soft := hard + 10;
    }
    var best := if soft <= 21 then soft else hard;
    t := HandTotal(hard, soft, best);
  }

  /** A total the hand can be worth: each ace counted as 1 or as 11. */
  ghost predicate Achievable(cards: seq<Card>, total: int)
  {
    exists k :: 0 <= k <= AceCount(cards) && total == HardSum(cards) + 10 * k
  }

  /** `best` is the blackjack value of the hand: the largest total within 21
      that some choice of ace values gives, or the hard total if every choice busts. */
  lemma {:induction false} BestIsBlackjackValue(cards: seq<Card>)
    ensures Achievable(cards, Totals(cards).best)
    ensures HardSum(cards) <= 21 ==> Totals(cards).best <= 21
    ensures forall k :: 0 <= k <= AceCount(cards) && HardSum(cards) + 10 * k <= 21 ==>
              HardSum(cards) + 10 * k <= Totals(cards).best
    ensures HardSum(cards) > 21 ==> Totals(cards).best == HardSum(cards)
  {
    var t := Totals(cards);
    HardSumBounds(cards);
    if t.best == t.hard {
      assert t.best == HardSum(cards) + 10 * 0;
    } else {
      assert t.best == HardSum(cards) + 10 * 1;
    }
    forall k | 0 <= k <= AceCount(cards) && HardSum(cards) + 10 * k <= 21
      ensures HardSum(cards) + 10 * k <= t.best
    {
      assert k <= 1;
    }
  }

  /** isBlackjack: exactly two cards worth 21. */
  predicate IsBlackjack(cards: seq<Card>)
  {
    |cards| == 2 && Totals(cards).best == 21
  }

  /** isBusted: the hand's best total exceeds 21. */
  predicate IsBusted(cards: seq<Card>)
  {
    Totals(cards).best > 21
  }

  /** isSoft: an ace is being counted as 11. */
  predicate IsSoft(cards: seq<Card>)
  {
    var t := Totals(cards);
    t.soft != t.hard && t.soft <= 21
  }

  /** A natural is an ace with a ten-valued card, in either order; ten and
      picture pairs and three-card 21s are not blackjack. */
  lemma BlackjackIsAceAndTen(cards: seq<Card>)
    ensures IsBlackjack(cards) <==>
      |cards| == 2 &&
      ((cards[0].rank == Ace && IsFaceOrTen(cards[1].rank)) ||
       (cards[1].rank == Ace && IsFaceOrTen(cards[0].rank)))
  {
    if |cards| == 2 {
      var first := cards[..1];
      assert first[..0] == [] && first[0] == cards[0] && cards[..1] == first;
      assert HardSum(first) == HardValue(cards[0]);
      assert AceCount(first) == if cards[0].rank == Ace then 1 else 0;
      assert HardSum(cards) == HardValue(cards[0]) + HardValue(cards[1]);
      assert AceCount(cards) == (if cards[0].rank == Ace then 1 else 0) + (if cards[1].rank == Ace then 1 else 0);
    }
  }

  /** A hand busts exactly when counting every ace as 1 still exceeds 21. */
  lemma BustedIffHardOver21(cards: seq<Card>)
    ensures IsBusted(cards) <==> HardSum(cards) > 21
  {
  }

  /** A hand is soft exactly when it holds an ace and its hard total is at
      most 11; a soft hand's best total is its soft total. */
  lemma SoftIffAceAndLowHard(cards: seq<Card>)
    ensures IsSoft(cards) <==> AceCount(cards) > 0 && HardSum(cards) <= 11
    ensures IsSoft(cards) ==> Totals(cards).best == Totals(cards).soft == HardSum(cards) + 10
  {
  }

  /** canSplit: two cards of the same blackjack value (not rank) and enough
      bankroll to match the bet. */
  predicate CanSplit(hand: HandState, bankroll: real)
  {
    |hand.cards| == 2 && bankroll >= hand.bet &&
    CardValue(hand.cards[0])[0] == CardValue(hand.cards[1])[0]
  }

  /** Split eligibility by rank: a pair of aces, of equal pips, or of any two
      ten-valued cards (so king-queen splits). */
  lemma SplitByRank(hand: HandState, bankroll: real)
    ensures CanSplit(hand, bankroll) <==>
      |hand.cards| == 2 && bankroll >= hand.bet &&
      (hand.cards[0].rank == hand.cards[1].rank ||
       (IsFaceOrTen(hand.cards[0].rank) && IsFaceOrTen(hand.cards[1].rank)))
  {
    if |hand.cards| == 2 {
      var c0, c1 := hand.cards[0], hand.cards[1];
      if c0.rank != Ace && c1.rank != Ace && !IsFaceOrTen(c0.rank) && !IsFaceOrTen(c1.rank) {
        assert CardValue(c0)[0] == RankIndex(c0.rank) + 2;
        assert CardValue(c1)[0] == RankIndex(c1.rank) + 2;
      }
    }
  }

  /** canDouble: two cards, enough bankroll, not already doubled. */
  predicate CanDouble(hand: HandState, bankroll: real)
  {
    |hand.cards| == 2 && bankroll >= hand.bet && !hand.isDoubled
  }

  /** canSurrender: two cards, not doubled. */
  predicate CanSurrender(hand: HandState)
  {
    |hand.cards| == 2 && !hand.isDoubled
  }

  /** The eligibility rules nest: a hand that may double may surrender, and an
      undoubled hand that may split may double. */
  lemma EligibilityNests(hand: HandState, bankroll: real)
    ensures CanDouble(hand, bankroll) ==> CanSurrender(hand)
    ensures CanSplit(hand, bankroll) && !hand.isDoubled ==> CanDouble(hand, bankroll)
    ensures CanDouble(hand, bankroll) <==> CanSurrender(hand) && bankroll >= hand.bet
  {
  }

  predicate NoDuplicates(actions: seq<Action>)
  {
    forall i, j :: 0 <= i < j < |actions| ==> actions[i] != actions[j]
  }

  /** getAvailableActions: hit and stand always, then double, split and
      surrender as the hand and the table rules allow. */
  method GetAvailableActions(hand: HandState, bankroll: real, allowSurrender: bool,
                             allowDoubleAfterSplit: bool, isSplitHand: bool)
    returns (actions: seq<Action>)
    ensures |actions| >= 2 && actions[0] == Hit && actions[1] == Stand
    ensures Double in actions <==> CanDouble(hand, bankroll) && (!isSplitHand || allowDoubleAfterSplit)
    ensures Split in actions <==> CanSplit(hand, bankroll)
    ensures Surrender in actions <==> allowSurrender && CanSurrender(hand) && !isSplitHand
    ensures Insurance !in actions
    ensures NoDuplicates(actions)
  {
    actions := [Hit, Stand];
    if CanDouble(hand, bankroll) {
      if !isSplitHand || allowDoubleAfterSplit {
        actions := actions + [Double];
      }
    }
    if CanSplit(hand, bankroll) {
      actions := actions + [Split];
    }
    if allowSurrender && CanSurrender(hand) && !isSplitHand {
      actions := actions + [Surrender];
    }
  }

  /** createEmptyHand: a fresh hand holding only a stake. */
  function CreateEmptyHand(bet: real): (h: HandState)
    ensures h.cards == [] && h.bet == bet
    ensures !h.isDoubled && !h.isSurrendered && !h.isInsured && h.insuranceBet == 0.0
    ensures h.result == None && h.payout == None
    ensures Totals(h.cards) == HandTotal(0, 0, 0) && !IsBlackjack(h.cards) && !IsBusted(h.cards)
  {
    HandState([], bet, false, false, false, 0.0, None, None)
  }

  /** Totals look only at ranks: turning a card face up or down changes
      nothing about the hand's value. */
  lemma {:induction false} SameRanksSameTotals(a: seq<Card>, b: seq<Card>)
    requires |a| == |b| && forall k :: 0 <= k < |a| ==> a[k].rank == b[k].rank
    ensures HardSum(a) == HardSum(b) && AceCount(a) == AceCount(b) && Totals(a) == Totals(b)
    ensures IsBlackjack(a) == IsBlackjack(b) && IsBusted(a) == IsBusted(b) && IsSoft(a) == IsSoft(b)
  {
    if a != [] {
      SameRanksSameTotals(a[..|a| - 1], b[..|b| - 1]);
      assert HardValue(a[|a| - 1]) == HardValue(b[|b| - 1]) by {
        assert CardValue(a[|a| - 1]) == CardValue(b[|b| - 1]);
      }
    }
  }
}
