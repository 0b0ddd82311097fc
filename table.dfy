/** The seats at the table and the value-level rules the game engine applies
    to them (Player, RoundResult and RoundPhase in src/engine/types.ts and the
    pure parts of src/engine/gameEngine.ts). */
module Table {
  import opened Wrappers
  import opened Cards
  import opened Hands
  import opened Settings
  import opened Payouts

  datatype RoundPhase = Betting | Dealing | InsurancePrompt | PlayerTurn | DealerTurn | Resolving | RoundOver

  datatype Player = Player(
    name: string,
    seatIndex: int,
    bankroll: real,
    hands: seq<HandState>,
    isHuman: bool,
    isActive: bool,
    currentHandIndex: int)

  datatype RoundResult = RoundResult(
    playerName: string,
    seatIndex: int,
    handIndex: int,
    bet: real,
    result: HandResult,
    payout: real)

  /** What playerAction reports: the round's player turns are over, and/or
      play moved on to another player. */
  datatype ActionOutcome = ActionOutcome(done: bool, nextPlayer: bool)

  const AINames: seq<string> := ["Alice", "Bob", "Carlos", "Diana", "Eve", "Frank", "Grace", "Hank", "Ivy"]

  /** The human's seat: the requested position, pulled back to the last seat. */
  function HumanSeat(settings: GameSettings): (s: int)
    ensures s <= settings.numberOfAIPlayers
    ensures s == settings.humanSeatPosition || s == settings.numberOfAIPlayers
  {
    if settings.humanSeatPosition < settings.numberOfAIPlayers then settings.humanSeatPosition
    else settings.numberOfAIPlayers
  }

  /** initPlayers: one seat per AI player plus the human's; AI players take
      the names in order, skipping the human's seat. */
  method InitPlayers(settings: GameSettings) returns (players: seq<Player>)
    ensures |players| == settings.numberOfAIPlayers + 1
    ensures forall i :: 0 <= i < |players| ==>
      players[i].seatIndex == i && players[i].bankroll == settings.startingBankroll &&
      players[i].hands == [CreateEmptyHand(0.0)] && players[i].isActive && players[i].currentHandIndex == 0
    ensures forall i :: 0 <= i < |players| ==> (players[i].isHuman <==> i == HumanSeat(settings))
    ensures forall i :: 0 <= i < |players| && players[i].isHuman ==> players[i].name == "You"
    ensures forall i :: 0 <= i < |players| && !players[i].isHuman ==>
      players[i].name == AINames[(if HumanSeat(settings) < 0 || i < HumanSeat(settings) then i else i - 1) % |AINames|]
  {
    players := [];
    var totalPlayers := settings.numberOfAIPlayers + 1;
    var humanSeatIndex := if settings.humanSeatPosition < totalPlayers - 1 then settings.humanSeatPosition else totalPlayers - 1;
    var aiNameIndex := 0;
    for i := 0 to totalPlayers
      invariant |players| == i
      invariant aiNameIndex == if humanSeatIndex < 0 || i <= humanSeatIndex then i else i - 1
      invariant forall k :: 0 <= k < i ==>
        players[k].seatIndex == k && players[k].bankroll == settings.startingBankroll &&
        players[k].hands == [CreateEmptyHand(0.0)] && players[k].isActive && players[k].currentHandIndex == 0 &&
        (players[k].isHuman <==> k == humanSeatIndex) &&
        (players[k].isHuman ==> players[k].name == "You") &&
        (!players[k].isHuman ==> players[k].name == AINames[(if humanSeatIndex < 0 || k < humanSeatIndex then k else k - 1) % |AINames|])
    {
      if i == humanSeatIndex {
        players := players + [Player("You", i, settings.startingBankroll, [CreateEmptyHand(0.0)], true, true, 0)];
      } else {
        players := players + [Player(AINames[aiNameIndex % |AINames|], i, settings.startingBankroll, [CreateEmptyHand(0.0)], false, true, 0)];
        aiNameIndex := aiNameIndex + 1;
      }
    }
  }

  /** A player who was dealt into the round: active, with a non-zero first bet. */
  predicate Dealt(p: Player)
  {
    p.isActive && |p.hands| > 0 && p.hands[0].bet != 0.0
  }

  /** A player whose turn findNextActivePlayer stops at: dealt in with a
      positive bet and without a natural. */
  predicate Eligible(p: Player)
  {
    p.isActive && |p.hands| > 0 && p.hands[0].bet > 0.0 && !IsBlackjack(p.hands[0].cards)
  }

  /** `r` is the first eligible seat after `from`, or -1 when there is none. */
  predicate IsNextActive(players: seq<Player>, from: int, r: int)
  {
    (r == -1 && forall k :: 0 <= k < |players| && from < k ==> !Eligible(players[k])) ||
    (0 <= r < |players| && from < r && Eligible(players[r]) && forall k :: 0 <= k < r && from < k ==> !Eligible(players[k]))
  }

  /** A hand play stops on by itself: busted, or at 21. */
  predicate HandFinished(h: HandState)
  {
    IsBusted(h.cards) || Totals(h.cards).best == 21
  }

  /** The hand advanceHand moves to: the first later hand that is not
      finished, or none when every later hand is (see `NextUnfinishedHandIsFirst`). */
  function NextUnfinishedHand(hands: seq<HandState>, index: int): (r: Option<int>)
    requires -1 <= index < |hands|
    decreases |hands| - index
    ensures r.Some? ==> index < r.value < |hands|
  {
    if index >= |hands| - 1 then None
    else if !HandFinished(hands[index + 1]) then Some(index + 1)
    else NextUnfinishedHand(hands, index + 1)
  }

  /** advanceHand's target is the first unfinished hand after the current one,
      and there is none exactly when every later hand is finished. */
  lemma {:induction false} NextUnfinishedHandIsFirst(hands: seq<HandState>, index: int)
    requires -1 <= index < |hands|
    decreases |hands| - index
    ensures var r := NextUnfinishedHand(hands, index);
      (r.Some? ==> !HandFinished(hands[r.value]) && forall k :: index < k < r.value ==> HandFinished(hands[k])) &&
      (r.None? ==> forall k :: index < k < |hands| ==> HandFinished(hands[k]))
  {
    if index < |hands| - 1 && HandFinished(hands[index + 1]) {
      NextUnfinishedHandIsFirst(hands, index + 1);
      var r := NextUnfinishedHand(hands, index + 1);
      var end := if r.Some? then r.value else |hands|;
      forall k | index < k < end
        ensures HandFinished(hands[k])
      {
        if k != index + 1 {
          assert index + 1 < k < end;
        }
      }
    }
  }

  /** getTotalBets: every hand's bet, and a doubled hand's (already doubled)
      bet once more. */
  function TotalBets(hands: seq<HandState>): (total: real)
    ensures (forall k :: 0 <= k < |hands| ==> hands[k].bet >= 0.0) ==> total >= 0.0
  {
    if hands == [] then 0.0
    else
      var h := hands[|hands| - 1];
      TotalBets(hands[..|hands| - 1]) + h.bet + (if h.isDoubled then h.bet else 0.0)
  }

  /** A hand of stake `b` that doubles holds `2b` on the table, but the
      money it ties up is reckoned as `4b`. */
  lemma DoubledStakeCountedTwice(h: HandState, b: real)
    ensures TotalBets([h.(bet := b, isDoubled := false)]) == b
    ensures TotalBets([h.(bet := 2.0 * b, isDoubled := true)]) == 4.0 * b
  {
    assert [h.(bet := b, isDoubled := false)][..0] == [];
    assert [h.(bet := 2.0 * b, isDoubled := true)][..0] == [];
  }

  /** The active player's current hand and its replacement. */
  function CurrentHand(p: Player): HandState
    requires 0 <= p.currentHandIndex < |p.hands|
  {
    p.hands[p.currentHandIndex]
  }

  function WithCurrentHand(p: Player, h: HandState): (q: Player)
    requires 0 <= p.currentHandIndex < |p.hands|
    ensures q.currentHandIndex == p.currentHandIndex && |q.hands| == |p.hands|
    ensures CurrentHand(q) == h
    ensures forall k :: 0 <= k < |p.hands| && k != p.currentHandIndex ==> q.hands[k] == p.hands[k]
    ensures q == p.(hands := q.hands)
  {
    p.(hands := p.hands[p.currentHandIndex := h])
  }

  /** 'hit': one more card on the current hand. */
  function HitPlayer(p: Player, c: Card): (q: Player)
    requires 0 <= p.currentHandIndex < |p.hands|
    ensures q.currentHandIndex == p.currentHandIndex && |q.hands| == |p.hands|
    ensures |CurrentHand(q).cards| == |CurrentHand(p).cards| + 1
    ensures CurrentHand(q) == CurrentHand(p).(cards := CurrentHand(p).cards + [c])
    ensures forall k :: 0 <= k < |p.hands| && k != p.currentHandIndex ==> q.hands[k] == p.hands[k]
    ensures q == p.(hands := q.hands)
  {
    var h := CurrentHand(p);
    WithCurrentHand(p, h.(cards := h.cards + [c]))
  }

  /** 'double': the bet doubles and exactly one card is added. */
  function DoublePlayer(p: Player, c: Card): (q: Player)
    requires 0 <= p.currentHandIndex < |p.hands|
    ensures q.currentHandIndex == p.currentHandIndex && |q.hands| == |p.hands|
    ensures CurrentHand(q).bet == 2.0 * CurrentHand(p).bet && CurrentHand(q).isDoubled
    ensures CurrentHand(q).cards == CurrentHand(p).cards + [c]
    ensures CurrentHand(q) == CurrentHand(p).(isDoubled := true, bet := 2.0 * CurrentHand(p).bet, cards := CurrentHand(p).cards + [c])
    ensures forall k :: 0 <= k < |p.hands| && k != p.currentHandIndex ==> q.hands[k] == p.hands[k]
    ensures q == p.(hands := q.hands)
  {
    var h := CurrentHand(p);
    WithCurrentHand(p, h.(isDoubled := true, bet := h.bet * 2.0, cards := h.cards + [c]))
  }

  /** 'surrender': the hand is marked surrendered and keeps its cards. */
  function SurrenderPlayer(p: Player): (q: Player)
    requires 0 <= p.currentHandIndex < |p.hands|
    ensures q.currentHandIndex == p.currentHandIndex && |q.hands| == |p.hands|
    ensures CurrentHand(q).isSurrendered && CurrentHand(q).cards == CurrentHand(p).cards
    ensures CurrentHand(q) == CurrentHand(p).(isSurrendered := true)
    ensures forall k :: 0 <= k < |p.hands| && k != p.currentHandIndex ==> q.hands[k] == p.hands[k]
    ensures q == p.(hands := q.hands)
  {
    WithCurrentHand(p, CurrentHand(p).(isSurrendered := true))
  }

  /** 'split': the current hand's last card moves to a new hand with the same
      bet inserted right after it, and each of the two hands gets one card. */
  function SplitPlayer(p: Player, c1: Card, c2: Card): (q: Player)
    requires 0 <= p.currentHandIndex < |p.hands| && |CurrentHand(p).cards| >= 1
    ensures |q.hands| == |p.hands| + 1 && q.currentHandIndex == p.currentHandIndex
    ensures var h := CurrentHand(p); var i := p.currentHandIndex; var n := |h.cards|;
      q.hands[i] == h.(cards := h.cards[..n - 1] + [c1]) &&
      q.hands[i + 1] == CreateEmptyHand(h.bet).(cards := [h.cards[n - 1], c2]) &&
      q.hands[..i] == p.hands[..i] && q.hands[i + 2..] == p.hands[i + 1..]
  {
    var i := p.currentHandIndex;
    var h := p.hands[i];
    var n := |h.cards|;
    p.(hands := p.hands[..i] + [h.(cards := h.cards[..n - 1] + [c1]), CreateEmptyHand(h.bet).(cards := [h.cards[n - 1], c2])] + p.hands[i + 1..])
  }

  /** What advanceHand does to the seats, from `before` to `after`: on to the
      next unfinished hand of player `a`, or else to the next eligible player. */
  ghost predicate Advanced(before: seq<Player>, a: int, after: seq<Player>, active: int, outcome: ActionOutcome)
  {
    0 <= a < |before| && 0 <= before[a].currentHandIndex < |before[a].hands| &&
    var p := before[a];
    var next := NextUnfinishedHand(p.hands, p.currentHandIndex);
    after == before[a := p.(currentHandIndex := if next.Some? then next.value else 0)] &&
    (next.Some? ==> active == a && outcome == ActionOutcome(false, false)) &&
    (next.None? ==> IsNextActive(after, a, active) && outcome == ActionOutcome(active == -1, true))
  }

  /** Every hand of the player holds at least the two cards it was dealt. */
  predicate HandsDealt(p: Player)
  {
    forall h :: 0 <= h < |p.hands| ==> |p.hands[h].cards| >= 2
  }

  /** No hand of the player can still beat the dealer without being played:
      each one busted or was surrendered. */
  predicate AllHandsOut(p: Player)
  {
    forall h :: 0 <= h < |p.hands| ==> IsBusted(p.hands[h].cards) || p.hands[h].isSurrendered
  }

  /** Seat `i` as the engine keeps it: it knows its index, holds at least
      one hand, and points at one of its hands. */
  predicate Seated(p: Player, i: int)
  {
    p.seatIndex == i && |p.hands| >= 1 && 0 <= p.currentHandIndex < |p.hands|
  }

  /** A seat between rounds: one hand, no cards, on its first hand. */
  predicate Fresh(p: Player)
  {
    |p.hands| == 1 && p.hands[0].cards == [] && p.currentHandIndex == 0
  }

  /** During the deal: a dealt-in seat's only hand holds `n` cards and
      nothing else about the seat changed; other seats are untouched. */
  ghost predicate DealtUpTo(before: Player, after: Player, n: nat)
  {
    if Dealt(before) then
      |after.hands| == 1 && |after.hands[0].cards| == n &&
      after == before.(hands := [before.hands[0].(cards := after.hands[0].cards)])
    else after == before
  }

  /** The dealer's hand with the hole card turned up, if it was down. */
  function HoleRevealed(dealer: HandState): (d: HandState)
    ensures |d.cards| == |dealer.cards|
    ensures |dealer.cards| > 1 && !dealer.cards[1].faceUp ==> d.cards[1].faceUp && d.cards[1].rank == dealer.cards[1].rank
    ensures forall k :: 0 <= k < |d.cards| && k != 1 ==> d.cards[k] == dealer.cards[k]
    ensures forall k :: 0 <= k < |d.cards| ==> d.cards[k].rank == dealer.cards[k].rank
  {
    if |dealer.cards| > 1 && !dealer.cards[1].faceUp then
      dealer.(cards := dealer.cards[1 := dealer.cards[1].(faceUp := true)])
    else dealer
  }

  /** The dealer's hand with the hole card turned up unconditionally, as
      startPlayerTurns does on a dealer blackjack. */
  function HoleTurnedUp(dealer: HandState): (d: HandState)
    requires |dealer.cards| >= 2
    ensures |d.cards| == |dealer.cards| && d.cards[1].faceUp
    ensures forall k :: 0 <= k < |d.cards| ==> d.cards[k].rank == dealer.cards[k].rank && d.cards[k].suit == dealer.cards[k].suit
    ensures forall k :: 0 <= k < |d.cards| && k != 1 ==> d.cards[k] == dealer.cards[k]
  {
    dealer.(cards := dealer.cards[1 := dealer.cards[1].(faceUp := true)])
  }

  /** What startPlayerTurns does to the table, from the seats, dealer and
      results before it to those after it. On a dealer blackjack the hole
      card is turned up and every hand is settled; otherwise the turn goes to
      the first eligible seat, and straight to the dealer when there is none. */
  ghost predicate TurnsStarted(seats: seq<Player>, dealer: HandState, results: seq<RoundResult>, settings: GameSettings,
                               players: seq<Player>, dealer': HandState, phase: RoundPhase, active: int, results': seq<RoundResult>)
    requires |dealer.cards| >= 2
  {
    if IsBlackjack(dealer.cards) then
      dealer' == HoleTurnedUp(dealer) && phase == RoundOver &&
      players == SettledPlayers(seats, dealer', settings) && results' == AllResults(seats, dealer', settings)
    else
      players == seats && results' == results && IsNextActive(seats, -1, active) &&
      (active == -1 ==> phase == DealerTurn && dealer' == HoleRevealed(dealer)) &&
      (active >= 0 ==> phase == PlayerTurn && dealer' == dealer)
  }

  /** What playerAction does to the seats, given the cards the shoe handed out. */
  ghost predicate ActionTaken(before: seq<Player>, a: int, action: Action, drawn: seq<Card>,
                              after: seq<Player>, active: int, outcome: ActionOutcome)
  {
    0 <= a < |before| && 0 <= before[a].currentHandIndex < |before[a].hands| &&
    var p := before[a];
    match action
    case Hit =>
      |drawn| == 1 &&
      var mid := before[a := HitPlayer(p, drawn[0])];
      if HandFinished(CurrentHand(mid[a])) then Advanced(mid, a, after, active, outcome)
      else after == mid && active == a && outcome == ActionOutcome(false, false)
    case Stand =>
      drawn == [] && Advanced(before, a, after, active, outcome)
    case Double =>
      |drawn| == 1 && Advanced(before[a := DoublePlayer(p, drawn[0])], a, after, active, outcome)
    case Surrender =>
      drawn == [] && Advanced(before[a := SurrenderPlayer(p)], a, after, active, outcome)
    case Split =>
      |CurrentHand(p).cards| >= 1 && |drawn| == 2 &&
      var mid := before[a := SplitPlayer(p, drawn[0], drawn[1])];
      var h := CurrentHand(mid[a]);
      if h.cards[0].rank == Ace || HandFinished(h) then Advanced(mid, a, after, active, outcome)
      else after == mid && active == a && outcome == ActionOutcome(false, false)
    case Insurance =>
      drawn == [] && after == before && active == a && outcome == ActionOutcome(false, false)
  }

  /** Moving on keeps the number of seats, and reports the turns over only
      when no seat is left to play. */
  lemma AdvancedFacts(before: seq<Player>, a: int, after: seq<Player>, active: int, outcome: ActionOutcome)
    requires Advanced(before, a, after, active, outcome)
    ensures |after| == |before|
    ensures outcome.done ==> active == -1
  {
  }

  /** Every action keeps the number of seats, and reports the turns over
      only when no seat is left to play. */
  lemma ActionTakenFacts(before: seq<Player>, a: int, action: Action, drawn: seq<Card>,
                         after: seq<Player>, active: int, outcome: ActionOutcome)
    requires ActionTaken(before, a, action, drawn, after, active, outcome)
    ensures |after| == |before|
    ensures outcome.done ==> active == -1
  {
    var p := before[a];
    match action {
      case Hit =>
        var mid := before[a := HitPlayer(p, drawn[0])];
        if HandFinished(CurrentHand(mid[a])) {
          AdvancedFacts(mid, a, after, active, outcome);
        }
      case Stand =>
        AdvancedFacts(before, a, after, active, outcome);
      case Double =>
        AdvancedFacts(before[a := DoublePlayer(p, drawn[0])], a, after, active, outcome);
      case Surrender =>
        AdvancedFacts(before[a := SurrenderPlayer(p)], a, after, active, outcome);
      case Split =>
        var mid := before[a := SplitPlayer(p, drawn[0], drawn[1])];
        if CurrentHand(mid[a]).cards[0].rank == Ace || HandFinished(CurrentHand(mid[a])) {
          AdvancedFacts(mid, a, after, active, outcome);
        }
      case Insurance =>
    }
  }

  /** Splitting a pair of aces freezes only the first ace hand: play moves on
      to the second one, which stays open for more cards unless it is already
      finished. */
  lemma SplitAcesSecondHandPlayable(before: seq<Player>, a: int, drawn: seq<Card>,
                                    after: seq<Player>, active: int, outcome: ActionOutcome)
    requires ActionTaken(before, a, Split, drawn, after, active, outcome)
    requires |CurrentHand(before[a]).cards| == 2 && CurrentHand(before[a]).cards[0].rank == Ace
    requires !HandFinished(CreateEmptyHand(CurrentHand(before[a]).bet).(cards := [CurrentHand(before[a]).cards[1], drawn[1]]))
    ensures active == a && outcome == ActionOutcome(false, false)
    ensures after[a].currentHandIndex == before[a].currentHandIndex + 1
    ensures CurrentHand(after[a]).cards == [CurrentHand(before[a]).cards[1], drawn[1]]
  {
    var p := before[a];
    var i := p.currentHandIndex;
    var q := SplitPlayer(p, drawn[0], drawn[1]);
    assert q.hands[i].cards[0].rank == Ace;
    assert NextUnfinishedHand(q.hands, i) == Some(i + 1);
  }

  /** handleSplit's rebuilt seat is the seat SplitPlayer describes. */
  lemma SplitParts(p: Player, c1: Card, c2: Card, hand: HandState, newHand: HandState)
    requires 0 <= p.currentHandIndex < |p.hands| && |CurrentHand(p).cards| >= 1
    requires var h := CurrentHand(p); var n := |h.cards|;
      hand == h.(cards := h.cards[..n - 1] + [c1]) &&
      newHand == CreateEmptyHand(h.bet).(cards := [h.cards[n - 1], c2])
    ensures var i := p.currentHandIndex;
      p.(hands := p.hands[..i] + [hand, newHand] + p.hands[i + 1..]) == SplitPlayer(p, c1, c2)
  {
  }

  /** Splitting the current hand of the player whose turn it is keeps the
      invariant: both hands hold two cards. */
  lemma SplitOk(players: seq<Player>, active: int, dealer: HandState, c1: Card, c2: Card)
    requires TableOk(players, PlayerTurn, active, dealer) && active >= 0
    ensures |CurrentHand(players[active]).cards| >= 2
    ensures TableOk(players[active := SplitPlayer(players[active], c1, c2)], PlayerTurn, active, dealer)
  {
    var p := players[active];
    var i := p.currentHandIndex;
    var q := SplitPlayer(p, c1, c2);
    assert HandsDealt(q) by {
      forall h | 0 <= h < |q.hands| ensures |q.hands[h].cards| >= 2 {
        if h > i + 1 {
          assert q.hands[h] == q.hands[i + 2..][h - (i + 2)] == p.hands[i + 1..][h - (i + 2)];
        } else if h < i {
          assert q.hands[h] == q.hands[..i][h] == p.hands[..i][h];
        }
      }
    }
    SeatUpdateOk(players, PlayerTurn, active, dealer, active, q);
  }

  /** The split action as ActionTaken states it, when the first hand is
      finished at once and play advances. */
  lemma SplitFrozenTaken(before: seq<Player>, a: int, drawn: seq<Card>, mid: seq<Player>,
                         after: seq<Player>, active: int, outcome: ActionOutcome)
    requires 0 <= a < |before| && 0 <= before[a].currentHandIndex < |before[a].hands|
    requires |CurrentHand(before[a]).cards| >= 1 && |drawn| == 2
    requires mid == before[a := SplitPlayer(before[a], drawn[0], drawn[1])]
    requires CurrentHand(mid[a]).cards[0].rank == Ace || HandFinished(CurrentHand(mid[a]))
    requires Advanced(mid, a, after, active, outcome) == true
    ensures ActionTaken(before, a, Split, drawn, after, active, outcome) == true
  {
  }

  /** The split action as ActionTaken states it, when the first hand stays
      in play. */
  lemma SplitOpenTaken(before: seq<Player>, a: int, drawn: seq<Card>, after: seq<Player>)
    requires 0 <= a < |before| && 0 <= before[a].currentHandIndex < |before[a].hands|
    requires |CurrentHand(before[a]).cards| >= 1 && |drawn| == 2
    requires after == before[a := SplitPlayer(before[a], drawn[0], drawn[1])]
    requires !(CurrentHand(after[a]).cards[0].rank == Ace || HandFinished(CurrentHand(after[a])))
    ensures ActionTaken(before, a, Split, drawn, after, a, ActionOutcome(false, false)) == true
  {
  }

  /** Replacing the current hand of the player whose turn it is by one with
      at least as many cards keeps the invariant. */
  lemma CurrentHandOk(players: seq<Player>, active: int, dealer: HandState, h: HandState)
    requires TableOk(players, PlayerTurn, active, dealer) && active >= 0
    requires |h.cards| >= |CurrentHand(players[active]).cards|
    ensures TableOk(players[active := WithCurrentHand(players[active], h)], PlayerTurn, active, dealer)
  {
    var p := players[active];
    var q := WithCurrentHand(p, h);
    assert HandsDealt(q) by {
      forall k | 0 <= k < |q.hands| ensures |q.hands[k].cards| >= 2 {
        if k != p.currentHandIndex {
          assert q.hands[k] == p.hands[k];
        }
      }
    }
    SeatUpdateOk(players, PlayerTurn, active, dealer, active, q);
  }

  /** The hit action as ActionTaken states it. */
  lemma HitTaken(before: seq<Player>, a: int, drawn: seq<Card>, after: seq<Player>, active: int, outcome: ActionOutcome)
    requires 0 <= a < |before| && 0 <= before[a].currentHandIndex < |before[a].hands| && |drawn| == 1
    requires var mid := before[a := HitPlayer(before[a], drawn[0])];
      if HandFinished(CurrentHand(mid[a])) then Advanced(mid, a, after, active, outcome)
      else after == mid && active == a && outcome == ActionOutcome(false, false)
    ensures ActionTaken(before, a, Hit, drawn, after, active, outcome)
  {
  }

  /** The double action as ActionTaken states it. */
  lemma DoubleTaken(before: seq<Player>, a: int, drawn: seq<Card>, after: seq<Player>, active: int, outcome: ActionOutcome)
    requires 0 <= a < |before| && 0 <= before[a].currentHandIndex < |before[a].hands| && |drawn| == 1
    requires Advanced(before[a := DoublePlayer(before[a], drawn[0])], a, after, active, outcome)
    ensures ActionTaken(before, a, Double, drawn, after, active, outcome)
  {
  }

  /** The surrender action as ActionTaken states it. */
  lemma SurrenderTaken(before: seq<Player>, a: int, after: seq<Player>, active: int, outcome: ActionOutcome)
    requires 0 <= a < |before| && 0 <= before[a].currentHandIndex < |before[a].hands|
    requires Advanced(before[a := SurrenderPlayer(before[a])], a, after, active, outcome)
    ensures ActionTaken(before, a, Surrender, [], after, active, outcome)
  {
  }

  /** The engine's invariant: every seat is well formed; between rounds every
      seat is back to one empty hand; once cards are out, the dealer and every
      dealt-in seat hold their cards, and so does the player whose turn it is. */
  ghost predicate TableOk(players: seq<Player>, phase: RoundPhase, active: int, dealer: HandState)
  {
    |players| >= 1 &&
    (forall i :: 0 <= i < |players| ==> Seated(players[i], i)) &&
    -1 <= active < |players| &&
    (phase == Betting ==> active == -1 && forall i :: 0 <= i < |players| ==> Fresh(players[i])) &&
    (phase in {Dealing, InsurancePrompt, PlayerTurn} ==>
      |dealer.cards| >= 2 &&
      forall i :: 0 <= i < |players| && Dealt(players[i]) ==> HandsDealt(players[i])) &&
    (phase == PlayerTurn && active >= 0 ==> HandsDealt(players[active]))
  }

  /** Replacing one seat keeps the invariant when the new seat keeps its own
      part of it. */
  lemma SeatUpdateOk(players: seq<Player>, phase: RoundPhase, active: int, dealer: HandState, a: int, q: Player)
    requires TableOk(players, phase, active, dealer) && 0 <= a < |players|
    requires Seated(q, a)
    requires phase == Betting ==> Fresh(q)
    requires phase in {Dealing, InsurancePrompt, PlayerTurn} && Dealt(q) ==> HandsDealt(q)
    requires phase == PlayerTurn && active == a ==> HandsDealt(q)
    ensures TableOk(players[a := q], phase, active, dealer)
  {
  }

  /** Moving a seat to another of its own hands keeps the invariant. */
  lemma HandIndexOk(players: seq<Player>, phase: RoundPhase, active: int, dealer: HandState, a: int, k: int)
    requires TableOk(players, phase, active, dealer) && 0 <= a < |players|
    requires 0 <= k < |players[a].hands| && (phase == Betting ==> k == 0)
    ensures TableOk(players[a := players[a].(currentHandIndex := k)], phase, active, dealer)
  {
    SeatUpdateOk(players, phase, active, dealer, a, players[a].(currentHandIndex := k));
  }

  /** Dealing both rounds of cards out of the betting phase leaves a table
      in the dealing phase that keeps the invariant. */
  lemma DealtSeatsOk(base: seq<Player>, seats: seq<Player>, dealer: HandState, before: HandState)
    requires TableOk(base, Betting, -1, before)
    requires |seats| == |base| && forall k :: 0 <= k < |base| ==> DealtUpTo(base[k], seats[k], 2)
    requires |dealer.cards| >= 2
    ensures TableOk(seats, Dealing, -1, dealer)
  {
    forall k | 0 <= k < |seats| ensures Seated(seats[k], k) && (Dealt(seats[k]) ==> HandsDealt(seats[k])) {
      assert Fresh(base[k]) && Seated(base[k], k);
    }
  }

  /** Marking a seat's first hand insured keeps the invariant. */
  lemma InsuredOk(players: seq<Player>, phase: RoundPhase, active: int, dealer: HandState, i: int, h: HandState)
    requires TableOk(players, phase, active, dealer) && 0 <= i < |players| && phase != Betting
    requires h.cards == players[i].hands[0].cards && h.bet == players[i].hands[0].bet
    ensures TableOk(players[i := players[i].(hands := players[i].hands[0 := h])], phase, active, dealer)
  {
    var p := players[i];
    var q := p.(hands := p.hands[0 := h]);
    assert HandsDealt(p) ==> HandsDealt(q) by {
      if HandsDealt(p) {
        forall k | 0 <= k < |q.hands| ensures |q.hands[k].cards| >= 2 {
          if k != 0 {
            assert q.hands[k] == p.hands[k];
          }
        }
      }
    }
    SeatUpdateOk(players, phase, active, dealer, i, q);
  }

  /** Handing the turn to the next eligible seat keeps the invariant. */
  lemma NextTurnOk(players: seq<Player>, active: int, dealer: HandState, r: int)
    requires TableOk(players, PlayerTurn, active, dealer) && active >= -1
    requires IsNextActive(players, active, r)
    ensures TableOk(players, PlayerTurn, r, dealer)
  {
  }

  /** advanceHand's recursive step: skipping a finished next hand and then
      advancing is advancing. */
  lemma AdvanceStep(before: seq<Player>, a: int, after: seq<Player>, active: int, outcome: ActionOutcome)
    requires 0 <= a < |before| && 0 <= before[a].currentHandIndex < |before[a].hands| - 1
    requires HandFinished(before[a].hands[before[a].currentHandIndex + 1])
    requires Advanced(before[a := before[a].(currentHandIndex := before[a].currentHandIndex + 1)], a, after, active, outcome)
    ensures Advanced(before, a, after, active, outcome)
  {
    var p := before[a];
    var i := p.currentHandIndex;
    var q := p.(currentHandIndex := i + 1);
    var mid := before[a := q];
    assert mid[a] == q;
    var next := NextUnfinishedHand(p.hands, i + 1);
    StepSkip(p.hands, i);
    var j := if next.Some? then next.value else 0;
    assert q.(currentHandIndex := j) == p.(currentHandIndex := j);
    assert after == before[a := p.(currentHandIndex := j)];
  }

  /** advanceHand stopping at the next hand of the same player. */
  lemma AdvanceToNextHand(before: seq<Player>, a: int)
    requires 0 <= a < |before| && 0 <= before[a].currentHandIndex < |before[a].hands| - 1
    requires !HandFinished(before[a].hands[before[a].currentHandIndex + 1])
    ensures Advanced(before, a, before[a := before[a].(currentHandIndex := before[a].currentHandIndex + 1)], a, ActionOutcome(false, false))
  {
  }

  /** advanceHand moving on from a player's last hand. */
  lemma AdvanceToNextPlayer(before: seq<Player>, a: int, r: int)
    requires 0 <= a < |before| && |before[a].hands| >= 1 && before[a].currentHandIndex == |before[a].hands| - 1
    requires IsNextActive(before[a := before[a].(currentHandIndex := 0)], a, r)
    ensures Advanced(before, a, before[a := before[a].(currentHandIndex := 0)], r, ActionOutcome(r == -1, true))
  {
  }

  lemma StepSkip(hands: seq<HandState>, i: int)
    requires 0 <= i < |hands| - 1 && HandFinished(hands[i + 1])
    ensures NextUnfinishedHand(hands, i) == NextUnfinishedHand(hands, i + 1)
  {
  }

  // ---------------------------------------------------------------- settlement

  /** A hand with its outcome and net payout recorded. */
  function SettleHand(h: HandState, dealer: HandState, settings: GameSettings): (s: HandState)
    ensures s.cards == h.cards && s.bet == h.bet && s.result.Some? && s.payout.Some?
    ensures s.payout.value == ResolveHand(h, dealer, settings).payout
  {
    var r := ResolveHand(h, dealer, settings);
    h.(result := Some(r.result), payout := Some(r.payout))
  }

  /** What a hand adds to the bankroll: its payout, plus the insurance side
      bet's outcome when it was insured. */
  function HandNet(h: HandState, dealer: HandState, settings: GameSettings): real
  {
    ResolveHand(h, dealer, settings).payout + (if h.isInsured then ResolveInsurance(dealer, h.insuranceBet) else 0.0)
  }

  function HandsNet(hands: seq<HandState>, dealer: HandState, settings: GameSettings): real
  {
    if hands == [] then 0.0
    else HandsNet(hands[..|hands| - 1], dealer, settings) + HandNet(hands[|hands| - 1], dealer, settings)
  }

  /** The insurance part of a run of hands. */
  function InsuranceNet(hands: seq<HandState>, dealer: HandState): real
  {
    if hands == [] then 0.0
    else
      var h := hands[|hands| - 1];
      InsuranceNet(hands[..|hands| - 1], dealer) + (if h.isInsured then ResolveInsurance(dealer, h.insuranceBet) else 0.0)
  }

  /** The seat after resolveAllHands: each hand settled, the bankroll moved by
      the net, and the player sat out when the bankroll drops below the minimum.
      Players who were not dealt in are left alone. */
  function SettlePlayer(p: Player, dealer: HandState, settings: GameSettings): (q: Player)
    ensures q.name == p.name && q.seatIndex == p.seatIndex && q.isHuman == p.isHuman
    ensures q.currentHandIndex == p.currentHandIndex && |q.hands| == |p.hands|
    ensures !Dealt(p) ==> q == p
    ensures Dealt(p) ==> q.bankroll == p.bankroll + HandsNet(p.hands, dealer, settings)
    ensures Dealt(p) ==> (q.isActive <==> q.bankroll >= settings.minimumBet)
  {
    if !Dealt(p) then p
    else
      var bankroll := p.bankroll + HandsNet(p.hands, dealer, settings);
      p.(hands := seq(|p.hands|, k requires 0 <= k < |p.hands| => SettleHand(p.hands[k], dealer, settings)),
         bankroll := bankroll,
         isActive := !(bankroll < settings.minimumBet))
  }

  /** Settling records outcomes only: every hand keeps its cards and its bet. */
  lemma SettleKeepsCards(p: Player, dealer: HandState, settings: GameSettings)
    ensures forall k :: 0 <= k < |p.hands| ==>
      SettlePlayer(p, dealer, settings).hands[k].cards == p.hands[k].cards &&
      SettlePlayer(p, dealer, settings).hands[k].bet == p.hands[k].bet
  {
  }

  /** Every seat settled. */
  function SettledPlayers(players: seq<Player>, dealer: HandState, settings: GameSettings): (ps: seq<Player>)
    ensures |ps| == |players|
    ensures forall i :: 0 <= i < |players| ==> ps[i] == SettlePlayer(players[i], dealer, settings)
  {
    seq(|players|, i requires 0 <= i < |players| => SettlePlayer(players[i], dealer, settings))
  }

  /** The result rows a seat contributes, one per hand, in hand order. */
  function PlayerResults(p: Player, dealer: HandState, settings: GameSettings): (rs: seq<RoundResult>)
    ensures Dealt(p) ==> |rs| == |p.hands|
    ensures !Dealt(p) ==> rs == []
  {
    if !Dealt(p) then []
    else seq(|p.hands|, k requires 0 <= k < |p.hands| => ResultRow(p, k, dealer, settings))
  }

  /** The result row of hand `k` of seat `p`. */
  function ResultRow(p: Player, k: int, dealer: HandState, settings: GameSettings): RoundResult
    requires 0 <= k < |p.hands|
  {
    var r := ResolveHand(p.hands[k], dealer, settings);
    RoundResult(p.name, p.seatIndex, k, p.hands[k].bet, r.result, r.payout)
  }

  /** The result rows of a run of seats, seat by seat. */
  function AllResults(players: seq<Player>, dealer: HandState, settings: GameSettings): seq<RoundResult>
  {
    if players == [] then []
    else AllResults(players[..|players| - 1], dealer, settings) + PlayerResults(players[|players| - 1], dealer, settings)
  }

  function SumPayouts(results: seq<RoundResult>): real
  {
    if results == [] then 0.0 else SumPayouts(results[..|results| - 1]) + results[|results| - 1].payout
  }

  lemma {:induction false} SumPayoutsAppend(a: seq<RoundResult>, b: seq<RoundResult>)
    ensures SumPayouts(a + b) == SumPayouts(a) + SumPayouts(b)
    decreases |b|
  {
    if b == [] {
      assert a + b == a;
    } else {
      var b' := b[..|b| - 1];
      assert (a + b)[..|a + b| - 1] == a + b';
      SumPayoutsAppend(a, b');
    }
  }

  /** Settling a seat moves its bankroll by exactly the payouts reported in
      its result rows plus the insurance outcomes: no money appears or
      disappears between the hands, the report and the bankroll. */
  lemma {:induction false} SettlementBalances(p: Player, dealer: HandState, settings: GameSettings)
    requires Dealt(p)
    ensures SettlePlayer(p, dealer, settings).bankroll ==
            p.bankroll + SumPayouts(PlayerResults(p, dealer, settings)) + InsuranceNet(p.hands, dealer)
  {
    var rs := PlayerResults(p, dealer, settings);
    NetSplits(p, |p.hands|, dealer, settings);
    assert p.hands[..|p.hands|] == p.hands;
    assert rs[..|rs|] == rs;
  }

  lemma {:induction false} NetSplits(p: Player, n: nat, dealer: HandState, settings: GameSettings)
    requires Dealt(p) && n <= |p.hands|
    ensures HandsNet(p.hands[..n], dealer, settings) ==
            SumPayouts(PlayerResults(p, dealer, settings)[..n]) + InsuranceNet(p.hands[..n], dealer)
  {
    if n > 0 {
      NetSplits(p, n - 1, dealer, settings);
      HandsStep(p.hands[..n], dealer, settings);
      assert p.hands[..n][..n - 1] == p.hands[..n - 1];
      RowsStep(p, n, dealer, settings);
    }
  }

  /** The last hand of a run adds its payout to the non-insurance net. */
  lemma HandsStep(hs: seq<HandState>, dealer: HandState, settings: GameSettings)
    requires |hs| > 0
    ensures HandsNet(hs, dealer, settings) - InsuranceNet(hs, dealer) ==
            HandsNet(hs[..|hs| - 1], dealer, settings) - InsuranceNet(hs[..|hs| - 1], dealer) +
            ResolveHand(hs[|hs| - 1], dealer, settings).payout
  {
  }

  /** The row of hand n - 1 reports that hand's payout. */
  lemma RowsStep(p: Player, n: nat, dealer: HandState, settings: GameSettings)
    requires Dealt(p) && 0 < n <= |p.hands|
    ensures SumPayouts(PlayerResults(p, dealer, settings)[..n]) ==
            SumPayouts(PlayerResults(p, dealer, settings)[..n - 1]) + ResolveHand(p.hands[n - 1], dealer, settings).payout
  {
    var rs := PlayerResults(p, dealer, settings);
    assert rs[..n][..n - 1] == rs[..n - 1];
    assert rs[n - 1] == ResultRow(p, n - 1, dealer, settings);
  }

  /** Every seat's result rows are in AllResults, and AllResults holds
      exactly one row per hand of each dealt seat. */
  lemma {:induction false} ResultsCount(players: seq<Player>, dealer: HandState, settings: GameSettings)
    ensures |AllResults(players, dealer, settings)| == DealtHands(players)
  {
    if players != [] {
      ResultsCount(players[..|players| - 1], dealer, settings);
    }
  }

  /** No result row is left pending. */
  predicate Settled(rows: seq<RoundResult>)
  {
    forall i :: 0 <= i < |rows| ==> rows[i].result != Pending
  }

  /** Settlement gives every hand a final result. */
  lemma {:induction false} AllResultsSettled(players: seq<Player>, dealer: HandState, settings: GameSettings)
    ensures Settled(AllResults(players, dealer, settings))
  {
    if players != [] {
      AllResultsSettled(players[..|players| - 1], dealer, settings);
      var p := players[|players| - 1];
      var rs := PlayerResults(p, dealer, settings);
      forall k | 0 <= k < |rs|
        ensures rs[k].result != Pending
      {
        assert rs[k] == ResultRow(p, k, dealer, settings);
      }
    }
  }

  /** The number of hands dealt in across a run of seats. */
  function DealtHands(players: seq<Player>): nat
  {
    if players == [] then 0
    else DealtHands(players[..|players| - 1]) + (if Dealt(players[|players| - 1]) then |players[|players| - 1].hands| else 0)
  }

  /** resolveAllHands' inner loop for one dealt seat: settle each hand in
      turn, credit its payout and insurance, and report it. */
  method ResolvePlayerHands(p: Player, dealer: HandState, settings: GameSettings) returns (q: Player, results: seq<RoundResult>)
    requires Dealt(p)
    ensures q == SettlePlayer(p, dealer, settings)
    ensures results == PlayerResults(p, dealer, settings)
  {
    var hands := p.hands;
    var bankroll := p.bankroll;
    results := [];
    for hi := 0 to |p.hands|
      invariant |hands| == |p.hands| && |results| == hi
      invariant forall k :: 0 <= k < hi ==> hands[k] == SettleHand(p.hands[k], dealer, settings)
      invariant forall k :: hi <= k < |hands| ==> hands[k] == p.hands[k]
      invariant bankroll == p.bankroll + HandsNet(p.hands[..hi], dealer, settings)
      invariant forall k :: 0 <= k < hi ==> results[k] == ResultRow(p, k, dealer, settings)
    {
      var hand := hands[hi];
      var r := ResolveHand(hand, dealer, settings);
      hands := hands[hi := hand.(result := Some(r.result), payout := Some(r.payout))];
      bankroll := bankroll + r.payout;
      if hand.isInsured {
        var insurancePayout := ResolveInsurance(dealer, hand.insuranceBet);
        bankroll := bankroll + insurancePayout;
      }
      results := results + [RoundResult(p.name, p.seatIndex, hi, hand.bet, r.result, r.payout)];
      assert p.hands[..hi + 1][..hi] == p.hands[..hi];
    }
    q := p.(hands := hands, bankroll := bankroll);
    if bankroll < settings.minimumBet {
      q := q.(isActive := false);
    }
    SettledFromParts(p, hands, bankroll, results, dealer, settings);
  }

  /** The loop's final state is the settled seat and its report. */
  lemma SettledFromParts(p: Player, hands: seq<HandState>, bankroll: real, results: seq<RoundResult>,
                         dealer: HandState, settings: GameSettings)
    requires Dealt(p) && |hands| == |p.hands| == |results|
    requires forall k :: 0 <= k < |hands| ==> hands[k] == SettleHand(p.hands[k], dealer, settings)
    requires bankroll == p.bankroll + HandsNet(p.hands[..|p.hands|], dealer, settings)
    requires forall k :: 0 <= k < |results| ==> results[k] == ResultRow(p, k, dealer, settings)
    ensures p.(hands := hands, bankroll := bankroll, isActive := !(bankroll < settings.minimumBet)) == SettlePlayer(p, dealer, settings)
    ensures results == PlayerResults(p, dealer, settings)
  {
    assert p.hands[..|p.hands|] == p.hands;
    SettledHandsFromParts(p, hands, dealer, settings);
    ResultsFromParts(p, results, dealer, settings);
  }

  lemma SettledHandsFromParts(p: Player, hands: seq<HandState>, dealer: HandState, settings: GameSettings)
    requires Dealt(p) && |hands| == |p.hands|
    requires forall k :: 0 <= k < |hands| ==> hands[k] == SettleHand(p.hands[k], dealer, settings)
    ensures SettlePlayer(p, dealer, settings).hands == hands
  {
  }

  lemma ResultsFromParts(p: Player, results: seq<RoundResult>, dealer: HandState, settings: GameSettings)
    requires Dealt(p) && |results| == |p.hands|
    requires forall k :: 0 <= k < |results| ==> results[k] == ResultRow(p, k, dealer, settings)
    ensures results == PlayerResults(p, dealer, settings)
  {
  }

  /** The result rows of one more seat follow those of the seats before it. */
  lemma AllResultsStep(players: seq<Player>, pi: int, dealer: HandState, settings: GameSettings)
    requires 0 <= pi < |players|
    ensures AllResults(players[..pi + 1], dealer, settings) ==
            AllResults(players[..pi], dealer, settings) + PlayerResults(players[pi], dealer, settings)
  {
    assert players[..pi + 1][..pi] == players[..pi];
  }

  /** One more seat settled in resolveAllHands' outer loop. */
  lemma SettleStep(players: seq<Player>, seats: seq<Player>, pi: int, settled: Player,
                   dealer: HandState, settings: GameSettings)
    requires |seats| == |players| && 0 <= pi < |players|
    requires forall i :: 0 <= i < pi ==> seats[i] == SettlePlayer(players[i], dealer, settings)
    requires forall i :: pi <= i < |seats| ==> seats[i] == players[i]
    requires settled == SettlePlayer(players[pi], dealer, settings)
    ensures forall i :: 0 <= i < pi + 1 ==> seats[pi := settled][i] == SettlePlayer(players[i], dealer, settings)
    ensures forall i :: pi + 1 <= i < |seats| ==> seats[pi := settled][i] == players[i]
  {
  }

  /** resolveAllHands' outer loop: settle the dealt-in seats in seat order and
      collect their result rows; the other seats are skipped. */
  method SettleSeats(players: seq<Player>, dealer: HandState, settings: GameSettings)
    returns (seats: seq<Player>, results: seq<RoundResult>)
    ensures seats == SettledPlayers(players, dealer, settings)
    ensures results == AllResults(players, dealer, settings)
  {
    seats := players;
    results := [];
    for pi := 0 to |seats|
      invariant |seats| == |players|
      invariant forall i :: 0 <= i < pi ==> seats[i] == SettlePlayer(players[i], dealer, settings)
      invariant forall i :: pi <= i < |seats| ==> seats[i] == players[i]
      invariant results == AllResults(players[..pi], dealer, settings)
    {
      AllResultsStep(players, pi, dealer, settings);
      var player := seats[pi];
      var settled, rows := player, [];
      if player.isActive && |player.hands| > 0 && player.hands[0].bet != 0.0 {
        settled, rows := ResolvePlayerHands(player, dealer, settings);
      }
      SettleStep(players, seats, pi, settled, dealer, settings);
      seats := seats[pi := settled];
      results := results + rows;
    }
    assert players[..|players|] == players;
  }

  /** Settlement keeps every seat well formed. */
  lemma SettledSeatsStaySeated(players: seq<Player>, phase: RoundPhase, active: int, dealer: HandState, settings: GameSettings)
    requires TableOk(players, phase, active, dealer)
    ensures TableOk(SettledPlayers(players, dealer, settings), RoundOver, active, dealer)
  {
    var ps := SettledPlayers(players, dealer, settings);
    forall i | 0 <= i < |players|
      ensures Seated(ps[i], i)
    {
      assert Seated(players[i], i);
    }
  }
}
