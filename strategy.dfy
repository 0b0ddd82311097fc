/** The basic-strategy engine (src/engine/basicStrategy.ts): H17 multi-deck
    tables for hard totals, soft totals and pairs, and the resolver that turns
    a table code into an action that is legal for the hand. */
module BasicStrategy {
  import opened Cards
  import opened Hands
  import opened Wrappers

  /** The dealer upcard as the tables key it: 2-9, 10 for every ten-valued card, A. */
  datatype Upcard = U2 | U3 | U4 | U5 | U6 | U7 | U8 | U9 | U10 | UA

  /** A table cell. The suffix names the fallback when the primary action is
      not available: D hit, Ds stand, P/Ph hit, Rh hit, Rs stand. `Other`
      stands for any other string a caller might pass to the resolver. */
  datatype Code = H | S | D | Ds | P | Ph | Rh | Rs | Other(text: string)

  /** One table row: the code for each of the ten dealer upcards. */
  datatype Row = Row(c2: Code, c3: Code, c4: Code, c5: Code, c6: Code,
                     c7: Code, c8: Code, c9: Code, c10: Code, cA: Code)
  {
    function At(u: Upcard): Code
    {
      match u
      case U2 => c2 case U3 => c3 case U4 => c4 case U5 => c5 case U6 => c6
      case U7 => c7 case U8 => c8 case U9 => c9 case U10 => c10 case UA => cA
    }
  }

  /** The rank an upcard key is written as. */
  function UpcardRank(u: Upcard): Rank
  {
    match u
    case U2 => Two case U3 => Three case U4 => Four case U5 => Five case U6 => Six
    case U7 => Seven case U8 => Eight case U9 => Nine case U10 => Ten case UA => Ace
  }

  /** getDealerUpcardKey: J, Q and K are keyed as 10; every other rank keys as itself. */
  function GetDealerUpcardKey(card: Card): (u: Upcard)
    ensures card.rank in {Jack, Queen, King} ==> u == U10
    ensures card.rank !in {Jack, Queen, King} ==> UpcardRank(u) == card.rank
  {
    match card.rank
    case Two => U2 case Three => U3 case Four => U4 case Five => U5 case Six => U6
    case Seven => U7 case Eight => U8 case Nine => U9
    case Ten | Jack | Queen | King => U10
    case Ace => UA
  }

  /** Hard totals 5-21. */
  const HardTotals: map<int, Row> := map[
    5  := Row(H, H, H, H, H, H, H, H, H, H),
    6  := Row(H, H, H, H, H, H, H, H, H, H),
    7  := Row(H, H, H, H, H, H, H, H, H, H),
    8  := Row(H, H, H, H, H, H, H, H, H, H),
    9  := Row(H, D, D, D, D, H, H, H, H, H),
    10 := Row(D, D, D, D, D, D, D, D, H, H),
    11 := Row(D, D, D, D, D, D, D, D, D, D),
    12 := Row(H, H, S, S, S, H, H, H, H, H),
    13 := Row(S, S, S, S, S, H, H, H, H, H),
    14 := Row(S, S, S, S, S, H, H, H, H, H),
    15 := Row(S, S, S, S, S, H, H, H, Rh, Rh),
    16 := Row(S, S, S, S, S, H, H, Rh, Rh, Rh),
    17 := Row(S, S, S, S, S, S, S, S, S, Rs),
    18 := Row(S, S, S, S, S, S, S, S, S, S),
    19 := Row(S, S, S, S, S, S, S, S, S, S),
    20 := Row(S, S, S, S, S, S, S, S, S, S),
    21 := Row(S, S, S, S, S, S, S, S, S, S)]

  /** Soft totals 13-21. */
  const SoftTotals: map<int, Row> := map[
    13 := Row(H, H, H, D, D, H, H, H, H, H),
    14 := Row(H, H, H, D, D, H, H, H, H, H),
    15 := Row(H, H, D, D, D, H, H, H, H, H),
    16 := Row(H, H, D, D, D, H, H, H, H, H),
    17 := Row(H, D, D, D, D, H, H, H, H, H),
    18 := Row(Ds, Ds, Ds, Ds, Ds, S, S, H, H, H),
    19 := Row(S, S, S, S, Ds, S, S, S, S, S),
    20 := Row(S, S, S, S, S, S, S, S, S, S),
    21 := Row(S, S, S, S, S, S, S, S, S, S)]

  /** Pairs, keyed by the rank of the first card (ten-valued cards as Ten). */
  const Pairs: map<Rank, Row> := map[
    Two   := Row(Ph, Ph, P, P, P, P, H, H, H, H),
    Three := Row(Ph, Ph, P, P, P, P, H, H, H, H),
    Four  := Row(H, H, H, Ph, Ph, H, H, H, H, H),
    Five  := Row(D, D, D, D, D, D, D, D, H, H),
    Six   := Row(Ph, P, P, P, P, H, H, H, H, H),
    Seven := Row(P, P, P, P, P, P, H, H, H, H),
    Eight := Row(P, P, P, P, P, P, P, P, P, P),
    Nine  := Row(P, P, P, P, P, S, P, P, S, S),
    Ten   := Row(S, S, S, S, S, S, S, S, S, S),
    Ace   := Row(P, P, P, P, P, P, P, P, P, P)]

  /** Every table has exactly the rows the lookups need, and each row holds
      one code per upcard, so every lookup below is total. */
  lemma TablesAreComplete()
    ensures forall t :: t in HardTotals <==> 5 <= t <= 21
    ensures forall t :: t in SoftTotals <==> 13 <= t <= 21
    ensures forall r: Rank :: r in Pairs <==> r !in {Jack, Queen, King}
  {
    forall r: Rank ensures r in Pairs <==> r !in {Jack, Queen, King} {
      match r
      case Two => case Three => case Four => case Five => case Six =>
      case Seven => case Eight => case Nine => case Ten => case Ace =>
      case Jack => case Queen => case King =>
    }
  }

  /** resolveAction: the primary action if it is available, else the fallback
      the code's suffix names; unknown codes stand. */
  function ResolveAction(code: Code, availableActions: seq<Action>): (a: Action)
    ensures code == H ==> a == Hit
    ensures code == S ==> a == Stand
    ensures code in {D, Ds} ==> a == (if Double in availableActions then Double else if code == D then Hit else Stand)
    ensures code in {P, Ph} ==> a == (if Split in availableActions then Split else Hit)
    ensures code in {Rh, Rs} ==> a == (if Surrender in availableActions then Surrender else if code == Rh then Hit else Stand)
    ensures code.Other? ==> a == Stand
    ensures a == Hit || a == Stand || a in availableActions
  {
    match code
    case H => Hit
    case S => Stand
    case D => if Double in availableActions then Double else Hit
    case Ds => if Double in availableActions then Double else Stand
    case P | Ph => if Split in availableActions then Split else Hit
    case Rh => if Surrender in availableActions then Surrender else Hit
    case Rs => if Surrender in availableActions then Surrender else Stand
    case Other(_) => Stand
  }

  /** The value both cards of a two-card hand share, if they share one. */
  predicate IsPair(cards: seq<Card>)
  {
    |cards| == 2 && CardValue(cards[0])[0] == CardValue(cards[1])[0]
  }

  function PairKey(c: Card): Rank
  {
    if c.rank == Jack || c.rank == Queen || c.rank == King then Ten else c.rank
  }

  /** getBasicStrategyActionCode: pairs first, then soft totals, then the
      hard total clamped to 5-21; `None` is the source's `null`. */
  function GetBasicStrategyActionCode(hand: HandState, dealerUpcard: Card): (code: Option<Code>)
    ensures IsPair(hand.cards) ==> code == Some(Pairs[PairKey(hand.cards[0])].At(GetDealerUpcardKey(dealerUpcard)))
  {
    var cards := hand.cards;
    var dealerKey := GetDealerUpcardKey(dealerUpcard);
    var total := Totals(cards);
    if IsPair(cards) && PairKey(cards[0]) in Pairs then
      Some(Pairs[PairKey(cards[0])].At(dealerKey))
    else if IsSoft(cards) && total.best in SoftTotals then
      Some(SoftTotals[total.best].At(dealerKey))
    else
      var hardKey := if total.best < 5 then 5 else if total.best > 21 then 21 else total.best;
      if hardKey in HardTotals then Some(HardTotals[hardKey].At(dealerKey))
      else None
  }

  /** getBasicStrategyAction: the same lookup as the code function, with the
      code resolved against the available actions; the final stand is the
      source's fallback when no table row is found. */
  function GetBasicStrategyAction(hand: HandState, dealerUpcard: Card, availableActions: seq<Action>): (a: Action)
    ensures a == Hit || a == Stand || a in availableActions
  {
    var cards := hand.cards;
    var dealerKey := GetDealerUpcardKey(dealerUpcard);
    var total := Totals(cards);
    if IsPair(cards) && PairKey(cards[0]) in Pairs then
      ResolveAction(Pairs[PairKey(cards[0])].At(dealerKey), availableActions)
    else if IsSoft(cards) && total.best in SoftTotals then
      ResolveAction(SoftTotals[total.best].At(dealerKey), availableActions)
    else
      var hardKey := if total.best < 5 then 5 else if total.best > 21 then 21 else total.best;
      if hardKey in HardTotals then ResolveAction(HardTotals[hardKey].At(dealerKey), availableActions)
      else Stand
  }

  /** The code lookup always finds a row (the trailing `null`/stand fallbacks
      are unreachable), and the action is exactly its code resolved. */
  lemma ActionIsResolvedCode(hand: HandState, dealerUpcard: Card, availableActions: seq<Action>)
    ensures GetBasicStrategyActionCode(hand, dealerUpcard).Some?
    ensures GetBasicStrategyAction(hand, dealerUpcard, availableActions) ==
            ResolveAction(GetBasicStrategyActionCode(hand, dealerUpcard).value, availableActions)
  {
    TablesAreComplete();
    var best := Totals(hand.cards).best;
    var hardKey := if best < 5 then 5 else if best > 21 then 21 else best;
    assert hardKey in HardTotals;
  }

  /** A soft hand that is not a pair is looked up in the soft table whenever
      its total has a row there; hands that are neither go to the hard table. */
  lemma SoftThenHard(hand: HandState, dealerUpcard: Card)
    requires !IsPair(hand.cards)
    ensures var best := Totals(hand.cards).best;
      var key := GetDealerUpcardKey(dealerUpcard);
      (IsSoft(hand.cards) && 13 <= best ==>
         GetBasicStrategyActionCode(hand, dealerUpcard) == Some(SoftTotals[best].At(key))) &&
      (!IsSoft(hand.cards) ==>
         GetBasicStrategyActionCode(hand, dealerUpcard) ==
           Some(HardTotals[if best < 5 then 5 else if best > 21 then 21 else best].At(key)))
  {
    TablesAreComplete();
    SoftIffAceAndLowHard(hand.cards);
  }

  /** Hard 16 (10,6) against a ten surrenders when surrender is offered and
      hits otherwise. */
  lemma Hard16Example(bet: real)
    ensures var h := CreateEmptyHand(bet).(cards := [Card(Hearts, Ten, true), Card(Spades, Six, true)]);
      GetBasicStrategyAction(h, Card(Clubs, King, true), [Hit, Stand, Double, Surrender]) == Surrender &&
      GetBasicStrategyAction(h, Card(Clubs, King, true), [Hit, Stand, Double]) == Hit
  {
    var hard16 := [Card(Hearts, Ten, true), Card(Spades, Six, true)];
    assert hard16[..1][..0] == [] && hard16[..2][..1] == hard16[..1] && hard16[..2] == hard16;
    assert HardSum(hard16[..1]) == 10;
    assert Totals(hard16).best == 16;
  }

  /** Soft 18 (A,7) against a 3 stands when doubling is not offered. */
  lemma Soft18Example(bet: real)
    ensures var h := CreateEmptyHand(bet).(cards := [Card(Hearts, Ace, true), Card(Spades, Seven, true)]);
      GetBasicStrategyAction(h, Card(Clubs, Three, true), [Hit, Stand]) == Stand
  {
    var soft18 := [Card(Hearts, Ace, true), Card(Spades, Seven, true)];
    assert soft18[..1][..0] == [] && soft18[..2][..1] == soft18[..1] && soft18[..2] == soft18;
    assert HardSum(soft18[..1]) == 1;
    assert Totals(soft18) == HandTotal(8, 18, 18);
  }
}
