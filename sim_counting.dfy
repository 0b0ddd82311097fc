/** The simulator's play strategies and the counting systems it keeps beside
    the engine's Hi-Lo count (COUNTING_SYSTEMS, getSimTrueCount and
    tallyCustomCount in src/engine/simulator.ts). */
module SimCounting {
  import opened Wrappers
  import opened Cards
  import opened Hands
  import opened Table
  import opened RoundEngine

  datatype PlayStrategy = Basic | HiLo | KO | HiOpt1 | HiOpt2 | Omega2 | Zen | Wonging | Mimic | NeverBust

  /** The systems tracked in parallel with the engine's count. */
  datatype CountSystem = KOCount | HiOpt1Count | HiOpt2Count | Omega2Count | ZenCount

  /** COUNTING_SYSTEMS: the strategies with a parallel count of their own;
      Hi-Lo, wonging and the strategies that do not count have none. */
  function CustomSystem(s: PlayStrategy): (c: Option<CountSystem>)
    ensures c.None? <==> s in {Basic, HiLo, Wonging, Mimic, NeverBust}
  {
    match s
    case KO => Some(KOCount)
    case HiOpt1 => Some(HiOpt1Count)
    case HiOpt2 => Some(HiOpt2Count)
    case Omega2 => Some(Omega2Count)
    case Zen => Some(ZenCount)
    case _ => None
  }

  /** USES_COUNTING: the strategies that consult a count for insurance. */
  predicate UsesCounting(s: PlayStrategy)
  {
    s in {HiLo, KO, HiOpt1, HiOpt2, Omega2, Zen, Wonging}
  }

  /** Only KO is unbalanced (its running count is used as it stands). */
  predicate Balanced(c: CountSystem)
  {
    c != KOCount
  }

  /** The tag a system gives each rank. */
  function TagValue(c: CountSystem, r: Rank): (v: int)
    ensures -2 <= v <= 2
  {
    match c
    case KOCount => KOTag(r)
    case HiOpt1Count => HiOpt1Tag(r)
    case HiOpt2Count => HiOpt2Tag(r)
    case Omega2Count => Omega2Tag(r)
    case ZenCount => ZenTag(r)
  }

  /** KO: 2-7 count +1, tens and aces -1. */
  function KOTag(r: Rank): int
  {
    match r
    case Two | Three | Four | Five | Six | Seven => 1
    case Eight | Nine => 0
    case _ => -1
  }

  /** Hi-Opt I: 3-6 count +1, tens -1; 2 and aces are neutral. */
  function HiOpt1Tag(r: Rank): int
  {
    match r
    case Three | Four | Five | Six => 1
    case Ten | Jack | Queen | King => -1
    case _ => 0
  }

  /** Hi-Opt II: 4 and 5 count +2, 2, 3, 6 and 7 +1, tens -2. */
  function HiOpt2Tag(r: Rank): int
  {
    match r
    case Two | Three | Six | Seven => 1
    case Four | Five => 2
    case Ten | Jack | Queen | King => -2
    case _ => 0
  }

  /** Omega II: 4-6 count +2, 2, 3 and 7 +1, 9 -1, tens -2. */
  function Omega2Tag(r: Rank): int
  {
    match r
    case Two | Three | Seven => 1
    case Four | Five | Six => 2
    case Nine => -1
    case Ten | Jack | Queen | King => -2
    case _ => 0
  }

  /** Zen: 4-6 count +2, 2, 3 and 7 +1, tens -2, aces -1. */
  function ZenTag(r: Rank): int
  {
    match r
    case Two | Three | Seven => 1
    case Four | Five | Six => 2
    case Ten | Jack | Queen | King => -2
    case Ace => -1
    case _ => 0
  }

  /** The tags of a run of cards, added up. */
  function TagSum(c: CountSystem, cards: seq<Card>): int
  {
    if cards == [] then 0 else TagSum(c, cards[..|cards| - 1]) + TagValue(c, cards[|cards| - 1].rank)
  }

  /** The tags of the first j ranks of a suit (2, 3, ..., K, A). */
  function SuitTag(c: CountSystem, j: nat): int
    requires j <= 13
  {
    if j == 0 then 0 else SuitTag(c, j - 1) + TagValue(c, RankAt(j - 1))
  }

  /** The j-th rank of a suit, read off without indexing the rank list. */
  function RankAt(j: int): (r: Rank)
    requires 0 <= j < 13
    ensures r == Ranks[j]
  {
    match j
    case 0 => Two case 1 => Three case 2 => Four case 3 => Five case 4 => Six
    case 5 => Seven case 6 => Eight case 7 => Nine case 8 => Ten case 9 => Jack
    case 10 => Queen case 11 => King case _ => Ace
  }

  lemma TagDeckStep(c: CountSystem, i: int, j: int)
    requires 0 <= i < 4 && 0 <= j < 13
    ensures TagSum(c, StandardDeck()[..13 * i + j + 1]) == TagSum(c, StandardDeck()[..13 * i + j]) + TagValue(c, RankAt(j))
  {
    var d, k := StandardDeck(), 13 * i + j;
    assert d[..k + 1][..k] == d[..k];
    assert k / 13 == i && k % 13 == j;
  }

  lemma SuitTagStep(c: CountSystem, j: int)
    requires 0 <= j < 13
    ensures SuitTag(c, j + 1) == SuitTag(c, j) + TagValue(c, RankAt(j))
  {
  }

  /** Each suit of the deck adds the tags of all thirteen ranks. */
  lemma SuitBlock(c: CountSystem, i: int)
    requires 0 <= i < 4
    ensures TagSum(c, StandardDeck()[..13 * i + 13]) == TagSum(c, StandardDeck()[..13 * i]) + SuitTag(c, 13)
  {
    var d := StandardDeck();
    for j := 0 to 13
      invariant TagSum(c, d[..13 * i + j]) == TagSum(c, d[..13 * i]) + SuitTag(c, j)
    {
      TagDeckStep(c, i, j);
      SuitTagStep(c, j);
    }
  }

  /** A whole deck tags to four times one suit. */
  lemma DeckTag(c: CountSystem)
    ensures TagSum(c, StandardDeck()) == 4 * SuitTag(c, 13)
  {
    var d := StandardDeck();
    assert d[..0] == [] && d[..52] == d;
    SuitBlock(c, 0);
    SuitBlock(c, 1);
    SuitBlock(c, 2);
    SuitBlock(c, 3);
  }

  /** One suit's tags, rank by rank. */
  lemma SuitTagUnfold(c: CountSystem)
    ensures SuitTag(c, 13) ==
      TagValue(c, Two) + TagValue(c, Three) + TagValue(c, Four) + TagValue(c, Five) + TagValue(c, Six) +
      TagValue(c, Seven) + TagValue(c, Eight) + TagValue(c, Nine) + TagValue(c, Ten) + TagValue(c, Jack) +
      TagValue(c, Queen) + TagValue(c, King) + TagValue(c, Ace)
  {
    assert SuitTag(c, 1) == TagValue(c, Two);
    assert SuitTag(c, 2) == SuitTag(c, 1) + TagValue(c, Three);
    assert SuitTag(c, 3) == SuitTag(c, 2) + TagValue(c, Four);
    assert SuitTag(c, 4) == SuitTag(c, 3) + TagValue(c, Five);
    assert SuitTag(c, 5) == SuitTag(c, 4) + TagValue(c, Six);
    assert SuitTag(c, 6) == SuitTag(c, 5) + TagValue(c, Seven);
    assert SuitTag(c, 7) == SuitTag(c, 6) + TagValue(c, Eight);
    assert SuitTag(c, 8) == SuitTag(c, 7) + TagValue(c, Nine);
    assert SuitTag(c, 9) == SuitTag(c, 8) + TagValue(c, Ten);
    assert SuitTag(c, 10) == SuitTag(c, 9) + TagValue(c, Jack);
    assert SuitTag(c, 11) == SuitTag(c, 10) + TagValue(c, Queen);
    assert SuitTag(c, 12) == SuitTag(c, 11) + TagValue(c, King);
  }

  /** The `balanced` flag is right: a balanced system's tags cancel out over
      a full deck, while KO's add up to +4 per deck. */
  lemma BalancedSystemsNetZero(c: CountSystem)
    ensures Balanced(c) <==> TagSum(c, StandardDeck()) == 0
    ensures c == KOCount ==> TagSum(c, StandardDeck()) == 4
  {
    DeckTag(c);
    SystemSuitTag(c);
  }

  /** One suit: KO's tags add up to +1, every other system's to 0. */
  lemma SystemSuitTag(c: CountSystem)
    ensures SuitTag(c, 13) == if c == KOCount then 1 else 0
  {
    match c {
      case KOCount => KOSuit();
      case HiOpt1Count => HiOpt1Suit();
      case HiOpt2Count => HiOpt2Suit();
      case Omega2Count => Omega2Suit();
      case ZenCount => ZenSuit();
    }
  }

  /** The unit-per-suit sum of each system, one system at a time. */
  lemma KOSuit()
    ensures SuitTag(KOCount, 13) == 1
  {
    SuitTagUnfold(KOCount);
  }

  lemma HiOpt1Suit()
    ensures SuitTag(HiOpt1Count, 13) == 0
  {
    SuitTagUnfold(HiOpt1Count);
  }

  lemma HiOpt2Suit()
    ensures SuitTag(HiOpt2Count, 13) == 0
  {
    SuitTagUnfold(HiOpt2Count);
  }

  lemma Omega2Suit()
    ensures SuitTag(Omega2Count, 13) == 0
  {
    SuitTagUnfold(Omega2Count);
  }

  lemma ZenSuit()
    ensures SuitTag(ZenCount, 13) == 0
  {
    SuitTagUnfold(ZenCount);
  }

  // ------------------------------------------------------------ tallying the table

  /** The tags of every card in a run of hands. */
  function HandsTag(c: CountSystem, hands: seq<HandState>): int
  {
    if hands == [] then 0 else HandsTag(c, hands[..|hands| - 1]) + TagSum(c, hands[|hands| - 1].cards)
  }

  /** The tags of every card in front of a run of seats. */
  function SeatsTag(c: CountSystem, players: seq<Player>): int
  {
    if players == [] then 0 else SeatsTag(c, players[..|players| - 1]) + HandsTag(c, players[|players| - 1].hands)
  }

  lemma TagSumStep(c: CountSystem, cards: seq<Card>, k: int)
    requires 0 <= k < |cards|
    ensures TagSum(c, cards[..k + 1]) == TagSum(c, cards[..k]) + TagValue(c, cards[k].rank)
  {
    assert cards[..k + 1][..k] == cards[..k];
  }

  /** tallyCustomCount: the tags of every card on the table, the seats' hands
      first and then the dealer's, face up or not. */
  method TallyCustomCount(engine: GameEngine, c: CountSystem) returns (count: int)
    ensures count == SeatsTag(c, engine.players) + TagSum(c, engine.dealerHand.cards)
  {
    var players := engine.players;
    count := 0;
    for pi := 0 to |players|
      invariant count == SeatsTag(c, players[..pi])
    {
      var hands := players[pi].hands;
      for hi := 0 to |hands|
        invariant count == SeatsTag(c, players[..pi]) + HandsTag(c, hands[..hi])
      {
        var cards := hands[hi].cards;
        for ci := 0 to |cards|
          invariant count == SeatsTag(c, players[..pi]) + HandsTag(c, hands[..hi]) + TagSum(c, cards[..ci])
        {
          count := count + TagValue(c, cards[ci].rank);
          TagSumStep(c, cards, ci);
        }
        assert cards[..|cards|] == cards;
        assert hands[..hi + 1][..hi] == hands[..hi];
      }
      assert hands[..|hands|] == hands;
      assert players[..pi + 1][..pi] == players[..pi];
    }
    assert players[..|players|] == players;
    var dealerCards := engine.dealerHand.cards;
    for ci := 0 to |dealerCards|
      invariant count == SeatsTag(c, players) + TagSum(c, dealerCards[..ci])
    {
      count := count + TagValue(c, dealerCards[ci].rank);
      TagSumStep(c, dealerCards, ci);
    }
    assert dealerCards[..|dealerCards|] == dealerCards;
  }

  // ------------------------------------------------------------ the true count

  /** getSimTrueCount: Hi-Lo and the strategies without a count of their own
      read the engine's true count; KO uses its running count as it stands;
      a balanced system divides its running count by the decks left (the
      undealt cards over 52), or gives 0 once a quarter deck or less is left. */
  function SimTrueCount(strategy: PlayStrategy, engine: GameEngine, customRunningCount: int): (tc: real)
    reads engine, engine.shoe
    ensures CustomSystem(strategy).None? ==> tc == engine.shoe.TrueCount()
    ensures CustomSystem(strategy) == Some(KOCount) ==> tc == customRunningCount as real
    ensures CustomSystem(strategy).Some? && Balanced(CustomSystem(strategy).value) ==>
      (|engine.shoe.cards| > 13 ==> tc * |engine.shoe.cards| as real == customRunningCount as real * 52.0) &&
      (|engine.shoe.cards| <= 13 ==> tc == 0.0)
  {
    match CustomSystem(strategy)
    case None => engine.shoe.TrueCount()
    case Some(system) =>
      if !Balanced(system) then customRunningCount as real
      else
        var decksRemaining := |engine.shoe.cards| as real / 52.0;
        if decksRemaining > 0.25 then customRunningCount as real / decksRemaining else 0.0
  }
}
