/** Cards, the standard 52-card deck, blackjack card values and the Hi-Lo count
    (src/engine/card.ts). */
module Cards {

  datatype Suit = Hearts | Diamonds | Clubs | Spades
  datatype Rank = Two | Three | Four | Five | Six | Seven | Eight | Nine | Ten | Jack | Queen | King | Ace

  /** A card; `faceUp` is the only part that ever changes (a dealer hole card). */
  datatype Card = Card(suit: Suit, rank: Rank, faceUp: bool)

  const Suits: seq<Suit> := [Hearts, Diamonds, Clubs, Spades]
  const Ranks: seq<Rank> := [Two, Three, Four, Five, Six, Seven, Eight, Nine, Ten, Jack, Queen, King, Ace]

  function SuitIndex(s: Suit): (i: nat)
    ensures i < 4 && Suits[i] == s
  {
    match s
    case Hearts => 0
    case Diamonds => 1
    case Clubs => 2
    case Spades => 3
  }

  function RankIndex(r: Rank): (i: nat)
    ensures i < 13 && Ranks[i] == r
  {
    match r
    case Two => 0 case Three => 1 case Four => 2 case Five => 3 case Six => 4
    case Seven => 5 case Eight => 6 case Nine => 7 case Ten => 8 case Jack => 9
    case Queen => 10 case King => 11 case Ace => 12
  }

  predicate IsFaceOrTen(r: Rank) {
    r == Ten || r == Jack || r == Queen || r == King
  }

  /** The numeric rank of a pip card, as `parseInt` reads it. */
  function PipNumber(r: Rank): (n: int)
    requires r != Ace && !IsFaceOrTen(r)
    ensures n == RankIndex(r) + 2 && 2 <= n <= 9
  {
    match r
    case Two => 2 case Three => 3 case Four => 4 case Five => 5
    case Six => 6 case Seven => 7 case Eight => 8 case Nine => 9
  }

  /** The whole deck as a value: suit-major, ranks in `Ranks` order, all face up. */
  function StandardDeck(): (d: seq<Card>)
    ensures |d| == 52
  {
    seq(52, k requires 0 <= k < 52 => Card(Suits[k / 13], Ranks[k % 13], true))
  }

  /** createDeck: two nested loops pushing one face-up card per (suit, rank). */
  method CreateDeck() returns (deck: seq<Card>)
    ensures |deck| == 52
    ensures forall i, j :: 0 <= i < 4 && 0 <= j < 13 ==> deck[13 * i + j] == Card(Suits[i], Ranks[j], true)
    ensures deck == StandardDeck()
  {
    deck := [];
    for i := 0 to 4
      invariant |deck| == 13 * i
      invariant forall k :: 0 <= k < |deck| ==> deck[k] == Card(Suits[k / 13], Ranks[k % 13], true)
    {
      for j := 0 to 13
        invariant |deck| == 13 * i + j
        invariant forall k :: 0 <= k < |deck| ==> deck[k] == Card(Suits[k / 13], Ranks[k % 13], true)
      {
        deck := deck + [Card(Suits[i], Ranks[j], true)];
      }
    }
    forall i, j | 0 <= i < 4 && 0 <= j < 13
      ensures deck[13 * i + j] == Card(Suits[i], Ranks[j], true)
    {
      assert (13 * i + j) / 13 == i && (13 * i + j) % 13 == j;
    }
  }

  /** Every (suit, rank) pair appears in the deck, at index 13 * suit + rank. */
  lemma {:induction false} DeckHasEveryCard(s: Suit, r: Rank)
    ensures StandardDeck()[13 * SuitIndex(s) + RankIndex(r)] == Card(s, r, true)
  {
    var i, j := SuitIndex(s), RankIndex(r);
    assert (13 * i + j) / 13 == i && (13 * i + j) % 13 == j;
  }

  /** Where a card of the deck sits: its index is 13 * suit + rank. */
  lemma DeckIndex(k: int)
    requires 0 <= k < 52
    ensures k == 13 * SuitIndex(StandardDeck()[k].suit) + RankIndex(StandardDeck()[k].rank)
  {
    var d := StandardDeck();
    assert SuitIndex(d[k].suit) == k / 13 by {
      assert Suits[SuitIndex(d[k].suit)] == Suits[k / 13];
    }
    assert RankIndex(d[k].rank) == k % 13 by {
      assert Ranks[RankIndex(d[k].rank)] == Ranks[k % 13];
    }
  }

  /** No (suit, rank) pair appears twice, and every card of the deck is face up. */
  lemma {:induction false} DeckHasNoDuplicates(i: int, j: int)
    requires 0 <= i < j < 52
    ensures StandardDeck()[i].faceUp
    ensures StandardDeck()[i].suit != StandardDeck()[j].suit || StandardDeck()[i].rank != StandardDeck()[j].rank
  {
    DeckIndex(i);
    DeckIndex(j);
  }

  /** cardValue: the values a card may count for; an ace is the only card with two. */
  function CardValue(c: Card): (v: seq<int>)
    ensures c.rank == Ace <==> |v| == 2
    ensures c.rank == Ace ==> v == [11, 1]
    ensures c.rank != Ace ==> |v| == 1 && 2 <= v[0] <= 10
    ensures IsFaceOrTen(c.rank) <==> v == [10]
    ensures c.rank != Ace && !IsFaceOrTen(c.rank) ==> v == [RankIndex(c.rank) + 2] && 2 <= v[0] <= 9
  {
    if c.rank == Ace then [11, 1]
    else if IsFaceOrTen(c.rank) then [10]
    else [PipNumber(c.rank)]
  }

  /** hiLoValue: +1 for 2-6, 0 for 7-9, -1 for tens and aces. */
  function HiLoValue(c: Card): (h: int)
    ensures -1 <= h <= 1
  {
    match c.rank
    case Two | Three | Four | Five | Six => 1
    case Seven | Eight | Nine => 0
    case _ => -1
  }

  /** The Hi-Lo tag restated through the card's first blackjack value:
      low cards (2-6) add one, high cards (ten-valued or ace) take one away. */
  lemma HiLoByValue(c: Card)
    ensures HiLoValue(c) == 1 <==> 2 <= CardValue(c)[0] <= 6
    ensures HiLoValue(c) == 0 <==> 7 <= CardValue(c)[0] <= 9
    ensures HiLoValue(c) == -1 <==> CardValue(c)[0] >= 10
  {
  }

  function HiLoSum(cards: seq<Card>): (s: int)
    ensures -|cards| <= s <= |cards|
  {
    if cards == [] then 0 else HiLoSum(cards[..|cards| - 1]) + HiLoValue(cards[|cards| - 1])
  }

  lemma {:induction false} HiLoSumAppend(a: seq<Card>, b: seq<Card>)
    ensures HiLoSum(a + b) == HiLoSum(a) + HiLoSum(b)
  {
    if b == [] {
      assert a + b == a;
    } else {
      assert (a + b)[..|a + b| - 1] == a + b[..|b| - 1];
      HiLoSumAppend(a, b[..|b| - 1]);
    }
  }

  /** The running Hi-Lo tag of the first j ranks of a suit (2, 3, ..., K, A). */
  function RankPrefixTag(j: int): int
    requires 0 <= j <= 13
  {
    if j <= 5 then j else if j <= 8 then 5 else 13 - j
  }

  lemma RankTag(c: Card, m: int)
    requires 0 <= m < 13 && c.rank == Ranks[m]
    ensures HiLoValue(c) == RankPrefixTag(m + 1) - RankPrefixTag(m)
  {
  }

  lemma DeckStep(i: int, j: int)
    requires 0 <= i < 4 && 0 <= j < 13
    ensures HiLoSum(StandardDeck()[..13 * i + j + 1])
         == HiLoSum(StandardDeck()[..13 * i + j]) + RankPrefixTag(j + 1) - RankPrefixTag(j)
  {
    var d, k := StandardDeck(), 13 * i + j;
    assert d[..k + 1][..k] == d[..k];
    assert d[k].rank == Ranks[j] by {
      assert k / 13 == i && k % 13 == j;
    }
    RankTag(d[k], j);
  }

  /** The Hi-Lo count is balanced: a whole deck sums to zero. */
  lemma {:induction false} StandardDeckIsBalanced()
    ensures HiLoSum(StandardDeck()) == 0
  {
    var d := StandardDeck();
    for i := 0 to 4
      invariant HiLoSum(d[..13 * i]) == 0
    {
      for j := 0 to 13
        invariant HiLoSum(d[..13 * i + j]) == RankPrefixTag(j)
      {
        DeckStep(i, j);
      }
    }
    assert d[..52] == d;
  }
}
