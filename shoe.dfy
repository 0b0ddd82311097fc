/** The multi-deck shoe (src/engine/shoe.ts): the undealt cards, the cards
    dealt since the last shuffle, and the Hi-Lo running count. */
module ShoeTracker {
  import opened Cards
  import opened Numeric

  /** `n` standard decks in creation order. */
  function FullShoe(n: nat): (s: seq<Card>)
    ensures |s| == 52 * n
  {
    if n == 0 then [] else FullShoe(n - 1) + StandardDeck()
  }

  /** Every card of a fresh shoe is face up, and a shoe of `n` decks holds
      each (suit, rank) pair exactly `n` times. */
  lemma {:induction false} FullShoeContents(n: nat, c: Card)
    ensures c in FullShoe(n) ==> c.faceUp
    ensures multiset(FullShoe(n))[c] == if c.faceUp then n else 0
  {
    if n > 0 {
      FullShoeContents(n - 1, c);
      var d := StandardDeck();
      if c.faceUp {
        DeckHasEveryCard(c.suit, c.rank);
        var k := 13 * SuitIndex(c.suit) + RankIndex(c.rank);
        assert d[k] == c;
        assert multiset(d)[c] == 1 by {
          forall i | 0 <= i < 52 && d[i] == c ensures i == k {
            DeckIndex(i);
          }
          SingleOccurrence(d, k);
        }
      } else {
        assert c !in d;
      }
    }
  }

  /** A value that occurs at exactly one index occurs once in the multiset. */
  lemma {:induction false} SingleOccurrence(s: seq<Card>, k: nat)
    requires k < |s|
    requires forall i :: 0 <= i < |s| && s[i] == s[k] ==> i == k
    ensures multiset(s)[s[k]] == 1
  {
    var c := s[k];
    assert s == s[..k] + [c] + s[k + 1..];
    assert c !in s[..k];
    assert c !in s[k + 1..] by {
      forall i | k < i < |s| ensures s[i] != c { }
    }
  }

  /** Exchanging two positions permutes a sequence. */
  lemma SwapKeepsMultiset(s: seq<Card>, i: nat, j: nat)
    requires i < |s| && j < |s|
    ensures multiset(s[i := s[j]][j := s[i]]) == multiset(s)
  {
  }

  /** Any arrangement of a fresh shoe has only face-up cards. */
  lemma ShuffledCardsFaceUp(s: seq<Card>, n: nat)
    requires multiset(s) == multiset(FullShoe(n))
    ensures forall k :: 0 <= k < |s| ==> s[k].faceUp
  {
    forall k | 0 <= k < |s| ensures s[k].faceUp {
      assert s[k] in multiset(FullShoe(n));
      FullShoeContents(n, s[k]);
    }
  }

  /** Comparing a quotient by a positive number with a bound is comparing the
      dividend with the bound times that number. */
  lemma QuotientAtLeast(d: real, t: real, p: real)
    requires t > 0.0
    ensures d / t >= p <==> d >= p * t
  {
    var q := d / t;
    assert q * t == d;
    if q >= p {
      assert (q - p) * t >= 0.0;
    } else {
      assert (p - q) * t > 0.0;
    }
  }

  /** Taking the last undealt card onto the dealt log keeps the shoe whole,
      leaves only face-up cards behind and adds the card's Hi-Lo value. */
  lemma TakeLastCard(cards: seq<Card>, dealt: seq<Card>, n: nat)
    requires |cards| > 0 && multiset(cards) + multiset(dealt) == multiset(FullShoe(n))
    requires forall k :: 0 <= k < |cards| ==> cards[k].faceUp
    ensures var c := cards[|cards| - 1]; var rest := cards[..|cards| - 1];
      c.faceUp && multiset(rest) + multiset(dealt + [c]) == multiset(FullShoe(n)) &&
      (forall k :: 0 <= k < |rest| ==> rest[k].faceUp) &&
      HiLoSum(dealt + [c]) == HiLoSum(dealt) + HiLoValue(c)
  {
    var c := cards[|cards| - 1];
    assert cards == cards[..|cards| - 1] + [c];
    assert (dealt + [c])[..|dealt|] == dealt;
  }

  class Shoe {
    var cards: seq<Card>
    var dealtCards: seq<Card>
    var runningCount: int
    const numberOfDecks: nat
    const penetration: real
    /** The cards counted a second time through `UpdateCountForReveal`. */
    ghost var revealed: seq<Card>

    /** The undealt and dealt cards together are exactly the shoe's decks,
        every undealt card is face up, and the running count is the Hi-Lo sum
        of the dealt cards plus that of the revealed ones. */
    ghost predicate Valid()
      reads this
    {
      numberOfDecks >= 1 &&
      |cards| + |dealtCards| == 52 * numberOfDecks &&
      multiset(cards) + multiset(dealtCards) == multiset(FullShoe(numberOfDecks)) &&
      (forall k :: 0 <= k < |cards| ==> cards[k].faceUp) &&
      runningCount == HiLoSum(dealtCards) + HiLoSum(revealed)
    }

    constructor (numberOfDecks: nat, penetration: real)
      requires numberOfDecks >= 1
      ensures Valid()
      ensures this.numberOfDecks == numberOfDecks && this.penetration == penetration
      ensures |cards| == 52 * numberOfDecks && dealtCards == [] && runningCount == 0
    {
      this.numberOfDecks := numberOfDecks;
      this.penetration := penetration;
      new;
      Shuffle();
    }

    /** shuffle: rebuild the decks, Fisher-Yates them in place, and clear the
        dealt log and the count. */
    method Shuffle()
      requires numberOfDecks >= 1
      modifies this
      ensures Valid()
      ensures multiset(cards) == multiset(FullShoe(numberOfDecks))
      ensures dealtCards == [] && runningCount == 0 && revealed == []
    {
      cards := [];
      for i := 0 to numberOfDecks
        invariant cards == FullShoe(i)
      {
        var deck := CreateDeck();
        cards := cards + deck;
      }
      var i := |cards| - 1;
      while i > 0
        invariant -1 <= i < |cards| == 52 * numberOfDecks
        invariant multiset(cards) == multiset(FullShoe(numberOfDecks))
      {
        var j :| 0 <= j <= i;
        SwapKeepsMultiset(cards, i, j);
        cards := cards[i := cards[j]][j := cards[i]];
        i := i - 1;
      }
      dealtCards := [];
      runningCount := 0;
      revealed := [];
      ShuffledCardsFaceUp(cards, numberOfDecks);
    }

    /** deal: reshuffle an empty shoe, take the last card, log it and count
        it (every card in the shoe is face up, so every card is counted). */
    method Deal() returns (card: Card)
      requires Valid()
      modifies this
      ensures Valid()
      ensures card.faceUp
      ensures |dealtCards| > 0 && dealtCards[|dealtCards| - 1] == card
      ensures old(|cards|) > 0 ==>
        card == old(cards[|cards| - 1]) && cards == old(cards[..|cards| - 1]) &&
        dealtCards == old(dealtCards) + [card] && revealed == old(revealed) &&
        runningCount == old(runningCount) + HiLoValue(card)
      ensures old(|cards|) == 0 ==>
        dealtCards == [card] && revealed == [] && runningCount == HiLoValue(card) &&
        multiset(cards + [card]) == multiset(FullShoe(numberOfDecks))
    {
      if |cards| == 0 {
        Shuffle();
      }
      card := TakeCard();
    }

    /** deal once the shoe holds cards: pop the last card, log it and count
        it when it is face up. */
    method TakeCard() returns (card: Card)
      requires Valid() && |cards| > 0
      modifies this`cards, this`dealtCards, this`runningCount
      ensures Valid() && card.faceUp
      ensures old(cards) == cards + [card] && dealtCards == old(dealtCards) + [card]
      ensures runningCount == old(runningCount) + HiLoValue(card)
    {
      TakeLastCard(cards, dealtCards, numberOfDecks);
      card := cards[|cards| - 1];
      cards := cards[..|cards| - 1];
      dealtCards := dealtCards + [card];
      if card.faceUp {
        runningCount := runningCount + HiLoValue(card);
      }
    }

    /** updateCountForReveal: count a card again, whether or not it was
        counted when dealt. */
    method UpdateCountForReveal(card: Card)
      requires Valid()
      modifies this`runningCount, this`revealed
      ensures Valid()
      ensures runningCount == old(runningCount) + HiLoValue(card)
      ensures revealed == old(revealed) + [card]
    {
      runningCount := runningCount + HiLoValue(card);
      revealed := revealed + [card];
      assert revealed[..|revealed| - 1] == old(revealed);
    }

    /** The cards dealt and the cards left always add up to the whole shoe. */
    function CardsDealt(): (n: nat)
      reads this
      requires Valid()
      ensures n + CardsRemaining() == TotalCards()
    {
      |dealtCards|
    }

    function CardsRemaining(): nat
      reads this
    {
      |cards|
    }

    function TotalCards(): (n: nat)
      reads this
      ensures n >= 52 || numberOfDecks == 0
    {
      numberOfDecks * 52
    }

    /** decksRemaining: the undealt cards in decks, never less than half a deck. */
    function DecksRemaining(): (d: real)
      reads this
      ensures d >= 0.5
      ensures |cards| >= 26 ==> d * 52.0 == |cards| as real
      ensures |cards| < 26 ==> d == 0.5
    {
      MaxR(|cards| as real / 52.0, 0.5)
    }

    /** trueCount: the running count per remaining deck, to one decimal. */
    function TrueCount(): (tc: real)
      reads this
      ensures -0.05 < tc - runningCount as real / DecksRemaining() <= 0.05
    {
      Round1(runningCount as real / DecksRemaining())
    }

    /** needsReshuffle: the dealt fraction of the shoe has reached the penetration. */
    predicate NeedsReshuffle()
      reads this
      requires Valid()
    {
      |dealtCards| as real / TotalCards() as real >= penetration
    }

    /** Reshuffle is due exactly when the dealt cards reach the penetration
        share of the shoe. */
    lemma NeedsReshuffleIffPenetration()
      requires Valid()
      ensures NeedsReshuffle() <==> |dealtCards| as real >= penetration * TotalCards() as real
    {
      QuotientAtLeast(|dealtCards| as real, TotalCards() as real, penetration);
    }
  }

  /** The true count keeps the sign of the running count. */
  lemma TrueCountSign(shoe: Shoe)
    ensures shoe.runningCount >= 0 ==> shoe.TrueCount() >= 0.0
    ensures shoe.runningCount <= 0 ==> shoe.TrueCount() <= 0.0
  {
    var x := shoe.runningCount as real / shoe.DecksRemaining();
    RoundSign(x * 10.0);
  }

  /** Rounding half up keeps the sign of its argument. */
  lemma RoundSign(x: real)
    ensures x >= 0.0 ==> Round(x) >= 0
    ensures x <= 0.0 ==> Round(x) <= 0
  {
  }

  /** A fresh one-deck shoe at 50% penetration is due for a reshuffle after
      26 cards have been dealt, and not before. */
  lemma HalfShoeReshuffle(shoe: Shoe)
    requires shoe.Valid() && shoe.numberOfDecks == 1 && shoe.penetration == 0.5
    ensures shoe.NeedsReshuffle() <==> |shoe.dealtCards| >= 26
  {
    shoe.NeedsReshuffleIffPenetration();
  }
}
