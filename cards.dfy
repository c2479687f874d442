/** Card values, the six-deck shoe and hand valuation of the blackjack game
    (`create_deck` and `calculate_hand_value` of `BlackjackGame`). */
module Cards {

  /** A card is its blackjack value: ace 1, two to nine at face value, ten and faces 10. */
  type Card = c: int | 1 <= c <= 10 witness 1

  const Ace: Card := 1

  /** One suit, in the order `create_deck` lists it: ace to nine, then ten, jack, queen, king. */
  const SuitValues: seq<Card> := [1, 2, 3, 4, 5, 6, 7, 8, 9, 10, 10, 10, 10]

  const Decks := 6
  const SuitsPerDeck := 4
  const ShoeSize := 312

  function Repeat(row: seq<Card>, n: nat): seq<Card> {
    if n == 0 then [] else Repeat(row, n - 1) + row
  }

  /** The shoe `create_deck` builds before shuffling it. */
  function StandardShoe(): seq<Card> {
    Repeat(SuitValues, Decks * SuitsPerDeck)
  }

  /** How many cards of value `v` the shoe holds. */
  function CopiesInShoe(v: Card): nat {
    if v == 10 then 96 else 24
  }

  /** A shuffled shoe: 312 cards, 24 of each value from ace to nine and 96 worth ten. */
  predicate IsShoe(s: seq<Card>) {
    |s| == ShoeSize && forall v: Card :: multiset(s)[v] == CopiesInShoe(v)
  }

  lemma {:induction false} RepeatComposition(row: seq<Card>, n: nat, v: Card)
    ensures |Repeat(row, n)| == n * |row|
    ensures multiset(Repeat(row, n))[v] == n * multiset(row)[v]
  {
    if n > 0 {
      var k := multiset(row)[v];
      RepeatComposition(row, n - 1, v);
      assert multiset(Repeat(row, n)) == multiset(Repeat(row, n - 1)) + multiset(row);
      calc {
        multiset(Repeat(row, n))[v];
        multiset(Repeat(row, n - 1))[v] + k;
        (n - 1) * k + k;
        n * k;
      }
      calc {
        |Repeat(row, n)|;
        (n - 1) * |row| + |row|;
        n * |row|;
      }
    }
  }

  /** One suit holds one card of each value from ace to nine and four worth ten. */
  lemma SuitCount(v: Card)
    ensures multiset(SuitValues)[v] == if v == 10 then 4 else 1
  {
    var m := multiset(SuitValues);
    assert m == multiset{1, 2, 3, 4, 5, 6, 7, 8, 9, 10, 10, 10, 10};
    if v == 1 { assert m[1] == 1; }
    else if v == 2 { assert m[2] == 1; }
    else if v == 3 { assert m[3] == 1; }
    else if v == 4 { assert m[4] == 1; }
    else if v == 5 { assert m[5] == 1; }
    else if v == 6 { assert m[6] == 1; }
    else if v == 7 { assert m[7] == 1; }
    else if v == 8 { assert m[8] == 1; }
    else if v == 9 { assert m[9] == 1; }
    else { assert m[10] == 4; }
  }

  /** The shoe has 312 cards. */
  lemma ShoeLength()
    ensures |StandardShoe()| == ShoeSize
  {
    RepeatComposition(SuitValues, Decks * SuitsPerDeck, Ace);
  }

  lemma ShoeCount(v: Card)
    ensures multiset(StandardShoe())[v] == CopiesInShoe(v)
  {
    RepeatComposition(SuitValues, Decks * SuitsPerDeck, v);
    SuitCount(v);
  }

  /** The shuffled shoes are exactly the orderings of the shoe `create_deck` builds. */
  lemma ShoesArePermutations(s: seq<Card>)
    ensures IsShoe(s) <==> multiset(s) == multiset(StandardShoe())
  {
    forall v: Card {
      ShoeCount(v);
    }
    ShoeLength();
    if IsShoe(s) {
      assert forall v: Card :: multiset(s)[v] == multiset(StandardShoe())[v];
    }
    if multiset(s) == multiset(StandardShoe()) {
      assert |s| == |multiset(s)| == |multiset(StandardShoe())| == |StandardShoe()|;
    }
  }

  /** `create_deck` without its shuffle: six decks of four suits, one suit row at a time. */
  method CreateDeck() returns (deck: seq<Card>)
    ensures deck == StandardShoe()
  {
    deck := [];
    for d := 0 to Decks
      invariant deck == Repeat(SuitValues, d * SuitsPerDeck)
    {
      for s := 0 to SuitsPerDeck
        invariant deck == Repeat(SuitValues, d * SuitsPerDeck + s)
      {
        deck := deck + SuitValues;
      }
    }
  }

  // ---------------------------------------------------------------------------
  // Hand value

  /** `sum(hand)`. */
  function Sum(hand: seq<Card>): int
    decreases |hand|
  {
    if hand == [] then 0 else Sum(hand[..|hand| - 1]) + hand[|hand| - 1]
  }

  /** `hand.count(1)`. */
  function Aces(hand: seq<Card>): nat
    decreases |hand|
  {
    if hand == [] then 0 else Aces(hand[..|hand| - 1]) + (if hand[|hand| - 1] == Ace then 1 else 0)
  }

  lemma SumAppend(hand: seq<Card>, c: Card)
    ensures Sum(hand + [c]) == Sum(hand) + c
    ensures Aces(hand + [c]) == Aces(hand) + if c == Ace then 1 else 0
  {
    assert (hand + [c])[..|hand|] == hand;
  }

  /** Every card is worth at least one, so a hand's sum is at least its number of cards
      and at least its number of aces. */
  lemma {:induction false} SumBounds(hand: seq<Card>)
    ensures Aces(hand) <= |hand| <= Sum(hand)
    decreases |hand|
  {
    if hand != [] {
      var init := hand[..|hand| - 1];
      assert hand == init + [hand[|hand| - 1]];
      SumBounds(init);
    }
  }

  /** The closed form of `calculate_hand_value`: an ace is counted as eleven exactly when
      the hand holds one and the plain sum is at most eleven. */
  function HandValue(hand: seq<Card>): int {
    if Aces(hand) > 0 && Sum(hand) <= 11 then Sum(hand) + 10 else Sum(hand)
  }

  /** The total of the hand when `converted` of its aces count eleven. */
  function SoftTotal(hand: seq<Card>, converted: nat): int {
    Sum(hand) + 10 * converted
  }

  /** The hand value is the best total: it counts some of the hand's aces as eleven, no total
      counting more aces stays at or below 21 and exceeds it, and only a hand with every ace
      counted as one can be over 21. */
  lemma HandValueIsBestTotal(hand: seq<Card>)
    ensures exists j :: 0 <= j <= Aces(hand) && HandValue(hand) == SoftTotal(hand, j)
    ensures forall j :: 0 <= j <= Aces(hand) && SoftTotal(hand, j) <= 21 ==> SoftTotal(hand, j) <= HandValue(hand)
    ensures HandValue(hand) > 21 ==> HandValue(hand) == Sum(hand)
    ensures Sum(hand) <= HandValue(hand) <= Sum(hand) + 10
  {
    SumBounds(hand);
    if Aces(hand) > 0 && Sum(hand) <= 11 {
      assert HandValue(hand) == SoftTotal(hand, 1);
    } else {
      assert HandValue(hand) == SoftTotal(hand, 0);
    }
  }

  lemma HandValueExamples()
    ensures HandValue([1, 10]) == 21
    ensures HandValue([1, 1, 9]) == 21
    ensures HandValue([10, 10, 2]) == 22
  {
    var h1: seq<Card>, h2: seq<Card>, h3: seq<Card> := [1, 10], [1, 1, 9], [10, 10, 2];
    var a1: seq<Card>, a2: seq<Card>, t1: seq<Card>, t2: seq<Card> := [1], [1, 1], [10], [10, 10];
    assert a1[..0] == [] && Aces(a1) == 1 && Sum(a1) == 1;
    assert a2[..1] == a1 && Aces(a2) == 2 && Sum(a2) == 2;
    assert h1[..1] == a1 && Aces(h1) == 1 && Sum(h1) == 11;
    assert h2[..2] == a2 && Aces(h2) == 2 && Sum(h2) == 11;
    assert t1[..0] == [] && Sum(t1) == 10 && Aces(t1) == 0;
    assert t2[..1] == t1 && Sum(t2) == 20 && Aces(t2) == 0;
    assert h3[..2] == t2 && Aces(h3) == 0 && Sum(h3) == 22;
  }

  /** Two cards are worth 21 exactly when they are an ace and a ten-valued card. */
  lemma TwoCardTwentyOne(a: Card, b: Card)
    ensures HandValue([a, b]) == 21 <==> (a == Ace && b == 10) || (a == 10 && b == Ace)
  {
    var hand: seq<Card> := [a, b];
    var first: seq<Card> := [a];
    assert hand[..1] == first && first[..0] == [];
    assert Sum(first) == a && Aces(first) == if a == Ace then 1 else 0;
    assert Sum(hand) == a + b;
  }

  /** `calculate_hand_value`: start from the plain sum and count aces as eleven one at a time
      while the total is at most eleven. */
  method CalculateHandValue(hand: seq<Card>) returns (value: int)
    ensures value == HandValue(hand)
  {
    value := Sum(hand);
    var aces := Aces(hand);
    SumBounds(hand);
    while aces > 0 && value <= 11
      invariant value == Sum(hand) ==> aces == Aces(hand)
      invariant value == Sum(hand) + 10 ==> aces + 1 == Aces(hand) && Sum(hand) <= 11
      invariant value == Sum(hand) || value == Sum(hand) + 10
    {
      value := value + 10;
      aces := aces - 1;
    }
  }
}
