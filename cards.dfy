/** Cards of a multi-deck blackjack shoe: ranks, suits, count values and the
    ordered card list a fresh shoe is built from. */
module Cards {

  datatype Suit = Spades | Hearts | Diamonds | Clubs

  datatype Rank = Ace | Two | Three | Four | Five | Six | Seven | Eight | Nine | Ten | Jack | Queen | King

  /** A card is a plain value; duplicates across decks are equal. Its count
      value is always the value of its rank, so it is derived, not stored. */
  datatype Card = Card(rank: Rank, suit: Suit) {
    function Value(): int {
      RankValue(rank)
    }
  }

  /** The suits and ranks in the order a deck is laid out. */
  const Suits: seq<Suit> := [Spades, Hearts, Diamonds, Clubs]
  const Ranks: seq<Rank> := [Ace, Two, Three, Four, Five, Six, Seven, Eight, Nine, Ten, Jack, Queen, King]

  /** The text label of a rank, as printed on the card. */
  function Label(r: Rank): string {
    match r
    case Ace => "A"
    case Two => "2"
    case Three => "3"
    case Four => "4"
    case Five => "5"
    case Six => "6"
    case Seven => "7"
    case Eight => "8"
    case Nine => "9"
    case Ten => "10"
    case Jack => "J"
    case Queen => "Q"
    case King => "K"
  }

  predicate IsNumeral(r: Rank) {
    r != Ace && r != Jack && r != Queen && r != King
  }

  predicate IsDigit(ch: char) {
    '0' <= ch <= '9'
  }

  /** The decimal number a string of digits denotes. */
  function Decimal(s: string): int
    requires forall k :: 0 <= k < |s| ==> IsDigit(s[k])
  {
    if s == [] then 0 else 10 * Decimal(s[..|s| - 1]) + (s[|s| - 1] as int - '0' as int)
  }

  /** Count value of a rank: an ace counts 1, a face card 10, a numeral its number. */
  function RankValue(r: Rank): (v: int)
    ensures 1 <= v <= 10
    ensures v == 1 <==> r == Ace
    ensures v == 10 <==> r in {Ten, Jack, Queen, King}
  {
    match r
    case Ace => 1
    case Jack | Queen | King => 10
    case Two => 2
    case Three => 3
    case Four => 4
    case Five => 5
    case Six => 6
    case Seven => 7
    case Eight => 8
    case Nine => 9
    case Ten => 10
  }

  /** A numeral rank counts the number its label spells. */
  lemma NumeralValueIsItsLabel(r: Rank)
    requires IsNumeral(r)
    ensures forall k :: 0 <= k < |Label(r)| ==> IsDigit(Label(r)[k])
    ensures RankValue(r) == Decimal(Label(r))
  {
    if r == Ten {
      assert Label(r)[..1] == "1";
      assert Decimal("1") == 10 * Decimal("") + 1;
    } else {
      assert Label(r)[..0] == "";
    }
  }

  /** One suit's thirteen cards, in rank order. */
  function SuitRow(s: Suit): (row: seq<Card>)
    ensures |row| == 13
    ensures forall k :: 0 <= k < 13 ==> row[k] == Card(Ranks[k], s)
  {
    seq(13, k requires 0 <= k < 13 => Card(Ranks[k], s))
  }

  /** One deck: the suits in order, each with its ranks in order. */
  function Deck(): seq<Card> {
    SuitRow(Spades) + SuitRow(Hearts) + SuitRow(Diamonds) + SuitRow(Clubs)
  }

  /** The cards of a new shoe of `decks` decks, before shuffling; a count
      below one gives no cards, as an empty range does. */
  function ShoeCards(decks: int): seq<Card>
    decreases decks
  {
    if decks <= 0 then [] else ShoeCards(decks - 1) + Deck()
  }

  /** The rows of the first `n` suits. */
  function Rows(n: nat): seq<Card>
    requires n <= 4
  {
    if n == 0 then [] else Rows(n - 1) + SuitRow(Suits[n - 1])
  }

  lemma RowPrefixStep(s: Suit, k: nat)
    requires k < 13
    ensures SuitRow(s)[..k + 1] == SuitRow(s)[..k] + [Card(Ranks[k], s)]
  {
  }

  lemma RowsStep(j: nat)
    requires j < 4
    ensures Rows(j + 1) == Rows(j) + SuitRow(Suits[j])[..13]
  {
    assert SuitRow(Suits[j])[..13] == SuitRow(Suits[j]);
  }

  lemma RowsAreDeck()
    ensures Rows(4) == Deck()
  {
    var a, b, c, d := SuitRow(Spades), SuitRow(Hearts), SuitRow(Diamonds), SuitRow(Clubs);
    assert Rows(1) == a by {
      assert [] + a == a;
    }
    assert Rows(2) == a + b;
    assert Rows(3) == a + b + c;
  }

  /** Builds the shoe deck by deck. */
  method MakeShoeCards(decks: int) returns (cards: seq<Card>)
    ensures cards == ShoeCards(decks)
  {
    cards := [];
    var d := 0;
    while d < decks
      invariant decks <= 0 ==> d == 0
      invariant decks > 0 ==> 0 <= d <= decks
      invariant cards == ShoeCards(d)
    {
      cards := AppendDeck(cards);
      d := d + 1;
    }
  }

  /** The body of the deck loop: appends one deck suit by suit. */
  method AppendDeck(start: seq<Card>) returns (cards: seq<Card>)
    ensures cards == start + Deck()
  {
    cards := start;
    for j := 0 to |Suits|
      invariant cards == start + Rows(j)
    {
      cards := AppendRow(cards, Suits[j]);
      RowsStep(j);
    }
    RowsAreDeck();
  }

  /** The body of the suit loop: appends the suit's cards rank by rank. */
  method AppendRow(start: seq<Card>, suit: Suit) returns (cards: seq<Card>)
    ensures cards == start + SuitRow(suit)[..13]
  {
    cards := start;
    for k := 0 to |Ranks|
      invariant cards == start + SuitRow(suit)[..k]
    {
      cards := cards + [Card(Ranks[k], suit)];
      RowPrefixStep(suit, k);
    }
  }

  /** Number of cards of rank `r` in `s`. */
  function CountRank(s: seq<Card>, r: Rank): nat {
    if s == [] then 0 else CountRank(s[..|s| - 1], r) + (if s[|s| - 1].rank == r then 1 else 0)
  }

  lemma {:induction false} CountRankAppend(a: seq<Card>, b: seq<Card>, r: Rank)
    ensures CountRank(a + b, r) == CountRank(a, r) + CountRank(b, r)
    decreases |b|
  {
    if b != [] {
      assert (a + b)[..|a + b| - 1] == a + b[..|b| - 1];
      CountRankAppend(a, b[..|b| - 1], r);
    } else {
      assert a + b == a;
    }
  }

  /** The position of a rank in the rank order. */
  function RankIndex(r: Rank): (n: nat)
    ensures n < 13 && Ranks[n] == r
  {
    match r
    case Ace => 0
    case Two => 1
    case Three => 2
    case Four => 3
    case Five => 4
    case Six => 5
    case Seven => 6
    case Eight => 7
    case Nine => 8
    case Ten => 9
    case Jack => 10
    case Queen => 11
    case King => 12
  }

  /** No rank appears twice in the rank order. */
  lemma RankIndexOf(m: nat)
    requires m < 13
    ensures RankIndex(Ranks[m]) == m
  {
  }

  /** Number of cards of rank `r` in the first `k` cards of a suit row. */
  lemma {:induction false} CountRankRowPrefix(s: Suit, r: Rank, k: nat)
    requires k <= 13
    ensures CountRank(SuitRow(s)[..k], r) == if RankIndex(r) < k then 1 else 0
  {
    if k > 0 {
      var row := SuitRow(s);
      assert row[..k][..k - 1] == row[..k - 1];
      CountRankRowPrefix(s, r, k - 1);
      RankIndexOf(k - 1);
      assert row[..k][k - 1].rank == Ranks[k - 1];
    }
  }

  lemma CountRankRow(s: Suit, r: Rank)
    ensures CountRank(SuitRow(s), r) == 1
  {
    CountRankRowPrefix(s, r, 13);
    assert SuitRow(s)[..13] == SuitRow(s);
  }

  /** A deck holds four cards of each rank. */
  lemma CountRankDeck(r: Rank)
    ensures CountRank(Deck(), r) == 4
  {
    var a, b, c, d := SuitRow(Spades), SuitRow(Hearts), SuitRow(Diamonds), SuitRow(Clubs);
    CountRankRow(Spades, r);
    CountRankRow(Hearts, r);
    CountRankRow(Diamonds, r);
    CountRankRow(Clubs, r);
    CountRankAppend(a, b, r);
    CountRankAppend(a + b, c, r);
    CountRankAppend(a + b + c, d, r);
  }

  /** A new shoe of `decks` decks holds 52 cards per deck and four cards of
      each rank per deck. */
  lemma {:induction false} ShoeComposition(decks: nat, r: Rank)
    ensures |ShoeCards(decks)| == 52 * decks
    ensures CountRank(ShoeCards(decks), r) == 4 * decks
  {
    if decks > 0 {
      ShoeComposition(decks - 1, r);
      CountRankDeck(r);
      CountRankAppend(ShoeCards(decks - 1), Deck(), r);
    }
  }
}
