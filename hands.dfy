/** Hand evaluation: totals with soft/hard ace resolution, naturals and pairs. */
module Hands {
  import opened Cards

  /** A player hand: its cards, whether its bet was doubled, and whether it
      came from splitting a pair of aces. */
  datatype Hand = Hand(cards: seq<Card>, doubled: bool, isSplitAces: bool)

  /** A fresh hand, with both flags cleared. */
  function NewHand(cards: seq<Card>): Hand {
    Hand(cards, false, false)
  }

  /** Sum of a list of integers. */
  function Sum(xs: seq<int>): int {
    if xs == [] then 0 else xs[0] + Sum(xs[1..])
  }

  /** Number of entries equal to 1, which is how aces show in a values list. */
  function Ones(xs: seq<int>): int {
    if xs == [] then 0 else (if xs[0] == 1 then 1 else 0) + Ones(xs[1..])
  }

  /** The count values of the cards, in order: adding them up gives the
      total with every ace as 1, and the 1s among them are the aces. */
  function CardsValues(cards: seq<Card>): (vals: seq<int>)
    ensures |vals| == |cards|
    ensures forall k :: 0 <= k < |cards| ==> vals[k] == cards[k].Value()
    ensures Sum(vals) == Raw(cards)
    ensures Ones(vals) == AceCount(cards)
  {
    if cards == [] then []
    else
      var rest := CardsValues(cards[1..]);
      assert ([cards[0].Value()] + rest)[1..] == rest;
      [cards[0].Value()] + rest
  }

  function CardValue(c: Card): int {
    c.Value()
  }

  function AceWeight(c: Card): int {
    if c.Value() == 1 then 1 else 0
  }

  /** Sum of `f` over the cards. */
  function SumOf(s: seq<Card>, f: Card -> int): int {
    if s == [] then 0 else f(s[0]) + SumOf(s[1..], f)
  }

  /** The total with every ace counted as 1. */
  function Raw(cards: seq<Card>): int {
    if cards == [] then 0 else cards[0].Value() + Raw(cards[1..])
  }

  /** The number of aces. */
  function AceCount(cards: seq<Card>): int {
    if cards == [] then 0 else AceWeight(cards[0]) + AceCount(cards[1..])
  }

  lemma {:induction false} RawIsSum(cards: seq<Card>)
    ensures Raw(cards) == SumOf(cards, CardValue)
    ensures AceCount(cards) == SumOf(cards, AceWeight)
    decreases |cards|
  {
    if cards != [] {
      RawIsSum(cards[1..]);
    }
  }

  /** The blackjack total and softness of a hand: one ace is counted as 11
      exactly when there is an ace and doing so does not pass 21. */
  function HandValue(cards: seq<Card>): (r: (int, bool))
    ensures r.0 >= Raw(cards)
    ensures r.1 ==> r.0 <= 21
    ensures r.0 > 21 ==> r == (Raw(cards), false)
  {
    if AceCount(cards) > 0 && Raw(cards) + 10 <= 21 then (Raw(cards) + 10, true)
    else (Raw(cards), false)
  }

  function HandTotal(cards: seq<Card>): int {
    HandValue(cards).0
  }

  lemma {:induction false} SumOfAppend(a: seq<Card>, b: seq<Card>, f: Card -> int)
    ensures SumOf(a + b, f) == SumOf(a, f) + SumOf(b, f)
    decreases |a|
  {
    if a == [] {
      assert a + b == b;
    } else {
      assert (a + b)[1..] == a[1..] + b;
      SumOfAppend(a[1..], b, f);
    }
  }

  lemma SumSplitAt(t: seq<Card>, j: nat, f: Card -> int)
    requires j < |t|
    ensures SumOf(t, f) == SumOf(t[..j], f) + f(t[j]) + SumOf(t[j + 1..], f)
  {
    assert t == t[..j] + ([t[j]] + t[j + 1..]);
    SumOfAppend(t[..j], [t[j]] + t[j + 1..], f);
    assert ([t[j]] + t[j + 1..])[1..] == t[j + 1..];
  }

  lemma MultisetRemove(s: seq<Card>, t: seq<Card>, j: nat)
    requires s != [] && j < |t| && t[j] == s[0] && multiset(s) == multiset(t)
    ensures multiset(t[..j] + t[j + 1..]) == multiset(s[1..])
  {
    var x := s[0];
    assert s == [x] + s[1..];
    assert t == t[..j] + [x] + t[j + 1..];
    var rest := t[..j] + t[j + 1..];
    assert multiset(rest) + multiset([x]) == multiset(t);
    assert multiset(rest) + multiset([x]) == multiset(s[1..]) + multiset([x]);
    assert multiset(rest) == multiset(rest) + multiset([x]) - multiset([x]);
  }

  /** Sums over the same multiset of cards agree, whatever the order. */
  lemma {:induction false} SumOfPermutation(s: seq<Card>, t: seq<Card>, f: Card -> int)
    requires multiset(s) == multiset(t)
    ensures SumOf(s, f) == SumOf(t, f)
    decreases |s|
  {
    if s == [] {
      assert |t| == |multiset(t)| == 0;
    } else {
      assert s[0] in multiset(t);
      var j :| 0 <= j < |t| && t[j] == s[0];
      var before, after := t[..j], t[j + 1..];
      assert multiset(before + after) == multiset(s[1..]) by {
        MultisetRemove(s, t, j);
      }
      SumOfPermutation(s[1..], before + after, f);
      SumSplitAt(t, j, f);
      SumOfAppend(before, after, f);
    }
  }

  /** Every ace counts at least 1 towards the raw total. */
  lemma {:induction false} AcesBoundRaw(cards: seq<Card>)
    ensures 0 <= AceCount(cards) <= Raw(cards)
    decreases |cards|
  {
    if cards != [] {
      AcesBoundRaw(cards[1..]);
    }
  }

  /** The evaluation of a hand does not depend on the order of its cards. */
  lemma HandValueOrderFree(s: seq<Card>, t: seq<Card>)
    requires multiset(s) == multiset(t)
    ensures HandValue(s) == HandValue(t)
  {
    RawIsSum(s);
    RawIsSum(t);
    SumOfPermutation(s, t, CardValue);
    SumOfPermutation(s, t, AceWeight);
  }

  /** The counting loop: sum the values with every ace as 1, count the aces,
      then promote aces to 11 one at a time while that stays within 21. */
  method ComputeHandValue(cards: seq<Card>) returns (total: int, isSoft: bool)
    ensures (total, isSoft) == HandValue(cards)
  {
    var vals := CardsValues(cards);
    total := Sum(vals);
    var aces := Ones(vals);
    AcesBoundRaw(cards);
    isSoft := false;
    while aces > 0 && total + 10 <= 21
      invariant 0 <= aces <= AceCount(cards)
      invariant !isSoft ==> total == Raw(cards) && aces == AceCount(cards)
      invariant isSoft ==> total == Raw(cards) + 10 && aces == AceCount(cards) - 1
      invariant isSoft ==> Raw(cards) + 10 <= 21
      invariant isSoft ==> (aces > 0 ==> total + 10 > 21)
      decreases aces
    {
      total := total + 10;
      aces := aces - 1;
      isSoft := true;
    }
  }

  /** A natural: exactly two cards whose values include both 1 and 10. */
  function IsBlackjack(cards: seq<Card>): (b: bool)
    ensures b <==> (|cards| == 2 &&
      ((cards[0].rank == Ace && cards[1].Value() == 10) || (cards[0].Value() == 10 && cards[1].rank == Ace)))
    ensures b <==> (|cards| == 2 &&
      ((cards[0].Value() == 1 && cards[1].Value() == 10) || (cards[0].Value() == 10 && cards[1].Value() == 1)))
  {
    if |cards| != 2 then false
    else
      var vals := CardsValues(cards);
      assert vals == [cards[0].Value(), cards[1].Value()];
      (1 in vals) && (10 in vals)
  }

  /** A pair: exactly two cards of equal count value (so ten and king pair). */
  function IsPair(cards: seq<Card>): (b: bool)
    ensures b <==> |cards| == 2 && RankValue(cards[0].rank) == RankValue(cards[1].rank)
    ensures |cards| == 2 && cards[0].rank == cards[1].rank ==> b
  {
    if |cards| != 2 then false else cards[0].Value() == cards[1].Value()
  }

  /** Two cards of different ranks pair exactly when both are ten-valued:
      ten, jack, queen and king pair with each other in any combination,
      and no other mixed pair exists. */
  lemma MixedPairsAreTens(a: Card, b: Card)
    requires a.rank != b.rank
    ensures IsPair([a, b]) <==> a.rank in {Ten, Jack, Queen, King} && b.rank in {Ten, Jack, Queen, King}
  {
  }

  lemma RawOfTwo(a: Card, b: Card)
    ensures Raw([a, b]) == a.Value() + b.Value()
    ensures AceCount([a, b]) == AceWeight(a) + AceWeight(b)
  {
    assert [a, b][1..] == [b];
    assert [b][1..] == [];
    assert Raw([b]) == b.Value() && AceCount([b]) == AceWeight(b);
  }

  /** Among two-card hands, the naturals are exactly those totalling 21; a
      natural is always soft and never a pair. */
  lemma BlackjackIffTwentyOne(cards: seq<Card>)
    requires |cards| == 2
    ensures IsBlackjack(cards) <==> HandTotal(cards) == 21
    ensures IsBlackjack(cards) ==> HandValue(cards) == (21, true) && !IsPair(cards)
  {
    assert cards == [cards[0], cards[1]];
    RawOfTwo(cards[0], cards[1]);
  }

  /** A pair of value v totals 2v, except a pair of aces, which is soft 12. */
  lemma PairTotal(cards: seq<Card>)
    requires IsPair(cards)
    ensures cards[0].rank == Ace ==> HandValue(cards) == (12, true)
    ensures cards[0].rank != Ace ==> HandValue(cards) == (2 * cards[0].Value(), false)
  {
    assert cards == [cards[0], cards[1]];
    RawOfTwo(cards[0], cards[1]);
  }
}
