/** The shoe: the card list of all decks and a draw cursor into it. */
module Shoes {
  import opened Cards

  /** Conversion of a real to an integer by truncation toward zero. */
  function Trunc(x: real): (n: int)
    ensures x >= 0.0 ==> n as real <= x < n as real + 1.0
    ensures x < 0.0 ==> n as real - 1.0 < x <= n as real
  {
    if x >= 0.0 then x.Floor else -((-x).Floor)
  }

  /** The remaining-card count below which a shoe of `total` cards is
      reshuffled: the untouched share `1 - penetration` of it, truncated. */
  function ReshuffleThreshold(total: nat, penetration: real): (t: int)
    ensures penetration <= 1.0 ==> 0 <= t && t as real <= total as real * (1.0 - penetration) < t as real + 1.0
  {
    assert penetration <= 1.0 ==> total as real * (1.0 - penetration) >= 0.0;
    Trunc(total as real * (1.0 - penetration))
  }

  /** A penetration in [0, 1] puts the threshold between 0 and the shoe size,
      so a freshly shuffled shoe never asks to be reshuffled. */
  lemma ThresholdWithinShoe(total: nat, penetration: real)
    requires 0.0 <= penetration <= 1.0
    ensures 0 <= ReshuffleThreshold(total, penetration) <= total
    ensures !(total < ReshuffleThreshold(total, penetration))
  {
    var a, b := total as real, 1.0 - penetration;
    assert 0.0 <= a * b <= a by {
      assert 0.0 <= b <= 1.0;
      assert a * b + a * penetration == a;
      assert 0.0 <= a * penetration;
      assert 0.0 <= a * b;
    }
  }

  /** A negative penetration pushes the threshold above the shoe size once
      the shoe is big enough: such a shoe reshuffles before every round. */
  lemma NegativePenetrationAlwaysReshuffles(total: nat, penetration: real)
    requires penetration < 0.0
    requires total as real * (-penetration) >= 1.0
    ensures total < ReshuffleThreshold(total, penetration)
  {
    var x := total as real * (1.0 - penetration);
    assert x == total as real + total as real * (-penetration);
  }

  /** Swaps positions `j` and `k` of a sequence. */
  function Swap(s: seq<Card>, j: nat, k: nat): (r: seq<Card>)
    requires j < |s| && k < |s|
    ensures |r| == |s|
    ensures multiset(r) == multiset(s)
  {
    s[j := s[k]][k := s[j]]
  }

  class Shoe {
    const decks: int
    var cards: seq<Card>
    var i: nat

    /** The cursor never passes the end of the card list. */
    ghost predicate Valid()
      reads this
    {
      i <= |cards|
    }

    /** A new shoe holds the cards of `decks` decks and is shuffled at once;
        `pick` stands for the random generator the shuffle draws on. */
    constructor (decks: int, pick: nat -> nat)
      ensures Valid()
      ensures this.decks == decks
      ensures multiset(cards) == multiset(ShoeCards(decks))
      ensures i == 0
    {
      this.decks := decks;
      var built := MakeShoeCards(decks);
      cards := built;
      i := 0;
      new;
      Shuffle(pick);
    }

    /** Permutes all cards in place (Fisher-Yates, as the generator's own
        shuffle does: position k swaps with a position at most k, chosen by
        `pick(k)`), and rewinds the cursor. */
    method Shuffle(pick: nat -> nat)
      modifies this
      ensures Valid()
      ensures |cards| == |old(cards)|
      ensures multiset(cards) == multiset(old(cards))
      ensures i == 0
    {
      var a := cards;
      var k := |a|;
      while k > 1
        invariant 0 <= k <= |a|
        invariant |a| == |cards|
        invariant multiset(a) == multiset(cards)
      {
        k := k - 1;
        var j := pick(k) % (k + 1);
        a := Swap(a, j, k);
      }
      cards := a;
      i := 0;
    }

    /** The cards not yet dealt. */
    function Remaining(): (n: int)
      reads this
      ensures Valid() ==> 0 <= n <= |cards|
      ensures n == 0 <==> i == |cards|
    {
      |cards| - i
    }

    /** Hands out the card at the cursor and moves the cursor on; the card
        list itself is untouched. */
    method Deal() returns (c: Card)
      requires Valid() && i < |cards|
      modifies this`i
      ensures Valid()
      ensures c == cards[old(i)]
      ensures i == old(i) + 1
      ensures Remaining() == old(Remaining()) - 1
    {
      c := cards[i];
      i := i + 1;
    }

    /** Whether fewer cards remain than the untouched share of the shoe: a
        freshly shuffled shoe never needs it for a penetration in [0, 1],
        and a negative penetration asks for it every time once the shoe is
        big enough. */
    predicate NeedsReshuffle(penetration: real)
      reads this
      ensures i == 0 && 0.0 <= penetration <= 1.0 ==> !NeedsReshuffle(penetration)
      ensures Valid() && penetration < 0.0 && |cards| as real * (-penetration) >= 1.0 ==> NeedsReshuffle(penetration)
    {
      var threshold := ReshuffleThreshold(|cards|, penetration);
      if 0.0 <= penetration <= 1.0 then
        ThresholdWithinShoe(|cards|, penetration);
        Remaining() < threshold
      else if penetration < 0.0 && |cards| as real * (-penetration) >= 1.0 then
        NegativePenetrationAlwaysReshuffles(|cards|, penetration);
        Remaining() < threshold
      else
        Remaining() < threshold
    }
  }
}
