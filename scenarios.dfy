/** Whole rounds on fixed shoes. */
module Scenarios {
  import opened Cards
  import opened Hands
  import opened Strategy
  import opened Wrappers
  import opened Rounds

  /** Ace and king against nine and nine: the player's natural is paid 3:2 on
      the one hand, the dealer stands on 18, and the round is labelled BJ. */
  lemma NaturalRound()
    ensures var cards := [Card(Ace, Spades), Card(Nine, Hearts), Card(King, Clubs), Card(Nine, Diamonds)];
      var r := PlayRound(DefaultRules, cards, 0, false, 1.0);
      && r.Success?
      && r.value.result == RoundResult(1.5, 1.0, Blackjack, 18, 1)
      && r.value.pos == 4
  {
    var cards := [Card(Ace, Spades), Card(Nine, Hearts), Card(King, Clubs), Card(Nine, Diamonds)];
    var player, dealer := [Card(Ace, Spades), Card(King, Clubs)], [Card(Nine, Hearts), Card(Nine, Diamonds)];
    RawOfTwo(player[0], player[1]);
    RawOfTwo(dealer[0], dealer[1]);
    assert HandValue(player) == (21, true);
    assert HandValue(dealer) == (18, false);
    var t0 := StartTable(cards, 0, false);
    assert t0.hands == [NewHand(player)];
    var t1 := t0.(entered := true);
    assert Step(DefaultRules, cards, cards[1], t0) == Success(t1);
    var t2 := t1.(i := 1, entered := false);
    assert Step(DefaultRules, cards, cards[1], t1) == Success(t2);
    assert PlayHands(DefaultRules, cards, cards[1], t2) == Success(t2);
    assert PlayHands(DefaultRules, cards, cards[1], t0) == Success(t2);
    assert DealerRun(DefaultRules, cards, dealer, 4, t2.trace + [Reveal(cards[3])]) ==
      Success(DealerEnd(dealer, 4, t2.trace + [Reveal(cards[3])]));
    assert !IsBlackjack(dealer);
    assert SettleHand(DefaultRules, NewHand(player), 18, 1.0, false) == (1.5, Blackjack);
    var hands := [NewHand(player)];
    assert hands[..|hands| - 1] == [];
    assert HandBet(1.0, hands[0]) == 1.0;
    assert SettleAll(DefaultRules, [], 18, 1.0, false) == (0.0, []);
    assert hands[|hands| - 1] == NewHand(player);
    assert SettleAll(DefaultRules, hands, 18, 1.0, false) == (0.0 + 1.5, [] + [Blackjack]);
  }

  /** Settlement of two losing hands: a three-card 21 loses to a dealer
      natural, and 18 loses to a dealer 20. */
  lemma SettleLosingHands()
    ensures SettleHand(DefaultRules, NewHand([Card(Seven, Spades), Card(Seven, Hearts), Card(Seven, Clubs)]), 21, 1.0, true) == (-1.0, Lose)
    ensures SettleHand(DefaultRules, NewHand([Card(Ten, Spades), Card(Eight, Hearts)]), 20, 1.0, false) == (-1.0, Lose)
  {
    var sevens := [Card(Seven, Spades), Card(Seven, Hearts), Card(Seven, Clubs)];
    assert sevens[1..] == [Card(Seven, Hearts), Card(Seven, Clubs)];
    RawOfTwo(Card(Seven, Hearts), Card(Seven, Clubs));
    assert Raw(sevens) == 21 && AceCount(sevens) == 0;
    RawOfTwo(Card(Ten, Spades), Card(Eight, Hearts));
  }

  /** Ten and seven against ten and seven: the player stands on hard 17, the
      dealer stands on hard 17 under the intended rule, and the round pushes.
      (The dealer loop as written never finishes this round.) */
  lemma HardSeventeenRound()
    ensures var cards := [Card(Ten, Spades), Card(Ten, Hearts), Card(Seven, Clubs), Card(Seven, Diamonds)];
      var r := PlayRound(DefaultRules, cards, 0, false, 1.0);
      && r.Success?
      && r.value.result == RoundResult(0.0, 1.0, Push, 17, 1)
      && DealerStepAsWritten(r.value.dealer, DefaultRules.dealerStandsSoft17) == NoProgress
  {
    var cards := [Card(Ten, Spades), Card(Ten, Hearts), Card(Seven, Clubs), Card(Seven, Diamonds)];
    var player, dealer := [Card(Ten, Spades), Card(Seven, Clubs)], [Card(Ten, Hearts), Card(Seven, Diamonds)];
    RawOfTwo(player[0], player[1]);
    RawOfTwo(dealer[0], dealer[1]);
    assert HandValue(player) == (17, false);
    assert HandValue(dealer) == (17, false);
    assert !IsPair(player);
    assert BasicStrategy(player, cards[1]) == Stand;
    var t0 := StartTable(cards, 0, false);
    assert t0.hands == [NewHand(player)];
    var t1 := t0.(entered := true);
    assert Step(DefaultRules, cards, cards[1], t0) == Success(t1);
    var t2 := t1.(i := 1, entered := false, trace := t1.trace + [PlayerStand(1)]);
    assert Step(DefaultRules, cards, cards[1], t1) == Success(t2);
    assert PlayHands(DefaultRules, cards, cards[1], t2) == Success(t2);
    assert PlayHands(DefaultRules, cards, cards[1], t0) == Success(t2);
    assert DealerRun(DefaultRules, cards, dealer, 4, t2.trace + [Reveal(cards[3])]) ==
      Success(DealerEnd(dealer, 4, t2.trace + [Reveal(cards[3])]));
    assert !IsBlackjack(dealer) && !IsBlackjack(player);
    assert SettleHand(DefaultRules, NewHand(player), 17, 1.0, false) == (0.0, Push);
    var hands := [NewHand(player)];
    assert hands[..|hands| - 1] == [];
    assert hands[|hands| - 1] == NewHand(player);
    assert HandBet(1.0, hands[0]) == 1.0;
    assert SettleAll(DefaultRules, [], 17, 1.0, false) == (0.0, []);
    assert SettleAll(DefaultRules, hands, 17, 1.0, false) == (0.0 + 0.0, [] + [Push]);
  }

  /** Aces split against a nine: the appended hand, an ace and a king, is
      frozen at two cards, but the first hand is still played by the inner
      loop and takes a hit on its soft 17. */
  lemma FirstSplitAceHandPlaysOn()
    ensures var cards := [Card(Ace, Spades), Card(Nine, Hearts), Card(Ace, Clubs), Card(Seven, Diamonds),
        Card(Six, Spades), Card(King, Spades), Card(Four, Spades)];
      var r := PlayHands(DefaultRules, cards, cards[1], StartTable(cards, 0, false));
      && r.Success?
      && r.value.hands == [Hand([Card(Ace, Spades), Card(Six, Spades), Card(Four, Spades)], false, true),
                           Hand([Card(Ace, Clubs), Card(King, Spades)], false, true)]
      && r.value.pos == 7
  {
    var cards := [Card(Ace, Spades), Card(Nine, Hearts), Card(Ace, Clubs), Card(Seven, Diamonds),
      Card(Six, Spades), Card(King, Spades), Card(Four, Spades)];
    var rules, up := DefaultRules, cards[1];
    var aces, first, third := [cards[0], cards[2]], [cards[0], cards[4]], [cards[0], cards[4], cards[6]];
    RawOfTwo(cards[0], cards[2]);
    RawOfTwo(cards[0], cards[4]);
    assert HandValue(aces) == (12, true) && IsPair(aces);
    assert BasicStrategy(aces, up) == Split;
    assert HandValue(first) == (17, true) && !IsPair(first);
    assert BasicStrategy(first, up) == Hit;
    assert Raw(third) == 11 && AceCount(third) == 1 by {
      assert third[1..] == [cards[4], cards[6]];
      RawOfTwo(cards[4], cards[6]);
    }
    assert first + [cards[6]] == third;
    assert HandTotal(third) == 21;
    var t0 := StartTable(cards, 0, false);
    assert t0.hands == [NewHand(aces)];
    var t1 := Step(rules, cards, up, t0).value;
    assert t1 == t0.(entered := true);
    var t2 := Step(rules, cards, up, t1).value;
    assert t2.hands == [Hand(first, false, true), Hand([cards[2], cards[5]], false, true)];
    assert t2.i == 0 && t2.entered && t2.pos == 6;
    var t3 := Step(rules, cards, up, t2).value;
    assert t3.hands == [Hand(third, false, true), Hand([cards[2], cards[5]], false, true)];
    assert t3.i == 0 && t3.entered && t3.pos == 7;
    var t4 := Step(rules, cards, up, t3).value;
    assert t4.hands == t3.hands && t4.i == 1 && !t4.entered && t4.pos == 7;
    var t5 := Step(rules, cards, up, t4).value;
    assert t5.hands == t3.hands && t5.i == 2 && t5.pos == 7;
    assert PlayHands(rules, cards, up, t4) == Success(t5);
    assert PlayHands(rules, cards, up, t3) == Success(t5);
    assert PlayHands(rules, cards, up, t2) == Success(t5);
    assert PlayHands(rules, cards, up, t1) == Success(t5);
  }
}
