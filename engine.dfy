/** The round engine: a table with its rules and its shoe. Its methods draw
    from the shoe in place and are proved to compute the round of the value
    specification in `Rounds`. */
module Engine {
  import opened Cards
  import opened Shoes
  import opened Hands
  import opened Strategy
  import opened Rounds
  import opened Wrappers

  class BlackjackEnv {
    const rules: Rules
    const shoe: Shoe

    ghost predicate Valid()
      reads this, shoe
    {
      shoe.Valid()
    }

    /** A table with a new shoe of `rules.decks` decks, shuffled by `pick`. */
    constructor (rules: Rules, pick: nat -> nat)
      ensures Valid()
      ensures this.rules == rules && fresh(shoe)
      ensures multiset(shoe.cards) == multiset(ShoeCards(rules.decks)) && shoe.i == 0
    {
      this.rules := rules;
      shoe := new Shoe(rules.decks, pick);
    }

    /** The dealer loop: draws while the total is below 17, or is a soft 17
        under H17, and returns the final cards, the trace and the total. It
        follows `DealerRule`, which stands on a hard 17 where the loop as
        written has no branch. */
    method DealerPlay(dealer: seq<Card>, trace: seq<Event>) returns (r: Result<DealerEnd, Failure>, total: int)
      requires Valid()
      modifies shoe`i
      ensures Valid()
      ensures r == DealerRun(rules, shoe.cards, dealer, old(shoe.i), trace)
      ensures r.Success? ==> shoe.i == r.value.pos && total == HandTotal(r.value.dealer)
      ensures r.Failure? ==> shoe.i == |shoe.cards|
    {
      var d, tr := dealer, trace;
      ghost var cards := shoe.cards;
      while true
        invariant Valid() && shoe.cards == cards
        invariant DealerRun(rules, cards, d, shoe.i, tr) == DealerRun(rules, cards, dealer, old(shoe.i), trace)
        decreases |cards| - shoe.i
      {
        var soft;
        total, soft := ComputeHandValue(d);
        DealerRunCases(rules, cards, d, shoe.i, tr);
        if DealerRule(total, soft, rules.dealerStandsSoft17) == Stop {
          r := Success(DealerEnd(d, shoe.i, tr));
          break;
        }
        if shoe.i >= |shoe.cards| {
          r := Failure(ShoeExhausted);
          break;
        }
        DealerRunDrawStep(rules, cards, d, shoe.i, tr);
        var c := shoe.Deal();
        d, tr := d + [c], tr + [DealerHit(c)];
      }
    }

    /** Deals one card, or reports that the shoe is empty. */
    method Draw() returns (r: Option<Card>)
      requires Valid()
      modifies shoe`i
      ensures Valid()
      ensures old(shoe.i) < |shoe.cards| ==> r == Some(shoe.cards[old(shoe.i)]) && shoe.i == old(shoe.i) + 1
      ensures old(shoe.i) >= |shoe.cards| ==> r == None && shoe.i == old(shoe.i)
    {
      if shoe.i >= |shoe.cards| {
        return None;
      }
      var c := shoe.Deal();
      return Some(c);
    }

    /** One pass of the inner loop on the entered hand `t.i`: stop at 21 or
        more; otherwise split, double, stand or hit as the table advises. A
        split replaces the hand by its first half, appends the second and
        goes on with the first half; a hit goes on with the same hand. */
    method PlayOnce(t: Table, up: Card) returns (r: Result<Table, Failure>)
      requires Valid() && t.i < |t.hands| && t.entered && t.pos == shoe.i
      modifies shoe`i
      ensures Valid()
      ensures r == Step(rules, shoe.cards, up, t)
      ensures r.Success? ==> shoe.i == r.value.pos
      ensures r.Failure? ==> shoe.i == |shoe.cards|
    {
      var h := t.hands[t.i];
      var total, _ := ComputeHandValue(h.cards);
      if total >= 21 {
        return Success(t.(i := t.i + 1, entered := false));
      }
      var action := BasicStrategy(h.cards, up);
      if action == Split && t.splitCount < rules.maxSplits && |h.cards| == 2 && IsPair(h.cards) {
        r := PlaySplit(t, up);
      } else if action == Double && |h.cards| == 2 {
        r := PlayDouble(t, up);
      } else if action == Stand {
        r := Success(t.(i := t.i + 1, entered := false, trace := t.trace + [PlayerStand(t.i + 1)]));
      } else {
        r := PlayHit(t, up);
      }
    }

    /** A split: the pair's halves each receive one new card, the first
        stays at `t.i` and the second is appended. */
    method PlaySplit(t: Table, up: Card) returns (r: Result<Table, Failure>)
      requires Valid() && t.i < |t.hands| && t.entered && t.pos == shoe.i
      requires HandTotal(t.hands[t.i].cards) < 21
      requires Resolve(BasicStrategy(t.hands[t.i].cards, up), t.hands[t.i], t.splitCount, rules.maxSplits) == SplitMove
      modifies shoe`i
      ensures Valid()
      ensures r == Step(rules, shoe.cards, up, t)
      ensures r.Success? ==> shoe.i == r.value.pos
      ensures r.Failure? ==> shoe.i == |shoe.cards|
    {
      var hands, i, trace := t.hands, t.i, t.trace;
      var h := hands[i];
      var c0, c1 := h.cards[0], h.cards[1];
      trace := trace + [PlayerSplit];
      var x := Draw();
      if x.None? {
        return Failure(ShoeExhausted);
      }
      h := h.(cards := [c0, x.value]);
      trace := trace + [Dealt(ToHand(i + 1), FaceUp(x.value))];
      var y := Draw();
      if y.None? {
        return Failure(ShoeExhausted);
      }
      var added := NewHand([c1, y.value]);
      assert trace + [Dealt(ToHand(|hands| + 1), FaceUp(y.value))] ==
        t.trace + [PlayerSplit, Dealt(ToHand(i + 1), FaceUp(x.value)), Dealt(ToHand(|hands| + 1), FaceUp(y.value))];
      trace := trace + [Dealt(ToHand(|hands| + 1), FaceUp(y.value))];
      if c0.Value() == 1 {
        h := h.(isSplitAces := true);
        added := added.(isSplitAces := true);
      }
      hands := hands[i := h] + [added];
      return Success(Table(hands, i, true, t.splitCount + 1, shoe.i, trace));
    }

    /** A double: the stake is doubled, exactly one card is drawn and the
        pass moves on to the next hand. */
    method PlayDouble(t: Table, up: Card) returns (r: Result<Table, Failure>)
      requires Valid() && t.i < |t.hands| && t.entered && t.pos == shoe.i
      requires HandTotal(t.hands[t.i].cards) < 21
      requires Resolve(BasicStrategy(t.hands[t.i].cards, up), t.hands[t.i], t.splitCount, rules.maxSplits) == DoubleMove
      modifies shoe`i
      ensures Valid()
      ensures r == Step(rules, shoe.cards, up, t)
      ensures r.Success? ==> shoe.i == r.value.pos
      ensures r.Failure? ==> shoe.i == |shoe.cards|
    {
      var i, trace := t.i, t.trace;
      var h := t.hands[i].(doubled := true);
      trace := trace + [PlayerDouble(i + 1)];
      var c := Draw();
      if c.None? {
        return Failure(ShoeExhausted);
      }
      h := h.(cards := h.cards + [c.value]);
      assert trace + [Dealt(ToHand(i + 1), FaceUp(c.value))] == t.trace + [PlayerDouble(i + 1), Dealt(ToHand(i + 1), FaceUp(c.value))];
      trace := trace + [Dealt(ToHand(i + 1), FaceUp(c.value))];
      return Success(t.(hands := t.hands[i := h], i := i + 1, entered := false, pos := shoe.i, trace := trace));
    }

    /** A hit (also what a split or a double that is not allowed becomes):
        one card, and the same hand is played again. */
    method PlayHit(t: Table, up: Card) returns (r: Result<Table, Failure>)
      requires Valid() && t.i < |t.hands| && t.entered && t.pos == shoe.i
      requires HandTotal(t.hands[t.i].cards) < 21
      requires Resolve(BasicStrategy(t.hands[t.i].cards, up), t.hands[t.i], t.splitCount, rules.maxSplits) == HitMove
      modifies shoe`i
      ensures Valid()
      ensures r == Step(rules, shoe.cards, up, t)
      ensures r.Success? ==> shoe.i == r.value.pos
      ensures r.Failure? ==> shoe.i == |shoe.cards|
    {
      var i, trace := t.i, t.trace + [PlayerHit(t.i + 1)];
      var c := Draw();
      if c.None? {
        return Failure(ShoeExhausted);
      }
      var h := t.hands[i].(cards := t.hands[i].cards + [c.value]);
      assert trace + [Dealt(ToHand(i + 1), FaceUp(c.value))] == t.trace + [PlayerHit(i + 1), Dealt(ToHand(i + 1), FaceUp(c.value))];
      trace := trace + [Dealt(ToHand(i + 1), FaceUp(c.value))];
      return Success(t.(hands := t.hands[i := h], pos := shoe.i, trace := trace));
    }

    /** The forward pass over the player hands, the hands appended by
        splits included: a split-aces hand that already holds two cards is
        skipped; any other hand is played until a pass of the inner loop
        leaves it. */
    method PlayerPass(hands0: seq<Hand>, up: Card, trace0: seq<Event>) returns (r: Result<Table, Failure>)
      requires Valid()
      modifies shoe`i
      ensures Valid()
      ensures r == PlayHands(rules, shoe.cards, up, Table(hands0, 0, false, 0, old(shoe.i), trace0))
      ensures r.Success? ==> shoe.i == r.value.pos
      ensures r.Failure? ==> shoe.i == |shoe.cards|
    {
      ghost var goal := PlayHands(rules, shoe.cards, up, Table(hands0, 0, false, 0, shoe.i, trace0));
      var t := Table(hands0, 0, false, 0, shoe.i, trace0);
      while t.i < |t.hands|
        invariant Valid()
        invariant t.pos == shoe.i && !t.entered && t.i <= |t.hands|
        invariant PlayHands(rules, shoe.cards, up, t) == goal
        decreases |shoe.cards| - shoe.i, |t.hands| - t.i
      {
        var h := t.hands[t.i];
        if h.isSplitAces && |h.cards| >= 2 {
          t := t.(i := t.i + 1);
          continue;
        }
        var played := PlayEntered(t.(entered := true), up);
        if played.Failure? {
          return played;
        }
        t := played.value;
      }
      return Success(t);
    }

    /** The inner loop of the pass: plays the entered hand `t0.i` until a
        pass of the loop leaves it, that is until the pass moves on to the
        next hand. */
    method PlayEntered(t0: Table, up: Card) returns (r: Result<Table, Failure>)
      requires Valid() && t0.entered && t0.i < |t0.hands| && t0.pos == shoe.i
      modifies shoe`i
      ensures Valid()
      ensures r.Failure? ==> r == PlayHands(rules, shoe.cards, up, t0) && shoe.i == |shoe.cards|
      ensures r.Success? ==>
        && r.value.pos == shoe.i && !r.value.entered && r.value.i <= |r.value.hands|
        && PlayHands(rules, shoe.cards, up, r.value) == PlayHands(rules, shoe.cards, up, t0)
        && old(shoe.i) <= shoe.i
        && (shoe.i == old(shoe.i) ==> |r.value.hands| == |t0.hands| && r.value.i > t0.i)
    {
      var t := t0;
      while t.entered
        invariant Valid()
        invariant t.pos == shoe.i && old(shoe.i) <= shoe.i && t.i <= |t.hands|
        invariant t.entered ==> t.i < |t.hands|
        invariant shoe.i == old(shoe.i) ==> |t.hands| == |t0.hands| && t.i >= t0.i && (t.i == t0.i ==> t.entered)
        invariant PlayHands(rules, shoe.cards, up, t) == PlayHands(rules, shoe.cards, up, t0)
        decreases |shoe.cards| - shoe.i, |t.hands| - t.i
      {
        var step := PlayOnce(t, up);
        if step.Failure? {
          return step;
        }
        t := step.value;
      }
      return Success(t);
    }

    /** Settles every hand in order, each at its own stake. */
    method SettleHands(hands: seq<Hand>, dealerTotal: int, bet: real, dealerBj: bool) returns (profit: real, outcomes: seq<Outcome>)
      ensures (profit, outcomes) == SettleAll(rules, hands, dealerTotal, bet, dealerBj)
    {
      profit, outcomes := 0.0, [];
      for k := 0 to |hands|
        invariant (profit, outcomes) == SettleAll(rules, hands[..k], dealerTotal, bet, dealerBj)
      {
        var h := hands[k];
        var hb := bet * (if h.doubled then 2.0 else 1.0);
        var settled := SettleHand(rules, h, dealerTotal, hb, dealerBj);
        SettleAllStep(rules, hands, k, dealerTotal, bet, dealerBj);
        profit := profit + settled.0;
        outcomes := outcomes + [settled.1];
      }
      assert hands[..|hands|] == hands;
    }

    /** One round: reshuffle when the shoe is past its penetration, then
        play the round from the cursor. `pick` stands for the random generator
        a reshuffle draws on. */
    method PlayRoundVerbose(bet: real, pick: nat -> nat) returns (r: Result<Round, Failure>)
      requires Valid()
      modifies shoe
      ensures Valid()
      ensures old(shoe.NeedsReshuffle(rules.penetration)) ==>
        multiset(shoe.cards) == multiset(old(shoe.cards)) && r == PlayRound(rules, shoe.cards, 0, true, bet)
      ensures !old(shoe.NeedsReshuffle(rules.penetration)) ==>
        shoe.cards == old(shoe.cards) && r == PlayRound(rules, shoe.cards, old(shoe.i), false, bet)
      ensures r.Success? ==> shoe.i == r.value.pos
      ensures r.Failure? ==> shoe.i == |shoe.cards|
    {
      var trace: seq<Event> := [];
      var reshuffle := false;
      if shoe.NeedsReshuffle(rules.penetration) {
        reshuffle := true;
        shoe.Shuffle(pick);
        trace := trace + [Shuffled];
      }
      r := PlayDealt(bet, reshuffle, trace);
    }

    /** The round after the reshuffle check: deal player, dealer, player,
        dealer (the last face down), play the hands, reveal and play the
        dealer, settle every hand and label the round. */
    method PlayDealt(bet: real, reshuffle: bool, trace0: seq<Event>) returns (r: Result<Round, Failure>)
      requires Valid() && trace0 == (if reshuffle then [Shuffled] else [])
      modifies shoe`i
      ensures Valid()
      ensures r == PlayRound(rules, shoe.cards, old(shoe.i), reshuffle, bet)
      ensures r.Success? ==> shoe.i == r.value.pos
      ensures r.Failure? ==> shoe.i == |shoe.cards|
    {
      var trace := trace0;
      ghost var pos := shoe.i;
      var p1 := Draw();
      if p1.None? {
        return Failure(ShoeExhausted);
      }
      var d1 := Draw();
      if d1.None? {
        return Failure(ShoeExhausted);
      }
      var p2 := Draw();
      if p2.None? {
        return Failure(ShoeExhausted);
      }
      var d2 := Draw();
      if d2.None? {
        return Failure(ShoeExhausted);
      }
      assert [p1.value, d1.value, p2.value, d2.value] == shoe.cards[pos..pos + 4] && shoe.i == pos + 4;
      var player := NewHand([p1.value, p2.value]);
      var dealerUp := d1.value;
      trace := trace + [Dealt(ToPlayer, FaceUp(p1.value)), Dealt(ToDealer, FaceUp(d1.value)),
        Dealt(ToPlayer, FaceUp(p2.value)), Dealt(ToDealer, FaceDown)];
      assert trace == DealTrace(reshuffle, p1.value, d1.value, p2.value);
      assert Table([player], 0, false, 0, shoe.i, trace) == StartTable(shoe.cards, pos, reshuffle);
      var played := PlayerPass([player], dealerUp, trace);
      if played.Failure? {
        return Failure(played.error);
      }
      r := RevealAndSettle(d1.value, d2.value, played.value, bet, reshuffle);
    }

    /** Reveals the hole card, plays the dealer, settles every hand at its
        stake and labels the round: BJ over WIN over LOSE over PUSH. */
    method RevealAndSettle(d1: Card, d2: Card, t: Table, bet: real, reshuffle: bool) returns (r: Result<Round, Failure>)
      requires Valid() && t.pos == shoe.i
      modifies shoe`i
      ensures Valid()
      ensures r == FinishRound(rules, shoe.cards, d1, d2, t, bet, reshuffle)
      ensures r.Success? ==> shoe.i == r.value.pos
      ensures r.Failure? ==> shoe.i == |shoe.cards|
    {
      var dealerCards := [d1, d2];
      var dealerBj := IsBlackjack(dealerCards);
      var dealt, dealerTotal := DealerPlay(dealerCards, t.trace + [Reveal(d2)]);
      if dealt.Failure? {
        return Failure(dealt.error);
      }
      var e := dealt.value;
      var profitTotal, outcomes := SettleHands(t.hands, dealerTotal, bet, dealerBj);
      var outcome := AggregateOutcome(outcomes);
      var result := RoundResult(profitTotal, bet, outcome, dealerTotal, |t.hands|);
      var payload := Payload([d1, d2], HandCards(t.hands), e.trace + [Settled(outcome, profitTotal)],
        shoe.Remaining(), reshuffle);
      return Success(Round(result, payload, t.hands, e.dealer, e.pos));
    }
  }
}
