/** One round of blackjack as a value-level specification: rules, the event
    trace, the forward pass over the growing list of player hands, the dealer
    and settlement. The imperative engine is proved to compute exactly this. */
module Rounds {
  import opened Cards
  import opened Hands
  import opened Strategy
  import opened Wrappers

  /** The table rules. `doubleAfterSplit` and `allowResplitAces` are
      configuration only: no part of a round reads them. */
  datatype Rules = Rules(
    decks: int,
    dealerStandsSoft17: bool,
    doubleAfterSplit: bool,
    allowResplitAces: bool,
    maxSplits: int,
    blackjackPayout: real,
    penetration: real)

  /** The default rules: six decks, S17, DAS, three splits, 3:2, 75%. */
  const DefaultRules: Rules := Rules(6, true, true, false, 3, 1.5, 0.75)

  datatype Outcome = Win | Lose | Push | Blackjack

  /** Where a dealt card goes; `ToHand(n)` numbers player hands from 1. */
  datatype Target = ToPlayer | ToDealer | ToHand(n: nat)

  /** A card as the trace shows it: the dealer's hole card is dealt face down. */
  datatype Face = FaceUp(card: Card) | FaceDown

  /** One record of the round trace. */
  datatype Event =
    | Shuffled
    | Dealt(to: Target, face: Face)
    | PlayerSplit
    | PlayerDouble(hand: nat)
    | PlayerStand(hand: nat)
    | PlayerHit(hand: nat)
    | DealerHit(card: Card)
    | Reveal(card: Card)
    | Settled(outcome: Outcome, pnl: real)

  /** Why a round does not complete: the shoe runs dry (an index past the
      end of the card list, after which the cursor is at the end of the shoe). */
  datatype Failure = ShoeExhausted

  // ---------------------------------------------------------------------
  // Player hands
  // ---------------------------------------------------------------------

  /** What the engine does with the advised action. */
  datatype Move = SplitMove | DoubleMove | StandMove | HitMove

  /** A split needs the split budget, two cards and a pair; a double needs two
      cards; anything else that is not a stand is played as a hit. */
  function Resolve(action: Action, h: Hand, splitCount: int, maxSplits: int): (m: Move)
    ensures m.SplitMove? <==> action.Split? && splitCount < maxSplits && |h.cards| == 2 && IsPair(h.cards)
    ensures m.DoubleMove? <==> action.Double? && |h.cards| == 2
    ensures m.StandMove? <==> action.Stand?
    ensures m.HitMove? <==>
      (action.Hit? || (action.Split? && !(splitCount < maxSplits && |h.cards| == 2 && IsPair(h.cards)))
        || (action.Double? && |h.cards| != 2))
  {
    if action == Split && splitCount < maxSplits && |h.cards| == 2 && IsPair(h.cards) then SplitMove
    else if action == Double && |h.cards| == 2 then DoubleMove
    else if action == Stand then StandMove
    else HitMove
  }

  /** The state of the pass over the player hands: the hands so far, the
      index of the hand being played, whether that hand has been entered (its
      split-aces check done), the number of splits, the shoe cursor and the
      trace. */
  datatype Table = Table(hands: seq<Hand>, i: nat, entered: bool, splitCount: int, pos: nat, trace: seq<Event>)

  /** Whether `t2` is strictly closer to the end of the pass than `t1`: it has
      drawn more cards, or drawn none and moved on. */
  predicate Advances(t1: Table, t2: Table) {
    t2.pos > t1.pos ||
    (t2.pos == t1.pos && |t2.hands| == |t1.hands| &&
      (t2.i > t1.i || (t2.i == t1.i && !t1.entered && t2.entered)))
  }

  /** Entering hand `i`: a split-aces hand that already holds two cards is
      skipped; any other hand is played. */
  function Visit(t: Table): (r: Table)
    requires t.i < |t.hands|
    ensures r.hands == t.hands && r.pos == t.pos && r.trace == t.trace && r.splitCount == t.splitCount
    ensures r.i == t.i + 1 <==> t.hands[t.i].isSplitAces && |t.hands[t.i].cards| >= 2
    ensures r.i != t.i + 1 ==> r.i == t.i && r.entered
  {
    var h := t.hands[t.i];
    if h.isSplitAces && |h.cards| >= 2 then t.(i := t.i + 1) else t.(entered := true)
  }

  /** One pass of the inner loop on the entered hand `i`. */
  function PlayStep(rules: Rules, cards: seq<Card>, up: Card, t: Table): (r: Result<Table, Failure>)
    requires t.i < |t.hands| && t.pos <= |cards|
    ensures r.Success? ==> r.value.pos <= |cards| && r.value.i <= |r.value.hands| && Advances(t.(entered := false), r.value)
  {
    var h := t.hands[t.i];
    var num := t.i + 1;
    if HandTotal(h.cards) >= 21 then
      Success(t.(i := t.i + 1, entered := false))
    else
      match Resolve(BasicStrategy(h.cards, up), h, t.splitCount, rules.maxSplits)
      case SplitMove =>
        if t.pos + 2 > |cards| then Failure(ShoeExhausted)
        else
          var x, y := cards[t.pos], cards[t.pos + 1];
          var aces := h.cards[0].Value() == 1;
          var kept := h.(cards := [h.cards[0], x], isSplitAces := aces || h.isSplitAces);
          var added := Hand([h.cards[1], y], false, aces);
          Success(Table(t.hands[t.i := kept] + [added], t.i, true, t.splitCount + 1, t.pos + 2,
            t.trace + [PlayerSplit, Dealt(ToHand(num), FaceUp(x)), Dealt(ToHand(|t.hands| + 1), FaceUp(y))]))
      case DoubleMove =>
        if t.pos >= |cards| then Failure(ShoeExhausted)
        else
          var c := cards[t.pos];
          Success(t.(hands := t.hands[t.i := h.(doubled := true, cards := h.cards + [c])],
            i := t.i + 1, entered := false, pos := t.pos + 1,
            trace := t.trace + [PlayerDouble(num), Dealt(ToHand(num), FaceUp(c))]))
      case StandMove =>
        Success(t.(i := t.i + 1, entered := false, trace := t.trace + [PlayerStand(num)]))
      case HitMove =>
        if t.pos >= |cards| then Failure(ShoeExhausted)
        else
          var c := cards[t.pos];
          Success(t.(hands := t.hands[t.i := h.(cards := h.cards + [c])], entered := true, pos := t.pos + 1,
            trace := t.trace + [PlayerHit(num), Dealt(ToHand(num), FaceUp(c))]))
  }

  /** One step of the pass: enter the hand, or play it once. */
  function Step(rules: Rules, cards: seq<Card>, up: Card, t: Table): (r: Result<Table, Failure>)
    requires t.i < |t.hands| && t.pos <= |cards|
    ensures r.Success? ==> r.value.pos <= |cards| && r.value.i <= |r.value.hands| && Advances(t, r.value)
  {
    if !t.entered then Success(Visit(t)) else PlayStep(rules, cards, up, t)
  }

  /** The whole pass over the hands, the hands appended by splits included. */
  function PlayHands(rules: Rules, cards: seq<Card>, up: Card, t: Table): (r: Result<Table, Failure>)
    requires t.pos <= |cards| && t.i <= |t.hands|
    ensures r.Success? ==> r.value.pos <= |cards| && r.value.i == |r.value.hands| && r.value.pos >= t.pos
    decreases |cards| - t.pos, |t.hands| - t.i, if t.entered then 0 else 1
  {
    if t.i == |t.hands| then Success(t)
    else
      match Step(rules, cards, up, t)
      case Failure(e) => Failure(e)
      case Success(t2) => PlayHands(rules, cards, up, t2)
  }

  // ---------------------------------------------------------------------
  // Dealer
  // ---------------------------------------------------------------------

  datatype DealerMove = Stop | Draw | NoProgress

  /** One pass of the dealer loop as written, on the total and softness of
      the dealer's cards: stop above 21 and above 17; at soft 17 draw or stop
      by the S17 rule; draw below 17. A hard 17 matches no branch, and the
      loop comes round again with nothing changed. */
  function DealerRuleAsWritten(total: int, soft: bool, standsSoft17: bool): (m: DealerMove)
    ensures m == NoProgress <==> total == 17 && !soft
    ensures m == Draw <==> total < 17 || (total == 17 && soft && !standsSoft17)
  {
    if total > 21 then Stop
    else if total > 17 then Stop
    else if total == 17 && soft && !standsSoft17 then Draw
    else if total == 17 && soft && standsSoft17 then Stop
    else if total < 17 then Draw
    else NoProgress
  }

  /** The dealer rule the loop is meant to follow: the same branches, with
      the missing hard 17 standing; every total now matches a branch. */
  function DealerRule(total: int, soft: bool, standsSoft17: bool): (m: DealerMove)
    ensures m != NoProgress
  {
    if total > 21 then Stop
    else if total > 17 then Stop
    else if total == 17 && soft && !standsSoft17 then Draw
    else if total == 17 && soft && standsSoft17 then Stop
    else if total < 17 then Draw
    else Stop
  }

  function DealerStepAsWritten(dealer: seq<Card>, standsSoft17: bool): (m: DealerMove)
    ensures m == NoProgress <==> HandValue(dealer) == (17, false)
  {
    var (total, soft) := HandValue(dealer);
    DealerRuleAsWritten(total, soft, standsSoft17)
  }

  function DealerStep(dealer: seq<Card>, standsSoft17: bool): DealerMove {
    var (total, soft) := HandValue(dealer);
    DealerRule(total, soft, standsSoft17)
  }

  /** The dealer stops exactly at 17 or more, except that under H17 a soft 17
      draws; it draws exactly below 17 and at soft 17 under H17; it always
      makes progress. */
  lemma DealerStepCases(dealer: seq<Card>, standsSoft17: bool)
    ensures DealerStep(dealer, standsSoft17) == Stop <==>
      HandTotal(dealer) >= 17 && !(HandValue(dealer) == (17, true) && !standsSoft17)
    ensures DealerStep(dealer, standsSoft17) == Draw <==>
      HandTotal(dealer) < 17 || (HandValue(dealer) == (17, true) && !standsSoft17)
    ensures DealerStep(dealer, standsSoft17) != NoProgress
  {
  }

  /** The loop as written agrees with the intended rule everywhere except at
      hard 17, where it makes no progress. */
  lemma AsWrittenDiffersOnlyAtHardSeventeen(dealer: seq<Card>, standsSoft17: bool)
    ensures DealerStepAsWritten(dealer, standsSoft17) != DealerStep(dealer, standsSoft17) <==>
      HandValue(dealer) == (17, false)
    ensures DealerStepAsWritten(dealer, standsSoft17) == NoProgress <==> HandValue(dealer) == (17, false)
  {
  }

  /** Ten and seven: a hard 17 on which the dealer loop as written spins,
      under either soft-17 rule, and on which the intended rule stands. */
  lemma HardSeventeenHangs()
    ensures DealerStepAsWritten([Card(Ten, Spades), Card(Seven, Hearts)], true) == NoProgress
    ensures DealerStepAsWritten([Card(Ten, Spades), Card(Seven, Hearts)], false) == NoProgress
    ensures DealerStep([Card(Ten, Spades), Card(Seven, Hearts)], true) == Stop
    ensures DealerStep([Card(Ten, Spades), Card(Seven, Hearts)], false) == Stop
  {
    RawOfTwo(Card(Ten, Spades), Card(Seven, Hearts));
  }

  /** Where the dealer ends: the final cards, the shoe cursor and the trace. */
  datatype DealerEnd = DealerEnd(dealer: seq<Card>, pos: nat, trace: seq<Event>)

  /** The dealer loop, drawing from `cards` at `pos`. */
  function DealerRun(rules: Rules, cards: seq<Card>, dealer: seq<Card>, pos: nat, trace: seq<Event>): (r: Result<DealerEnd, Failure>)
    requires pos <= |cards|
    ensures r.Success? ==> pos <= r.value.pos <= |cards|
    decreases |cards| - pos
  {
    if DealerStep(dealer, rules.dealerStandsSoft17) == Stop then Success(DealerEnd(dealer, pos, trace))
    else if pos >= |cards| then Failure(ShoeExhausted)
    else DealerRun(rules, cards, dealer + [cards[pos]], pos + 1, trace + [DealerHit(cards[pos])])
  }

  lemma DealerRunCases(rules: Rules, cards: seq<Card>, dealer: seq<Card>, pos: nat, trace: seq<Event>)
    requires pos <= |cards|
    ensures DealerStep(dealer, rules.dealerStandsSoft17) == Stop ==>
      DealerRun(rules, cards, dealer, pos, trace) == Success(DealerEnd(dealer, pos, trace))
    ensures DealerStep(dealer, rules.dealerStandsSoft17) == Draw && pos == |cards| ==>
      DealerRun(rules, cards, dealer, pos, trace) == Failure(ShoeExhausted)
  {
  }

  lemma DealerRunDrawStep(rules: Rules, cards: seq<Card>, dealer: seq<Card>, pos: nat, trace: seq<Event>)
    requires pos < |cards| && DealerStep(dealer, rules.dealerStandsSoft17) == Draw
    ensures DealerRun(rules, cards, dealer, pos, trace) ==
      DealerRun(rules, cards, dealer + [cards[pos]], pos + 1, trace + [DealerHit(cards[pos])])
  {
  }

  /** The trace records of a run of dealer draws. */
  function DealerHits(drawn: seq<Card>): (r: seq<Event>)
    ensures |r| == |drawn|
  {
    if drawn == [] then [] else DealerHits(drawn[..|drawn| - 1]) + [DealerHit(drawn[|drawn| - 1])]
  }

  /** A dealer run that ends has drawn the next cards of the shoe in order,
      one trace record per card, and stopped at a standing total. */
  lemma {:induction false} DealerRunDraws(rules: Rules, cards: seq<Card>, dealer: seq<Card>, pos: nat, trace: seq<Event>)
    requires pos <= |cards|
    requires DealerRun(rules, cards, dealer, pos, trace).Success?
    ensures var e := DealerRun(rules, cards, dealer, pos, trace).value;
      && e.dealer == dealer + cards[pos..e.pos]
      && e.trace == trace + DealerHits(cards[pos..e.pos])
      && DealerStep(e.dealer, rules.dealerStandsSoft17) == Stop
    decreases |cards| - pos
  {
    DealerRunCases(rules, cards, dealer, pos, trace);
    if DealerStep(dealer, rules.dealerStandsSoft17) == Draw {
      var c := cards[pos];
      DealerRunDrawStep(rules, cards, dealer, pos, trace);
      DealerRunDraws(rules, cards, dealer + [c], pos + 1, trace + [DealerHit(c)]);
      var e := DealerRun(rules, cards, dealer + [c], pos + 1, trace + [DealerHit(c)]).value;
      assert cards[pos..e.pos] == [c] + cards[pos + 1..e.pos];
      DealerDrawsPrepend(dealer, trace, c, cards[pos + 1..e.pos], e);
    } else {
      assert cards[pos..pos] == [];
    }
  }

  lemma DealerDrawsPrepend(dealer: seq<Card>, trace: seq<Event>, c: Card, rest: seq<Card>, e: DealerEnd)
    requires e.dealer == dealer + [c] + rest && e.trace == trace + [DealerHit(c)] + DealerHits(rest)
    ensures e.dealer == dealer + ([c] + rest) && e.trace == trace + DealerHits([c] + rest)
  {
    DealerHitsPrepend(c, rest);
  }

  lemma {:induction false} DealerHitsPrepend(c: Card, drawn: seq<Card>)
    ensures DealerHits([c] + drawn) == [DealerHit(c)] + DealerHits(drawn)
    decreases |drawn|
  {
    if drawn != [] {
      var init := drawn[..|drawn| - 1];
      assert ([c] + drawn)[..|[c] + drawn| - 1] == [c] + init;
      DealerHitsPrepend(c, init);
    } else {
      assert DealerHits([c]) == DealerHits([]) + [DealerHit(c)];
    }
  }

  // ---------------------------------------------------------------------
  // Settlement
  // ---------------------------------------------------------------------

  /** A natural that counts as one: two cards making 21, not from split aces. */
  predicate PlayerNatural(hand: Hand) {
    IsBlackjack(hand.cards) && !hand.isSplitAces
  }

  /** Settles one hand against the dealer: a bust loses; a natural (not from
      split aces) beats a dealer without one at the blackjack payout; a dealer
      natural beats any other hand; otherwise (both naturals or neither) a
      dealer bust or a higher total wins, a lower total loses and equal
      totals push. */
  function SettleHand(rules: Rules, hand: Hand, dealerTotal: int, bet: real, dealerBj: bool): (r: (real, Outcome))
    ensures r.1 == Win ==> r.0 == bet
    ensures r.1 == Lose ==> r.0 == -bet
    ensures r.1 == Push ==> r.0 == 0.0
    ensures r.1 == Blackjack ==> r.0 == bet * rules.blackjackPayout
    ensures r.1 == Blackjack <==> HandTotal(hand.cards) <= 21 && IsBlackjack(hand.cards) && !hand.isSplitAces && !dealerBj
    ensures HandTotal(hand.cards) > 21 ==> r == (-bet, Lose)
    ensures r.1 == Push ==> HandTotal(hand.cards) == dealerTotal || (dealerBj && IsBlackjack(hand.cards) && !hand.isSplitAces)
  {
    var total := HandTotal(hand.cards);
    if total > 21 then (-bet, Lose)
    else
      var playerBj := PlayerNatural(hand);
      if playerBj && !dealerBj then (bet * rules.blackjackPayout, Blackjack)
      else if dealerBj && !playerBj then (-bet, Lose)
      else if dealerTotal > 21 then (bet, Win)
      else if total > dealerTotal then (bet, Win)
      else if total < dealerTotal then (-bet, Lose)
      else (0.0, Push)
  }

  /** When each outcome happens, as an if-and-only-if: a bust loses; a dealer
      natural beats any hand that is not one; when both or neither hold a
      natural, the totals decide, and a dealer bust loses to every unbusted
      hand. */
  lemma SettleHandOutcomes(rules: Rules, hand: Hand, dealerTotal: int, bet: real, dealerBj: bool)
    ensures SettleHand(rules, hand, dealerTotal, bet, dealerBj).1 == Win <==>
      (HandTotal(hand.cards) <= 21 && PlayerNatural(hand) == dealerBj &&
       (dealerTotal > 21 || HandTotal(hand.cards) > dealerTotal))
    ensures SettleHand(rules, hand, dealerTotal, bet, dealerBj).1 == Lose <==>
      (HandTotal(hand.cards) > 21 || (!PlayerNatural(hand) && dealerBj) ||
       (PlayerNatural(hand) == dealerBj && dealerTotal <= 21 && HandTotal(hand.cards) < dealerTotal))
    ensures SettleHand(rules, hand, dealerTotal, bet, dealerBj).1 == Push <==>
      (HandTotal(hand.cards) <= 21 && PlayerNatural(hand) == dealerBj &&
       dealerTotal <= 21 && HandTotal(hand.cards) == dealerTotal)
  {
  }

  /** Two naturals push; a natural from split aces is an ordinary 21. */
  lemma NaturalsPush(rules: Rules, hand: Hand, bet: real)
    requires IsBlackjack(hand.cards) && !hand.isSplitAces
    ensures SettleHand(rules, hand, 21, bet, true) == (0.0, Push)
  {
    BlackjackIffTwentyOne(hand.cards);
  }

  /** The stake of a hand. */
  function HandBet(bet: real, h: Hand): real {
    bet * (if h.doubled then 2.0 else 1.0)
  }

  /** A doubled hand is staked at twice the bet, any other at the bet, and a
      positive bet gives a positive stake at least as large. */
  lemma HandStake(bet: real, h: Hand)
    ensures h.doubled ==> HandBet(bet, h) == 2.0 * bet
    ensures !h.doubled ==> HandBet(bet, h) == bet
    ensures bet > 0.0 ==> HandBet(bet, h) >= bet > 0.0
  {
  }

  /** The profit and outcome of every hand, summed and listed in hand order:
      outcome k is the settlement of hand k at its own stake. */
  function SettleAll(rules: Rules, hands: seq<Hand>, dealerTotal: int, bet: real, dealerBj: bool): (r: (real, seq<Outcome>))
    ensures |r.1| == |hands|
  {
    if hands == [] then (0.0, [])
    else
      var (p, outs) := SettleAll(rules, hands[..|hands| - 1], dealerTotal, bet, dealerBj);
      var (q, o) := SettleHand(rules, hands[|hands| - 1], dealerTotal, HandBet(bet, hands[|hands| - 1]), dealerBj);
      (p + q, outs + [o])
  }

  /** Settling one more hand adds its profit at its own stake and appends its outcome. */
  lemma SettleAllStep(rules: Rules, hands: seq<Hand>, k: nat, dealerTotal: int, bet: real, dealerBj: bool)
    requires k < |hands|
    ensures var before := SettleAll(rules, hands[..k], dealerTotal, bet, dealerBj);
      var last := SettleHand(rules, hands[k], dealerTotal, bet * (if hands[k].doubled then 2.0 else 1.0), dealerBj);
      SettleAll(rules, hands[..k + 1], dealerTotal, bet, dealerBj) == (before.0 + last.0, before.1 + [last.1])
  {
    assert hands[..k + 1][..k] == hands[..k];
  }

  /** Outcome k of the settlement is the settlement of hand k at its own stake. */
  lemma {:induction false} SettleAllInHandOrder(rules: Rules, hands: seq<Hand>, dealerTotal: int, bet: real, dealerBj: bool)
    ensures forall k :: 0 <= k < |hands| ==>
      SettleAll(rules, hands, dealerTotal, bet, dealerBj).1[k] ==
      SettleHand(rules, hands[k], dealerTotal, HandBet(bet, hands[k]), dealerBj).1
    decreases |hands|
  {
    if hands != [] {
      var init := hands[..|hands| - 1];
      SettleAllInHandOrder(rules, init, dealerTotal, bet, dealerBj);
      assert forall k :: 0 <= k < |init| ==> init[k] == hands[k];
    }
  }

  /** The profit of one hand at its own stake. */
  function HandProfit(rules: Rules, h: Hand, dealerTotal: int, bet: real, dealerBj: bool): real {
    SettleHand(rules, h, dealerTotal, HandBet(bet, h), dealerBj).0
  }

  /** The hands' profits added up from the first hand on. */
  function TotalProfit(rules: Rules, hands: seq<Hand>, dealerTotal: int, bet: real, dealerBj: bool): real {
    if hands == [] then 0.0
    else HandProfit(rules, hands[0], dealerTotal, bet, dealerBj) + TotalProfit(rules, hands[1..], dealerTotal, bet, dealerBj)
  }

  lemma {:induction false} TotalProfitAppend(rules: Rules, hands: seq<Hand>, h: Hand, dealerTotal: int, bet: real, dealerBj: bool)
    ensures TotalProfit(rules, hands + [h], dealerTotal, bet, dealerBj) ==
      TotalProfit(rules, hands, dealerTotal, bet, dealerBj) + HandProfit(rules, h, dealerTotal, bet, dealerBj)
    decreases |hands|
  {
    if hands == [] {
      assert ([] + [h])[1..] == [];
    } else {
      assert (hands + [h])[1..] == hands[1..] + [h];
      TotalProfitAppend(rules, hands[1..], h, dealerTotal, bet, dealerBj);
    }
  }

  /** The round's profit is the sum of every hand's profit, each at its own
      stake (twice the bet on a doubled hand). */
  lemma {:induction false} SettleAllProfit(rules: Rules, hands: seq<Hand>, dealerTotal: int, bet: real, dealerBj: bool)
    ensures SettleAll(rules, hands, dealerTotal, bet, dealerBj).0 == TotalProfit(rules, hands, dealerTotal, bet, dealerBj)
    decreases |hands|
  {
    if hands != [] {
      var init, last := hands[..|hands| - 1], hands[|hands| - 1];
      SettleAllProfit(rules, init, dealerTotal, bet, dealerBj);
      assert init + [last] == hands;
      TotalProfitAppend(rules, init, last, dealerTotal, bet, dealerBj);
    }
  }

  /** The round's label: BJ if any hand is BJ, else WIN if any hand wins, else
      LOSE if any hand loses, else PUSH. */
  function AggregateOutcome(outcomes: seq<Outcome>): (o: Outcome)
    ensures o == Blackjack <==> Blackjack in outcomes
    ensures o == Win <==> Blackjack !in outcomes && Win in outcomes
    ensures o == Lose <==> Blackjack !in outcomes && Win !in outcomes && Lose in outcomes
    ensures o == Push <==> Blackjack !in outcomes && Win !in outcomes && Lose !in outcomes
  {
    var o1 := if Lose in outcomes && Win !in outcomes && Blackjack !in outcomes then Lose else Push;
    var o2 := if Win in outcomes then Win else o1;
    if Blackjack in outcomes then Blackjack else o2
  }

  /** A pushed hand beside a losing one labels the round LOSE. */
  lemma MixedPushAndLoseIsLose()
    ensures AggregateOutcome([Push, Lose]) == Lose
    ensures AggregateOutcome([Lose, Push]) == Lose
    ensures AggregateOutcome([Win, Lose]) == Win
  {
  }

  /** A round labelled PUSH made exactly nothing, and a round labelled LOSE
      lost money, whatever the number of hands. */
  lemma {:induction false} LabelledProfit(rules: Rules, hands: seq<Hand>, dealerTotal: int, bet: real, dealerBj: bool)
    requires bet > 0.0
    ensures var (p, outs) := SettleAll(rules, hands, dealerTotal, bet, dealerBj);
      && (Win !in outs && Blackjack !in outs ==> p <= 0.0)
      && (Win !in outs && Blackjack !in outs && Lose in outs ==> p < 0.0)
      && (AggregateOutcome(outs) == Push ==> p == 0.0)
      && (AggregateOutcome(outs) == Lose ==> p < 0.0)
    decreases |hands|
  {
    if hands != [] {
      LabelledProfit(rules, hands[..|hands| - 1], dealerTotal, bet, dealerBj);
      var (p, outs) := SettleAll(rules, hands[..|hands| - 1], dealerTotal, bet, dealerBj);
      var h := hands[|hands| - 1];
      var (q, o) := SettleHand(rules, h, dealerTotal, HandBet(bet, h), dealerBj);
      assert HandBet(bet, h) > 0.0;
      assert SettleAll(rules, hands, dealerTotal, bet, dealerBj).1 == outs + [o];
      assert forall x :: x in outs + [o] <==> x in outs || x == o;
    }
  }

  // ---------------------------------------------------------------------
  // The round
  // ---------------------------------------------------------------------

  datatype RoundResult = RoundResult(profit: real, bet: real, outcome: Outcome, dealerTotal: int, playerHands: int)

  /** What the round reports besides its result: the dealer's first two
      cards, every player hand's cards, the trace, the cards left in the
      shoe and whether it was reshuffled. */
  datatype Payload = Payload(
    dealerCards: seq<Card>,
    playerHands: seq<seq<Card>>,
    trace: seq<Event>,
    shoeRemaining: int,
    reshuffle: bool)

  /** A completed round: result and payload, and for reasoning the final
      hands, the dealer's final cards and the shoe cursor. */
  datatype Round = Round(result: RoundResult, payload: Payload, hands: seq<Hand>, dealer: seq<Card>, pos: nat)

  function HandCards(hands: seq<Hand>): (r: seq<seq<Card>>)
    ensures |r| == |hands|
    ensures forall k :: 0 <= k < |hands| ==> r[k] == hands[k].cards
  {
    seq(|hands|, k requires 0 <= k < |hands| => hands[k].cards)
  }

  /** The trace of the initial deal; the dealer's second card is face down. */
  function DealTrace(reshuffled: bool, p1: Card, d1: Card, p2: Card): seq<Event> {
    (if reshuffled then [Shuffled] else []) +
      [Dealt(ToPlayer, FaceUp(p1)), Dealt(ToDealer, FaceUp(d1)), Dealt(ToPlayer, FaceUp(p2)), Dealt(ToDealer, FaceDown)]
  }

  /** The pass-over-hands state right after the initial deal. */
  function StartTable(cards: seq<Card>, pos: nat, reshuffled: bool): Table
    requires pos + 4 <= |cards|
  {
    Table([NewHand([cards[pos], cards[pos + 2]])], 0, false, 0, pos + 4,
      DealTrace(reshuffled, cards[pos], cards[pos + 1], cards[pos + 2]))
  }

  /** The end of a round once the hands are played: reveal the hole card,
      play the dealer, settle every hand and label the round. */
  function FinishRound(rules: Rules, cards: seq<Card>, d1: Card, d2: Card, t: Table, bet: real, reshuffled: bool): (r: Result<Round, Failure>)
    requires t.pos <= |cards|
    ensures r.Success? ==> t.pos <= r.value.pos <= |cards|
  {
    var dealerBj := IsBlackjack([d1, d2]);
    match DealerRun(rules, cards, [d1, d2], t.pos, t.trace + [Reveal(d2)])
    case Failure(e) => Failure(e)
    case Success(e) =>
      var dealerTotal := HandTotal(e.dealer);
      var (profit, outcomes) := SettleAll(rules, t.hands, dealerTotal, bet, dealerBj);
      var outcome := AggregateOutcome(outcomes);
      Success(Round(
        RoundResult(profit, bet, outcome, dealerTotal, |t.hands|),
        Payload([d1, d2], HandCards(t.hands), e.trace + [Settled(outcome, profit)], |cards| - e.pos, reshuffled),
        t.hands, e.dealer, e.pos))
  }

  /** One round played from shoe position `pos` (after the reshuffle check):
      deal player, dealer, player, dealer; play every hand; then finish. */
  function PlayRound(rules: Rules, cards: seq<Card>, pos: nat, reshuffled: bool, bet: real): (r: Result<Round, Failure>)
    requires pos <= |cards|
    ensures r.Success? ==> pos + 4 <= r.value.pos <= |cards|
  {
    if pos + 4 > |cards| then Failure(ShoeExhausted)
    else
      match PlayHands(rules, cards, cards[pos + 1], StartTable(cards, pos, reshuffled))
      case Failure(e) => Failure(e)
      case Success(t) => FinishRound(rules, cards, cards[pos + 1], cards[pos + 3], t, bet, reshuffled)
  }
}
