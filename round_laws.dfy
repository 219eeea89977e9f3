/** What the pass over the hands and the whole round guarantee: the split
    budget, the shape of doubled and split-aces hands, that no hand is acted on
    at 21 or more, that every dealt card ends in exactly one hand, and that the
    trace names every dealt card in dealing order. */
module RoundLaws {
  import opened Cards
  import opened Hands
  import opened Strategy
  import opened Wrappers
  import opened Rounds

  // ---------------------------------------------------------------------
  // Shape of the hands
  // ---------------------------------------------------------------------

  /** Every card beyond the second was drawn while the hand stood below 21. */
  predicate GrewBelow21(cards: seq<Card>) {
    forall m :: 2 <= m < |cards| ==> HandTotal(cards[..m]) < 21
  }

  /** Why a played hand stopped: doubled, reached 21 or more, the table said
      stand, or it is a split-aces hand frozen at two cards. */
  predicate Finished(h: Hand, up: Card) {
    h.doubled || HandTotal(h.cards) >= 21 || BasicStrategy(h.cards, up) == Stand ||
    (h.isSplitAces && |h.cards| == 2)
  }

  /** The facts kept about hand `k` during the pass. */
  predicate HandOk(t: Table, k: nat, up: Card)
    requires k < |t.hands|
  {
    var h := t.hands[k];
    && |h.cards| >= 2
    && (h.doubled ==> |h.cards| == 3 && k < t.i)
    && (k >= 1 && h.isSplitAces ==> |h.cards| == 2)
    && (k >= 1 && !h.isSplitAces ==> h.cards[0].Value() != 1)
    && GrewBelow21(h.cards)
    && (k < t.i ==> Finished(h, up))
  }

  /** The invariant of the pass over the hands. */
  predicate Shape(rules: Rules, up: Card, t: Table) {
    && 1 <= |t.hands|
    && t.i <= |t.hands|
    && |t.hands| == t.splitCount + 1
    && (t.splitCount == 0 || t.splitCount <= rules.maxSplits)
    && (t.entered ==> t.i < |t.hands| && (t.i >= 1 ==> !t.hands[t.i].isSplitAces))
    && (t.i == 0 && !t.entered ==> !t.hands[0].isSplitAces)
    && forall k :: 0 <= k < |t.hands| ==> HandOk(t, k, up)
  }

  lemma GrewBelow21Append(cards: seq<Card>, c: Card)
    requires GrewBelow21(cards) && HandTotal(cards) < 21
    ensures GrewBelow21(cards + [c])
  {
    var s := cards + [c];
    forall m | 2 <= m < |s|
      ensures HandTotal(s[..m]) < 21
    {
      assert s[..m] == cards[..m];
      if m == |cards| {
        assert cards[..m] == cards;
      }
    }
  }

  lemma StartShape(rules: Rules, cards: seq<Card>, pos: nat, reshuffled: bool)
    requires pos + 4 <= |cards|
    ensures Shape(rules, cards[pos + 1], StartTable(cards, pos, reshuffled))
  {
    var t := StartTable(cards, pos, reshuffled);
    assert HandOk(t, 0, cards[pos + 1]);
  }

  lemma VisitShape(rules: Rules, up: Card, t: Table)
    requires Shape(rules, up, t) && t.i < |t.hands| && !t.entered
    ensures Shape(rules, up, Visit(t))
  {
    var t2 := Visit(t);
    assert HandOk(t, t.i, up);
    forall k | 0 <= k < |t2.hands|
      ensures HandOk(t2, k, up)
    {
      assert HandOk(t, k, up);
    }
  }

  /** The hand is left as it is and the pass moves on. */
  lemma MoveOnShape(rules: Rules, up: Card, t: Table, t2: Table)
    requires Shape(rules, up, t) && t.entered
    requires Finished(t.hands[t.i], up)
    requires t2.hands == t.hands && t2.i == t.i + 1 && !t2.entered && t2.splitCount == t.splitCount
    ensures Shape(rules, up, t2)
  {
    forall k | 0 <= k < |t2.hands|
      ensures HandOk(t2, k, up)
    {
      assert HandOk(t, k, up);
    }
  }

  lemma HitShape(rules: Rules, up: Card, t: Table, c: Card, t2: Table)
    requires Shape(rules, up, t) && t.entered
    requires HandTotal(t.hands[t.i].cards) < 21
    requires var h := t.hands[t.i];
      t2.hands == t.hands[t.i := h.(cards := h.cards + [c])] && t2.i == t.i && t2.entered && t2.splitCount == t.splitCount
    ensures Shape(rules, up, t2)
  {
    var h := t.hands[t.i];
    assert HandOk(t, t.i, up);
    forall k | 0 <= k < |t2.hands|
      ensures HandOk(t2, k, up)
    {
      assert HandOk(t, k, up);
      if k == t.i {
        GrewBelow21Append(h.cards, c);
      }
    }
  }

  lemma DoubleShape(rules: Rules, up: Card, t: Table, c: Card, t2: Table)
    requires Shape(rules, up, t) && t.entered
    requires HandTotal(t.hands[t.i].cards) < 21 && |t.hands[t.i].cards| == 2
    requires var h := t.hands[t.i];
      t2.hands == t.hands[t.i := h.(doubled := true, cards := h.cards + [c])] &&
      t2.i == t.i + 1 && !t2.entered && t2.splitCount == t.splitCount
    ensures Shape(rules, up, t2)
  {
    var h := t.hands[t.i];
    forall k | 0 <= k < |t2.hands|
      ensures HandOk(t2, k, up)
    {
      assert HandOk(t, k, up);
      if k == t.i {
        GrewBelow21Append(h.cards, c);
      }
    }
  }

  lemma SplitShape(rules: Rules, up: Card, t: Table, x: Card, y: Card, t2: Table)
    requires Shape(rules, up, t) && t.entered
    requires t.splitCount < rules.maxSplits && IsPair(t.hands[t.i].cards)
    requires var h := t.hands[t.i];
      var aces := h.cards[0].Value() == 1;
      var kept := h.(cards := [h.cards[0], x], isSplitAces := aces || h.isSplitAces);
      var added := Hand([h.cards[1], y], false, aces);
      t2.hands == t.hands[t.i := kept] + [added] && t2.i == t.i && t2.entered && t2.splitCount == t.splitCount + 1
    ensures Shape(rules, up, t2)
  {
    assert HandOk(t, t.i, up);
    forall k | 0 <= k < |t2.hands|
      ensures HandOk(t2, k, up)
    {
      if k < |t.hands| {
        assert HandOk(t, k, up);
      }
    }
  }

  /** Every step keeps the invariant of the pass. */
  lemma StepShape(rules: Rules, cards: seq<Card>, up: Card, t: Table)
    requires Shape(rules, up, t) && t.i < |t.hands| && t.pos <= |cards|
    ensures Step(rules, cards, up, t).Success? ==> Shape(rules, up, Step(rules, cards, up, t).value)
  {
    if !t.entered {
      VisitShape(rules, up, t);
    } else {
      var h := t.hands[t.i];
      assert HandOk(t, t.i, up);
      if HandTotal(h.cards) >= 21 {
        MoveOnShape(rules, up, t, t.(i := t.i + 1, entered := false));
      } else {
        var action := BasicStrategy(h.cards, up);
        match Resolve(action, h, t.splitCount, rules.maxSplits)
        case SplitMove =>
          if t.pos + 2 <= |cards| {
            SplitShape(rules, up, t, cards[t.pos], cards[t.pos + 1], Step(rules, cards, up, t).value);
          }
        case DoubleMove =>
          if t.pos < |cards| {
            DoubleShape(rules, up, t, cards[t.pos], Step(rules, cards, up, t).value);
          }
        case StandMove =>
          MoveOnShape(rules, up, t, t.(i := t.i + 1, entered := false, trace := t.trace + [PlayerStand(t.i + 1)]));
        case HitMove =>
          if t.pos < |cards| {
            HitShape(rules, up, t, cards[t.pos], Step(rules, cards, up, t).value);
          }
      }
    }
  }

  /** The whole pass keeps the invariant. */
  lemma {:induction false} PlayHandsShape(rules: Rules, cards: seq<Card>, up: Card, t: Table)
    requires Shape(rules, up, t) && t.pos <= |cards|
    ensures PlayHands(rules, cards, up, t).Success? ==> Shape(rules, up, PlayHands(rules, cards, up, t).value)
    decreases |cards| - t.pos, |t.hands| - t.i, if t.entered then 0 else 1
  {
    if t.i < |t.hands| {
      StepShape(rules, cards, up, t);
      match Step(rules, cards, up, t)
      case Failure(_) =>
      case Success(t2) =>
        PlayHandsShape(rules, cards, up, t2);
    }
  }

  // ---------------------------------------------------------------------
  // Cards and trace
  // ---------------------------------------------------------------------

  /** All cards held by the hands. */
  function AllCards(hands: seq<Hand>): multiset<Card> {
    if hands == [] then multiset{} else AllCards(hands[..|hands| - 1]) + multiset(hands[|hands| - 1].cards)
  }

  lemma {:induction false} AllCardsUpdate(hands: seq<Hand>, k: nat, h: Hand)
    requires k < |hands|
    ensures AllCards(hands[k := h]) + multiset(hands[k].cards) == AllCards(hands) + multiset(h.cards)
    decreases |hands|
  {
    var n := |hands| - 1;
    var hs := hands[k := h];
    assert |hs| == |hands|;
    if k < n {
      assert hs[..n] == hands[..n][k := h];
      assert hs[n] == hands[n];
      assert hands[..n][k] == hands[k];
      AllCardsUpdate(hands[..n], k, h);
      calc {
        AllCards(hs) + multiset(hands[k].cards);
        AllCards(hs[..n]) + multiset(hands[n].cards) + multiset(hands[k].cards);
        AllCards(hands[..n][k := h]) + multiset(hands[..n][k].cards) + multiset(hands[n].cards);
        AllCards(hands[..n]) + multiset(h.cards) + multiset(hands[n].cards);
        AllCards(hands) + multiset(h.cards);
      }
    } else {
      assert hs[..n] == hands[..n];
      assert hs[n] == h;
    }
  }

  lemma Cancel(a: multiset<Card>, b: multiset<Card>, x: multiset<Card>, y: multiset<Card>)
    requires a + x == b + y + x
    ensures a == b + y
  {
    forall z
      ensures a[z] == (b + y)[z]
    {
      assert (a + x)[z] == (b + y + x)[z];
    }
  }

  lemma FourCards(h0: Card, h1: Card, x: Card, y: Card)
    ensures multiset([h0, x]) + multiset([h1, y]) == multiset([h0, h1]) + multiset([x, y])
  {
  }

  /** The multiset bookkeeping of a split, count by count. */
  lemma SplitArith(before: multiset<Card>, mid: multiset<Card>, after: multiset<Card>,
                   mh: multiset<Card>, mk: multiset<Card>, ma: multiset<Card>, mxy: multiset<Card>)
    requires mid + mh == before + mk && after == mid + ma && mk + ma == mh + mxy
    ensures after == before + mxy
  {
    forall z
      ensures after[z] == (before + mxy)[z]
    {
      assert (mid + mh)[z] == (before + mk)[z];
      assert (mk + ma)[z] == (mh + mxy)[z];
    }
  }

  /** Replacing hand `k` by a hand that holds its cards plus `extra` adds
      `extra` to the cards held. */
  lemma AllCardsGrow(hands: seq<Hand>, k: nat, h: Hand, extra: multiset<Card>)
    requires k < |hands| && multiset(h.cards) == multiset(hands[k].cards) + extra
    ensures AllCards(hands[k := h]) == AllCards(hands) + extra
  {
    AllCardsUpdate(hands, k, h);
    Cancel(AllCards(hands[k := h]), AllCards(hands), multiset(hands[k].cards), extra);
  }

  lemma AllCardsAppend(hands: seq<Hand>, h: Hand)
    ensures AllCards(hands + [h]) == AllCards(hands) + multiset(h.cards)
  {
    assert (hands + [h])[..|hands|] == hands;
  }

  /** The cards a trace record shows; the face-down card is `hole`. */
  function EventCards(e: Event, hole: Card): seq<Card> {
    match e
    case Dealt(_, FaceUp(c)) => [c]
    case Dealt(_, FaceDown) => [hole]
    case DealerHit(c) => [c]
    case _ => []
  }

  /** The dealt cards a trace names, in order, reading the face-down card as
      `hole`. */
  function DrawnCards(trace: seq<Event>, hole: Card): seq<Card> {
    if trace == [] then [] else DrawnCards(trace[..|trace| - 1], hole) + EventCards(trace[|trace| - 1], hole)
  }

  lemma {:induction false} DrawnCardsAppend(a: seq<Event>, b: seq<Event>, hole: Card)
    ensures DrawnCards(a + b, hole) == DrawnCards(a, hole) + DrawnCards(b, hole)
    decreases |b|
  {
    if b == [] {
      assert a + b == a;
    } else {
      assert (a + b)[..|a + b| - 1] == a + b[..|b| - 1];
      DrawnCardsAppend(a, b[..|b| - 1], hole);
    }
  }

  lemma {:induction false} DrawnDealerHits(drawn: seq<Card>, hole: Card)
    ensures DrawnCards(DealerHits(drawn), hole) == drawn
    decreases |drawn|
  {
    if drawn != [] {
      var init := drawn[..|drawn| - 1];
      DrawnDealerHits(init, hole);
      DrawnCardsAppend(DealerHits(init), [DealerHit(drawn[|drawn| - 1])], hole);
      assert [DealerHit(drawn[|drawn| - 1])][..0] == [];
    }
  }

  /** Since `pos0`, the hands gained exactly the cards drawn from the shoe,
      and the trace names exactly those cards in order. */
  predicate Conserves(cards: seq<Card>, pos0: nat, base: multiset<Card>, baseTrace: seq<Event>, hole: Card, t: Table)
  {
    && pos0 <= t.pos <= |cards|
    && AllCards(t.hands) == base + multiset(cards[pos0..t.pos])
    && |baseTrace| <= |t.trace|
    && t.trace[..|baseTrace|] == baseTrace
    && DrawnCards(t.trace, hole) == DrawnCards(baseTrace, hole) + cards[pos0..t.pos]
  }

  lemma SliceSplit(s: seq<Card>, a: nat, b: nat, c: nat)
    requires a <= b <= c <= |s|
    ensures s[a..c] == s[a..b] + s[b..c]
  {
  }

  lemma HandsGrow(h1: multiset<Card>, h2: multiset<Card>, base: multiset<Card>, m: seq<Card>, d: seq<Card>)
    requires h1 == base + multiset(m) && h2 == h1 + multiset(d)
    ensures h2 == base + multiset(m + d)
  {
    assert multiset(m + d) == multiset(m) + multiset(d);
  }

  lemma TraceGrow(trace: seq<Event>, evs: seq<Event>, hole: Card, prior: seq<Card>, m: seq<Card>, d: seq<Card>)
    requires DrawnCards(trace, hole) == prior + m && DrawnCards(evs, hole) == d
    ensures DrawnCards(trace + evs, hole) == prior + (m + d)
  {
    DrawnCardsAppend(trace, evs, hole);
  }

  lemma PrefixKept(trace: seq<Event>, evs: seq<Event>, prefix: seq<Event>)
    requires |prefix| <= |trace| && trace[..|prefix|] == prefix
    ensures (trace + evs)[..|prefix|] == prefix
  {
    assert (trace + evs)[..|prefix|] == trace[..|prefix|];
  }

  /** A step that draws `drawn` into the hands and records `evs`, which name
      exactly those cards, keeps the conservation facts. */
  lemma DrawConserves(cards: seq<Card>, pos0: nat, base: multiset<Card>, baseTrace: seq<Event>, hole: Card,
                      t: Table, t2: Table, drawn: seq<Card>, evs: seq<Event>)
    requires Conserves(cards, pos0, base, baseTrace, hole, t)
    requires t2.pos == t.pos + |drawn| <= |cards| && cards[t.pos..t2.pos] == drawn
    requires AllCards(t2.hands) == AllCards(t.hands) + multiset(drawn)
    requires t2.trace == t.trace + evs && DrawnCards(evs, hole) == drawn
    ensures Conserves(cards, pos0, base, baseTrace, hole, t2)
  {
    var m := cards[pos0..t.pos];
    assert cards[pos0..t2.pos] == m + drawn by {
      SliceSplit(cards, pos0, t.pos, t2.pos);
    }
    assert AllCards(t2.hands) == base + multiset(m + drawn) by {
      HandsGrow(AllCards(t.hands), AllCards(t2.hands), base, m, drawn);
    }
    assert DrawnCards(t2.trace, hole) == DrawnCards(baseTrace, hole) + (m + drawn) by {
      TraceGrow(t.trace, evs, hole, DrawnCards(baseTrace, hole), m, drawn);
    }
    assert t2.trace[..|baseTrace|] == baseTrace by {
      PrefixKept(t.trace, evs, baseTrace);
    }
  }

  lemma DrawnTwo(e0: Event, e1: Event, hole: Card)
    ensures DrawnCards([e0, e1], hole) == EventCards(e0, hole) + EventCards(e1, hole)
  {
    assert [e0, e1][..1] == [e0];
    assert [e0][..0] == [];
    assert DrawnCards([e0], hole) == DrawnCards([], hole) + EventCards(e0, hole);
    assert DrawnCards([e0, e1], hole) == DrawnCards([e0], hole) + EventCards(e1, hole);
  }

  lemma DrawnThree(e0: Event, e1: Event, e2: Event, hole: Card)
    ensures DrawnCards([e0, e1, e2], hole) == EventCards(e0, hole) + EventCards(e1, hole) + EventCards(e2, hole)
  {
    assert [e0, e1, e2][..2] == [e0, e1];
    DrawnTwo(e0, e1, hole);
  }

  /** Splitting hand `k` and drawing `x` and `y` onto its halves adds just
      `x` and `y` to the cards held. */
  lemma SplitCards(hands: seq<Hand>, k: nat, kept: Hand, added: Hand, x: Card, y: Card)
    requires k < |hands| && |hands[k].cards| == 2
    requires kept.cards == [hands[k].cards[0], x] && added.cards == [hands[k].cards[1], y]
    ensures AllCards(hands[k := kept] + [added]) == AllCards(hands) + multiset([x, y])
  {
    var h := hands[k];
    var hs := hands[k := kept];
    var before, mid, after := AllCards(hands), AllCards(hs), AllCards(hs + [added]);
    var mh, mk, ma, mxy := multiset(h.cards), multiset(kept.cards), multiset(added.cards), multiset([x, y]);
    assert mid + mh == before + mk by {
      AllCardsUpdate(hands, k, kept);
    }
    assert after == mid + ma by {
      AllCardsAppend(hs, added);
    }
    assert mk + ma == mh + mxy by {
      assert h.cards == [h.cards[0], h.cards[1]];
      FourCards(h.cards[0], h.cards[1], x, y);
    }
    SplitArith(before, mid, after, mh, mk, ma, mxy);
  }

  lemma SliceOne(s: seq<Card>, a: nat)
    requires a < |s|
    ensures s[a..a + 1] == [s[a]]
  {
  }

  lemma SliceTwo(s: seq<Card>, a: nat)
    requires a + 2 <= |s|
    ensures s[a..a + 2] == [s[a], s[a + 1]]
  {
  }

  lemma SplitDrawn(evs: seq<Event>, x: Card, y: Card, n: nat, m: nat, hole: Card)
    requires evs == [PlayerSplit, Dealt(ToHand(n), FaceUp(x)), Dealt(ToHand(m), FaceUp(y))]
    ensures DrawnCards(evs, hole) == [x, y]
  {
    DrawnThree(evs[0], evs[1], evs[2], hole);
  }

  /** A split draws one card onto each of the two halves of the pair. */
  lemma SplitConserves(cards: seq<Card>, t: Table, t2: Table, kept: Hand, added: Hand, pos0: nat, base: multiset<Card>, baseTrace: seq<Event>, hole: Card)
    requires t.i < |t.hands| && t.pos + 2 <= |cards| && |t.hands[t.i].cards| == 2
    requires Conserves(cards, pos0, base, baseTrace, hole, t)
    requires kept.cards == [t.hands[t.i].cards[0], cards[t.pos]]
    requires added.cards == [t.hands[t.i].cards[1], cards[t.pos + 1]]
    requires t2.hands == t.hands[t.i := kept] + [added] && t2.pos == t.pos + 2
    requires t2.trace == t.trace + [PlayerSplit, Dealt(ToHand(t.i + 1), FaceUp(cards[t.pos])), Dealt(ToHand(|t.hands| + 1), FaceUp(cards[t.pos + 1]))]
    ensures Conserves(cards, pos0, base, baseTrace, hole, t2)
  {
    var x, y := cards[t.pos], cards[t.pos + 1];
    var evs := [PlayerSplit, Dealt(ToHand(t.i + 1), FaceUp(x)), Dealt(ToHand(|t.hands| + 1), FaceUp(y))];
    assert DrawnCards(evs, hole) == [x, y] by {
      SplitDrawn(evs, x, y, t.i + 1, |t.hands| + 1, hole);
    }
    assert cards[t.pos..t2.pos] == [x, y] by {
      SliceTwo(cards, t.pos);
    }
    assert AllCards(t2.hands) == AllCards(t.hands) + multiset([x, y]) by {
      SplitCards(t.hands, t.i, kept, added, x, y);
    }
    DrawConserves(cards, pos0, base, baseTrace, hole, t, t2, [x, y], evs);
  }

  /** A hit or a double draws one card onto the hand. */
  lemma OneCardConserves(cards: seq<Card>, t: Table, t2: Table, h2: Hand, e: Event, pos0: nat, base: multiset<Card>, baseTrace: seq<Event>, hole: Card)
    requires t.i < |t.hands| && t.pos < |cards|
    requires Conserves(cards, pos0, base, baseTrace, hole, t)
    requires h2.cards == t.hands[t.i].cards + [cards[t.pos]]
    requires EventCards(e, hole) == []
    requires t2.hands == t.hands[t.i := h2] && t2.pos == t.pos + 1
    requires t2.trace == t.trace + [e, Dealt(ToHand(t.i + 1), FaceUp(cards[t.pos]))]
    ensures Conserves(cards, pos0, base, baseTrace, hole, t2)
  {
    var c := cards[t.pos];
    var evs := [e, Dealt(ToHand(t.i + 1), FaceUp(c))];
    assert cards[t.pos..t2.pos] == [c] by {
      SliceOne(cards, t.pos);
    }
    assert AllCards(t2.hands) == AllCards(t.hands) + multiset([c]) by {
      AllCardsGrow(t.hands, t.i, h2, multiset([c]));
    }
    assert DrawnCards(evs, hole) == [c] by {
      DrawnTwo(e, Dealt(ToHand(t.i + 1), FaceUp(c)), hole);
    }
    DrawConserves(cards, pos0, base, baseTrace, hole, t, t2, [c], evs);
  }

  lemma StepConserves(rules: Rules, cards: seq<Card>, up: Card, t: Table, pos0: nat, base: multiset<Card>, baseTrace: seq<Event>, hole: Card)
    requires t.i < |t.hands| && t.pos <= |cards|
    requires Conserves(cards, pos0, base, baseTrace, hole, t)
    ensures Step(rules, cards, up, t).Success? ==> Conserves(cards, pos0, base, baseTrace, hole, Step(rules, cards, up, t).value)
  {
    if t.entered && HandTotal(t.hands[t.i].cards) < 21 {
      var h := t.hands[t.i];
      match Resolve(BasicStrategy(h.cards, up), h, t.splitCount, rules.maxSplits)
      case SplitMove => SplitStepConserves(rules, cards, up, t, pos0, base, baseTrace, hole);
      case DoubleMove => DoubleStepConserves(rules, cards, up, t, pos0, base, baseTrace, hole);
      case HitMove => HitStepConserves(rules, cards, up, t, pos0, base, baseTrace, hole);
      case StandMove => StandStepConserves(rules, cards, up, t, pos0, base, baseTrace, hole);
    }
  }

  lemma SplitStepConserves(rules: Rules, cards: seq<Card>, up: Card, t: Table, pos0: nat, base: multiset<Card>, baseTrace: seq<Event>, hole: Card)
    requires t.i < |t.hands| && t.pos <= |cards| && t.entered && HandTotal(t.hands[t.i].cards) < 21
    requires Conserves(cards, pos0, base, baseTrace, hole, t)
    requires Resolve(BasicStrategy(t.hands[t.i].cards, up), t.hands[t.i], t.splitCount, rules.maxSplits) == SplitMove
    ensures Step(rules, cards, up, t).Success? ==> Conserves(cards, pos0, base, baseTrace, hole, Step(rules, cards, up, t).value)
  {
    var h := t.hands[t.i];
    var num := t.i + 1;
    if t.pos + 2 <= |cards| {
      var x, y := cards[t.pos], cards[t.pos + 1];
      var aces := h.cards[0].Value() == 1;
      var kept := h.(cards := [h.cards[0], x], isSplitAces := aces || h.isSplitAces);
      var added := Hand([h.cards[1], y], false, aces);
      var t2 := Table(t.hands[t.i := kept] + [added], t.i, true, t.splitCount + 1, t.pos + 2,
        t.trace + [PlayerSplit, Dealt(ToHand(num), FaceUp(x)), Dealt(ToHand(|t.hands| + 1), FaceUp(y))]);
      assert Step(rules, cards, up, t) == Success(t2);
      SplitConserves(cards, t, t2, kept, added, pos0, base, baseTrace, hole);
    }
  }

  lemma DoubleStepConserves(rules: Rules, cards: seq<Card>, up: Card, t: Table, pos0: nat, base: multiset<Card>, baseTrace: seq<Event>, hole: Card)
    requires t.i < |t.hands| && t.pos <= |cards| && t.entered && HandTotal(t.hands[t.i].cards) < 21
    requires Conserves(cards, pos0, base, baseTrace, hole, t)
    requires Resolve(BasicStrategy(t.hands[t.i].cards, up), t.hands[t.i], t.splitCount, rules.maxSplits) == DoubleMove
    ensures Step(rules, cards, up, t).Success? ==> Conserves(cards, pos0, base, baseTrace, hole, Step(rules, cards, up, t).value)
  {
    var h := t.hands[t.i];
    var num := t.i + 1;
    if t.pos < |cards| {
      var c := cards[t.pos];
      var h2 := h.(doubled := true, cards := h.cards + [c]);
      var t2 := t.(hands := t.hands[t.i := h2], i := t.i + 1, entered := false, pos := t.pos + 1,
        trace := t.trace + [PlayerDouble(num), Dealt(ToHand(num), FaceUp(c))]);
      assert Step(rules, cards, up, t) == Success(t2);
      OneCardConserves(cards, t, t2, h2, PlayerDouble(num), pos0, base, baseTrace, hole);
    }
  }

  lemma HitStepConserves(rules: Rules, cards: seq<Card>, up: Card, t: Table, pos0: nat, base: multiset<Card>, baseTrace: seq<Event>, hole: Card)
    requires t.i < |t.hands| && t.pos <= |cards| && t.entered && HandTotal(t.hands[t.i].cards) < 21
    requires Conserves(cards, pos0, base, baseTrace, hole, t)
    requires Resolve(BasicStrategy(t.hands[t.i].cards, up), t.hands[t.i], t.splitCount, rules.maxSplits) == HitMove
    ensures Step(rules, cards, up, t).Success? ==> Conserves(cards, pos0, base, baseTrace, hole, Step(rules, cards, up, t).value)
  {
    var h := t.hands[t.i];
    var num := t.i + 1;
    if t.pos < |cards| {
      var c := cards[t.pos];
      var h2 := h.(cards := h.cards + [c]);
      var t2 := t.(hands := t.hands[t.i := h2], entered := true, pos := t.pos + 1,
        trace := t.trace + [PlayerHit(num), Dealt(ToHand(num), FaceUp(c))]);
      assert Step(rules, cards, up, t) == Success(t2);
      OneCardConserves(cards, t, t2, h2, PlayerHit(num), pos0, base, baseTrace, hole);
    }
  }

  lemma StandStepConserves(rules: Rules, cards: seq<Card>, up: Card, t: Table, pos0: nat, base: multiset<Card>, baseTrace: seq<Event>, hole: Card)
    requires t.i < |t.hands| && t.pos <= |cards| && t.entered && HandTotal(t.hands[t.i].cards) < 21
    requires Conserves(cards, pos0, base, baseTrace, hole, t)
    requires Resolve(BasicStrategy(t.hands[t.i].cards, up), t.hands[t.i], t.splitCount, rules.maxSplits) == StandMove
    ensures Step(rules, cards, up, t).Success? ==> Conserves(cards, pos0, base, baseTrace, hole, Step(rules, cards, up, t).value)
  {
    var h := t.hands[t.i];
    var num := t.i + 1;
    var t2 := t.(i := t.i + 1, entered := false, trace := t.trace + [PlayerStand(num)]);
    assert Step(rules, cards, up, t) == Success(t2);
    DrawConserves(cards, pos0, base, baseTrace, hole, t, t2, [], [PlayerStand(num)]);
  }

  lemma {:induction false} PlayHandsConserves(rules: Rules, cards: seq<Card>, up: Card, t: Table, pos0: nat, base: multiset<Card>, baseTrace: seq<Event>, hole: Card)
    requires t.i <= |t.hands| && t.pos <= |cards|
    requires Conserves(cards, pos0, base, baseTrace, hole, t)
    ensures PlayHands(rules, cards, up, t).Success? ==>
      Conserves(cards, pos0, base, baseTrace, hole, PlayHands(rules, cards, up, t).value)
    decreases |cards| - t.pos, |t.hands| - t.i, if t.entered then 0 else 1
  {
    if t.i < |t.hands| {
      StepConserves(rules, cards, up, t, pos0, base, baseTrace, hole);
      match Step(rules, cards, up, t)
      case Failure(_) =>
      case Success(t2) =>
        PlayHandsConserves(rules, cards, up, t2, pos0, base, baseTrace, hole);
    }
  }

  // ---------------------------------------------------------------------
  // The round
  // ---------------------------------------------------------------------

  lemma DrawnOne(e: Event, hole: Card)
    ensures DrawnCards([e], hole) == EventCards(e, hole)
  {
    assert [e][..0] == [];
  }

  /** The initial deal names the first four cards, the hole card included. */
  lemma DrawnDealTrace(cards: seq<Card>, pos: nat, reshuffled: bool)
    requires pos + 4 <= |cards|
    ensures DrawnCards(DealTrace(reshuffled, cards[pos], cards[pos + 1], cards[pos + 2]), cards[pos + 3]) == cards[pos..pos + 4]
  {
    var hole := cards[pos + 3];
    var head: seq<Event> := if reshuffled then [Shuffled] else [];
    var e0, e1 := Dealt(ToPlayer, FaceUp(cards[pos])), Dealt(ToDealer, FaceUp(cards[pos + 1]));
    var e2, e3 := Dealt(ToPlayer, FaceUp(cards[pos + 2])), Dealt(ToDealer, FaceDown);
    assert DealTrace(reshuffled, cards[pos], cards[pos + 1], cards[pos + 2]) == head + ([e0, e1] + [e2, e3]);
    assert DrawnCards(head, hole) == [] by {
      if reshuffled {
        DrawnOne(Shuffled, hole);
      }
    }
    DrawnTwo(e0, e1, hole);
    DrawnTwo(e2, e3, hole);
    DrawnCardsAppend([e0, e1], [e2, e3], hole);
    DrawnCardsAppend(head, [e0, e1] + [e2, e3], hole);
    assert cards[pos..pos + 4] == [cards[pos], cards[pos + 1], cards[pos + 2], cards[pos + 3]];
  }

  /** The multiset bookkeeping of a round, count by count. */
  lemma RoundArith(hands: multiset<Card>, dealer: multiset<Card>, first: multiset<Card>, mine: multiset<Card>, theirs: multiset<Card>,
                   played: multiset<Card>, drawn: multiset<Card>, all: multiset<Card>)
    requires hands == mine + played && dealer == theirs + drawn
    requires first == mine + theirs && all == first + played + drawn
    ensures hands + dealer == all
  {
    forall z
      ensures (hands + dealer)[z] == all[z]
    {
      assert (mine + theirs)[z] == first[z];
    }
  }

  lemma FirstFour(a: Card, b: Card, c: Card, d: Card)
    ensures multiset([a, b, c, d]) == multiset([a, c]) + multiset([b, d])
  {
  }

  /** The pass over the hands of a round holds the invariant of the pass and
      the conservation facts from the end of the initial deal on. */
  lemma RoundPass(rules: Rules, cards: seq<Card>, pos: nat, reshuffled: bool)
    requires pos + 4 <= |cards|
    ensures var t0 := StartTable(cards, pos, reshuffled);
      var up := cards[pos + 1];
      PlayHands(rules, cards, up, t0).Success? ==>
        var t := PlayHands(rules, cards, up, t0).value;
        && Shape(rules, up, t)
        && Conserves(cards, pos + 4, multiset([cards[pos], cards[pos + 2]]), t0.trace, cards[pos + 3], t)
  {
    var t0 := StartTable(cards, pos, reshuffled);
    var up := cards[pos + 1];
    StartShape(rules, cards, pos, reshuffled);
    PlayHandsShape(rules, cards, up, t0);
    assert AllCards(t0.hands) == multiset([cards[pos], cards[pos + 2]]) by {
      assert t0.hands[..0] == [];
    }
    assert cards[pos + 4..pos + 4] == [];
    assert t0.trace[..|t0.trace|] == t0.trace;
    PlayHandsConserves(rules, cards, up, t0, pos + 4, multiset([cards[pos], cards[pos + 2]]), t0.trace, cards[pos + 3]);
  }

  /** The hands a completed round settles: at most one more than the split
      budget; a doubled hand holds exactly three cards; a hand split from aces
      (other than the first) holds exactly two; every card past the second
      was drawn below 21; and every hand ended for a reason. */
  lemma RoundHands(rules: Rules, cards: seq<Card>, pos: nat, reshuffled: bool, bet: real)
    requires pos <= |cards|
    requires PlayRound(rules, cards, pos, reshuffled, bet).Success?
    ensures var r := PlayRound(rules, cards, pos, reshuffled, bet).value;
      && 1 <= |r.hands| <= (if rules.maxSplits > 0 then rules.maxSplits else 0) + 1
      && r.result.playerHands == |r.hands|
      && r.payload.playerHands == HandCards(r.hands)
      && forall k :: 0 <= k < |r.hands| ==>
        && |r.hands[k].cards| >= 2
        && (r.hands[k].doubled ==> |r.hands[k].cards| == 3)
        && (k >= 1 && r.hands[k].isSplitAces ==> |r.hands[k].cards| == 2)
        && GrewBelow21(r.hands[k].cards)
        && Finished(r.hands[k], cards[pos + 1])
  {
    RoundPass(rules, cards, pos, reshuffled);
    var t := PlayHands(rules, cards, cards[pos + 1], StartTable(cards, pos, reshuffled)).value;
    var r := PlayRound(rules, cards, pos, reshuffled, bet).value;
    assert r.hands == t.hands;
    forall k | 0 <= k < |r.hands|
      ensures && |r.hands[k].cards| >= 2
        && (r.hands[k].doubled ==> |r.hands[k].cards| == 3)
        && (k >= 1 && r.hands[k].isSplitAces ==> |r.hands[k].cards| == 2)
        && GrewBelow21(r.hands[k].cards)
        && Finished(r.hands[k], cards[pos + 1])
    {
      assert HandOk(t, k, cards[pos + 1]);
    }
  }

  /** What a completed round is made of: the pass over the hands and the
      dealer run that follow the initial deal. */
  lemma RoundParts(rules: Rules, cards: seq<Card>, pos: nat, reshuffled: bool, bet: real)
    requires pos <= |cards|
    requires PlayRound(rules, cards, pos, reshuffled, bet).Success?
    ensures pos + 4 <= |cards|
    ensures var t0 := StartTable(cards, pos, reshuffled);
      var up, hole := cards[pos + 1], cards[pos + 3];
      var r := PlayRound(rules, cards, pos, reshuffled, bet).value;
      && PlayHands(rules, cards, up, t0).Success?
      && var t := PlayHands(rules, cards, up, t0).value;
      && DealerRun(rules, cards, [up, hole], t.pos, t.trace + [Reveal(hole)]).Success?
      && var e := DealerRun(rules, cards, [up, hole], t.pos, t.trace + [Reveal(hole)]).value;
      && r.hands == t.hands && r.dealer == e.dealer && r.pos == e.pos
      && r.payload.trace == e.trace + [Settled(r.result.outcome, r.result.profit)]
  {
  }

  /** Every card dealt in a completed round ends in exactly one player hand
      or in the dealer's hand. */
  lemma RoundAccountsForCards(rules: Rules, cards: seq<Card>, pos: nat, reshuffled: bool, bet: real)
    requires pos <= |cards|
    requires PlayRound(rules, cards, pos, reshuffled, bet).Success?
    ensures var r := PlayRound(rules, cards, pos, reshuffled, bet).value;
      AllCards(r.hands) + multiset(r.dealer) == multiset(cards[pos..r.pos])
  {
    RoundParts(rules, cards, pos, reshuffled, bet);
    var t0 := StartTable(cards, pos, reshuffled);
    var up, hole := cards[pos + 1], cards[pos + 3];
    var t := PlayHands(rules, cards, up, t0).value;
    var e := DealerRun(rules, cards, [up, hole], t.pos, t.trace + [Reveal(hole)]).value;
    assert pos + 4 <= t.pos && AllCards(t.hands) == multiset([cards[pos], cards[pos + 2]]) + multiset(cards[pos + 4..t.pos]) by {
      RoundPass(rules, cards, pos, reshuffled);
    }
    assert t.pos <= e.pos <= |cards| && e.dealer == [up, hole] + cards[t.pos..e.pos] by {
      DealerRunDraws(rules, cards, [up, hole], t.pos, t.trace + [Reveal(hole)]);
    }
    CardsOfRound(cards, pos, t.pos, e.pos, AllCards(t.hands), e.dealer);
  }

  /** The bookkeeping of a round on plain values: the player holds the
      first and third cards of the deal and the pass's draws, the dealer the
      second and fourth and its own draws. */
  lemma CardsOfRound(cards: seq<Card>, pos: nat, tpos: nat, epos: nat, hands: multiset<Card>, dealer: seq<Card>)
    requires pos + 4 <= tpos <= epos <= |cards|
    requires hands == multiset([cards[pos], cards[pos + 2]]) + multiset(cards[pos + 4..tpos])
    requires dealer == [cards[pos + 1], cards[pos + 3]] + cards[tpos..epos]
    ensures hands + multiset(dealer) == multiset(cards[pos..epos])
  {
    var played, drawn := cards[pos + 4..tpos], cards[tpos..epos];
    assert cards[pos..epos] == cards[pos..pos + 4] + played + drawn;
    assert cards[pos..pos + 4] == [cards[pos], cards[pos + 1], cards[pos + 2], cards[pos + 3]];
    FirstFour(cards[pos], cards[pos + 1], cards[pos + 2], cards[pos + 3]);
    RoundArith(hands, multiset(dealer), multiset(cards[pos..pos + 4]), multiset([cards[pos], cards[pos + 2]]),
      multiset([cards[pos + 1], cards[pos + 3]]), multiset(played), multiset(drawn), multiset(cards[pos..epos]));
  }

  /** A record that names no card adds none. */
  lemma DrawnSilent(a: seq<Event>, e: Event, hole: Card)
    requires EventCards(e, hole) == []
    ensures DrawnCards(a + [e], hole) == DrawnCards(a, hole)
  {
    assert (a + [e])[..|a|] == a;
  }

  /** The reveal, the dealer's draws and the settlement name exactly the
      dealer's draws. */
  lemma DrawnDealerTail(played: seq<Event>, hole: Card, drawn: seq<Card>, settled: Event)
    requires settled.Settled?
    ensures DrawnCards(played + [Reveal(hole)] + DealerHits(drawn) + [settled], hole) == DrawnCards(played, hole) + drawn
  {
    DrawnSilent(played + [Reveal(hole)] + DealerHits(drawn), settled, hole);
    DrawnCardsAppend(played + [Reveal(hole)], DealerHits(drawn), hole);
    DrawnDealerHits(drawn, hole);
    DrawnSilent(played, Reveal(hole), hole);
  }

  /** The trace after the pass over the hands, continued by the reveal,
      the dealer's draws and the settlement record. */
  lemma TraceOfDealer(cards: seq<Card>, pos: nat, tpos: nat, epos: nat, hole: Card, dealt: seq<Event>, played: seq<Event>, settled: Event)
    requires pos + 4 <= tpos <= epos <= |cards| && settled.Settled?
    requires DrawnCards(dealt, hole) == cards[pos..pos + 4]
    requires DrawnCards(played, hole) == DrawnCards(dealt, hole) + cards[pos + 4..tpos]
    ensures DrawnCards(played + [Reveal(hole)] + DealerHits(cards[tpos..epos]) + [settled], hole) == cards[pos..epos]
  {
    DrawnDealerTail(played, hole, cards[tpos..epos], settled);
    SliceSplit(cards, pos, pos + 4, tpos);
    SliceSplit(cards, pos, tpos, epos);
  }

  /** The trace of a completed round names every dealt card in dealing
      order, the hole card at its place in the deal: it starts with the
      shuffle record exactly when the shoe was reshuffled and ends with the
      settlement record. */
  lemma RoundTraceComplete(rules: Rules, cards: seq<Card>, pos: nat, reshuffled: bool, bet: real)
    requires pos <= |cards|
    requires PlayRound(rules, cards, pos, reshuffled, bet).Success?
    ensures var r := PlayRound(rules, cards, pos, reshuffled, bet).value;
      && DrawnCards(r.payload.trace, cards[pos + 3]) == cards[pos..r.pos]
      && r.payload.trace[0] == (if reshuffled then Shuffled else Dealt(ToPlayer, FaceUp(cards[pos])))
      && r.payload.trace[|r.payload.trace| - 1] == Settled(r.result.outcome, r.result.profit)
  {
    RoundParts(rules, cards, pos, reshuffled, bet);
    var t0 := StartTable(cards, pos, reshuffled);
    var up, hole := cards[pos + 1], cards[pos + 3];
    RoundPass(rules, cards, pos, reshuffled);
    var t := PlayHands(rules, cards, up, t0).value;
    DealerRunDraws(rules, cards, [up, hole], t.pos, t.trace + [Reveal(hole)]);
    var e := DealerRun(rules, cards, [up, hole], t.pos, t.trace + [Reveal(hole)]).value;
    var r := PlayRound(rules, cards, pos, reshuffled, bet).value;
    DrawnDealTrace(cards, pos, reshuffled);
    TraceOfDealer(cards, pos, t.pos, e.pos, hole, t0.trace, t.trace, Settled(r.result.outcome, r.result.profit));
    assert t.trace[0] == t0.trace[0] by {
      assert t.trace[..|t0.trace|] == t0.trace;
    }
  }
}
