/** The session's running statistics: the bankroll's peak, its largest
    drawdown, and a tally of round outcomes. */
module Session {
  import opened Rounds

  function Max(a: real, b: real): real {
    if a >= b then a else b
  }

  /** The highest bankroll of a non-empty history. */
  function Peak(h: seq<real>): (p: real)
    requires h != []
    ensures forall k :: 0 <= k < |h| ==> h[k] <= p
    ensures exists k :: 0 <= k < |h| && h[k] == p
  {
    if |h| == 1 then h[0]
    else
      var p := Max(Peak(h[..|h| - 1]), h[|h| - 1]);
      assert forall k :: 0 <= k < |h| - 1 ==> h[k] == h[..|h| - 1][k];
      p
  }

  /** The drawdown recorded over a history: after each bankroll, the gap
      between the peak so far and that bankroll, kept at its largest. */
  function Drawdown(h: seq<real>): (d: real)
    requires h != []
    ensures d >= 0.0
    ensures Peak(h) - h[|h| - 1] <= d
  {
    if |h| == 1 then 0.0 else Max(Drawdown(h[..|h| - 1]), Peak(h) - h[|h| - 1])
  }

  /** No fall from a bankroll to a later one exceeds the recorded drawdown. */
  lemma {:induction false} DrawdownBounds(h: seq<real>)
    requires h != []
    ensures forall i, j :: 0 <= i <= j < |h| ==> h[i] - h[j] <= Drawdown(h)
    decreases |h|
  {
    if |h| > 1 {
      var front := h[..|h| - 1];
      DrawdownBounds(front);
      assert Drawdown(front) <= Drawdown(h) && Peak(h) - h[|h| - 1] <= Drawdown(h);
      forall i, j | 0 <= i <= j < |h|
        ensures h[i] - h[j] <= Drawdown(h)
      {
        if j < |h| - 1 {
          assert h[i] == front[i] && h[j] == front[j];
          assert front[i] - front[j] <= Drawdown(front);
        } else {
          assert h[i] <= Peak(h);
        }
      }
    }
  }

  /** Some bankroll and a later one (possibly the same) fall exactly by the
      recorded drawdown. */
  lemma {:induction false} DrawdownAttained(h: seq<real>)
    requires h != []
    ensures exists i, j :: 0 <= i <= j < |h| && h[i] - h[j] == Drawdown(h)
    decreases |h|
  {
    if |h| == 1 {
      assert h[0] - h[0] == Drawdown(h);
    } else {
      var front, last := h[..|h| - 1], |h| - 1;
      var p := Peak(h);
      if Drawdown(front) >= p - h[last] {
        DrawdownAttained(front);
        var i, j :| 0 <= i <= j < |front| && front[i] - front[j] == Drawdown(front);
        assert h[i] == front[i] && h[j] == front[j];
        assert h[i] - h[j] == Drawdown(h);
      } else {
        var top :| 0 <= top < |h| && h[top] == p;
        assert h[top] - h[last] == Drawdown(h);
      }
    }
  }

  /** The recorded drawdown is the largest fall from any bankroll to any
      later one. */
  lemma DrawdownIsLargestFall(h: seq<real>)
    requires h != []
    ensures forall i, j :: 0 <= i <= j < |h| ==> h[i] - h[j] <= Drawdown(h)
    ensures exists i, j :: 0 <= i <= j < |h| && h[i] - h[j] == Drawdown(h)
  {
    DrawdownBounds(h);
    DrawdownAttained(h);
  }

  /** Number of rounds with a given label. */
  function Tally(outcomes: seq<Outcome>, o: Outcome): nat {
    if outcomes == [] then 0
    else Tally(outcomes[..|outcomes| - 1], o) + (if outcomes[|outcomes| - 1] == o then 1 else 0)
  }

  /** The four labels partition the rounds. */
  lemma {:induction false} TalliesCoverRounds(outcomes: seq<Outcome>)
    ensures Tally(outcomes, Win) + Tally(outcomes, Push) + Tally(outcomes, Lose) + Tally(outcomes, Blackjack) == |outcomes|
    decreases |outcomes|
  {
    if outcomes != [] {
      TalliesCoverRounds(outcomes[..|outcomes| - 1]);
    }
  }

  /** The statistics kept beside the bankroll. */
  class Stats {
    var bankroll: real
    var peakBankroll: real
    var maxDrawdown: real
    var wins: nat
    var pushes: nat
    var losses: nat
    var bjs: nat
    /** The bankroll after every recorded round, starting with the initial
        one, and the labels of those rounds. */
    ghost var history: seq<real>
    ghost var outcomes: seq<Outcome>

    ghost predicate Valid()
      reads this
    {
      && history != [] && bankroll == history[|history| - 1]
      && peakBankroll == Peak(history) && maxDrawdown == Drawdown(history)
      && wins == Tally(outcomes, Win) && pushes == Tally(outcomes, Push)
      && losses == Tally(outcomes, Lose) && bjs == Tally(outcomes, Blackjack)
      && |history| == |outcomes| + 1
    }

    constructor(initialBankroll: real)
      ensures Valid() && history == [initialBankroll] && outcomes == []
    {
      bankroll, peakBankroll, maxDrawdown := initialBankroll, initialBankroll, 0.0;
      wins, pushes, losses, bjs := 0, 0, 0, 0;
      history, outcomes := [initialBankroll], [];
    }

    /** Raises the peak to the current bankroll, keeps the largest gap
        between the peak and the bankroll, and counts the round's label. */
    method UpdateDrawdownAndCounters(outcome: Outcome)
      modifies this
      ensures bankroll == old(bankroll)
      ensures peakBankroll == Max(old(peakBankroll), bankroll)
      ensures maxDrawdown == Max(old(maxDrawdown), peakBankroll - bankroll)
      ensures wins == old(wins) + (if outcome == Win then 1 else 0)
      ensures pushes == old(pushes) + (if outcome == Push then 1 else 0)
      ensures losses == old(losses) + (if outcome == Lose then 1 else 0)
      ensures bjs == old(bjs) + (if outcome == Blackjack then 1 else 0)
      ensures history == old(history) && outcomes == old(outcomes)
    {
      peakBankroll := Max(peakBankroll, bankroll);
      var dd := peakBankroll - bankroll;
      maxDrawdown := Max(maxDrawdown, dd);
      match outcome
      case Win => wins := wins + 1;
      case Push => pushes := pushes + 1;
      case Lose => losses := losses + 1;
      case Blackjack => bjs := bjs + 1;
    }

    /** The bookkeeping after a round: the profit goes into the bankroll, then
        the peak, drawdown and tallies are brought up to date. */
    method RecordRound(profit: real, outcome: Outcome)
      requires Valid()
      modifies this
      ensures Valid()
      ensures history == old(history) + [old(bankroll) + profit]
      ensures outcomes == old(outcomes) + [outcome]
    {
      bankroll := bankroll + profit;
      history, outcomes := history + [bankroll], outcomes + [outcome];
      assert history[..|history| - 1] == old(history);
      assert outcomes[..|outcomes| - 1] == old(outcomes);
      assert Peak(history) == Max(old(peakBankroll), bankroll);
      assert Drawdown(history) == Max(old(maxDrawdown), Peak(history) - bankroll);
      UpdateDrawdownAndCounters(outcome);
    }
  }

  /** A session that rises to 510, falls to 490 and recovers to 505 records
      a peak of 510 and a drawdown of 20. */
  lemma DrawdownScenario()
    ensures Peak([500.0, 510.0, 490.0, 505.0]) == 510.0
    ensures Drawdown([500.0, 510.0, 490.0, 505.0]) == 20.0
  {
    var h := [500.0, 510.0, 490.0, 505.0];
    assert h[..3] == [500.0, 510.0, 490.0];
    assert h[..3][..2] == [500.0, 510.0];
    assert h[..3][..2][..1] == [500.0];
    assert Peak([500.0, 510.0]) == 510.0;
    assert Drawdown([500.0, 510.0]) == 0.0;
    assert Peak(h[..3]) == 510.0;
    assert Drawdown(h[..3]) == 20.0;
  }
}
