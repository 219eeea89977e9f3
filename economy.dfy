/** The survival economy: a credit counter that every hand burns, that a
    winning hand pays a share of its profit into, that is topped up when it
    runs low, and whose depletion ends the experiment. */
module Economy {
  import opened Wrappers

  datatype SurvivalEconomy = SurvivalEconomy(
    initialCredits: real,
    burnPerHand: real,
    taxRateOnPositiveProfit: real,
    refillThreshold: real,
    refillAmount: real,
    deathThreshold: real)

  /** The default economy. */
  const DefaultEconomy := SurvivalEconomy(50.0, 0.0005, 0.20, 5.0, 20.0, 0.0)

  /** What a surviving step reports: the new credits and whether a top-up
      happened. */
  datatype StepReport = StepReport(credits: real, refill: bool)

  /** The error that ends the experiment. */
  datatype ExperimentOver = CreditsDepleted

  /** The credits after the burn and the share of a positive profit. */
  function Taxed(econ: SurvivalEconomy, credits: real, profit: real): real {
    credits - econ.burnPerHand + (if profit > 0.0 then profit * econ.taxRateOnPositiveProfit else 0.0)
  }

  /** The credits at the end of a step, and whether the top-up fired: it
      fires when the taxed credits are at or below the refill threshold. */
  function StepCredits(econ: SurvivalEconomy, credits: real, profit: real): (r: (real, bool))
    ensures r.1 <==> Taxed(econ, credits, profit) <= econ.refillThreshold
    ensures r.0 == Taxed(econ, credits, profit) + (if r.1 then econ.refillAmount else 0.0)
    ensures !r.1 ==> r.0 > econ.refillThreshold
  {
    var c := Taxed(econ, credits, profit);
    if c <= econ.refillThreshold then (c + econ.refillAmount, true) else (c, false)
  }

  /** A whole step: the experiment ends when the final credits are at or
      below the death threshold. */
  function StepOutcome(econ: SurvivalEconomy, credits: real, profit: real): (r: Result<StepReport, ExperimentOver>)
    ensures r.Success? ==> r.value.credits > econ.deathThreshold
    ensures r.Success? ==> r.value.refill == StepCredits(econ, credits, profit).1
    ensures r.Failure? <==> StepCredits(econ, credits, profit).0 <= econ.deathThreshold
  {
    var (c, refill) := StepCredits(econ, credits, profit);
    if c <= econ.deathThreshold then Failure(CreditsDepleted) else Success(StepReport(c, refill))
  }

  /** The credit counter. */
  class CreditManager {
    const econ: SurvivalEconomy
    var credits: real

    constructor(econ: SurvivalEconomy)
      ensures this.econ == econ && credits == econ.initialCredits
    {
      this.econ := econ;
      credits := econ.initialCredits;
    }

    /** One hand's step. The counter keeps its new value even when the step
        ends the experiment. */
    method Step(profit: real) returns (r: Result<StepReport, ExperimentOver>)
      modifies this
      ensures credits == StepCredits(econ, old(credits), profit).0
      ensures r == StepOutcome(econ, old(credits), profit)
    {
      ghost var start := credits;
      credits := credits - econ.burnPerHand;
      if profit > 0.0 {
        credits := credits + profit * econ.taxRateOnPositiveProfit;
      }
      assert credits == Taxed(econ, start, profit);
      var refill := false;
      if credits <= econ.refillThreshold {
        credits := credits + econ.refillAmount;
        refill := true;
      }
      if credits <= econ.deathThreshold {
        return Failure(CreditsDepleted);
      }
      return Success(StepReport(credits, refill));
    }
  }

  // ---------------------------------------------------------------------
  // Properties
  // ---------------------------------------------------------------------

  /** A losing or pushed hand earns nothing and costs only the burn: the
      step is the same as for a profit of zero. */
  lemma LossesAreNotCharged(econ: SurvivalEconomy, credits: real, profit: real)
    requires profit <= 0.0
    ensures StepCredits(econ, credits, profit) == StepCredits(econ, credits, 0.0)
    ensures !StepCredits(econ, credits, profit).1 ==> StepCredits(econ, credits, profit).0 == credits - econ.burnPerHand
  {
  }

  /** A step without a top-up leaves the counter above the refill threshold;
      a top-up adds exactly the refill amount to credits that were at or
      below it. */
  lemma RefillOnlyWhenLow(econ: SurvivalEconomy, credits: real, profit: real)
    ensures !StepCredits(econ, credits, profit).1 ==> StepCredits(econ, credits, profit).0 > econ.refillThreshold
    ensures StepCredits(econ, credits, profit).1 ==>
      StepCredits(econ, credits, profit).0 <= econ.refillThreshold + econ.refillAmount
  {
  }

  /** A winning hand never leaves fewer credits than a losing one would,
      as long as the tax rate is not negative. */
  lemma WinningPaysIn(econ: SurvivalEconomy, credits: real, profit: real)
    requires profit > 0.0 && econ.taxRateOnPositiveProfit >= 0.0
    ensures Taxed(econ, credits, profit) >= Taxed(econ, credits, 0.0)
  {
  }

  /** An economy in which a live counter cannot die in one step: the share
      of profit is not negative, a top-up covers the burn, and the refill
      threshold is not below the death threshold. */
  predicate Sustainable(econ: SurvivalEconomy) {
    econ.taxRateOnPositiveProfit >= 0.0 && econ.refillAmount >= econ.burnPerHand &&
    econ.refillThreshold >= econ.deathThreshold
  }

  lemma DefaultIsSustainable()
    ensures Sustainable(DefaultEconomy)
    ensures DefaultEconomy.initialCredits > DefaultEconomy.deathThreshold
  {
  }

  /** In a sustainable economy, a step from live credits always survives. */
  lemma SustainableStepSurvives(econ: SurvivalEconomy, credits: real, profit: real)
    requires Sustainable(econ) && credits > econ.deathThreshold
    ensures StepOutcome(econ, credits, profit).Success?
  {
    var c := Taxed(econ, credits, profit);
    assert c >= credits - econ.burnPerHand;
  }

  /** The credits after a run of hands with the given profits, or the end of
      the experiment. */
  function Run(econ: SurvivalEconomy, credits: real, profits: seq<real>): Result<real, ExperimentOver>
    decreases |profits|
  {
    if profits == [] then Success(credits)
    else
      match StepOutcome(econ, credits, profits[0])
      case Failure(e) => Failure(e)
      case Success(rep) => Run(econ, rep.credits, profits[1..])
  }

  /** In a sustainable economy the experiment never ends, whatever the
      hands' profits. */
  lemma {:induction false} SustainableRunSurvives(econ: SurvivalEconomy, credits: real, profits: seq<real>)
    requires Sustainable(econ) && credits > econ.deathThreshold
    ensures Run(econ, credits, profits).Success?
    ensures Run(econ, credits, profits).value > econ.deathThreshold
    decreases |profits|
  {
    if profits != [] {
      SustainableStepSurvives(econ, credits, profits[0]);
      SustainableRunSurvives(econ, StepOutcome(econ, credits, profits[0]).value.credits, profits[1..]);
    }
  }

  /** With the defaults, a counter at the refill threshold and a hand without
      profit: the burn takes it to 4.9995, the top-up to 24.9995. Just above
      the threshold plus the burn, no top-up happens. */
  lemma DefaultRefillScenario()
    ensures StepOutcome(DefaultEconomy, 5.0, 0.0) == Success(StepReport(24.9995, true))
    ensures StepOutcome(DefaultEconomy, 5.0005, 0.0) == Success(StepReport(25.0, true))
    ensures StepOutcome(DefaultEconomy, 5.001, -1.0) == Success(StepReport(5.0005, false))
    ensures StepOutcome(DefaultEconomy, 10.0, 1.5) == Success(StepReport(10.2995, false))
  {
  }

  /** An economy whose top-up does not cover the burn can die: one credit
      above zero, a burn of two and a top-up of one end the experiment. */
  lemma UnsustainableDies()
    ensures StepOutcome(SurvivalEconomy(50.0, 2.0, 0.2, 5.0, 1.0, 0.0), 0.5, 0.0) == Failure(CreditsDepleted)
  {
  }
}
