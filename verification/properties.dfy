/**
 * Properties of the estimator that relate several of its figures, or
 * several estimates, to one another.
 */
module EstimatorProperties {
  import opened Wrappers
  import opened JsNumbers
  import opened RoiConfig
  import opened Estimator

  /** An annual cost of 0 is falsy, so it prices labour exactly as an absent one. */
  lemma ZeroCostFallsBackToIndustryRate(inputs: Inputs, cfg: Config)
    requires Admissible(inputs, cfg)
    requires inputs.avgCostPerEmployee == Some(0.0)
    ensures Compute(inputs, cfg).loadedHourlyRate
            == Compute(inputs.(avgCostPerEmployee := None), cfg).loadedHourlyRate
            == LookupIndustry(cfg.industryDefaults, inputs.industry).averageHourlyRate * cfg.costs.loadedCostMultiplier
  {
  }

  /** On the ticket path the hours follow the measured workload and the automation gain. */
  lemma TicketPathHours(inputs: Inputs, cfg: Config)
    requires Admissible(inputs, cfg)
    requires TicketBased(inputs)
    ensures var b := Compute(inputs, cfg);
            && 5.0 * b.hoursPerEmployee * inputs.headcount as real
               == inputs.monthlyTicketVolume.value * inputs.avgHandleTimeMinutes.value
                  * b.automationGain * cfg.productivity.productivityGainPercentage
            && b.totalHoursSaved == b.hoursPerEmployee * inputs.headcount as real * RampUpFactor(cfg)
  {
  }

  /**
   * Off the ticket path the per-employee figure is the industry's automatable
   * share of a working year times the productivity gain: it depends on neither
   * the headcount nor the current automation rate.
   */
  lemma EmployeePathHours(inputs: Inputs, cfg: Config)
    requires Admissible(inputs, cfg)
    requires !TicketBased(inputs)
    ensures var b := Compute(inputs, cfg);
            b.hoursPerEmployee == cfg.productivity.annualWorkingHours * b.industry.automatablePercentage
                                  * cfg.productivity.productivityGainPercentage
  {
  }

  /** Two requests that differ only in headcount and automation rate get the same per-employee hours off the ticket path. */
  lemma EmployeePathIgnoresHeadcount(inputs: Inputs, headcount: int, currentRate: Option<real>, cfg: Config)
    requires Admissible(inputs, cfg) && headcount >= 1
    requires !TicketBased(inputs)
    ensures Compute(inputs.(headcount := headcount, currentAutomationRate := currentRate), cfg).hoursPerEmployee
            == Compute(inputs, cfg).hoursPerEmployee
  {
  }

  /**
   * For a whole number of ramp-up months within the two-year horizon, the
   * ramp-up factor is the share of those 24 months that run at full effect
   * when nothing is gained during ramp-up.
   */
  lemma RampUpFactorIsFullEffectShare(cfg: Config, rampUp: nat)
    requires rampUp <= 24
    requires cfg.productivity.rampUpMonths == rampUp as real
    ensures RampUpFactor(cfg) == FullEffectMonths(24, rampUp) as real / RampUpHorizonMonths
  {
  }

  /**
   * The ramp-up discount reaches the total but not the per-employee figure:
   * with any ramp-up at all, the per-employee hours times the headcount
   * overstate the total (when hours are saved).
   */
  lemma RampUpDiscountsTotalOnly(inputs: Inputs, cfg: Config)
    requires Admissible(inputs, cfg)
    requires 0.0 < cfg.productivity.rampUpMonths
    requires 0.0 < Compute(inputs, cfg).hoursPerEmployee
    ensures var b := Compute(inputs, cfg);
            b.totalHoursSaved < b.hoursPerEmployee * inputs.headcount as real
  {
    var b := Compute(inputs, cfg);
    var steady := b.hoursPerEmployee * inputs.headcount as real;
    assert 0.0 < steady;
    assert b.totalHoursSaved == steady * RampUpFactor(cfg);
    ShrinkBelowOne(steady, RampUpFactor(cfg));
  }

  /** A positive figure scaled by a factor below 1 shrinks. */
  lemma ShrinkBelowOne(x: real, f: real)
    requires 0.0 < x && f < 1.0
    ensures x * f < x
  {
  }

  /**
   * An organisation already above the capped target, on the ticket path, gets
   * negative hours and negative base savings: the gain is not floored at zero.
   */
  lemma AlreadyAutomatedSavesNegative(inputs: Inputs, cfg: Config)
    requires Admissible(inputs, cfg)
    requires TicketBased(inputs)
    requires inputs.monthlyTicketVolume.value > 0.0 && inputs.avgHandleTimeMinutes.value > 0.0
    requires inputs.currentAutomationRate.GetOr(0.0) > 100.0 * Compute(inputs, cfg).targetAutomation
    requires cfg.productivity.productivityGainPercentage > 0.0 && cfg.productivity.rampUpMonths < 24.0
    requires Compute(inputs, cfg).loadedHourlyRate > 0.0
    ensures Compute(inputs, cfg).automationGain < 0.0
    ensures Compute(inputs, cfg).totalHoursSaved < 0.0
    ensures Compute(inputs, cfg).annualSavings < 0.0
  {
    var b := Compute(inputs, cfg);
    var work := inputs.monthlyTicketVolume.value * inputs.avgHandleTimeMinutes.value;
    var pg := cfg.productivity.productivityGainPercentage;
    var n := inputs.headcount as real;
    var f := RampUpFactor(cfg);
    assert b.automationGain < 0.0;
    assert 0.0 < work;
    assert work * b.automationGain < 0.0;
    assert work * b.automationGain * pg < 0.0;
    TicketPathHours(inputs, cfg);
    assert 5.0 * b.hoursPerEmployee * n < 0.0;
    assert b.hoursPerEmployee * n < 0.0;
    assert 0.0 < f;
    assert b.totalHoursSaved == b.hoursPerEmployee * n * f;
    assert b.totalHoursSaved < 0.0;
    assert b.annualSavings == b.totalHoursSaved * b.loadedHourlyRate;
  }

  /** With no tier 2 trigger met, the totals are the base savings. */
  lemma NoAdjustmentMeansBaseTotals(inputs: Inputs, cfg: Config)
    requires Admissible(inputs, cfg)
    requires !QualityTriggered(inputs)
    requires !Truthy(inputs.monthlyEscalationVolume) && !Truthy(inputs.errorReworkRate)
    ensures var b := Compute(inputs, cfg);
            && b.totalAnnualSavings == b.annualSavings
            && b.totalMonthlySavings == b.monthlySavings
    ensures var r := Estimate(inputs, cfg);
            && r.qualityImprovementSavings == 0
            && r.escalationReductionSavings == 0
            && r.errorReductionSavings == 0
            && r.totalAnnualSavings == r.annualSavings
            && r.totalMonthlySavings == r.monthlySavings
            && r.totalDailySavings == r.dailySavings
  {
    RoundIntegerAndTie(0);
  }

  /** Meeting only the escalation trigger leaves the quality and error figures at 0. */
  lemma OnlyEscalationTriggered(inputs: Inputs, cfg: Config)
    requires Admissible(inputs, cfg)
    requires !QualityTriggered(inputs) && !Truthy(inputs.errorReworkRate)
    requires Truthy(inputs.monthlyEscalationVolume)
    ensures var b := Compute(inputs, cfg);
            && b.qualityImprovementSavings == 0.0
            && b.errorReductionSavings == 0.0
            && b.escalationReductionSavings == 18.0 * inputs.monthlyEscalationVolume.value * b.loadedHourlyRate
            && b.totalAnnualSavings == b.annualSavings + b.escalationReductionSavings
  {
  }

  /** Meeting only the quality trigger leaves the escalation and error figures at 0. */
  lemma OnlyQualityTriggered(inputs: Inputs, cfg: Config)
    requires Admissible(inputs, cfg)
    requires QualityTriggered(inputs)
    requires !Truthy(inputs.monthlyEscalationVolume) && !Truthy(inputs.errorReworkRate)
    ensures var b := Compute(inputs, cfg);
            && b.escalationReductionSavings == 0.0
            && b.errorReductionSavings == 0.0
            && b.totalAnnualSavings == b.annualSavings + b.qualityImprovementSavings
  {
  }

  /** Meeting only the error trigger leaves the quality and escalation figures at 0. */
  lemma OnlyErrorTriggered(inputs: Inputs, cfg: Config)
    requires Admissible(inputs, cfg)
    requires !QualityTriggered(inputs) && !Truthy(inputs.monthlyEscalationVolume)
    requires Truthy(inputs.errorReworkRate)
    ensures var b := Compute(inputs, cfg);
            && b.qualityImprovementSavings == 0.0
            && b.escalationReductionSavings == 0.0
            && b.totalAnnualSavings == b.annualSavings + b.errorReductionSavings
  {
  }

  /** A positive escalation volume at a positive rate always saves money. */
  lemma EscalationSavingsPositive(inputs: Inputs, cfg: Config)
    requires Admissible(inputs, cfg)
    requires inputs.monthlyEscalationVolume.Some? && inputs.monthlyEscalationVolume.value > 0.0
    requires Compute(inputs, cfg).loadedHourlyRate > 0.0
    ensures Compute(inputs, cfg).escalationReductionSavings > 0.0
  {
    var b := Compute(inputs, cfg);
    var v := inputs.monthlyEscalationVolume.value;
    assert b.escalationReductionSavings == 18.0 * v * b.loadedHourlyRate;
    assert 0.0 < v * b.loadedHourlyRate;
  }

  /**
   * Quality savings are never negative while the current first-contact
   * resolution rate is at most 95% and the volumes, time and rate are not negative.
   */
  lemma QualitySavingsNonNegative(inputs: Inputs, cfg: Config)
    requires Admissible(inputs, cfg)
    requires inputs.firstContactResolutionRate.Some? && inputs.firstContactResolutionRate.value <= 95.0
    requires inputs.monthlyTicketVolume.GetOr(0.0) >= 0.0
    requires inputs.avgResolutionTimeHours.GetOr(0.0) >= 0.0
    requires Compute(inputs, cfg).loadedHourlyRate >= 0.0
    ensures Compute(inputs, cfg).qualityImprovementSavings >= 0.0
  {
    var b := Compute(inputs, cfg);
    QualitySavingsSign(inputs, b.loadedHourlyRate);
  }

  /** The sign argument of QualitySavingsNonNegative, for any rate. */
  lemma QualitySavingsSign(inputs: Inputs, rate: real)
    requires inputs.headcount >= 1
    requires inputs.firstContactResolutionRate.Some? && inputs.firstContactResolutionRate.value <= 95.0
    requires inputs.monthlyTicketVolume.GetOr(0.0) >= 0.0
    requires inputs.avgResolutionTimeHours.GetOr(0.0) >= 0.0
    requires rate >= 0.0
    ensures QualitySavings(inputs, rate) >= 0.0
  {
    var tickets := AnnualTickets(inputs);
    var d := FcrImprovement(inputs.firstContactResolutionRate.value / 100.0);
    var hours := inputs.avgResolutionTimeHours.GetOr(0.0);
    assert 0.0 <= tickets;
    assert 0.0 <= d;
    ProductNonNegative(tickets, d);
    ProductNonNegative(tickets * d, hours);
    ProductNonNegative(tickets * d * hours, rate);
  }

  /** The product of two non-negative reals is non-negative. */
  lemma ProductNonNegative(x: real, y: real)
    requires 0.0 <= x && 0.0 <= y
    ensures 0.0 <= x * y
  {
  }

  /** The projected rate is the capped target in percent, and the reported gain is measured from the echoed current rate. */
  lemma AutomationProjection(inputs: Inputs, cfg: Config)
    requires Admissible(inputs, cfg)
    ensures var b := Compute(inputs, cfg);
            var r := Estimate(inputs, cfg);
            && r.projectedAutomationRate == Round(100.0 * b.targetAutomation)
            && r.automationGain == Round(100.0 * b.targetAutomation - r.currentAutomationRate)
            && r.projectedAutomationRate <= 60
  {
  }

  /**
   * Rounding happens once, at the boundary: the rounded components add up to
   * within 2 of the rounded total.
   */
  lemma RoundedComponentsNearTotal(inputs: Inputs, cfg: Config)
    requires Admissible(inputs, cfg)
    ensures var r := Estimate(inputs, cfg);
            var parts := r.annualSavings + r.qualityImprovementSavings
                         + r.escalationReductionSavings + r.errorReductionSavings;
            -2 <= r.totalAnnualSavings - parts <= 2
  {
  }

  /**
   * With non-negative figures, base savings never shrink as headcount grows.
   * Stated on the steps Compute chains together: steady-state hours, the
   * ramp-up factor and the loaded rate.
   */
  lemma BaseSavingsGrow(inputs: Inputs, headcount: int, cfg: Config, industry: IndustryProfile, gain: real, rate: real)
    requires 1 <= inputs.headcount <= headcount
    requires cfg.productivity.annualWorkingHours >= 0.0 && cfg.productivity.productivityGainPercentage >= 0.0
    requires cfg.productivity.rampUpMonths <= RampUpHorizonMonths
    requires industry.automatablePercentage >= 0.0 && rate >= 0.0
    ensures SteadyStateHours(inputs, cfg, industry, gain).total * RampUpFactor(cfg) * rate
            <= SteadyStateHours(inputs.(headcount := headcount), cfg, industry, gain).total * RampUpFactor(cfg) * rate
  {
    SteadyStateHoursGrow(inputs, headcount, cfg, industry, gain);
    var h, k := SteadyStateHours(inputs, cfg, industry, gain).total,
                SteadyStateHours(inputs.(headcount := headcount), cfg, industry, gain).total;
    ScaleMonotone(RampUpFactor(cfg), h, k);
    ScaleMonotone(rate, h * RampUpFactor(cfg), k * RampUpFactor(cfg));
  }

  /** Pre-ramp hours grow with headcount on the employee path and do not depend on it on the ticket path. */
  lemma SteadyStateHoursGrow(inputs: Inputs, headcount: int, cfg: Config, industry: IndustryProfile, gain: real)
    requires 1 <= inputs.headcount <= headcount
    requires cfg.productivity.annualWorkingHours >= 0.0 && cfg.productivity.productivityGainPercentage >= 0.0
    requires industry.automatablePercentage >= 0.0
    ensures SteadyStateHours(inputs, cfg, industry, gain).total
            <= SteadyStateHours(inputs.(headcount := headcount), cfg, industry, gain).total
    ensures TicketBased(inputs) ==>
              SteadyStateHours(inputs, cfg, industry, gain).total
              == SteadyStateHours(inputs.(headcount := headcount), cfg, industry, gain).total
  {
    var larger := inputs.(headcount := headcount);
    if !TicketBased(inputs) {
      var perEmployee := SteadyStateHours(inputs, cfg, industry, gain).perEmployee;
      assert SteadyStateHours(larger, cfg, industry, gain).perEmployee == perEmployee;
      ProductNonNegative(cfg.productivity.annualWorkingHours, industry.automatablePercentage);
      ProductNonNegative(cfg.productivity.annualWorkingHours * industry.automatablePercentage,
                         cfg.productivity.productivityGainPercentage);
      ScaleMonotone(perEmployee, inputs.headcount as real, headcount as real);
    }
  }

  /** With non-negative figures the quality component grows with headcount. */
  lemma QualitySavingsGrow(inputs: Inputs, headcount: int, rate: real)
    requires 1 <= inputs.headcount <= headcount && 0.0 <= rate
    requires inputs.firstContactResolutionRate.Some? ==> inputs.firstContactResolutionRate.value <= 95.0
    requires inputs.avgResolutionTimeHours.GetOr(0.0) >= 0.0
    ensures QualitySavings(inputs, rate) <= QualitySavings(inputs.(headcount := headcount), rate)
  {
    var larger := inputs.(headcount := headcount);
    if QualityTriggered(inputs) {
      var tickets, moreTickets := AnnualTickets(inputs), AnnualTickets(larger);
      var d := FcrImprovement(inputs.firstContactResolutionRate.value / 100.0);
      var hours := inputs.avgResolutionTimeHours.value;
      ProductNonNegative(d, hours);
      ProductNonNegative(d * hours, rate);
      ScaleMonotone(d * hours * rate, tickets, moreTickets);
      assert QualitySavings(inputs, rate) == d * hours * rate * tickets;
      assert QualitySavings(larger, rate) == d * hours * rate * moreTickets;
    }
  }

  /** With non-negative figures the error component grows with headcount. */
  lemma ErrorSavingsGrow(inputs: Inputs, headcount: int, rate: real)
    requires 1 <= inputs.headcount <= headcount && 0.0 <= rate
    requires inputs.errorReworkRate.GetOr(0.0) >= 0.0
    ensures ErrorSavings(inputs, rate) <= ErrorSavings(inputs.(headcount := headcount), rate)
  {
    var larger := inputs.(headcount := headcount);
    var weight := inputs.errorReworkRate.GetOr(0.0) * rate;
    ProductNonNegative(inputs.errorReworkRate.GetOr(0.0), rate);
    var tickets, moreTickets := AnnualTickets(inputs), AnnualTickets(larger);
    ScaleMonotone(weight, tickets, moreTickets);
    assert 400.0 * ErrorSavings(inputs, rate) == weight * tickets;
    assert 400.0 * ErrorSavings(larger, rate) == weight * moreTickets;
  }

  /** Scaling by a non-negative factor preserves order. */
  lemma ScaleMonotone(a: real, x: real, y: real)
    requires 0.0 <= a && x <= y
    ensures a * x <= a * y && x * a <= y * a
  {
  }
}
