/**
 * The ROI estimator: one input record and one configuration in, one results
 * record out. Every intermediate figure is an exact real; rounding to whole
 * units happens only when the results record is assembled.
 */
module Estimator {
  import opened Wrappers
  import opened JsNumbers
  import opened RoiConfig

  /** Automation potential is capped at 60% whatever the industry says. */
  const AutomationCap: real := 0.60
  /** The divisor of the ramp-up discount, in months. */
  const RampUpHorizonMonths: real := 24.0
  /** Average working days in a month, for the per-day figures. */
  const WorkingDaysPerMonth: real := 21.67
  /** First-contact resolution is assumed to improve by 15 points, up to 95%. */
  const FcrUplift: real := 0.15
  const FcrCeiling: real := 0.95
  /** Tickets per employee per month assumed when no ticket volume is given. */
  const TicketsPerEmployee: real := 50.0
  /** Escalations cost 2.5 times a normal hour, take 2 hours and drop by 30%. */
  const EscalationCostMultiplier: real := 2.5
  const EscalationReduction: real := 0.30
  const AvgEscalationHours: real := 2.0
  /** Errors drop by half; each costs half an hour of rework. */
  const ErrorReduction: real := 0.50
  const ReworkTimePerError: real := 0.5
  /** The projected automation rate, in percent, never exceeds 60. */
  const ProjectedRateCeiling: real := 60.0

  /** The caller's request. Tier 1 fields first, then the advanced tier 2 fields. */
  datatype Inputs = Inputs(
    headcount: int,
    monthlyTicketVolume: Option<real>,
    currentAutomationRate: Option<real>,
    avgHandleTimeMinutes: Option<real>,
    avgCostPerEmployee: Option<real>,
    industry: Option<string>,
    firstContactResolutionRate: Option<real>,
    avgResolutionTimeHours: Option<real>,
    monthlyEscalationVolume: Option<real>,
    errorReworkRate: Option<real>)

  /** The unrounded figures of one estimate. */
  datatype Breakdown = Breakdown(
    industry: IndustryProfile,
    loadedHourlyRate: real,
    currentAutomation: real,
    targetAutomation: real,
    automationGain: real,
    hoursPerEmployee: real,
    steadyStateHours: real,
    totalHoursSaved: real,
    annualSavings: real,
    monthlySavings: real,
    qualityImprovementSavings: real,
    escalationReductionSavings: real,
    errorReductionSavings: real,
    totalAnnualSavings: real,
    totalMonthlySavings: real,
    newAutomationRate: real)

  /** The record handed back to the caller: hours and money in whole units. */
  datatype Results = Results(
    headcount: int,
    hoursPerEmployeePerYear: int,
    totalHoursPerYear: int,
    loadedHourlyRate: int,
    annualSavings: int,
    monthlySavings: int,
    dailySavings: int,
    totalAnnualSavings: int,
    totalMonthlySavings: int,
    totalDailySavings: int,
    qualityImprovementSavings: int,
    escalationReductionSavings: int,
    errorReductionSavings: int,
    currentAutomationRate: real,
    projectedAutomationRate: int,
    automationGain: int,
    productivityGainPercentage: real,
    monthlyTicketVolume: Option<real>,
    annualTicketVolume: Option<real>)

  /** What the estimator demands of its caller and its configuration. */
  predicate Admissible(inputs: Inputs, cfg: Config) {
    inputs.headcount >= 1 && Valid(cfg)
  }

  // ----- Step 1: rates -----

  /**
   * The hourly cost of one employee including overheads: a given (non-zero)
   * annual cost spread over the working year, else the industry's rate.
   */
  function LoadedHourlyRate(avgCostPerEmployee: Option<real>, cfg: Config, industry: IndustryProfile): real
    requires cfg.productivity.annualWorkingHours != 0.0
  {
    var baseHourlyRate :=
      if Truthy(avgCostPerEmployee)
      then avgCostPerEmployee.value / cfg.productivity.annualWorkingHours
      else industry.averageHourlyRate;
    baseHourlyRate * cfg.costs.loadedCostMultiplier
  }

  /**
   * A truthy annual cost, spread over the working year, sets the rate; a
   * missing or zero cost leaves the industry's rate. Both are loaded.
   */
  lemma LoadedRateSources(avgCostPerEmployee: Option<real>, cfg: Config, industry: IndustryProfile)
    requires cfg.productivity.annualWorkingHours != 0.0
    ensures var rate := LoadedHourlyRate(avgCostPerEmployee, cfg, industry);
            && (Truthy(avgCostPerEmployee) ==>
                  rate * cfg.productivity.annualWorkingHours == avgCostPerEmployee.value * cfg.costs.loadedCostMultiplier)
            && (!Truthy(avgCostPerEmployee) ==>
                  rate == industry.averageHourlyRate * cfg.costs.loadedCostMultiplier)
  {
  }

  // ----- Step 2: automation -----

  /** The current automation rate as a fraction; an absent rate counts as 0. */
  function CurrentAutomation(currentAutomationRate: Option<real>): (c: real)
    ensures c * 100.0 == currentAutomationRate.GetOr(0.0)
  {
    OrElse(currentAutomationRate, 0.0) / 100.0
  }

  /** The automation level aimed at: the industry's share, capped at 60%. */
  function TargetAutomation(industry: IndustryProfile): (t: real)
    ensures t <= AutomationCap && t <= industry.automatablePercentage
    ensures t == AutomationCap || t == industry.automatablePercentage
  {
    Min(industry.automatablePercentage, AutomationCap)
  }

  /** How far automation moves: target less current, with no floor at zero. */
  function AutomationGain(currentAutomationRate: Option<real>, industry: IndustryProfile): (g: real)
    ensures CurrentAutomation(currentAutomationRate) + g == TargetAutomation(industry)
    ensures g < 0.0 <==> currentAutomationRate.GetOr(0.0) > 100.0 * TargetAutomation(industry)
  {
    TargetAutomation(industry) - CurrentAutomation(currentAutomationRate)
  }

  // ----- Step 3: hours saved -----

  /** Both a ticket volume and a handle time are given and non-zero. */
  predicate TicketBased(inputs: Inputs) {
    Truthy(inputs.monthlyTicketVolume) && Truthy(inputs.avgHandleTimeMinutes)
  }

  /** Hours a year spent handling tickets. */
  function AnnualTicketHours(inputs: Inputs): real
    requires TicketBased(inputs)
  {
    var annualTicketVolume := inputs.monthlyTicketVolume.value * 12.0;
    var hoursPerTicket := inputs.avgHandleTimeMinutes.value / 60.0;
    annualTicketVolume * hoursPerTicket
  }

  /** Hours saved before the ramp-up discount. */
  datatype HoursSaved = HoursSaved(perEmployee: real, total: real)

  /**
   * Steady-state hours saved. The ticket path starts from measured ticket hours
   * and splits the total over the headcount; the employee path starts from the
   * industry's automatable share of a working year and ignores both the
   * headcount and the automation gain in the per-employee figure.
   */
  function SteadyStateHours(inputs: Inputs, cfg: Config, industry: IndustryProfile, gain: real): HoursSaved
    requires inputs.headcount >= 1
  {
    if TicketBased(inputs) then
      var totalHoursSaved := AnnualTicketHours(inputs) * gain * cfg.productivity.productivityGainPercentage;
      HoursSaved(totalHoursSaved / inputs.headcount as real, totalHoursSaved)
    else
      var automatableHours := cfg.productivity.annualWorkingHours * industry.automatablePercentage;
      var hoursPerEmployee := automatableHours * cfg.productivity.productivityGainPercentage;
      HoursSaved(hoursPerEmployee, hoursPerEmployee * inputs.headcount as real)
  }

  /**
   * On both paths the per-employee figure times the headcount is the total.
   * The ticket path's total is 1/5 of volume x handle minutes (12 months over
   * 60 minutes) times the gain and the productivity gain; the employee path's
   * per-employee figure is the working year's automatable share times the
   * productivity gain.
   */
  lemma SteadyStateHoursPaths(inputs: Inputs, cfg: Config, industry: IndustryProfile, gain: real)
    requires inputs.headcount >= 1
    ensures var h := SteadyStateHours(inputs, cfg, industry, gain);
            && h.perEmployee * inputs.headcount as real == h.total
            && (TicketBased(inputs) ==>
                  5.0 * h.total == inputs.monthlyTicketVolume.value * inputs.avgHandleTimeMinutes.value
                                   * gain * cfg.productivity.productivityGainPercentage)
            && (!TicketBased(inputs) ==>
                  h.perEmployee == cfg.productivity.annualWorkingHours * industry.automatablePercentage
                                   * cfg.productivity.productivityGainPercentage)
  {
  }

  /** The share of a year's benefit left after the ramp-up months. */
  function RampUpFactor(cfg: Config): (f: real)
    ensures RampUpHorizonMonths * (1.0 - f) == cfg.productivity.rampUpMonths
  {
    1.0 - cfg.productivity.rampUpMonths / RampUpHorizonMonths
  }

  /**
   * Month-by-month reading of the ramp-up period: of the first `months`
   * months after rollout, how many run at full effect when the first
   * `rampUp` months realise no gain at all.
   */
  function FullEffectMonths(months: nat, rampUp: nat): (n: nat)
    ensures n == if months <= rampUp then 0 else months - rampUp
  {
    if months == 0 then 0
    else FullEffectMonths(months - 1, rampUp) + (if months - 1 < rampUp then 0 else 1)
  }

  // ----- Step 5: tier 2 adjustments -----

  /** Tickets a year: the given monthly volume, else 50 per employee. */
  function AnnualTickets(inputs: Inputs): (n: real)
    ensures Truthy(inputs.monthlyTicketVolume) ==> n == 12.0 * inputs.monthlyTicketVolume.value
    ensures !Truthy(inputs.monthlyTicketVolume) ==> n == 600.0 * inputs.headcount as real
  {
    OrElse(inputs.monthlyTicketVolume, inputs.headcount as real * TicketsPerEmployee) * 12.0
  }

  /** A first-contact resolution rate is given (0 included) and a non-zero resolution time. */
  predicate QualityTriggered(inputs: Inputs) {
    inputs.firstContactResolutionRate.Some? && Truthy(inputs.avgResolutionTimeHours)
  }

  /** The gain in first-contact resolution: 15 points, but not past 95%. */
  function FcrImprovement(currentFcr: real): (d: real)
    ensures d <= FcrUplift
    ensures currentFcr + d <= FcrCeiling
    ensures currentFcr <= FcrCeiling ==> 0.0 <= d
    ensures currentFcr + FcrUplift <= FcrCeiling ==> d == FcrUplift
    ensures FcrCeiling <= currentFcr + FcrUplift ==> currentFcr + d == FcrCeiling
  {
    Min(currentFcr + FcrUplift, FcrCeiling) - currentFcr
  }

  /** Rework saved by resolving more tickets on first contact. */
  function QualitySavings(inputs: Inputs, rate: real): real {
    if QualityTriggered(inputs) then
      var currentFcr := inputs.firstContactResolutionRate.value / 100.0;
      var reworkHoursSaved := AnnualTickets(inputs) * FcrImprovement(currentFcr) * inputs.avgResolutionTimeHours.value;
      reworkHoursSaved * rate
    else
      0.0
  }

  /**
   * Quality savings are 0 unless the rate is defined and the resolution time
   * truthy; with a rate defined they are tickets x improvement x time x rate
   * (a zero or missing time giving 0).
   */
  lemma QualityGate(inputs: Inputs, rate: real)
    ensures !QualityTriggered(inputs) ==> QualitySavings(inputs, rate) == 0.0
    ensures inputs.firstContactResolutionRate.Some? ==>
              QualitySavings(inputs, rate)
              == AnnualTickets(inputs) * FcrImprovement(inputs.firstContactResolutionRate.value / 100.0)
                 * inputs.avgResolutionTimeHours.GetOr(0.0) * rate
  {
  }

  /** Escalation handling saved: 30% fewer two-hour escalations at 2.5 times the rate. */
  function EscalationSavings(monthlyEscalationVolume: Option<real>, rate: real): real {
    if Truthy(monthlyEscalationVolume) then
      var annualEscalations := monthlyEscalationVolume.value * 12.0;
      var escalationHoursSaved := annualEscalations * EscalationReduction * AvgEscalationHours;
      escalationHoursSaved * rate * EscalationCostMultiplier
    else
      0.0
  }

  /** Escalation savings are 0 without a truthy volume, and always 18 x volume x rate. */
  lemma EscalationGate(monthlyEscalationVolume: Option<real>, rate: real)
    ensures !Truthy(monthlyEscalationVolume) ==> EscalationSavings(monthlyEscalationVolume, rate) == 0.0
    ensures EscalationSavings(monthlyEscalationVolume, rate) == 18.0 * monthlyEscalationVolume.GetOr(0.0) * rate
  {
  }

  /** Rework saved by halving errors, at half an hour per error. */
  function ErrorSavings(inputs: Inputs, rate: real): real {
    if Truthy(inputs.errorReworkRate) then
      var currentErrorRate := inputs.errorReworkRate.value / 100.0;
      var errorHoursSaved := AnnualTickets(inputs) * currentErrorRate * ErrorReduction * ReworkTimePerError;
      errorHoursSaved * rate
    else
      0.0
  }

  /** Error savings are 0 without a truthy error rate, and always tickets x rate% x rate / 400. */
  lemma ErrorGate(inputs: Inputs, rate: real)
    ensures !Truthy(inputs.errorReworkRate) ==> ErrorSavings(inputs, rate) == 0.0
    ensures 400.0 * ErrorSavings(inputs, rate) == AnnualTickets(inputs) * inputs.errorReworkRate.GetOr(0.0) * rate
  {
  }

  // ----- The whole computation -----

  /** Every unrounded figure of an estimate. */
  function Compute(inputs: Inputs, cfg: Config): (b: Breakdown)
    requires Admissible(inputs, cfg)
    // how the figures are sourced
    ensures b.industry == LookupIndustry(cfg.industryDefaults, inputs.industry)
    ensures b.loadedHourlyRate == LoadedHourlyRate(inputs.avgCostPerEmployee, cfg, b.industry)
    ensures b.automationGain == AutomationGain(inputs.currentAutomationRate, b.industry)
    ensures b.steadyStateHours == SteadyStateHours(inputs, cfg, b.industry, b.automationGain).total
    ensures b.qualityImprovementSavings == QualitySavings(inputs, b.loadedHourlyRate)
    ensures b.escalationReductionSavings == EscalationSavings(inputs.monthlyEscalationVolume, b.loadedHourlyRate)
    ensures b.errorReductionSavings == ErrorSavings(inputs, b.loadedHourlyRate)
    // how they relate
    ensures b.currentAutomation == CurrentAutomation(inputs.currentAutomationRate)
    ensures b.targetAutomation == TargetAutomation(b.industry)
    ensures b.currentAutomation + b.automationGain == b.targetAutomation
    ensures b.steadyStateHours == b.hoursPerEmployee * inputs.headcount as real
    ensures b.totalHoursSaved == b.steadyStateHours * RampUpFactor(cfg)
    ensures b.annualSavings == b.totalHoursSaved * b.loadedHourlyRate
    ensures 12.0 * b.monthlySavings == b.annualSavings
    ensures b.totalAnnualSavings == b.annualSavings + b.qualityImprovementSavings
                                    + b.escalationReductionSavings + b.errorReductionSavings
    ensures 12.0 * b.totalMonthlySavings == b.totalAnnualSavings
    ensures b.newAutomationRate == 100.0 * b.targetAutomation <= ProjectedRateCeiling
  {
    var industry := LookupIndustry(cfg.industryDefaults, inputs.industry);
    var rate := LoadedHourlyRate(inputs.avgCostPerEmployee, cfg, industry);
    var currentAutomation := CurrentAutomation(inputs.currentAutomationRate);
    var targetAutomation := TargetAutomation(industry);
    var automationGain := AutomationGain(inputs.currentAutomationRate, industry);
    var hours := SteadyStateHours(inputs, cfg, industry, automationGain);
    SteadyStateHoursPaths(inputs, cfg, industry, automationGain);
    var totalHoursSaved := hours.total * RampUpFactor(cfg);
    var annualSavings := totalHoursSaved * rate;
    var monthlySavings := annualSavings / 12.0;
    var quality := QualitySavings(inputs, rate);
    var escalation := EscalationSavings(inputs.monthlyEscalationVolume, rate);
    var error := ErrorSavings(inputs, rate);
    var totalAnnualSavings := annualSavings + quality + escalation + error;
    Breakdown(
      industry, rate, currentAutomation, targetAutomation, automationGain,
      hours.perEmployee, hours.total, totalHoursSaved, annualSavings, monthlySavings,
      quality, escalation, error,
      totalAnnualSavings, totalAnnualSavings / 12.0,
      Min((currentAutomation + automationGain) * 100.0, ProjectedRateCeiling))
  }

  /** The estimate as the caller receives it. */
  function Estimate(inputs: Inputs, cfg: Config): (r: Results)
    requires Admissible(inputs, cfg)
    ensures r.headcount == inputs.headcount
    ensures r.projectedAutomationRate <= 60
    ensures r.projectedAutomationRate == Round(100.0 * TargetAutomation(LookupIndustry(cfg.industryDefaults, inputs.industry)))
    ensures r.currentAutomationRate == inputs.currentAutomationRate.GetOr(0.0)
    ensures r.productivityGainPercentage == 100.0 * cfg.productivity.productivityGainPercentage
    ensures r.monthlyTicketVolume == inputs.monthlyTicketVolume
    ensures r.annualTicketVolume.Some? <==> Truthy(inputs.monthlyTicketVolume)
    ensures r.annualTicketVolume.Some? ==> r.annualTicketVolume.value == 12.0 * inputs.monthlyTicketVolume.value
    // every hour and currency figure is its exact figure rounded to the nearest whole unit
    ensures var b := Compute(inputs, cfg);
            && Nearest(r.hoursPerEmployeePerYear, b.hoursPerEmployee)
            && Nearest(r.totalHoursPerYear, b.totalHoursSaved)
            && Nearest(r.loadedHourlyRate, b.loadedHourlyRate)
            && Nearest(r.annualSavings, b.annualSavings)
            && Nearest(r.monthlySavings, b.monthlySavings)
            && Nearest(r.totalAnnualSavings, b.totalAnnualSavings)
            && Nearest(r.totalMonthlySavings, b.totalMonthlySavings)
            && Nearest(r.qualityImprovementSavings, b.qualityImprovementSavings)
            && Nearest(r.escalationReductionSavings, b.escalationReductionSavings)
            && Nearest(r.errorReductionSavings, b.errorReductionSavings)
            && Nearest(r.dailySavings, b.monthlySavings / WorkingDaysPerMonth)
            && Nearest(r.totalDailySavings, b.totalMonthlySavings / WorkingDaysPerMonth)
            && Nearest(r.projectedAutomationRate, b.newAutomationRate)
            && Nearest(r.automationGain, b.newAutomationRate - r.currentAutomationRate)
  {
    var b := Compute(inputs, cfg);
    var currentRate := OrElse(inputs.currentAutomationRate, b.currentAutomation * 100.0);
    RoundMonotone(b.newAutomationRate, ProjectedRateCeiling);
    RoundIntegerAndTie(60);
    Results(
      inputs.headcount,
      Round(b.hoursPerEmployee),
      Round(b.totalHoursSaved),
      Round(b.loadedHourlyRate),
      Round(b.annualSavings),
      Round(b.monthlySavings),
      Round(b.monthlySavings / WorkingDaysPerMonth),
      Round(b.totalAnnualSavings),
      Round(b.totalMonthlySavings),
      Round(b.totalMonthlySavings / WorkingDaysPerMonth),
      Round(b.qualityImprovementSavings),
      Round(b.escalationReductionSavings),
      Round(b.errorReductionSavings),
      currentRate,
      Round(b.newAutomationRate),
      Round(b.newAutomationRate - currentRate),
      cfg.productivity.productivityGainPercentage * 100.0,
      inputs.monthlyTicketVolume,
      if Truthy(inputs.monthlyTicketVolume) then Some(inputs.monthlyTicketVolume.value * 12.0) else None)
  }
}
