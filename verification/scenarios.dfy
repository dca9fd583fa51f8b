/**
 * Worked estimates under the shipped configuration, each pinned down to the
 * figures the formulas give.
 */
module Scenarios {
  import opened Wrappers
  import opened JsNumbers
  import opened RoiConfig
  import opened Estimator

  /** A request carrying only a headcount and an industry. */
  function Basic(headcount: int, industry: Option<string>): Inputs {
    Inputs(headcount, None, None, None, None, industry, None, None, None, None)
  }

  /** The results record for 500 employees whose industry resolves to `other`. */
  const OtherFiveHundred: Results :=
    Results(500, 146, 63700, 105, 6688500, 557375, 25721, 6688500, 557375, 25721,
            0, 0, 0, 0.0, 35, 35, 20.0, None, None)

  /**
   * 500 employees whose industry resolves to `other`, nothing else: the employee
   * path gives 2080 x 0.35 x 0.20 = 145.6 hours each, and the total
   * 145.6 x 500 x 0.875 = 63700 hours at $105 an hour.
   */
  lemma EmployeePathExample(industry: Option<string>)
    requires LookupIndustry(DefaultIndustries, industry) == IndustryProfile(75.0, 0.35)
    ensures var b := Compute(Basic(500, industry), DefaultConfig);
            && b.hoursPerEmployee == 145.6
            && b.totalHoursSaved == 145.6 * 500.0 * 0.875 == 63700.0
            && b.loadedHourlyRate == 105.0
    ensures Estimate(Basic(500, industry), DefaultConfig) == OtherFiveHundred
  {
    DefaultConfigValid();
    var inputs := Basic(500, industry);
    assert LoadedHourlyRate(inputs.avgCostPerEmployee, DefaultConfig, IndustryProfile(75.0, 0.35)) == 105.0;
    var b := Compute(inputs, DefaultConfig);
    assert b.hoursPerEmployee == 145.6;
    assert b.totalHoursSaved == 63700.0;
    assert b.annualSavings == 6688500.0;
    assert b.monthlySavings == 557375.0;
    assert b.totalAnnualSavings == 6688500.0;
    assert b.totalMonthlySavings == 557375.0;
    assert b.newAutomationRate == 35.0;
    RoundUnique(145.6, 146);
    RoundUnique(557375.0 / 21.67, 25721);
    RoundIntegerAndTie(63700);
    RoundIntegerAndTie(105);
    RoundIntegerAndTie(6688500);
    RoundIntegerAndTie(557375);
    RoundIntegerAndTie(35);
    RoundIntegerAndTie(0);
  }

  /**
   * 100 technology employees with 5000 tickets a month at 30 minutes and 15%
   * current automation take the ticket path: 30000 ticket hours, a 30-point
   * gain, 1800 hours saved (18 each) before ramp-up, unlike the 187.2 hours
   * each the employee path would give.
   */
  lemma TicketPathExample()
    ensures var inputs := Inputs(100, Some(5000.0), Some(15.0), Some(30.0), None, Some("technology"),
                                 None, None, None, None);
            var b := Compute(inputs, DefaultConfig);
            && TicketBased(inputs)
            && b.automationGain == 0.30
            && b.hoursPerEmployee == 18.0
            && b.hoursPerEmployee != 2080.0 * 0.45 * 0.20
            && b.totalHoursSaved == 1575.0
            && b.annualSavings == 198450.0
    ensures var r := Estimate(Inputs(100, Some(5000.0), Some(15.0), Some(30.0), None, Some("technology"),
                                     None, None, None, None), DefaultConfig);
            && r.monthlySavings == 16538
            && r.projectedAutomationRate == 45
            && r.automationGain == 30
            && r.annualTicketVolume == Some(60000.0)
  {
    DefaultConfigValid();
    RoundIntegerAndTie(16537);
  }

  /**
   * 70% current automation in industry `other`: the gain is 0.35 - 0.70,
   * unfloored, and on the ticket path the hours and savings go negative.
   */
  lemma NegativeGainExample()
    ensures var b := Compute(Inputs(10, Some(1000.0), Some(70.0), Some(60.0), None, None,
                                    None, None, None, None), DefaultConfig);
            && b.automationGain == 0.35 - 0.70
            && b.totalHoursSaved == -735.0
            && b.annualSavings == -77175.0
    ensures var r := Estimate(Inputs(10, Some(1000.0), Some(70.0), Some(60.0), None, None,
                                     None, None, None, None), DefaultConfig);
            && r.projectedAutomationRate == 35
            && r.automationGain == -35
            && r.annualSavings == -77175
  {
    DefaultConfigValid();
  }

  /**
   * Only an escalation volume among the tier 2 fields: the escalation figure is
   * 10 x 12 x 0.30 x 2 x 105 x 2.5 and the other two stay at 0.
   */
  lemma EscalationOnlyExample()
    ensures var r := Estimate(Basic(50, None).(monthlyEscalationVolume := Some(10.0)), DefaultConfig);
            && r.escalationReductionSavings == 18900
            && r.qualityImprovementSavings == 0
            && r.errorReductionSavings == 0
            && r.annualSavings == 668850
            && r.totalAnnualSavings == 687750
  {
    DefaultConfigValid();
    var inputs := Basic(50, None).(monthlyEscalationVolume := Some(10.0));
    assert LookupIndustry(DefaultIndustries, None) == IndustryProfile(75.0, 0.35);
    assert LoadedHourlyRate(inputs.avgCostPerEmployee, DefaultConfig, IndustryProfile(75.0, 0.35)) == 105.0;
    var b := Compute(inputs, DefaultConfig);
    assert b.escalationReductionSavings == 18900.0;
    assert b.qualityImprovementSavings == 0.0 && b.errorReductionSavings == 0.0;
    assert b.hoursPerEmployee == 145.6;
    assert b.totalHoursSaved == 6370.0;
    assert b.annualSavings == 668850.0;
    assert b.totalAnnualSavings == 687750.0;
  }

  /** A first-contact resolution rate of 0 is still "defined": quality savings follow from it. */
  lemma ZeroFcrStillCounts()
    ensures var r := Estimate(Basic(10, None).(firstContactResolutionRate := Some(0.0),
                                               avgResolutionTimeHours := Some(1.0)), DefaultConfig);
            r.qualityImprovementSavings == 94500
  {
    DefaultConfigValid();
    var inputs := Basic(10, None).(firstContactResolutionRate := Some(0.0), avgResolutionTimeHours := Some(1.0));
    assert QualityTriggered(inputs);
    assert LookupIndustry(DefaultIndustries, None) == IndustryProfile(75.0, 0.35);
    assert LoadedHourlyRate(inputs.avgCostPerEmployee, DefaultConfig, IndustryProfile(75.0, 0.35)) == 105.0;
    assert AnnualTickets(inputs) == 6000.0;
    assert FcrImprovement(0.0) == 0.15;
    assert QualitySavings(inputs, 105.0) == 94500.0;
    assert Compute(inputs, DefaultConfig).qualityImprovementSavings == 94500.0;
    RoundIntegerAndTie(94500);
  }

  /** An industry the table does not know is estimated exactly as `other`. */
  lemma UnknownIndustryExample()
    ensures Estimate(Basic(500, Some("aerospace")), DefaultConfig) == OtherFiveHundred
  {
    UnlistedIndustryUsesOther(Some("aerospace"));
    EmployeePathExample(Some("aerospace"));
  }
}
