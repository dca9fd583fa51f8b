/**
 * The estimator's assumptions: the productivity and cost blocks and the
 * per-industry defaults table. In the source these live in one shared
 * object whose calculation block is bound to its siblings at load time;
 * here they form one immutable value handed to every estimate.
 */
module RoiConfig {
  import opened Wrappers

  /** The per-industry figures the estimator reads. */
  datatype IndustryProfile = IndustryProfile(averageHourlyRate: real, automatablePercentage: real)

  datatype Productivity = Productivity(
    annualWorkingHours: real,
    productivityGainPercentage: real,
    rampUpMonths: real)

  datatype Costs = Costs(loadedCostMultiplier: real)

  datatype Config = Config(
    productivity: Productivity,
    costs: Costs,
    industryDefaults: map<string, IndustryProfile>)

  /** The key whose profile stands in for an absent or unknown industry. */
  const FallbackIndustry: string := "other"

  /**
   * What an estimate needs of its configuration: the fallback profile exists,
   * and the working year is non-zero, because an annual salary is divided by it.
   */
  predicate Valid(cfg: Config) {
    && cfg.productivity.annualWorkingHours != 0.0
    && FallbackIndustry in cfg.industryDefaults
  }

  /** The industry table shipped with the calculator. */
  const DefaultIndustries: map<string, IndustryProfile> := map[
    "financial-services" := IndustryProfile(85.0, 0.40),
    "technology" := IndustryProfile(90.0, 0.45),
    "healthcare" := IndustryProfile(80.0, 0.30),
    "manufacturing" := IndustryProfile(70.0, 0.35),
    "retail" := IndustryProfile(65.0, 0.38),
    "other" := IndustryProfile(75.0, 0.35)
  ]

  /** The assumptions shipped with the calculator. */
  const DefaultConfig: Config := Config(
    Productivity(2080.0, 0.20, 3.0),
    Costs(1.4),
    DefaultIndustries)

  /**
   * The industry names a lookup honours: present, non-empty (an empty string
   * is falsy) and a key of the table.
   */
  predicate Listed(table: map<string, IndustryProfile>, industry: Option<string>) {
    industry.Some? && industry.value != "" && industry.value in table
  }

  /** The profile for the requested industry, falling back to `other`. */
  function LookupIndustry(table: map<string, IndustryProfile>, industry: Option<string>): (p: IndustryProfile)
    requires FallbackIndustry in table
    ensures p in table.Values
    ensures Listed(table, industry) ==> p == table[industry.value]
    ensures !Listed(table, industry) ==> p == table[FallbackIndustry]
  {
    if Listed(table, industry) then table[industry.value] else table[FallbackIndustry]
  }

  /** The shipped configuration meets what an estimate needs of it. */
  lemma DefaultConfigValid()
    ensures Valid(DefaultConfig)
    ensures DefaultConfig.productivity.rampUpMonths < 24.0
    ensures forall k :: k in DefaultIndustries ==> 0.0 < DefaultIndustries[k].automatablePercentage <= 0.60
  {
  }

  /**
   * With the shipped table, an absent industry, the empty string or any name
   * outside the six keys gets the `other` profile: $75 an hour, 35% automatable.
   */
  lemma UnlistedIndustryUsesOther(industry: Option<string>)
    requires industry.None? || industry.value !in {"financial-services", "technology", "healthcare", "manufacturing", "retail"}
    ensures LookupIndustry(DefaultIndustries, industry) == IndustryProfile(75.0, 0.35)
  {
  }
}
