# Agentic Launchpad ROI estimator — Dafny model

This project models the savings calculator behind the Agentic Launchpad ROI page.
Its engine is `calculateROIMetrics`. It takes an organisation's headcount and,
optionally, its ticket volume, handle time, employee cost, industry and tier 2
quality metrics (first-contact resolution, resolution time, escalations, error
rework). From these it derives a loaded hourly rate and an automation gain
capped at 60%. It then estimates hours saved on one of two paths, ticket-based
or employee-based, and discounts the total for the ramp-up months. Three
independently gated tier 2 savings components are added to the base savings.
The engine reports every hour and currency figure rounded with `Math.round`.

Layout, one module per file:

- `wrappers.dfy` (`Wrappers`): `Option`, which stands for an optional JavaScript property.
- `js_numbers.dfy` (`JsNumbers`): the number semantics the engine depends on. These are truthiness of an optional number, `||` with a fallback, `Math.min`, and `Math.round` as `(x + 0.5).Floor`.
- `config.dfy` (`RoiConfig`): the industry defaults table, the productivity and cost assumptions, and the shipped values. Lookup falls back to `other`.
- `estimator.dfy` (`Estimator`): the input, breakdown and results records; each step of the calculation; `Compute` (unrounded figures) and `Estimate` (the rounded results record).
- `properties.dfy` (`EstimatorProperties`): lemmas relating figures and estimates to each other.
- `scenarios.dfy` (`Scenarios`): worked estimates under the shipped configuration.

All arithmetic is over exact `real`s. An optional numeric input is an `Option<real>`.
It is "truthy" when it is present and non-zero. The first-contact resolution rate
is the one exception: the source tests it with `!== undefined`, so a present 0
still triggers the quality component. The source reads its configuration from a
shared object that is bound to itself at load time. Here the configuration is an
explicit immutable `Config` argument. `DefaultConfig` holds the shipped values:
2080 working hours, a 20% productivity gain, 3 ramp-up months, a 1.4 loaded-cost
multiplier and the six-industry table.

The automation gain is not floored at zero. With `other`, a 70% current rate
gives 0.35 − 0.70 = −0.35 (`Scenarios.NegativeGainExample`). A gain of −0.10 from
that rate would need an industry share of at least 0.60, and no shipped industry
has one.

The source says only that the ramp-up months come "before full productivity
gains are realized"; it does not say how the discount `1 − rampUpMonths / 24`
arises. One reading that yields it is a two-year horizon in which each ramp-up
month realises nothing and each later month the full gain
(`Estimator.FullEffectMonths`); for a whole number of months the factor is
exactly the share of full-effect months
(`EstimatorProperties.RampUpFactorIsFullEffectShare`). Another reading, a linear
ramp over the ramp-up months inside a single year, gives the same formula. The
model proves the first and takes no position on which the authors meant.

## Model

| member | source | states |
|---|---|---|
| JsNumbers.Round | app/config/calculations.ts:205-227 | `Math.round` returns the integer n with n − ½ ≤ x < n + ½, so the result is within half a unit and ties go up |
| JsNumbers.RoundUnique | app/config/calculations.ts:205-227 | any integer in that half-open window is the rounded value, which makes the window a complete characterisation |
| JsNumbers.RoundMonotone | app/config/calculations.ts:205-227 | rounding preserves order |
| JsNumbers.RoundIntegerAndTie | app/config/calculations.ts:205-227 | whole numbers are unchanged; n + ½ rounds to n + 1 and n − ½ rounds to n (JavaScript's half-up rule, also for negatives) |
| JsNumbers.OrZeroIsGetOrZero | app/config/calculations.ts:128 | `rate \|\| 0` equals "the rate if present, else 0", because a present 0 gives 0 either way |
| JsNumbers.Min | app/config/calculations.ts:129 | `Math.min` returns one of its arguments, and that argument is at most the other |
| RoiConfig.LookupIndustry | app/config/calculations.ts:116-118 | the profile always comes from the table; a listed, non-empty name gets its own entry and everything else gets `other` |
| RoiConfig.DefaultConfigValid | app/config/calculations.ts:14-70 | the shipped configuration has the `other` entry and a non-zero working year, ramps up in fewer than 24 months, and every industry share lies in (0, 0.60] |
| RoiConfig.UnlistedIndustryUsesOther | app/config/calculations.ts:40-44 | with the shipped table, an absent, empty or unknown industry gets $75/hour and a 35% automatable share |
| Estimator.LoadedRateSources | app/config/calculations.ts:121-125 | with a truthy annual cost, rate × working hours = cost × multiplier; otherwise rate = industry rate × multiplier |
| Estimator.CurrentAutomation | app/config/calculations.ts:128 | the current fraction × 100 is the given rate, or 0 when it is absent |
| Estimator.TargetAutomation | app/config/calculations.ts:129 | the target is at most 0.60 and at most the industry share, and equals one of them |
| Estimator.AutomationGain | app/config/calculations.ts:130 | current + gain = target, and the gain is negative exactly when the current rate exceeds 100 × target (no floor) |
| Estimator.SteadyStateHoursPaths | app/config/calculations.ts:136-150 | on both paths, per-employee hours × headcount = the pre-ramp total; on the ticket path 5 × the total = monthly volume × handle minutes × gain × productivity gain (12 months, 60 minutes an hour); off it the per-employee figure is working hours × industry share × productivity gain |
| Estimator.RampUpFactor | app/config/calculations.ts:153 | 24 × (1 − factor) = ramp-up months |
| Estimator.FullEffectMonths | app/config/calculations.ts:59-60 | counted month by month, the first m months after rollout hold m − r full-effect months when the first r realise nothing (0 when m ≤ r) |
| Estimator.AnnualTickets | app/config/calculations.ts:170 | 12 × the monthly volume when it is truthy, otherwise 600 × headcount (50 a month each) |
| Estimator.FcrImprovement | app/config/calculations.ts:167-169 | the improvement is at most 0.15; current + improvement never exceeds 0.95; it is ≥ 0 when current ≤ 0.95; it is exactly 0.15 below 0.80 and tops up to 0.95 above |
| Estimator.QualityGate | app/config/calculations.ts:165-173 | 0 unless FCR is defined and resolution time is truthy; with FCR defined it is annual tickets × FCR improvement × resolution time × rate |
| Estimator.EscalationGate | app/config/calculations.ts:175-183 | 0 without a truthy escalation volume; always 18 × volume × rate (12 × 0.30 × 2 × 2.5) |
| Estimator.ErrorGate | app/config/calculations.ts:185-193 | 0 without a truthy error rate; always 400 × savings = annual tickets × error rate × rate |
| Estimator.Compute | app/config/calculations.ts:115-200 | the profile comes from the lookup; current + gain = target; per-employee hours × headcount = the pre-ramp total, and total hours = that total × ramp factor (the ramp-up discount applies to the total only); base annual savings = total hours × rate; total annual = base + the three components; monthly figures are a twelfth; the current and target automation are the step functions' values, and the projection is 100 × target and at most 60 |
| Estimator.Estimate | app/config/calculations.ts:202-235 | every hour and currency field, both daily figures (the monthly figure over 21.67 days) and the reported gain (projection less the echoed current rate) are the exact figures rounded to the nearest whole unit, a half rounding up; echoes the headcount and ticket volume; the projected rate is the rounded 100 × target and at most 60; the echoed current rate is the given rate or 0; the productivity percentage is 100 × the configured gain; the annual ticket volume is present exactly when the monthly volume is truthy, and is then 12 × it |
| EstimatorProperties.ZeroCostFallsBackToIndustryRate | app/config/calculations.ts:121-125 | an annual cost of 0 prices labour exactly like an absent one, at industry rate × multiplier |
| EstimatorProperties.TicketPathHours | app/config/calculations.ts:136-144 | on the ticket path, 5 × per-employee hours × headcount = volume × minutes × gain × productivity gain, and the total is that figure after the ramp-up factor |
| EstimatorProperties.EmployeePathHours | app/config/calculations.ts:145-150 | off the ticket path, per-employee hours = working hours × industry share × productivity gain |
| EstimatorProperties.EmployeePathIgnoresHeadcount | app/config/calculations.ts:145-150 | off the ticket path, changing the headcount or the current automation rate leaves per-employee hours unchanged |
| EstimatorProperties.RampUpFactorIsFullEffectShare | app/config/calculations.ts:152-154 | for a whole number r ≤ 24 of ramp-up months, the factor equals the share of a 24-month horizon spent at full effect when nothing is gained during ramp-up |
| EstimatorProperties.RampUpDiscountsTotalOnly | app/config/calculations.ts:152-154 | with any ramp-up and positive hours, the total is strictly below per-employee hours × headcount |
| EstimatorProperties.AlreadyAutomatedSavesNegative | app/config/calculations.ts:128-157 | on the ticket path, a current rate above the capped target gives a negative gain, negative total hours and negative base savings |
| EstimatorProperties.NoAdjustmentMeansBaseTotals | app/config/calculations.ts:157-197 | with no tier 2 trigger met, the three components are 0 and the total annual, monthly and daily figures equal the base ones, both unrounded and rounded |
| EstimatorProperties.OnlyEscalationTriggered | app/config/calculations.ts:161-196 | meeting only the escalation trigger leaves quality and error at 0 and adds 18 × volume × rate to the base |
| EstimatorProperties.OnlyQualityTriggered | app/config/calculations.ts:161-196 | meeting only the quality trigger leaves escalation and error at 0 |
| EstimatorProperties.OnlyErrorTriggered | app/config/calculations.ts:161-196 | meeting only the error trigger leaves quality and escalation at 0, so the total is the base plus the error component |
| EstimatorProperties.EscalationSavingsPositive | app/config/calculations.ts:175-183 | a positive escalation volume at a positive rate gives positive escalation savings |
| EstimatorProperties.QualitySavingsNonNegative | app/config/calculations.ts:165-173 | with FCR ≤ 95% and non-negative volume, time and rate, quality savings are not negative |
| EstimatorProperties.SteadyStateHoursGrow | app/config/calculations.ts:136-150 | with non-negative figures, a larger headcount never lowers the pre-ramp total: it grows on the employee path and is unchanged on the ticket path |
| EstimatorProperties.BaseSavingsGrow | app/config/calculations.ts:136-157 | with non-negative figures and a ramp-up within 24 months, a larger headcount never lowers the base annual savings |
| EstimatorProperties.QualitySavingsGrow | app/config/calculations.ts:165-173 | with non-negative figures and FCR ≤ 95%, a larger headcount never lowers the quality component |
| EstimatorProperties.ErrorSavingsGrow | app/config/calculations.ts:185-193 | with a non-negative error rate and rate, a larger headcount never lowers the error component |
| EstimatorProperties.AutomationProjection | app/config/calculations.ts:199-227 | the projected rate is the rounded 100 × target and at most 60; the reported gain is the rounded 100 × target minus the echoed current rate |
| EstimatorProperties.RoundedComponentsNearTotal | app/config/calculations.ts:196-222 | rounding happens only at the output, so the four rounded parts sum to within 2 of the rounded total |
| Scenarios.EmployeePathExample | app/config/calculations.ts:145-227 | 500 employees whose industry resolves to `other` get 145.6 hours each, 63700 hours in total, $105/hour and the full rounded results record (146 hours each, $6688500 a year, $25721 a working day, a projected rate of 35) |
| Scenarios.TicketPathExample | app/config/calculations.ts:136-154 | 100 technology employees with 5000 tickets at 30 min and 15% automation take the ticket path: a gain of 0.30, 18 hours each, not the employee path's 187.2 |
| Scenarios.NegativeGainExample | app/config/calculations.ts:128-157 | 70% current automation in `other` gives a gain of 0.35 − 0.70, −735 hours and −$77175 |
| Scenarios.EscalationOnlyExample | app/config/calculations.ts:175-196 | 10 escalations a month at $105/hour add $18900, and the other two components stay at 0 |
| Scenarios.ZeroFcrStillCounts | app/config/calculations.ts:165 | a present FCR of 0 still triggers the quality component |
| Scenarios.UnknownIndustryExample | app/config/calculations.ts:116-118 | the industry "aerospace" yields the same results record as `other` |

## Left out

- The page component (`app/page.tsx`) is left out: form state, layout, currency and number formatting, and the contact e-mail action. Its only constraint on the engine is that headcount is a positive integer, which is `Admissible`'s `headcount >= 1`. The engine divides by headcount on the ticket path.
- The page's headline choice `totalAnnualSavings || annualSavings` is a display preference and is not modelled.
- IEEE-754 behaviour is not modelled: representation error, NaN (which is falsy) and infinities. All arithmetic is exact, and only `Math.round` is spelled out. So `(current + gain) × 100` equals 100 × the target exactly here, while floating point may differ in the last place.
- `RoiConfig.Valid` demands a non-zero working year. With 0, the source would divide an annual cost by zero and produce an infinity. The shipped value is 2080.
- Industry keys that JavaScript would resolve through the object prototype (such as `"constructor"`) are not modelled. The table is a plain `map`.
- Configuration data the engine never reads is not modelled: the use-case list, implementation weeks, deployment days, each industry's complexity multiplier, `automatableTasksPercentage` and `costs.averageHourlyRate`.
- The load-time self-binding of the calculation block to its siblings is replaced by the explicit `Config` argument.
- Idempotence (the same request and configuration give the same result) has no lemma. Dafny functions are deterministic by construction.
