# TCO/ROI calculation engine of the NAC comparison tool

This project models the calculation core of a network-access-control total
cost of ownership (TCO) comparison tool. The tool compares an incumbent
vendor (the "current" party) with a cloud-native reference vendor (the
"portnox" party). The model has these parts.

- **Cost primitives and the complexity model** (module `Vendors`, file
  `vendors.dfy`). These are the one-time, annual and total cost formulas,
  the ROI and payback ratios, and the implementation-time fold.
  `ComplexityMultiplier` is the order-sensitive multiplier: it starts at
  1.0, multiplies in a base factor, then adds the location, authentication,
  legacy, cloud and policy terms. It is an imperative method, proved equal
  to the reference definition `Multiplier`.
- **The reference tables** (module `VendorData`, file `vendor_data.dfy`).
  These are the cost factors and implementation timelines of the eight
  vendors at the four organization sizes.
- **The comparison builder** `calculateResults` (module `Calculations`,
  file `calculations.dfy`). It resolves the loosely typed complexity
  object with its `||` defaults. It applies the raw multiplier to the
  incumbent and the dampened multiplier `1 + (m - 1) * 0.4` to the
  reference party. It derives the two TCOs, the savings, the savings
  percentage, the ROI and the payback period (999 when nothing is saved
  per year). It also builds the year-by-year series, the two eight-category
  breakdowns and the implementation-time comparison.
- **Industry defaults** (module `IndustryData`, file `industry_data.dfy`).
  This is the industry benchmark table and `getIndustryDefaults`, which
  rounds a head count times the profile's rates up to a device count and an
  hourly downtime cost.
- **Worked comparison** (module `Scenarios`, file `scenarios.dfy`). It
  takes the small-organization incumbent against the reference vendor, with
  an IT staff cost of 100000 per year, downtime at 5000 per hour and a
  three-year horizon. The results are 990000 against 234000, savings of
  756000 and a payback of 9000 / 210000 years.

Modelling conventions:

- JavaScript numbers holding money, ratios and percentages are `real`.
  Day counts, the location count and the horizon `yearsToProject` are
  `int`.
- A JavaScript division whose denominator is 0 gives NaN or Infinity. Here
  it is `None` (module `Wrappers`). This applies to `calculateROI`,
  `calculatePaybackPeriod`, the savings percentage, the ROI and the
  implementation-time percentage.
- `calculateResults` is one long function. Its statement groups are
  modelled as:
  - `ResultsForMultiplier` and `TcoFigures`, the TCO block;
  - `TcoRatios`, the ratios;
  - `BuildYearByYear`, the `for` loop;
  - `CostBreakdown`, the two breakdown literals;
  - `ImplementationFigures`, the implementation block.

  `TcoFigures`, `TcoRatios` and `ResultsForMultiplier` are proved against
  the specification predicates `IsTcoCosts`, `IsTcoRatios`, `IsTcoSummary`
  and `IsCalculationResults`. `BuildYearByYear` is proved equal, entry by
  entry, to the function `YearEntry`. `CostBreakdown` and
  `ImplementationFigures` state their facts in their own ensures, and
  `IsCalculationResults` is defined through them. The lemmas state the
  promised properties of these predicates and functions.
- The series field `savings` is computed in the code as
  `currentYearCost - portnoxYearCost`. That is the cumulative difference up
  to that year, not the savings of that year alone, so it always equals
  `cumulativeSavings`. The model follows the code, and
  `YearEntry` and `SeriesEndpoints` state the equality.
- The savings percentage and the implementation-time percentage use the
  same formula as `calculateROI`, so the model computes them with `Roi`.

## Model

| member | source | states |
|---|---|---|
| Vendors.TotalImplementationTime | lib/data/vendors.ts:1028-1030 | the reduce over the timeline's values is the sum of the six day counts, and is non-negative when every count is |
| Vendors.ReduceIsSum | lib/data/vendors.ts:1029 | the left fold `reduce((total, days) => total + days, t)` equals `t` plus the sum of the values |
| Vendors.SumConcat | lib/data/vendors.ts:1029 | the sum of a concatenation is the sum of the parts |
| Vendors.SumPermutation | lib/data/vendors.ts:1029 | any two sequences with the same multiset of values have the same sum |
| Vendors.ImplementationTimeOrderFree | lib/data/vendors.ts:1028-1030 | folding the day counts in any order gives the same total implementation time |
| Vendors.InitialCosts | lib/data/vendors.ts:1032-1037 | the one-time costs are non-negative for a non-negative cost record |
| Vendors.InitialCostsIgnoreRecurring | lib/data/vendors.ts:1032-1037 | changing maintenance, licensing, staff or downtime figures leaves the initial costs unchanged |
| Vendors.AnnualCosts | lib/data/vendors.ts:1039-1044 | the annual costs are non-negative for a non-negative record and non-negative staff and downtime rates |
| Vendors.AnnualCostsIgnoreOneTime | lib/data/vendors.ts:1039-1044 | changing hardware, services, redesign or training figures leaves the annual costs unchanged |
| Vendors.Tco | lib/data/vendors.ts:1046-1057 | with a zero horizon the TCO is the scaled initial costs; with non-negative inputs it is non-negative |
| Vendors.TcoDefaultMultiplier | lib/data/vendors.ts:1051-1056 | without a multiplier argument the TCO is initial costs plus annual costs times the horizon |
| Vendors.TcoScalesWithMultiplier | lib/data/vendors.ts:1053-1056 | multiplying the complexity multiplier by k multiplies the TCO by k |
| Vendors.TcoMonotoneInYears | lib/data/vendors.ts:1046-1057 | with non-negative inputs a longer horizon never gives a smaller TCO |
| Vendors.Roi | lib/data/vendors.ts:1059-1061 | defined exactly when the investment is non-zero; then ROI times investment is 100 times the savings, and for a positive investment the ROI is non-negative exactly when the savings are |
| Vendors.PaybackPeriod | lib/data/vendors.ts:1063-1065 | defined exactly when the annual savings are non-zero; then the period times the annual savings is the investment |
| Vendors.BaseFactor | lib/data/vendors.ts:1080-1085 | the base factor lies in [0.9, 1.3] and is at most 1.0 below high complexity |
| Vendors.LocationTerm | lib/data/vendors.ts:1088-1091 | the location term is never above 1.0, is 0 without multiple locations and is non-negative from one site up |
| Vendors.AuthTerm | lib/data/vendors.ts:1093-1095 | the authentication term lies in [0, 0.15] and is non-zero exactly when authentication is complex |
| Vendors.LegacyTerm | lib/data/vendors.ts:1097-1100 | with the percentage in [0, 100] the legacy term lies in [0, 0.3]; it is 0 without legacy devices |
| Vendors.CloudTerm | lib/data/vendors.ts:1102-1104 | the cloud term lies in [0, 0.1] and is non-zero exactly when cloud integration is on |
| Vendors.PolicyTerm | lib/data/vendors.ts:1106-1114 | the policy term lies in [0, 0.25], is 0 without custom policies, and is 0.05, 0.15 or 0.25 for low, medium or high custom policies |
| Vendors.Multiplier | lib/data/vendors.ts:1067-1117 | the reference multiplier is at least 0.9 with at least one site and a non-negative legacy percentage, and at most 3.1 with the legacy percentage in [0, 100] |
| Vendors.ComplexityMultiplier | lib/data/vendors.ts:1067-1117 | the step-by-step multiplier equals the base factor plus the sum of the add-on terms |
| Vendors.BaseFactorOnly | lib/data/vendors.ts:1078-1085 | with every add-on flag off the multiplier is 1.0, 0.9 or 1.3 for medium, low or high complexity |
| Vendors.BaseFactorAppliedFirst | lib/data/vendors.ts:1078-1116 | the base factor scales only the initial 1.0: changing the network complexity shifts the multiplier by the difference of base factors alone |
| Vendors.MultiplierMonotoneInLocationCount | lib/data/vendors.ts:1088-1091 | more locations never lower the multiplier |
| Vendors.LegacyTermMonotone | lib/data/vendors.ts:1097-1100 | the legacy term is non-decreasing in the legacy percentage |
| Vendors.MultiplierMonotoneInLegacyPercentage | lib/data/vendors.ts:1097-1100 | a higher legacy percentage never lowers the multiplier |
| Vendors.MultiplierMonotoneInPolicyLevel | lib/data/vendors.ts:1106-1114 | a higher custom-policy level never lowers the multiplier |
| Vendors.HighComplexityScenario | lib/data/vendors.ts:1067-1117 | high complexity, five sites, complex authentication, 40% legacy devices, cloud integration and medium policies give exactly 2.22 |
| VendorData.VendorCosts | lib/data/vendors.ts:258-595 | every vendor and size has a non-negative cost record |
| VendorData.VendorImplementation | lib/data/vendors.ts:598-871 | every vendor and size has non-negative day counts |
| VendorData.ReferenceVendorHasNoHardware | lib/data/vendors.ts:259-300 | the reference vendor needs no hardware at any size |
| VendorData.ReferenceVendorFastest | lib/data/vendors.ts:598-871 | at every size the reference vendor's total implementation time is strictly the shortest |
| Calculations.OrZero | lib/utils/calculations.ts:129 | `p \|\| 0` follows JavaScript's `\|\|`: a truthy percentage is kept, and an absent one or the falsy 0 gives 0 |
| Calculations.OrMedium | lib/utils/calculations.ts:124-132 | `level \|\| 'medium'` follows JavaScript's `\|\|`: a level whose name is a non-empty (truthy) string is kept, otherwise medium; every level name is non-empty |
| Calculations.ResolveComplexity | lib/utils/calculations.ts:123-133 | an empty complexity object resolves to the defaults; each level is the given one or medium; the location count is the given one unless absent or 0, which give 1; each of the five flags is on exactly when given as true; the legacy percentage is the given one or 0 |
| Calculations.Dampened | lib/utils/calculations.ts:135-136 | for m >= 1 the dampened multiplier lies in [1, m]; for m <= 1 it lies in [m, 1] |
| Calculations.DampenedMonotone | lib/utils/calculations.ts:136 | dampening preserves the order of multipliers |
| Calculations.DefaultComplexityIsNeutral | lib/utils/calculations.ts:123-136 | an empty complexity object gives raw and dampened multipliers of exactly 1.0 |
| Calculations.PaybackOrSentinel | lib/utils/calculations.ts:164 | 999 when the annual savings are not positive; otherwise the payback period of the reference party's initial costs, which is non-negative for a non-negative outlay |
| Calculations.TcoRatios | lib/utils/calculations.ts:157-164 | the savings percentage and the ROI are defined exactly when currentTCO, resp. portnoxTCO, is non-zero and solve `value * TCO == savings * 100`; the payback is 999 or solves `period * annualSavings == portnoxTotalInitialCosts` |
| Calculations.TcoFigures | lib/utils/calculations.ts:139-164 | each TCO is its initial costs plus the horizon times its annual costs, the three savings are the differences, and the ratios satisfy the TcoRatios equations |
| Calculations.TcoResultsMatchCalculateTco | lib/utils/calculations.ts:139-154 | the two TCOs equal calculateTCO of each party's cost factors with the raw, resp. dampened, multiplier |
| Calculations.TotalSavingsDecompose | lib/utils/calculations.ts:157-160 | total savings equal the initial savings plus the horizon times the annual savings |
| Calculations.SavingsWhenReferenceNoDearer | lib/utils/calculations.ts:139-160 | a reference party no dearer than the incumbent at face value yields non-negative total, initial and annual savings for every multiplier of at least 1 |
| Calculations.RatioSigns | lib/utils/calculations.ts:157-164 | with a positive TCO the savings percentage and the ROI have the sign of the total savings; a non-negative reference outlay never gives a negative payback |
| Calculations.NatToDecimal | lib/utils/calculations.ts:178 | the year numeral is non-empty and made of decimal digits |
| Calculations.DecimalRoundTrip | lib/utils/calculations.ts:178 | reading the numeral back gives the year |
| Calculations.YearLabel | lib/utils/calculations.ts:178 | entry 0 is labelled "Initial" and every later label starts with 'Y' and is longer than the "Year " prefix |
| Calculations.YearLabelReadsBack | lib/utils/calculations.ts:178 | past the "Year " prefix, the label of year N reads back as N |
| Calculations.YearLabelsDistinct | lib/utils/calculations.ts:178 | no two entries of the series share a label |
| Calculations.YearEntry | lib/utils/calculations.ts:169-185 | in every entry `savings` is current minus portnox and equals `cumulativeSavings`; the "Initial" entry holds each party's initial costs alone |
| Calculations.BuildYearByYear | lib/utils/calculations.ts:167-186 | the loop yields yearsToProject + 1 entries, and entry N is labelled "Initial" or "Year N" and holds each party's initial costs plus N times its annual costs |
| Calculations.SeriesEndpoints | lib/utils/calculations.ts:167-186 | the first entry is "Initial" and holds the initial savings, the last entry holds the two TCOs, and the two savings columns agree throughout |
| Calculations.OneTimeItems | lib/utils/calculations.ts:189-193 | the four one-time categories in order, adding up to the scaled initial costs |
| Calculations.RecurringItems | lib/utils/calculations.ts:194-197 | the four recurring categories in order, adding up to the scaled annual costs times the horizon |
| Calculations.CostBreakdown | lib/utils/calculations.ts:189-209 | exactly the eight categories in the fixed order; the first four add up to the scaled initial costs, the last four to the scaled annual costs over the horizon, and all eight to calculateTCO |
| Calculations.BreakdownsMatchTco | lib/utils/calculations.ts:139-209 | each party's breakdown adds up to that party's TCO in the results |
| Calculations.ImplementationFigures | lib/utils/calculations.ts:212-215 | each party's time is its total days times its own multiplier, the saving is the difference, and the percentage is defined exactly when the incumbent's time is non-zero |
| Calculations.ImplementationTimeSaved | lib/utils/calculations.ts:212-214 | a reference timeline no longer than the incumbent's saves time for every multiplier of at least 1 |
| Calculations.RawMultiplier | lib/utils/calculations.ts:123-133 | the multiplier of the resolved complexity object is 1.0 for an empty object and at most 3.1 whenever the resolved legacy percentage lies in [0, 100] |
| Calculations.CalculateResults | lib/utils/calculations.ts:115-246 | the results satisfy every equation of the TCO section, the ratios, the implementation comparison, both breakdowns and the series, for the multiplier the complexity object resolves to |
| Calculations.ResultsForMultiplier | lib/utils/calculations.ts:135-245 | the same results once the raw multiplier is known |
| IndustryData.Profile | lib/data/industry-data.ts:30-245 | every profile is filed under its own id, every percentage lies in [0, 100] and every density and hourly cost is positive |
| IndustryData.StandardLabelInjective | lib/data/industry-data.ts:30-245 | distinct compliance regimes carry distinct table labels |
| IndustryData.Ceil | lib/data/industry-data.ts:252 | `Math.ceil`: an integer in [x, x + 1) |
| IndustryData.CeilUnique | lib/data/industry-data.ts:252 | the ceiling is the only integer in [x, x + 1) |
| IndustryData.CeilMonotone | lib/data/industry-data.ts:252-256 | rounding up preserves order |
| IndustryData.ApplyProfile | lib/data/industry-data.ts:251-259 | the device count lies in [employees × density, employees × density + 1), the downtime cost in [rate × employees / 100, that + 1), and the percentages and both lists are the profile's own |
| IndustryData.GetIndustryDefaults | lib/data/industry-data.ts:248-260 | the same bounds and copies for the industry's own profile |
| IndustryData.RoundedRateMonotone | lib/data/industry-data.ts:252-256 | rounding a positive rate times a head count up is non-decreasing in the head count |
| IndustryData.ApplyProfileMonotone | lib/data/industry-data.ts:252-256 | for positive rates more employees never lower the device count or the downtime cost |
| IndustryData.DefaultsMonotoneInEmployees | lib/data/industry-data.ts:248-260 | for every industry more employees never lower the default device count or downtime cost |
| IndustryData.DefaultsNonNegative | lib/data/industry-data.ts:248-260 | a non-negative head count gives a non-negative device count and downtime cost |
| Scenarios.SmallCiscoCostPrimitives | lib/data/vendors.ts:1032-1065 | on the small Cisco and reference rows the initial, annual and total costs are 135000, 285000, 990000 and 9000, 75000, 234000, and the payback is 3/70 years |
| Scenarios.SmallCiscoMultiplier | lib/utils/calculations.ts:123-136 | the worked request leaves both multipliers at 1.0 |
| Scenarios.SmallCiscoTco | lib/utils/calculations.ts:139-164 | the worked request's TCO section: 990000 against 234000, savings 756000, annual savings 210000, payback 9000 / 210000, savings percentage 756000 × 100 / 990000 and ROI 756000 × 100 / 234000 |
| Scenarios.SmallCiscoResults | lib/utils/calculations.ts:115-246 | every result calculateResults may return for the worked request has those TCOs, savings and payback |

## Left out

- The React/Next.js layer is not part of this model: the layout components, the pages, the Next.js configuration and the application context. It holds user interface and hook state and no calculation.
- lib/data/roi-metrics.ts is not part of this model. It is a static catalogue whose calculation methods are prose, and nothing computes from it.
- `formatCurrency`, `formatPercentage`, `formatTimePeriod` and `getVendorColor` are left out. They are locale-dependent string formatting and presentation.
- `vendorDetails`, `featureComparison` and `sizeBands` are left out. They are display data that the calculations never read.
- IEEE-754 rounding is left out: arithmetic is exact over `real`. A division by zero is `None`, where the source yields NaN or Infinity.
- `yearsToProject` is an integer here. A fractional horizon would still run the source's loop and scale the TCO, but it is not modelled.
- The location count is an integer here. A fractional count is not modelled.
- Complexity levels are the three-valued `NetworkComplexity`. An unknown level string, which the source's `===` tests let through with a base factor of 1.0 and no policy add-on, is not modelled. Nor are truthy non-boolean flags, or a NaN legacy percentage, which `|| 0` turns into 0.
- `currentSolution`, `organizationSize` and `deviceCount` of the request are carried along but never read by `calculateResults`, as in the source.
- IndustryData.Profile: the industry table keeps the id, name, compliance list, recommended vendors, rates and severities. It drops the `description`, `keyRequirements` and `keyMetrics` prose, which only the user interface shows.
- IndustryData.Profile: compliance regimes are the enumeration `Standard`, and `StandardLabel` gives each its table label. Recommended vendors are `VendorData.VendorId` values rather than free strings.
- IndustryData.GetIndustryDefaults: the head count is any `real`. The source's `number` is not restricted further.
- IndustryData.GetIndustryDefaults: an unknown industry key is not modelled, because the industry is the enumeration `IndustryType`. In the source, `industryProfiles[industry]` is then undefined, and reading `deviceDensity` from it throws a TypeError. This is the one lookup that fails hard.
- VendorData.VendorCosts: an unknown vendor or size key is not modelled, because vendors and sizes are the enumerations `VendorId` and `OrganizationSize`. In the source, such a lookup in `vendorCosts` gives undefined, and the first field read from it throws a TypeError.
- VendorData.VendorImplementation: an unknown vendor or size key is not modelled, for the same reason. In the source, the lookup in `vendorImplementation` gives undefined, and the first field read from it throws.
