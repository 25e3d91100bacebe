/** The comparison builder of lib/utils/calculations.ts: calculateResults
    turns one request into the TCO results of the incumbent ("current") and
    the reference ("portnox") party, the implementation-time comparison, the
    year-by-year cumulative series and two eight-category cost breakdowns.
    A JavaScript division by zero (NaN or Infinity) is modelled as `None`. */
module Calculations {
  import opened Wrappers
  import opened Vendors

  // ---------------------------------------------------------------------
  // Inputs
  // ---------------------------------------------------------------------

  /** The loosely typed `complexityFactors` object; an absent key is `None`. */
  datatype ComplexityInput = ComplexityInput(
    networkComplexity: Option<NetworkComplexity>,
    hasMultipleLocations: Option<bool>,
    locationCount: Option<int>,
    hasComplexAuthentication: Option<bool>,
    hasLegacyDevices: Option<bool>,
    percentLegacyDevices: Option<real>,
    hasCloudIntegration: Option<bool>,
    hasCustomPolicies: Option<bool>,
    policyComplexityLevel: Option<NetworkComplexity>)

  const EmptyComplexityInput :=
    ComplexityInput(None, None, None, None, None, None, None, None, None)

  /** The factors an empty `complexityFactors` object stands for. */
  const DefaultComplexity :=
    ComplexityFactors(Medium, false, 1, false, false, 0.0, false, false, Medium)

  datatype CalculationInputs = CalculationInputs(
    currentSolution: string,
    organizationSize: string,
    deviceCount: real,
    yearsToProject: int,
    currentCostFactors: CostFactors,
    portnoxCostFactors: CostFactors,
    currentImplementation: ImplementationTimeline,
    portnoxImplementation: ImplementationTimeline,
    fteCost: real,
    downtimeCost: real,
    complexityFactors: ComplexityInput)

  /** `flag || false` on a boolean flag. */
  function OrFalse(flag: Option<bool>): bool {
    match flag
    case Some(given) => given
    case None => false
  }

  /** `n || default` on a number: an absent key and the falsy 0 give
      `default`, every other value is kept. */
  function OrDefault(n: Option<int>, default: int): int {
    if n.Some? && n.value != 0 then n.value else default
  }

  /** `p || 0`. JavaScript's `||` keeps a truthy value and replaces a falsy
      one (absent or 0) by the default; a given 0 already is the default, so
      the body needs no case for it. */
  function OrZero(p: Option<real>): (r: real)
    ensures r == if p.Some? && p.value != 0.0 then p.value else 0.0
  {
    if p.Some? then p.value else 0.0
  }

  /** The string a complexity level stands for in the source. */
  function LevelName(c: NetworkComplexity): string {
    match c
    case Low => "low"
    case Medium => "medium"
    case High => "high"
  }

  /** `level || 'medium'`. JavaScript's `||` keeps a truthy value, and a
      string is truthy exactly when it is non-empty; every level name is
      non-empty, so only an absent key falls back to medium. */
  function OrMedium(level: Option<NetworkComplexity>): (c: NetworkComplexity)
    ensures c == if level.Some? && |LevelName(level.value)| > 0 then level.value else Medium
  {
    if level.Some? then level.value else Medium
  }

  /** The arguments calculateResults passes to the complexity model. */
  function ResolveComplexity(input: ComplexityInput): (f: ComplexityFactors)
    ensures input == EmptyComplexityInput ==> f == DefaultComplexity
    ensures input.networkComplexity.None? ==> f.networkComplexity == Medium
    ensures input.networkComplexity.Some? ==> f.networkComplexity == input.networkComplexity.value
    ensures f.hasMultipleLocations <==> input.hasMultipleLocations == Some(true)
    ensures input.locationCount.None? || input.locationCount == Some(0) ==> f.locationCount == 1
    ensures input.locationCount.Some? && input.locationCount.value != 0
            ==> f.locationCount == input.locationCount.value
    ensures f.hasComplexAuth <==> input.hasComplexAuthentication == Some(true)
    ensures f.hasLegacyDevices <==> input.hasLegacyDevices == Some(true)
    ensures f.legacyDevicePercentage
            == if input.percentLegacyDevices.Some? then input.percentLegacyDevices.value else 0.0
    ensures f.hasCloudIntegration <==> input.hasCloudIntegration == Some(true)
    ensures f.hasCustomPolicies <==> input.hasCustomPolicies == Some(true)
    ensures input.policyComplexityLevel.None? ==> f.policyComplexity == Medium
    ensures input.policyComplexityLevel.Some? ==> f.policyComplexity == input.policyComplexityLevel.value
  {
    ComplexityFactors(
      OrMedium(input.networkComplexity),
      OrFalse(input.hasMultipleLocations),
      OrDefault(input.locationCount, 1),
      OrFalse(input.hasComplexAuthentication),
      OrFalse(input.hasLegacyDevices),
      OrZero(input.percentLegacyDevices),
      OrFalse(input.hasCloudIntegration),
      OrFalse(input.hasCustomPolicies),
      OrMedium(input.policyComplexityLevel))
  }

  // ---------------------------------------------------------------------
  // Multipliers
  // ---------------------------------------------------------------------

  /** The reference party absorbs only 40% of the complexity overhead. */
  const PortnoxDampening: real := 0.4

  /** The reference party's multiplier, `1 + (m - 1) * 0.4`: always
      between 1 and the raw multiplier. */
  function Dampened(m: real): (d: real)
    ensures m >= 1.0 ==> 1.0 <= d <= m
    ensures m <= 1.0 ==> m <= d <= 1.0
  {
    1.0 + (m - 1.0) * PortnoxDampening
  }

  lemma DampenedMonotone(m: real, n: real)
    requires m <= n
    ensures Dampened(m) <= Dampened(n)
  {
  }

  /** An empty `complexityFactors` object leaves both parties' costs unscaled. */
  lemma DefaultComplexityIsNeutral()
    ensures Multiplier(ResolveComplexity(EmptyComplexityInput)) == 1.0
    ensures Dampened(Multiplier(ResolveComplexity(EmptyComplexityInput))) == 1.0
  {
  }

  // ---------------------------------------------------------------------
  // TCO results
  // ---------------------------------------------------------------------

  datatype TcoResults = TcoResults(
    currentTCO: real,
    portnoxTCO: real,
    totalSavings: real,
    savingsPercentage: Option<real>,
    annualSavings: real,
    initialCostSavings: real,
    currentTotalInitialCosts: real,
    currentAnnualCosts: real,
    portnoxTotalInitialCosts: real,
    portnoxAnnualCosts: real,
    roi: Option<real>,
    paybackPeriod: real)

  /** Payback period that stands for "no payback". */
  const NoPayback: real := 999.0

  /** The payback period calculateResults reports: the reference party's
      initial costs over the annual savings, or 999 when nothing is saved. */
  function PaybackOrSentinel(portnoxInitialCosts: real, annualSavings: real): (p: real)
    ensures annualSavings <= 0.0 ==> p == NoPayback
    ensures annualSavings > 0.0 ==> Some(p) == PaybackPeriod(portnoxInitialCosts, annualSavings)
    ensures portnoxInitialCosts >= 0.0 ==> p >= 0.0
  {
    if annualSavings > 0.0 then portnoxInitialCosts / annualSavings else NoPayback
  }

  /** How the TCO section combines the four subtotals over a horizon of
      `years`: each TCO is its initial costs plus the horizon times its annual
      costs, and the savings are the differences. */
  predicate IsTcoSummary(r: TcoResults, years: real) {
    && r.currentTCO == r.currentTotalInitialCosts + r.currentAnnualCosts * years
    && r.portnoxTCO == r.portnoxTotalInitialCosts + r.portnoxAnnualCosts * years
    && r.initialCostSavings == r.currentTotalInitialCosts - r.portnoxTotalInitialCosts
    && r.annualSavings == r.currentAnnualCosts - r.portnoxAnnualCosts
    && r.totalSavings == r.currentTCO - r.portnoxTCO
  }

  /** The cost figures of the TCO section for a raw complexity multiplier
      `m`: the incumbent's one-time and annual costs scaled by `m`, the
      reference party's by `Dampened(m)`, combined over the request's horizon. */
  predicate IsTcoCosts(inputs: CalculationInputs, m: real, r: TcoResults) {
    && r.currentTotalInitialCosts == InitialCosts(inputs.currentCostFactors) * m
    && r.currentAnnualCosts == AnnualCosts(inputs.currentCostFactors, inputs.fteCost, inputs.downtimeCost) * m
    && r.portnoxTotalInitialCosts == InitialCosts(inputs.portnoxCostFactors) * Dampened(m)
    && r.portnoxAnnualCosts
       == AnnualCosts(inputs.portnoxCostFactors, inputs.fteCost, inputs.downtimeCost) * Dampened(m)
    && IsTcoSummary(r, inputs.yearsToProject as real)
  }

  /** The ratios of the TCO section: the savings percentage and the ROI as
      the solutions of their defining equations (absent when the TCO they
      divide by is 0), and the payback period with its "no payback" sentinel. */
  predicate IsTcoRatios(r: TcoResults) {
    && (r.savingsPercentage.Some? <==> r.currentTCO != 0.0)
    && (r.savingsPercentage.Some? ==> r.savingsPercentage.value * r.currentTCO == r.totalSavings * 100.0)
    && (r.roi.Some? <==> r.portnoxTCO != 0.0)
    && (r.roi.Some? ==> r.roi.value * r.portnoxTCO == r.totalSavings * 100.0)
    && (r.annualSavings <= 0.0 ==> r.paybackPeriod == NoPayback)
    && (r.annualSavings > 0.0 ==> r.paybackPeriod * r.annualSavings == r.portnoxTotalInitialCosts)
  }

  /** The savings percentage, the ROI and the payback period of the TCO
      section, from the figures they are computed from. */
  method TcoRatios(totalSavings: real, currentTCO: real, portnoxTCO: real,
                   annualSavings: real, portnoxTotalInitialCosts: real)
    returns (savingsPercentage: Option<real>, roi: Option<real>, paybackPeriod: real)
    ensures savingsPercentage.Some? <==> currentTCO != 0.0
    ensures savingsPercentage.Some? ==> savingsPercentage.value * currentTCO == totalSavings * 100.0
    ensures roi.Some? <==> portnoxTCO != 0.0
    ensures roi.Some? ==> roi.value * portnoxTCO == totalSavings * 100.0
    ensures annualSavings <= 0.0 ==> paybackPeriod == NoPayback
    ensures annualSavings > 0.0 ==> paybackPeriod * annualSavings == portnoxTotalInitialCosts
  {
    savingsPercentage := Roi(totalSavings, currentTCO);
    roi := Roi(totalSavings, portnoxTCO);
    paybackPeriod := PaybackOrSentinel(portnoxTotalInitialCosts, annualSavings);
  }

  /** The TCO section of calculateResults from the four scaled subtotals. */
  method TcoFigures(currentTotalInitialCosts: real, currentAnnualCosts: real,
                    portnoxTotalInitialCosts: real, portnoxAnnualCosts: real, years: real)
    returns (r: TcoResults)
    ensures r.currentTotalInitialCosts == currentTotalInitialCosts
    ensures r.currentAnnualCosts == currentAnnualCosts
    ensures r.portnoxTotalInitialCosts == portnoxTotalInitialCosts
    ensures r.portnoxAnnualCosts == portnoxAnnualCosts
    ensures IsTcoSummary(r, years)
    ensures IsTcoRatios(r)
  {
    var currentTCO := currentTotalInitialCosts + currentAnnualCosts * years;
    var portnoxTCO := portnoxTotalInitialCosts + portnoxAnnualCosts * years;

    var totalSavings := currentTCO - portnoxTCO;
    var annualSavings := currentAnnualCosts - portnoxAnnualCosts;
    var initialCostSavings := currentTotalInitialCosts - portnoxTotalInitialCosts;

    var savingsPercentage, roi, paybackPeriod :=
      TcoRatios(totalSavings, currentTCO, portnoxTCO, annualSavings, portnoxTotalInitialCosts);

    r := TcoResults(
      currentTCO, portnoxTCO, totalSavings, savingsPercentage,
      annualSavings, initialCostSavings,
      currentTotalInitialCosts, currentAnnualCosts, portnoxTotalInitialCosts, portnoxAnnualCosts,
      roi, paybackPeriod);
  }

  /** A positive divisor passes the sign of the numerator to the quotient. */
  lemma QuotientSign(q: real, d: real, n: real)
    requires d > 0.0 && q * d == n
    ensures q >= 0.0 <==> n >= 0.0
  {
    if q < 0.0 {
      assert (-q) * d > 0.0;
    } else {
      ProductSign(q, d);
    }
  }

  /** With a positive TCO to divide by, the savings percentage and the ROI
      have the sign of the total savings; a non-negative reference outlay
      never gives a negative payback period. */
  lemma RatioSigns(r: TcoResults)
    requires IsTcoRatios(r)
    ensures r.currentTCO > 0.0 ==>
      r.savingsPercentage.Some? && (r.savingsPercentage.value >= 0.0 <==> r.totalSavings >= 0.0)
    ensures r.portnoxTCO > 0.0 ==>
      r.roi.Some? && (r.roi.value >= 0.0 <==> r.totalSavings >= 0.0)
    ensures r.portnoxTotalInitialCosts >= 0.0 ==> r.paybackPeriod >= 0.0
  {
    if r.currentTCO > 0.0 {
      QuotientSign(r.savingsPercentage.value, r.currentTCO, r.totalSavings * 100.0);
    }
    if r.portnoxTCO > 0.0 {
      QuotientSign(r.roi.value, r.portnoxTCO, r.totalSavings * 100.0);
    }
    if r.annualSavings > 0.0 {
      QuotientSign(r.paybackPeriod, r.annualSavings, r.portnoxTotalInitialCosts);
    }
  }

  /** The two TCOs are the ones calculateTCO gives for each party's cost
      factors and multiplier. */
  lemma TcoResultsMatchCalculateTco(inputs: CalculationInputs, m: real, r: TcoResults)
    requires IsTcoCosts(inputs, m, r)
    ensures r.currentTCO == Tco(inputs.currentCostFactors, inputs.fteCost, inputs.downtimeCost,
                                inputs.yearsToProject as real, m)
    ensures r.portnoxTCO == Tco(inputs.portnoxCostFactors, inputs.fteCost, inputs.downtimeCost,
                                inputs.yearsToProject as real, Dampened(m))
  {
  }

  /** The total savings split into the initial savings and the horizon
      times the annual savings. */
  lemma TotalSavingsDecompose(r: TcoResults, years: real)
    requires IsTcoSummary(r, years)
    ensures r.totalSavings == r.initialCostSavings + r.annualSavings * years
  {
    assert r.totalSavings == (r.currentTotalInitialCosts - r.portnoxTotalInitialCosts)
      + (r.currentAnnualCosts * years - r.portnoxAnnualCosts * years);
    assert r.currentAnnualCosts * years - r.portnoxAnnualCosts * years == r.annualSavings * years;
  }

  /** A reference party that is no dearer at face value is never dearer
      after the complexity adjustment, as long as the multiplier is at least 1. */
  lemma SavingsWhenReferenceNoDearer(inputs: CalculationInputs, m: real, r: TcoResults)
    requires IsTcoCosts(inputs, m, r)
    requires NonNegativeCosts(inputs.portnoxCostFactors)
    requires inputs.fteCost >= 0.0 && inputs.downtimeCost >= 0.0 && inputs.yearsToProject >= 0
    requires InitialCosts(inputs.portnoxCostFactors) <= InitialCosts(inputs.currentCostFactors)
    requires AnnualCosts(inputs.portnoxCostFactors, inputs.fteCost, inputs.downtimeCost)
          <= AnnualCosts(inputs.currentCostFactors, inputs.fteCost, inputs.downtimeCost)
    requires m >= 1.0
    ensures r.totalSavings >= 0.0
    ensures r.initialCostSavings >= 0.0
    ensures r.annualSavings >= 0.0
  {
    TotalSavingsDecompose(r, inputs.yearsToProject as real);
    ScaledNoGreater(InitialCosts(inputs.portnoxCostFactors), InitialCosts(inputs.currentCostFactors),
                    Dampened(m), m);
    ScaledNoGreater(AnnualCosts(inputs.portnoxCostFactors, inputs.fteCost, inputs.downtimeCost),
                    AnnualCosts(inputs.currentCostFactors, inputs.fteCost, inputs.downtimeCost),
                    Dampened(m), m);
    SumOfNonNegativeParts(r.totalSavings, r.initialCostSavings, r.annualSavings, inputs.yearsToProject as real);
  }

  lemma SumOfNonNegativeParts(total: real, initial: real, annual: real, years: real)
    requires total == initial + annual * years
    requires initial >= 0.0 && annual >= 0.0 && years >= 0.0
    ensures total >= 0.0
  {
    ProductSign(annual, years);
  }

  /** `x * d <= y * m` when `0 <= x <= y` and `1 <= d <= m`. */
  lemma ScaledNoGreater(x: real, y: real, d: real, m: real)
    requires 0.0 <= x <= y && 1.0 <= d <= m
    ensures x * d <= y * m
  {
    ProductSign(y - x, d);
    ProductSign(y, m - d);
  }

  // ---------------------------------------------------------------------
  // Year-by-year series
  // ---------------------------------------------------------------------

  datatype YearByYearData = YearByYearData(
    year: string,
    current: real,
    portnox: real,
    savings: real,
    cumulativeSavings: real)

  function DigitChar(d: int): char
    requires 0 <= d < 10
  {
    ('0' as int + d) as char
  }

  /** The decimal numeral of `n`, as a template literal prints it. */
  function NatToDecimal(n: nat): (s: string)
    ensures |s| >= 1
    ensures forall i :: 0 <= i < |s| ==> '0' <= s[i] <= '9'
    decreases n
  {
    if n < 10 then [DigitChar(n)] else NatToDecimal(n / 10) + [DigitChar(n % 10)]
  }

  /** The number a string of decimal digits denotes. */
  function DecimalValue(s: string): int
    decreases |s|
  {
    if s == [] then 0 else DecimalValue(s[..|s| - 1]) * 10 + (s[|s| - 1] as int - '0' as int)
  }

  lemma {:induction false} DecimalRoundTrip(n: nat)
    ensures DecimalValue(NatToDecimal(n)) == n
    decreases n
  {
    if n >= 10 {
      var s := NatToDecimal(n);
      assert s[..|s| - 1] == NatToDecimal(n / 10);
      DecimalRoundTrip(n / 10);
    }
  }

  /** The label of entry `year`: "Initial", then "Year 1", "Year 2", ... */
  function YearLabel(year: nat): (l: string)
    ensures year == 0 ==> l == "Initial"
    ensures year > 0 ==> |l| > 5 && l[0] == 'Y'
  {
    if year == 0 then "Initial" else "Year " + NatToDecimal(year)
  }

  /** Past the "Year " prefix, a label reads back as its year. */
  lemma YearLabelReadsBack(year: nat)
    requires year > 0
    ensures YearLabel(year)[..5] == "Year "
    ensures DecimalValue(YearLabel(year)[5..]) == year
  {
    assert YearLabel(year)[5..] == NatToDecimal(year);
    DecimalRoundTrip(year);
  }

  /** No two entries of the series share a label. */
  lemma YearLabelsDistinct(i: nat, j: nat)
    requires i != j
    ensures YearLabel(i) != YearLabel(j)
  {
    if i != 0 && j != 0 {
      YearLabelReadsBack(i);
      YearLabelReadsBack(j);
    }
  }

  /** Reference definition of entry `year`: each party's initial costs plus
      `year` times its annual costs. Both savings columns are the cumulative
      difference, and the "Initial" entry holds the initial costs alone. */
  function YearEntry(year: nat, currentInitial: real, currentAnnual: real,
                     portnoxInitial: real, portnoxAnnual: real): (e: YearByYearData)
    ensures e.savings == e.current - e.portnox
    ensures e.savings == e.cumulativeSavings
    ensures year == 0 ==> e.current == currentInitial && e.portnox == portnoxInitial
  {
    var current := currentInitial + currentAnnual * year as real;
    var portnox := portnoxInitial + portnoxAnnual * year as real;
    YearByYearData(YearLabel(year), current, portnox, current - portnox,
                   (currentInitial - portnoxInitial) + (currentAnnual - portnoxAnnual) * year as real)
  }

  /** The loop of calculateResults that pushes one entry per year, 0 to
      `yearsToProject` inclusive. */
  method BuildYearByYear(currentTotalInitialCosts: real, currentAnnualCosts: real,
                         portnoxTotalInitialCosts: real, portnoxAnnualCosts: real,
                         yearsToProject: int)
    returns (data: seq<YearByYearData>)
    ensures |data| == if yearsToProject >= 0 then yearsToProject + 1 else 0
    ensures forall year :: 0 <= year < |data| ==>
      data[year] == YearEntry(year, currentTotalInitialCosts, currentAnnualCosts,
                              portnoxTotalInitialCosts, portnoxAnnualCosts)
  {
    data := [];
    var year := 0;
    while year <= yearsToProject
      invariant 0 <= year <= if yearsToProject >= 0 then yearsToProject + 1 else 0
      invariant |data| == year
      invariant forall y :: 0 <= y < year ==>
        data[y] == YearEntry(y, currentTotalInitialCosts, currentAnnualCosts,
                             portnoxTotalInitialCosts, portnoxAnnualCosts)
      decreases yearsToProject - year
    {
      var currentYearCost := currentTotalInitialCosts;
      var portnoxYearCost := portnoxTotalInitialCosts;

      if year > 0 {
        currentYearCost := currentYearCost + currentAnnualCosts * year as real;
        portnoxYearCost := portnoxYearCost + portnoxAnnualCosts * year as real;
      }

      var entry := YearByYearData(
        if year == 0 then "Initial" else "Year " + NatToDecimal(year),
        currentYearCost,
        portnoxYearCost,
        currentYearCost - portnoxYearCost,
        if year == 0 then currentTotalInitialCosts - portnoxTotalInitialCosts
        else (currentTotalInitialCosts - portnoxTotalInitialCosts)
             + (currentAnnualCosts - portnoxAnnualCosts) * year as real);
      assert entry == YearEntry(year, currentTotalInitialCosts, currentAnnualCosts,
                                portnoxTotalInitialCosts, portnoxAnnualCosts);
      data := data + [entry];
      year := year + 1;
    }
  }

  // ---------------------------------------------------------------------
  // Cost breakdowns
  // ---------------------------------------------------------------------

  datatype CostBreakdownItem = CostBreakdownItem(name: string, value: real)

  /** The fixed category order of both breakdowns. */
  const Categories: seq<string> :=
    ["Hardware", "Network Redesign", "Implementation", "Training",
     "Maintenance", "Licensing", "IT Staff", "Downtime"]

  /** The sum of the items' values. */
  function Total(items: seq<CostBreakdownItem>): real
    decreases |items|
  {
    if items == [] then 0.0 else items[0].value + Total(items[1..])
  }

  lemma TotalOfFour(items: seq<CostBreakdownItem>)
    requires |items| == 4
    ensures Total(items) == items[0].value + items[1].value + items[2].value + items[3].value
  {
    assert Total(items[3..]) == items[3].value by { assert items[3..][1..] == []; }
    assert Total(items[2..]) == items[2].value + Total(items[3..]) by { assert items[2..][1..] == items[3..]; }
    assert Total(items[1..]) == items[1].value + Total(items[2..]) by { assert items[1..][1..] == items[2..]; }
  }

  lemma {:induction false} TotalConcat(a: seq<CostBreakdownItem>, b: seq<CostBreakdownItem>)
    ensures Total(a + b) == Total(a) + Total(b)
    decreases |a|
  {
    if a == [] {
      assert a + b == b;
    } else {
      assert (a + b)[1..] == a[1..] + b;
      TotalConcat(a[1..], b);
    }
  }

  /** The four one-time categories, each scaled by the multiplier; together
      they are the party's scaled initial costs. */
  function OneTimeItems(cf: CostFactors, m: real): (items: seq<CostBreakdownItem>)
    ensures |items| == 4
    ensures forall i :: 0 <= i < 4 ==> items[i].name == Categories[i]
    ensures Total(items) == InitialCosts(cf) * m
  {
    var items := [
      CostBreakdownItem("Hardware", cf.initialHardwareCost * m),
      CostBreakdownItem("Network Redesign", cf.networkRedesignCost * m),
      CostBreakdownItem("Implementation", cf.implementationServicesCost * m),
      CostBreakdownItem("Training", cf.trainingCost * m)];
    TotalOfFour(items);
    assert InitialCosts(cf) * m == cf.initialHardwareCost * m + cf.networkRedesignCost * m
      + cf.implementationServicesCost * m + cf.trainingCost * m;
    items
  }

  /** The four recurring categories, each scaled by the horizon and the
      multiplier; together they are the party's scaled annual costs over the
      horizon. */
  function RecurringItems(cf: CostFactors, fteCost: real, downtimeCost: real,
                          years: real, m: real): (items: seq<CostBreakdownItem>)
    ensures |items| == 4
    ensures forall i :: 0 <= i < 4 ==> items[i].name == Categories[i + 4]
    ensures Total(items) == AnnualCosts(cf, fteCost, downtimeCost) * m * years
  {
    var items := [
      CostBreakdownItem("Maintenance", cf.annualMaintenanceCost * years * m),
      CostBreakdownItem("Licensing", cf.annualLicensingCost * years * m),
      CostBreakdownItem("IT Staff", fteCost * cf.fteCount * years * m),
      CostBreakdownItem("Downtime", downtimeCost * cf.estimatedAnnualDowntimeHours * years * m)];
    TotalOfFour(items);
    RecurringArithmetic(cf.annualMaintenanceCost, cf.annualLicensingCost,
                        fteCost * cf.fteCount, downtimeCost * cf.estimatedAnnualDowntimeHours, years, m);
    items
  }

  /** The distributive step behind the recurring total. */
  lemma RecurringArithmetic(a: real, b: real, c: real, d: real, years: real, m: real)
    ensures a * years * m + b * years * m + c * years * m + d * years * m == (a + b + c + d) * m * years
  {
    var ym := years * m;
    assert a * years * m == a * ym && b * years * m == b * ym;
    assert c * years * m == c * ym && d * years * m == d * ym;
    assert (a + b + c + d) * m * years == (a + b + c + d) * ym;
  }

  /** One party's breakdown: the four one-time categories, then the four
      recurring ones; the whole adds up to that party's TCO. */
  function CostBreakdown(cf: CostFactors, fteCost: real, downtimeCost: real,
                         years: real, m: real): (items: seq<CostBreakdownItem>)
    ensures |items| == |Categories|
    ensures forall i :: 0 <= i < |items| ==> items[i].name == Categories[i]
    ensures Total(items[..4]) == InitialCosts(cf) * m
    ensures Total(items[4..]) == AnnualCosts(cf, fteCost, downtimeCost) * m * years
    ensures Total(items) == Tco(cf, fteCost, downtimeCost, years, m)
  {
    var oneTime := OneTimeItems(cf, m);
    var recurring := RecurringItems(cf, fteCost, downtimeCost, years, m);
    var items := oneTime + recurring;
    assert items[..4] == oneTime && items[4..] == recurring;
    TotalConcat(oneTime, recurring);
    items
  }

  // ---------------------------------------------------------------------
  // Implementation-time comparison
  // ---------------------------------------------------------------------

  datatype ImplementationResults = ImplementationResults(
    currentImplTime: real,
    portnoxImplTime: real,
    implTimeSavings: real,
    implTimeSavingsPercentage: Option<real>)

  /** Each party's total days scaled by its own multiplier, their difference
      and that difference relative to the incumbent's time. */
  function ImplementationFigures(current: ImplementationTimeline, portnox: ImplementationTimeline,
                                 complexityMultiplier: real): (r: ImplementationResults)
    ensures r.currentImplTime == (current.planningDays + current.deploymentDays + current.integrationDays
      + current.testingDays + current.staffTrainingDays + current.rolloutDays) as real * complexityMultiplier
    ensures r.portnoxImplTime == (portnox.planningDays + portnox.deploymentDays + portnox.integrationDays
      + portnox.testingDays + portnox.staffTrainingDays + portnox.rolloutDays) as real
      * Dampened(complexityMultiplier)
    ensures r.implTimeSavings == r.currentImplTime - r.portnoxImplTime
    ensures r.implTimeSavingsPercentage.Some? <==> r.currentImplTime != 0.0
    ensures r.implTimeSavingsPercentage.Some? ==>
      r.implTimeSavingsPercentage.value * r.currentImplTime == r.implTimeSavings * 100.0
  {
    var currentImplTime := TotalImplementationTime(current) as real * complexityMultiplier;
    var portnoxImplTime := TotalImplementationTime(portnox) as real * Dampened(complexityMultiplier);
    var implTimeSavings := currentImplTime - portnoxImplTime;
    ImplementationResults(currentImplTime, portnoxImplTime, implTimeSavings,
                          Roi(implTimeSavings, currentImplTime))
  }

  /** A reference timeline no longer than the incumbent's saves time
      whenever the multiplier is at least 1. */
  lemma ImplementationTimeSaved(current: ImplementationTimeline, portnox: ImplementationTimeline, m: real)
    requires NonNegativeTimeline(portnox)
    requires TotalImplementationTime(portnox) <= TotalImplementationTime(current)
    requires m >= 1.0
    ensures ImplementationFigures(current, portnox, m).implTimeSavings >= 0.0
  {
    ScaledNoGreater(TotalImplementationTime(portnox) as real, TotalImplementationTime(current) as real,
                    Dampened(m), m);
  }

  // ---------------------------------------------------------------------
  // calculateResults
  // ---------------------------------------------------------------------

  datatype CalculationResults = CalculationResults(
    tcoResults: TcoResults,
    implementationResults: ImplementationResults,
    yearByYearComparisonData: seq<YearByYearData>,
    costBreakdownCurrent: seq<CostBreakdownItem>,
    costBreakdownPortnox: seq<CostBreakdownItem>)

  /** The raw multiplier calculateResults applies to the incumbent: 1.0
      for an empty complexity object, and at most 3.1 whenever the legacy
      percentage it resolves to lies in [0, 100]. */
  function RawMultiplier(inputs: CalculationInputs): (m: real)
    ensures inputs.complexityFactors == EmptyComplexityInput ==> m == 1.0
    ensures 0.0 <= OrZero(inputs.complexityFactors.percentLegacyDevices) <= 100.0 ==> m <= 3.1
  {
    Multiplier(ResolveComplexity(inputs.complexityFactors))
  }

  /** What calculateResults returns once the raw multiplier `m` is known:
      the TCO figures, the implementation comparison and the incumbent's
      breakdown use `m`, the reference party's use `Dampened(m)`, and the
      series holds one reference entry per year from 0 to the horizon. */
  predicate IsCalculationResults(inputs: CalculationInputs, m: real, res: CalculationResults) {
    var years := inputs.yearsToProject as real;
    var r := res.tcoResults;
    && IsTcoCosts(inputs, m, r)
    && IsTcoRatios(r)
    && res.implementationResults
       == ImplementationFigures(inputs.currentImplementation, inputs.portnoxImplementation, m)
    && res.costBreakdownCurrent
       == CostBreakdown(inputs.currentCostFactors, inputs.fteCost, inputs.downtimeCost, years, m)
    && res.costBreakdownPortnox
       == CostBreakdown(inputs.portnoxCostFactors, inputs.fteCost, inputs.downtimeCost, years, Dampened(m))
    && |res.yearByYearComparisonData|
       == (if inputs.yearsToProject >= 0 then inputs.yearsToProject + 1 else 0)
    && (forall year :: 0 <= year < |res.yearByYearComparisonData| ==>
          res.yearByYearComparisonData[year] == YearEntry(year,
            r.currentTotalInitialCosts, r.currentAnnualCosts,
            r.portnoxTotalInitialCosts, r.portnoxAnnualCosts))
  }

  /** calculateResults: the complexity multiplier from the request's
      factors, with the documented defaults, then every figure derived from it. */
  method CalculateResults(inputs: CalculationInputs) returns (res: CalculationResults)
    ensures IsCalculationResults(inputs, RawMultiplier(inputs), res)
  {
    var f := ResolveComplexity(inputs.complexityFactors);
    var complexityMultiplier := ComplexityMultiplier(
      f.networkComplexity, f.hasMultipleLocations, f.locationCount, f.hasComplexAuth,
      f.hasLegacyDevices, f.legacyDevicePercentage, f.hasCloudIntegration,
      f.hasCustomPolicies, f.policyComplexity);
    assert complexityMultiplier == RawMultiplier(inputs) by {
      assert ComplexityFactors(
        f.networkComplexity, f.hasMultipleLocations, f.locationCount, f.hasComplexAuth,
        f.hasLegacyDevices, f.legacyDevicePercentage, f.hasCloudIntegration,
        f.hasCustomPolicies, f.policyComplexity) == f;
    }
    res := ResultsForMultiplier(inputs, complexityMultiplier);
  }

  /** The rest of calculateResults, statement by statement, for the raw
      multiplier `complexityMultiplier`. */
  method ResultsForMultiplier(inputs: CalculationInputs, complexityMultiplier: real)
    returns (res: CalculationResults)
    ensures IsCalculationResults(inputs, complexityMultiplier, res)
  {
    var portnoxComplexityMultiplier := Dampened(complexityMultiplier);
    var years := inputs.yearsToProject as real;

    var currentTotalInitialCosts := InitialCosts(inputs.currentCostFactors) * complexityMultiplier;
    var currentAnnualCosts :=
      AnnualCosts(inputs.currentCostFactors, inputs.fteCost, inputs.downtimeCost) * complexityMultiplier;
    var portnoxTotalInitialCosts := InitialCosts(inputs.portnoxCostFactors) * portnoxComplexityMultiplier;
    var portnoxAnnualCosts :=
      AnnualCosts(inputs.portnoxCostFactors, inputs.fteCost, inputs.downtimeCost) * portnoxComplexityMultiplier;
    var tcoResults := TcoFigures(currentTotalInitialCosts, currentAnnualCosts,
                                 portnoxTotalInitialCosts, portnoxAnnualCosts, years);

    var yearByYear := BuildYearByYear(
      currentTotalInitialCosts, currentAnnualCosts, portnoxTotalInitialCosts, portnoxAnnualCosts,
      inputs.yearsToProject);
    var costBreakdownCurrent := CostBreakdown(inputs.currentCostFactors, inputs.fteCost,
                                              inputs.downtimeCost, years, complexityMultiplier);
    var costBreakdownPortnox := CostBreakdown(inputs.portnoxCostFactors, inputs.fteCost,
                                              inputs.downtimeCost, years, portnoxComplexityMultiplier);
    var implementationResults := ImplementationFigures(inputs.currentImplementation,
                                                       inputs.portnoxImplementation, complexityMultiplier);

    res := CalculationResults(tcoResults, implementationResults, yearByYear,
                              costBreakdownCurrent, costBreakdownPortnox);
  }

  /** Each breakdown adds up to its party's TCO. */
  lemma BreakdownsMatchTco(inputs: CalculationInputs, m: real, r: TcoResults)
    requires IsTcoCosts(inputs, m, r)
    ensures Total(CostBreakdown(inputs.currentCostFactors, inputs.fteCost, inputs.downtimeCost,
                                inputs.yearsToProject as real, m)) == r.currentTCO
    ensures Total(CostBreakdown(inputs.portnoxCostFactors, inputs.fteCost, inputs.downtimeCost,
                                inputs.yearsToProject as real, Dampened(m))) == r.portnoxTCO
  {
    TcoResultsMatchCalculateTco(inputs, m, r);
  }

  /** The series opens with the "Initial" entry holding the initial savings,
      closes with an entry holding the two TCOs, and its two savings columns
      agree throughout. */
  lemma SeriesEndpoints(r: TcoResults, yearsToProject: int, data: seq<YearByYearData>)
    requires IsTcoSummary(r, yearsToProject as real)
    requires |data| == if yearsToProject >= 0 then yearsToProject + 1 else 0
    requires forall year :: 0 <= year < |data| ==>
      data[year] == YearEntry(year, r.currentTotalInitialCosts, r.currentAnnualCosts,
                              r.portnoxTotalInitialCosts, r.portnoxAnnualCosts)
    ensures forall year :: 0 <= year < |data| ==> data[year].savings == data[year].cumulativeSavings
    ensures yearsToProject >= 0 ==>
      && data[0].year == "Initial"
      && data[0].cumulativeSavings == r.initialCostSavings
      && data[yearsToProject].current == r.currentTCO
      && data[yearsToProject].portnox == r.portnoxTCO
  {
    forall year | 0 <= year < |data|
      ensures data[year].savings == data[year].cumulativeSavings
    {
      var entry := YearEntry(year, r.currentTotalInitialCosts, r.currentAnnualCosts,
                             r.portnoxTotalInitialCosts, r.portnoxAnnualCosts);
      assert data[year] == entry;
    }
    if yearsToProject >= 0 {
      var first := data[0];
      assert first == YearEntry(0, r.currentTotalInitialCosts, r.currentAnnualCosts,
                                r.portnoxTotalInitialCosts, r.portnoxAnnualCosts);
      var last := data[yearsToProject];
      assert last == YearEntry(yearsToProject, r.currentTotalInitialCosts, r.currentAnnualCosts,
                               r.portnoxTotalInitialCosts, r.portnoxAnnualCosts);
    }
  }
}
