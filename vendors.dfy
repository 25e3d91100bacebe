/** Cost primitives and the complexity model of lib/data/vendors.ts:
    the per-vendor cost record, the implementation timeline, the initial,
    annual and total cost formulas, ROI and payback ratios, and the
    order-sensitive complexity multiplier. JavaScript numbers are modelled
    as `real` (money, ratios, percentages) or `int` (day and site counts). */
module Vendors {
  import opened Wrappers

  datatype NetworkComplexity = Low | Medium | High

  /** One vendor's cost factors for one organization size. */
  datatype CostFactors = CostFactors(
    initialHardwareCost: real,
    annualMaintenanceCost: real,
    annualLicensingCost: real,
    implementationServicesCost: real,
    trainingCost: real,
    networkRedesignCost: real,
    fteCount: real,
    estimatedAnnualDowntimeHours: real)

  /** One vendor's implementation timeline for one organization size, in days. */
  datatype ImplementationTimeline = ImplementationTimeline(
    planningDays: int,
    deploymentDays: int,
    integrationDays: int,
    testingDays: int,
    staffTrainingDays: int,
    rolloutDays: int)

  predicate NonNegativeCosts(cf: CostFactors) {
    && cf.initialHardwareCost >= 0.0
    && cf.annualMaintenanceCost >= 0.0
    && cf.annualLicensingCost >= 0.0
    && cf.implementationServicesCost >= 0.0
    && cf.trainingCost >= 0.0
    && cf.networkRedesignCost >= 0.0
    && cf.fteCount >= 0.0
    && cf.estimatedAnnualDowntimeHours >= 0.0
  }

  predicate NonNegativeTimeline(t: ImplementationTimeline) {
    && t.planningDays >= 0
    && t.deploymentDays >= 0
    && t.integrationDays >= 0
    && t.testingDays >= 0
    && t.staffTrainingDays >= 0
    && t.rolloutDays >= 0
  }

  // ---------------------------------------------------------------------
  // Implementation time: a reduce over the timeline's values
  // ---------------------------------------------------------------------

  /** The timeline's values in property order, as `Object.values` lists them. */
  function Values(t: ImplementationTimeline): seq<int> {
    [t.planningDays, t.deploymentDays, t.integrationDays,
     t.testingDays, t.staffTrainingDays, t.rolloutDays]
  }

  /** `s.reduce((total, days) => total + days, total)`: a left fold. */
  function Reduce(s: seq<int>, total: int): int
    decreases |s|
  {
    if s == [] then total else Reduce(s[1..], total + s[0])
  }

  /** Reference definition of the sum of a sequence (a right fold). */
  function Sum(s: seq<int>): int
    decreases |s|
  {
    if s == [] then 0 else s[0] + Sum(s[1..])
  }

  lemma {:induction false} ReduceIsSum(s: seq<int>, total: int)
    ensures Reduce(s, total) == total + Sum(s)
    decreases |s|
  {
    if s != [] {
      ReduceIsSum(s[1..], total + s[0]);
    }
  }

  lemma {:induction false} SumConcat(a: seq<int>, b: seq<int>)
    ensures Sum(a + b) == Sum(a) + Sum(b)
    decreases |a|
  {
    if a == [] {
      assert a + b == b;
    } else {
      assert (a + b)[1..] == a[1..] + b;
      SumConcat(a[1..], b);
    }
  }

  /** The sum does not depend on the order of the summands. */
  lemma {:induction false} SumPermutation(a: seq<int>, b: seq<int>)
    requires multiset(a) == multiset(b)
    ensures Sum(a) == Sum(b)
    decreases |a|
  {
    if a == [] {
      assert |multiset(b)| == 0;
      assert b == [];
    } else {
      var x := a[0];
      assert x in multiset(b);
      var k :| 0 <= k < |b| && b[k] == x;
      var rest := b[..k] + b[k + 1..];
      assert b == b[..k] + [x] + b[k + 1..];
      SumConcat(b[..k] + [x], b[k + 1..]);
      SumConcat(b[..k], [x]);
      SumConcat(b[..k], b[k + 1..]);
      assert a == [x] + a[1..];
      assert multiset(a) == multiset([x]) + multiset(a[1..]);
      assert multiset(b) == multiset(b[..k]) + multiset([x]) + multiset(b[k + 1..]);
      assert multiset(rest) == multiset(b[..k]) + multiset(b[k + 1..]);
      assert multiset(a[1..]) == multiset(a) - multiset{x};
      assert multiset(rest) == multiset(b) - multiset{x};
      SumPermutation(a[1..], rest);
    }
  }

  /** calculateTotalImplementationTime: the total of the six day counts. */
  function TotalImplementationTime(t: ImplementationTimeline): (days: int)
    ensures days == t.planningDays + t.deploymentDays + t.integrationDays
                    + t.testingDays + t.staffTrainingDays + t.rolloutDays
    ensures NonNegativeTimeline(t) ==> days >= 0
  {
    var v := Values(t);
    ReduceIsSum(v, 0);
    assert Sum(v[5..]) == t.rolloutDays by { assert v[5..][1..] == []; }
    assert Sum(v[4..]) == t.staffTrainingDays + Sum(v[5..]) by { assert v[4..][1..] == v[5..]; }
    assert Sum(v[3..]) == t.testingDays + Sum(v[4..]) by { assert v[3..][1..] == v[4..]; }
    assert Sum(v[2..]) == t.integrationDays + Sum(v[3..]) by { assert v[2..][1..] == v[3..]; }
    assert Sum(v[1..]) == t.deploymentDays + Sum(v[2..]) by { assert v[1..][1..] == v[2..]; }
    Reduce(v, 0)
  }

  /** Folding the day counts in any order gives the same total. */
  lemma ImplementationTimeOrderFree(t: ImplementationTimeline, days: seq<int>)
    requires multiset(days) == multiset(Values(t))
    ensures Reduce(days, 0) == TotalImplementationTime(t)
  {
    ReduceIsSum(days, 0);
    ReduceIsSum(Values(t), 0);
    SumPermutation(days, Values(t));
  }

  // ---------------------------------------------------------------------
  // Cost formulas
  // ---------------------------------------------------------------------

  /** A product of non-negative factors is non-negative, stated as an
      implication so that it can be used without first splitting cases. */
  lemma ProductSign(a: real, b: real)
    ensures a >= 0.0 && b >= 0.0 ==> a * b >= 0.0
  {
  }

  /** calculateInitialCosts: the one-time costs. */
  function InitialCosts(cf: CostFactors): (c: real)
    ensures NonNegativeCosts(cf) ==> c >= 0.0
  {
    cf.initialHardwareCost + cf.implementationServicesCost
      + cf.networkRedesignCost + cf.trainingCost
  }

  /** calculateAnnualCosts: the recurring costs of one year. */
  function AnnualCosts(cf: CostFactors, fteCostPerYear: real, downtimeCostPerHour: real): (c: real)
    ensures NonNegativeCosts(cf) && fteCostPerYear >= 0.0 && downtimeCostPerHour >= 0.0 ==> c >= 0.0
  {
    ProductSign(fteCostPerYear, cf.fteCount);
    ProductSign(downtimeCostPerHour, cf.estimatedAnnualDowntimeHours);
    cf.annualMaintenanceCost + cf.annualLicensingCost
      + fteCostPerYear * cf.fteCount
      + downtimeCostPerHour * cf.estimatedAnnualDowntimeHours
  }

  /** The initial costs read only the four one-time fields. */
  lemma InitialCostsIgnoreRecurring(cf: CostFactors, maintenance: real, licensing: real, fte: real, downtime: real)
    ensures InitialCosts(cf) == InitialCosts(cf.(annualMaintenanceCost := maintenance,
      annualLicensingCost := licensing, fteCount := fte, estimatedAnnualDowntimeHours := downtime))
  {
  }

  /** The annual costs read only the four recurring fields. */
  lemma AnnualCostsIgnoreOneTime(cf: CostFactors, fteCostPerYear: real, downtimeCostPerHour: real,
                                 hardware: real, services: real, redesign: real, training: real)
    ensures AnnualCosts(cf, fteCostPerYear, downtimeCostPerHour)
         == AnnualCosts(cf.(initialHardwareCost := hardware, implementationServicesCost := services,
                            networkRedesignCost := redesign, trainingCost := training),
                        fteCostPerYear, downtimeCostPerHour)
  {
  }

  /** calculateTCO: scaled initial costs plus scaled annual costs per year. */
  function Tco(cf: CostFactors, fteCostPerYear: real, downtimeCostPerHour: real, years: real,
               complexityMultiplier: real := 1.0): (t: real)
    ensures years == 0.0 ==> t == InitialCosts(cf) * complexityMultiplier
    ensures (&& NonNegativeCosts(cf) && fteCostPerYear >= 0.0 && downtimeCostPerHour >= 0.0
             && years >= 0.0 && complexityMultiplier >= 0.0) ==> t >= 0.0
  {
    var initialCosts := InitialCosts(cf) * complexityMultiplier;
    var annualCosts := AnnualCosts(cf, fteCostPerYear, downtimeCostPerHour) * complexityMultiplier;
    ProductSign(InitialCosts(cf), complexityMultiplier);
    ProductSign(AnnualCosts(cf, fteCostPerYear, downtimeCostPerHour), complexityMultiplier);
    ProductSign(annualCosts, years);
    initialCosts + annualCosts * years
  }

  /** Without a multiplier argument the costs are taken at face value. */
  lemma TcoDefaultMultiplier(cf: CostFactors, fteCostPerYear: real, downtimeCostPerHour: real, years: real)
    ensures Tco(cf, fteCostPerYear, downtimeCostPerHour, years)
         == InitialCosts(cf) + AnnualCosts(cf, fteCostPerYear, downtimeCostPerHour) * years
  {
  }

  /** The total cost is linear in the multiplier. */
  lemma TcoScalesWithMultiplier(cf: CostFactors, fteCostPerYear: real, downtimeCostPerHour: real,
                                years: real, m: real, k: real)
    ensures Tco(cf, fteCostPerYear, downtimeCostPerHour, years, k * m)
         == k * Tco(cf, fteCostPerYear, downtimeCostPerHour, years, m)
  {
    var i, a := InitialCosts(cf), AnnualCosts(cf, fteCostPerYear, downtimeCostPerHour);
    calc {
      Tco(cf, fteCostPerYear, downtimeCostPerHour, years, k * m);
      i * (k * m) + a * (k * m) * years;
      { assert i * (k * m) == k * (i * m); assert a * (k * m) * years == k * (a * m * years); }
      k * (i * m) + k * (a * m * years);
      k * (i * m + a * m * years);
    }
  }

  /** With non-negative inputs a longer horizon never costs less. */
  lemma TcoMonotoneInYears(cf: CostFactors, fteCostPerYear: real, downtimeCostPerHour: real,
                           m: real, years: real, moreYears: real)
    requires NonNegativeCosts(cf) && fteCostPerYear >= 0.0 && downtimeCostPerHour >= 0.0 && m >= 0.0
    requires years <= moreYears
    ensures Tco(cf, fteCostPerYear, downtimeCostPerHour, years, m)
         <= Tco(cf, fteCostPerYear, downtimeCostPerHour, moreYears, m)
  {
    var a := AnnualCosts(cf, fteCostPerYear, downtimeCostPerHour) * m;
    assert a >= 0.0;
    assert a * moreYears - a * years == a * (moreYears - years);
  }

  /** calculateROI: savings as a percentage of the investment; defined
      exactly when the investment is non-zero. */
  function Roi(savingsOverPeriod: real, investmentCost: real): (r: Option<real>)
    ensures r.Some? <==> investmentCost != 0.0
    ensures r.Some? ==> r.value * investmentCost == savingsOverPeriod * 100.0
    ensures investmentCost > 0.0 ==> (r.value >= 0.0 <==> savingsOverPeriod >= 0.0)
  {
    if investmentCost == 0.0 then None else Some((savingsOverPeriod / investmentCost) * 100.0)
  }

  /** calculatePaybackPeriod: years of savings that repay the investment;
      defined exactly when the annual savings are non-zero. */
  function PaybackPeriod(initialInvestment: real, annualSavings: real): (p: Option<real>)
    ensures p.Some? <==> annualSavings != 0.0
    ensures p.Some? ==> p.value * annualSavings == initialInvestment
  {
    if annualSavings == 0.0 then None else Some(initialInvestment / annualSavings)
  }

  // ---------------------------------------------------------------------
  // Complexity model
  // ---------------------------------------------------------------------

  /** The nine arguments of calculateComplexityMultiplier, as one record. */
  datatype ComplexityFactors = ComplexityFactors(
    networkComplexity: NetworkComplexity,
    hasMultipleLocations: bool,
    locationCount: int,
    hasComplexAuth: bool,
    hasLegacyDevices: bool,
    legacyDevicePercentage: real,
    hasCloudIntegration: bool,
    hasCustomPolicies: bool,
    policyComplexity: NetworkComplexity)

  function Min(a: real, b: real): real {
    if a <= b then a else b
  }

  /** Ordinal position of a complexity level. */
  function Rank(c: NetworkComplexity): int {
    match c
    case Low => 0
    case Medium => 1
    case High => 2
  }

  /** The base factor that scales the starting value 1.0. */
  function BaseFactor(c: NetworkComplexity): (b: real)
    ensures 0.9 <= b <= 1.3
    ensures Rank(c) < Rank(High) ==> b <= 1.0
  {
    match c
    case Low => 0.9
    case Medium => 1.0
    case High => 1.3
  }

  /** Extra load of additional sites: 0.1 per site beyond the first, at most 1.0. */
  function LocationTerm(hasMultipleLocations: bool, locationCount: int): (t: real)
    ensures t <= 1.0
    ensures !hasMultipleLocations ==> t == 0.0
    ensures locationCount >= 1 ==> t >= 0.0
  {
    if hasMultipleLocations then Min(0.1 * (locationCount - 1) as real, 1.0) else 0.0
  }

  /** 0.15 extra for complex authentication, nothing otherwise. */
  function AuthTerm(hasComplexAuth: bool): (t: real)
    ensures 0.0 <= t <= 0.15
    ensures t != 0.0 <==> hasComplexAuth
  {
    if hasComplexAuth then 0.15 else 0.0
  }

  /** Up to 0.3 extra, proportional to the share of legacy devices. */
  function LegacyTerm(hasLegacyDevices: bool, legacyDevicePercentage: real): (t: real)
    ensures 0.0 <= legacyDevicePercentage <= 100.0 ==> 0.0 <= t <= 0.3
    ensures !hasLegacyDevices ==> t == 0.0
  {
    if hasLegacyDevices then (legacyDevicePercentage / 100.0) * 0.3 else 0.0
  }

  /** 0.1 extra for cloud integration, nothing otherwise. */
  function CloudTerm(hasCloudIntegration: bool): (t: real)
    ensures 0.0 <= t <= 0.1
    ensures t != 0.0 <==> hasCloudIntegration
  {
    if hasCloudIntegration then 0.1 else 0.0
  }

  /** 0.05, 0.15 or 0.25 for low, medium or high custom-policy complexity. */
  function PolicyTerm(hasCustomPolicies: bool, policyComplexity: NetworkComplexity): (t: real)
    ensures 0.0 <= t <= 0.25
    ensures !hasCustomPolicies ==> t == 0.0
    ensures hasCustomPolicies ==> t == 0.05 + 0.1 * Rank(policyComplexity) as real
  {
    if !hasCustomPolicies then 0.0
    else match policyComplexity
      case Low => 0.05
      case Medium => 0.15
      case High => 0.25
  }

  /** Reference definition of the multiplier: the base factor, which only
      scales the initial 1.0, plus the sum of the additive terms. Sensible
      inputs (at least one site, a legacy percentage in [0, 100]) keep it
      between the low base factor 0.9 and the largest sum of terms, 3.1. */
  function Multiplier(f: ComplexityFactors): (m: real)
    ensures f.locationCount >= 1 && f.legacyDevicePercentage >= 0.0 ==> m >= 0.9
    ensures 0.0 <= f.legacyDevicePercentage <= 100.0 ==> m <= 3.1
  {
    BaseFactor(f.networkComplexity)
      + LocationTerm(f.hasMultipleLocations, f.locationCount)
      + AuthTerm(f.hasComplexAuth)
      + LegacyTerm(f.hasLegacyDevices, f.legacyDevicePercentage)
      + CloudTerm(f.hasCloudIntegration)
      + PolicyTerm(f.hasCustomPolicies, f.policyComplexity)
  }

  /** calculateComplexityMultiplier: start at 1.0, scale by the base
      factor, then add each term that applies, in the source's order. */
  method ComplexityMultiplier(
    networkComplexity: NetworkComplexity,
    hasMultipleLocations: bool,
    locationCount: int,
    hasComplexAuth: bool,
    hasLegacyDevices: bool,
    legacyDevicePercentage: real,
    hasCloudIntegration: bool,
    hasCustomPolicies: bool,
    policyComplexity: NetworkComplexity)
    returns (multiplier: real)
    ensures multiplier == Multiplier(ComplexityFactors(networkComplexity, hasMultipleLocations,
      locationCount, hasComplexAuth, hasLegacyDevices, legacyDevicePercentage,
      hasCloudIntegration, hasCustomPolicies, policyComplexity))
  {
    multiplier := 1.0;

    if networkComplexity == Low {
      multiplier := multiplier * 0.9;
    } else if networkComplexity == High {
      multiplier := multiplier * 1.3;
    }

    if hasMultipleLocations {
      multiplier := multiplier + Min(0.1 * (locationCount - 1) as real, 1.0);
    }

    if hasComplexAuth {
      multiplier := multiplier + 0.15;
    }

    if hasLegacyDevices {
      multiplier := multiplier + (legacyDevicePercentage / 100.0) * 0.3;
    }

    if hasCloudIntegration {
      multiplier := multiplier + 0.1;
    }

    if hasCustomPolicies {
      if policyComplexity == Low {
        multiplier := multiplier + 0.05;
      } else if policyComplexity == Medium {
        multiplier := multiplier + 0.15;
      } else if policyComplexity == High {
        multiplier := multiplier + 0.25;
      }
    }
  }

  /** With every add-on flag off only the base factor remains. */
  lemma BaseFactorOnly(f: ComplexityFactors)
    requires !f.hasMultipleLocations && !f.hasComplexAuth && !f.hasLegacyDevices
    requires !f.hasCloudIntegration && !f.hasCustomPolicies
    ensures f.networkComplexity == Medium ==> Multiplier(f) == 1.0
    ensures f.networkComplexity == Low ==> Multiplier(f) == 0.9
    ensures f.networkComplexity == High ==> Multiplier(f) == 1.3
  {
  }

  /** The base factor does not scale the add-on terms: changing the network
      complexity shifts the multiplier by the difference of base factors only. */
  lemma BaseFactorAppliedFirst(f: ComplexityFactors, c: NetworkComplexity)
    ensures Multiplier(f) - Multiplier(f.(networkComplexity := c))
         == BaseFactor(f.networkComplexity) - BaseFactor(c)
  {
  }

  lemma MultiplierMonotoneInLocationCount(f: ComplexityFactors, moreLocations: int)
    requires f.locationCount <= moreLocations
    ensures Multiplier(f) <= Multiplier(f.(locationCount := moreLocations))
  {
  }

  lemma LegacyTermMonotone(hasLegacyDevices: bool, p: real, q: real)
    requires p <= q
    ensures LegacyTerm(hasLegacyDevices, p) <= LegacyTerm(hasLegacyDevices, q)
  {
  }

  lemma MultiplierMonotoneInLegacyPercentage(f: ComplexityFactors, morePercentage: real)
    requires f.legacyDevicePercentage <= morePercentage
    ensures Multiplier(f) <= Multiplier(f.(legacyDevicePercentage := morePercentage))
  {
    LegacyTermMonotone(f.hasLegacyDevices, f.legacyDevicePercentage, morePercentage);
  }

  lemma MultiplierMonotoneInPolicyLevel(f: ComplexityFactors, level: NetworkComplexity)
    requires Rank(f.policyComplexity) <= Rank(level)
    ensures Multiplier(f) <= Multiplier(f.(policyComplexity := level))
  {
  }

  /** High complexity, five sites, complex authentication, 40% legacy
      devices, cloud integration and medium custom policies. */
  lemma HighComplexityScenario()
    ensures Multiplier(ComplexityFactors(High, true, 5, true, true, 40.0, true, true, Medium)) == 2.22
  {
  }
}
