/** Worked comparisons on the published tables: the small-organization
    incumbent (Cisco) against the reference vendor, with an annual staff
    cost of 100000, a downtime cost of 5000 per hour and a three-year
    horizon. */
module Scenarios {
  import opened Wrappers
  import opened Vendors
  import opened VendorData
  import opened Calculations

  /** The request of the worked comparison, with every complexity key absent. */
  function SmallCiscoRequest(): CalculationInputs {
    CalculationInputs("cisco", "small", 500.0, 3,
                      VendorCosts(Cisco, Small), VendorCosts(Portnox, Small),
                      VendorImplementation(Cisco, Small), VendorImplementation(Portnox, Small),
                      100000.0, 5000.0, EmptyComplexityInput)
  }

  /** The cost primitives on the two table rows. */
  lemma SmallCiscoCostPrimitives()
    ensures InitialCosts(VendorCosts(Cisco, Small)) == 135000.0
    ensures AnnualCosts(VendorCosts(Cisco, Small), 100000.0, 5000.0) == 285000.0
    ensures Tco(VendorCosts(Cisco, Small), 100000.0, 5000.0, 3.0) == 990000.0
    ensures InitialCosts(VendorCosts(Portnox, Small)) == 9000.0
    ensures AnnualCosts(VendorCosts(Portnox, Small), 100000.0, 5000.0) == 75000.0
    ensures Tco(VendorCosts(Portnox, Small), 100000.0, 5000.0, 3.0) == 234000.0
    ensures PaybackPeriod(9000.0, 210000.0) == Some(3.0 / 70.0)
  {
  }

  /** The worked request leaves both parties' costs unscaled. */
  lemma SmallCiscoMultiplier()
    ensures RawMultiplier(SmallCiscoRequest()) == 1.0
    ensures Dampened(RawMultiplier(SmallCiscoRequest())) == 1.0
  {
    DefaultComplexityIsNeutral();
  }

  /** The TCO section of the worked request at multiplier 1; the savings
      percentage is about 76.36 and the ROI about 323.08. */
  lemma SmallCiscoTco(r: TcoResults)
    requires IsTcoCosts(SmallCiscoRequest(), 1.0, r) && IsTcoRatios(r)
    ensures r.currentTCO == 990000.0
    ensures r.portnoxTCO == 234000.0
    ensures r.totalSavings == 756000.0
    ensures r.annualSavings == 210000.0
    ensures r.paybackPeriod == 9000.0 / 210000.0
    ensures r.savingsPercentage == Some(756000.0 * 100.0 / 990000.0)
    ensures r.roi.Some? && r.roi.value == 756000.0 * 100.0 / 234000.0
  {
    SmallCiscoCostPrimitives();
    assert r.currentTotalInitialCosts == 135000.0 && r.currentAnnualCosts == 285000.0;
    assert r.portnoxTotalInitialCosts == 9000.0 && r.portnoxAnnualCosts == 75000.0;
  }

  /** Every result calculateResults may return for the worked request has
      incumbent TCO 990000, reference TCO 234000, savings 756000 and a
      payback of 9000 / 210000 years. */
  lemma SmallCiscoResults(res: CalculationResults)
    requires IsCalculationResults(SmallCiscoRequest(), RawMultiplier(SmallCiscoRequest()), res)
    ensures res.tcoResults.currentTCO == 990000.0
    ensures res.tcoResults.portnoxTCO == 234000.0
    ensures res.tcoResults.totalSavings == 756000.0
    ensures res.tcoResults.paybackPeriod == 9000.0 / 210000.0
  {
    SmallCiscoMultiplier();
    SmallCiscoTco(res.tcoResults);
  }
}
