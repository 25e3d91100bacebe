/** The reference tables of lib/data/vendors.ts that the cost engine reads:
    cost factors and implementation timelines for every vendor and
    organization size. */
module VendorData {
  import opened Vendors

  datatype VendorId = Portnox | Cisco | Aruba | Forescout | Fortinet | SecureW2 | Ivanti | Microsoft

  datatype OrganizationSize = Small | Medium | Large | Enterprise

  /** vendorCosts: research-based cost factors per vendor and size; every
      entry is a non-negative cost record. */
  function VendorCosts(vendor: VendorId, size: OrganizationSize): (cf: CostFactors)
    ensures NonNegativeCosts(cf)
  {
    match vendor
    case Portnox => (
      match size
      case Small => CostFactors(0.0, 5000.0, 25000.0, 5000.0, 2000.0, 2000.0, 0.25, 4.0)
      case Medium => CostFactors(0.0, 7500.0, 60000.0, 10000.0, 4000.0, 4000.0, 0.5, 6.0)
      case Large => CostFactors(0.0, 10000.0, 150000.0, 20000.0, 8000.0, 8000.0, 0.75, 8.0)
      case Enterprise => CostFactors(0.0, 15000.0, 375000.0, 40000.0, 15000.0, 15000.0, 1.0, 12.0)
    )
    case Cisco => (
      match size
      case Small => CostFactors(75000.0, 25000.0, 40000.0, 35000.0, 10000.0, 15000.0, 1.0, 24.0)
      case Medium => CostFactors(150000.0, 50000.0, 100000.0, 60000.0, 15000.0, 25000.0, 1.5, 36.0)
      case Large => CostFactors(300000.0, 100000.0, 250000.0, 120000.0, 30000.0, 50000.0, 2.0, 48.0)
      case Enterprise => CostFactors(600000.0, 200000.0, 625000.0, 250000.0, 60000.0, 100000.0, 3.0, 72.0)
    )
    case Aruba => (
      match size
      case Small => CostFactors(65000.0, 20000.0, 35000.0, 30000.0, 9000.0, 12000.0, 1.0, 20.0)
      case Medium => CostFactors(130000.0, 45000.0, 90000.0, 50000.0, 12000.0, 20000.0, 1.5, 30.0)
      case Large => CostFactors(280000.0, 90000.0, 225000.0, 100000.0, 25000.0, 40000.0, 2.0, 40.0)
      case Enterprise => CostFactors(550000.0, 180000.0, 560000.0, 200000.0, 50000.0, 80000.0, 2.5, 60.0)
    )
    case Forescout => (
      match size
      case Small => CostFactors(70000.0, 22000.0, 38000.0, 32000.0, 8000.0, 10000.0, 1.0, 18.0)
      case Medium => CostFactors(140000.0, 48000.0, 95000.0, 45000.0, 14000.0, 18000.0, 1.5, 28.0)
      case Large => CostFactors(290000.0, 95000.0, 230000.0, 90000.0, 25000.0, 35000.0, 2.0, 36.0)
      case Enterprise => CostFactors(580000.0, 190000.0, 575000.0, 180000.0, 45000.0, 70000.0, 2.5, 54.0)
    )
    case Fortinet => (
      match size
      case Small => CostFactors(60000.0, 18000.0, 32000.0, 25000.0, 7000.0, 8000.0, 0.75, 16.0)
      case Medium => CostFactors(120000.0, 40000.0, 80000.0, 40000.0, 12000.0, 15000.0, 1.25, 24.0)
      case Large => CostFactors(250000.0, 80000.0, 200000.0, 80000.0, 22000.0, 30000.0, 1.75, 32.0)
      case Enterprise => CostFactors(500000.0, 160000.0, 500000.0, 160000.0, 40000.0, 60000.0, 2.25, 48.0)
    )
    case SecureW2 => (
      match size
      case Small => CostFactors(0.0, 6000.0, 30000.0, 8000.0, 3000.0, 5000.0, 0.5, 8.0)
      case Medium => CostFactors(0.0, 12000.0, 75000.0, 15000.0, 6000.0, 10000.0, 0.75, 12.0)
      case Large => CostFactors(0.0, 24000.0, 180000.0, 30000.0, 12000.0, 20000.0, 1.0, 16.0)
      case Enterprise => CostFactors(0.0, 40000.0, 450000.0, 60000.0, 25000.0, 40000.0, 1.5, 24.0)
    )
    case Ivanti => (
      match size
      case Small => CostFactors(50000.0, 15000.0, 30000.0, 20000.0, 8000.0, 10000.0, 0.75, 16.0)
      case Medium => CostFactors(100000.0, 35000.0, 75000.0, 40000.0, 15000.0, 20000.0, 1.25, 24.0)
      case Large => CostFactors(200000.0, 70000.0, 185000.0, 80000.0, 25000.0, 35000.0, 1.75, 32.0)
      case Enterprise => CostFactors(400000.0, 140000.0, 460000.0, 160000.0, 45000.0, 70000.0, 2.25, 48.0)
    )
    case Microsoft => (
      match size
      case Small => CostFactors(15000.0, 5000.0, 5000.0, 15000.0, 5000.0, 8000.0, 0.75, 20.0)
      case Medium => CostFactors(30000.0, 10000.0, 10000.0, 30000.0, 10000.0, 15000.0, 1.25, 30.0)
      case Large => CostFactors(60000.0, 20000.0, 20000.0, 60000.0, 20000.0, 30000.0, 1.75, 40.0)
      case Enterprise => CostFactors(120000.0, 40000.0, 40000.0, 120000.0, 40000.0, 60000.0, 2.5, 60.0)
    )
  }

  /** vendorImplementation: research-based timelines per vendor and size;
      every entry has non-negative day counts. */
  function VendorImplementation(vendor: VendorId, size: OrganizationSize): (t: ImplementationTimeline)
    ensures NonNegativeTimeline(t)
  {
    match vendor
    case Portnox => (
      match size
      case Small => ImplementationTimeline(3, 1, 2, 2, 1, 1)
      case Medium => ImplementationTimeline(5, 1, 3, 3, 1, 2)
      case Large => ImplementationTimeline(10, 1, 7, 5, 2, 5)
      case Enterprise => ImplementationTimeline(20, 2, 14, 10, 4, 10)
    )
    case Cisco => (
      match size
      case Small => ImplementationTimeline(14, 10, 15, 21, 10, 30)
      case Medium => ImplementationTimeline(21, 15, 21, 28, 14, 45)
      case Large => ImplementationTimeline(30, 21, 30, 35, 21, 60)
      case Enterprise => ImplementationTimeline(45, 30, 45, 50, 30, 90)
    )
    case Aruba => (
      match size
      case Small => ImplementationTimeline(10, 8, 12, 18, 8, 25)
      case Medium => ImplementationTimeline(14, 12, 18, 24, 12, 40)
      case Large => ImplementationTimeline(21, 18, 25, 30, 16, 55)
      case Enterprise => ImplementationTimeline(35, 25, 35, 40, 25, 80)
    )
    case Forescout => (
      match size
      case Small => ImplementationTimeline(12, 8, 14, 16, 7, 20)
      case Medium => ImplementationTimeline(16, 12, 18, 20, 10, 35)
      case Large => ImplementationTimeline(24, 18, 24, 25, 14, 45)
      case Enterprise => ImplementationTimeline(40, 28, 36, 35, 20, 65)
    )
    case Fortinet => (
      match size
      case Small => ImplementationTimeline(10, 7, 12, 14, 6, 18)
      case Medium => ImplementationTimeline(14, 10, 16, 18, 9, 30)
      case Large => ImplementationTimeline(20, 15, 22, 24, 12, 42)
      case Enterprise => ImplementationTimeline(35, 25, 32, 35, 18, 60)
    )
    case SecureW2 => (
      match size
      case Small => ImplementationTimeline(5, 2, 4, 4, 2, 6)
      case Medium => ImplementationTimeline(8, 3, 6, 6, 3, 10)
      case Large => ImplementationTimeline(14, 4, 10, 10, 5, 20)
      case Enterprise => ImplementationTimeline(25, 6, 18, 18, 8, 35)
    )
    case Ivanti => (
      match size
      case Small => ImplementationTimeline(10, 7, 12, 14, 6, 18)
      case Medium => ImplementationTimeline(15, 10, 16, 18, 9, 28)
      case Large => ImplementationTimeline(22, 15, 22, 22, 12, 40)
      case Enterprise => ImplementationTimeline(36, 24, 32, 30, 18, 60)
    )
    case Microsoft => (
      match size
      case Small => ImplementationTimeline(8, 5, 10, 12, 4, 15)
      case Medium => ImplementationTimeline(12, 8, 14, 16, 6, 25)
      case Large => ImplementationTimeline(18, 12, 20, 22, 9, 35)
      case Enterprise => ImplementationTimeline(30, 18, 28, 30, 14, 50)
    )
  }

  /** The cloud-native reference vendor needs no hardware at any size. */
  lemma ReferenceVendorHasNoHardware(size: OrganizationSize)
    ensures VendorCosts(Portnox, size).initialHardwareCost == 0.0
  {
  }

  /** At every size, the reference vendor's timeline is the shortest. */
  lemma ReferenceVendorFastest(vendor: VendorId, size: OrganizationSize)
    requires vendor != Portnox
    ensures TotalImplementationTime(VendorImplementation(Portnox, size))
          < TotalImplementationTime(VendorImplementation(vendor, size))
  {
  }
}
