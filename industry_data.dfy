/** The industry benchmark table of lib/data/industry-data.ts and
    getIndustryDefaults, which turns an industry and a head count into
    default request figures. */
module IndustryData {
  import VendorData

  datatype IndustryType =
    Healthcare | Financial | Education | Manufacturing | Retail | Technology | Government | Other

  /** The four-step scale of `securityPriority` and `breachImpact`. */
  datatype Severity = Low | Medium | High | Critical

  /** The compliance regimes the profiles name. */
  datatype Standard =
    | Hipaa | Hitrust | Fda | Gdpr | PciDss | Sox | Glba | Ccpa | Ferpa | Cipa | Coppa
    | Iso27001 | Iec62443 | NistCsf | Soc2 | Fisma | FedRamp | Nist80053 | Cjis
    | GeneralBestPractices

  /** The label the profile table uses for each regime. */
  function StandardLabel(s: Standard): string {
    match s
    case Hipaa => "HIPAA"
    case Hitrust => "HITRUST"
    case Fda => "FDA"
    case Gdpr => "GDPR"
    case PciDss => "PCI DSS"
    case Sox => "SOX"
    case Glba => "GLBA"
    case Ccpa => "CCPA"
    case Ferpa => "FERPA"
    case Cipa => "CIPA"
    case Coppa => "COPPA"
    case Iso27001 => "ISO 27001"
    case Iec62443 => "IEC 62443"
    case NistCsf => "NIST CSF"
    case Soc2 => "SOC 2"
    case Fisma => "FISMA"
    case FedRamp => "FedRAMP"
    case Nist80053 => "NIST 800-53"
    case Cjis => "CJIS"
    case GeneralBestPractices => "General security best practices"
  }

  /** Distinct regimes carry distinct labels, so the enumeration stands for
      the table's label strings one to one. */
  lemma StandardLabelInjective(s: Standard, t: Standard)
    requires s != t
    ensures StandardLabel(s) != StandardLabel(t)
  {
  }

  datatype IndustryProfile = IndustryProfile(
    id: IndustryType,
    name: string,
    complianceNeeds: seq<Standard>,
    recommendedVendors: seq<VendorData.VendorId>,
    deviceDensity: real,          // devices per employee
    wirelessPercentage: real,
    byodPercentage: real,
    iotPercentage: real,
    securityPriority: Severity,
    breachImpact: Severity,
    downtimeCostHourly: real)     // per 100 employees

  /** industryProfiles: one benchmark profile per industry, filed under its
      own id; every percentage lies in [0, 100] and every density and hourly
      cost is positive. */
  function Profile(industry: IndustryType): (p: IndustryProfile)
    ensures p.id == industry
    ensures 0.0 <= p.wirelessPercentage <= 100.0
    ensures 0.0 <= p.byodPercentage <= 100.0
    ensures 0.0 <= p.iotPercentage <= 100.0
    ensures p.deviceDensity > 0.0
    ensures p.downtimeCostHourly > 0.0
  {
    match industry
    case Healthcare =>
      IndustryProfile(Healthcare, "Healthcare",
        [Hipaa, Hitrust, Fda, Gdpr],
        [VendorData.Portnox, VendorData.Forescout, VendorData.Cisco, VendorData.Aruba],
        5.2, 70.0, 30.0, 45.0, Critical, Critical, 8500.0)
    case Financial =>
      IndustryProfile(Financial, "Financial Services",
        [PciDss, Sox, Glba, Gdpr, Ccpa],
        [VendorData.Cisco, VendorData.Forescout, VendorData.Portnox, VendorData.Aruba],
        3.8, 55.0, 25.0, 15.0, Critical, Critical, 11200.0)
    case Education =>
      IndustryProfile(Education, "Education",
        [Ferpa, Cipa, Coppa, Gdpr],
        [VendorData.Portnox, VendorData.SecureW2, VendorData.Aruba, VendorData.Fortinet],
        4.5, 85.0, 65.0, 20.0, Medium, High, 3800.0)
    case Manufacturing =>
      IndustryProfile(Manufacturing, "Manufacturing",
        [Iso27001, Iec62443, NistCsf],
        [VendorData.Forescout, VendorData.Fortinet, VendorData.Portnox, VendorData.Cisco],
        6.2, 50.0, 15.0, 60.0, High, High, 7500.0)
    case Retail =>
      IndustryProfile(Retail, "Retail",
        [PciDss, Gdpr, Ccpa],
        [VendorData.Portnox, VendorData.Fortinet, VendorData.Aruba, VendorData.Cisco],
        3.5, 75.0, 20.0, 35.0, Medium, High, 5200.0)
    case Technology =>
      IndustryProfile(Technology, "Technology",
        [Soc2, Iso27001, Gdpr, Ccpa],
        [VendorData.Portnox, VendorData.SecureW2, VendorData.Ivanti, VendorData.Forescout],
        4.8, 90.0, 40.0, 25.0, High, High, 9800.0)
    case Government =>
      IndustryProfile(Government, "Government",
        [Fisma, FedRamp, Nist80053, Cjis],
        [VendorData.Cisco, VendorData.Forescout, VendorData.Aruba, VendorData.Microsoft],
        2.8, 45.0, 10.0, 20.0, Critical, Critical, 6500.0)
    case Other =>
      IndustryProfile(Other, "Other Industries",
        [GeneralBestPractices],
        [VendorData.Portnox, VendorData.Fortinet, VendorData.Aruba, VendorData.Microsoft],
        3.0, 60.0, 25.0, 20.0, Medium, Medium, 4500.0)
  }

  // ---------------------------------------------------------------------
  // Math.ceil
  // ---------------------------------------------------------------------

  /** Math.ceil over the reals: the least integer not below `x`. */
  function Ceil(x: real): (c: int)
    ensures x <= c as real < x + 1.0
  {
    -((-x).Floor)
  }

  /** The ceiling is the only integer in `[x, x + 1)`. */
  lemma CeilUnique(x: real, c: int)
    requires x <= c as real < x + 1.0
    ensures c == Ceil(x)
  {
  }

  lemma CeilMonotone(x: real, y: real)
    requires x <= y
    ensures Ceil(x) <= Ceil(y)
  {
  }

  // ---------------------------------------------------------------------
  // getIndustryDefaults
  // ---------------------------------------------------------------------

  datatype IndustryDefaults = IndustryDefaults(
    deviceCount: int,
    wirelessPercentage: real,
    byodPercentage: real,
    iotPercentage: real,
    downtimeCostHourly: int,
    complianceNeeds: seq<Standard>,
    recommendedVendors: seq<VendorData.VendorId>)

  /** The figures getIndustryDefaults derives from one profile: the device
      count and the hourly downtime cost are rounded up from the profile's
      per-employee and per-100-employee rates; the percentages and both
      lists are the profile's own. */
  function ApplyProfile(profile: IndustryProfile, employeeCount: real): (d: IndustryDefaults)
    ensures employeeCount * profile.deviceDensity <= d.deviceCount as real
    ensures d.deviceCount as real < employeeCount * profile.deviceDensity + 1.0
    ensures profile.downtimeCostHourly * employeeCount / 100.0 <= d.downtimeCostHourly as real
    ensures d.downtimeCostHourly as real < profile.downtimeCostHourly * employeeCount / 100.0 + 1.0
    ensures d.wirelessPercentage == profile.wirelessPercentage
    ensures d.byodPercentage == profile.byodPercentage
    ensures d.iotPercentage == profile.iotPercentage
    ensures d.complianceNeeds == profile.complianceNeeds
    ensures d.recommendedVendors == profile.recommendedVendors
  {
    IndustryDefaults(
      Ceil(employeeCount * profile.deviceDensity),
      profile.wirelessPercentage,
      profile.byodPercentage,
      profile.iotPercentage,
      Ceil((profile.downtimeCostHourly * employeeCount) / 100.0),
      profile.complianceNeeds,
      profile.recommendedVendors)
  }

  /** getIndustryDefaults: the defaults of the industry's own profile. */
  function GetIndustryDefaults(industry: IndustryType, employeeCount: real): (d: IndustryDefaults)
    ensures employeeCount * Profile(industry).deviceDensity <= d.deviceCount as real
    ensures d.deviceCount as real < employeeCount * Profile(industry).deviceDensity + 1.0
    ensures Profile(industry).downtimeCostHourly * employeeCount / 100.0 <= d.downtimeCostHourly as real
    ensures d.downtimeCostHourly as real < Profile(industry).downtimeCostHourly * employeeCount / 100.0 + 1.0
    ensures d.wirelessPercentage == Profile(industry).wirelessPercentage
    ensures d.byodPercentage == Profile(industry).byodPercentage
    ensures d.iotPercentage == Profile(industry).iotPercentage
    ensures d.complianceNeeds == Profile(industry).complianceNeeds
    ensures d.recommendedVendors == Profile(industry).recommendedVendors
  {
    ApplyProfile(Profile(industry), employeeCount)
  }

  /** Rounding up a rate times a head count is monotone in the head count. */
  lemma RoundedRateMonotone(fewer: real, more: real, rate: real, per: real)
    requires fewer <= more && rate > 0.0 && per > 0.0
    ensures Ceil(rate * fewer / per) <= Ceil(rate * more / per)
  {
    assert rate * more - rate * fewer == rate * (more - fewer);
    assert rate * fewer / per <= rate * more / per;
    CeilMonotone(rate * fewer / per, rate * more / per);
  }

  /** For a profile with positive rates, more employees never lower the
      device count or the downtime cost. */
  lemma ApplyProfileMonotone(profile: IndustryProfile, fewer: real, more: real)
    requires fewer <= more
    requires profile.deviceDensity > 0.0 && profile.downtimeCostHourly > 0.0
    ensures ApplyProfile(profile, fewer).deviceCount <= ApplyProfile(profile, more).deviceCount
    ensures ApplyProfile(profile, fewer).downtimeCostHourly
         <= ApplyProfile(profile, more).downtimeCostHourly
  {
    RoundedRateMonotone(fewer, more, profile.deviceDensity, 1.0);
    assert fewer * profile.deviceDensity == profile.deviceDensity * fewer / 1.0;
    assert more * profile.deviceDensity == profile.deviceDensity * more / 1.0;
    RoundedRateMonotone(fewer, more, profile.downtimeCostHourly, 100.0);
  }

  /** More employees never lower the default device count or downtime cost. */
  lemma DefaultsMonotoneInEmployees(industry: IndustryType, fewer: real, more: real)
    requires fewer <= more
    ensures GetIndustryDefaults(industry, fewer).deviceCount
         <= GetIndustryDefaults(industry, more).deviceCount
    ensures GetIndustryDefaults(industry, fewer).downtimeCostHourly
         <= GetIndustryDefaults(industry, more).downtimeCostHourly
  {
    ApplyProfileMonotone(Profile(industry), fewer, more);
  }

  /** A non-negative head count gives a non-negative device count and cost. */
  lemma DefaultsNonNegative(industry: IndustryType, employeeCount: real)
    requires employeeCount >= 0.0
    ensures GetIndustryDefaults(industry, employeeCount).deviceCount >= 0
    ensures GetIndustryDefaults(industry, employeeCount).downtimeCostHourly >= 0
  {
    DefaultsMonotoneInEmployees(industry, 0.0, employeeCount);
  }
}
