/** The pure half of the cloud manager service: the instance power-draw and hourly-price
    tables, the per-region machine-image table, the supported region and instance-type
    lists, the energy/emissions estimate against the region catalog, the cost estimate,
    and the savings of running a workload in a region instead of on the local grid. */
module Estimator {
  import opened Common
  import opened CloudRegionModel

  // ---------------------------------------------------------------------------
  // Lookup tables.
  // ---------------------------------------------------------------------------

  /** Average power draw in watts per instance type. */
  const PowerTable: map<string, real> := map[
    "t2.micro" := 5.0, "t2.small" := 10.0, "t2.medium" := 20.0,
    "t3.micro" := 4.0, "t3.small" := 8.0, "t3.medium" := 16.0, "t3.large" := 32.0]

  const DefaultPowerWatts: real := 5.0

  /** On-demand price in dollars per hour per instance type. */
  const CostTable: map<string, real> := map[
    "t2.micro" := 0.0116, "t2.small" := 0.023, "t2.medium" := 0.0464,
    "t3.micro" := 0.0104, "t3.small" := 0.0208, "t3.medium" := 0.0416]

  const DefaultHourlyCost: real := 0.01

  /** Machine image per region. */
  const AmiTable: map<string, string> := map[
    "us-east-1" := "ami-0230bd60aa48260c6",
    "us-east-2" := "ami-0a606d8395a538502",
    "us-west-1" := "ami-04fdea8e25817cd69",
    "us-west-2" := "ami-0688ba7eeeeefe3cd",
    "eu-west-1" := "ami-0d71ea30463e0ff8d",
    "eu-west-2" := "ami-0bd2230cfb28832f7",
    "eu-north-1" := "ami-092cce4a19b438926",
    "eu-central-1" := "ami-06dd92ecc74fdfb36",
    "ap-south-1" := "ami-0c2af51e265bd5e0e",
    "ap-southeast-1" := "ami-0dc2d3e4c0f9ebd18",
    "ap-northeast-1" := "ami-0bba69335379e17f8",
    "ca-central-1" := "ami-0c3377fc7bcdc3ed8",
    "sa-east-1" := "ami-02334c45dd95ca1fc"]

  /** The region whose image is used for a region missing from the image table. */
  const FallbackAmiRegion: string := "us-east-1"

  const SupportedRegions: seq<string> := [
    "us-east-1", "us-east-2", "us-west-1", "us-west-2", "eu-west-1", "eu-west-2",
    "eu-north-1", "eu-central-1", "ap-south-1", "ap-southeast-1", "ap-northeast-1",
    "ca-central-1", "sa-east-1"]

  const SupportedInstanceTypes: seq<string> := [
    "t2.micro", "t2.small", "t2.medium", "t3.micro", "t3.small", "t3.medium"]

  /** Carbon intensity (gCO2/kWh) assumed for the local, mixed grid. */
  const LocalCarbonIntensity: real := 500.0

  // ---------------------------------------------------------------------------
  // Lookups with their fallbacks.
  // ---------------------------------------------------------------------------

  function PowerWatts(instanceType: string): (w: real)
    ensures w > 0.0
    ensures instanceType in PowerTable ==> w == PowerTable[instanceType]
    ensures instanceType !in PowerTable ==> w == DefaultPowerWatts
  {
    if instanceType in PowerTable then PowerTable[instanceType] else DefaultPowerWatts
  }

  function HourlyCost(instanceType: string): (c: real)
    ensures c > 0.0
    ensures instanceType in CostTable ==> c == CostTable[instanceType]
    ensures instanceType !in CostTable ==> c == DefaultHourlyCost
  {
    if instanceType in CostTable then CostTable[instanceType] else DefaultHourlyCost
  }

  /** The image for a region; a region missing from the table gets the us-east-1 image.
      The result is always one image identifier from the table. */
  function AmiForRegion(region: string): (ami: string)
    ensures ami in AmiTable.Values
    ensures region in AmiTable ==> ami == AmiTable[region]
    ensures region !in AmiTable ==> ami == AmiTable[FallbackAmiRegion]
  {
    if region in AmiTable then AmiTable[region] else AmiTable[FallbackAmiRegion]
  }

  /** Every supported region has an image entry of its own, so none of them falls back. */
  lemma SupportedRegionsHaveImages()
    ensures forall r :: r in SupportedRegions ==> r in AmiTable
  {
  }

  /** Every supported instance type is priced and has a measured power draw. */
  lemma SupportedTypesAreTabled()
    ensures forall t :: t in SupportedInstanceTypes ==> t in PowerTable && t in CostTable
  {
  }

  // ---------------------------------------------------------------------------
  // Energy, emissions and cost.
  // ---------------------------------------------------------------------------

  /** kWh drawn by an instance type running for `hours`. */
  function Energy(instanceType: string, hours: real): real {
    PowerWatts(instanceType) * hours / 1000.0
  }

  /** Energy is proportional to the duration: zero at zero, additive in duration, and one
      hour's energy scaled by the number of hours. */
  lemma EnergyLinear(instanceType: string, h1: real, h2: real)
    ensures Energy(instanceType, 0.0) == 0.0
    ensures Energy(instanceType, h1 + h2) == Energy(instanceType, h1) + Energy(instanceType, h2)
    ensures Energy(instanceType, h1) == Energy(instanceType, 1.0) * h1
  {
  }

  function EstimateCost(provider: string, instanceType: string, hours: real): (c: real)
    ensures provider != "aws" ==> c == 0.0
    ensures provider == "aws" ==> c == HourlyCost(instanceType) * hours
    ensures hours >= 0.0 ==> c >= 0.0
  {
    if provider != "aws" then 0.0 else HourlyCost(instanceType) * hours
  }

  /** The cost estimate is additive in duration for every provider. */
  lemma EstimateCostAdditive(provider: string, instanceType: string, h1: real, h2: real)
    ensures EstimateCost(provider, instanceType, h1 + h2)
         == EstimateCost(provider, instanceType, h1) + EstimateCost(provider, instanceType, h2)
  {
  }

  predicate Matches(c: CloudRegion, provider: string, region: string) {
    ProviderName(c.provider) == provider && c.region == region
  }

  /** `CloudRegion.findOne({ provider, region })`: the first catalog entry with that key. */
  function FindRegion(catalog: seq<CloudRegion>, provider: string, region: string): (r: Option<CloudRegion>)
    ensures r.None? <==> forall c :: c in catalog ==> !Matches(c, provider, region)
    ensures r.Some? ==> r.value in catalog && Matches(r.value, provider, region)
  {
    if catalog == [] then None
    else if Matches(catalog[0], provider, region) then Some(catalog[0])
    else
      assert forall c :: c in catalog ==> c == catalog[0] || c in catalog[1..];
      FindRegion(catalog[1..], provider, region)
  }

  /** The entry found is the one at the first matching position. */
  lemma {:induction false} FindRegionFirst(catalog: seq<CloudRegion>, provider: string, region: string, k: nat)
    requires k < |catalog| && Matches(catalog[k], provider, region)
    requires forall i :: 0 <= i < k ==> !Matches(catalog[i], provider, region)
    ensures FindRegion(catalog, provider, region) == Some(catalog[k])
    decreases k
  {
    if k > 0 {
      assert !Matches(catalog[0], provider, region);
      var rest := catalog[1..];
      forall i | 0 <= i < k - 1 ensures !Matches(rest[i], provider, region) {
        assert rest[i] == catalog[i + 1];
      }
      FindRegionFirst(rest, provider, region, k - 1);
    }
  }

  /** In a catalog with unique (provider, region) keys, a found entry is the only match. */
  lemma FindRegionUnique(catalog: seq<CloudRegion>, provider: string, region: string, c: CloudRegion)
    requires UniqueKeys(catalog)
    requires c in catalog && Matches(c, provider, region)
    ensures FindRegion(catalog, provider, region) == Some(c)
  {
    var r := FindRegion(catalog, provider, region).value;
    var i :| 0 <= i < |catalog| && catalog[i] == r;
    var k :| 0 <= k < |catalog| && catalog[k] == c;
    if r != c {
      // Both match, so they share a key, which the unique index forbids.
      assert false;
    }
  }

  datatype EmissionEstimate = EmissionEstimate(
    energyKWh: real,
    emissionsGCO2: real,
    carbonIntensity: real,
    renewablePercentage: real,
    power: real)

  /** The estimate priced against one catalog entry. */
  function EstimateAt(c: CloudRegion, instanceType: string, hours: real): EmissionEstimate {
    var energy := PowerWatts(instanceType) * hours / 1000.0;
    EmissionEstimate(energy, energy * c.carbonIntensity, c.carbonIntensity,
                     c.renewablePercentage, PowerWatts(instanceType))
  }

  lemma EstimateAtFigures(c: CloudRegion, instanceType: string, hours: real)
    ensures var e := EstimateAt(c, instanceType, hours);
      && e.power == PowerWatts(instanceType)
      && e.energyKWh == e.power * hours / 1000.0
      && e.emissionsGCO2 == e.energyKWh * e.carbonIntensity
      && e.carbonIntensity == c.carbonIntensity && e.renewablePercentage == c.renewablePercentage
  {
  }

  /** `calculateCloudEmissions`: the energy of the instance type over the duration, times
      the catalog's carbon intensity for (provider, region); fails when the catalog has no
      such entry. */
  function CalculateCloudEmissions(catalog: seq<CloudRegion>, provider: string, region: string,
                                   instanceType: string, hours: real): (r: Result<EmissionEstimate, string>)
    ensures r.Failure? <==> forall c :: c in catalog ==> !Matches(c, provider, region)
    ensures r.Success? ==>
      && r.value.power == PowerWatts(instanceType)
      && r.value.energyKWh == r.value.power * hours / 1000.0
      && r.value.emissionsGCO2 == r.value.energyKWh * r.value.carbonIntensity
      && exists c :: c in catalog && Matches(c, provider, region)
           && c.carbonIntensity == r.value.carbonIntensity
           && c.renewablePercentage == r.value.renewablePercentage
  {
    match FindRegion(catalog, provider, region)
    case None => Failure("Region data not found for " + provider + ":" + region)
    case Some(c) =>
      EstimateAtFigures(c, instanceType, hours);
      Success(EstimateAt(c, instanceType, hours))
  }

  /** Emissions are proportional to the duration: the same catalog entry prices every
      duration, so the estimate for `hours` is the one-hour estimate times `hours`. */
  lemma CloudEmissionsLinear(catalog: seq<CloudRegion>, provider: string, region: string,
                             instanceType: string, hours: real)
    requires CalculateCloudEmissions(catalog, provider, region, instanceType, 1.0).Success?
    ensures CalculateCloudEmissions(catalog, provider, region, instanceType, hours).Success?
    ensures CalculateCloudEmissions(catalog, provider, region, instanceType, hours).value.emissionsGCO2
         == CalculateCloudEmissions(catalog, provider, region, instanceType, 1.0).value.emissionsGCO2 * hours
  {
    var c := FindRegion(catalog, provider, region).value;
    calc {
      CalculateCloudEmissions(catalog, provider, region, instanceType, hours).value.emissionsGCO2;
      { CalculatedAt(catalog, provider, region, instanceType, hours); }
      EstimateAt(c, instanceType, hours).emissionsGCO2;
      { EstimateAtLinear(c, instanceType, hours); }
      EstimateAt(c, instanceType, 1.0).emissionsGCO2 * hours;
      { CalculatedAt(catalog, provider, region, instanceType, 1.0); }
      CalculateCloudEmissions(catalog, provider, region, instanceType, 1.0).value.emissionsGCO2 * hours;
    }
  }

  /** A found catalog entry prices the estimate. */
  lemma CalculatedAt(catalog: seq<CloudRegion>, provider: string, region: string,
                     instanceType: string, hours: real)
    requires FindRegion(catalog, provider, region).Some?
    ensures CalculateCloudEmissions(catalog, provider, region, instanceType, hours)
         == Success(EstimateAt(FindRegion(catalog, provider, region).value, instanceType, hours))
  {
  }

  lemma EstimateAtLinear(c: CloudRegion, instanceType: string, hours: real)
    ensures EstimateAt(c, instanceType, hours).emissionsGCO2 == EstimateAt(c, instanceType, 1.0).emissionsGCO2 * hours
  {
    ScaleByHours(PowerWatts(instanceType), c.carbonIntensity, hours);
  }

  /** Energy times intensity scales with the hours. */
  lemma ScaleByHours(power: real, intensity: real, hours: real)
    ensures (power * hours / 1000.0) * intensity == (power * 1.0 / 1000.0) * intensity * hours
  {
    calc {
      (power * hours / 1000.0) * intensity;
      power * (hours * intensity) / 1000.0;
      (power / 1000.0 * intensity) * hours;
    }
  }

  // ---------------------------------------------------------------------------
  // Savings against the local grid.
  // ---------------------------------------------------------------------------

  function LocalEmissions(energyKWh: real): real {
    energyKWh * LocalCarbonIntensity
  }

  datatype SavingsBreakdown = SavingsBreakdown(
    energyKWh: real,
    localEmissions: real,
    cloudEmissions: real,
    savingsGCO2: real,
    savingsPercentage: Option<real>)

  /** The what-if comparison: one energy figure, priced at the local intensity and at the
      target's; the percentage is undefined (None) when the local figure is zero. */
  function ComputeSavings(powerWatts: real, hours: real, targetIntensity: real): (b: SavingsBreakdown)
    ensures b.energyKWh == powerWatts * hours / 1000.0
    ensures b.localEmissions == b.energyKWh * LocalCarbonIntensity
    ensures b.cloudEmissions == b.energyKWh * targetIntensity
    ensures b.savingsGCO2 == b.localEmissions - b.cloudEmissions
    ensures b.savingsGCO2 == b.energyKWh * (LocalCarbonIntensity - targetIntensity)
    ensures b.savingsPercentage.None? <==> b.energyKWh == 0.0
    ensures b.savingsPercentage.Some? ==>
      b.savingsPercentage.value == (LocalCarbonIntensity - targetIntensity) / LocalCarbonIntensity * 100.0
  {
    var energy := powerWatts * hours / 1000.0;
    var local := LocalEmissions(energy);
    var cloud := energy * targetIntensity;
    var savings := local - cloud;
    SavingsBreakdown(energy, local, cloud, savings,
                     if local == 0.0 then None else Some(savings / local * 100.0))
  }

  /** A launch estimate and the what-if comparison for the same instance type, duration
      and catalog entry agree: same energy, same cloud emissions, and local minus cloud
      emissions of the estimate are the comparison's savings, energy times (500 - intensity). */
  lemma EstimateAgreesWithComparison(catalog: seq<CloudRegion>, provider: string, region: string,
                                     instanceType: string, hours: real)
    requires CalculateCloudEmissions(catalog, provider, region, instanceType, hours).Success?
    ensures var e := CalculateCloudEmissions(catalog, provider, region, instanceType, hours).value;
      var b := ComputeSavings(e.power, hours, e.carbonIntensity);
      && e.energyKWh == b.energyKWh
      && e.emissionsGCO2 == b.cloudEmissions
      && LocalEmissions(e.energyKWh) - e.emissionsGCO2 == b.savingsGCO2
  {
  }

  /** For positive energy, the sign of the savings is the sign of (500 - intensity):
      zero at the local intensity, positive for a cleaner grid, negative for a dirtier one. */
  lemma SavingsSign(powerWatts: real, hours: real, targetIntensity: real)
    requires powerWatts * hours > 0.0
    ensures ComputeSavings(powerWatts, hours, targetIntensity).savingsGCO2 == 0.0 <==> targetIntensity == LocalCarbonIntensity
    ensures ComputeSavings(powerWatts, hours, targetIntensity).savingsGCO2 > 0.0 <==> targetIntensity < LocalCarbonIntensity
    ensures ComputeSavings(powerWatts, hours, targetIntensity).savingsGCO2 < 0.0 <==> targetIntensity > LocalCarbonIntensity
  {
    var b := ComputeSavings(powerWatts, hours, targetIntensity);
    assert b.energyKWh > 0.0;
  }
}
