/** The region catalog the seed route installs: ten launchable AWS regions listed from
    the lowest to the highest grid carbon intensity, then two reference regions of other
    providers that cannot be launched into. */
module SeedCatalog {
  import opened Common
  import opened CloudRegionModel
  import opened Estimator

  const SeedDrafts: seq<RegionDraft> := [
    RegionDraft("aws", "eu-north-1", "Stockholm", "Sweden", Some(8.0), Some(98.0),
                ["t2.micro", "t2.small", "t3.micro", "t3.small"],
                ["eu-north-1a", "eu-north-1b", "eu-north-1c"], Some(true)),
    RegionDraft("aws", "ca-central-1", "Montreal", "Canada", Some(25.0), Some(95.0),
                ["t2.micro", "t2.small", "t3.micro", "t3.small"],
                ["ca-central-1a", "ca-central-1b"], Some(true)),
    RegionDraft("aws", "us-west-2", "Oregon", "USA", Some(50.0), Some(90.0),
                ["t2.micro", "t2.small", "t3.micro", "t3.small", "t3.medium"],
                ["us-west-2a", "us-west-2b", "us-west-2c"], Some(true)),
    RegionDraft("aws", "us-west-1", "N. California", "USA", Some(220.0), Some(60.0),
                ["t2.micro", "t2.small", "t3.micro", "t3.small"],
                ["us-west-1a", "us-west-1b"], Some(true)),
    RegionDraft("aws", "eu-west-1", "Ireland", "Ireland", Some(280.0), Some(55.0),
                ["t2.micro", "t2.small", "t3.micro"],
                ["eu-west-1a", "eu-west-1b", "eu-west-1c"], Some(true)),
    RegionDraft("aws", "eu-central-1", "Frankfurt", "Germany", Some(310.0), Some(50.0),
                ["t2.micro", "t2.small", "t3.micro"],
                ["eu-central-1a", "eu-central-1b", "eu-central-1c"], Some(true)),
    RegionDraft("aws", "us-east-1", "N. Virginia", "USA", Some(380.0), Some(45.0),
                ["t2.micro", "t2.small", "t2.medium", "t3.micro", "t3.small"],
                ["us-east-1a", "us-east-1b", "us-east-1c"], Some(true)),
    RegionDraft("aws", "ap-southeast-1", "Singapore", "Singapore", Some(400.0), Some(40.0),
                ["t2.micro", "t2.small", "t3.micro"],
                ["ap-southeast-1a", "ap-southeast-1b", "ap-southeast-1c"], Some(true)),
    RegionDraft("aws", "us-east-2", "Ohio", "USA", Some(420.0), Some(35.0),
                ["t2.micro", "t2.small", "t3.micro"],
                ["us-east-2a", "us-east-2b", "us-east-2c"], Some(true)),
    RegionDraft("aws", "ap-south-1", "Mumbai", "India", Some(630.0), Some(25.0),
                ["t2.micro", "t2.small", "t3.micro"],
                ["ap-south-1a", "ap-south-1b", "ap-south-1c"], Some(true)),
    RegionDraft("gcp", "europe-north1", "Finland", "Finland", Some(75.0), Some(85.0),
                [], [], Some(false)),
    RegionDraft("azure", "norwayeast", "Norway East", "Norway", Some(12.0), Some(97.0),
                [], [], Some(false))]

  /** The seed's columns, one entry per document. */
  const SeedRegionNames: seq<string> := [
    "eu-north-1", "ca-central-1", "us-west-2", "us-west-1", "eu-west-1", "eu-central-1",
    "us-east-1", "ap-southeast-1", "us-east-2", "ap-south-1", "europe-north1", "norwayeast"]
  const SeedProviderNames: seq<string> := [
    "aws", "aws", "aws", "aws", "aws", "aws", "aws", "aws", "aws", "aws", "gcp", "azure"]
  /** The providers the seed's names cast to. */
  const SeedProviders: seq<Provider> := [Aws, Aws, Aws, Aws, Aws, Aws, Aws, Aws, Aws, Aws, Gcp, Azure]
  const SeedIntensities: seq<real> := [
    8.0, 25.0, 50.0, 220.0, 280.0, 310.0, 380.0, 400.0, 420.0, 630.0, 75.0, 12.0]
  const SeedAvailability: seq<bool> := [
    true, true, true, true, true, true, true, true, true, true, false, false]

  /** The number of launchable AWS regions at the head of the seed. */
  const LaunchableCount: nat := 10

  lemma SeedColumns()
    ensures |SeedDrafts| == 12
    ensures forall i :: 0 <= i < 12 ==>
      && SeedDrafts[i].region == SeedRegionNames[i]
      && SeedDrafts[i].provider == SeedProviderNames[i]
      && SeedDrafts[i].carbonIntensity == Some(SeedIntensities[i])
      && SeedDrafts[i].available == Some(SeedAvailability[i])
  {
    assert seq(12, k requires 0 <= k < 12 => SeedDrafts[k].region) == SeedRegionNames;
    assert seq(12, k requires 0 <= k < 12 => SeedDrafts[k].provider) == SeedProviderNames;
    assert seq(12, k requires 0 <= k < 12 => SeedDrafts[k].carbonIntensity) ==
           seq(12, k requires 0 <= k < 12 => Some(SeedIntensities[k]));
    assert seq(12, k requires 0 <= k < 12 => SeedDrafts[k].available) ==
           seq(12, k requires 0 <= k < 12 => Some(SeedAvailability[k]));
  }

  /** Every seed document passes the schema. */
  lemma SeedDraftsAccepted()
    ensures forall i :: 0 <= i < |SeedDrafts| ==> !DraftRejected(SeedDrafts[i])
  {
  }

  /** The seed's region names are pairwise distinct, so its keys are. */
  lemma SeedRegionsDistinct()
    ensures forall i, j :: 0 <= i < j < |SeedRegionNames| ==> SeedRegionNames[i] != SeedRegionNames[j]
  {
  }

  /** The seed documents as stored, numbered from `firstId`. */
  function SeedDocs(firstId: nat): (docs: seq<CloudRegion>)
    ensures |docs| == 12
  {
    SeedDraftsAccepted();
    CreateAllAccepts(SeedDrafts, firstId);
    CreateAll(SeedDrafts, firstId).value
  }

  /** Each stored seed document is its entry, created with the next id. */
  lemma SeedDocAt(firstId: nat, i: nat)
    requires i < 12
    ensures CreateRegion(SeedDrafts[i], firstId + i) == Success(SeedDocs(firstId)[i])
  {
    SeedDraftsAccepted();
    CreateAllAccepts(SeedDrafts, firstId);
    CreateAllAt(SeedDrafts, firstId, i);
  }

  /** The stored documents carry the seed's region names. */
  lemma DocRegions(firstId: nat)
    ensures |SeedDocs(firstId)| == 12
    ensures forall i :: 0 <= i < 12 ==> SeedDocs(firstId)[i].region == SeedRegionNames[i]
  {
    SeedColumns();
    var docs := SeedDocs(firstId);
    forall i | 0 <= i < 12 ensures docs[i].region == SeedDrafts[i].region {
      SeedDocAt(firstId, i);
    }
  }

  /** The stored documents carry the seed's providers. */
  lemma DocProviders(firstId: nat)
    ensures |SeedDocs(firstId)| == 12
    ensures forall i :: 0 <= i < 12 ==> SeedDocs(firstId)[i].provider == SeedProviders[i]
  {
    SeedColumns();
    var docs := SeedDocs(firstId);
    assert seq(12, k requires 0 <= k < 12 => ProviderName(SeedProviders[k])) == SeedProviderNames;
    forall i | 0 <= i < 12 ensures docs[i].provider == SeedProviders[i] {
      SeedDocAt(firstId, i);
      ProviderNameInjective(docs[i].provider, SeedProviders[i]);
    }
  }

  /** The stored documents carry the seed's intensities and availability flags. */
  lemma DocIntensities(firstId: nat)
    ensures |SeedDocs(firstId)| == 12
    ensures forall i :: 0 <= i < 12 ==>
      SeedDocs(firstId)[i].carbonIntensity == SeedIntensities[i] && SeedDocs(firstId)[i].available == SeedAvailability[i]
  {
    SeedColumns();
    var docs := SeedDocs(firstId);
    forall i | 0 <= i < 12
      ensures docs[i].carbonIntensity == SeedDrafts[i].carbonIntensity.value
      ensures docs[i].available == SeedDrafts[i].available.GetOr(true)
    {
      SeedDocAt(firstId, i);
    }
  }

  /** No two stored seed documents share a (provider, region) key. */
  lemma SeedDocsUnique(firstId: nat)
    ensures UniqueKeys(SeedDocs(firstId))
  {
    var docs := SeedDocs(firstId);
    DocRegions(firstId);
    SeedRegionsDistinct();
    forall i, j | 0 <= i < j < |docs| ensures !SameKey(docs[i], docs[j]) {
      assert docs[i].region == SeedRegionNames[i] && docs[j].region == SeedRegionNames[j];
    }
  }

  /** The seed inserts: every document passes and no two share a (provider, region) key. */
  lemma SeedInserts(firstId: nat)
    ensures InsertMany(SeedDrafts, firstId) == Success(SeedDocs(firstId))
    ensures ValidCatalog(SeedDocs(firstId))
  {
    var docs := SeedDocs(firstId);
    SeedDraftsAccepted();
    CreateAllAccepts(SeedDrafts, firstId);
    assert CreateAll(SeedDrafts, firstId) == Success(docs);
    SeedDocsUnique(firstId);
  }

  /** The head of the stored seed: ten available AWS regions, Stockholm (8 gCO2/kWh) first. */
  lemma SeedAwsHead(firstId: nat)
    ensures |SeedDocs(firstId)| == 12
    ensures forall i :: 0 <= i < LaunchableCount ==>
      SeedDocs(firstId)[i].provider == Aws && SeedDocs(firstId)[i].available
    ensures SeedDocs(firstId)[0].region == "eu-north-1" && SeedDocs(firstId)[0].carbonIntensity == 8.0
  {
    var docs := SeedDocs(firstId);
    DocRegions(firstId);
    DocProviders(firstId);
    DocIntensities(firstId);
    forall i | 0 <= i < LaunchableCount ensures docs[i].provider == Aws && docs[i].available {
      assert SeedProviders[i] == Aws && SeedAvailability[i];
    }
  }

  /** The ten launchable regions are listed from the lowest to the highest intensity. */
  lemma SeedAscendingIntensity(firstId: nat)
    ensures |SeedDocs(firstId)| == 12
    ensures forall i, j :: 0 <= i < j < LaunchableCount ==>
      SeedDocs(firstId)[i].carbonIntensity <= SeedDocs(firstId)[j].carbonIntensity
  {
    DocIntensities(firstId);
    forall i, j | 0 <= i < j < LaunchableCount ensures SeedIntensities[i] <= SeedIntensities[j] {
      forall k | 0 <= k < 9 ensures SeedIntensities[k] <= SeedIntensities[k + 1] {
      }
      AscendingFromSteps(SeedIntensities[..10], i, j);
    }
  }

  /** Neighbour-wise non-decreasing implies non-decreasing for every pair. */
  lemma {:induction false} AscendingFromSteps(s: seq<real>, i: nat, j: nat)
    requires forall k :: 0 <= k < |s| - 1 ==> s[k] <= s[k + 1]
    requires i <= j < |s|
    ensures s[i] <= s[j]
    decreases j - i
  {
    if i < j {
      AscendingFromSteps(s, i + 1, j);
    }
  }

  /** The tail of the stored seed: the Google Cloud and Azure reference regions, which are
      not available for launching. */
  lemma SeedReferenceTail(firstId: nat)
    ensures |SeedDocs(firstId)| == 12
    ensures forall i :: LaunchableCount <= i < 12 ==> !SeedDocs(firstId)[i].available
    ensures SeedDocs(firstId)[10].provider == Gcp && SeedDocs(firstId)[10].region == "europe-north1"
    ensures SeedDocs(firstId)[11].provider == Azure && SeedDocs(firstId)[11].region == "norwayeast"
  {
    var docs := SeedDocs(firstId);
    DocRegions(firstId);
    DocProviders(firstId);
    DocIntensities(firstId);
  }

  /** Every seeded AWS region is one the launch route accepts. */
  lemma SeedAwsRegionsSupported(firstId: nat)
    ensures forall r :: r in SeedDocs(firstId) && r.provider == Aws ==> r.region in SupportedRegions
  {
    DocRegions(firstId);
    DocProviders(firstId);
    var docs := SeedDocs(firstId);
    forall r | r in docs && r.provider == Aws ensures r.region in SupportedRegions {
      var i :| 0 <= i < |docs| && docs[i] == r;
      assert SeedProviders[i] == Aws;
      assert i < 10;
      assert SeedRegionNames[..10] == [
        "eu-north-1", "ca-central-1", "us-west-2", "us-west-1", "eu-west-1", "eu-central-1",
        "us-east-1", "ap-southeast-1", "us-east-2", "ap-south-1"];
      assert forall n :: n in SeedRegionNames[..10] ==> n in SupportedRegions;
      assert SeedRegionNames[i] in SeedRegionNames[..10];
    }
  }

  /** Two supported regions, eu-west-2 and sa-east-1, have no seeded catalog entry, so the
      emission estimate for them fails against the seeded catalog. */
  lemma SupportedButNotSeeded(firstId: nat, instanceType: string, hours: real)
    ensures "eu-west-2" in SupportedRegions && "sa-east-1" in SupportedRegions
    ensures CalculateCloudEmissions(SeedDocs(firstId), "aws", "eu-west-2", instanceType, hours).Failure?
    ensures CalculateCloudEmissions(SeedDocs(firstId), "aws", "sa-east-1", instanceType, hours).Failure?
  {
    assert SupportedRegions[5] == "eu-west-2" && SupportedRegions[12] == "sa-east-1";
    DocRegions(firstId);
    var docs := SeedDocs(firstId);
    assert "eu-west-2" !in SeedRegionNames && "sa-east-1" !in SeedRegionNames;
    forall c | c in docs ensures c.region != "eu-west-2" && c.region != "sa-east-1" {
      var i :| 0 <= i < |docs| && docs[i] == c;
      assert c.region in SeedRegionNames;
    }
  }
}
