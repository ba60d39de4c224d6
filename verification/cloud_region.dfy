/** The CloudRegion collection: one document per (provider, region) with its grid carbon
    intensity (gCO2/kWh) and renewable share, validated on insertion and kept unique on
    the (provider, region) pair by a unique index. */
module CloudRegionModel {
  import opened Common

  datatype CloudRegion = CloudRegion(
    id: nat,
    provider: Provider,
    region: string,
    regionName: string,
    country: string,
    carbonIntensity: real,
    renewablePercentage: real,
    instanceTypes: seq<string>,
    zones: seq<string>,
    available: bool)

  /** A region document as handed to the store, before casting and defaults. */
  datatype RegionDraft = RegionDraft(
    provider: string,
    region: string,
    regionName: string,
    country: string,
    carbonIntensity: Option<real>,
    renewablePercentage: Option<real>,
    instanceTypes: seq<string>,
    zones: seq<string>,
    available: Option<bool>)

  /** The schema's bounds: required strings are non-empty, intensity is non-negative and
      the renewable share is a percentage. */
  ghost predicate ValidRegion(r: CloudRegion) {
    && r.region != ""
    && r.regionName != ""
    && r.country != ""
    && r.carbonIntensity >= 0.0
    && 0.0 <= r.renewablePercentage <= 100.0
  }

  predicate SameKey(a: CloudRegion, b: CloudRegion) {
    a.provider == b.provider && a.region == b.region
  }

  /** The unique compound index on (provider, region). */
  predicate UniqueKeys(catalog: seq<CloudRegion>) {
    forall i, j :: 0 <= i < j < |catalog| ==> !SameKey(catalog[i], catalog[j])
  }

  predicate UniqueIds(catalog: seq<CloudRegion>) {
    forall i, j :: 0 <= i < j < |catalog| ==> catalog[i].id != catalog[j].id
  }

  ghost predicate ValidCatalog(catalog: seq<CloudRegion>) {
    && (forall r :: r in catalog ==> ValidRegion(r))
    && UniqueKeys(catalog)
    && UniqueIds(catalog)
  }

  /** True when the draft breaks one of the schema's rules. */
  predicate DraftRejected(d: RegionDraft) {
    || ParseProvider(d.provider).None?
    || d.region == ""
    || d.regionName == ""
    || d.country == ""
    || d.carbonIntensity.None?
    || d.carbonIntensity.value < 0.0
    || d.renewablePercentage.None?
    || d.renewablePercentage.value < 0.0
    || d.renewablePercentage.value > 100.0
  }

  /** Casting, validation and defaults applied to one region document. */
  function CreateRegion(d: RegionDraft, id: nat): (r: Result<CloudRegion, SchemaError>)
    ensures r.Failure? <==> DraftRejected(d)
    ensures r.Success? ==> ValidRegion(r.value) && r.value.id == id
    ensures r.Success? ==>
      && ProviderName(r.value.provider) == d.provider
      && r.value.region == d.region
      && r.value.carbonIntensity == d.carbonIntensity.value
      && r.value.renewablePercentage == d.renewablePercentage.value
      && r.value.available == d.available.GetOr(true)
  {
    var provider := ParseProvider(d.provider);
    if provider.None? then Failure(NotInEnum("provider"))
    else if d.region == "" then Failure(Missing("region"))
    else if d.regionName == "" then Failure(Missing("regionName"))
    else if d.country == "" then Failure(Missing("country"))
    else if d.carbonIntensity.None? then Failure(Missing("carbonIntensity"))
    else if d.carbonIntensity.value < 0.0 then Failure(BelowMinimum("carbonIntensity"))
    else if d.renewablePercentage.None? then Failure(Missing("renewablePercentage"))
    else if d.renewablePercentage.value < 0.0 then Failure(BelowMinimum("renewablePercentage"))
    else if d.renewablePercentage.value > 100.0 then Failure(AboveMaximum("renewablePercentage"))
    else Success(CloudRegion(id, provider.value, d.region, d.regionName, d.country,
                             d.carbonIntensity.value, d.renewablePercentage.value,
                             d.instanceTypes, d.zones, d.available.GetOr(true)))
  }

  /** Creates every draft, numbering the documents from `firstId`; the first rejected draft
      rejects the batch. */
  function CreateAll(drafts: seq<RegionDraft>, firstId: nat): (r: Result<seq<CloudRegion>, SchemaError>)
  {
    if drafts == [] then Success([])
    else
      match CreateRegion(drafts[0], firstId)
      case Failure(e) => Failure(e)
      case Success(first) =>
        match CreateAll(drafts[1..], firstId + 1)
        case Failure(e) => Failure(e)
        case Success(rest) => Success([first] + rest)
  }

  /** A batch is accepted exactly when every draft is, and then holds one document per draft. */
  lemma {:induction false} CreateAllAccepts(drafts: seq<RegionDraft>, firstId: nat)
    ensures CreateAll(drafts, firstId).Success? <==> forall i :: 0 <= i < |drafts| ==> !DraftRejected(drafts[i])
    ensures CreateAll(drafts, firstId).Success? ==> |CreateAll(drafts, firstId).value| == |drafts|
    decreases |drafts|
  {
    if drafts != [] {
      var tail := drafts[1..];
      assert forall i :: 1 <= i < |drafts| ==> drafts[i] == tail[i - 1];
      CreateAllAccepts(tail, firstId + 1);
    }
  }

  /** In an accepted batch, the document at position `i` is created from draft `i` with
      id `firstId + i`. */
  lemma {:induction false} CreateAllAt(drafts: seq<RegionDraft>, firstId: nat, i: nat)
    requires CreateAll(drafts, firstId).Success? && i < |drafts|
    ensures i < |CreateAll(drafts, firstId).value|
    ensures CreateRegion(drafts[i], firstId + i) == Success(CreateAll(drafts, firstId).value[i])
    decreases i
  {
    var head := CreateRegion(drafts[0], firstId);
    var rest := CreateAll(drafts[1..], firstId + 1);
    assert head.Success? && rest.Success?;
    assert CreateAll(drafts, firstId).value == [head.value] + rest.value;
    if i > 0 {
      CreateAllAt(drafts[1..], firstId + 1, i - 1);
      assert drafts[1..][i - 1] == drafts[i];
    }
  }

  datatype InsertError = Invalid(error: SchemaError) | DuplicateKey

  /** `insertMany`: every document is validated, and the batch must not break the unique
      (provider, region) index. */
  function InsertMany(drafts: seq<RegionDraft>, firstId: nat): (r: Result<seq<CloudRegion>, InsertError>)
    ensures r.Success? ==> ValidCatalog(r.value) && |r.value| == |drafts|
    ensures r.Success? ==> forall i :: 0 <= i < |r.value| ==> r.value[i].id == firstId + i
  {
    match CreateAll(drafts, firstId)
    case Failure(e) => Failure(Invalid(e))
    case Success(docs) =>
      CreateAllAccepts(drafts, firstId);
      if UniqueKeys(docs) then
        assert forall r :: r in docs ==> ValidRegion(r) by {
          forall r | r in docs ensures ValidRegion(r) {
            var i :| 0 <= i < |docs| && docs[i] == r;
            CreateAllAt(drafts, firstId, i);
          }
        }
        assert forall i :: 0 <= i < |docs| ==> docs[i].id == firstId + i by {
          forall i | 0 <= i < |docs| ensures docs[i].id == firstId + i {
            CreateAllAt(drafts, firstId, i);
          }
        }
        Success(docs)
      else
        Failure(DuplicateKey)
  }
}
