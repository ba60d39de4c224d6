/** The cloud routes: launching and terminating provider instances on a user's behalf
    and recording them as workloads, the region catalog and its seed, the what-if savings
    calculator, and manual workload submission and listing. The workload and region
    collections are fields of `CloudService`; the provider is reached through the
    `CloudManager` gateway. */
module CloudRoutes {
  import opened Common
  import opened Sorting
  import opened CloudRegionModel
  import opened CloudWorkloadModel
  import opened Estimator
  import opened Gateway
  import opened SeedCatalog

  /** Why a route answers with an error: the 400 validation failures in the order the
      handler checks them, 404 for an unknown id, and 500 for a thrown error (a provider
      failure, a missing catalog entry or a schema rejection at `create`). */
  datatype RouteError =
    | MissingFields
    | UnsupportedProvider
    | MissingRegion
    | UnsupportedRegion
    | UnsupportedInstanceType
    | NotFound
    | ServerError(message: string)
    | Invalid(error: SchemaError)

  // ---------------------------------------------------------------------------
  // Launch.
  // ---------------------------------------------------------------------------

  /** The body of a launch request; "" stands for an absent string field. */
  datatype LaunchRequest = LaunchRequest(
    provider: string,
    region: string,
    instanceType: string,
    workloadType: string,
    estimatedDurationHours: Option<real>)

  /** A number is truthy when present and non-zero. */
  predicate Truthy(x: Option<real>) {
    x.Some? && x.value != 0.0
  }

  predicate MissingLaunchFields(req: LaunchRequest) {
    req.provider == "" || req.workloadType == "" || !Truthy(req.estimatedDurationHours)
  }

  /** The instance type to launch: the requested one, or t2.micro when omitted. */
  function FinalType(req: LaunchRequest): string {
    if req.instanceType == "" then "t2.micro" else req.instanceType
  }

  /** The launch handler's checks, in order; on success, the instance type to launch. */
  function ValidateLaunch(req: LaunchRequest): (r: Result<string, RouteError>)
    ensures MissingLaunchFields(req) ==> r == Failure(MissingFields)
    ensures !MissingLaunchFields(req) && req.provider != "aws" ==> r == Failure(UnsupportedProvider)
    ensures !MissingLaunchFields(req) && req.provider == "aws" && req.region == "" ==> r == Failure(MissingRegion)
    ensures (!MissingLaunchFields(req) && req.provider == "aws" && req.region != ""
             && req.region !in SupportedRegions) ==> r == Failure(UnsupportedRegion)
    ensures (!MissingLaunchFields(req) && req.provider == "aws" && req.region in SupportedRegions
             && FinalType(req) !in SupportedInstanceTypes) ==> r == Failure(UnsupportedInstanceType)
    ensures r.Success? <==>
      && !MissingLaunchFields(req)
      && req.provider == "aws"
      && req.region in SupportedRegions
      && FinalType(req) in SupportedInstanceTypes
    ensures r.Success? ==> r.value == FinalType(req) && req.estimatedDurationHours.Some?
  {
    if MissingLaunchFields(req) then Failure(MissingFields)
    else if req.provider != "aws" then Failure(UnsupportedProvider)
    else if req.region == "" then Failure(MissingRegion)
    else if req.region !in SupportedRegions then Failure(UnsupportedRegion)
    else if FinalType(req) !in SupportedInstanceTypes then Failure(UnsupportedInstanceType)
    else Success(FinalType(req))
  }

  /** The workload document a launch creates from the estimate: a local source, the
      local-grid emissions of the same energy, the signed savings, the cost, status
      running, and the estimate's figures as metadata. */
  function LaunchDraft(user: UserId, req: LaunchRequest, instanceType: string, instanceId: InstanceId,
                       est: EmissionEstimate, cost: real, launchTime: int): WorkloadDraft
  {
    var local := LocalEmissions(est.energyKWh);
    WorkloadDraft(
      user, req.workloadType, Some("local"), req.region, req.provider,
      Some(instanceId), Some(instanceType),
      Some(local), Some(est.emissionsGCO2), Some(local - est.emissionsGCO2), Some(cost),
      Some(CloudWorkloadModel.Running),
      MetadataDraft(Some(est.energyKWh), req.estimatedDurationHours, Some(est.power),
                    Some(est.carbonIntensity), Some(est.renewablePercentage), Some(launchTime), None))
  }

  /** What follows a successful provider launch: the emission estimate against the
      catalog (a missing entry throws), the cost estimate and the record's creation. */
  function LaunchRecord(catalog: seq<CloudRegion>, user: UserId, req: LaunchRequest, instanceType: string,
                        instanceId: InstanceId, launchTime: int, id: nat, now: int): (r: Result<CloudWorkload, RouteError>)
    requires req.estimatedDurationHours.Some?
    ensures CalculateCloudEmissions(catalog, req.provider, req.region, instanceType,
                                    req.estimatedDurationHours.value).Failure? ==>
      r == Failure(ServerError("Region data not found for " + req.provider + ":" + req.region))
    ensures r.Success? ==>
      && r.value.id == id && r.value.user == user && r.value.startTime == now
      && r.value.status == CloudWorkloadModel.Running
      && r.value.sourceRegion == "local" && r.value.targetCloudRegion == req.region
      && r.value.instanceId == Some(instanceId) && r.value.instanceType == Some(instanceType)
      && r.value.savingsGCO2 == r.value.estimatedLocalEmissions - r.value.estimatedCloudEmissions
      && r.value.metadata.launchTime == Some(launchTime)
      && ValidWorkload(r.value)
    ensures var hours := req.estimatedDurationHours.value;
      var outcome := CalculateCloudEmissions(catalog, req.provider, req.region, instanceType, hours);
      outcome.Success? ==>
        var d := LaunchDraft(user, req, instanceType, instanceId, outcome.value,
                             EstimateCost(req.provider, instanceType, hours), launchTime);
        && (r.Success? <==> !CloudWorkloadModel.DraftRejected(d))
        && (r.Failure? ==> r == Failure(RouteError.Invalid(CreateWorkload(d, id, now).error)))
  {
    var hours := req.estimatedDurationHours.value;
    match CalculateCloudEmissions(catalog, req.provider, req.region, instanceType, hours)
    case Failure(m) => Failure(ServerError(m))
    case Success(est) =>
      var cost := EstimateCost(req.provider, instanceType, hours);
      match CreateWorkload(LaunchDraft(user, req, instanceType, instanceId, est, cost, launchTime), id, now)
      case Failure(e) => Failure(RouteError.Invalid(e))
      case Success(w) => Success(w)
  }

  /** The record created from an estimate carries the estimate's figures. */
  lemma LaunchDraftFigures(user: UserId, req: LaunchRequest, instanceType: string, instanceId: InstanceId,
                           est: EmissionEstimate, cost: real, launchTime: int, id: nat, now: int)
    requires CreateWorkload(LaunchDraft(user, req, instanceType, instanceId, est, cost, launchTime), id, now).Success?
    ensures var w := CreateWorkload(LaunchDraft(user, req, instanceType, instanceId, est, cost, launchTime), id, now).value;
      && w.metadata.energyKWh == Some(est.energyKWh)
      && w.metadata.carbonIntensity == Some(est.carbonIntensity)
      && w.metadata.power == Some(est.power)
      && w.estimatedLocalEmissions == LocalEmissions(est.energyKWh)
      && w.estimatedCloudEmissions == est.emissionsGCO2
      && w.estimatedCost == cost
  {
    var d := LaunchDraft(user, req, instanceType, instanceId, est, cost, launchTime);
    var w := CreateWorkload(d, id, now).value;
    assert w.metadata == MetadataWithDefaults(d.metadata);
  }

  /** A launched record carries the estimate at the catalog entry: its energy and
      intensity, the local emissions of that energy at 500 g/kWh, the estimate's emissions
      as its cloud emissions, local minus cloud as its savings, and the cost estimate. */
  lemma LaunchRecordFigures(catalog: seq<CloudRegion>, user: UserId, req: LaunchRequest, instanceType: string,
                            instanceId: InstanceId, launchTime: int, id: nat, now: int)
    requires req.estimatedDurationHours.Some?
    requires LaunchRecord(catalog, user, req, instanceType, instanceId, launchTime, id, now).Success?
    ensures CalculateCloudEmissions(catalog, req.provider, req.region, instanceType, req.estimatedDurationHours.value).Success?
    ensures var w := LaunchRecord(catalog, user, req, instanceType, instanceId, launchTime, id, now).value;
      var est := CalculateCloudEmissions(catalog, req.provider, req.region, instanceType, req.estimatedDurationHours.value).value;
      && w.metadata.energyKWh == Some(est.energyKWh)
      && w.metadata.carbonIntensity == Some(est.carbonIntensity)
      && w.metadata.power == Some(est.power)
      && w.estimatedLocalEmissions == LocalEmissions(est.energyKWh)
      && w.estimatedCloudEmissions == est.emissionsGCO2
      && w.savingsGCO2 == LocalEmissions(est.energyKWh) - est.emissionsGCO2
      && w.estimatedCost == EstimateCost(req.provider, instanceType, req.estimatedDurationHours.value)
  {
    var hours := req.estimatedDurationHours.value;
    var est := CalculateCloudEmissions(catalog, req.provider, req.region, instanceType, hours).value;
    var cost := EstimateCost(req.provider, instanceType, hours);
    LaunchDraftFigures(user, req, instanceType, instanceId, est, cost, launchTime, id, now);
  }


  /** A negative duration passes every check of the handler, and the provider launch
      happens, but the local emissions come out negative and the schema rejects the
      record: the instance is left running with no workload describing it. */
  lemma NegativeDurationRejectedAfterLaunch(catalog: seq<CloudRegion>, user: UserId, req: LaunchRequest,
                                            instanceId: InstanceId, launchTime: int, id: nat, now: int)
    requires ValidateLaunch(req).Success?
    requires user != "" && ParseWorkloadType(req.workloadType).Some?
    requires CalculateCloudEmissions(catalog, "aws", req.region, FinalType(req), req.estimatedDurationHours.value).Success?
    requires req.estimatedDurationHours.value < 0.0
    ensures LaunchRecord(catalog, user, req, FinalType(req), instanceId, launchTime, id, now)
         == Failure(RouteError.Invalid(BelowMinimum("estimatedLocalEmissions")))
  {
    var hours := req.estimatedDurationHours.value;
    var est := CalculateCloudEmissions(catalog, req.provider, req.region, FinalType(req), hours).value;
    assert est.energyKWh < 0.0 by {
      assert est.energyKWh == PowerWatts(FinalType(req)) * hours / 1000.0;
    }
    assert LocalEmissions(est.energyKWh) < 0.0;
  }

  /** The workload type is only checked for presence before the launch; a name outside the
      enumeration is rejected by the schema after the instance exists. */
  lemma UnknownWorkloadTypeRejectedAfterLaunch(catalog: seq<CloudRegion>, user: UserId, req: LaunchRequest,
                                               instanceId: InstanceId, launchTime: int, id: nat, now: int)
    requires ValidateLaunch(req).Success?
    requires user != "" && ParseWorkloadType(req.workloadType).None?
    requires CalculateCloudEmissions(catalog, "aws", req.region, FinalType(req), req.estimatedDurationHours.value).Success?
    ensures LaunchRecord(catalog, user, req, FinalType(req), instanceId, launchTime, id, now)
         == Failure(RouteError.Invalid(NotInEnum("workloadType")))
  {
  }

  // ---------------------------------------------------------------------------
  // Terminate.
  // ---------------------------------------------------------------------------

  /** The body of a terminate request; absent ids are None. */
  datatype TerminateRequest = TerminateRequest(
    provider: string,
    region: string,
    instanceId: Option<InstanceId>,
    workloadId: Option<nat>)

  /** The update a terminate applies: completed now, with the elapsed whole seconds. */
  function CompleteRecord(w: CloudWorkload, now: int): CloudWorkload {
    w.(status := CloudWorkloadModel.Completed, endTime := Some(now), duration := Some((now - w.startTime) / 1000))
  }

  /** `findByIdAndUpdate`: the record with that id, whoever owns it, is completed. */
  function CompleteById(ws: seq<CloudWorkload>, id: Option<nat>, now: int): (r: seq<CloudWorkload>)
    ensures |r| == |ws|
    ensures forall k :: 0 <= k < |ws| ==> r[k].id == ws[k].id && r[k].user == ws[k].user
    ensures forall k :: 0 <= k < |ws| && (id.None? || ws[k].id != id.value) ==> r[k] == ws[k]
    ensures forall k :: 0 <= k < |ws| && id.Some? && ws[k].id == id.value ==>
      && r[k].status == CloudWorkloadModel.Completed
      && r[k].endTime == Some(now)
      && r[k].duration == Some((now - ws[k].startTime) / 1000)
      && r[k] == ws[k].(status := CloudWorkloadModel.Completed, endTime := Some(now),
                        duration := Some((now - ws[k].startTime) / 1000))
  {
    seq(|ws|, k requires 0 <= k < |ws| => if id.Some? && ws[k].id == id.value then CompleteRecord(ws[k], now) else ws[k])
  }

  /** With distinct ids, completing by the id of entry `k` completes that entry alone. */
  lemma CompleteAt(ws: seq<CloudWorkload>, k: nat, now: int)
    requires k < |ws|
    requires forall i, j :: 0 <= i < j < |ws| ==> ws[i].id != ws[j].id
    ensures ws[k := CompleteRecord(ws[k], now)] == CompleteById(ws, Some(ws[k].id), now)
  {
    var updated := ws[k := CompleteRecord(ws[k], now)];
    var byId := CompleteById(ws, Some(ws[k].id), now);
    forall m | 0 <= m < |ws| ensures updated[m] == byId[m] {
      if m < k {
        assert ws[m].id != ws[k].id;
      } else if m > k {
        assert ws[k].id != ws[m].id;
      }
    }
  }

  /** Completing by an id no entry has changes nothing. */
  lemma CompleteNone(ws: seq<CloudWorkload>, id: nat, now: int)
    requires forall k :: 0 <= k < |ws| ==> ws[k].id != id
    ensures CompleteById(ws, Some(id), now) == ws
  {
  }

  // ---------------------------------------------------------------------------
  // Regions and savings.
  // ---------------------------------------------------------------------------

  /** The region query: available, and of the provider (lower-cased) when one is given. */
  predicate RegionSelected(r: CloudRegion, provider: string) {
    r.available && (provider != "" ==> ProviderName(r.provider) == Lower(provider))
  }

  function Intensity(r: CloudRegion): real {
    r.carbonIntensity
  }

  /** The selected regions sorted by intensity, greenest first. */
  function GreenestFirst(rs: seq<CloudRegion>, provider: string): (sorted: seq<CloudRegion>)
    ensures |sorted| == Count(rs, (r: CloudRegion) => RegionSelected(r, provider))
    ensures forall r :: r in sorted <==> r in rs && RegionSelected(r, provider)
  {
    var keep := (r: CloudRegion) => RegionSelected(r, provider);
    var matching := Filter(rs, keep);
    assert forall r :: r in SortBy(matching, Intensity) <==> r in rs && RegionSelected(r, provider) by {
      forall r ensures r in SortBy(matching, Intensity) <==> r in rs && RegionSelected(r, provider) {
        SortByMembers(matching, Intensity, r);
        FilterMembers(rs, keep, r);
      }
    }
    SortBy(matching, Intensity)
  }

  /** The sorted regions rise in intensity, so the first is at most any selected one. */
  lemma GreenestFirstOrdered(rs: seq<CloudRegion>, provider: string)
    ensures var sorted := GreenestFirst(rs, provider);
      && (forall i, j :: 0 <= i < j < |sorted| ==> sorted[i].carbonIntensity <= sorted[j].carbonIntensity)
      && (sorted != [] ==> forall r :: r in rs && RegionSelected(r, provider) ==> sorted[0].carbonIntensity <= r.carbonIntensity)
  {
    var sorted := GreenestFirst(rs, provider);
    assert SortedBy(sorted, Intensity);
    forall i, j | 0 <= i < j < |sorted| ensures sorted[i].carbonIntensity <= sorted[j].carbonIntensity {
      assert Intensity(sorted[i]) <= Intensity(sorted[j]);
    }
    if sorted != [] {
      FirstIsLeast(sorted, Intensity);
      forall r | r in rs && RegionSelected(r, provider) ensures sorted[0].carbonIntensity <= r.carbonIntensity {
        assert r in sorted;
        assert Intensity(sorted[0]) <= Intensity(r);
      }
    }
  }

  datatype RegionListing = RegionListing(regions: seq<CloudRegion>, recommendation: Option<CloudRegion>, count: nat)

  /** The body of a savings request; the target region is a catalog id. */
  datatype SavingsRequest = SavingsRequest(
    estimatedPowerWatts: real,
    estimatedDurationHours: real,
    targetRegion: nat)

  // ---------------------------------------------------------------------------
  // Manual submission and listing.
  // ---------------------------------------------------------------------------

  /** The body of a manual submission; "" stands for an absent string field. */
  datatype SubmitRequest = SubmitRequest(
    workloadType: string,
    targetCloudRegion: string,
    cloudProvider: string,
    estimatedLocalEmissions: Option<real>,
    estimatedCloudEmissions: Option<real>,
    metadata: Option<MetadataDraft>)

  /** The strings must be truthy; the two emissions only have to be present (0 is fine). */
  predicate MissingSubmitFields(req: SubmitRequest) {
    || req.workloadType == ""
    || req.targetCloudRegion == ""
    || req.cloudProvider == ""
    || req.estimatedLocalEmissions.None?
    || req.estimatedCloudEmissions.None?
  }

  /** The outcome of a manual submission: the missing-fields check, then `create` with
      the signed savings and status pending. */
  function SubmitOutcome(user: UserId, req: SubmitRequest, id: nat, now: int): (r: Result<CloudWorkload, RouteError>)
    ensures MissingSubmitFields(req) ==> r == Failure(MissingFields)
    ensures r.Success? <==>
      && !MissingSubmitFields(req)
      && user != ""
      && ParseWorkloadType(req.workloadType).Some?
      && ParseProvider(req.cloudProvider).Some?
      && req.estimatedLocalEmissions.value >= 0.0
      && req.estimatedCloudEmissions.value >= 0.0
    ensures r.Success? ==>
      && r.value.id == id && r.value.user == user && r.value.startTime == now
      && r.value.status == CloudWorkloadModel.Pending
      && r.value.estimatedLocalEmissions == req.estimatedLocalEmissions.value
      && r.value.estimatedCloudEmissions == req.estimatedCloudEmissions.value
      && r.value.savingsGCO2 == r.value.estimatedLocalEmissions - r.value.estimatedCloudEmissions
      && r.value.estimatedCost == 0.0
      && r.value.metadata == MetadataWithDefaults(req.metadata.GetOr(EmptyMetadata))
      && ValidWorkload(r.value)
  {
    if MissingSubmitFields(req) then Failure(MissingFields)
    else
      var local := req.estimatedLocalEmissions.value;
      var cloud := req.estimatedCloudEmissions.value;
      var d := WorkloadDraft(user, req.workloadType, None, req.targetCloudRegion, req.cloudProvider,
                             None, None, Some(local), Some(cloud), Some(local - cloud), None,
                             Some(CloudWorkloadModel.Pending), req.metadata.GetOr(EmptyMetadata));
      match CreateWorkload(d, id, now)
      case Failure(e) => Failure(RouteError.Invalid(e))
      case Success(w) => Success(w)
  }

  /** Savings are signed: a cloud estimate above the local one is accepted and recorded
      as negative savings. */
  lemma SubmitRecordsNegativeSavings(user: UserId, req: SubmitRequest, id: nat, now: int)
    requires SubmitOutcome(user, req, id, now).Success?
    requires req.estimatedCloudEmissions.value > req.estimatedLocalEmissions.value
    ensures SubmitOutcome(user, req, id, now).value.savingsGCO2 < 0.0
  {
  }

  predicate WorkloadSelected(w: CloudWorkload, user: UserId, status: string, provider: string) {
    && w.user == user
    && (status != "" ==> StatusName(w.status) == status)
    && (provider != "" ==> ProviderName(w.cloudProvider) == provider)
  }

  /** Newest first: the descending sort on the start time. */
  function NewestStartFirst(w: CloudWorkload): real {
    -(w.startTime as real)
  }

  /** The listing's selection as a predicate value. */
  function SelectedOf(user: UserId, status: string, provider: string): CloudWorkload -> bool {
    (w: CloudWorkload) => WorkloadSelected(w, user, status, provider)
  }

  /** The requester's selected records, newest first, cut to the first `n` (all when 0):
      `n` of them when more are selected, every one of them otherwise. */
  function NewestSelected(ws: seq<CloudWorkload>, user: UserId, status: string, provider: string, n: nat)
    : (page: seq<CloudWorkload>)
    ensures forall k :: 0 <= k < |page| ==> page[k] in ws && WorkloadSelected(page[k], user, status, provider)
    ensures var selected := Count(ws, SelectedOf(user, status, provider));
      |page| == if n == 0 || selected <= n then selected else n
    ensures n == 0 || Count(ws, SelectedOf(user, status, provider)) <= n ==>
      forall w :: w in ws && WorkloadSelected(w, user, status, provider) ==> w in page
  {
    var keep := SelectedOf(user, status, provider);
    SortedPage(ws, keep, NewestStartFirst, n);
    SortedPageSize(ws, keep, NewestStartFirst, n);
    Take(SortBy(Filter(ws, keep), NewestStartFirst), n)
  }

  /** The page is ordered newest first. */
  lemma NewestSelectedOrdered(ws: seq<CloudWorkload>, user: UserId, status: string, provider: string, n: nat)
    ensures var page := NewestSelected(ws, user, status, provider, n);
      forall i, j :: 0 <= i < j < |page| ==> page[i].startTime >= page[j].startTime
  {
    var page := NewestSelected(ws, user, status, provider, n);
    SortedPage(ws, SelectedOf(user, status, provider), NewestStartFirst, n);
    forall i, j | 0 <= i < j < |page| ensures page[i].startTime >= page[j].startTime {
      assert NewestStartFirst(page[i]) <= NewestStartFirst(page[j]);
    }
  }

  /** The page holds no record more often than the selected records do. */
  lemma NewestSelectedNoRepeats(ws: seq<CloudWorkload>, user: UserId, status: string, provider: string, n: nat)
    ensures multiset(NewestSelected(ws, user, status, provider, n)) <= multiset(Filter(ws, SelectedOf(user, status, provider)))
  {
    SortedPageSize(ws, SelectedOf(user, status, provider), NewestStartFirst, n);
  }

  /** Every selected record left off the page started no later than any record on it:
      when the cut bites, the page is the `n` most recently started selected records. */
  lemma NewestSelectedTop(ws: seq<CloudWorkload>, user: UserId, status: string, provider: string, n: nat)
    ensures var page := NewestSelected(ws, user, status, provider, n);
      forall w, k :: w in ws && WorkloadSelected(w, user, status, provider) && w !in page && 0 <= k < |page| ==>
        page[k].startTime >= w.startTime
  {
    var keep := SelectedOf(user, status, provider);
    var page := NewestSelected(ws, user, status, provider, n);
    assert page == Take(SortBy(Filter(ws, keep), NewestStartFirst), n);
    SortedPageTop(ws, keep, NewestStartFirst, n);
    forall w, k | w in ws && WorkloadSelected(w, user, status, provider) && w !in page && 0 <= k < |page|
      ensures page[k].startTime >= w.startTime
    {
      assert keep(w);
      assert NewestStartFirst(page[k]) <= NewestStartFirst(w);
    }
  }

  datatype WorkloadStats = WorkloadStats(
    totalWorkloads: nat,
    totalSavings: real,
    totalCost: real,
    pending: nat,
    running: nat,
    completed: nat,
    failed: nat,
    aws: nat,
    gcp: nat,
    azure: nat)

  function WorkloadSavings(w: CloudWorkload): real { w.savingsGCO2 }
  function WorkloadLocal(w: CloudWorkload): real { w.estimatedLocalEmissions }
  function WorkloadCloud(w: CloudWorkload): real { w.estimatedCloudEmissions }
  function WorkloadCost(w: CloudWorkload): real { w.estimatedCost }

  /** The statistics of a listed page: its size, its summed savings and cost, one count
      per listed status, the AWS count, and zero for the other two providers whatever the
      page holds. */
  function WorkloadStatsOf(ws: seq<CloudWorkload>): (s: WorkloadStats)
    ensures s.totalWorkloads == |ws|
    ensures s.totalSavings == Sum(ws, WorkloadSavings) && s.totalCost == Sum(ws, WorkloadCost)
    ensures s.pending == StatusCount(ws, CloudWorkloadModel.Pending)
    ensures s.running == StatusCount(ws, CloudWorkloadModel.Running)
    ensures s.completed == StatusCount(ws, CloudWorkloadModel.Completed)
    ensures s.failed == StatusCount(ws, CloudWorkloadModel.Failed)
    ensures s.aws == ProviderCount(ws, Aws)
    ensures s.gcp == 0 && s.azure == 0
    ensures s.pending + s.running + s.completed + s.failed <= s.totalWorkloads
    ensures s.aws <= s.totalWorkloads
  {
    StatusCountsBounded(ws);
    WorkloadStats(
      |ws|,
      Sum(ws, WorkloadSavings),
      Sum(ws, WorkloadCost),
      StatusCount(ws, CloudWorkloadModel.Pending),
      StatusCount(ws, CloudWorkloadModel.Running),
      StatusCount(ws, CloudWorkloadModel.Completed),
      StatusCount(ws, CloudWorkloadModel.Failed),
      ProviderCount(ws, Aws),
      0, 0)
  }

  /** A record has one status, so the four status counts never exceed the page size. */
  lemma {:induction false} StatusCountsBounded(ws: seq<CloudWorkload>)
    ensures StatusCount(ws, CloudWorkloadModel.Pending) + StatusCount(ws, CloudWorkloadModel.Running)
          + StatusCount(ws, CloudWorkloadModel.Completed) + StatusCount(ws, CloudWorkloadModel.Failed) <= |ws|
  {
    if ws != [] {
      StatusCountsBounded(ws[1..]);
    }
  }

  /** On a page where every record has status `s`, its count is the page size. */
  lemma CountOfUniformStatus(ws: seq<CloudWorkload>, s: Status)
    requires forall k :: 0 <= k < |ws| ==> ws[k].status == s
    ensures StatusCount(ws, s) == |ws|
  {
    FilterAll(ws, (w: CloudWorkload) => HasStatus(w, s));
  }

  /** On a page where no record has status `s`, its count is zero. */
  lemma CountOfAbsentStatus(ws: seq<CloudWorkload>, s: Status)
    requires forall k :: 0 <= k < |ws| ==> ws[k].status != s
    ensures StatusCount(ws, s) == 0
  {
    FilterNone(ws, (w: CloudWorkload) => HasStatus(w, s));
  }

  /** When every listed record keeps savings = local - cloud, the page's total savings
      are its total local emissions minus its total cloud emissions. */
  lemma TotalSavingsSplit(ws: seq<CloudWorkload>)
    requires forall w :: w in ws ==> w.savingsGCO2 == w.estimatedLocalEmissions - w.estimatedCloudEmissions
    ensures WorkloadStatsOf(ws).totalSavings == Sum(ws, WorkloadLocal) - Sum(ws, WorkloadCloud)
  {
    SumDifference(ws, WorkloadLocal, WorkloadCloud, WorkloadSavings);
  }

  datatype WorkloadListing = WorkloadListing(workloads: seq<CloudWorkload>, stats: WorkloadStats)

  /** What the seed route reports. */
  datatype SeedReport = SeedReport(
    count: nat,
    awsRegions: nat,
    referenceRegions: nat,
    greenestRegion: Option<CloudRegion>)

  predicate LaunchableAws(r: CloudRegion) { r.provider == Aws && r.available }
  predicate Unavailable(r: CloudRegion) { !r.available }

  /** A stored workload as the routes maintain it: the schema's bounds except the
      duration's minimum (an update by id runs no validators), savings equal to local minus
      cloud, a duration only beside an end time and equal to the whole seconds elapsed
      since the start, and any instance it names was launched through the gateway. */
  ghost predicate Consistent(w: CloudWorkload, launched: nat) {
    && ValidFigures(w)
    && w.savingsGCO2 == w.estimatedLocalEmissions - w.estimatedCloudEmissions
    && (w.duration.Some? ==> w.endTime.Some? && w.duration.value == (w.endTime.value - w.startTime) / 1000)
    && (w.instanceId.Some? ==> w.instanceId.value < launched)
  }

  /** Whole seconds elapsed are negative exactly when the end precedes the start. */
  lemma ElapsedNonNegative(start: int, end: int)
    ensures (end - start) / 1000 >= 0 <==> start <= end
  {
    if end < start {
      assert (end - start) / 1000 * 1000 <= end - start < 0;
    }
  }

  /** A consistent record meets every schema bound exactly when it did not end before it
      started. */
  lemma ConsistentValid(w: CloudWorkload, launched: nat)
    requires Consistent(w, launched)
    ensures ValidWorkload(w) <==> (w.duration.Some? ==> w.startTime <= w.endTime.value)
  {
    if w.duration.Some? {
      ElapsedNonNegative(w.startTime, w.endTime.value);
    }
  }

  /** Consistency survives further launches. */
  lemma ConsistentLater(w: CloudWorkload, launched: nat, launched': nat)
    requires Consistent(w, launched) && launched <= launched'
    ensures Consistent(w, launched')
  {
  }

  /** A launch record for an instance the provider already holds is consistent. */
  lemma LaunchRecordConsistent(catalog: seq<CloudRegion>, user: UserId, req: LaunchRequest, instanceType: string,
                               instanceId: InstanceId, launchTime: int, id: nat, now: int, launched: nat)
    requires req.estimatedDurationHours.Some? && instanceId < launched
    requires LaunchRecord(catalog, user, req, instanceType, instanceId, launchTime, id, now).Success?
    ensures var w := LaunchRecord(catalog, user, req, instanceType, instanceId, launchTime, id, now).value;
      w.id == id && w.startTime == now && Consistent(w, launched) && ValidWorkload(w)
  {
  }

  /** Appending a consistent record under the next id keeps the stored records consistent,
      their ids below the counter and distinct. */
  lemma AppendRecord(ws: seq<CloudWorkload>, w: CloudWorkload, launched: nat, nextId: nat)
    requires forall k :: 0 <= k < |ws| ==> Consistent(ws[k], launched)
    requires forall k :: 0 <= k < |ws| ==> ws[k].id < nextId
    requires forall i, j :: 0 <= i < j < |ws| ==> ws[i].id != ws[j].id
    requires Consistent(w, launched) && w.id == nextId
    ensures var all := ws + [w];
      && (forall k :: 0 <= k < |all| ==> Consistent(all[k], launched))
      && (forall k :: 0 <= k < |all| ==> all[k].id < nextId + 1)
      && (forall i, j :: 0 <= i < j < |all| ==> all[i].id != all[j].id)
  {
    var all := ws + [w];
    forall k | 0 <= k < |all| ensures Consistent(all[k], launched) {
      if k < |ws| {
        assert all[k] == ws[k];
      }
    }
  }

  /** Completing a record keeps it consistent; the completed record meets the schema's
      duration minimum exactly when `now` is not before its start, and otherwise stores a
      negative duration. */
  lemma CompletedConsistent(w: CloudWorkload, launched: nat, now: int)
    requires Consistent(w, launched)
    ensures Consistent(CompleteRecord(w, now), launched)
    ensures ValidWorkload(CompleteRecord(w, now)) <==> w.startTime <= now
    ensures CompleteRecord(w, now).duration.value < 0 <==> now < w.startTime
  {
    ElapsedNonNegative(w.startTime, now);
  }

  class CloudService {
    var workloads: seq<CloudWorkload>
    var regions: seq<CloudRegion>
    var nextWorkloadId: nat
    var nextRegionId: nat
    const manager: CloudManager

    ghost predicate Valid()
      reads this, manager, manager.ec2
    {
      && manager.Valid()
      && (forall k :: 0 <= k < |workloads| ==> Consistent(workloads[k], |manager.ec2.instances|))
      && (forall k :: 0 <= k < |workloads| ==> workloads[k].id < nextWorkloadId)
      && (forall i, j :: 0 <= i < j < |workloads| ==> workloads[i].id != workloads[j].id)
      && ValidCatalog(regions)
      && (forall k :: 0 <= k < |regions| ==> regions[k].id < nextRegionId)
    }

    constructor(gateway: CloudManager)
      requires gateway.Valid()
      ensures Valid()
      ensures manager == gateway
      ensures workloads == [] && regions == [] && nextWorkloadId == 0 && nextRegionId == 0
    {
      manager := gateway;
      workloads := [];
      regions := [];
      nextWorkloadId := 0;
      nextRegionId := 0;
    }

    /** `POST /launch-instance`: the checks, then the provider launch, then the record.
        Once the provider has launched, a missing catalog entry or a schema rejection
        still fails the request, and the new instance stays launched with no record. */
    method LaunchInstance(user: UserId, req: LaunchRequest, now: int, createdAt: string, fault: Option<string>)
      returns (r: Result<CloudWorkload, RouteError>)
      requires Valid()
      modifies this, manager.ec2
      ensures Valid()
      ensures regions == old(regions) && nextRegionId == old(nextRegionId)
      ensures ValidateLaunch(req).Failure? ==>
        r == Failure(ValidateLaunch(req).error) && manager.ec2.instances == old(manager.ec2.instances)
      ensures ValidateLaunch(req).Success? && !(manager.isEnabled && fault.None?) ==>
        r.Failure? && r.error.ServerError? && manager.ec2.instances == old(manager.ec2.instances)
      ensures ValidateLaunch(req).Success? && manager.isEnabled && fault.None? ==>
        var id := |old(manager.ec2.instances)|;
        && |manager.ec2.instances| == id + 1
        && manager.ec2.instances[id].instanceType == FinalType(req)
        && manager.ec2.instances[id].region == req.region
        && Listed(manager.ec2.instances[id], req.region)
        && manager.ec2.instances == old(manager.ec2.instances)
             + [Instance(id, req.region, AmiForRegion(req.region), FinalType(req), InstanceState.Pending,
                         LaunchTags([Tag("workloadType", req.workloadType), Tag("userId", user)], createdAt), now)]
        && r == LaunchRecord(old(regions), user, req, FinalType(req), id, now, old(nextWorkloadId), now)
      ensures r.Success? ==> workloads == old(workloads) + [r.value] && nextWorkloadId == old(nextWorkloadId) + 1
      ensures r.Failure? ==> workloads == old(workloads) && nextWorkloadId == old(nextWorkloadId)
    {
      var v := ValidateLaunch(req);
      if v.Failure? {
        return Failure(v.error);
      }
      var instanceType := v.value;
      var tags := [Tag("workloadType", req.workloadType), Tag("userId", user)];
      ghost var launchedBefore := |manager.ec2.instances|;
      var launched := manager.LaunchAwsInstance(req.region, Some(instanceType), tags, now, createdAt, fault);
      if launched.Failure? {
        return Failure(ServerError(launched.error));
      }
      var id := launched.value.instanceId;
      LaunchedInstanceIsListed(id, req.region, instanceType, tags, createdAt, now);
      forall k | 0 <= k < |workloads| ensures Consistent(workloads[k], |manager.ec2.instances|) {
        ConsistentLater(workloads[k], launchedBefore, |manager.ec2.instances|);
      }
      r := RecordLaunch(user, req, instanceType, id, launched.value.launchTime, now);
    }

    /** The part of a launch that follows the provider call: the estimate, then the record,
        which is stored when the schema accepts it. */
    method RecordLaunch(user: UserId, req: LaunchRequest, instanceType: string, id: InstanceId,
                        launchTime: int, now: int)
      returns (r: Result<CloudWorkload, RouteError>)
      requires Valid()
      requires req.estimatedDurationHours.Some? && id < |manager.ec2.instances|
      modifies this
      ensures Valid()
      ensures regions == old(regions) && nextRegionId == old(nextRegionId)
      ensures r == LaunchRecord(old(regions), user, req, instanceType, id, launchTime, old(nextWorkloadId), now)
      ensures r.Success? ==> workloads == old(workloads) + [r.value] && nextWorkloadId == old(nextWorkloadId) + 1
      ensures r.Failure? ==> workloads == old(workloads) && nextWorkloadId == old(nextWorkloadId)
    {
      r := LaunchRecord(regions, user, req, instanceType, id, launchTime, nextWorkloadId, now);
      if r.Success? {
        LaunchRecordConsistent(regions, user, req, instanceType, id, launchTime, nextWorkloadId, now,
                               |manager.ec2.instances|);
        AppendWorkload(r.value);
      }
    }

    /** `save()` of a new record: stored under the next id. */
    method AppendWorkload(w: CloudWorkload)
      requires Valid()
      requires Consistent(w, |manager.ec2.instances|) && w.id == nextWorkloadId
      modifies this
      ensures Valid()
      ensures regions == old(regions) && nextRegionId == old(nextRegionId)
      ensures workloads == old(workloads) + [w] && nextWorkloadId == old(nextWorkloadId) + 1
    {
      AppendRecord(workloads, w, |manager.ec2.instances|, nextWorkloadId);
      workloads := workloads + [w];
      nextWorkloadId := nextWorkloadId + 1;
    }

    /** The position of the record with that id, whoever owns it. */
    method FindWorkloadIndex(id: nat) returns (found: Option<nat>)
      ensures found.None? <==> forall k :: 0 <= k < |workloads| ==> workloads[k].id != id
      ensures found.Some? ==> found.value < |workloads| && workloads[found.value].id == id
    {
      var k := 0;
      while k < |workloads|
        invariant 0 <= k <= |workloads|
        invariant forall m :: 0 <= m < k ==> workloads[m].id != id
      {
        if workloads[k].id == id {
          return Some(k);
        }
        k := k + 1;
      }
      return None;
    }

    /** `POST /terminate-instance`: the checks, the provider call, then, when a workload id
        is given and found, that record is completed. The record is looked up by id alone,
        so the caller need not own it, and a record already in a final state is completed
        again. */
    method TerminateInstance(req: TerminateRequest, now: int, fault: Option<string>)
      returns (r: Result<TerminateResult, RouteError>)
      requires Valid()
      modifies this, manager.ec2
      ensures Valid()
      ensures regions == old(regions) && nextRegionId == old(nextRegionId) && nextWorkloadId == old(nextWorkloadId)
      ensures req.provider == "" || req.instanceId.None? ==> r == Failure(MissingFields)
      ensures req.provider != "" && req.instanceId.Some? && req.provider != "aws" ==> r == Failure(UnsupportedProvider)
      ensures req.provider != "aws" || req.instanceId.None? ==> manager.ec2.instances == old(manager.ec2.instances)
      ensures req.provider == "aws" && req.instanceId.Some? ==>
        (r.Success? <==> manager.isEnabled && fault.None?
                         && old(manager.ec2.Lookup(req.instanceId.value, manager.EffectiveRegion(req.region))).Some?)
      ensures r.Failure? ==> workloads == old(workloads) && manager.ec2.instances == old(manager.ec2.instances)
      ensures r.Success? ==>
        && r.value.instanceId == req.instanceId.value
        && r.value.currentState in {ShuttingDown, InstanceState.Terminated}
        && req.instanceId.value < |manager.ec2.instances|
        && r.value.previousState == old(manager.ec2.instances[req.instanceId.value].state)
        && r.value.currentState
             == (if r.value.previousState == InstanceState.Terminated then InstanceState.Terminated else ShuttingDown)
        && manager.ec2.instances == old(manager.ec2.instances)[req.instanceId.value :=
             old(manager.ec2.instances[req.instanceId.value]).(state := r.value.currentState)]
        && !Listed(manager.ec2.instances[req.instanceId.value], req.region)
        && workloads == CompleteById(old(workloads), req.workloadId, now)
    {
      if req.provider == "" || req.instanceId.None? {
        return Failure(MissingFields);
      }
      if req.provider != "aws" {
        return Failure(UnsupportedProvider);
      }
      var result := manager.TerminateAwsInstance(req.instanceId.value, req.region, fault);
      if result.Failure? {
        return Failure(ServerError(result.error));
      }
      TerminatedInstanceIsNotListed(manager.ec2.instances[req.instanceId.value], req.region);
      if req.workloadId.Some? {
        CompleteWorkload(req.workloadId.value, now);
      }
      return Success(result.value);
    }

    /** `findByIdAndUpdate`: the record with that id, if any, is completed at `now`; any
        other record is left alone. */
    method CompleteWorkload(id: nat, now: int)
      requires Valid()
      modifies this
      ensures Valid()
      ensures regions == old(regions) && nextRegionId == old(nextRegionId) && nextWorkloadId == old(nextWorkloadId)
      ensures workloads == CompleteById(old(workloads), Some(id), now)
      ensures forall k :: 0 <= k < |workloads| && old(workloads)[k].id == id ==>
        (ValidWorkload(workloads[k]) <==> old(workloads)[k].startTime <= now)
    {
      var found := FindWorkloadIndex(id);
      if found.None? {
        CompleteNone(workloads, id, now);
        return;
      }
      var k := found.value;
      var before := workloads;
      CompletedConsistent(before[k], |manager.ec2.instances|, now);
      CompleteAt(before, k, now);
      workloads := before[k := CompleteRecord(before[k], now)];
    }

    /** `GET /regions`: the selected regions in increasing carbon intensity, the first of
        them as the recommendation, and their number. */
    function ListRegions(provider: string): (l: RegionListing)
      reads this
      ensures l.count == |l.regions| == Count(regions, (r: CloudRegion) => RegionSelected(r, provider))
      ensures forall r :: r in l.regions <==> r in regions && RegionSelected(r, provider)
      ensures forall i, j :: 0 <= i < j < |l.regions| ==> l.regions[i].carbonIntensity <= l.regions[j].carbonIntensity
      ensures l.recommendation.None? <==> l.count == 0
      ensures l.recommendation.Some? ==>
        && l.recommendation.value in regions
        && RegionSelected(l.recommendation.value, provider)
        && forall r :: r in regions && RegionSelected(r, provider) ==>
             l.recommendation.value.carbonIntensity <= r.carbonIntensity
    {
      var sorted := GreenestFirst(regions, provider);
      GreenestFirstOrdered(regions, provider);
      if sorted == [] then RegionListing(sorted, None, 0)
      else RegionListing(sorted, Some(sorted[0]), |sorted|)
    }

    /** `POST /calculate-savings`: the what-if comparison against the catalog entry with
        that id (available or not); an unknown id is a 404. */
    function CalculateSavings(req: SavingsRequest): (r: Result<(SavingsBreakdown, CloudRegion), RouteError>)
      reads this
      ensures r.Failure? <==> forall c :: c in regions ==> c.id != req.targetRegion
      ensures r.Failure? ==> r.error == RouteError.NotFound
      ensures r.Success? ==>
        var (b, c) := r.value;
        && c in regions && c.id == req.targetRegion
        && b == ComputeSavings(req.estimatedPowerWatts, req.estimatedDurationHours, c.carbonIntensity)
        && b.energyKWh == req.estimatedPowerWatts * req.estimatedDurationHours / 1000.0
        && b.localEmissions == b.energyKWh * LocalCarbonIntensity
        && b.cloudEmissions == b.energyKWh * c.carbonIntensity
        && b.savingsGCO2 == b.energyKWh * (LocalCarbonIntensity - c.carbonIntensity)
    {
      var found := Filter(regions, (c: CloudRegion) => c.id == req.targetRegion);
      if found == [] then
        assert forall c :: c in regions ==> c.id != req.targetRegion by {
          forall c | c in regions ensures c.id != req.targetRegion {
            var k :| 0 <= k < |regions| && regions[k] == c;
          }
        }
        Failure(RouteError.NotFound)
      else
        var c := found[0];
        Success((ComputeSavings(req.estimatedPowerWatts, req.estimatedDurationHours, c.carbonIntensity), c))
    }

    /** `POST /workloads`: a manual record, stored when the checks and the schema pass. */
    method SubmitWorkload(user: UserId, req: SubmitRequest, now: int) returns (r: Result<CloudWorkload, RouteError>)
      requires Valid()
      modifies this
      ensures Valid()
      ensures r == SubmitOutcome(user, req, old(nextWorkloadId), now)
      ensures regions == old(regions) && nextRegionId == old(nextRegionId)
      ensures r.Success? ==> workloads == old(workloads) + [r.value] && nextWorkloadId == old(nextWorkloadId) + 1
      ensures r.Failure? ==> workloads == old(workloads) && nextWorkloadId == old(nextWorkloadId)
    {
      r := SubmitOutcome(user, req, nextWorkloadId, now);
      if r.Success? {
        workloads := workloads + [r.value];
        nextWorkloadId := nextWorkloadId + 1;
      }
    }

    /** `GET /workloads`: the requester's records matching the optional status and
        provider, newest first, at most `limit` of them (50 when omitted, all when 0),
        with the statistics of the returned page. */
    function ListWorkloads(user: UserId, status: string, provider: string, limit: Option<nat>): (l: WorkloadListing)
      reads this
      ensures forall k :: 0 <= k < |l.workloads| ==>
        l.workloads[k] in workloads && WorkloadSelected(l.workloads[k], user, status, provider)
      ensures forall i, j :: 0 <= i < j < |l.workloads| ==>
        l.workloads[i].startTime >= l.workloads[j].startTime
      ensures limit.GetOr(50) > 0 ==> |l.workloads| <= limit.GetOr(50)
      ensures limit.GetOr(50) == 0 || Count(workloads, SelectedOf(user, status, provider)) <= limit.GetOr(50) ==>
        forall w :: w in workloads && WorkloadSelected(w, user, status, provider) ==> w in l.workloads
      ensures l.workloads == NewestSelected(workloads, user, status, provider, limit.GetOr(50))
      ensures l.stats == WorkloadStatsOf(l.workloads)
    {
      var page := NewestSelected(workloads, user, status, provider, limit.GetOr(50));
      NewestSelectedOrdered(workloads, user, status, provider, limit.GetOr(50));
      WorkloadListing(page, WorkloadStatsOf(page))
    }

    /** `GET /workloads/:id`: the record with that id, only when the requester owns it. */
    function GetWorkload(id: nat, user: UserId): (r: Option<CloudWorkload>)
      reads this
      ensures r.None? <==> forall w :: w in workloads ==> !(w.id == id && w.user == user)
      ensures r.Some? ==> r.value in workloads && r.value.id == id && r.value.user == user
    {
      var found := Filter(workloads, (w: CloudWorkload) => w.id == id && w.user == user);
      if found == [] then
        assert forall w :: w in workloads ==> !(w.id == id && w.user == user) by {
          forall w | w in workloads ensures !(w.id == id && w.user == user) {
            var k :| 0 <= k < |workloads| && workloads[k] == w;
          }
        }
        None
      else Some(found[0])
    }

    /** `deleteMany({})` then `insertMany`: the catalog becomes `docs`, numbered from the
        counter. */
    method ReplaceCatalog(docs: seq<CloudRegion>)
      requires Valid()
      requires ValidCatalog(docs)
      requires forall k :: 0 <= k < |docs| ==> docs[k].id == nextRegionId + k
      modifies this
      ensures Valid()
      ensures regions == docs && nextRegionId == old(nextRegionId) + |docs|
      ensures workloads == old(workloads) && nextWorkloadId == old(nextWorkloadId)
    {
      regions := docs;
      nextRegionId := nextRegionId + |docs|;
    }

    /** `POST /regions/seed`: the catalog is cleared and replaced by the seed documents.
        The report counts them, the available AWS ones and the unavailable ones, and names
        the first available AWS region, which is the one with the lowest intensity. */
    method Seed() returns (report: SeedReport)
      requires Valid()
      modifies this
      ensures Valid()
      ensures regions == SeedDocs(old(nextRegionId)) && nextRegionId == old(nextRegionId) + 12
      ensures workloads == old(workloads) && nextWorkloadId == old(nextWorkloadId)
      ensures report.count == 12 && report.awsRegions == LaunchableCount && report.referenceRegions == 2
      ensures report.greenestRegion == Some(regions[0])
      ensures report.greenestRegion.value.region == "eu-north-1" && report.greenestRegion.value.carbonIntensity == 8.0
      ensures forall r :: r in regions && LaunchableAws(r) ==> report.greenestRegion.value.carbonIntensity <= r.carbonIntensity
    {
      var firstId := nextRegionId;
      SeedInserts(firstId);
      var docs := InsertMany(SeedDrafts, firstId).value;
      ReplaceCatalog(docs);
      report := SeedReportOf(docs);
      SeedReportFacts(firstId);
    }
  }

  /** The seed route's report on the documents it inserted. */
  function SeedReportOf(docs: seq<CloudRegion>): SeedReport {
    var aws := Filter(docs, LaunchableAws);
    SeedReport(|docs|, |aws|, |Filter(docs, Unavailable)|, if aws == [] then None else Some(aws[0]))
  }

  /** On the seed, the report counts 12 documents, 10 available AWS ones and 2 unavailable
      ones, and names the first document, Stockholm, as the greenest available AWS region. */
  lemma SeedReportFacts(firstId: nat)
    ensures var docs := SeedDocs(firstId);
      var report := SeedReportOf(docs);
      && |docs| == 12
      && report.count == 12 && report.awsRegions == LaunchableCount && report.referenceRegions == 2
      && report.greenestRegion == Some(docs[0])
      && docs[0].region == "eu-north-1" && docs[0].carbonIntensity == 8.0
      && forall r :: r in docs && LaunchableAws(r) ==> docs[0].carbonIntensity <= r.carbonIntensity
  {
    var docs := SeedDocs(firstId);
    SeedAwsFilter(firstId);
    SeedReferenceFilter(firstId);
    SeedGreenestFirst(firstId);
    SeedAwsHead(firstId);
    assert Filter(docs, LaunchableAws)[0] == docs[0];
  }

  /** The seed's available AWS regions are exactly its first ten documents, in order. */
  lemma SeedAwsFilter(firstId: nat)
    ensures |SeedDocs(firstId)| == 12
    ensures Filter(SeedDocs(firstId), LaunchableAws) == SeedDocs(firstId)[..10]
  {
    var docs := SeedDocs(firstId);
    SeedAwsHead(firstId);
    SeedReferenceTail(firstId);
    FilterPrefix(docs, 10, LaunchableAws);
  }

  /** The seed's unavailable regions are exactly its last two documents. */
  lemma SeedReferenceFilter(firstId: nat)
    ensures Filter(SeedDocs(firstId), Unavailable) == SeedDocs(firstId)[10..]
    ensures |Filter(SeedDocs(firstId), Unavailable)| == 2
  {
    var docs := SeedDocs(firstId);
    SeedAwsHead(firstId);
    SeedReferenceTail(firstId);
    FilterSuffix(docs, 10, Unavailable);
  }

  /** The first seeded region has the lowest intensity of all available AWS regions. */
  lemma SeedGreenestFirst(firstId: nat)
    ensures |SeedDocs(firstId)| == 12
    ensures forall r :: r in SeedDocs(firstId) && LaunchableAws(r) ==>
      SeedDocs(firstId)[0].carbonIntensity <= r.carbonIntensity
  {
    var docs := SeedDocs(firstId);
    SeedReferenceTail(firstId);
    SeedAscendingIntensity(firstId);
    forall r | r in docs && LaunchableAws(r) ensures docs[0].carbonIntensity <= r.carbonIntensity {
      var k :| 0 <= k < |docs| && docs[k] == r;
      assert k < LaunchableCount;
      if k > 0 {
        assert docs[0].carbonIntensity <= docs[k].carbonIntensity;
      }
    }
  }
}
