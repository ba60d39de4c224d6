/** The CloudWorkload collection: one document per submitted or launched workload, with
    its estimated local and cloud emissions, the signed savings between them, the cost
    estimate, the lifecycle status and a metadata bag describing the estimate. */
module CloudWorkloadModel {
  import opened Common

  datatype WorkloadType = Computation | Storage | Processing | Training | Batch | Analysis

  function WorkloadTypeName(t: WorkloadType): string {
    match t
    case Computation => "computation"
    case Storage => "storage"
    case Processing => "processing"
    case Training => "training"
    case Batch => "batch"
    case Analysis => "analysis"
  }

  function ParseWorkloadType(s: string): (r: Option<WorkloadType>)
    ensures r.Some? ==> WorkloadTypeName(r.value) == s
  {
    if s == "computation" then Some(Computation)
    else if s == "storage" then Some(Storage)
    else if s == "processing" then Some(Processing)
    else if s == "training" then Some(Training)
    else if s == "batch" then Some(Batch)
    else if s == "analysis" then Some(Analysis)
    else None
  }

  lemma WorkloadTypeRoundTrip(t: WorkloadType)
    ensures ParseWorkloadType(WorkloadTypeName(t)) == Some(t)
  {
  }

  datatype Status = Pending | Provisioning | Running | Completed | Failed | Terminated

  function StatusName(s: Status): string {
    match s
    case Pending => "pending"
    case Provisioning => "provisioning"
    case Running => "running"
    case Completed => "completed"
    case Failed => "failed"
    case Terminated => "terminated"
  }

  /** The status names are pairwise distinct, so a status query string selects one status. */
  lemma StatusNamesDistinct(a: Status, b: Status)
    ensures StatusName(a) == StatusName(b) ==> a == b
  {
  }

  /** The metadata bag as stored; `simulated` always has a value (default false). */
  datatype Metadata = Metadata(
    energyKWh: Option<real>,
    estimatedDurationHours: Option<real>,
    power: Option<real>,
    carbonIntensity: Option<real>,
    renewablePercentage: Option<real>,
    launchTime: Option<int>,
    simulated: bool)

  /** The metadata bag as supplied by a caller (every field may be absent). */
  datatype MetadataDraft = MetadataDraft(
    energyKWh: Option<real>,
    estimatedDurationHours: Option<real>,
    power: Option<real>,
    carbonIntensity: Option<real>,
    renewablePercentage: Option<real>,
    launchTime: Option<int>,
    simulated: Option<bool>)

  const EmptyMetadata: MetadataDraft := MetadataDraft(None, None, None, None, None, None, None)

  datatype CloudWorkload = CloudWorkload(
    id: nat,
    user: UserId,
    workloadType: WorkloadType,
    sourceRegion: string,
    targetCloudRegion: string,
    cloudProvider: Provider,
    instanceId: Option<nat>,
    instanceType: Option<string>,
    estimatedLocalEmissions: real,
    estimatedCloudEmissions: real,
    actualCloudEmissions: Option<real>,
    savingsGCO2: real,
    estimatedCost: real,
    actualCost: Option<real>,
    status: Status,
    startTime: int,
    endTime: Option<int>,
    duration: Option<int>,
    errorMessage: Option<string>,
    metadata: Metadata)

  /** A workload document as handed to `create`, before casting, defaults and validation. */
  datatype WorkloadDraft = WorkloadDraft(
    user: UserId,
    workloadType: string,
    sourceRegion: Option<string>,
    targetCloudRegion: string,
    cloudProvider: string,
    instanceId: Option<nat>,
    instanceType: Option<string>,
    estimatedLocalEmissions: Option<real>,
    estimatedCloudEmissions: Option<real>,
    savingsGCO2: Option<real>,
    estimatedCost: Option<real>,
    status: Option<Status>,
    metadata: MetadataDraft)

  /** The schema's bounds other than the duration's minimum. Savings is signed and
      carries no bound. */
  ghost predicate ValidFigures(w: CloudWorkload) {
    && w.user != ""
    && w.targetCloudRegion != ""
    && w.estimatedLocalEmissions >= 0.0
    && w.estimatedCloudEmissions >= 0.0
    && (w.actualCloudEmissions.Some? ==> w.actualCloudEmissions.value >= 0.0)
    && w.estimatedCost >= 0.0
    && (w.actualCost.Some? ==> w.actualCost.value >= 0.0)
  }

  /** The schema's bounds. */
  ghost predicate ValidWorkload(w: CloudWorkload) {
    ValidFigures(w) && (w.duration.Some? ==> w.duration.value >= 0)
  }

  /** True when the draft breaks one of the schema's rules. */
  predicate DraftRejected(d: WorkloadDraft) {
    || d.user == ""
    || ParseWorkloadType(d.workloadType).None?
    || d.targetCloudRegion == ""
    || ParseProvider(d.cloudProvider).None?
    || d.estimatedLocalEmissions.None?
    || d.estimatedLocalEmissions.value < 0.0
    || d.estimatedCloudEmissions.None?
    || d.estimatedCloudEmissions.value < 0.0
    || d.savingsGCO2.None?
    || d.estimatedCost.GetOr(0.0) < 0.0
  }

  function MetadataWithDefaults(m: MetadataDraft): (r: Metadata)
    ensures r.simulated == m.simulated.GetOr(false)
    ensures r.energyKWh == m.energyKWh && r.launchTime == m.launchTime
    ensures r.estimatedDurationHours == m.estimatedDurationHours && r.power == m.power
    ensures r.carbonIntensity == m.carbonIntensity && r.renewablePercentage == m.renewablePercentage
  {
    Metadata(m.energyKWh, m.estimatedDurationHours, m.power, m.carbonIntensity,
             m.renewablePercentage, m.launchTime, m.simulated.GetOr(false))
  }

  /** `CloudWorkload.create`: casting, defaults (source region "local", cost 0, status
      pending, start time now, not simulated) and validation, in the schema's field order. */
  function CreateWorkload(d: WorkloadDraft, id: nat, now: int): (r: Result<CloudWorkload, SchemaError>)
    ensures r.Failure? <==> DraftRejected(d)
    ensures r.Success? ==> ValidWorkload(r.value)
    ensures r.Success? ==>
      var w := r.value;
      && w.id == id && w.user == d.user
      && WorkloadTypeName(w.workloadType) == d.workloadType
      && ProviderName(w.cloudProvider) == d.cloudProvider
      && w.targetCloudRegion == d.targetCloudRegion
      && w.instanceId == d.instanceId && w.instanceType == d.instanceType
      && w.sourceRegion == d.sourceRegion.GetOr("local")
      && w.estimatedLocalEmissions == d.estimatedLocalEmissions.value
      && w.estimatedCloudEmissions == d.estimatedCloudEmissions.value
      && w.savingsGCO2 == d.savingsGCO2.value
      && w.estimatedCost == d.estimatedCost.GetOr(0.0)
      && w.status == d.status.GetOr(Pending)
      && w.startTime == now
      && w.endTime.None? && w.duration.None? && w.actualCost.None? && w.actualCloudEmissions.None?
      && w.metadata == MetadataWithDefaults(d.metadata)
  {
    var workloadType := ParseWorkloadType(d.workloadType);
    var provider := ParseProvider(d.cloudProvider);
    if d.user == "" then Failure(Missing("user"))
    else if d.workloadType == "" then Failure(Missing("workloadType"))
    else if workloadType.None? then Failure(NotInEnum("workloadType"))
    else if d.targetCloudRegion == "" then Failure(Missing("targetCloudRegion"))
    else if d.cloudProvider == "" then Failure(Missing("cloudProvider"))
    else if provider.None? then Failure(NotInEnum("cloudProvider"))
    else if d.estimatedLocalEmissions.None? then Failure(Missing("estimatedLocalEmissions"))
    else if d.estimatedLocalEmissions.value < 0.0 then Failure(BelowMinimum("estimatedLocalEmissions"))
    else if d.estimatedCloudEmissions.None? then Failure(Missing("estimatedCloudEmissions"))
    else if d.estimatedCloudEmissions.value < 0.0 then Failure(BelowMinimum("estimatedCloudEmissions"))
    else if d.savingsGCO2.None? then Failure(Missing("savingsGCO2"))
    else if d.estimatedCost.GetOr(0.0) < 0.0 then Failure(BelowMinimum("estimatedCost"))
    else
      Success(CloudWorkload(
        id, d.user, workloadType.value, d.sourceRegion.GetOr("local"), d.targetCloudRegion,
        provider.value, d.instanceId, d.instanceType,
        d.estimatedLocalEmissions.value, d.estimatedCloudEmissions.value, None,
        d.savingsGCO2.value, d.estimatedCost.GetOr(0.0), None,
        d.status.GetOr(Pending), now, None, None, None,
        MetadataWithDefaults(d.metadata)))
  }

  /** How many of the workloads run on provider `p`. */
  function ProviderCount(ws: seq<CloudWorkload>, p: Provider): nat {
    Count(ws, (w: CloudWorkload) => w.cloudProvider == p)
  }

  predicate HasStatus(w: CloudWorkload, s: Status) { w.status == s }

  /** How many of the workloads have status `s`. */
  function StatusCount(ws: seq<CloudWorkload>, s: Status): nat {
    Count(ws, (w: CloudWorkload) => HasStatus(w, s))
  }

  /** Every accepted workload type and provider name is one the enumerations list. */
  lemma CreatedEnumsAreListed(d: WorkloadDraft, id: nat, now: int)
    requires CreateWorkload(d, id, now).Success?
    ensures d.workloadType in {"computation", "storage", "processing", "training", "batch", "analysis"}
    ensures d.cloudProvider in {"aws", "gcp", "azure", "oracle"}
  {
    var w := CreateWorkload(d, id, now).value;
    assert WorkloadTypeName(w.workloadType) == d.workloadType;
    assert ProviderName(w.cloudProvider) == d.cloudProvider;
  }
}
