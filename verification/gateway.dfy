/** The provisioning half of the cloud manager service. The compute provider is an
    in-memory instance table (`Ec2`) whose failures are injected as an optional error
    message per call; `CloudManager` holds the enable flag and the default region read
    from the environment and gates every provider operation on the flag. */
module Gateway {
  import opened Common
  import opened Estimator

  type InstanceId = nat

  datatype InstanceState = Pending | Running | ShuttingDown | Terminated | Stopping | Stopped

  function StateName(s: InstanceState): string {
    match s
    case Pending => "pending"
    case Running => "running"
    case ShuttingDown => "shutting-down"
    case Terminated => "terminated"
    case Stopping => "stopping"
    case Stopped => "stopped"
  }

  datatype Tag = Tag(key: string, value: string)

  datatype Instance = Instance(
    id: InstanceId,
    region: string,
    imageId: string,
    instanceType: string,
    state: InstanceState,
    tags: seq<Tag>,
    launchTime: int)

  const ManagedByTag: Tag := Tag("ManagedBy", "CarbonTrackerApp")

  /** The tags every launch attaches: four fixed ones, then the caller's own. */
  function LaunchTags(callerTags: seq<Tag>, createdAt: string): (tags: seq<Tag>)
    ensures |tags| == 4 + |callerTags|
    ensures tags[0] == Tag("Name", "CarbonTracker-Workload")
    ensures tags[1] == ManagedByTag
    ensures tags[2] == Tag("CreatedAt", createdAt)
    ensures tags[3] == Tag("Purpose", "Carbon-Optimization")
    ensures tags[4..] == callerTags
  {
    [Tag("Name", "CarbonTracker-Workload"), ManagedByTag, Tag("CreatedAt", createdAt),
     Tag("Purpose", "Carbon-Optimization")] + callerTags
  }

  /** The listing filter: managed by this application, in the queried region, and in one
      of the states pending, running, stopping or stopped. */
  predicate Listed(i: Instance, region: string) {
    && i.region == region
    && ManagedByTag in i.tags
    && i.state in {Pending, Running, Stopping, Stopped}
  }

  /** Every launch request holds one instance, so each matching instance is one
      reservation of one instance, in launch order. */
  function ManagedReservations(s: seq<Instance>, region: string): seq<seq<Instance>>
  {
    if s == [] then []
    else
      ManagedReservations(s[..|s| - 1], region)
        + (if Listed(s[|s| - 1], region) then [[s[|s| - 1]]] else [])
  }

  function Flatten(rs: seq<seq<Instance>>): seq<Instance> {
    if rs == [] then [] else Flatten(rs[..|rs| - 1]) + rs[|rs| - 1]
  }

  /** The flattened listing holds exactly the instances of the table that pass the filter. */
  lemma {:induction false} ListingMembers(s: seq<Instance>, region: string, x: Instance)
    ensures x in Flatten(ManagedReservations(s, region)) <==> x in s && Listed(x, region)
  {
    if s != [] {
      var front := s[..|s| - 1];
      var last := s[|s| - 1];
      ListingMembers(front, region, x);
      assert s == front + [last];
      var rs := ManagedReservations(front, region);
      var added: seq<seq<Instance>> := if Listed(last, region) then [[last]] else [];
      FlattenAppend(rs, added);
      assert Flatten(added) == if Listed(last, region) then [last] else [];
    }
  }

  lemma FlattenAppend(rs: seq<seq<Instance>>, more: seq<seq<Instance>>)
    requires |more| <= 1
    ensures Flatten(rs + more) == Flatten(rs) + Flatten(more)
  {
    if more == [] {
      assert rs + more == rs;
    } else {
      assert (rs + more)[..|rs|] == rs;
      assert more[..0] == [];
    }
  }

  datatype InstanceSummary = InstanceSummary(
    instanceId: InstanceId,
    state: InstanceState,
    instanceType: string,
    launchTime: int,
    region: string)

  function Summarize(i: Instance, region: string): (m: InstanceSummary)
    ensures m.instanceId == i.id && m.state == i.state && m.region == region
  {
    InstanceSummary(i.id, i.state, i.instanceType, i.launchTime, region)
  }

  function Summaries(s: seq<Instance>, region: string): (r: seq<InstanceSummary>)
    ensures |r| == |s|
    ensures forall k :: 0 <= k < |s| ==> r[k] == Summarize(s[k], region)
  {
    seq(|s|, k requires 0 <= k < |s| => Summarize(s[k], region))
  }

  /** The provider's instance table: instance `k` has id `k`. */
  class Ec2 {
    var instances: seq<Instance>

    ghost predicate Valid()
      reads this
    {
      forall k :: 0 <= k < |instances| ==> instances[k].id == k
    }

    constructor()
      ensures Valid() && instances == []
    {
      instances := [];
    }

    /** The instance with that id in that region, if any. */
    function Lookup(id: InstanceId, region: string): (r: Option<Instance>)
      reads this
      ensures r.Some? <==> id < |instances| && instances[id].region == region
      ensures r.Some? ==> r.value == instances[id]
    {
      if id < |instances| && instances[id].region == region then Some(instances[id]) else None
    }

    /** Launches one instance in the pending state, or fails without launching. */
    method RunInstance(region: string, imageId: string, instanceType: string, tags: seq<Tag>,
                       now: int, fault: Option<string>) returns (r: Result<Instance, string>)
      requires Valid()
      modifies this
      ensures Valid()
      ensures fault.Some? ==> r == Failure(fault.value) && instances == old(instances)
      ensures fault.None? ==>
        && r == Success(Instance(|old(instances)|, region, imageId, instanceType, Pending, tags, now))
        && instances == old(instances) + [r.value]
    {
      if fault.Some? {
        return Failure(fault.value);
      }
      var i := Instance(|instances|, region, imageId, instanceType, Pending, tags, now);
      instances := instances + [i];
      return Success(i);
    }

    /** Starts terminating an instance: the previous state is reported, and the instance
        is shutting down unless it had already terminated. Unknown ids fail. */
    method TerminateInstance(id: InstanceId, region: string, fault: Option<string>)
      returns (r: Result<(InstanceState, InstanceState), string>)
      requires Valid()
      modifies this
      ensures Valid()
      ensures r.Failure? ==> instances == old(instances)
      ensures r.Failure? <==> fault.Some? || old(Lookup(id, region)).None?
      ensures r.Success? ==>
        var prev := old(instances[id].state);
        var next := if prev == Terminated then Terminated else ShuttingDown;
        && r.value == (next, prev)
        && instances == old(instances)[id := old(instances[id]).(state := next)]
    {
      if fault.Some? {
        return Failure(fault.value);
      }
      if Lookup(id, region).None? {
        return Failure("The instance ID does not exist");
      }
      var prev := instances[id].state;
      var next := if prev == Terminated then Terminated else ShuttingDown;
      instances := instances[id := instances[id].(state := next)];
      return Success((next, prev));
    }
  }

  /** The process environment the manager reads once at start-up ("" when unset). */
  datatype Env = Env(
    enableCloudIntegration: string,
    accessKeyId: string,
    secretAccessKey: string,
    region: string)

  const DisabledMessage: string := "Cloud integration is disabled"
  const DefaultRegion: string := "us-east-1"

  datatype LaunchResult = LaunchResult(
    instanceId: InstanceId,
    state: InstanceState,
    launchTime: int,
    instanceType: string,
    region: string)

  datatype TerminateResult = TerminateResult(
    instanceId: InstanceId,
    currentState: InstanceState,
    previousState: InstanceState)

  /** What a status lookup reports once the manager is enabled. */
  datatype StatusReport = Found(summary: InstanceSummary) | NotFound | StatusError(message: string)

  /** What a listing reports once the manager is enabled. */
  datatype Listing =
    | Listing(instances: seq<InstanceSummary>, count: nat)
    | ListingError(message: string)

  datatype ConnectionReport = ConnectionReport(
    success: bool,
    provider: string,
    message: string,
    region: Option<string>)

  class CloudManager {
    const isEnabled: bool
    const defaultRegion: string
    const ec2: Ec2

    ghost predicate Valid()
      reads this, ec2
    {
      ec2.Valid()
    }

    /** Integration is enabled only by the flag "true" together with both credentials. */
    constructor(env: Env, provider: Ec2)
      requires provider.Valid()
      ensures Valid() && ec2 == provider
      ensures isEnabled <==> env.enableCloudIntegration == "true"
                             && env.accessKeyId != "" && env.secretAccessKey != ""
      ensures defaultRegion == if env.region != "" then env.region else DefaultRegion
    {
      isEnabled := env.enableCloudIntegration == "true"
                   && env.accessKeyId != "" && env.secretAccessKey != "";
      defaultRegion := if env.region != "" then env.region else DefaultRegion;
      ec2 := provider;
    }

    /** The region a call addresses: the one given, or the default one. */
    function EffectiveRegion(region: string): (r: string)
      reads this
      ensures region != "" ==> r == region
      ensures region == "" ==> r == defaultRegion
    {
      if region != "" then region else defaultRegion
    }

    /** Launches one instance of `instanceType` (t2.micro when omitted) from the region's
        image, tagged with the fixed tags followed by the caller's. */
    method LaunchAwsInstance(region: string, instanceType: Option<string>, callerTags: seq<Tag>,
                             now: int, createdAt: string, fault: Option<string>)
      returns (r: Result<LaunchResult, string>)
      requires Valid()
      modifies ec2
      ensures Valid()
      ensures !isEnabled ==> r == Failure(DisabledMessage) && ec2.instances == old(ec2.instances)
      ensures isEnabled && fault.Some? ==>
        r == Failure("Failed to launch AWS instance: " + fault.value) && ec2.instances == old(ec2.instances)
      ensures isEnabled && fault.None? ==>
        var t := instanceType.GetOr("t2.micro");
        && r == Success(LaunchResult(|old(ec2.instances)|, Pending, now, t, region))
        && ec2.instances == old(ec2.instances)
             + [Instance(|old(ec2.instances)|, region, AmiForRegion(region), t, Pending,
                         LaunchTags(callerTags, createdAt), now)]
    {
      if !isEnabled {
        return Failure(DisabledMessage);
      }
      var t := instanceType.GetOr("t2.micro");
      var launched := ec2.RunInstance(region, AmiForRegion(region), t,
                                      LaunchTags(callerTags, createdAt), now, fault);
      match launched {
        case Failure(e) =>
          return Failure("Failed to launch AWS instance: " + e);
        case Success(i) =>
          return Success(LaunchResult(i.id, i.state, i.launchTime, i.instanceType, region));
      }
    }

    method TerminateAwsInstance(instanceId: InstanceId, region: string, fault: Option<string>)
      returns (r: Result<TerminateResult, string>)
      requires Valid()
      modifies ec2
      ensures Valid()
      ensures !isEnabled ==> r == Failure(DisabledMessage) && ec2.instances == old(ec2.instances)
      ensures isEnabled ==>
        (r.Failure? <==> fault.Some? || old(ec2.Lookup(instanceId, EffectiveRegion(region))).None?)
      ensures r.Failure? ==> ec2.instances == old(ec2.instances)
      ensures r.Success? ==>
        var prev := old(ec2.instances[instanceId].state);
        && r.value.instanceId == instanceId
        && r.value.previousState == prev
        && r.value.currentState == (if prev == Terminated then Terminated else ShuttingDown)
        && ec2.instances == old(ec2.instances)[instanceId := old(ec2.instances[instanceId]).(state := r.value.currentState)]
    {
      if !isEnabled {
        return Failure(DisabledMessage);
      }
      var terminated := ec2.TerminateInstance(instanceId, EffectiveRegion(region), fault);
      match terminated {
        case Failure(e) =>
          return Failure("Failed to terminate AWS instance: " + e);
        case Success(states) =>
          return Success(TerminateResult(instanceId, states.0, states.1));
      }
    }

    /** Status lookups never throw once enabled: an unknown id is reported as not found
        and a provider error as an error report. */
    method GetAwsInstanceStatus(instanceId: InstanceId, region: string, fault: Option<string>)
      returns (r: Result<StatusReport, string>)
      requires Valid()
      ensures !isEnabled ==> r == Failure(DisabledMessage)
      ensures isEnabled ==> r.Success?
      ensures isEnabled && fault.Some? ==> r.value == StatusError(fault.value)
      ensures isEnabled && fault.None? ==>
        var found := ec2.Lookup(instanceId, EffectiveRegion(region));
        && (r.value.NotFound? <==> found.None?)
        && (r.value.Found? ==> r.value.summary == Summarize(found.value, EffectiveRegion(region)))
    {
      if !isEnabled {
        return Failure(DisabledMessage);
      }
      if fault.Some? {
        return Success(StatusError(fault.value));
      }
      var where := EffectiveRegion(region);
      var found := ec2.Lookup(instanceId, where);
      if found.None? {
        return Success(NotFound);
      }
      return Success(Found(Summarize(found.value, where)));
    }

    /** Lists the managed instances of a region, one summary per instance of every
        reservation, with the count of summaries. */
    method ListAwsInstances(region: string, fault: Option<string>) returns (r: Result<Listing, string>)
      requires Valid()
      ensures !isEnabled ==> r == Failure(DisabledMessage)
      ensures isEnabled ==> r.Success?
      ensures isEnabled && fault.Some? ==> r.value == ListingError(fault.value)
      ensures isEnabled && fault.None? ==>
        var where := EffectiveRegion(region);
        && r.value.Listing?
        && r.value.instances == Summaries(Flatten(ManagedReservations(ec2.instances, where)), where)
        && r.value.count == |r.value.instances|
    {
      if !isEnabled {
        return Failure(DisabledMessage);
      }
      if fault.Some? {
        return Success(ListingError(fault.value));
      }
      var where := EffectiveRegion(region);
      var reservations := ManagedReservations(ec2.instances, where);
      var items: seq<InstanceSummary> := [];
      var i := 0;
      while i < |reservations|
        invariant 0 <= i <= |reservations|
        invariant items == Summaries(Flatten(reservations[..i]), where)
      {
        var reservation := reservations[i];
        var j := 0;
        while j < |reservation|
          invariant 0 <= j <= |reservation|
          invariant items == Summaries(Flatten(reservations[..i]) + reservation[..j], where)
        {
          assert reservation[..j + 1] == reservation[..j] + [reservation[j]];
          items := items + [Summarize(reservation[j], where)];
          j := j + 1;
        }
        assert reservations[..i + 1][..i] == reservations[..i];
        assert reservation[..j] == reservation;
        i := i + 1;
      }
      assert reservations[..i] == reservations;
      return Success(Listing(items, |items|));
    }

    /** The only operation that does not throw when disabled: it reports success exactly
        when integration is enabled, the provider is "aws" and the provider answers. */
    method TestConnection(provider: string, fault: Option<string>) returns (r: ConnectionReport)
      ensures r.success <==> isEnabled && provider == "aws" && fault.None?
      ensures !isEnabled ==> r == ConnectionReport(false, provider, DisabledMessage, None)
      ensures isEnabled && provider != "aws" ==>
        r == ConnectionReport(false, provider, "Only AWS is supported", None)
      ensures r.success ==> r.region == Some(defaultRegion)
    {
      if !isEnabled {
        return ConnectionReport(false, provider, DisabledMessage, None);
      }
      if provider != "aws" {
        return ConnectionReport(false, provider, "Only AWS is supported", None);
      }
      if fault.Some? {
        return ConnectionReport(false, "aws", fault.value, None);
      }
      return ConnectionReport(true, "aws", "AWS connection successful", Some(defaultRegion));
    }
  }

  /** A freshly launched instance is pending and carries the ManagedBy tag, so it appears
      in the listing of its region. */
  lemma LaunchedInstanceIsListed(id: InstanceId, region: string, instanceType: string,
                                 callerTags: seq<Tag>, createdAt: string, now: int)
    ensures Listed(Instance(id, region, AmiForRegion(region), instanceType, Pending,
                            LaunchTags(callerTags, createdAt), now), region)
  {
    var tags := LaunchTags(callerTags, createdAt);
    assert tags[1] == ManagedByTag;
  }

  /** An instance that is shutting down or terminated is never listed. */
  lemma TerminatedInstanceIsNotListed(i: Instance, region: string)
    requires i.state in {ShuttingDown, Terminated}
    ensures !Listed(i, region)
  {
  }
}
