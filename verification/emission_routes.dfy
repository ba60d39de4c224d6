/** The telemetry routes: logging a sample, listing a user's samples, the per-period
    statistics and owner-scoped deletion, over an in-memory Emission collection. */
module EmissionRoutes {
  import opened Common
  import opened Sorting
  import opened EmissionModel
  import opened Periods

  /** The body of a log request, in the tracker's snake_case field order. */
  datatype LogRequest = LogRequest(
    sessionId: string,
    deviceId: string,
    timestamp: Option<int>,
    energyKWh: Option<real>,
    emissionsGCO2: Option<real>,
    durationSeconds: Option<real>,
    metadata: Option<EmissionMetadata>)

  /** The document a log request stores: owned by the requester, stamped now when the
      timestamp is absent or 0 (both are falsy), with empty metadata by default. */
  function LogDraft(user: UserId, req: LogRequest, now: int): (d: EmissionDraft)
    ensures d.user == user && d.sessionId == req.sessionId && d.deviceId == req.deviceId
    ensures d.timestamp.Some?
    ensures req.timestamp.None? || req.timestamp == Some(0) ==> d.timestamp == Some(now)
    ensures req.timestamp.Some? && req.timestamp.value != 0 ==> d.timestamp == req.timestamp
    ensures d.energyKWh == req.energyKWh && d.emissionsGCO2 == req.emissionsGCO2
    ensures d.durationSeconds == req.durationSeconds
    ensures d.metadata == req.metadata.GetOr(NoEmissionMetadata)
  {
    var stamp := if req.timestamp.None? || req.timestamp.value == 0 then now else req.timestamp.value;
    EmissionDraft(user, req.sessionId, req.deviceId, Some(stamp), req.energyKWh,
                  req.emissionsGCO2, req.durationSeconds, req.metadata.GetOr(NoEmissionMetadata))
  }

  /** Newest first: the store's descending sort on timestamp. */
  function NewestFirstKey(e: Emission): real {
    -(e.timestamp as real)
  }

  predicate InRange(e: Emission, user: UserId, startDate: Option<int>, endDate: Option<int>) {
    && e.user == user
    && (startDate.Some? ==> e.timestamp >= startDate.value)
    && (endDate.Some? ==> e.timestamp <= endDate.value)
  }

  datatype EmissionListing = EmissionListing(emissions: seq<Emission>, count: nat)

  datatype EmissionStats = EmissionStats(
    period: string,
    totalEnergy: real,
    totalEmissions: real,
    totalDuration: real,
    sessionCount: nat,
    avgEmissions: real)

  /** The requester's samples since `start`, in store order. */
  function Matching(records: seq<Emission>, user: UserId, start: int): (m: seq<Emission>)
    ensures forall e :: e in m <==> e in records && e.user == user && e.timestamp >= start
  {
    Filter(records, (e: Emission) => e.user == user && e.timestamp >= start)
  }

  /** The sums over a list of samples that the statistics and the reports report. */
  function TotalEmissions(es: seq<Emission>): real {
    Sum(es, (e: Emission) => e.emissionsGCO2)
  }

  function TotalEnergy(es: seq<Emission>): real {
    Sum(es, (e: Emission) => e.energyKWh)
  }

  function TotalDuration(es: seq<Emission>): real {
    Sum(es, (e: Emission) => e.durationSeconds)
  }

  /** An average times the number of terms is the total. */
  lemma AverageTimesCount(total: real, n: real)
    requires n > 0.0
    ensures (total / n) * n == total
  {
  }

  /** The statistics of the requester's samples since `start`: their number, the sums of
      their energy, emissions and duration, and the average emissions per sample; zero
      everywhere when none. */
  function StatsOf(records: seq<Emission>, user: UserId, start: int, period: string): (s: EmissionStats)
    ensures s.period == period
    ensures s.sessionCount == |Matching(records, user, start)|
    ensures s.totalEnergy == TotalEnergy(Matching(records, user, start))
    ensures s.totalEmissions == TotalEmissions(Matching(records, user, start))
    ensures s.totalDuration == TotalDuration(Matching(records, user, start))
    ensures s.sessionCount == 0 ==>
      s.totalEnergy == 0.0 && s.totalEmissions == 0.0 && s.totalDuration == 0.0 && s.avgEmissions == 0.0
    ensures s.sessionCount > 0 ==> s.avgEmissions * (s.sessionCount as real) == s.totalEmissions
  {
    var matching := Matching(records, user, start);
    if matching == [] then EmissionStats(period, 0.0, 0.0, 0.0, 0, 0.0)
    else
      var total := TotalEmissions(matching);
      AverageTimesCount(total, |matching| as real);
      EmissionStats(period, TotalEnergy(matching), total, TotalDuration(matching),
                    |matching|, total / (|matching| as real))
  }

  /** Every total of the statistics is non-negative, since every stored sample is. */
  lemma StatsNonNegative(records: seq<Emission>, user: UserId, start: int, period: string)
    requires forall e :: e in records ==> ValidEmission(e)
    ensures StatsOf(records, user, start, period).totalEnergy >= 0.0
    ensures StatsOf(records, user, start, period).totalEmissions >= 0.0
    ensures StatsOf(records, user, start, period).totalDuration >= 0.0
    ensures StatsOf(records, user, start, period).avgEmissions >= 0.0
  {
    var matching := Matching(records, user, start);
    SumNonNegative(matching, (e: Emission) => e.energyKWh);
    SumNonNegative(matching, (e: Emission) => e.emissionsGCO2);
    SumNonNegative(matching, (e: Emission) => e.durationSeconds);
  }

  /** Removing position `k` keeps exactly the elements found at other positions. */
  lemma RemovedMembers(s: seq<Emission>, k: nat, x: Emission)
    requires k < |s|
    requires forall i, j :: 0 <= i < j < |s| ==> s[i].id != s[j].id
    ensures x in s[..k] + s[k + 1..] <==> x in s && x.id != s[k].id
  {
    var rest := s[..k] + s[k + 1..];
    if x in rest {
      var m :| 0 <= m < |rest| && rest[m] == x;
      if m < k {
        assert s[m] == x;
      } else {
        assert s[m + 1] == x;
      }
    }
    if x in s && x.id != s[k].id {
      var m :| 0 <= m < |s| && s[m] == x;
      if m < k {
        assert rest[m] == x;
      } else {
        assert m != k;
        assert rest[m - 1] == x;
      }
    }
  }

  /** Removing one record keeps every record valid, every id below the counter and the
      ids distinct. */
  lemma RemovedKeepsStore(s: seq<Emission>, k: nat, nextId: nat)
    requires k < |s|
    requires forall e :: e in s ==> ValidEmission(e)
    requires forall i :: 0 <= i < |s| ==> s[i].id < nextId
    requires forall i, j :: 0 <= i < j < |s| ==> s[i].id != s[j].id
    ensures var rest := s[..k] + s[k + 1..];
      && |rest| == |s| - 1
      && (forall e :: e in rest ==> ValidEmission(e))
      && (forall i :: 0 <= i < |rest| ==> rest[i].id < nextId)
      && (forall i, j :: 0 <= i < j < |rest| ==> rest[i].id != rest[j].id)
  {
    var rest := s[..k] + s[k + 1..];
    assert forall i :: 0 <= i < |rest| ==> rest[i] == if i < k then s[i] else s[i + 1];
  }

  /** The listing's selection as a predicate value. */
  function InRangeOf(user: UserId, startDate: Option<int>, endDate: Option<int>): Emission -> bool {
    (e: Emission) => InRange(e, user, startDate, endDate)
  }

  /** The samples of `user` within the bounds, newest first, cut to the first `n` (all
      when 0): `n` of them when more match, every one of them otherwise. */
  function NewestInRange(records: seq<Emission>, user: UserId, startDate: Option<int>, endDate: Option<int>, n: nat)
    : (page: seq<Emission>)
    ensures forall k :: 0 <= k < |page| ==> page[k] in records && InRange(page[k], user, startDate, endDate)
    ensures var matching := Count(records, InRangeOf(user, startDate, endDate));
      |page| == if n == 0 || matching <= n then matching else n
    ensures n == 0 || Count(records, InRangeOf(user, startDate, endDate)) <= n ==>
      forall e :: e in records && InRange(e, user, startDate, endDate) ==> e in page
  {
    var keep := InRangeOf(user, startDate, endDate);
    SortedPage(records, keep, NewestFirstKey, n);
    SortedPageSize(records, keep, NewestFirstKey, n);
    Take(SortBy(Filter(records, keep), NewestFirstKey), n)
  }

  /** The page is ordered newest first. */
  lemma NewestInRangeOrdered(records: seq<Emission>, user: UserId, startDate: Option<int>, endDate: Option<int>, n: nat)
    ensures var page := NewestInRange(records, user, startDate, endDate, n);
      forall i, j :: 0 <= i < j < |page| ==> page[i].timestamp >= page[j].timestamp
  {
    var page := NewestInRange(records, user, startDate, endDate, n);
    SortedPage(records, InRangeOf(user, startDate, endDate), NewestFirstKey, n);
    forall i, j | 0 <= i < j < |page| ensures page[i].timestamp >= page[j].timestamp {
      assert NewestFirstKey(page[i]) <= NewestFirstKey(page[j]);
    }
  }

  /** The page holds no sample more often than the matching samples do. */
  lemma NewestInRangeNoRepeats(records: seq<Emission>, user: UserId, startDate: Option<int>, endDate: Option<int>, n: nat)
    ensures multiset(NewestInRange(records, user, startDate, endDate, n))
         <= multiset(Filter(records, InRangeOf(user, startDate, endDate)))
  {
    SortedPageSize(records, InRangeOf(user, startDate, endDate), NewestFirstKey, n);
  }

  /** Every matching sample left off the page is no newer than any sample on it: when the
      cut bites, the page is the `n` newest matching samples. */
  lemma NewestInRangeTop(records: seq<Emission>, user: UserId, startDate: Option<int>, endDate: Option<int>, n: nat)
    ensures var page := NewestInRange(records, user, startDate, endDate, n);
      forall e, k :: e in records && InRange(e, user, startDate, endDate) && e !in page && 0 <= k < |page| ==>
        page[k].timestamp >= e.timestamp
  {
    var keep := InRangeOf(user, startDate, endDate);
    var page := NewestInRange(records, user, startDate, endDate, n);
    assert page == Take(SortBy(Filter(records, keep), NewestFirstKey), n);
    SortedPageTop(records, keep, NewestFirstKey, n);
    forall e, k | e in records && InRange(e, user, startDate, endDate) && e !in page && 0 <= k < |page|
      ensures page[k].timestamp >= e.timestamp
    {
      assert keep(e);
      assert NewestFirstKey(page[k]) <= NewestFirstKey(e);
    }
  }

  class EmissionStore {
    var records: seq<Emission>
    var nextId: nat

    ghost predicate Valid()
      reads this
    {
      && (forall e :: e in records ==> ValidEmission(e))
      && (forall k :: 0 <= k < |records| ==> records[k].id < nextId)
      && (forall i, j :: 0 <= i < j < |records| ==> records[i].id != records[j].id)
    }

    constructor()
      ensures Valid() && records == [] && nextId == 0
    {
      records := [];
      nextId := 0;
    }

    /** `POST /log`: stores the sample when the schema accepts it; otherwise nothing is
        stored and the validation error is reported. */
    method Log(user: UserId, req: LogRequest, now: int) returns (r: Result<Emission, SchemaError>)
      requires Valid()
      modifies this
      ensures Valid()
      ensures r == CreateEmission(LogDraft(user, req, now), old(nextId), now)
      ensures r.Failure? ==> records == old(records) && nextId == old(nextId)
      ensures r.Success? ==> records == old(records) + [r.value] && nextId == old(nextId) + 1
    {
      r := CreateEmission(LogDraft(user, req, now), nextId, now);
      if r.Success? {
        records := records + [r.value];
        nextId := nextId + 1;
      }
    }

    /** `GET /`: the requester's samples within the inclusive date bounds, newest first,
        at most `limit` of them (100 when omitted, all when 0). */
    function List(user: UserId, startDate: Option<int>, endDate: Option<int>, limit: Option<nat>): (l: EmissionListing)
      reads this
      ensures l.count == |l.emissions|
      ensures l.emissions == NewestInRange(records, user, startDate, endDate, limit.GetOr(100))
      ensures forall k :: 0 <= k < |l.emissions| ==>
        l.emissions[k] in records && InRange(l.emissions[k], user, startDate, endDate)
      ensures limit.GetOr(100) == 0 || Count(records, InRangeOf(user, startDate, endDate)) <= limit.GetOr(100) ==>
        forall e :: e in records && InRange(e, user, startDate, endDate) ==> e in l.emissions
    {
      var page := NewestInRange(records, user, startDate, endDate, limit.GetOr(100));
      EmissionListing(page, |page|)
    }

    /** `GET /stats`: the statistics over the period's window. */
    function Stats(user: UserId, period: Option<string>, now: int, cal: Calendar): (s: EmissionStats)
      reads this
      ensures s == StatsOf(records, user, WindowStart(period, now, cal), EchoedPeriod(period))
      ensures s.period == if period.Some? then period.value else "week"
      ensures s.sessionCount == |Matching(records, user, WindowStart(period, now, cal))|
    {
      StatsOf(records, user, WindowStart(period, now, cal), EchoedPeriod(period))
    }

    /** Position of the record with that id and owner, if any. */
    method FindOwned(id: nat, user: UserId) returns (found: Option<nat>)
      requires Valid()
      ensures found.None? <==> forall k :: 0 <= k < |records| ==> !(records[k].id == id && records[k].user == user)
      ensures found.Some? ==> found.value < |records| && records[found.value].id == id && records[found.value].user == user
    {
      var k := 0;
      while k < |records|
        invariant 0 <= k <= |records|
        invariant forall m :: 0 <= m < k ==> !(records[m].id == id && records[m].user == user)
      {
        if records[k].id == id && records[k].user == user {
          return Some(k);
        }
        k := k + 1;
      }
      return None;
    }

    /** `DELETE /:id`: removes the record only when it belongs to the requester; an
        unknown id or another user's record leaves the store unchanged (404). */
    method Delete(id: nat, user: UserId) returns (deleted: bool)
      requires Valid()
      modifies this
      ensures Valid()
      ensures nextId == old(nextId)
      ensures deleted <==> exists k :: 0 <= k < |old(records)| && old(records)[k].id == id && old(records)[k].user == user
      ensures !deleted ==> records == old(records)
      ensures deleted ==>
        && |records| == |old(records)| - 1
        && (forall e :: e in records <==> e in old(records) && e.id != id)
    {
      var found := FindOwned(id, user);
      if found.None? {
        return false;
      }
      var k := found.value;
      var before := records;
      RemovedKeepsStore(before, k, nextId);
      records := before[..k] + before[k + 1..];
      forall e ensures e in records <==> e in before && e.id != id {
        RemovedMembers(before, k, e);
      }
      return true;
    }
  }
}
