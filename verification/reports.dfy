/** The report routes: the per-period summary of local emissions against cloud savings,
    the thirty-day insight cards, and the thirty-day day-by-day progress table. */
module Reports {
  import opened Common
  import opened CloudWorkloadModel
  import opened EmissionModel
  import opened Periods
  import opened EmissionRoutes

  /** The requester's workloads started since `start`, in store order. */
  function RecentWorkloads(ws: seq<CloudWorkload>, user: UserId, start: int): (m: seq<CloudWorkload>)
    ensures forall w :: w in m <==> w in ws && w.user == user && w.startTime >= start
  {
    Filter(ws, (w: CloudWorkload) => w.user == user && w.startTime >= start)
  }

  function TotalSavings(ws: seq<CloudWorkload>): real {
    Sum(ws, (w: CloudWorkload) => w.savingsGCO2)
  }

  function TotalCost(ws: seq<CloudWorkload>): real {
    Sum(ws, (w: CloudWorkload) => w.estimatedCost)
  }

  // ---------------------------------------------------------------------------
  // Summary.
  // ---------------------------------------------------------------------------

  datatype Summary = Summary(
    period: string,
    totalEmissions: real,
    totalEnergy: real,
    sessionCount: nat,
    totalSavings: real,
    totalCost: real,
    workloadCount: nat,
    netEmissions: real)

  /** Local totals over the requester's samples, cloud totals over the requester's
      workloads, both since `start`; each side is all zeros when nothing matches. */
  function SummaryOf(es: seq<Emission>, ws: seq<CloudWorkload>, user: UserId, start: int, period: string): (s: Summary)
    ensures s.period == period
    ensures s.netEmissions == s.totalEmissions - s.totalSavings
    ensures s.sessionCount == |Matching(es, user, start)|
    ensures s.workloadCount == |RecentWorkloads(ws, user, start)|
    ensures s.totalEmissions == TotalEmissions(Matching(es, user, start))
    ensures s.totalEnergy == TotalEnergy(Matching(es, user, start))
    ensures s.totalSavings == TotalSavings(RecentWorkloads(ws, user, start))
    ensures s.totalCost == TotalCost(RecentWorkloads(ws, user, start))
    ensures s.sessionCount == 0 ==> s.totalEmissions == 0.0 && s.totalEnergy == 0.0
    ensures s.workloadCount == 0 ==> s.totalSavings == 0.0 && s.totalCost == 0.0
  {
    var local := Matching(es, user, start);
    var cloud := RecentWorkloads(ws, user, start);
    var totalEmissions := TotalEmissions(local);
    var totalSavings := TotalSavings(cloud);
    Summary(period, totalEmissions, TotalEnergy(local), |local|,
            totalSavings, TotalCost(cloud), |cloud|,
            totalEmissions - totalSavings)
  }

  /** `GET /summary`: the summary over the period's window. */
  function SummaryReport(es: seq<Emission>, ws: seq<CloudWorkload>, user: UserId,
                         period: Option<string>, now: int, cal: Calendar): (s: Summary)
    ensures s == SummaryOf(es, ws, user, WindowStart(period, now, cal), EchoedPeriod(period))
    ensures s.period == if period.Some? then period.value else "week"
    ensures s.netEmissions == s.totalEmissions - s.totalSavings
  {
    SummaryOf(es, ws, user, WindowStart(period, now, cal), EchoedPeriod(period))
  }

  /** Another user's sample and another user's workload never change a summary. */
  lemma SummaryIgnoresOtherUsers(es: seq<Emission>, ws: seq<CloudWorkload>, user: UserId, start: int,
                                 period: string, e: Emission, w: CloudWorkload)
    requires e.user != user && w.user != user
    ensures SummaryOf(es + [e], ws + [w], user, start, period) == SummaryOf(es, ws, user, start, period)
  {
    FilterAppend(es, [e], (e: Emission) => e.user == user && e.timestamp >= start);
    FilterAppend(ws, [w], (w: CloudWorkload) => w.user == user && w.startTime >= start);
    assert Matching(es + [e], user, start) == Matching(es, user, start);
    assert RecentWorkloads(ws + [w], user, start) == RecentWorkloads(ws, user, start);
  }

  // ---------------------------------------------------------------------------
  // Insights.
  // ---------------------------------------------------------------------------

  datatype Trend = High | Moderate | Positive | Neutral

  datatype Insight =
    | TotalInsight(totalEmissions: real, trend: Trend)
    | SavingsInsight(totalSavings: real, trend: Trend)
    | AverageInsight(averageDaily: real, trend: Trend)
    | CloudInsight(provider: Provider, workloadCount: nat, trend: Trend)

  lemma ProviderCountAppend(ws: seq<CloudWorkload>, w: CloudWorkload, p: Provider)
    ensures ProviderCount(ws + [w], p) == ProviderCount(ws, p) + (if w.cloudProvider == p then 1 else 0)
  {
    FilterAppend(ws, [w], (w: CloudWorkload) => w.cloudProvider == p);
  }

  /** The per-provider counts of a prefix of the workloads, keyed in order of first
      appearance: the accumulator of the provider-count reduce. */
  ghost predicate CountsOf(ws: seq<CloudWorkload>, counts: map<Provider, nat>, order: seq<Provider>) {
    && (forall p :: p in counts <==> p in order)
    && (forall p :: p in counts ==> counts[p] == ProviderCount(ws, p) && counts[p] > 0)
    && (forall p :: p !in counts ==> ProviderCount(ws, p) == 0)
  }

  /** Counting one more workload of a provider already seen. */
  lemma CountStepSeen(ws: seq<CloudWorkload>, w: CloudWorkload, counts: map<Provider, nat>, order: seq<Provider>)
    requires CountsOf(ws, counts, order) && w.cloudProvider in counts
    ensures CountsOf(ws + [w], counts[w.cloudProvider := counts[w.cloudProvider] + 1], order)
  {
    var next := counts[w.cloudProvider := counts[w.cloudProvider] + 1];
    forall q | q in next ensures next[q] == ProviderCount(ws + [w], q) && next[q] > 0 {
      ProviderCountAppend(ws, w, q);
    }
    forall q | q !in next ensures ProviderCount(ws + [w], q) == 0 {
      ProviderCountAppend(ws, w, q);
    }
  }

  /** Counting the first workload of a provider: it is keyed after the earlier ones. */
  lemma CountStepNew(ws: seq<CloudWorkload>, w: CloudWorkload, counts: map<Provider, nat>, order: seq<Provider>)
    requires CountsOf(ws, counts, order) && w.cloudProvider !in counts
    ensures CountsOf(ws + [w], counts[w.cloudProvider := 1], order + [w.cloudProvider])
  {
    var next := counts[w.cloudProvider := 1];
    forall q | q in next ensures next[q] == ProviderCount(ws + [w], q) && next[q] > 0 {
      ProviderCountAppend(ws, w, q);
    }
    forall q | q !in next ensures ProviderCount(ws + [w], q) == 0 {
      ProviderCountAppend(ws, w, q);
    }
    assert forall q :: q in next <==> q in order + [w.cloudProvider];
  }

  /** The provider-count reduce: per-provider counts, keyed in order of first appearance. */
  method CountProviders(ws: seq<CloudWorkload>) returns (counts: map<Provider, nat>, order: seq<Provider>)
    ensures CountsOf(ws, counts, order)
    ensures ws != [] ==> order != []
  {
    counts := map[];
    order := [];
    var i := 0;
    while i < |ws|
      invariant 0 <= i <= |ws|
      invariant CountsOf(ws[..i], counts, order)
      invariant i > 0 ==> order != []
    {
      var p := ws[i].cloudProvider;
      assert ws[..i + 1] == ws[..i] + [ws[i]];
      if p in counts {
        CountStepSeen(ws[..i], ws[i], counts, order);
        counts := counts[p := counts[p] + 1];
      } else {
        CountStepNew(ws[..i], ws[i], counts, order);
        counts := counts[p := 1];
        order := order + [p];
      }
      i := i + 1;
    }
    assert ws[..i] == ws;
  }

  /** The first key of `order` with the largest count: a linear scan that keeps the
      current best and replaces it only by a strictly larger count. */
  method ArgMax(counts: map<Provider, nat>, order: seq<Provider>) returns (best: Provider, bestCount: nat)
    requires order != [] && forall k :: 0 <= k < |order| ==> order[k] in counts
    ensures best in order && bestCount == counts[best]
    ensures forall k :: 0 <= k < |order| ==> counts[order[k]] <= bestCount
  {
    best := order[0];
    bestCount := counts[best];
    var j := 1;
    while j < |order|
      invariant 1 <= j <= |order|
      invariant best in order && bestCount == counts[best]
      invariant forall k :: 0 <= k < j ==> counts[order[k]] <= bestCount
    {
      if counts[order[j]] > bestCount {
        best := order[j];
        bestCount := counts[best];
      }
      j := j + 1;
    }
  }

  /** The largest count over the keys is the largest per-provider count of the workloads. */
  lemma BestOfCounts(ws: seq<CloudWorkload>, counts: map<Provider, nat>, order: seq<Provider>,
                     best: Provider, bestCount: nat)
    requires CountsOf(ws, counts, order)
    requires best in order && bestCount == counts[best]
    requires forall k :: 0 <= k < |order| ==> counts[order[k]] <= bestCount
    ensures bestCount == ProviderCount(ws, best) && bestCount > 0
    ensures forall q :: ProviderCount(ws, q) <= bestCount
  {
    forall q ensures ProviderCount(ws, q) <= bestCount {
      if q in counts {
        assert q in order;
        var k :| 0 <= k < |order| && order[k] == q;
        assert counts[q] <= bestCount;
      }
    }
  }

  /** The provider with the most workloads: the counts sorted by decreasing count, and the
      first entry taken; among equal counts the earlier key stays first. */
  method MostUsedProvider(ws: seq<CloudWorkload>) returns (best: Provider, bestCount: nat)
    requires ws != []
    ensures bestCount == ProviderCount(ws, best) && bestCount > 0
    ensures forall q :: ProviderCount(ws, q) <= bestCount
  {
    var counts, order := CountProviders(ws);
    assert forall k :: 0 <= k < |order| ==> order[k] in counts;
    best, bestCount := ArgMax(counts, order);
    BestOfCounts(ws, counts, order, best, bestCount);
  }

  /** `GET /insights` over the last thirty days: the total card, the savings card when
      the summed savings are positive, the daily-average card, and the most-used-provider
      card when there is at least one workload, in that order. */
  method Insights(es: seq<Emission>, ws: seq<CloudWorkload>, user: UserId, now: int)
    returns (insights: seq<Insight>)
    ensures
      var recentEs := Matching(es, user, ThirtyDaysBack(now));
      var recentWs := RecentWorkloads(ws, user, ThirtyDaysBack(now));
      var total := TotalEmissions(recentEs);
      var savings := TotalSavings(recentWs);
      var average := total / 30.0;
      && |insights| == (if savings > 0.0 then 3 else 2) + (if recentWs != [] then 1 else 0)
      && insights[0] == TotalInsight(total, if total > 1000.0 then High else Moderate)
      && (savings > 0.0 ==> insights[1] == SavingsInsight(savings, Positive))
      && insights[if savings > 0.0 then 2 else 1]
           == AverageInsight(average, if average > 50.0 then High else Moderate)
      && (recentWs != [] ==>
            var last := insights[|insights| - 1];
            && last.CloudInsight? && last.trend == Neutral
            && last.workloadCount == ProviderCount(recentWs, last.provider)
            && last.workloadCount > 0
            && (forall q :: ProviderCount(recentWs, q) <= last.workloadCount))
      && (insights[if savings > 0.0 then 2 else 1].trend == High ==> insights[0].trend == High)
  {
    var start := ThirtyDaysBack(now);
    var recentEs := Matching(es, user, start);
    var recentWs := RecentWorkloads(ws, user, start);
    var total := TotalEmissions(recentEs);
    var savings := TotalSavings(recentWs);
    var average := total / 30.0;
    var totalCard := TotalInsight(total, if total > 1000.0 then High else Moderate);
    var averageCard := AverageInsight(average, if average > 50.0 then High else Moderate);
    if average > 50.0 {
      AverageHighImpliesTotalHigh(total);
    }
    if savings > 0.0 {
      insights := [totalCard, SavingsInsight(savings, Positive), averageCard];
    } else {
      insights := [totalCard, averageCard];
    }
    if recentWs != [] {
      var provider, n := MostUsedProvider(recentWs);
      insights := insights + [CloudInsight(provider, n, Neutral)];
    }
  }

  /** A high daily average implies a high total: 30 days above 50 exceed 1000. */
  lemma AverageHighImpliesTotalHigh(total: real)
    requires total / 30.0 > 50.0
    ensures total > 1000.0
  {
  }

  // ---------------------------------------------------------------------------
  // Progress.
  // ---------------------------------------------------------------------------

  /** The UTC calendar day of an instant: what `%Y-%m-%d` formatting groups by. */
  function DayOf(t: int): int {
    t / DayMs
  }

  predicate StrictlyAscending(days: seq<int>) {
    forall i, j :: 0 <= i < j < |days| ==> days[i] < days[j]
  }

  /** Inserts a day into an ascending list of days, unless it is already there. */
  function InsertDay(d: int, days: seq<int>): seq<int> {
    if days == [] then [d]
    else if d < days[0] then [d] + days
    else if d == days[0] then days
    else [days[0]] + InsertDay(d, days[1..])
  }

  /** Inserting a day keeps the days strictly ascending and adds exactly that day. */
  lemma {:induction false} InsertDaySorted(d: int, days: seq<int>)
    requires StrictlyAscending(days)
    ensures StrictlyAscending(InsertDay(d, days))
    ensures forall x :: x in InsertDay(d, days) <==> x == d || x in days
    decreases |days|
  {
    var r := InsertDay(d, days);
    if days == [] {
    } else if d < days[0] {
      assert forall i :: 1 <= i < |r| ==> r[i] == days[i - 1];
    } else if d > days[0] {
      var tail := days[1..];
      assert days == [days[0]] + tail;
      assert StrictlyAscending(tail);
      InsertDaySorted(d, tail);
      var rest := InsertDay(d, tail);
      assert r == [days[0]] + rest;
      forall i | 1 <= i < |r| ensures days[0] < r[i] {
        var x := rest[i - 1];
        assert r[i] == x && x in rest;
        if x != d {
          var k :| 0 <= k < |tail| && tail[k] == x;
          assert days[k + 1] == x;
        }
      }
    }
  }

  /** The days on which the samples were taken. */
  function SampleDays(es: seq<Emission>): set<int> {
    set e | e in es :: DayOf(e.timestamp)
  }

  /** The distinct days of the samples, ascending. */
  function DistinctDays(es: seq<Emission>): (r: seq<int>)
    ensures StrictlyAscending(r)
    ensures forall d :: d in r <==> d in SampleDays(es)
  {
    if es == [] then []
    else
      assert es == [es[0]] + es[1..];
      assert SampleDays(es) == {DayOf(es[0].timestamp)} + SampleDays(es[1..]);
      InsertDaySorted(DayOf(es[0].timestamp), DistinctDays(es[1..]));
      InsertDay(DayOf(es[0].timestamp), DistinctDays(es[1..]))
  }

  function OnDay(es: seq<Emission>, d: int): (r: seq<Emission>)
    ensures forall e :: e in r <==> e in es && DayOf(e.timestamp) == d
  {
    Filter(es, (e: Emission) => DayOf(e.timestamp) == d)
  }

  datatype DayTotal = DayTotal(day: int, emissions: real, energy: real, count: nat)

  /** One group per listed day: the day's summed emissions and energy and its count. */
  function TotalsFor(days: seq<int>, es: seq<Emission>): (groups: seq<DayTotal>)
    ensures |groups| == |days|
    ensures forall k :: 0 <= k < |days| ==>
      groups[k] == DayTotal(days[k], TotalEmissions(OnDay(es, days[k])),
                            Sum(OnDay(es, days[k]), (e: Emission) => e.energyKWh),
                            |OnDay(es, days[k])|)
  {
    if days == [] then []
    else
      [DayTotal(days[0], TotalEmissions(OnDay(es, days[0])),
                Sum(OnDay(es, days[0]), (e: Emission) => e.energyKWh), |OnDay(es, days[0])|)]
        + TotalsFor(days[1..], es)
  }

  function GroupDays(groups: seq<DayTotal>): (r: seq<int>)
    ensures |r| == |groups|
    ensures forall k :: 0 <= k < |groups| ==> r[k] == groups[k].day
  {
    seq(|groups|, k requires 0 <= k < |groups| => groups[k].day)
  }

  /** The store's group-by-day stage followed by its ascending sort on the day key: one
      group per day that has samples, and no other. */
  function DailyTotals(es: seq<Emission>): (groups: seq<DayTotal>)
    ensures StrictlyAscending(GroupDays(groups))
    ensures forall d :: d in GroupDays(groups) <==> d in SampleDays(es)
    ensures forall k :: 0 <= k < |groups| ==> groups[k].count > 0
  {
    var days := DistinctDays(es);
    var groups := TotalsFor(days, es);
    assert GroupDays(groups) == days;
    forall k | 0 <= k < |groups| ensures groups[k].count > 0 {
      assert days[k] in SampleDays(es);
      var e :| e in es && DayOf(e.timestamp) == days[k];
      assert e in OnDay(es, days[k]);
    }
    groups
  }

  function DayEmissions(g: DayTotal): real {
    g.emissions
  }

  /** One sample's contribution to the per-day totals: it lands in exactly one group. */
  lemma {:induction false} TotalsForCons(days: seq<int>, e: Emission, rest: seq<Emission>)
    requires forall i, j :: 0 <= i < j < |days| ==> days[i] != days[j]
    ensures Sum(TotalsFor(days, [e] + rest), DayEmissions)
         == (if DayOf(e.timestamp) in days then e.emissionsGCO2 else 0.0)
            + Sum(TotalsFor(days, rest), DayEmissions)
  {
    if days != [] {
      var d := days[0];
      var s := [e] + rest;
      var here: seq<Emission> := if DayOf(e.timestamp) == d then [e] else [];
      OnDayCons(e, rest, d);
      SumAppend(here, OnDay(rest, d), (e: Emission) => e.emissionsGCO2);
      DistinctTail(days);
      TotalsForCons(days[1..], e, rest);
      assert TotalsFor(days, s)[1..] == TotalsFor(days[1..], s);
      assert TotalsFor(days, rest)[1..] == TotalsFor(days[1..], rest);
      assert days == [d] + days[1..];
    }
  }

  /** The samples of a day, with one more sample in front. */
  lemma OnDayCons(e: Emission, rest: seq<Emission>, d: int)
    ensures OnDay([e] + rest, d) == (if DayOf(e.timestamp) == d then [e] else []) + OnDay(rest, d)
  {
    var keep := (e: Emission) => DayOf(e.timestamp) == d;
    FilterAppend([e], rest, keep);
    assert [e][1..] == [];
  }

  /** In a list of distinct days, the tail avoids the head and stays distinct. */
  lemma DistinctTail(days: seq<int>)
    requires days != [] && forall i, j :: 0 <= i < j < |days| ==> days[i] != days[j]
    ensures forall x :: x in days[1..] ==> x != days[0]
    ensures forall i, j :: 0 <= i < j < |days[1..]| ==> days[1..][i] != days[1..][j]
  {
    forall x | x in days[1..] ensures x != days[0] {
      var k :| 0 <= k < |days[1..]| && days[1..][k] == x;
      assert days[k + 1] == x;
    }
  }

  lemma {:induction false} TotalsForEmpty(days: seq<int>)
    ensures Sum(TotalsFor(days, []), DayEmissions) == 0.0
  {
    if days != [] {
      TotalsForEmpty(days[1..]);
      assert TotalsFor(days, [])[1..] == TotalsFor(days[1..], []);
    }
  }

  /** The day groups partition the samples: the per-day emissions add up to the total
      over every day the samples cover. */
  lemma {:induction false} DailyTotalsPartition(days: seq<int>, es: seq<Emission>)
    requires forall i, j :: 0 <= i < j < |days| ==> days[i] != days[j]
    requires forall e :: e in es ==> DayOf(e.timestamp) in days
    ensures Sum(TotalsFor(days, es), DayEmissions) == TotalEmissions(es)
  {
    if es == [] {
      TotalsForEmpty(days);
    } else {
      assert es == [es[0]] + es[1..];
      TotalsForCons(days, es[0], es[1..]);
      DailyTotalsPartition(days, es[1..]);
    }
  }

  /** The progress table's emissions column adds up to the thirty-day total. */
  lemma DailyTotalsSumToTotal(es: seq<Emission>)
    ensures Sum(DailyTotals(es), DayEmissions) == TotalEmissions(es)
  {
    var days := DistinctDays(es);
    assert forall e :: e in es ==> DayOf(e.timestamp) in SampleDays(es);
    DailyTotalsPartition(days, es);
  }

  function WorkloadsOnDay(ws: seq<CloudWorkload>, d: int): (r: seq<CloudWorkload>)
    ensures forall w :: w in r <==> w in ws && DayOf(w.startTime) == d
  {
    Filter(ws, (w: CloudWorkload) => DayOf(w.startTime) == d)
  }

  /** The savings of the workloads started on day `d`; 0 when there are none. */
  function DaySavings(ws: seq<CloudWorkload>, d: int): real {
    TotalSavings(WorkloadsOnDay(ws, d))
  }

  lemma DaySavingsAppend(ws: seq<CloudWorkload>, w: CloudWorkload, d: int)
    ensures DaySavings(ws + [w], d) == DaySavings(ws, d) + (if DayOf(w.startTime) == d then w.savingsGCO2 else 0.0)
  {
    FilterAppend(ws, [w], (w: CloudWorkload) => DayOf(w.startTime) == d);
    SumAppend(WorkloadsOnDay(ws, d), WorkloadsOnDay([w], d), (w: CloudWorkload) => w.savingsGCO2);
  }

  /** A day on which no workload started has no savings. */
  lemma NoWorkloadsNoSavings(ws: seq<CloudWorkload>, d: int)
    requires forall w :: w in ws ==> DayOf(w.startTime) != d
    ensures DaySavings(ws, d) == 0.0
  {
    FilterNone(ws, (w: CloudWorkload) => DayOf(w.startTime) == d);
  }

  /** The days on which the workloads started. */
  function StartDays(ws: seq<CloudWorkload>): set<int> {
    set w | w in ws :: DayOf(w.startTime)
  }

  /** The savings-map accumulator for a prefix of the workloads. */
  ghost predicate SavingsMapOf(ws: seq<CloudWorkload>, m: map<int, real>) {
    && m.Keys == StartDays(ws)
    && forall d :: d in m ==> m[d] == DaySavings(ws, d)
  }

  /** One workload's savings added under its start day. */
  function AddSavings(m: map<int, real>, w: CloudWorkload): map<int, real> {
    var d := DayOf(w.startTime);
    m[d := (if d in m then m[d] else 0.0) + w.savingsGCO2]
  }

  lemma StartDaysAppend(ws: seq<CloudWorkload>, w: CloudWorkload)
    ensures StartDays(ws + [w]) == StartDays(ws) + {DayOf(w.startTime)}
  {
    assert forall v :: v in ws + [w] <==> v in ws || v == w;
  }

  lemma SavingsStep(ws: seq<CloudWorkload>, w: CloudWorkload, m: map<int, real>)
    requires SavingsMapOf(ws, m)
    ensures SavingsMapOf(ws + [w], AddSavings(m, w))
  {
    var next := AddSavings(m, w);
    StartDaysAppend(ws, w);
    assert next.Keys == StartDays(ws + [w]);
    forall x | x in next ensures next[x] == DaySavings(ws + [w], x) {
      AddSavingsAt(ws, w, m, x);
    }
  }

  /** One entry of the accumulator after a workload is added. */
  lemma AddSavingsAt(ws: seq<CloudWorkload>, w: CloudWorkload, m: map<int, real>, x: int)
    requires SavingsMapOf(ws, m)
    requires x in AddSavings(m, w)
    ensures AddSavings(m, w)[x] == DaySavings(ws + [w], x)
  {
    DaySavingsAppend(ws, w, x);
    if x !in m {
      assert forall v :: v in ws ==> DayOf(v.startTime) != x by {
        forall v | v in ws ensures DayOf(v.startTime) != x {
          assert DayOf(v.startTime) in StartDays(ws);
        }
      }
      NoWorkloadsNoSavings(ws, x);
    }
  }

  /** The savings map: workload savings accumulated under their start day. A day is a
      key exactly when some workload started on it. */
  method SavingsByDay(ws: seq<CloudWorkload>) returns (m: map<int, real>)
    ensures m.Keys == StartDays(ws)
    ensures forall d :: d in m ==> m[d] == DaySavings(ws, d)
  {
    m := map[];
    var i := 0;
    while i < |ws|
      invariant 0 <= i <= |ws|
      invariant SavingsMapOf(ws[..i], m)
    {
      assert ws[..i + 1] == ws[..i] + [ws[i]];
      SavingsStep(ws[..i], ws[i], m);
      m := AddSavings(m, ws[i]);
      i := i + 1;
    }
    assert ws[..i] == ws;
  }

  /** Looking a day up in the savings map, with 0 for a missing key, gives that day's savings. */
  lemma SavingsLookup(ws: seq<CloudWorkload>, m: map<int, real>, d: int)
    requires m.Keys == StartDays(ws)
    requires forall x :: x in m ==> m[x] == DaySavings(ws, x)
    ensures (if d in m then m[d] else 0.0) == DaySavings(ws, d)
  {
    if d !in m {
      assert forall w :: w in ws ==> DayOf(w.startTime) != d by {
        forall w | w in ws ensures DayOf(w.startTime) != d {
          assert DayOf(w.startTime) in StartDays(ws);
        }
      }
      NoWorkloadsNoSavings(ws, d);
    }
  }

  datatype ProgressEntry = ProgressEntry(day: int, emissions: real, savings: real, net: real, sessions: nat)

  /** A progress row for one day group: the group's emissions and sample count, the
      savings of the workloads started that day, and emissions minus savings. */
  ghost predicate RowFor(row: ProgressEntry, g: DayTotal, ws: seq<CloudWorkload>) {
    && row.day == g.day
    && row.emissions == g.emissions
    && row.sessions == g.count
    && row.savings == DaySavings(ws, g.day)
    && row.net == row.emissions - row.savings
  }

  /** One row per day group, in order, each with that day's savings looked up in the map. */
  method Rows(groups: seq<DayTotal>, ws: seq<CloudWorkload>, savingsMap: map<int, real>)
    returns (entries: seq<ProgressEntry>)
    requires savingsMap.Keys == StartDays(ws)
    requires forall x :: x in savingsMap ==> savingsMap[x] == DaySavings(ws, x)
    ensures |entries| == |groups|
    ensures forall k :: 0 <= k < |entries| ==> RowFor(entries[k], groups[k], ws)
  {
    entries := [];
    var k := 0;
    while k < |groups|
      invariant 0 <= k <= |groups|
      invariant |entries| == k
      invariant forall m :: 0 <= m < k ==> RowFor(entries[m], groups[m], ws)
    {
      var g := groups[k];
      var saved := if g.day in savingsMap then savingsMap[g.day] else 0.0;
      SavingsLookup(ws, savingsMap, g.day);
      entries := entries + [ProgressEntry(g.day, g.emissions, saved, g.emissions - saved, g.count)];
      k := k + 1;
    }
  }

  /** `GET /progress` over the last thirty days: one row per day with samples, ascending,
      with that day's workload savings (0 when none) and the net of the two. Days with
      savings but no samples get no row. */
  method Progress(es: seq<Emission>, ws: seq<CloudWorkload>, user: UserId, now: int)
    returns (entries: seq<ProgressEntry>)
    ensures
      var recentEs := Matching(es, user, ThirtyDaysBack(now));
      var recentWs := RecentWorkloads(ws, user, ThirtyDaysBack(now));
      var groups := DailyTotals(recentEs);
      && |entries| == |groups|
      && (forall k :: 0 <= k < |entries| ==> RowFor(entries[k], groups[k], recentWs))
  {
    var start := ThirtyDaysBack(now);
    var groups := DailyTotals(Matching(es, user, start));
    var recentWs := RecentWorkloads(ws, user, start);
    var savingsMap := SavingsByDay(recentWs);
    entries := Rows(groups, recentWs, savingsMap);
  }
}
