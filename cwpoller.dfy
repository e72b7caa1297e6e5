/** The CloudWatch poller of a Service Quotas spoke
    (services/cwPoller/exports.ts): builds the metric queries for the
    monitored quotas, fetches them in batches, turns each utilization value
    into an OK/WARN/ERROR event and forwards the events to the bus. */
module CwPoller {
  import opened Common
  import SQ = ServiceQuotas
  import Events

  /** getFrequencyInHours */
  function FrequencyInHours(rate: Option<string>): (h: nat)
    ensures h == 6 <==> rate == Some("rate(6 hours)")
    ensures h == 12 <==> rate == Some("rate(12 hours)")
    ensures h == 6 || h == 12 || h == 24
  {
    if rate == Some("rate(6 hours)") then 6
    else if rate == Some("rate(12 hours)") then 12
    else 24
  }

  // ---------------------------------------------------------------------
  // Query generation
  // ---------------------------------------------------------------------

  /** The queries generateCWQueriesForAllQuotas collects: two per quota whose
      generation succeeds, none for the others. */
  function AllQueries(quotas: seq<SQ.Quota>): seq<SQ.MetricDataQuery> {
    if |quotas| == 0 then []
    else
      var q := SQ.GenerateCWQuery(quotas[|quotas| - 1], 3600);
      AllQueries(quotas[..|quotas| - 1]) + (if q.Ok? then q.value else [])
  }

  function CountGenerated(quotas: seq<SQ.Quota>): nat {
    if |quotas| == 0 then 0
    else CountGenerated(quotas[..|quotas| - 1]) + (if SQ.GenerateCWQuery(quotas[|quotas| - 1], 3600).Ok? then 1 else 0)
  }

  /** Exactly two queries per quota whose generation succeeds. */
  lemma {:induction false} AllQueriesCount(quotas: seq<SQ.Quota>)
    ensures |AllQueries(quotas)| == 2 * CountGenerated(quotas)
  {
    if |quotas| > 0 {
      AllQueriesCount(quotas[..|quotas| - 1]);
      SQ.GenerateCWQuerySpec(quotas[|quotas| - 1], 3600);
    }
  }

  /** generateCWQueriesForAllQuotas: a quota whose query generation throws
      is skipped. */
  method GenerateCWQueriesForAllQuotas(quotas: seq<SQ.Quota>) returns (queries: seq<SQ.MetricDataQuery>)
    ensures queries == AllQueries(quotas)
  {
    queries := [];
    var i := 0;
    while i < |quotas|
      invariant 0 <= i <= |quotas|
      invariant queries == AllQueries(quotas[..i])
    {
      assert quotas[..i + 1][..i] == quotas[..i];
      var q := SQ.GenerateCWQuery(quotas[i], 3600);
      if q.Ok? {
        queries := queries + q.value;
      }
      i := i + 1;
    }
    assert quotas[..|quotas|] == quotas;
  }

  /** generateMetricQueryIdMap: every quota is stored under its query id, a
      later quota overwriting an earlier one with the same id. `idOf` stands
      for ServiceQuotasHelper.generateMetricQueryId, whose source is not
      part of this model. */
  method GenerateMetricQueryIdMap(quotas: seq<SQ.Quota>, idOf: SQ.Quota -> string)
    returns (dict: map<string, SQ.Quota>)
    ensures forall i :: 0 <= i < |quotas| ==> idOf(quotas[i]) in dict
    ensures forall k :: k in dict ==>
      exists i :: 0 <= i < |quotas| && idOf(quotas[i]) == k && dict[k] == quotas[i]
                  && forall j :: i < j < |quotas| ==> idOf(quotas[j]) != k
  {
    dict := map[];
    for n := 0 to |quotas|
      invariant forall i :: 0 <= i < n ==> idOf(quotas[i]) in dict
      invariant forall k :: k in dict ==>
        exists i :: 0 <= i < n && idOf(quotas[i]) == k && dict[k] == quotas[i]
                    && forall j :: i < j < n ==> idOf(quotas[j]) != k
    {
      dict := dict[idOf(quotas[n]) := quotas[n]];
    }
  }

  // ---------------------------------------------------------------------
  // Fetching metric data in batches
  // ---------------------------------------------------------------------

  datatype MetricDataResult = MetricDataResult(id: string, values: Option<seq<real>>, timestamps: Option<seq<string>>)

  const BatchSize := 100

  /** The caller's query array: batching empties it with splice. */
  class QueryArray {
    var items: seq<SQ.MetricDataQuery>

    constructor (items: seq<SQ.MetricDataQuery>)
      ensures this.items == items
    {
      this.items := items;
    }

    /** batchQueries: `splice(0, 100)` until the array is empty. */
    method BatchQueries() returns (batches: seq<seq<SQ.MetricDataQuery>>)
      modifies this
      ensures batches == Chunks(old(items), BatchSize)
      ensures items == []
    {
      batches := [];
      while |items| > 0
        invariant batches + Chunks(items, BatchSize) == Chunks(old(items), BatchSize)
        decreases |items|
      {
        var n := Min(BatchSize, |items|);
        var batch := items[..n];
        if |items| <= BatchSize {
          assert items[..n] == items;
        }
        items := items[n..];
        batches := batches + [batch];
      }
    }
  }

  /** What the CloudWatch call gives for a batch. */
  type Fetch = seq<SQ.MetricDataQuery> -> Result<seq<MetricDataResult>>

  predicate IsCloudWatchServiceException(e: Error) {
    e == ServiceError("CloudWatchServiceException")
  }

  /** Results of the batches in order: a batch failing with a
      CloudWatchServiceException contributes nothing, any other error ends
      the whole call. */
  function FetchAll(batches: seq<seq<SQ.MetricDataQuery>>, fetch: Fetch): Result<seq<MetricDataResult>> {
    if |batches| == 0 then Ok([])
    else
      var r := fetch(batches[0]);
      if r.Err? && !IsCloudWatchServiceException(r.error) then Err(r.error)
      else
        var rest :- FetchAll(batches[1..], fetch);
        Ok((if r.Ok? then r.value else []) + rest)
  }

  predicate FetchFatal(b: seq<SQ.MetricDataQuery>, fetch: Fetch) {
    fetch(b).Err? && !IsCloudWatchServiceException(fetch(b).error)
  }

  function Gathered(batches: seq<seq<SQ.MetricDataQuery>>, fetch: Fetch): seq<MetricDataResult> {
    if |batches| == 0 then []
    else (if fetch(batches[0]).Ok? then fetch(batches[0]).value else []) + Gathered(batches[1..], fetch)
  }

  /** The call fails iff some batch fails with an error other than a
      CloudWatchServiceException; otherwise it yields the results of the
      successful batches, concatenated in batch order. */
  lemma {:induction false} FetchAllSpec(batches: seq<seq<SQ.MetricDataQuery>>, fetch: Fetch)
    ensures FetchAll(batches, fetch).Err? <==> exists i :: 0 <= i < |batches| && FetchFatal(batches[i], fetch)
    ensures FetchAll(batches, fetch).Ok? ==> FetchAll(batches, fetch).value == Gathered(batches, fetch)
  {
    if |batches| > 0 {
      FetchAllSpec(batches[1..], fetch);
      if exists i :: 0 <= i < |batches[1..]| && FetchFatal(batches[1..][i], fetch) {
        var i :| 0 <= i < |batches[1..]| && FetchFatal(batches[1..][i], fetch);
        assert FetchFatal(batches[i + 1], fetch);
      }
      if exists i :: 0 <= i < |batches| && FetchFatal(batches[i], fetch) {
        var i :| 0 <= i < |batches| && FetchFatal(batches[i], fetch);
        if i > 0 { assert FetchFatal(batches[1..][i - 1], fetch); }
      }
    }
  }

  function Prepend(done: seq<MetricDataResult>, rest: Result<seq<MetricDataResult>>): Result<seq<MetricDataResult>> {
    if rest.Ok? then Ok(done + rest.value) else rest
  }

  /** getCWDataForQuotaUtilization: the caller's array is emptied up front,
      then one fetch per batch of at most 100 queries. */
  method GetCWDataForQuotaUtilization(queries: QueryArray, fetch: Fetch) returns (r: Result<seq<MetricDataResult>>)
    modifies queries
    ensures queries.items == []
    ensures r == FetchAll(Chunks(old(queries.items), BatchSize), fetch)
  {
    var batches := queries.BatchQueries();
    var all: seq<MetricDataResult> := [];
    var i := 0;
    assert batches[0..] == batches;
    assert FetchAll(batches, fetch).Ok? ==> [] + FetchAll(batches, fetch).value == FetchAll(batches, fetch).value;
    while i < |batches|
      invariant 0 <= i <= |batches|
      invariant FetchAll(batches, fetch) == Prepend(all, FetchAll(batches[i..], fetch))
    {
      assert batches[i..][1..] == batches[i + 1..];
      assert batches[i..][0] == batches[i];
      var d := fetch(batches[i]);
      var rest := FetchAll(batches[i + 1..], fetch);
      if d.Ok? && rest.Ok? {
        assert FetchAll(batches[i..], fetch) == Ok(d.value + rest.value);
        assert (all + d.value) + rest.value == all + (d.value + rest.value);
      } else if rest.Ok? {
        assert [] + rest.value == rest.value;
      }
      if d.Ok? {
        all := all + d.value;
      } else if !IsCloudWatchServiceException(d.error) {
        return Err(d.error);
      }
      i := i + 1;
    }
    assert batches[i..] == [];
    assert all + [] == all;
    r := Ok(all);
  }

  // ---------------------------------------------------------------------
  // Utilization events
  // ---------------------------------------------------------------------

  const PctSuffix := SQ.PctSuffix

  /** getMetricQueryIdFromMetricData: the id before "_pct_utilization". */
  function MetricQueryIdFromMetricData(id: string): string {
    Before(id, PctSuffix)
  }

  /** "_pct_utilization" has no proper prefix that is also a suffix, so an
      occurrence cannot start inside the text that precedes another one. */
  lemma PctSuffixUnbordered()
    ensures forall j :: 1 <= j < |PctSuffix| ==> PctSuffix[j..] != PctSuffix[..|PctSuffix| - j]
  {
    forall j | 1 <= j < |PctSuffix|
      ensures PctSuffix[j..] != PctSuffix[..|PctSuffix| - j]
    {
      if j == 4 {
        assert PctSuffix[j..][1] != PctSuffix[..|PctSuffix| - j][1];
      } else {
        assert PctSuffix[j..][0] != PctSuffix[..|PctSuffix| - j][0];
      }
    }
  }

  /** Two occurrences of "_pct_utilization" never overlap. */
  lemma PctSuffixNoOverlap(s: string, k: int, m: int)
    requires OccursAt(s, PctSuffix, k) && OccursAt(s, PctSuffix, m) && k < m
    ensures m >= k + |PctSuffix|
  {
    if m < k + |PctSuffix| {
      var j := m - k;
      assert s[m..k + |PctSuffix|] == PctSuffix[j..];
      assert s[m..k + |PctSuffix|] == PctSuffix[..|PctSuffix| - j];
      PctSuffixUnbordered();
      assert false;
    }
  }

  /** Mapping a percentage query id back gives the usage query id it was
      built from, provided that id does not itself contain the suffix. */
  lemma {:induction false} MetricQueryIdRoundTrip(usageId: string)
    requires !Contains(usageId, PctSuffix)
    ensures MetricQueryIdFromMetricData(usageId + PctSuffix) == usageId
  {
    var s := usageId + PctSuffix;
    var r := Before(s, PctSuffix);
    BeforeSpec(s, PctSuffix);
    assert OccursAt(s, PctSuffix, |usageId|) by { assert s[|usageId|..|usageId| + |PctSuffix|] == PctSuffix; }
    if |r| < |usageId| {
      var k := |r|;
      PctSuffixNoOverlap(s, k, |usageId|);
      assert usageId[k..k + |PctSuffix|] == s[k..k + |PctSuffix|];
      assert OccursAt(usageId, PctSuffix, k);
      assert false;
    }
    assert r == s[..|r|];
    assert s[..|usageId|] == usageId;
  }

  /** The percentage query generateCWQuery builds maps back to its usage
      query. */
  lemma PctQueryMapsBack(q: SQ.Quota, period: nat)
    requires SQ.GenerateCWQuery(q, period).Ok?
    requires !Contains(SQ.GenerateCWQuery(q, period).value[0].id, PctSuffix)
    ensures |SQ.GenerateCWQuery(q, period).value| == 2
    ensures MetricQueryIdFromMetricData(SQ.GenerateCWQuery(q, period).value[1].id)
            == SQ.GenerateCWQuery(q, period).value[0].id
  {
    SQ.GenerateCWQuerySpec(q, period);
    MetricQueryIdRoundTrip(SQ.GenerateCWQuery(q, period).value[0].id);
  }

  datatype Status = OK | WARN | ERROR

  /** The utilization rule: ERROR at 100 % or more, WARN strictly above the
      threshold (a threshold that does not parse is NaN, so never WARN),
      otherwise OK. */
  function UtilizationStatus(value: real, threshold: Option<real>): (s: Status)
    ensures s == ERROR <==> value >= 100.0
    ensures s == WARN <==> value < 100.0 && threshold.Some? && value > threshold.value
  {
    if value >= 100.0 then ERROR
    else if threshold.Some? && value > threshold.value then WARN
    else OK
  }

  function Rank(s: Status): nat { match s case OK => 0 case WARN => 1 case ERROR => 2 }

  /** A higher utilization never yields a milder status. */
  lemma StatusMonotonic(v1: real, v2: real, threshold: Option<real>)
    requires v1 <= v2
    ensures Rank(UtilizationStatus(v1, threshold)) <= Rank(UtilizationStatus(v2, threshold))
  {
  }

  /** The event detail; `timestamp` is None where the Timestamps array is
      shorter than the Values array. */
  datatype QuotaEvent = QuotaEvent(
    status: Status,
    limitCode: Option<string>, limitName: Option<string>,
    resource: Option<string>, service: Option<string>, region: Option<string>,
    currentUsage: string, limitAmount: string, timestamp: Option<string>)

  /** The settings the poller reads from its environment. */
  datatype Settings = Settings(reportOk: Option<string>, threshold: Option<real>, region: Option<string>)

  predicate SendOk(s: Settings) { s.reportOk.Some? && EqualsIgnoreCase(s.reportOk.value, "Yes") }

  function DimensionOf(q: SQ.Quota, key: string): Option<string> {
    if q.usageMetric.Some? && q.usageMetric.value.dimensions.Some? then SQ.Lookup(q.usageMetric.value.dimensions.value, key)
    else None
  }

  function At(xs: seq<string>, i: nat): Option<string> { if i < |xs| then Some(xs[i]) else None }

  /** The candidate event for one value; `render` stands for JavaScript's
      number-to-string conversion. */
  function Candidate(q: SQ.Quota, value: real, ts: Option<string>, s: Settings, render: real -> string): QuotaEvent {
    QuotaEvent(UtilizationStatus(value, s.threshold), q.quotaCode, q.quotaName,
               DimensionOf(q, "Resource"), DimensionOf(q, "Service"), s.region,
               render(value) + "%", "100%", ts)
  }

  predicate Kept(e: QuotaEvent, s: Settings) { SendOk(s) || e.status != OK }

  /** The events kept for the values from index i on. */
  function KeptFrom(q: SQ.Quota, values: seq<real>, ts: seq<string>, s: Settings, render: real -> string, i: nat): seq<QuotaEvent>
    requires i <= |values|
    decreases |values| - i
  {
    if i == |values| then []
    else KeptAt(q, values, ts, s, render, i) + KeptFrom(q, values, ts, s, render, i + 1)
  }

  /** The event for value i, when it is kept. */
  function KeptAt(q: SQ.Quota, values: seq<real>, ts: seq<string>, s: Settings, render: real -> string, i: nat): seq<QuotaEvent>
    requires i < |values|
  {
    var e := Candidate(q, values[i], At(ts, i), s, render);
    if Kept(e, s) then [e] else []
  }

  /** What createQuotaUtilizationEvents yields for one metric-data result:
      a TypeError when there are values but the quota lookup, the Values or
      the Timestamps are missing. */
  function QuotaEvents(md: MetricDataResult, quotas: map<string, SQ.Quota>, s: Settings, render: real -> string)
    : Result<seq<QuotaEvent>> {
    var id := MetricQueryIdFromMetricData(md.id);
    if md.values.None? then Err(TypeError("Cannot read properties of undefined (reading 'forEach')"))
    else if |md.values.value| == 0 then Ok([])
    else if id !in quotas then Err(TypeError("Cannot read properties of undefined (reading 'QuotaCode')"))
    else if md.timestamps.None? then Err(TypeError("Cannot read properties of undefined (reading '0')"))
    else Ok(KeptFrom(quotas[id], md.values.value, md.timestamps.value, s, render, 0))
  }

  /** createQuotaUtilizationEvents */
  method CreateQuotaUtilizationEvents(md: MetricDataResult, quotas: map<string, SQ.Quota>, s: Settings, render: real -> string)
    returns (r: Result<seq<QuotaEvent>>)
    ensures r == QuotaEvents(md, quotas, s, render)
  {
    if md.values.None? {
      return Err(TypeError("Cannot read properties of undefined (reading 'forEach')"));
    }
    var values := md.values.value;
    if |values| == 0 {
      return Ok([]);
    }
    var id := MetricQueryIdFromMetricData(md.id);
    if id !in quotas {
      return Err(TypeError("Cannot read properties of undefined (reading 'QuotaCode')"));
    }
    if md.timestamps.None? {
      return Err(TypeError("Cannot read properties of undefined (reading '0')"));
    }
    var items := KeptEvents(quotas[id], values, md.timestamps.value, s, render);
    r := Ok(items);
  }

  /** The forEach over the values: one candidate event per value, kept
      when OK notifications are on or its status is not OK. */
  method KeptEvents(quota: SQ.Quota, values: seq<real>, timestamps: seq<string>, s: Settings, render: real -> string)
    returns (items: seq<QuotaEvent>)
    ensures items == KeptFrom(quota, values, timestamps, s, render, 0)
  {
    items := [];
    var index := 0;
    while index < |values|
      invariant 0 <= index <= |values|
      invariant items + KeptFrom(quota, values, timestamps, s, render, index)
                == KeptFrom(quota, values, timestamps, s, render, 0)
    {
      ghost var before := items;
      var event := Candidate(quota, values[index], At(timestamps, index), s, render);
      if SendOk(s) || event.status != OK {
        items := items + [event];
      }
      assert items == before + KeptAt(quota, values, timestamps, s, render, index);
      AppendAssoc(before, KeptAt(quota, values, timestamps, s, render, index), KeptFrom(quota, values, timestamps, s, render, index + 1));
      index := index + 1;
    }
  }

  function CountNotOk(values: seq<real>, threshold: Option<real>, i: nat): nat
    requires i <= |values|
    decreases |values| - i
  {
    if i == |values| then 0
    else (if UtilizationStatus(values[i], threshold) != OK then 1 else 0) + CountNotOk(values, threshold, i + 1)
  }

  /** With OK notifications enabled there is one event per value, in value
      order, each carrying its value's status, rendered usage, "100%" and
      the timestamp of the same index; otherwise exactly the WARN and ERROR
      events are kept. */
  lemma {:induction false} KeptFromSpec(q: SQ.Quota, values: seq<real>, ts: seq<string>, s: Settings,
                                        render: real -> string, i: nat)
    requires i <= |values|
    ensures var k := KeptFrom(q, values, ts, s, render, i);
      && (SendOk(s) ==>
            |k| == |values| - i && forall j :: 0 <= j < |k| ==> k[j] == Candidate(q, values[i + j], At(ts, i + j), s, render))
      && (!SendOk(s) ==> |k| == CountNotOk(values, s.threshold, i) && forall j :: 0 <= j < |k| ==> k[j].status != OK)
      && (forall j :: 0 <= j < |k| ==> k[j].limitAmount == "100%" && k[j].region == s.region)
    decreases |values| - i
  {
    if i < |values| {
      KeptFromSpec(q, values, ts, s, render, i + 1);
      var k := KeptFrom(q, values, ts, s, render, i);
      var rest := KeptFrom(q, values, ts, s, render, i + 1);
      var e := Candidate(q, values[i], At(ts, i), s, render);
      if Kept(e, s) {
        assert k == [e] + rest;
        forall j | 1 <= j < |k| ensures k[j] == rest[j - 1] {}
      } else {
        assert k == rest;
      }
    }
  }

  // ---------------------------------------------------------------------
  // Forwarding to the bus
  // ---------------------------------------------------------------------

  function ToEntries(bus: string, events: seq<QuotaEvent>, toJson: QuotaEvent -> string): (r: seq<Events.EventEntry>)
    ensures |r| == |events|
    ensures forall i :: 0 <= i < |r| ==>
      r[i] == Events.EventEntry("aws-solutions.quota-monitor", "Service Quotas Utilization Notification", toJson(events[i]), bus)
  {
    if |events| == 0 then []
    else [Events.EventEntry("aws-solutions.quota-monitor", "Service Quotas Utilization Notification", toJson(events[0]), bus)]
         + ToEntries(bus, events[1..], toJson)
  }

  /** sendQuotaUtilizationEventsToBridge: one entry per event, handed to
      putEvent (`toJson` stands for JSON.stringify). */
  method SendQuotaUtilizationEventsToBridge(bus: string, events: seq<QuotaEvent>, toJson: QuotaEvent -> string,
                                            client: Events.EventBusClient)
    modifies client
    ensures client.sent == old(client.sent) + Events.PutEventsCommands(Chunks(ToEntries(bus, events, toJson), 10))
  {
    var entries: seq<Events.EventEntry> := [];
    var i := 0;
    while i < |events|
      invariant 0 <= i <= |events|
      invariant entries == ToEntries(bus, events[..i], toJson)
    {
      assert ToEntries(bus, events[..i + 1], toJson) == ToEntries(bus, events[..i], toJson) + ToEntries(bus, [events[i]], toJson);
      entries := entries + [Events.EventEntry("aws-solutions.quota-monitor", "Service Quotas Utilization Notification",
                                              toJson(events[i]), bus)];
      i := i + 1;
    }
    assert events[..|events|] == events;
    client.PutEvent(entries);
  }
}
