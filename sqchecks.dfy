/** The vCPU limit checks of the Service Quotas spoke
    (lambda/services/servicequotaschecks/lib/service-quotas-checks.js): for
    every EC2 instance-type quota with a usage metric, the limit and the
    usage are read per region and a RED or YELLOW event is pushed where the
    usage crosses the limit or the threshold. */
module SQChecks {
  import opened Common

  // ---------------------------------------------------------------------
  // The classification rule
  // ---------------------------------------------------------------------

  datatype Level = Red | Yellow

  function Color(l: Level): string { match l case Red => "RED" case Yellow => "YELLOW" }

  function StatusText(l: Level): string { match l case Red => "ERROR" case Yellow => "WARN" }

  /** `usage >= limit` gives RED, else `usage >= LIMIT_THRESHOLD * limit`
      gives YELLOW, else nothing. A missing limit is `undefined` and an
      unparsable threshold is NaN: every comparison with either is false. */
  function Classify(usage: real, limit: Option<real>, threshold: Option<real>): (r: Option<Level>)
    ensures r.Some? ==> limit.Some?
    ensures r == Some(Red) <==> limit.Some? && usage >= limit.value
    ensures r == Some(Yellow) <==>
      limit.Some? && usage < limit.value && threshold.Some? && usage >= threshold.value * limit.value
  {
    if limit.None? then None
    else if usage >= limit.value then Some(Red)
    else if threshold.Some? && usage >= threshold.value * limit.value then Some(Yellow)
    else None
  }

  function Rank(r: Option<Level>): nat {
    match r
    case None => 0
    case Some(Yellow) => 1
    case Some(Red) => 2
  }

  /** More usage against the same limit never gives a milder level. */
  lemma ClassifyMonotonic(u1: real, u2: real, limit: Option<real>, threshold: Option<real>)
    requires u1 <= u2
    ensures Rank(Classify(u1, limit, threshold)) <= Rank(Classify(u2, limit, threshold))
  {
  }

  /** With a threshold below one and a positive limit, crossing the limit
      implies crossing the threshold: every RED region would also be YELLOW
      if the first test were dropped. */
  lemma RedAlsoCrossesThreshold(usage: real, limit: real, t: real)
    requires 0.0 < limit && t <= 1.0
    requires Classify(usage, Some(limit), Some(t)) == Some(Red)
    ensures usage >= t * limit
  {
    assert t * limit <= 1.0 * limit;
  }

  // ---------------------------------------------------------------------
  // Region maps
  // ---------------------------------------------------------------------

  /** A JavaScript object keyed by region: its values, and its keys in
      insertion order (the order `for ... in` visits them). */
  datatype RegionMap = RegionMap(order: seq<string>, values: map<string, real>)

  const EmptyMap := RegionMap([], map[])

  ghost predicate WellFormed(m: RegionMap) {
    NoDuplicates(m.order) && forall k :: k in m.order <==> k in m.values
  }

  /** `m[k] = v`: a new key goes to the end of the order, an existing key
      keeps its place. */
  function Put(m: RegionMap, k: string, v: real): (r: RegionMap)
    ensures WellFormed(m) ==> WellFormed(r)
    ensures r.values == m.values[k := v]
    ensures k in m.values ==> r.order == m.order
    ensures k !in m.values ==> r.order == m.order + [k]
  {
    if k in m.values then RegionMap(m.order, m.values[k := v])
    else
      var r := RegionMap(m.order + [k], m.values[k := v]);
      assert WellFormed(m) ==> forall i :: 0 <= i < |m.order| ==> r.order[i] != k;
      r
  }

  function Lookup(m: map<string, real>, k: string): (r: Option<real>)
    ensures r.Some? <==> k in m
    ensures r.Some? ==> r.value == m[k]
  {
    if k in m then Some(m[k]) else None
  }

  // ---------------------------------------------------------------------
  // Limits
  // ---------------------------------------------------------------------

  /** A fulfilled getServiceQuota: the quota's ARN and value. */
  datatype QuotaResult = QuotaResult(quotaArn: string, value: real)

  /** `arn.split(":")[3]`, or the key "undefined" when there is no such
      field. */
  function RegionOfArn(arn: string): string {
    var parts := Split(arn, ':');
    if |parts| > 3 then parts[3] else "undefined"
  }

  /** The limits recorded into `m` from the results in order, None standing
      for a rejected promise: each fulfilled quota is keyed by its ARN's
      region. */
  function LimitsInto(m: RegionMap, results: seq<Option<QuotaResult>>): RegionMap {
    if |results| == 0 then m
    else
      var prev := LimitsInto(m, results[..|results| - 1]);
      match results[|results| - 1]
      case None => prev
      case Some(q) => Put(prev, RegionOfArn(q.quotaArn), q.value)
  }

  /** The value of the last fulfilled quota whose ARN names `region`, if
      any: the per-region reading of the results. */
  function LastLimit(results: seq<Option<QuotaResult>>, region: string): Option<real> {
    if |results| == 0 then None
    else
      var q := results[|results| - 1];
      if q.Some? && RegionOfArn(q.value.quotaArn) == region then Some(q.value.value)
      else LastLimit(results[..|results| - 1], region)
  }

  predicate Names(q: Option<QuotaResult>, region: string) {
    q.Some? && RegionOfArn(q.value.quotaArn) == region
  }

  /** A region has a last limit iff some fulfilled quota names it, and the
      limit is that quota's value, no later fulfilled quota naming the
      region; rejected promises never count. */
  lemma {:induction false} LastLimitSpec(results: seq<Option<QuotaResult>>, region: string)
    ensures LastLimit(results, region).Some? <==> exists i :: 0 <= i < |results| && Names(results[i], region)
    ensures LastLimit(results, region).Some? ==>
      exists i :: 0 <= i < |results| && Names(results[i], region)
        && LastLimit(results, region).value == results[i].value.value
        && forall j :: i < j < |results| ==> !Names(results[j], region)
  {
    if |results| > 0 {
      var n := |results| - 1;
      var p := results[..n];
      if Names(results[n], region) {
        assert LastLimit(results, region) == Some(results[n].value.value);
      } else {
        assert LastLimit(results, region) == LastLimit(p, region);
        LastLimitSpec(p, region);
        if LastLimit(p, region).Some? {
          var i :| 0 <= i < |p| && Names(p[i], region) && LastLimit(p, region).value == p[i].value.value
            && forall j :: i < j < |p| ==> !Names(p[j], region);
          assert results[i] == p[i];
          forall j | i < j < |results| ensures !Names(results[j], region) {
            if j < n {
              assert results[j] == p[j];
            }
          }
        } else {
          forall i | 0 <= i < |results| ensures !Names(results[i], region) {
            if i < n {
              assert results[i] == p[i];
            }
          }
        }
      }
    }
  }

  /** Recording the results into a map gives each region its last limit
      when it has one and leaves every other region as it was. */
  lemma {:induction false} LimitsIntoSpec(m: RegionMap, results: seq<Option<QuotaResult>>)
    requires WellFormed(m)
    ensures WellFormed(LimitsInto(m, results))
    ensures forall k ::
      Lookup(LimitsInto(m, results).values, k) == if LastLimit(results, k).Some? then LastLimit(results, k) else Lookup(m.values, k)
  {
    if |results| > 0 {
      LimitsIntoSpec(m, results[..|results| - 1]);
    }
  }

  /** getServiceLimits: the region map of one check, built from the
      settled promises of all valid regions. */
  method GetServiceLimits(results: seq<Option<QuotaResult>>) returns (regionMap: RegionMap)
    ensures regionMap == LimitsInto(EmptyMap, results)
  {
    regionMap := EmptyMap;
    for i := 0 to |results|
      invariant regionMap == LimitsInto(EmptyMap, results[..i])
    {
      assert results[..i + 1][..i] == results[..i];
      if results[i].Some? {
        var q := results[i].value;
        regionMap := Put(regionMap, RegionOfArn(q.quotaArn), q.value);
      }
    }
    assert results[..|results|] == results;
  }

  // ---------------------------------------------------------------------
  // Usage
  // ---------------------------------------------------------------------

  /** Which datapoint a usage map records: the first one (this file) or the
      largest (the older checks). */
  datatype Pick = FirstDatum | MaxDatum

  function SeqMax(vs: seq<real>): (m: real)
    requires |vs| > 0
    ensures m in vs && forall i :: 0 <= i < |vs| ==> vs[i] <= m
  {
    if |vs| == 1 then vs[0]
    else
      var rest := SeqMax(vs[1..]);
      assert forall i :: 1 <= i < |vs| ==> vs[i] == vs[1..][i - 1];
      if vs[0] >= rest then vs[0] else rest
  }

  function Datum(p: Pick, vs: seq<real>): real
    requires |vs| > 0
  {
    match p
    case FirstDatum => vs[0]
    case MaxDatum => SeqMax(vs)
  }

  /** One region's usage step: a response with a datapoint records it;
      an empty response, or (here) a failed one, records nothing. */
  function UsageStep(m: RegionMap, region: string, response: Option<seq<real>>, p: Pick): RegionMap {
    if response.Some? && |response.value| > 0 then Put(m, region, Datum(p, response.value)) else m
  }

  /** The usage recorded for the regions in order; `fetch(region)` is that
      region's getMetricData values, None when the call fails. */
  function UsageInto(m: RegionMap, regions: seq<string>, fetch: string -> Option<seq<real>>, p: Pick): RegionMap {
    if |regions| == 0 then m
    else UsageStep(UsageInto(m, regions[..|regions| - 1], fetch, p), regions[|regions| - 1], fetch(regions[|regions| - 1]), p)
  }

  predicate HasDatum(response: Option<seq<real>>) { response.Some? && |response.value| > 0 }

  /** A region has usage iff it had some before or it is among the regions
      and its response has a datapoint, which is then the value recorded. */
  lemma {:induction false} UsageIntoSpec(m: RegionMap, regions: seq<string>, fetch: string -> Option<seq<real>>, p: Pick)
    requires WellFormed(m)
    ensures WellFormed(UsageInto(m, regions, fetch, p))
    ensures forall k :: k in UsageInto(m, regions, fetch, p).values <==> k in m.values || (k in regions && HasDatum(fetch(k)))
    ensures forall k :: k in regions && HasDatum(fetch(k)) ==> UsageInto(m, regions, fetch, p).values[k] == Datum(p, fetch(k).value)
    ensures forall k :: k in m.values && !(k in regions && HasDatum(fetch(k))) ==> UsageInto(m, regions, fetch, p).values[k] == m.values[k]
  {
    if |regions| > 0 {
      var n := |regions| - 1;
      UsageIntoSpec(m, regions[..n], fetch, p);
      assert forall k :: k in regions <==> k in regions[..n] || k == regions[n];
    }
  }

  /** getServiceUsage: the first datapoint of each region that has one;
      failed calls are logged and skipped. */
  method GetServiceUsage(regions: seq<string>, fetch: string -> Option<seq<real>>) returns (regionMap: RegionMap)
    ensures regionMap == UsageInto(EmptyMap, regions, fetch, FirstDatum)
  {
    regionMap := EmptyMap;
    for i := 0 to |regions|
      invariant regionMap == UsageInto(EmptyMap, regions[..i], fetch, FirstDatum)
    {
      assert regions[..i + 1][..i] == regions[..i];
      var response := fetch(regions[i]);
      if response.Some? && |response.value| > 0 {
        regionMap := Put(regionMap, regions[i], response.value[0]);
      }
    }
    assert regions[..|regions|] == regions;
  }

  // ---------------------------------------------------------------------
  // Events
  // ---------------------------------------------------------------------

  const EventSource := "limit-monitor-solution"
  const EventDetailType := "Limit Monitor Checks"

  /** The detail pushEventToEventbridge sends. */
  datatype LimitEvent = LimitEvent(checkName: string, color: string, currentUsage: real, region: string,
                                   service: string, status: string, limitAmount: real)

  predicate Emits(region: string, usage: map<string, real>, limits: map<string, real>, threshold: Option<real>) {
    region in usage && Classify(usage[region], Lookup(limits, region), threshold).Some?
  }

  /** The event for one region of the usage map, if any. */
  function EventAt(region: string, usage: map<string, real>, limits: map<string, real>,
                   checkName: string, service: string, threshold: Option<real>): seq<LimitEvent>
  {
    if region !in usage then []
    else
      match Classify(usage[region], Lookup(limits, region), threshold)
      case None => []
      case Some(l) => [LimitEvent(checkName, Color(l), usage[region], region, service, StatusText(l), limits[region])]
  }

  /** The events for the usage regions in `keys`, in that order. */
  function EventsFor(keys: seq<string>, usage: map<string, real>, limits: map<string, real>,
                     checkName: string, service: string, threshold: Option<real>): seq<LimitEvent>
  {
    if |keys| == 0 then []
    else EventsFor(keys[..|keys| - 1], usage, limits, checkName, service, threshold)
         + EventAt(keys[|keys| - 1], usage, limits, checkName, service, threshold)
  }

  /** An event reports its region's usage and limit under the level the
      rule gives them. */
  predicate Reports(e: LimitEvent, usage: map<string, real>, limits: map<string, real>,
                    checkName: string, service: string, threshold: Option<real>)
  {
    && Emits(e.region, usage, limits, threshold)
    && var l := Classify(usage[e.region], Lookup(limits, e.region), threshold).value;
    e == LimitEvent(checkName, Color(l), usage[e.region], e.region, service, StatusText(l), limits[e.region])
  }

  /** The event of one region, when there is one, reports it. */
  lemma EventAtSpec(region: string, usage: map<string, real>, limits: map<string, real>,
                    checkName: string, service: string, threshold: Option<real>)
    ensures var last := EventAt(region, usage, limits, checkName, service, threshold);
      && |last| <= 1
      && (|last| == 1 <==> Emits(region, usage, limits, threshold))
      && (|last| == 1 ==> last[0].region == region && Reports(last[0], usage, limits, checkName, service, threshold))
  {
  }

  /** Every event reports a key of the usage map that the rule flags. */
  lemma {:induction false} EventsForSound(keys: seq<string>, usage: map<string, real>, limits: map<string, real>,
                                          checkName: string, service: string, threshold: Option<real>)
    ensures forall i :: 0 <= i < |EventsFor(keys, usage, limits, checkName, service, threshold)| ==>
      EventsFor(keys, usage, limits, checkName, service, threshold)[i].region in keys && Reports(EventsFor(keys, usage, limits, checkName, service, threshold)[i], usage, limits, checkName, service, threshold)
  {
    if |keys| > 0 {
      var n := |keys| - 1;
      var p := keys[..n];
      EventsForSound(p, usage, limits, checkName, service, threshold);
      EventAtSpec(keys[n], usage, limits, checkName, service, threshold);
      var prev := EventsFor(p, usage, limits, checkName, service, threshold);
      var last := EventAt(keys[n], usage, limits, checkName, service, threshold);
      var ev := prev + last;
      assert ev == EventsFor(keys, usage, limits, checkName, service, threshold);
      forall i | 0 <= i < |ev|
        ensures ev[i].region in keys && Reports(ev[i], usage, limits, checkName, service, threshold)
      {
        if i < |prev| {
          assert ev[i] == prev[i];
          assert prev[i].region in p;
        } else {
          assert ev[i] == last[0];
        }
      }
    }
  }

  predicate HasEventFor(ev: seq<LimitEvent>, region: string) {
    exists i :: 0 <= i < |ev| && ev[i].region == region
  }

  /** Every key of the usage map that the rule flags has an event. */
  lemma {:induction false} EventsForComplete(keys: seq<string>, usage: map<string, real>, limits: map<string, real>,
                                             checkName: string, service: string, threshold: Option<real>)
    ensures forall r :: r in keys && Emits(r, usage, limits, threshold) ==>
      HasEventFor(EventsFor(keys, usage, limits, checkName, service, threshold), r)
  {
    if |keys| > 0 {
      var n := |keys| - 1;
      var p := keys[..n];
      EventsForComplete(p, usage, limits, checkName, service, threshold);
      EventAtSpec(keys[n], usage, limits, checkName, service, threshold);
      var prev := EventsFor(p, usage, limits, checkName, service, threshold);
      var last := EventAt(keys[n], usage, limits, checkName, service, threshold);
      var ev := prev + last;
      assert ev == EventsFor(keys, usage, limits, checkName, service, threshold);
      forall r | r in keys && Emits(r, usage, limits, threshold)
        ensures HasEventFor(ev, r)
      {
        if r in p {
          var i :| 0 <= i < |prev| && prev[i].region == r;
          assert ev[i] == prev[i];
        } else {
          assert r == keys[n];
          assert ev[|prev|] == last[0];
        }
      }
    }
  }

  /** At most one event per region when the keys are distinct, as the keys
      of an object are. */
  lemma {:induction false} AtMostOneEventPerRegion(keys: seq<string>, usage: map<string, real>, limits: map<string, real>,
                                                   checkName: string, service: string, threshold: Option<real>)
    requires NoDuplicates(keys)
    ensures forall i, j :: 0 <= i < j < |EventsFor(keys, usage, limits, checkName, service, threshold)| ==> EventsFor(keys, usage, limits, checkName, service, threshold)[i].region != EventsFor(keys, usage, limits, checkName, service, threshold)[j].region
  {
    if |keys| > 0 {
      var n := |keys| - 1;
      assert NoDuplicates(keys[..n]);
      AtMostOneEventPerRegion(keys[..n], usage, limits, checkName, service, threshold);
      EventsForSound(keys[..n], usage, limits, checkName, service, threshold);
      EventAtSpec(keys[n], usage, limits, checkName, service, threshold);
      var prev := EventsFor(keys[..n], usage, limits, checkName, service, threshold);
      var last := EventAt(keys[n], usage, limits, checkName, service, threshold);
      var ev := prev + last;
      assert ev == EventsFor(keys, usage, limits, checkName, service, threshold);
      assert keys[n] !in keys[..n];
      assert |last| <= 1 && forall i :: 0 <= i < |last| ==> last[i].region == keys[n];
      forall i, j | 0 <= i < j < |ev|
        ensures ev[i].region != ev[j].region
      {
        if j < |prev| {
          assert ev[i] == prev[i] && ev[j] == prev[j];
        } else {
          assert ev[j] == last[0] && i < |prev| && ev[i] == prev[i];
          assert prev[i].region in keys[..n];
        }
      }
    }
  }

  /** A region emits nothing when it is absent from the usage map (present
      only in the limit map, say) or when its limit is missing. */
  lemma NoEventWithoutUsageOrLimit(keys: seq<string>, usage: map<string, real>, limits: map<string, real>,
                                   checkName: string, service: string, threshold: Option<real>, region: string)
    requires region !in keys || region !in usage || region !in limits
    ensures forall i :: 0 <= i < |EventsFor(keys, usage, limits, checkName, service, threshold)| ==> EventsFor(keys, usage, limits, checkName, service, threshold)[i].region != region
  {
    EventsForSound(keys, usage, limits, checkName, service, threshold);
  }

  /** performLimitCheck once both maps are read: one event per key of the
      usage map, in insertion order, that the rule flags. */
  method PerformLimitCheck(checkName: string, service: string, usage: RegionMap, limits: RegionMap, threshold: Option<real>)
    returns (events: seq<LimitEvent>)
    ensures events == EventsFor(usage.order, usage.values, limits.values, checkName, service, threshold)
  {
    events := [];
    for i := 0 to |usage.order|
      invariant events == EventsFor(usage.order[..i], usage.values, limits.values, checkName, service, threshold)
    {
      assert usage.order[..i + 1][..i] == usage.order[..i];
      var region := usage.order[i];
      if region in usage.values {
        var currentUsage := usage.values[region];
        var currentServiceLimit := Lookup(limits.values, region);
        var level := Classify(currentUsage, currentServiceLimit, threshold);
        if level.Some? {
          events := events + [LimitEvent(checkName, Color(level.value), currentUsage, region, service,
                                         StatusText(level.value), currentServiceLimit.value)];
        }
      }
    }
    assert usage.order[..|usage.order|] == usage.order;
  }

  // ---------------------------------------------------------------------
  // Instance types and regions
  // ---------------------------------------------------------------------

  /** The usage metric of a quota; `dimensionClass` is None when
      MetricDimensions is missing. */
  datatype UsageMetric = UsageMetric(dimensionClass: Option<string>)

  datatype InstanceType = InstanceType(quotaName: string, quotaCode: string, usageMetric: Option<UsageMetric>)

  function WithUsageMetric(s: seq<InstanceType>): (r: seq<InstanceType>) {
    if |s| == 0 then []
    else WithUsageMetric(s[..|s| - 1]) + (if s[|s| - 1].usageMetric.Some? then [s[|s| - 1]] else [])
  }

  /** Exactly the quotas with a usage metric are kept, in their order. */
  lemma {:induction false} WithUsageMetricSpec(s: seq<InstanceType>)
    ensures forall t :: t in WithUsageMetric(s) <==> t in s && t.usageMetric.Some?
    ensures |WithUsageMetric(s)| <= |s|
    ensures (forall i :: 0 <= i < |s| ==> s[i].usageMetric.Some?) ==> WithUsageMetric(s) == s
  {
    WithUsageMetricMembers(s);
    if forall i :: 0 <= i < |s| ==> s[i].usageMetric.Some? {
      WithUsageMetricKeepsAll(s);
    }
  }

  /** A quota is kept iff it has a usage metric; at most all are kept. */
  lemma {:induction false} WithUsageMetricMembers(s: seq<InstanceType>)
    ensures forall t :: t in WithUsageMetric(s) <==> t in s && t.usageMetric.Some?
    ensures |WithUsageMetric(s)| <= |s|
  {
    if |s| > 0 {
      var n := |s| - 1;
      var p := s[..n];
      WithUsageMetricMembers(p);
      var w := WithUsageMetric(p);
      assert s == p + [s[n]];
      assert forall t :: t in s <==> t in p || t == s[n];
      if s[n].usageMetric.Some? {
        assert WithUsageMetric(s) == w + [s[n]];
        assert forall t :: t in w + [s[n]] <==> t in w || t == s[n];
      } else {
        assert WithUsageMetric(s) == w;
      }
    }
  }

  /** A list whose quotas all have a usage metric is kept whole. */
  lemma {:induction false} WithUsageMetricKeepsAll(s: seq<InstanceType>)
    requires forall i :: 0 <= i < |s| ==> s[i].usageMetric.Some?
    ensures WithUsageMetric(s) == s
  {
    if |s| > 0 {
      var n := |s| - 1;
      var p := s[..n];
      assert forall i :: 0 <= i < |p| ==> p[i] == s[i];
      WithUsageMetricKeepsAll(p);
      assert s == p + [s[n]];
    }
  }

  /** getEC2InstanceTypes: `pages` are the listServiceQuotas pages in
      NextToken order, None when the first call fails. */
  method GetEC2InstanceTypes(pages: Option<seq<seq<InstanceType>>>) returns (instanceTypes: seq<InstanceType>)
    ensures pages.None? ==> instanceTypes == []
    ensures pages.Some? ==> instanceTypes == WithUsageMetric(Flatten(pages.value))
  {
    if pages.None? {
      return [];
    }
    var limits: seq<InstanceType> := [];
    var k := 0;
    while k < |pages.value|
      invariant 0 <= k <= |pages.value|
      invariant limits + Flatten(pages.value[k..]) == Flatten(pages.value)
    {
      assert pages.value[k..] == [pages.value[k]] + pages.value[k + 1..];
      limits := limits + pages.value[k];
      k := k + 1;
    }
    assert pages.value[k..] == [];
    assert limits == Flatten(pages.value);
    instanceTypes := [];
    for i := 0 to |limits|
      invariant instanceTypes == WithUsageMetric(limits[..i])
    {
      assert limits[..i + 1][..i] == limits[..i];
      if limits[i].usageMetric.Some? {
        instanceTypes := instanceTypes + [limits[i]];
      }
    }
    assert limits[..|limits|] == limits;
  }

  function Probed(regions: seq<string>, probe: string -> bool): seq<string> {
    if |regions| == 0 then []
    else Probed(regions[..|regions| - 1], probe) + (if probe(regions[|regions| - 1]) then [regions[|regions| - 1]] else [])
  }

  /** The kept regions are exactly those whose probe succeeds. */
  lemma {:induction false} ProbedSpec(regions: seq<string>, probe: string -> bool)
    ensures forall r :: r in Probed(regions, probe) <==> r in regions && probe(r)
  {
    if |regions| > 0 {
      var n := |regions| - 1;
      ProbedSpec(regions[..n], probe);
      assert forall r :: r in regions <==> r in regions[..n] || r == regions[n];
    }
  }

  /** getRegionsForServiceQuotas: `describe` is the describeRegions
      result (None when it fails) and `probe(region)` whether that
      region's default-quota call succeeds. */
  method GetRegionsForServiceQuotas(describe: Option<seq<string>>, probe: string -> bool)
    returns (serviceQuotaRegions: seq<string>)
    ensures describe.None? ==> serviceQuotaRegions == []
    ensures describe.Some? ==> serviceQuotaRegions == Probed(describe.value, probe)
  {
    serviceQuotaRegions := [];
    if describe.Some? {
      var regions := describe.value;
      for i := 0 to |regions|
        invariant serviceQuotaRegions == Probed(regions[..i], probe)
      {
        assert regions[..i + 1][..i] == regions[..i];
        if probe(regions[i]) {
          serviceQuotaRegions := serviceQuotaRegions + [regions[i]];
        }
      }
      assert regions[..|regions|] == regions;
    }
  }

  const OnDemandQuotaCode := "L-1216C47A"

  datatype QuotaParams = QuotaParams(quotaCode: string, serviceCode: string)

  /** createVCPUServiceQuotaParams */
  function CreateVCPUServiceQuotaParams(quotaCode: string): (p: QuotaParams)
    ensures p.quotaCode == quotaCode && p.serviceCode == "ec2"
  {
    QuotaParams(quotaCode, "ec2")
  }

  /** checkVCPUOptIn: `response` is the ServiceCode of the default quota
      (None when the call fails, Some(None) when the field is absent). */
  function CheckVCPUOptIn(response: Option<Option<string>>): (optedIn: bool)
    ensures optedIn <==> response == Some(Some("ec2"))
  {
    match response
    case None => false
    case Some(code) => code == Some("ec2")
  }

  /** The per-region limit results for one quota code, in region order. */
  function LimitResults(quotaCode: string, regions: seq<string>, limitFor: (string, string) -> Option<QuotaResult>)
    : (r: seq<Option<QuotaResult>>)
    ensures |r| == |regions| && forall i :: 0 <= i < |r| ==> r[i] == limitFor(quotaCode, regions[i])
  {
    seq(|regions|, i requires 0 <= i < |regions| => limitFor(quotaCode, regions[i]))
  }

  /** The events of one instance type: its limits by quota code, its usage
      by the Class dimension of its usage metric. A type without that
      dimension has none (checkForVCPULimits aborts before reaching it). */
  function TypeEvents(t: InstanceType, regions: seq<string>, limitFor: (string, string) -> Option<QuotaResult>,
                      usageFor: string -> string -> Option<seq<real>>, threshold: Option<real>): seq<LimitEvent>
  {
    if t.usageMetric.None? || t.usageMetric.value.dimensionClass.None? then []
    else
      var cls := t.usageMetric.value.dimensionClass.value;
      var limits := LimitsInto(EmptyMap, LimitResults(CreateVCPUServiceQuotaParams(t.quotaCode).quotaCode, regions, limitFor));
      var usage := UsageInto(EmptyMap, regions, usageFor(cls), FirstDatum);
      EventsFor(usage.order, usage.values, limits.values, t.quotaName, "EC2", threshold)
  }

  /** TypeEvents for fixed regions, SDK answers and threshold. */
  function TypeEventsOf(regions: seq<string>, limitFor: (string, string) -> Option<QuotaResult>,
                        usageFor: string -> string -> Option<seq<real>>, threshold: Option<real>)
    : InstanceType -> seq<LimitEvent>
  {
    t => TypeEvents(t, regions, limitFor, usageFor, threshold)
  }

  /** One iteration of checkForVCPULimits: the type's quota parameters,
      its limits and usage per region, and the events they give. */
  method TypeCheck(t: InstanceType, regions: seq<string>, limitFor: (string, string) -> Option<QuotaResult>,
                   usageFor: string -> string -> Option<seq<real>>, threshold: Option<real>)
    returns (found: seq<LimitEvent>)
    requires t.usageMetric.Some? && t.usageMetric.value.dimensionClass.Some?
    ensures found == TypeEvents(t, regions, limitFor, usageFor, threshold)
  {
    var params := CreateVCPUServiceQuotaParams(t.quotaCode);
    var cls := t.usageMetric.value.dimensionClass.value;
    var limits := GetServiceLimits(LimitResults(params.quotaCode, regions, limitFor));
    var usage := GetServiceUsage(regions, usageFor(cls));
    found := PerformLimitCheck(t.quotaName, "EC2", usage, limits, threshold);
  }

  /** The loop of checkForVCPULimits from type i on, `eventsOf` giving
      each type's events: the events of each type in order, up to the first
      type whose usage metric lacks its Class dimension, where building its
      CloudWatch parameters throws and the run ends (`aborted`) with the
      events already sent. */
  function VCPUFrom(types: seq<InstanceType>, i: nat, eventsOf: InstanceType -> seq<LimitEvent>)
    : (run: (seq<LimitEvent>, bool))
    requires i <= |types|
    requires forall j :: 0 <= j < |types| ==> types[j].usageMetric.Some?
    decreases |types| - i
  {
    if i == |types| then ([], false)
    else if types[i].usageMetric.value.dimensionClass.None? then ([], true)
    else
      var rest := VCPUFrom(types, i + 1, eventsOf);
      (eventsOf(types[i]) + rest.0, rest.1)
  }

  /** The run aborts iff some type from i on lacks its Class dimension. */
  lemma {:induction false} VCPUFromAborts(types: seq<InstanceType>, i: nat, eventsOf: InstanceType -> seq<LimitEvent>)
    requires i <= |types|
    requires forall j :: 0 <= j < |types| ==> types[j].usageMetric.Some?
    ensures VCPUFrom(types, i, eventsOf).1
            <==> exists j :: i <= j < |types| && types[j].usageMetric.value.dimensionClass.None?
    decreases |types| - i
  {
    if i < |types| && types[i].usageMetric.value.dimensionClass.Some? {
      VCPUFromAborts(types, i + 1, eventsOf);
      assert forall j :: i <= j < |types| && types[j].usageMetric.value.dimensionClass.None? ==> i + 1 <= j;
    }
  }

  /** The first type from i on whose usage metric lacks its Class
      dimension, or |types| when there is none. */
  function FirstMissing(types: seq<InstanceType>, i: nat): (n: nat)
    requires i <= |types|
    requires forall j :: 0 <= j < |types| ==> types[j].usageMetric.Some?
    ensures i <= n <= |types|
    ensures forall j :: i <= j < n ==> types[j].usageMetric.value.dimensionClass.Some?
    ensures n < |types| ==> types[n].usageMetric.value.dimensionClass.None?
    decreases |types| - i
  {
    if i == |types| || types[i].usageMetric.value.dimensionClass.None? then i
    else FirstMissing(types, i + 1)
  }

  /** The events of each type in types[i..n], concatenated in order. */
  function EventsBetween(types: seq<InstanceType>, i: nat, n: nat, eventsOf: InstanceType -> seq<LimitEvent>)
    : seq<LimitEvent>
    requires i <= n <= |types|
    decreases n - i
  {
    if i == n then [] else eventsOf(types[i]) + EventsBetween(types, i + 1, n, eventsOf)
  }

  /** The events of the run are those of the types before the first one
      lacking its Class dimension, in order; the run aborts iff there is
      such a type. */
  lemma {:induction false} VCPUFromEvents(types: seq<InstanceType>, i: nat, eventsOf: InstanceType -> seq<LimitEvent>)
    requires i <= |types|
    requires forall j :: 0 <= j < |types| ==> types[j].usageMetric.Some?
    ensures VCPUFrom(types, i, eventsOf).0 == EventsBetween(types, i, FirstMissing(types, i), eventsOf)
    ensures VCPUFrom(types, i, eventsOf).1 <==> FirstMissing(types, i) < |types|
    decreases |types| - i
  {
    if i < |types| && types[i].usageMetric.value.dimensionClass.Some? {
      VCPUFromEvents(types, i + 1, eventsOf);
    }
  }

  /** checkForVCPULimits over the types with a usage metric: nothing
      without opt-in; otherwise the run VCPUFrom describes. */
  method CheckForVCPULimits(optIn: Option<Option<string>>, types: seq<InstanceType>, regions: seq<string>,
                            limitFor: (string, string) -> Option<QuotaResult>,
                            usageFor: string -> string -> Option<seq<real>>, threshold: Option<real>)
    returns (events: seq<LimitEvent>, aborted: bool)
    requires forall i :: 0 <= i < |types| ==> types[i].usageMetric.Some?
    ensures !CheckVCPUOptIn(optIn) ==> events == [] && !aborted
    ensures CheckVCPUOptIn(optIn) ==>
      (events, aborted) == VCPUFrom(types, 0, TypeEventsOf(regions, limitFor, usageFor, threshold))
  {
    events := [];
    aborted := false;
    if !CheckVCPUOptIn(optIn) {
      return;
    }
    ghost var eventsOf := TypeEventsOf(regions, limitFor, usageFor, threshold);
    for i := 0 to |types|
      invariant events + VCPUFrom(types, i, eventsOf).0 == VCPUFrom(types, 0, eventsOf).0
      invariant VCPUFrom(types, i, eventsOf).1 == VCPUFrom(types, 0, eventsOf).1
    {
      var t := types[i];
      if t.usageMetric.value.dimensionClass.None? {
        assert events + [] == events;
        aborted := true;
        return;
      }
      var found := TypeCheck(t, regions, limitFor, usageFor, threshold);
      assert found == eventsOf(t);
      AppendAssoc(events, found, VCPUFrom(types, i + 1, eventsOf).0);
      events := events + found;
    }
    assert VCPUFrom(types, |types|, eventsOf) == ([], false);
    assert events + [] == events;
  }
}
