/** Service Quotas helper (utilsLayer/lib/servicequotas.ts): filtering the
    quotas that publish a usage metric, and building the two CloudWatch
    metric-data queries (raw usage, percentage of the applied quota) that
    every utilization check relies on. */
module ServiceQuotas {
  import opened Common

  /** MetricInfo of a quota; every field may be missing, and an empty
      string is as good as missing where the source tests truthiness. */
  datatype MetricInfo = MetricInfo(
    namespace: Option<string>,
    metricName: Option<string>,
    dimensions: Option<seq<(string, string)>>,   // object entries, in key order
    statRecommendation: Option<string>)

  datatype Quota = Quota(
    quotaCode: Option<string>,
    serviceCode: Option<string>,
    serviceName: Option<string>,
    quotaName: Option<string>,
    value: Option<real>,
    usageMetric: Option<MetricInfo>)

  datatype Dimension = Dimension(name: string, value: string)

  datatype MetricStat = MetricStat(namespace: Option<string>, metricName: Option<string>,
                                   dimensions: seq<Dimension>, period: nat, stat: Option<string>)

  /** MetricDataQuery: either a metric statistic or a metric-math expression. */
  datatype MetricDataQuery = MetricDataQuery(id: string, metricStat: Option<MetricStat>,
                                             expression: Option<string>, returnData: bool)

  const UsageNamespace := "AWS/Usage"
  const PctSuffix := "_pct_utilization"

  /** JavaScript truthiness of an optional string: missing and "" are falsy. */
  predicate Truthy(s: Option<string>) { s.Some? && s.value != "" }

  /** `${x}` of a possibly undefined string. */
  function Str(s: Option<string>): string { if s.Some? then s.value else "undefined" }

  // ---------------------------------------------------------------------
  // getQuotaList
  // ---------------------------------------------------------------------

  predicate SupportsUsage(q: Quota) {
    q.usageMetric.Some? && q.usageMetric.value.namespace == Some(UsageNamespace)
  }

  function FilterSupportingUsage(qs: seq<Quota>): (r: seq<Quota>)
    ensures forall q :: q in r <==> q in qs && SupportsUsage(q)
  {
    if |qs| == 0 then []
    else (if SupportsUsage(qs[0]) then [qs[0]] else []) + FilterSupportingUsage(qs[1..])
  }

  /** What getQuotaList collects from a sequence of pages; a page without a
      Quotas list contributes nothing. */
  function QuotasSupportingUsage(pages: seq<Option<seq<Quota>>>): seq<Quota> {
    if |pages| == 0 then []
    else QuotasSupportingUsage(pages[..|pages| - 1])
         + (if pages[|pages| - 1].Some? then FilterSupportingUsage(pages[|pages| - 1].value) else [])
  }

  predicate InSomePage(pages: seq<Option<seq<Quota>>>, q: Quota) {
    exists i :: 0 <= i < |pages| && pages[i].Some? && q in pages[i].value
  }

  /** The quotas collected are exactly those, from any page, whose usage
      metric lives in the AWS/Usage namespace. */
  lemma {:induction false} QuotasSupportingUsageSpec(pages: seq<Option<seq<Quota>>>)
    ensures forall q :: q in QuotasSupportingUsage(pages) <==> SupportsUsage(q) && InSomePage(pages, q)
  {
    if |pages| > 0 {
      var init := pages[..|pages| - 1];
      var last := pages[|pages| - 1];
      QuotasSupportingUsageSpec(init);
      forall q
        ensures InSomePage(pages, q) <==> InSomePage(init, q) || (last.Some? && q in last.value)
      {
        if InSomePage(pages, q) {
          var i :| 0 <= i < |pages| && pages[i].Some? && q in pages[i].value;
          if i < |pages| - 1 { assert init[i] == pages[i]; }
        }
        if InSomePage(init, q) {
          var i :| 0 <= i < |init| && init[i].Some? && q in init[i].value;
          assert pages[i] == init[i];
        }
      }
    }
  }

  /** getQuotaList: walks the paginator and appends each page's usage
      quotas; `pages` stands for what the paginator yields. */
  method GetQuotaList(pages: seq<Option<seq<Quota>>>) returns (quotas: seq<Quota>)
    ensures quotas == QuotasSupportingUsage(pages)
  {
    quotas := [];
    var i := 0;
    while i < |pages|
      invariant 0 <= i <= |pages|
      invariant quotas == QuotasSupportingUsage(pages[..i])
    {
      assert pages[..i + 1][..i] == pages[..i];
      if pages[i].Some? {
        quotas := quotas + FilterSupportingUsage(pages[i].value);
      }
      i := i + 1;
    }
    assert pages[..|pages|] == pages;
  }

  // ---------------------------------------------------------------------
  // Query generation
  // ---------------------------------------------------------------------

  predicate HasUsageMetrics(q: Quota) {
    && q.usageMetric.Some?
    && Truthy(q.usageMetric.value.namespace)
    && Truthy(q.usageMetric.value.metricName)
    && q.usageMetric.value.dimensions.Some?
    && Truthy(q.usageMetric.value.statRecommendation)
  }

  /** validateQuotaHasUsageMetrics */
  function ValidateQuotaHasUsageMetrics(q: Quota): (r: Outcome)
    ensures r.Pass? || r.error.UnsupportedQuota?
  {
    if HasUsageMetrics(q) then Pass
    else Fail(UnsupportedQuota(Str(q.quotaCode) + " for " + Str(q.serviceName)
                               + " does not currently support utilization monitoring"))
  }

  /** Value of a key in an object given by its entries. */
  function Lookup(entries: seq<(string, string)>, key: string): Option<string> {
    if |entries| == 0 then None
    else if entries[0].0 == key then Some(entries[0].1)
    else Lookup(entries[1..], key)
  }

  lemma {:induction false} LookupFound(entries: seq<(string, string)>, key: string)
    ensures Lookup(entries, key).Some? <==> exists i :: 0 <= i < |entries| && entries[i].0 == key
  {
    if |entries| > 0 {
      LookupFound(entries[1..], key);
      if Lookup(entries[1..], key).Some? {
        var i :| 0 <= i < |entries[1..]| && entries[1..][i].0 == key;
        assert entries[i + 1].0 == key;
      }
      if exists i :: 0 <= i < |entries| && entries[i].0 == key {
        var i :| 0 <= i < |entries| && entries[i].0 == key;
        if i > 0 { assert entries[1..][i - 1].0 == key; }
      }
    }
  }

  /** `dims[key].toLowerCase()`, a TypeError when the key is missing. */
  function LowerDim(dims: seq<(string, string)>, key: string): Result<string> {
    match Lookup(dims, key)
    case Some(v) => Ok(Lower(v))
    case None => Err(TypeError("Cannot read properties of undefined (reading 'toLowerCase')"))
  }

  /** Id of the usage query: service, resource, class (first "/" dropped) and
      type, lower-cased and joined by "_". */
  function UsageQueryId(dims: seq<(string, string)>): Result<string> {
    var service :- LowerDim(dims, "Service");
    var resource :- LowerDim(dims, "Resource");
    var klass :- LowerDim(dims, "Class");
    var typ :- LowerDim(dims, "Type");
    Ok(service + "_" + resource + "_" + RemoveFirst(klass, '/') + "_" + typ)
  }

  predicate HasIdDimensions(dims: seq<(string, string)>) {
    Lookup(dims, "Service").Some? && Lookup(dims, "Resource").Some?
    && Lookup(dims, "Class").Some? && Lookup(dims, "Type").Some?
  }

  /** generateUsageQuery: the quota's own metric, at the given period and
      recommended statistic, not returned to the caller. */
  function GenerateUsageQuery(m: MetricInfo, period: nat): Result<MetricDataQuery>
    requires m.dimensions.Some?
  {
    var id :- UsageQueryId(m.dimensions.value);
    var dims := seq(|m.dimensions.value|, i requires 0 <= i < |m.dimensions.value| =>
                      Dimension(m.dimensions.value[i].0, m.dimensions.value[i].1));
    Ok(MetricDataQuery(id, Some(MetricStat(m.namespace, m.metricName, dims, period, m.statRecommendation)),
                       None, false))
  }

  /** generatePercentageUtilizationQuery */
  function GeneratePercentageUtilizationQuery(usageId: string): (q: MetricDataQuery)
    ensures q.returnData && q.metricStat.None?
  {
    MetricDataQuery(usageId + PctSuffix, None,
                    Some("(" + usageId + "/SERVICE_QUOTA(" + usageId + "))*100"), true)
  }

  /** generateCWQuery: validate, then the usage query followed by the
      percentage query built on its id. */
  function GenerateCWQuery(q: Quota, period: nat): Result<seq<MetricDataQuery>> {
    match ValidateQuotaHasUsageMetrics(q)
    case Fail(e) => Err(e)
    case Pass =>
      var usage :- GenerateUsageQuery(q.usageMetric.value, period);
      Ok([usage, GeneratePercentageUtilizationQuery(usage.id)])
  }

  /** generateCWQuery succeeds iff the quota has usage metrics whose
      dimensions name Service, Resource, Class and Type; an unsupported quota
      raises UnsupportedQuotaException and a missing dimension a TypeError.
      On success there are exactly two queries: the usage query (not
      returned, carrying the quota's namespace, metric name, statistic, the
      given period and one Name/Value dimension per entry) and the
      percentage query over it (returned). */
  lemma GenerateCWQuerySpec(q: Quota, period: nat)
    ensures GenerateCWQuery(q, period).Ok? <==>
      HasUsageMetrics(q) && HasIdDimensions(q.usageMetric.value.dimensions.value)
    ensures !HasUsageMetrics(q) ==> GenerateCWQuery(q, period).Err? && GenerateCWQuery(q, period).error.UnsupportedQuota?
    ensures HasUsageMetrics(q) && !HasIdDimensions(q.usageMetric.value.dimensions.value) ==>
      GenerateCWQuery(q, period).Err? && GenerateCWQuery(q, period).error.TypeError?
    ensures GenerateCWQuery(q, period).Ok? ==>
      var r := GenerateCWQuery(q, period).value;
      var m := q.usageMetric.value;
      && |r| == 2
      && !r[0].returnData && r[1].returnData
      && r[0].metricStat.Some? && r[0].expression.None?
      && r[0].metricStat.value.namespace == m.namespace
      && r[0].metricStat.value.metricName == m.metricName
      && r[0].metricStat.value.stat == m.statRecommendation
      && r[0].metricStat.value.period == period
      && |r[0].metricStat.value.dimensions| == |m.dimensions.value|
      && (forall i :: 0 <= i < |m.dimensions.value| ==>
            r[0].metricStat.value.dimensions[i] == Dimension(m.dimensions.value[i].0, m.dimensions.value[i].1))
      && r[1].id == r[0].id + PctSuffix
      && r[1].expression == Some("(" + r[0].id + "/SERVICE_QUOTA(" + r[0].id + "))*100")
  {
  }

  /** The usage id is the four lower-cased dimension values joined by "_",
      with the first "/" of the class removed. */
  lemma UsageQueryIdSpec(dims: seq<(string, string)>)
    ensures UsageQueryId(dims).Ok? <==> HasIdDimensions(dims)
    ensures UsageQueryId(dims).Ok? ==>
      UsageQueryId(dims).value ==
        Lower(Lookup(dims, "Service").value) + "_" + Lower(Lookup(dims, "Resource").value) + "_"
        + RemoveFirst(Lower(Lookup(dims, "Class").value), '/') + "_" + Lower(Lookup(dims, "Type").value)
  {
  }

  // ---------------------------------------------------------------------
  // getQuotasWithUtilizationMetrics
  // ---------------------------------------------------------------------

  /** Whether a quota survives validation: its queries can be built and the
      CloudWatch fetch of them succeeds (`fetchOk` stands for that call). */
  predicate Validated(q: Quota, fetchOk: seq<MetricDataQuery> -> bool) {
    GenerateCWQuery(q, 300).Ok? && fetchOk(GenerateCWQuery(q, 300).value)
  }

  function ValidatedQuotas(qs: seq<Quota>, fetchOk: seq<MetricDataQuery> -> bool): seq<Quota> {
    if |qs| == 0 then []
    else ValidatedQuotas(qs[..|qs| - 1], fetchOk) + (if Validated(qs[|qs| - 1], fetchOk) then [qs[|qs| - 1]] else [])
  }

  /** The validated quotas are a subset of the input, each one with
      buildable queries and a successful fetch, and every such quota is kept. */
  lemma {:induction false} ValidatedQuotasSpec(qs: seq<Quota>, fetchOk: seq<MetricDataQuery> -> bool)
    ensures forall q :: q in ValidatedQuotas(qs, fetchOk) <==> q in qs && Validated(q, fetchOk)
    ensures |ValidatedQuotas(qs, fetchOk)| <= |qs|
  {
    if |qs| > 0 {
      ValidatedQuotasSpec(qs[..|qs| - 1], fetchOk);
      assert qs == qs[..|qs| - 1] + [qs[|qs| - 1]];
    }
  }

  /** getQuotasWithUtilizationMetrics: an empty list is a configuration
      error; otherwise each quota is kept when its queries build and fetch. */
  method GetQuotasWithUtilizationMetrics(quotas: seq<Quota>, fetchOk: seq<MetricDataQuery> -> bool)
    returns (r: Result<seq<Quota>>)
    ensures |quotas| == 0 <==> r.Err?
    ensures r.Err? ==> r.error == IncorrectConfiguration("no quotas found")
    ensures r.Ok? ==> r.value == ValidatedQuotas(quotas, fetchOk)
  {
    if |quotas| == 0 {
      return Err(IncorrectConfiguration("no quotas found"));
    }
    var validated: seq<Quota> := [];
    var i := 0;
    while i < |quotas|
      invariant 0 <= i <= |quotas|
      invariant validated == ValidatedQuotas(quotas[..i], fetchOk)
    {
      assert quotas[..i + 1][..i] == quotas[..i];
      var queries := GenerateCWQuery(quotas[i], 300);
      if queries.Ok? && fetchOk(queries.value) {
        validated := validated + [quotas[i]];
      }
      i := i + 1;
    }
    assert quotas[..|quotas|] == quotas;
    r := Ok(validated);
  }
}
