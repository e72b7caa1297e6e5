/** The quota listing script (scripts/listQuotasWithLimitOne.ts): lists
    every service, and for each one the quotas whose value is 1 and that
    publish an AWS/Usage metric, retrying throttled calls with exponential
    back-off and working through the services in batches of five. */
module ListQuotas {
  import opened Common

  const MaxRetries: nat := 5
  const BatchSize: nat := 5
  const TooManyRequests: string := "TooManyRequestsException"

  // ---------------------------------------------------------------------
  // retryWithExponentialBackoff
  // ---------------------------------------------------------------------

  /** What one call of an operation does: return a value or throw an
      error of the given name. */
  datatype Attempt<T> = Done(value: T) | Failed(errorName: string)

  function Pow2(k: nat): (p: nat)
    ensures p >= 1
  {
    if k == 0 then 1 else 2 * Pow2(k - 1)
  }

  /** The outcome of the retries: the final result, and the base delay
      (without jitter) slept before each retry, in milliseconds. */
  datatype Retried<T> = Retried(result: Attempt<T>, delays: seq<nat>)

  /** retryWithExponentialBackoff from retry `retryCount` on; `attempt(k)`
      is what call number k does. Only TooManyRequestsException is retried,
      and only while fewer than MaxRetries retries have been made. */
  function Retry<T>(attempt: nat -> Attempt<T>, retryCount: nat): Retried<T>
    decreases MaxRetries - retryCount
  {
    var a := attempt(retryCount);
    if a.Failed? && a.errorName == TooManyRequests && retryCount < MaxRetries then
      var rest := Retry(attempt, retryCount + 1);
      Retried(rest.result, [Pow2(retryCount) * 1000] + rest.delays)
    else Retried(a, [])
  }

  /** Starting from retry k: the retries made are the calls k, k+1, ...
      that were throttled, each preceded by a delay of 2^i seconds; the
      result is the first call that was not throttled, or the last call
      allowed (MaxRetries) whatever it did. */
  lemma RetrySpec<T>(attempt: nat -> Attempt<T>, k: nat)
    requires k <= MaxRetries
    ensures var r := Retry(attempt, k);
      && k + |r.delays| <= MaxRetries
      && (forall i :: 0 <= i < |r.delays| ==> r.delays[i] == Pow2(k + i) * 1000)
      && (forall i :: k <= i < k + |r.delays| ==> attempt(i) == Failed(TooManyRequests))
      && r.result == attempt(k + |r.delays|)
      && (k + |r.delays| < MaxRetries ==> attempt(k + |r.delays|) != Failed(TooManyRequests))
  {
    RetryDelays(attempt, k);
    RetryOutcome(attempt, k);
  }

  /** The waits: one per retry, 2^i seconds before retry i, and never more
      retries than MaxRetries allows. */
  lemma {:induction false} RetryDelays<T>(attempt: nat -> Attempt<T>, k: nat)
    requires k <= MaxRetries
    ensures k + |Retry(attempt, k).delays| <= MaxRetries
    ensures forall i :: 0 <= i < |Retry(attempt, k).delays| ==> Retry(attempt, k).delays[i] == Pow2(k + i) * 1000
    decreases MaxRetries - k
  {
    var a := attempt(k);
    if a.Failed? && a.errorName == TooManyRequests && k < MaxRetries {
      RetryDelays(attempt, k + 1);
      var rest := Retry(attempt, k + 1);
      var r := Retry(attempt, k);
      assert r.delays == [Pow2(k) * 1000] + rest.delays;
      forall i | 1 <= i < |r.delays|
        ensures r.delays[i] == Pow2(k + i) * 1000
      {
        assert r.delays[i] == rest.delays[i - 1];
      }
    }
  }

  /** The calls retried are exactly the throttled ones, and the result is
      the first call that was not throttled or the last call allowed. */
  lemma {:induction false} RetryOutcome<T>(attempt: nat -> Attempt<T>, k: nat)
    requires k <= MaxRetries
    ensures var n := |Retry(attempt, k).delays|;
      && (forall i :: k <= i < k + n ==> attempt(i) == Failed(TooManyRequests))
      && Retry(attempt, k).result == attempt(k + n)
      && (k + n < MaxRetries ==> attempt(k + n) != Failed(TooManyRequests))
    decreases MaxRetries - k
  {
    var a := attempt(k);
    if a.Failed? && a.errorName == TooManyRequests && k < MaxRetries {
      RetryOutcome(attempt, k + 1);
      var rest := Retry(attempt, k + 1);
      assert |Retry(attempt, k).delays| == 1 + |rest.delays|;
    }
  }

  /** At most MaxRetries + 1 calls in all, and any error other than
      throttling is rethrown at once. */
  lemma RetryBounds<T>(attempt: nat -> Attempt<T>)
    ensures |Retry(attempt, 0).delays| <= MaxRetries
    ensures attempt(0).Failed? && attempt(0).errorName != TooManyRequests ==> Retry(attempt, 0) == Retried(attempt(0), [])
    ensures (forall i :: attempt(i) == Failed(TooManyRequests)) ==>
      Retry(attempt, 0).result == Failed(TooManyRequests) && |Retry(attempt, 0).delays| == MaxRetries
  {
    RetrySpec(attempt, 0);
  }

  // ---------------------------------------------------------------------
  // getServiceCodes
  // ---------------------------------------------------------------------

  /** A listing: the pages received, then the error that ended the
      listing, if any. */
  datatype Listing<T> = Listing(pages: seq<Option<seq<T>>>, error: Option<string>)

  /** The defined codes of one page, in order. */
  function Defined(codes: seq<Option<string>>): (r: seq<string>)
    ensures forall c :: c in r <==> Some(c) in codes
  {
    if |codes| == 0 then []
    else Defined(codes[..|codes| - 1]) + (if codes[|codes| - 1].Some? then [codes[|codes| - 1].value] else [])
  }

  /** The service codes across the pages; a page without Services adds
      nothing. */
  function ServiceCodes(pages: seq<Option<seq<Option<string>>>>): seq<string> {
    if |pages| == 0 then []
    else
      var page := pages[|pages| - 1];
      ServiceCodes(pages[..|pages| - 1]) + (if page.Some? then Defined(page.value) else [])
  }

  /** A code is listed exactly when some page defines it. */
  lemma {:induction false} ServiceCodesSpec(pages: seq<Option<seq<Option<string>>>>, c: string)
    ensures c in ServiceCodes(pages) <==> exists i :: 0 <= i < |pages| && pages[i].Some? && Some(c) in pages[i].value
  {
    if |pages| > 0 {
      var p := pages[..|pages| - 1];
      ServiceCodesSpec(p, c);
      if exists i :: 0 <= i < |pages| && pages[i].Some? && Some(c) in pages[i].value {
        var i :| 0 <= i < |pages| && pages[i].Some? && Some(c) in pages[i].value;
        if i < |p| {
          assert p[i] == pages[i];
        }
      }
      if exists i :: 0 <= i < |p| && p[i].Some? && Some(c) in p[i].value {
        var i :| 0 <= i < |p| && p[i].Some? && Some(c) in p[i].value;
        assert pages[i] == p[i];
      }
    }
  }

  /** getServiceCodes on one listing. */
  method GetServiceCodes(listing: Listing<Option<string>>) returns (r: Attempt<seq<string>>)
    ensures listing.error.Some? ==> r == Failed(listing.error.value)
    ensures listing.error.None? ==> r == Done(ServiceCodes(listing.pages))
  {
    var codes: seq<string> := [];
    var pages := listing.pages;
    for i := 0 to |pages|
      invariant codes == ServiceCodes(pages[..i])
    {
      assert pages[..i + 1][..i] == pages[..i];
      if pages[i].Some? {
        codes := codes + Defined(pages[i].value);
      }
    }
    if listing.error.Some? {
      return Failed(listing.error.value);
    }
    assert pages[..|pages|] == pages;
    r := Done(codes);
  }

  // ---------------------------------------------------------------------
  // getQuotasForService
  // ---------------------------------------------------------------------

  /** The fields of a listed quota the filter reads; None when absent. */
  datatype Quota = Quota(value: Option<real>, metricNamespace: Option<string>, quotaCode: Option<string>,
                         quotaName: Option<string>)

  datatype QuotaInfo = QuotaInfo(quotaCode: string, quotaName: string)

  /** Value === 1, an AWS/Usage metric, and a code and a name. */
  predicate Qualifies(q: Quota) {
    q.value == Some(1.0) && q.metricNamespace == Some("AWS/Usage") && q.quotaCode.Some? && q.quotaName.Some?
  }

  function Info(q: Quota): QuotaInfo
    requires Qualifies(q)
  {
    QuotaInfo(q.quotaCode.value, q.quotaName.value)
  }

  function Qualifying(qs: seq<Quota>): seq<QuotaInfo> {
    if |qs| == 0 then []
    else Qualifying(qs[..|qs| - 1]) + (if Qualifies(qs[|qs| - 1]) then [Info(qs[|qs| - 1])] else [])
  }

  function QuotasOf(pages: seq<Option<seq<Quota>>>): seq<QuotaInfo> {
    if |pages| == 0 then []
    else
      var page := pages[|pages| - 1];
      QuotasOf(pages[..|pages| - 1]) + (if page.Some? then Qualifying(page.value) else [])
  }

  /** The result holds exactly the qualifying quotas of the pages. */
  lemma {:induction false} QualifyingSpec(qs: seq<Quota>, info: QuotaInfo)
    ensures info in Qualifying(qs) <==> exists i :: 0 <= i < |qs| && Qualifies(qs[i]) && Info(qs[i]) == info
  {
    if |qs| > 0 {
      var p := qs[..|qs| - 1];
      QualifyingSpec(p, info);
      if exists i :: 0 <= i < |qs| && Qualifies(qs[i]) && Info(qs[i]) == info {
        var i :| 0 <= i < |qs| && Qualifies(qs[i]) && Info(qs[i]) == info;
        if i < |p| {
          assert p[i] == qs[i];
        }
      }
      if exists i :: 0 <= i < |p| && Qualifies(p[i]) && Info(p[i]) == info {
        var i :| 0 <= i < |p| && Qualifies(p[i]) && Info(p[i]) == info;
        assert qs[i] == p[i];
      }
    }
  }

  /** getQuotasForService on one listing: throttling is rethrown, any other
      error gives the empty list. */
  method GetQuotasForService(listing: Listing<Quota>) returns (r: Attempt<seq<QuotaInfo>>)
    ensures listing.error == Some(TooManyRequests) ==> r == Failed(TooManyRequests)
    ensures listing.error.Some? && listing.error.value != TooManyRequests ==> r == Done([])
    ensures listing.error.None? ==> r == Done(QuotasOf(listing.pages))
  {
    var info: seq<QuotaInfo> := [];
    var pages := listing.pages;
    for i := 0 to |pages|
      invariant info == QuotasOf(pages[..i])
    {
      assert pages[..i + 1][..i] == pages[..i];
      if pages[i].Some? {
        var page := pages[i].value;
        var filtered: seq<QuotaInfo> := [];
        for j := 0 to |page|
          invariant filtered == Qualifying(page[..j])
        {
          assert page[..j + 1][..j] == page[..j];
          if Qualifies(page[j]) {
            filtered := filtered + [Info(page[j])];
          }
        }
        assert page[..|page|] == page;
        info := info + filtered;
      }
    }
    if listing.error.Some? {
      if listing.error.value == TooManyRequests {
        return Failed(TooManyRequests);
      }
      return Done([]);
    }
    assert pages[..|pages|] == pages;
    r := Done(info);
  }

  /** The same, as a value. */
  function QuotasAttempt(listing: Listing<Quota>): Attempt<seq<QuotaInfo>> {
    if listing.error == Some(TooManyRequests) then Failed(TooManyRequests)
    else if listing.error.Some? then Done([])
    else Done(QuotasOf(listing.pages))
  }

  /** What one service contributes: its quotas after the retries, or none
      when they still fail. */
  function ServiceQuotas(listings: nat -> Listing<Quota>): seq<QuotaInfo> {
    var r := Retry((k: nat) => QuotasAttempt(listings(k)), 0);
    if r.result.Done? then r.result.value else []
  }

  // ---------------------------------------------------------------------
  // getAllServicesQuotasWithLimitOne
  // ---------------------------------------------------------------------

  /** The result object: its keys in insertion order, and their lists. */
  datatype QuotaMap = QuotaMap(order: seq<string>, lists: map<string, seq<QuotaInfo>>)

  ghost predicate WellFormed(m: QuotaMap) {
    NoDuplicates(m.order) && (forall k :: k in m.lists <==> k in m.order)
  }

  /** `result[code] = list` when the list is non-empty. */
  function Record(m: QuotaMap, code: string, list: seq<QuotaInfo>): (r: QuotaMap)
    ensures WellFormed(m) ==> WellFormed(r)
  {
    if |list| == 0 then m
    else if code in m.lists then QuotaMap(m.order, m.lists[code := list])
    else QuotaMap(m.order + [code], m.lists[code := list])
  }

  /** What each service contributes: `quotas(code)` after the retries. */
  function ServiceLookup(quotas: string -> nat -> Listing<Quota>): string -> seq<QuotaInfo> {
    (c: string) => ServiceQuotas(quotas(c))
  }

  /** The services processed one after the other; `lookup(code)` is what
      the service contributes. */
  function Collect(codes: seq<string>, lookup: string -> seq<QuotaInfo>): QuotaMap {
    if |codes| == 0 then QuotaMap([], map[])
    else
      var c := codes[|codes| - 1];
      Record(Collect(codes[..|codes| - 1], lookup), c, lookup(c))
  }

  /** Every service with qualifying quotas is in the result with the
      quotas of its last listing, and no other service is. */
  lemma {:induction false} CollectSpec(codes: seq<string>, lookup: string -> seq<QuotaInfo>)
    ensures WellFormed(Collect(codes, lookup))
    ensures forall c :: c in Collect(codes, lookup).lists <==> c in codes && |lookup(c)| > 0
    ensures forall c :: c in Collect(codes, lookup).lists ==> Collect(codes, lookup).lists[c] == lookup(c)
  {
    if |codes| > 0 {
      CollectSpec(codes[..|codes| - 1], lookup);
      assert codes == codes[..|codes| - 1] + [codes[|codes| - 1]];
    }
  }

  /** getServiceCodes as a value. */
  function CodesAttempt(listing: Listing<Option<string>>): Attempt<seq<string>> {
    if listing.error.Some? then Failed(listing.error.value) else Done(ServiceCodes(listing.pages))
  }

  /** The service codes after the retries; `listServices(k)` is the k-th
      call's listing. */
  function ListedCodes(listServices: nat -> Listing<Option<string>>): Attempt<seq<string>> {
    Retry((k: nat) => CodesAttempt(listServices(k)), 0).result
  }

  lemma CollectSnoc(codes: seq<string>, i: nat, lookup: string -> seq<QuotaInfo>)
    requires i < |codes|
    ensures Collect(codes[..i + 1], lookup) == Record(Collect(codes[..i], lookup), codes[i], lookup(codes[i]))
  {
    assert codes[..i + 1][..i] == codes[..i];
  }

  /** One batch: every service of codes[start..end] is looked up (the
      lookups run concurrently), then the results are recorded in the
      batch's order. */
  method RunBatch(codes: seq<string>, start: nat, end: nat, lookup: string -> seq<QuotaInfo>, before: QuotaMap)
    returns (after: QuotaMap)
    requires start <= end <= |codes|
    requires before == Collect(codes[..start], lookup)
    ensures after == Collect(codes[..end], lookup)
  {
    var batch := codes[start..end];
    var lists: seq<seq<QuotaInfo>> := [];
    for j := 0 to |batch|
      invariant |lists| == j
      invariant forall t :: 0 <= t < j ==> lists[t] == lookup(batch[t])
    {
      lists := lists + [lookup(batch[j])];
    }
    after := before;
    for j := 0 to |batch|
      invariant after == Collect(codes[..start + j], lookup)
    {
      CollectSnoc(codes, start + j, lookup);
      after := Record(after, batch[j], lists[j]);
    }
  }

  /** The batch loop: services are taken BatchSize at a time. The outcome
      is the same as one service after the other; when the services cannot
      be listed the result is empty. `quotas(code)(k)` is the k-th call's
      listing of the service's quotas. */
  method GetAllServicesQuotasWithLimitOne(listServices: nat -> Listing<Option<string>>,
                                          quotas: string -> nat -> Listing<Quota>)
    returns (result: QuotaMap)
    ensures ListedCodes(listServices).Failed? ==> result == QuotaMap([], map[])
    ensures ListedCodes(listServices).Done? ==> result == Collect(ListedCodes(listServices).value, ServiceLookup(quotas))
  {
    var lookup := ServiceLookup(quotas);
    var codes := ListedCodes(listServices);
    if codes.Failed? {
      return QuotaMap([], map[]);
    }
    var serviceCodes := codes.value;
    result := QuotaMap([], map[]);
    var i := 0;
    while i < |serviceCodes|
      invariant 0 <= i <= |serviceCodes|
      invariant result == Collect(serviceCodes[..i], lookup)
      decreases |serviceCodes| - i
    {
      var end := if i + BatchSize <= |serviceCodes| then i + BatchSize else |serviceCodes|;
      result := RunBatch(serviceCodes, i, end, lookup, result);
      i := end;
    }
    assert serviceCodes[..|serviceCodes|] == serviceCodes;
  }

  function SumLengths(order: seq<string>, lists: map<string, seq<QuotaInfo>>): nat {
    if |order| == 0 then 0
    else SumLengths(order[..|order| - 1], lists) + (if order[|order| - 1] in lists then |lists[order[|order| - 1]]| else 0)
  }

  /** The total printed by main: the sum of the list lengths. */
  method TotalQuotas(m: QuotaMap) returns (total: nat)
    ensures total == SumLengths(m.order, m.lists)
  {
    total := 0;
    for i := 0 to |m.order|
      invariant total == SumLengths(m.order[..i], m.lists)
    {
      assert m.order[..i + 1][..i] == m.order[..i];
      if m.order[i] in m.lists {
        total := total + |m.lists[m.order[i]]|;
      }
    }
    assert m.order[..|m.order|] == m.order;
  }

  /** A service with a single qualifying quota counts one in the total;
      services without any are not in the result and count nothing. */
  lemma {:induction false} TotalPositive(m: QuotaMap)
    requires WellFormed(m)
    requires forall k :: k in m.lists ==> |m.lists[k]| > 0
    ensures SumLengths(m.order, m.lists) >= |m.order|
  {
    TotalPositiveOrder(m.order, m.lists);
  }

  lemma {:induction false} TotalPositiveOrder(order: seq<string>, lists: map<string, seq<QuotaInfo>>)
    requires forall i :: 0 <= i < |order| ==> order[i] in lists && |lists[order[i]]| > 0
    ensures SumLengths(order, lists) >= |order|
  {
    if |order| > 0 {
      TotalPositiveOrder(order[..|order| - 1], lists);
    }
  }
}
