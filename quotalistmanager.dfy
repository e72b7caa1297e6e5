/** Quota list manager of a Service Quotas spoke
    (services/quotaListManager/exports.ts): keeps the service table (which
    services are monitored) and the quota table (which quotas of a monitored
    service have utilization metrics) in step, driven by the service
    table's DynamoDB stream. */
module QuotaListManager {
  import opened Common
  import SQ = ServiceQuotas

  /** SUPPORTED_SERVICES, the values of SQ_SERVICE_CODES. */
  const SupportedServices: seq<string> := ["monitoring", "dynamodb", "ec2", "ecr", "firehose"]

  /** One image of a service-table item: the S value of its ServiceCode
      attribute (None when the attribute is missing) and the BOOL value of
      its Monitored attribute. */
  datatype Image = Image(serviceCode: Option<string>, monitored: Option<bool>)

  datatype StreamRecord = StreamRecord(eventName: Option<string>, newImage: Option<Image>, oldImage: Option<Image>)

  /** A trigger event: its Records array, None when the key is absent. */
  datatype StreamEvent = StreamEvent(records: Option<seq<StreamRecord>>)

  datatype Operation = INSERT | MODIFY | REMOVE

  predicate Truthy(s: Option<string>) { s.Some? && s.value != "" }

  function NewCode(r: StreamRecord): Option<string> { if r.newImage.Some? then r.newImage.value.serviceCode else None }
  function OldCode(r: StreamRecord): Option<string> { if r.oldImage.Some? then r.oldImage.value.serviceCode else None }
  function NewMonitored(r: StreamRecord): Option<bool> { if r.newImage.Some? then r.newImage.value.monitored else None }
  function OldMonitored(r: StreamRecord): Option<bool> { if r.oldImage.Some? then r.oldImage.value.monitored else None }

  /** The record a single-record event carries, or the TypeError of reading
      `Records[0].eventName` when there is none. */
  function FirstRecord(event: StreamEvent): Result<StreamRecord> {
    if event.records.None? then Err(TypeError("Cannot read properties of undefined (reading '0')"))
    else if |event.records.value| == 0 then Err(TypeError("Cannot read properties of undefined (reading 'eventName')"))
    else Ok(event.records.value[0])
  }

  const BadFormat := IncorrectConfiguration("incorrect stream record format")

  /** readDynamoDBStreamEvent */
  function ReadDynamoDBStreamEvent(event: StreamEvent): Result<Operation> {
    if event.records.Some? && |event.records.value| > 1 then
      Err(IncorrectConfiguration("batch size more than 1 not supported"))
    else
      var r :- FirstRecord(event);
      if r.eventName == Some("INSERT") && Truthy(NewCode(r)) && NewMonitored(r) == Some(true) then Ok(INSERT)
      else if r.eventName == Some("MODIFY") && NewMonitored(r) != OldMonitored(r) then Ok(MODIFY)
      else if r.eventName == Some("REMOVE") && Truthy(OldCode(r)) then Ok(REMOVE)
      else Err(BadFormat)
  }

  /** Classification of a single-record stream event: INSERT iff a new item
      with a service code is monitored; MODIFY iff the Monitored flag
      changed; REMOVE iff the removed item had a service code; anything else
      (an unchanged flag included) is a malformed record. More than one
      record is refused outright. */
  lemma ReadDynamoDBStreamEventSpec(event: StreamEvent, r: StreamRecord)
    requires event.records == Some([r])
    ensures ReadDynamoDBStreamEvent(event) == Ok(INSERT) <==>
      r.eventName == Some("INSERT") && Truthy(NewCode(r)) && NewMonitored(r) == Some(true)
    ensures ReadDynamoDBStreamEvent(event) == Ok(MODIFY) <==>
      r.eventName == Some("MODIFY") && NewMonitored(r) != OldMonitored(r)
    ensures ReadDynamoDBStreamEvent(event) == Ok(REMOVE) <==>
      r.eventName == Some("REMOVE") && Truthy(OldCode(r))
    ensures ReadDynamoDBStreamEvent(event).Err? ==> ReadDynamoDBStreamEvent(event).error == BadFormat
    ensures r.eventName == Some("MODIFY") && NewMonitored(r) == OldMonitored(r) ==>
      ReadDynamoDBStreamEvent(event) == Err(BadFormat)
  {
  }

  lemma BatchRefused(event: StreamEvent)
    requires event.records.Some? && |event.records.value| > 1
    ensures ReadDynamoDBStreamEvent(event) == Err(IncorrectConfiguration("batch size more than 1 not supported"))
  {
  }

  /** What handling one record asks of the tables, in order. */
  datatype Action = PutQuotasFor(code: Option<string>) | DeleteQuotasFor(code: Option<string>)

  /** `NewImage?.ServiceCode.S`: undefined when there is no new image, a
      TypeError when the image lacks the attribute. */
  function NewCodeRead(r: StreamRecord): Result<Option<string>> {
    if r.newImage.None? then Ok(None)
    else if r.newImage.value.serviceCode.None? then Err(TypeError("Cannot read properties of undefined (reading 'S')"))
    else Ok(r.newImage.value.serviceCode)
  }

  /** handleDynamoDBStreamEvent's dispatch. */
  function Dispatch(event: StreamEvent): Result<seq<Action>> {
    var op :- ReadDynamoDBStreamEvent(event);
    var r := event.records.value[0];
    match op
    case INSERT => Ok([PutQuotasFor(NewCode(r))])
    case MODIFY =>
      var code :- NewCodeRead(r);
      if NewMonitored(r) == Some(true) then Ok([DeleteQuotasFor(code), PutQuotasFor(code)])
      else Ok([DeleteQuotasFor(code)])
    case REMOVE => Ok([DeleteQuotasFor(OldCode(r))])
  }

  /** INSERT only adds the new service's quotas; MODIFY always deletes them
      first and re-adds them iff the service is now monitored; REMOVE only
      deletes the old service's quotas. */
  lemma DispatchSpec(event: StreamEvent)
    ensures ReadDynamoDBStreamEvent(event) == Ok(INSERT) ==>
      Dispatch(event) == Ok([PutQuotasFor(NewCode(event.records.value[0]))])
    ensures ReadDynamoDBStreamEvent(event) == Ok(MODIFY) && NewCodeRead(event.records.value[0]).Ok? ==>
      var r := event.records.value[0];
      && Dispatch(event).Ok?
      && Dispatch(event).value[0] == DeleteQuotasFor(NewCode(r))
      && (|Dispatch(event).value| == 2 <==> NewMonitored(r) == Some(true))
      && (|Dispatch(event).value| == 2 ==> Dispatch(event).value[1] == PutQuotasFor(NewCode(r)))
    ensures ReadDynamoDBStreamEvent(event) == Ok(REMOVE) ==>
      Dispatch(event) == Ok([DeleteQuotasFor(OldCode(event.records.value[0]))])
    ensures ReadDynamoDBStreamEvent(event).Err? ==> Dispatch(event) == Err(ReadDynamoDBStreamEvent(event).error)
  {
  }

  /** Key of a delete request: ServiceCode and QuotaCode of the quota item. */
  datatype DeleteKey = DeleteKey(serviceCode: Option<string>, quotaCode: Option<string>)

  function DeleteKeys(quotas: seq<SQ.Quota>): (keys: seq<DeleteKey>)
    ensures |keys| == |quotas|
    ensures forall i :: 0 <= i < |quotas| ==> keys[i] == DeleteKey(quotas[i].serviceCode, quotas[i].quotaCode)
  {
    if |quotas| == 0 then [] else [DeleteKey(quotas[0].serviceCode, quotas[0].quotaCode)] + DeleteKeys(quotas[1..])
  }

  /** _getChunkedDeleteQuotasRequests */
  function ChunkedDeleteQuotasRequests(quotas: seq<SQ.Quota>): seq<seq<DeleteKey>> {
    Chunks(DeleteKeys(quotas), 25)
  }

  /** One key per quota, in order, in batches of at most 25. */
  lemma ChunkedDeleteSpec(quotas: seq<SQ.Quota>)
    ensures Flatten(ChunkedDeleteQuotasRequests(quotas)) == DeleteKeys(quotas)
    ensures forall c :: c in ChunkedDeleteQuotasRequests(quotas) ==> 1 <= |c| <= 25
  {
    FlattenChunks(DeleteKeys(quotas), 25);
    ChunkBounds(DeleteKeys(quotas), 25);
  }

  /** _getQuotasWithUtilizationMetrics: the service code is checked before
      any lookup. `pagesOf` stands for the Service Quotas paginator and
      `fetchOk` for the CloudWatch probe. */
  function QuotasWithUtilizationMetrics(code: Option<string>, pagesOf: string -> seq<Option<seq<SQ.Quota>>>,
                                        fetchOk: seq<SQ.MetricDataQuery> -> bool): Result<seq<SQ.Quota>> {
    if code.None? || code.value !in SupportedServices then
      Err(IncorrectConfiguration("service " + SQ.Str(code) + " is not supported"))
    else
      var quotas := SQ.QuotasSupportingUsage(pagesOf(code.value));
      if |quotas| == 0 then Err(IncorrectConfiguration("no quotas found"))
      else Ok(SQ.ValidatedQuotas(quotas, fetchOk))
  }

  /** An unsupported code is refused whatever the quota sources say; a
      supported one yields only validated usage quotas of that service. */
  lemma QuotasWithUtilizationMetricsSpec(code: Option<string>, pagesOf: string -> seq<Option<seq<SQ.Quota>>>,
                                         fetchOk: seq<SQ.MetricDataQuery> -> bool)
    ensures (code.None? || code.value !in SupportedServices) ==>
      QuotasWithUtilizationMetrics(code, pagesOf, fetchOk).Err?
      && QuotasWithUtilizationMetrics(code, pagesOf, fetchOk).error.IncorrectConfiguration?
    ensures QuotasWithUtilizationMetrics(code, pagesOf, fetchOk).Ok? ==>
      code.Some? && code.value in SupportedServices
      && forall q :: q in QuotasWithUtilizationMetrics(code, pagesOf, fetchOk).value ==>
           SQ.SupportsUsage(q) && SQ.Validated(q, fetchOk) && SQ.InSomePage(pagesOf(code.value), q)
  {
    if code.Some? && code.value in SupportedServices {
      var quotas := SQ.QuotasSupportingUsage(pagesOf(code.value));
      SQ.QuotasSupportingUsageSpec(pagesOf(code.value));
      SQ.ValidatedQuotasSpec(quotas, fetchOk);
    }
  }

  /** What getServiceMonitoringStatus returns: the stored items of the
      supported services, in service order. */
  function StatusItems(table: map<string, bool>, services: seq<string>): seq<(string, bool)> {
    if |services| == 0 then []
    else (if services[0] in table then [(services[0], table[services[0]])] else []) + StatusItems(table, services[1..])
  }

  /** Exactly the stored (service, Monitored) pairs of the listed services. */
  lemma {:induction false} StatusItemsSpec(table: map<string, bool>, services: seq<string>)
    ensures forall it :: it in StatusItems(table, services) ==> it.0 in services && it.0 in table && table[it.0] == it.1
    ensures forall s :: s in services && s in table ==> (s, table[s]) in StatusItems(table, services)
  {
    if |services| > 0 {
      StatusItemsSpec(table, services[1..]);
      forall s | s in services && s in table
        ensures (s, table[s]) in StatusItems(table, services)
      {
        if s != services[0] {
          assert s in services[1..];
        }
      }
    }
  }

  /** The TypeError of mapping over the result of a failed query. */
  const MapOfUndefined := TypeError("Cannot read properties of undefined (reading 'map')")

  datatype QuotaWrite = PutQuota(quota: SQ.Quota) | BatchDelete(keys: seq<DeleteKey>)

  /** The two tables: the service table as code -> Monitored, and the
      quota table as the log of writes it has received. */
  class Tables {
    var serviceTable: map<string, bool>
    var quotaWrites: seq<QuotaWrite>

    constructor (services: map<string, bool>)
      ensures serviceTable == services && quotaWrites == []
    {
      serviceTable := services;
      quotaWrites := [];
    }

    /** putServiceMonitoringStatus: every supported service without an item
        gets {ServiceCode, Monitored: true}; an item the read failed on
        (`readFails`) is overwritten the same way, because a failed read
        returns undefined. */
    method PutServiceMonitoringStatus(readFails: set<string>)
      modifies this
      ensures forall s :: s in SupportedServices ==> s in serviceTable
      ensures forall s :: s in SupportedServices && (s !in old(serviceTable) || s in readFails) ==> serviceTable[s]
      ensures forall s :: s in old(serviceTable) && !(s in SupportedServices && s in readFails) ==>
        s in serviceTable && serviceTable[s] == old(serviceTable)[s]
      ensures forall s :: s in serviceTable ==> s in old(serviceTable) || s in SupportedServices
      ensures quotaWrites == old(quotaWrites)
    {
      PutStatusOf(SupportedServices, readFails);
    }

    /** The loop of putServiceMonitoringStatus over a list of services. */
    method PutStatusOf(services: seq<string>, readFails: set<string>)
      modifies this
      ensures forall s :: s in services ==> s in serviceTable
      ensures forall s :: s in services && (s !in old(serviceTable) || s in readFails) ==> serviceTable[s]
      ensures forall s :: s in old(serviceTable) && !(s in services && s in readFails) ==>
        s in serviceTable && serviceTable[s] == old(serviceTable)[s]
      ensures forall s :: s in serviceTable ==> s in old(serviceTable) || s in services
      ensures quotaWrites == old(quotaWrites)
    {
      for i := 0 to |services|
        invariant forall j :: 0 <= j < i ==> services[j] in serviceTable
        invariant forall j :: 0 <= j < i && (services[j] !in old(serviceTable) || services[j] in readFails) ==>
          serviceTable[services[j]]
        invariant forall s :: s in old(serviceTable) && !(s in services[..i] && s in readFails) ==>
          s in serviceTable && serviceTable[s] == old(serviceTable)[s]
        invariant forall s :: s in serviceTable ==> s in old(serviceTable) || s in services[..i]
        invariant quotaWrites == old(quotaWrites)
      {
        var service := services[i];
        if service !in serviceTable || service in readFails {
          serviceTable := serviceTable[service := true];
        }
      }
    }

    /** getServiceMonitoringStatus */
    method GetServiceMonitoringStatus() returns (items: seq<(string, bool)>)
      ensures items == StatusItems(serviceTable, SupportedServices)
    {
      items := StatusOf(SupportedServices);
    }

    /** The stored items of a list of services, in order. */
    method StatusOf(services: seq<string>) returns (items: seq<(string, bool)>)
      ensures items == StatusItems(serviceTable, services)
    {
      items := [];
      var i := 0;
      while i < |services|
        invariant 0 <= i <= |services|
        invariant items + StatusItems(serviceTable, services[i..]) == StatusItems(serviceTable, services)
      {
        assert services[i..][1..] == services[i + 1..];
        if services[i] in serviceTable {
          items := items + [(services[i], serviceTable[services[i]])];
        }
        i := i + 1;
      }
    }

    /** putQuotasForService: one put per validated quota. */
    method PutQuotasForService(code: Option<string>, pagesOf: string -> seq<Option<seq<SQ.Quota>>>,
                               fetchOk: seq<SQ.MetricDataQuery> -> bool) returns (r: Outcome)
      modifies this
      ensures var q := QuotasWithUtilizationMetrics(code, pagesOf, fetchOk);
        && (q.Ok? ==> r == Pass)
        && (q.Err? ==> r == Fail(q.error) && quotaWrites == old(quotaWrites))
        && (q.Ok? ==> quotaWrites == old(quotaWrites) + Puts(q.value))
      ensures serviceTable == old(serviceTable)
    {
      var q := QuotasWithUtilizationMetrics(code, pagesOf, fetchOk);
      if q.Err? {
        return Fail(q.error);
      }
      PutQuotas(q.value);
      r := Pass;
    }

    /** One put per quota, in order. */
    method PutQuotas(quotas: seq<SQ.Quota>)
      modifies this
      ensures quotaWrites == old(quotaWrites) + Puts(quotas)
      ensures serviceTable == old(serviceTable)
    {
      for i := 0 to |quotas|
        invariant quotaWrites == old(quotaWrites) + Puts(quotas[..i])
        invariant serviceTable == old(serviceTable)
      {
        assert quotas[..i + 1] == quotas[..i] + [quotas[i]];
        PutsAppend(quotas[..i], [quotas[i]]);
        quotaWrites := quotaWrites + [PutQuota(quotas[i])];
      }
      assert quotas[..|quotas|] == quotas;
    }

    /** deleteQuotasForService: the service's items, as the query returns
        them (None when the query failed, which makes the `map` call throw),
        deleted in batches of 25. */
    method DeleteQuotasForService(items: Option<seq<SQ.Quota>>) returns (r: Outcome)
      modifies this
      ensures items.None? ==> r == Fail(MapOfUndefined) && quotaWrites == old(quotaWrites)
      ensures items.Some? ==> r.Pass? && quotaWrites == old(quotaWrites) + Deletes(ChunkedDeleteQuotasRequests(items.value))
      ensures serviceTable == old(serviceTable)
    {
      if items.None? {
        return Fail(MapOfUndefined);
      }
      var chunks := ChunkedDeleteQuotasRequests(items.value);
      for i := 0 to |chunks|
        invariant quotaWrites == old(quotaWrites) + Deletes(chunks[..i])
        invariant serviceTable == old(serviceTable)
      {
        assert chunks[..i + 1] == chunks[..i] + [chunks[i]];
        DeletesAppend(chunks[..i], [chunks[i]]);
        quotaWrites := quotaWrites + [BatchDelete(chunks[i])];
      }
      assert chunks[..|chunks|] == chunks;
      r := Pass;
    }

    /** One dispatched action run against the quota table. */
    method RunAction(a: Action, pagesOf: string -> seq<Option<seq<SQ.Quota>>>,
                     fetchOk: seq<SQ.MetricDataQuery> -> bool,
                     itemsOf: Option<string> -> Option<seq<SQ.Quota>>) returns (r: Outcome)
      modifies this
      ensures r == ActionEffect(a, pagesOf, fetchOk, itemsOf).0
      ensures quotaWrites == old(quotaWrites) + ActionEffect(a, pagesOf, fetchOk, itemsOf).1
      ensures serviceTable == old(serviceTable)
    {
      match a
      case PutQuotasFor(code) =>
        r := PutQuotasForService(code, pagesOf, fetchOk);
      case DeleteQuotasFor(code) =>
        r := DeleteQuotasForService(itemsOf(code));
    }

    /** handleDynamoDBStreamEvent: the switch over the record's operation;
        `itemsOf` stands for the quota-table query by service code. */
    method HandleDynamoDBStreamEvent(event: StreamEvent, pagesOf: string -> seq<Option<seq<SQ.Quota>>>,
                                     fetchOk: seq<SQ.MetricDataQuery> -> bool,
                                     itemsOf: Option<string> -> Option<seq<SQ.Quota>>) returns (r: Outcome)
      modifies this
      ensures r == HandleEffect(event, pagesOf, fetchOk, itemsOf).0
      ensures quotaWrites == old(quotaWrites) + HandleEffect(event, pagesOf, fetchOk, itemsOf).1
      ensures serviceTable == old(serviceTable)
    {
      var op := ReadDynamoDBStreamEvent(event);
      HandleCases(event, pagesOf, fetchOk, itemsOf);
      if op.Err? {
        return Fail(op.error);
      }
      var rec := event.records.value[0];
      match op.value
      case INSERT =>
        r := RunAction(PutQuotasFor(NewCode(rec)), pagesOf, fetchOk, itemsOf);
      case MODIFY =>
        r := HandleModify(rec, pagesOf, fetchOk, itemsOf);
      case REMOVE =>
        r := RunAction(DeleteQuotasFor(OldCode(rec)), pagesOf, fetchOk, itemsOf);
    }

    /** The MODIFY branch: the service's quotas are deleted, then put back
        when the service is now monitored. */
    method HandleModify(rec: StreamRecord, pagesOf: string -> seq<Option<seq<SQ.Quota>>>,
                        fetchOk: seq<SQ.MetricDataQuery> -> bool,
                        itemsOf: Option<string> -> Option<seq<SQ.Quota>>) returns (r: Outcome)
      modifies this
      ensures r == ModifyEffect(rec, pagesOf, fetchOk, itemsOf).0
      ensures quotaWrites == old(quotaWrites) + ModifyEffect(rec, pagesOf, fetchOk, itemsOf).1
      ensures serviceTable == old(serviceTable)
    {
      var code := NewCodeRead(rec);
      if code.Err? {
        return Fail(code.error);
      }
      ghost var first := ActionEffect(DeleteQuotasFor(code.value), pagesOf, fetchOk, itemsOf).1;
      ghost var second := ActionEffect(PutQuotasFor(code.value), pagesOf, fetchOk, itemsOf).1;
      r := RunAction(DeleteQuotasFor(code.value), pagesOf, fetchOk, itemsOf);
      if r.Pass? && NewMonitored(rec) == Some(true) {
        r := RunAction(PutQuotasFor(code.value), pagesOf, fetchOk, itemsOf);
        AppendAssoc(old(quotaWrites), first, second);
      }
    }
  }

  /** The effect of a MODIFY record: reading its new service code may
      throw; otherwise the delete runs, and the put follows iff the delete
      passed and the service is now monitored. */
  function ModifyEffect(rec: StreamRecord, pagesOf: string -> seq<Option<seq<SQ.Quota>>>,
                        fetchOk: seq<SQ.MetricDataQuery> -> bool,
                        itemsOf: Option<string> -> Option<seq<SQ.Quota>>): (Outcome, seq<QuotaWrite>) {
    match NewCodeRead(rec)
    case Err(e) => (Fail(e), [])
    case Ok(code) =>
      var first := ActionEffect(DeleteQuotasFor(code), pagesOf, fetchOk, itemsOf);
      var second := ActionEffect(PutQuotasFor(code), pagesOf, fetchOk, itemsOf);
      if first.0.Fail? || NewMonitored(rec) != Some(true) then first
      else (second.0, first.1 + second.1)
  }

  /** HandleEffect operation by operation, as the switch of
      handleDynamoDBStreamEvent runs it. */
  lemma HandleCases(event: StreamEvent, pagesOf: string -> seq<Option<seq<SQ.Quota>>>,
                    fetchOk: seq<SQ.MetricDataQuery> -> bool,
                    itemsOf: Option<string> -> Option<seq<SQ.Quota>>)
    ensures ReadDynamoDBStreamEvent(event).Err? ==>
      HandleEffect(event, pagesOf, fetchOk, itemsOf) == (Fail(ReadDynamoDBStreamEvent(event).error), [])
    ensures ReadDynamoDBStreamEvent(event) == Ok(INSERT) ==>
      HandleEffect(event, pagesOf, fetchOk, itemsOf) == ActionEffect(PutQuotasFor(NewCode(event.records.value[0])), pagesOf, fetchOk, itemsOf)
    ensures ReadDynamoDBStreamEvent(event) == Ok(REMOVE) ==>
      HandleEffect(event, pagesOf, fetchOk, itemsOf) == ActionEffect(DeleteQuotasFor(OldCode(event.records.value[0])), pagesOf, fetchOk, itemsOf)
    ensures ReadDynamoDBStreamEvent(event) == Ok(MODIFY) ==>
      HandleEffect(event, pagesOf, fetchOk, itemsOf) == ModifyEffect(event.records.value[0], pagesOf, fetchOk, itemsOf)
  {
    DispatchSpec(event);
    var read := ReadDynamoDBStreamEvent(event);
    if read.Ok? {
      var rec := event.records.value[0];
      match read.value
      case INSERT =>
        EffectOfOne(PutQuotasFor(NewCode(rec)), pagesOf, fetchOk, itemsOf);
      case REMOVE =>
        EffectOfOne(DeleteQuotasFor(OldCode(rec)), pagesOf, fetchOk, itemsOf);
      case MODIFY =>
        if NewCodeRead(rec).Ok? {
          var code := NewCodeRead(rec).value;
          if NewMonitored(rec) == Some(true) {
            assert Dispatch(event) == Ok([DeleteQuotasFor(code), PutQuotasFor(code)]);
            EffectOfTwo(DeleteQuotasFor(code), PutQuotasFor(code), pagesOf, fetchOk, itemsOf);
          } else {
            assert Dispatch(event) == Ok([DeleteQuotasFor(code)]);
            EffectOfOne(DeleteQuotasFor(code), pagesOf, fetchOk, itemsOf);
          }
        }
    }
  }

  lemma EffectOfOne(a: Action, pagesOf: string -> seq<Option<seq<SQ.Quota>>>,
                    fetchOk: seq<SQ.MetricDataQuery> -> bool,
                    itemsOf: Option<string> -> Option<seq<SQ.Quota>>)
    ensures ActionsEffect([a], pagesOf, fetchOk, itemsOf) == ActionEffect(a, pagesOf, fetchOk, itemsOf)
  {
    assert [a][1..] == [];
    var first := ActionEffect(a, pagesOf, fetchOk, itemsOf);
    assert first.1 + [] == first.1;
  }

  lemma EffectOfTwo(a: Action, b: Action, pagesOf: string -> seq<Option<seq<SQ.Quota>>>,
                    fetchOk: seq<SQ.MetricDataQuery> -> bool,
                    itemsOf: Option<string> -> Option<seq<SQ.Quota>>)
    ensures var first := ActionEffect(a, pagesOf, fetchOk, itemsOf);
      var second := ActionEffect(b, pagesOf, fetchOk, itemsOf);
      ActionsEffect([a, b], pagesOf, fetchOk, itemsOf)
        == if first.0.Fail? then first else (second.0, first.1 + second.1)
  {
    assert [a, b][1..] == [b];
    EffectOfOne(b, pagesOf, fetchOk, itemsOf);
  }

  /** What one action does to the quota table: its outcome and the writes
      it issues. */
  function ActionEffect(a: Action, pagesOf: string -> seq<Option<seq<SQ.Quota>>>,
                        fetchOk: seq<SQ.MetricDataQuery> -> bool,
                        itemsOf: Option<string> -> Option<seq<SQ.Quota>>): (Outcome, seq<QuotaWrite>) {
    match a
    case PutQuotasFor(code) =>
      var q := QuotasWithUtilizationMetrics(code, pagesOf, fetchOk);
      if q.Err? then (Fail(q.error), []) else (Pass, Puts(q.value))
    case DeleteQuotasFor(code) =>
      var items := itemsOf(code);
      if items.None? then (Fail(MapOfUndefined), [])
      else (Pass, Deletes(ChunkedDeleteQuotasRequests(items.value)))
  }

  /** The actions run in order; the first failure ends the run. */
  function ActionsEffect(actions: seq<Action>, pagesOf: string -> seq<Option<seq<SQ.Quota>>>,
                         fetchOk: seq<SQ.MetricDataQuery> -> bool,
                         itemsOf: Option<string> -> Option<seq<SQ.Quota>>): (Outcome, seq<QuotaWrite>) {
    if |actions| == 0 then (Pass, [])
    else
      var first := ActionEffect(actions[0], pagesOf, fetchOk, itemsOf);
      if first.0.Fail? then first
      else
        var rest := ActionsEffect(actions[1..], pagesOf, fetchOk, itemsOf);
        (rest.0, first.1 + rest.1)
  }

  /** The effect of handling one stream event: a record that cannot be
      read writes nothing; otherwise its dispatched actions run. */
  function HandleEffect(event: StreamEvent, pagesOf: string -> seq<Option<seq<SQ.Quota>>>,
                        fetchOk: seq<SQ.MetricDataQuery> -> bool,
                        itemsOf: Option<string> -> Option<seq<SQ.Quota>>): (Outcome, seq<QuotaWrite>) {
    match Dispatch(event)
    case Err(e) => (Fail(e), [])
    case Ok(actions) => ActionsEffect(actions, pagesOf, fetchOk, itemsOf)
  }

  /** Handling an event never mixes the wrong writes: INSERT only puts,
      REMOVE only deletes, a MODIFY that switches monitoring off only
      deletes, and a MODIFY that switches it on puts only after every
      delete. A malformed event fails and writes nothing. */
  lemma HandleEffectSpec(event: StreamEvent, pagesOf: string -> seq<Option<seq<SQ.Quota>>>,
                         fetchOk: seq<SQ.MetricDataQuery> -> bool,
                         itemsOf: Option<string> -> Option<seq<SQ.Quota>>)
    ensures ReadDynamoDBStreamEvent(event).Err? ==>
      HandleEffect(event, pagesOf, fetchOk, itemsOf) == (Fail(ReadDynamoDBStreamEvent(event).error), [])
    ensures ReadDynamoDBStreamEvent(event) == Ok(INSERT) ==>
      forall w :: w in HandleEffect(event, pagesOf, fetchOk, itemsOf).1 ==> w.PutQuota?
    ensures ReadDynamoDBStreamEvent(event) == Ok(REMOVE) ==>
      forall w :: w in HandleEffect(event, pagesOf, fetchOk, itemsOf).1 ==> w.BatchDelete?
    ensures ReadDynamoDBStreamEvent(event) == Ok(MODIFY) && NewMonitored(event.records.value[0]) != Some(true) ==>
      forall w :: w in HandleEffect(event, pagesOf, fetchOk, itemsOf).1 ==> w.BatchDelete?
    ensures ReadDynamoDBStreamEvent(event) == Ok(MODIFY) ==>
      var ws := HandleEffect(event, pagesOf, fetchOk, itemsOf).1;
      forall i, j :: 0 <= i < j < |ws| && ws[i].PutQuota? ==> ws[j].PutQuota?
  {
    DispatchSpec(event);
    var read := ReadDynamoDBStreamEvent(event);
    if read.Ok? {
      var rec := event.records.value[0];
      var acts := Dispatch(event);
      if read.value == INSERT {
        EffectOfOne(PutQuotasFor(NewCode(rec)), pagesOf, fetchOk, itemsOf);
      } else if read.value == REMOVE {
        EffectOfOne(DeleteQuotasFor(OldCode(rec)), pagesOf, fetchOk, itemsOf);
      } else if NewCodeRead(rec).Ok? {
        var code := NewCodeRead(rec).value;
        var first := ActionEffect(DeleteQuotasFor(code), pagesOf, fetchOk, itemsOf);
        var second := ActionEffect(PutQuotasFor(code), pagesOf, fetchOk, itemsOf);
        assert forall w :: w in first.1 ==> w.BatchDelete?;
        assert forall w :: w in second.1 ==> w.PutQuota?;
        if NewMonitored(rec) == Some(true) {
          assert acts == Ok([DeleteQuotasFor(code), PutQuotasFor(code)]);
          EffectOfTwo(DeleteQuotasFor(code), PutQuotasFor(code), pagesOf, fetchOk, itemsOf);
        } else {
          assert acts == Ok([DeleteQuotasFor(code)]);
          EffectOfOne(DeleteQuotasFor(code), pagesOf, fetchOk, itemsOf);
        }
      }
    }
  }


  function Puts(quotas: seq<SQ.Quota>): (r: seq<QuotaWrite>)
    ensures |r| == |quotas|
    ensures forall i :: 0 <= i < |r| ==> r[i] == PutQuota(quotas[i])
  {
    if |quotas| == 0 then [] else [PutQuota(quotas[0])] + Puts(quotas[1..])
  }

  lemma PutsAppend(a: seq<SQ.Quota>, b: seq<SQ.Quota>)
    ensures Puts(a + b) == Puts(a) + Puts(b)
  {
  }

  function Deletes(chunks: seq<seq<DeleteKey>>): (r: seq<QuotaWrite>)
    ensures |r| == |chunks|
    ensures forall i :: 0 <= i < |r| ==> r[i] == BatchDelete(chunks[i])
  {
    if |chunks| == 0 then [] else [BatchDelete(chunks[0])] + Deletes(chunks[1..])
  }

  lemma DeletesAppend(a: seq<seq<DeleteKey>>, b: seq<seq<DeleteKey>>)
    ensures Deletes(a + b) == Deletes(a) + Deletes(b)
  {
  }
}
