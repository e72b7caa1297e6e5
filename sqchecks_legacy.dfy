/** The older vCPU limit checks (services/servicequotaschecks/lib/
    service-quotas-checks.js): five fixed instance classes, fifteen fixed
    regions, and limit and usage maps that live at module level, so that
    what one run records stays for the next. */
module SQChecksLegacy {
  import opened Common
  import opened SQChecks

  /** The regions of services/servicequotaschecks/lib/constants.js. */
  const Regions: seq<string> := [
    "us-east-2", "us-east-1", "us-west-1", "us-west-2", "ap-south-1", "ap-northeast-1",
    "ap-northeast-2", "ap-southeast-1", "ap-southeast-2", "ca-central-1", "eu-central-1",
    "eu-west-1", "eu-west-2", "eu-west-3", "sa-east-1"]

  /** The five checks: their names, quota codes and usage classes. */
  const CheckNames: seq<string> :=
    ["ec2_Standard_OnDemand", "ec2_G_OnDemand", "ec2_P_OnDemand", "ec2_F_OnDemand", "ec2_X_OnDemand"]
  const QuotaCodes: seq<string> := ["L-1216C47A", "L-DB2E81BA", "L-417A185B", "L-74FC7D96", "L-7295265B"]
  const UsageClasses: seq<string> := ["Standard/OnDemand", "G/OnDemand", "P/OnDemand", "F/OnDemand", "X/OnDemand"]

  /** limitsMap and usageMap as the module defines them: one empty region
      map per check. */
  function InitialMaps(): (m: map<string, RegionMap>)
    ensures forall n :: n in m <==> n in CheckNames
    ensures forall n :: n in m ==> m[n] == EmptyMap
  {
    map n | n in CheckNames :: EmptyMap
  }

  function MapAt(m: map<string, RegionMap>, name: string): Option<RegionMap> {
    if name in m then Some(m[name]) else None
  }

  predicate AllFulfilled(results: seq<Option<QuotaResult>>) {
    forall i :: 0 <= i < |results| ==> results[i].Some?
  }

  /** getServiceLimits on the module's map: Promise.all either gives every
      quota, recorded in order, or rejects and records nothing. A check
      without an entry throws on its first write, which is caught. */
  function LimitsAfter(limitsMap: map<string, RegionMap>, checkName: string, results: seq<Option<QuotaResult>>)
    : map<string, RegionMap>
  {
    if checkName in limitsMap && AllFulfilled(results)
    then limitsMap[checkName := LimitsInto(limitsMap[checkName], results)]
    else limitsMap
  }

  /** getServiceUsage on one check's region map (None when the check has
      no entry), over the regions in order: the largest datapoint is
      recorded; a failed call is rethrown and ends the loop, keeping what
      was recorded before it. The boolean is false when it threw. */
  function LegacyUsage(m: Option<RegionMap>, regions: seq<string>, fetch: string -> Option<seq<real>>)
    : (Option<RegionMap>, bool)
  {
    if |regions| == 0 then (m, true)
    else
      var prev := LegacyUsage(m, regions[..|regions| - 1], fetch);
      var region := regions[|regions| - 1];
      if !prev.1 then prev
      else
        match fetch(region)
        case None => (prev.0, false)
        case Some(vs) =>
          if |vs| == 0 then prev
          else if prev.0.None? then (None, false)
          else (Some(Put(prev.0.value, region, SeqMax(vs))), true)
  }

  /** The index of the first region whose call fails, or the number of
      regions when none does. */
  function FailAt(regions: seq<string>, fetch: string -> Option<seq<real>>): (k: nat)
    ensures k <= |regions|
    ensures forall i :: 0 <= i < k ==> fetch(regions[i]).Some?
    ensures k < |regions| ==> fetch(regions[k]).None?
  {
    if |regions| == 0 then 0
    else
      var n := |regions| - 1;
      var k := FailAt(regions[..n], fetch);
      assert forall i :: 0 <= i < n ==> regions[..n][i] == regions[i];
      if k < n then k else if fetch(regions[n]).None? then n else |regions|
  }

  /** For a check with an entry, the usage recorded is exactly the newer
      checks' usage rule, with the largest datapoint, applied to the regions
      before the first failure; the run succeeds iff no call fails. */
  lemma {:induction false} LegacyUsageSpec(m: RegionMap, regions: seq<string>, fetch: string -> Option<seq<real>>)
    ensures LegacyUsage(Some(m), regions, fetch).1 <==> FailAt(regions, fetch) == |regions|
    ensures LegacyUsage(Some(m), regions, fetch).0 == Some(UsageInto(m, regions[..FailAt(regions, fetch)], fetch, MaxDatum))
  {
    if |regions| > 0 {
      var n := |regions| - 1;
      var p := regions[..n];
      LegacyUsageSpec(m, p, fetch);
      var k := FailAt(p, fetch);
      if k < n {
        assert regions[..k] == p[..k];
      } else {
        assert p[..k] == p;
        assert regions[..|regions|] == regions;
      }
    }
  }

  /** A check without an entry records nothing, and its run succeeds only
      when every call returns no datapoint. */
  lemma {:induction false} LegacyUsageWithoutEntry(regions: seq<string>, fetch: string -> Option<seq<real>>)
    ensures LegacyUsage(None, regions, fetch).0 == None
    ensures LegacyUsage(None, regions, fetch).1 <==> forall i :: 0 <= i < |regions| ==> fetch(regions[i]) == Some([])
  {
    if |regions| > 0 {
      var n := |regions| - 1;
      LegacyUsageWithoutEntry(regions[..n], fetch);
      assert forall i :: 0 <= i < n ==> regions[..n][i] == regions[i];
    }
  }

  /** Once a call has failed, the remaining regions change nothing. */
  lemma {:induction false} LegacyUsageStops(m: Option<RegionMap>, regions: seq<string>, fetch: string -> Option<seq<real>>, j: nat)
    requires j <= |regions| && !LegacyUsage(m, regions[..j], fetch).1
    ensures LegacyUsage(m, regions, fetch) == LegacyUsage(m, regions[..j], fetch)
  {
    if j < |regions| {
      var n := |regions| - 1;
      assert regions[..n][..j] == regions[..j];
      LegacyUsageStops(m, regions[..n], fetch, j);
    } else {
      assert regions[..j] == regions;
    }
  }

  /** The loop of getServiceUsage over one check's region map. */
  method ReadUsage(m: Option<RegionMap>, regions: seq<string>, fetch: string -> Option<seq<real>>)
    returns (current: Option<RegionMap>, ok: bool)
    ensures (current, ok) == LegacyUsage(m, regions, fetch)
  {
    current := m;
    ok := true;
    var i := 0;
    while i < |regions| && ok
      invariant 0 <= i <= |regions|
      invariant LegacyUsage(m, regions[..i], fetch) == (current, ok)
      invariant !ok ==> LegacyUsage(m, regions, fetch) == (current, ok)
    {
      assert regions[..i + 1][..i] == regions[..i];
      var response := fetch(regions[i]);
      if response.None? {
        ok := false;
      } else if |response.value| > 0 {
        if current.None? {
          ok := false;
        } else {
          current := Some(Put(current.value, regions[i], SeqMax(response.value)));
        }
      }
      if !ok {
        LegacyUsageStops(m, regions, fetch, i + 1);
      }
      i := i + 1;
    }
    if ok {
      assert regions[..i] == regions;
    }
  }

  function UsageMapAfter(usageMap: map<string, RegionMap>, checkName: string, fetch: string -> Option<seq<real>>)
    : (map<string, RegionMap>, bool)
  {
    var u := LegacyUsage(MapAt(usageMap, checkName), Regions, fetch);
    (if u.0.Some? then usageMap[checkName := u.0.value] else usageMap, u.1)
  }

  /** Every region map in `m` is well formed. */
  ghost predicate AllWellFormed(m: map<string, RegionMap>) {
    forall n :: n in m ==> WellFormed(m[n])
  }

  /** `after` keeps every check and every region `before` had. */
  ghost predicate Keeps(before: map<string, RegionMap>, after: map<string, RegionMap>) {
    && (forall n :: n in before ==> n in after)
    && (forall n, r :: n in before && r in before[n].values ==> r in after[n].values)
  }

  /** A limits update keeps every recorded region. */
  lemma LimitsAfterKeeps(limitsMap: map<string, RegionMap>, checkName: string, results: seq<Option<QuotaResult>>)
    requires AllWellFormed(limitsMap)
    ensures AllWellFormed(LimitsAfter(limitsMap, checkName, results))
    ensures Keeps(limitsMap, LimitsAfter(limitsMap, checkName, results))
  {
    if checkName in limitsMap && AllFulfilled(results) {
      var m := limitsMap[checkName];
      LimitsIntoSpec(m, results);
      forall r | r in m.values
        ensures r in LimitsInto(m, results).values
      {
        assert Lookup(m.values, r).Some?;
      }
    }
  }

  /** A usage update keeps every recorded region, even one whose latest
      call returned no datapoint, so its stale usage is checked again. */
  lemma UsageMapAfterKeeps(usageMap: map<string, RegionMap>, checkName: string, fetch: string -> Option<seq<real>>)
    requires AllWellFormed(usageMap)
    ensures AllWellFormed(UsageMapAfter(usageMap, checkName, fetch).0)
    ensures Keeps(usageMap, UsageMapAfter(usageMap, checkName, fetch).0)
  {
    if checkName in usageMap {
      var m := usageMap[checkName];
      LegacyUsageSpec(m, Regions, fetch);
      UsageIntoSpec(m, Regions[..FailAt(Regions, fetch)], fetch, MaxDatum);
    } else {
      LegacyUsageWithoutEntry(Regions, fetch);
    }
  }

  /** The module-level state of the older checks: the two maps, and the
      events pushed so far. */
  class LegacyServiceQuotasChecks {
    var limitsMap: map<string, RegionMap>
    var usageMap: map<string, RegionMap>
    var events: seq<LimitEvent>

    ghost predicate Valid()
      reads this
    {
      AllWellFormed(limitsMap) && AllWellFormed(usageMap)
    }

    constructor ()
      ensures Valid()
      ensures limitsMap == InitialMaps() && usageMap == InitialMaps() && events == []
    {
      limitsMap := InitialMaps();
      usageMap := InitialMaps();
      events := [];
    }

    /** getServiceLimits(checkName); `results` are the per-region
        getServiceQuota outcomes, None for a rejected promise. */
    method GetServiceLimits(checkName: string, results: seq<Option<QuotaResult>>)
      requires Valid()
      modifies this
      ensures Valid()
      ensures limitsMap == LimitsAfter(old(limitsMap), checkName, results)
      ensures usageMap == old(usageMap) && events == old(events)
    {
      LimitsAfterKeeps(limitsMap, checkName, results);
      if checkName !in limitsMap || !AllFulfilled(results) {
        return;
      }
      var regionMap := limitsMap[checkName];
      for i := 0 to |results|
        invariant regionMap == LimitsInto(old(limitsMap)[checkName], results[..i])
      {
        assert results[..i + 1][..i] == results[..i];
        var q := results[i].value;
        regionMap := Put(regionMap, RegionOfArn(q.quotaArn), q.value);
      }
      assert results[..|results|] == results;
      limitsMap := limitsMap[checkName := regionMap];
    }

    /** getServiceUsage(checkName); `fetch(region)` is that region's
        getMetricData values, None when the call fails. Returns false when
        it rethrew. */
    method GetServiceUsage(checkName: string, fetch: string -> Option<seq<real>>) returns (ok: bool)
      requires Valid()
      modifies this
      ensures Valid()
      ensures (usageMap, ok) == UsageMapAfter(old(usageMap), checkName, fetch)
      ensures limitsMap == old(limitsMap) && events == old(events)
    {
      UsageMapAfterKeeps(usageMap, checkName, fetch);
      var current;
      current, ok := ReadUsage(MapAt(usageMap, checkName), Regions, fetch);
      if current.Some? {
        usageMap := usageMap[checkName := current.value];
      }
    }

    /** doLimitCheck: both maps are updated, and the rule runs over the
        check's whole usage map (entries from earlier runs included) unless
        the usage read threw; a check without a limit entry throws on its
        first region, which is caught. */
    method DoLimitCheck(checkName: string, service: string, results: seq<Option<QuotaResult>>,
                        fetch: string -> Option<seq<real>>, threshold: Option<real>)
      requires Valid()
      modifies this
      ensures Valid()
      ensures limitsMap == LimitsAfter(old(limitsMap), checkName, results)
      ensures usageMap == UsageMapAfter(old(usageMap), checkName, fetch).0
      ensures Keeps(old(limitsMap), limitsMap) && Keeps(old(usageMap), usageMap)
      ensures events == old(events) +
        if UsageMapAfter(old(usageMap), checkName, fetch).1 && checkName in usageMap && checkName in limitsMap
        then EventsFor(usageMap[checkName].order, usageMap[checkName].values, limitsMap[checkName].values,
                       checkName, service, threshold)
        else []
    {
      LimitsAfterKeeps(limitsMap, checkName, results);
      UsageMapAfterKeeps(usageMap, checkName, fetch);
      GetServiceLimits(checkName, results);
      var ok := GetServiceUsage(checkName, fetch);
      if ok && checkName in usageMap && checkName in limitsMap {
        var found := PerformLimitCheck(checkName, service, usageMap[checkName], limitsMap[checkName], threshold);
        events := events + found;
      }
    }

    /** performLimitChecks: the five checks run, in order, only when the
        account has opted in to vCPU limits. `limitFor(code, region)` is a
        region's getServiceQuota outcome and `usageFor(cls)(region)` its
        usage datapoints. */
    method PerformLimitChecks(optIn: Option<Option<string>>, limitFor: (string, string) -> Option<QuotaResult>,
                              usageFor: string -> string -> Option<seq<real>>, threshold: Option<real>)
      requires Valid()
      modifies this
      ensures Valid()
      ensures !CheckVCPUOptIn(optIn) ==> limitsMap == old(limitsMap) && usageMap == old(usageMap) && events == old(events)
      ensures Keeps(old(limitsMap), limitsMap) && Keeps(old(usageMap), usageMap)
      ensures |old(events)| <= |events| && events[..|old(events)|] == old(events)
    {
      if !CheckVCPUOptIn(optIn) {
        return;
      }
      for c := 0 to |CheckNames|
        invariant Valid()
        invariant Keeps(old(limitsMap), limitsMap) && Keeps(old(usageMap), usageMap)
        invariant |old(events)| <= |events| && events[..|old(events)|] == old(events)
      {
        ghost var before := events;
        ghost var limitsBefore := limitsMap;
        ghost var usageBefore := usageMap;
        DoLimitCheck(CheckNames[c], "EC2", LimitResults(QuotaCodes[c], Regions, limitFor), usageFor(UsageClasses[c]), threshold);
        assert events[..|before|] == before;
        assert events[..|old(events)|] == before[..|old(events)|];
      }
    }
  }

  /** The opted-in run starts from the five empty maps: before any run,
      every check has an entry and no region. */
  lemma InitialMapsEmpty()
    ensures forall n :: n in CheckNames ==> n in InitialMaps() && InitialMaps()[n].order == []
    ensures AllWellFormed(InitialMaps())
  {
  }
}
