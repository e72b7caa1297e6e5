/** The deployment manager of the monitoring account
    (deploymentManager/lib/deployment-manager.ts): which principals may put
    events on the bus, and which stack instances of the Trusted Advisor and
    Service Quotas stacksets to create or delete. */
module Deployment {
  import opened Common
  import UE = UtilsExports
  import CF = CloudFormation

  /** DEPLOYMENT_MODEL, with Unset for any other value of the variable. */
  datatype DeploymentModel = Organizations | Accounts | Hybrid | Unset

  predicate ManagesStackSets(model: DeploymentModel) { model == Organizations || model == Hybrid }

  /** getPrincipals: `ous` and `accounts` are the values of the OU and
      account parameters. */
  function Principals(model: DeploymentModel, ous: seq<string>, accounts: seq<string>): Result<seq<string>> {
    match model
    case Organizations =>
      var _ :- UE.ValidateOrgInput(ous);
      Ok(ous)
    case Accounts =>
      (match UE.ValidateAccountInput(accounts)
       case Fail(e) => Err(e)
       case Pass => Ok(accounts))
    case Hybrid =>
      var _ :- UE.ValidateOrgInput(ous);
      (match UE.ValidateAccountInput(accounts)
       case Fail(e) => Err(e)
       case Pass => Ok(ous + accounts))
    case Unset => Ok([])
  }

  /** Each model takes its principals from its own parameters and validates
      every list it takes; the hybrid model validates the OU list first and
      lists the OUs before the accounts. */
  lemma PrincipalsSpec(model: DeploymentModel, ous: seq<string>, accounts: seq<string>)
    ensures model == Organizations ==>
      (Principals(model, ous, accounts).Ok? <==> UE.ValidOrgList(ous))
      && (Principals(model, ous, accounts).Ok? ==> Principals(model, ous, accounts).value == ous)
    ensures model == Accounts ==>
      (Principals(model, ous, accounts).Ok? <==> forall i :: 0 <= i < |accounts| ==> UE.IsAccount(accounts[i]))
      && (Principals(model, ous, accounts).Ok? ==> Principals(model, ous, accounts).value == accounts)
    ensures model == Hybrid ==>
      (Principals(model, ous, accounts).Ok? <==>
         UE.ValidOrgList(ous) && forall i :: 0 <= i < |accounts| ==> UE.IsAccount(accounts[i]))
      && (Principals(model, ous, accounts).Ok? ==> Principals(model, ous, accounts).value == ous + accounts)
      && (!UE.ValidOrgList(ous) ==>
           UE.ValidateOrgInput(ous).Err? && Principals(model, ous, accounts) == Err(UE.ValidateOrgInput(ous).error))
    ensures model == Unset ==> Principals(model, ous, accounts) == Ok([])
    ensures Principals(model, ous, accounts).Err? ==> Principals(model, ous, accounts).error.IncorrectConfiguration?
  {
    UE.ValidateOrgInputSpec(ous);
  }

  /** getOrganizationId: `fetched` is what Organizations returns; it is
      asked only for the organization-based models. */
  function OrganizationId(model: DeploymentModel, fetched: string): (id: string)
    ensures ManagesStackSets(model) ==> id == fetched
    ensures !ManagesStackSets(model) ==> id == ""
  {
    if model == Organizations || model == Hybrid then fetched else ""
  }

  const UsEast1 := "us-east-1"
  const UsGovWest1 := "us-gov-west-1"

  /** getTARegions */
  function TARegions(regions: seq<string>): Result<seq<string>> {
    if UsGovWest1 in regions then Ok([UsGovWest1])
    else if UsEast1 in regions then Ok([UsEast1])
    else Err(IncorrectConfiguration("The Trusted Advisor template can only be deployed in the regions us-east-1 and us-gov-west-1"))
  }

  /** The Trusted Advisor stackset goes to exactly one region of the list:
      us-gov-west-1 when listed (it wins over us-east-1), else us-east-1;
      a list with neither is refused. */
  lemma TARegionsSpec(regions: seq<string>)
    ensures TARegions(regions).Ok? <==> UsGovWest1 in regions || UsEast1 in regions
    ensures TARegions(regions).Ok? ==>
      |TARegions(regions).value| == 1 && TARegions(regions).value[0] in regions
    ensures UsGovWest1 in regions ==> TARegions(regions) == Ok([UsGovWest1])
    ensures UsGovWest1 !in regions && UsEast1 in regions ==> TARegions(regions) == Ok([UsEast1])
    ensures TARegions(regions).Err? ==> TARegions(regions).error.IncorrectConfiguration?
  {
  }

  /** The regions of the Service Quotas stackset and the RegionsList metric
      value: every enabled region when the selection is empty or holds
      "ALL" in any case, else the selection itself. */
  function SQRegions(selected: seq<string>, enabled: seq<string>): (seq<string>, string) {
    if |selected| == 0 || IncludesIgnoreCase(selected, "ALL") then (enabled, "ALL")
    else (selected, Join(selected, ','))
  }

  lemma SQRegionsSpec(selected: seq<string>, enabled: seq<string>)
    ensures |selected| == 0 || IncludesIgnoreCase(selected, "ALL") ==> SQRegions(selected, enabled) == (enabled, "ALL")
    ensures !(|selected| == 0 || IncludesIgnoreCase(selected, "ALL")) ==> SQRegions(selected, enabled).0 == selected
    ensures IncludesIgnoreCase(selected, "all") ==> SQRegions(selected, enabled) == (enabled, "ALL")
  {
    if IncludesIgnoreCase(selected, "all") {
      var i :| 0 <= i < |selected| && EqualsIgnoreCase(selected[i], "all");
      assert Lower("all") == Lower("ALL");
      assert EqualsIgnoreCase(selected[i], "ALL");
    }
  }

  /** One create or delete request of manageStackSetInstances, before the
      helper's own empty-input guard. */
  datatype InstanceCall = DeleteCall(targets: seq<string>, regions: seq<string>)
                        | CreateCall(targets: seq<string>, regions: seq<string>)

  /** The requests manageStackSetInstances makes, in order. `targets` are
      the desired deployment targets, `regions` the desired regions;
      `deployedRegions` and `deployedTargets` are what the stackset
      reports, `root` the organization root. The first target decides the
      mode: an org id means the whole organization (root mode). */
  function InstanceCalls(targets: seq<string>, regions: seq<string>, deployedRegions: seq<string>,
                         deployedTargets: seq<string>, root: string): Result<seq<InstanceCall>> {
    if |targets| == 0 then Err(TypeError("Cannot read properties of undefined (reading 'match')"))
    else if UE.IsOrg(targets[0]) then
      Ok([DeleteCall([root], Diff(deployedRegions, regions)), CreateCall([root], Diff(regions, deployedRegions))])
    else
      Ok([DeleteCall(Diff(deployedTargets, targets), deployedRegions),
          DeleteCall(deployedTargets, Diff(deployedRegions, regions)),
          CreateCall(Diff(targets, deployedTargets), regions),
          CreateCall(targets, Diff(regions, deployedRegions))])
  }

  /** Whether the stack instance (t, r) exists after the requests, given
      whether it existed before. */
  predicate Present(calls: seq<InstanceCall>, before: bool, t: string, r: string) {
    if |calls| == 0 then before
    else
      var now := match calls[0]
        case DeleteCall(ts, rs) => before && !(t in ts && r in rs)
        case CreateCall(ts, rs) => before || (t in ts && r in rs);
      Present(calls[1..], now, t, r)
  }

  /** Root mode reaches the desired regions: starting from the deployed
      regions, a region has an instance afterwards iff it is desired. */
  lemma RootModeReachesDesired(targets: seq<string>, regions: seq<string>, deployedRegions: seq<string>,
                               deployedTargets: seq<string>, root: string, r: string)
    requires |targets| > 0 && UE.IsOrg(targets[0])
    ensures InstanceCalls(targets, regions, deployedRegions, deployedTargets, root).Ok?
    ensures r in regions <==>
      Present(InstanceCalls(targets, regions, deployedRegions, deployedTargets, root).value, r in deployedRegions, root, r)
  {
    DiffMembership(deployedRegions, regions);
    DiffMembership(regions, deployedRegions);
    var c := InstanceCalls(targets, regions, deployedRegions, deployedTargets, root).value;
    var b1 := r in deployedRegions && !(r in Diff(deployedRegions, regions));
    var b2 := b1 || r in Diff(regions, deployedRegions);
    assert c[1..][1..] == [];
    assert Present(c[1..], b1, root, r) == b2;
  }

  /** OU mode reaches the desired grid: starting from deployed targets x
      deployed regions, (t, r) has an instance afterwards iff t is a
      desired target and r a desired region. */
  lemma OuModeReachesDesired(targets: seq<string>, regions: seq<string>, deployedRegions: seq<string>,
                             deployedTargets: seq<string>, root: string, t: string, r: string)
    requires |targets| > 0 && !UE.IsOrg(targets[0])
    ensures InstanceCalls(targets, regions, deployedRegions, deployedTargets, root).Ok?
    ensures t in targets && r in regions <==>
      Present(InstanceCalls(targets, regions, deployedRegions, deployedTargets, root).value,
              t in deployedTargets && r in deployedRegions, t, r)
  {
    DiffMembership(deployedRegions, regions);
    DiffMembership(regions, deployedRegions);
    DiffMembership(deployedTargets, targets);
    DiffMembership(targets, deployedTargets);
    var c := InstanceCalls(targets, regions, deployedRegions, deployedTargets, root).value;
    var b1 := t in deployedTargets && r in deployedRegions && !(t in Diff(deployedTargets, targets));
    var b2 := b1 && !(t in deployedTargets && r in Diff(deployedRegions, regions));
    var b3 := b2 || (t in Diff(targets, deployedTargets) && r in regions);
    var b4 := b3 || (t in targets && r in Diff(regions, deployedRegions));
    assert c[1..][1..][1..][1..] == [];
    assert Present(c[1..][1..][1..], b3, t, r) == b4;
    assert Present(c[1..][1..], b2, t, r) == b4;
    assert Present(c[1..], b1, t, r) == b4;
  }

  /** The command one request sends, through the CloudFormation helper. */
  function CallPlan(name: string, c: InstanceCall, p: CF.OpsPrefs): Result<Option<CF.StackInstancesCommand>> {
    match c
    case DeleteCall(ts, rs) => CF.DeletePlan(name, ts, rs, p)
    case CreateCall(ts, rs) => CF.CreatePlan(name, ts, rs, p, [])
  }

  /** The commands a run of valid-preference requests sends, in order. */
  function Sent(name: string, calls: seq<InstanceCall>, p: CF.OpsPrefs): seq<CF.StackInstancesCommand>
    requires CF.ValidatePrefs(p).Pass?
  {
    if |calls| == 0 then []
    else Sent(name, calls[..|calls| - 1], p) + CallSent(name, calls[|calls| - 1], p)
  }

  /** Every command sent carries a non-empty request; requests with no
      target or no region send nothing. */
  lemma {:induction false} SentNonEmpty(name: string, calls: seq<InstanceCall>, p: CF.OpsPrefs)
    requires CF.ValidatePrefs(p).Pass?
    ensures forall c :: c in Sent(name, calls, p) ==> |c.targets| > 0 && |c.regions| > 0 && c.stackSetName == name
    ensures |Sent(name, calls, p)| <= |calls|
  {
    if |calls| > 0 {
      SentNonEmpty(name, calls[..|calls| - 1], p);
      CF.PlanSpec(name, calls[|calls| - 1].targets, calls[|calls| - 1].regions, p, []);
    }
  }

  /** getNumberOfAccountsInOU over the targets: a failed lookup counts 0. */
  function SpokeCount(counts: seq<Option<int>>): int {
    if |counts| == 0 then 0 else counts[0].GetOr(0) + SpokeCount(counts[1..])
  }

  /** The account count of every target OU, None where the lookup fails. */
  function OuCounts(targets: seq<string>, accountsInOu: string -> Option<int>): (c: seq<Option<int>>)
    ensures |c| == |targets| && forall i :: 0 <= i < |targets| ==> c[i] == accountsInOu(targets[i])
  {
    seq(|targets|, i requires 0 <= i < |targets| => accountsInOu(targets[i]))
  }

  /** A lookup that fails takes exactly its own count out of the total. */
  lemma {:induction false} SpokeCountFailure(counts: seq<Option<int>>, i: nat)
    requires i < |counts| && counts[i].Some?
    ensures SpokeCount(counts[i := None]) == SpokeCount(counts) - counts[i].value
  {
    if i > 0 {
      assert counts[i := None][1..] == counts[1..][i - 1 := None];
      SpokeCountFailure(counts[1..], i - 1);
    }
  }

  /** The commands one request adds to what was sent. */
  function CallSent(name: string, c: InstanceCall, p: CF.OpsPrefs): seq<CF.StackInstancesCommand>
    requires CF.ValidatePrefs(p).Pass?
  {
    var plan := CallPlan(name, c, p);
    if plan.value.Some? then [plan.value.value] else []
  }

  /** One request sent through the stackset client. */
  method SendCall(stackSet: CF.StackSetClient, c: InstanceCall, p: CF.OpsPrefs)
    requires CF.ValidatePrefs(p).Pass?
    modifies stackSet
    ensures stackSet.sent == old(stackSet.sent) + CallSent(stackSet.stackSetName, c, p)
  {
    var out: Outcome;
    match c {
      case DeleteCall(ts, rs) =>
        out := stackSet.DeleteStackSetInstances(ts, rs, p);
      case CreateCall(ts, rs) =>
        out := stackSet.CreateStackSetInstances(ts, rs, p, []);
    }
  }

  /** The requests of one run, sent in order. */
  method SendCalls(stackSet: CF.StackSetClient, calls: seq<InstanceCall>, p: CF.OpsPrefs)
    requires CF.ValidatePrefs(p).Pass?
    modifies stackSet
    ensures stackSet.sent == old(stackSet.sent) + Sent(stackSet.stackSetName, calls, p)
  {
    var i := 0;
    while i < |calls|
      invariant 0 <= i <= |calls|
      invariant stackSet.sent == old(stackSet.sent) + Sent(stackSet.stackSetName, calls[..i], p)
    {
      SendCall(stackSet, calls[i], p);
      assert calls[..i + 1][..i] == calls[..i];
      i := i + 1;
    }
    assert calls[..i] == calls;
  }

  /** manageStackSetInstances on one stackset. Returns the SpokeCount it
      assigns, which it does only when the metric is requested
      (`sendMetric`, SEND_METRIC "Yes" and metric data given). */
  method ManageStackSetInstances(stackSet: CF.StackSetClient, targets: seq<string>, regions: seq<string>,
                                 deployedRegions: seq<string>, deployedTargets: seq<string>, root: string,
                                 p: CF.OpsPrefs, sendMetric: bool, accountsInOrg: int,
                                 accountsInOu: string -> Option<int>)
    returns (r: Outcome, spokeCount: Option<int>)
    modifies stackSet
    ensures var calls := InstanceCalls(targets, regions, deployedRegions, deployedTargets, root);
      && (calls.Err? || CF.ValidatePrefs(p).Fail? ==> r.Fail? && stackSet.sent == old(stackSet.sent) && spokeCount.None?)
      && (calls.Ok? && CF.ValidatePrefs(p).Pass? ==>
            r.Pass? && stackSet.sent == old(stackSet.sent) + Sent(stackSet.stackSetName, calls.value, p))
    ensures r.Pass? ==> (spokeCount.Some? <==> sendMetric)
    ensures r.Pass? && sendMetric && UE.IsOrg(targets[0]) ==> spokeCount == Some(accountsInOrg - 1)
    ensures r.Pass? && sendMetric && !UE.IsOrg(targets[0]) ==>
      spokeCount == Some(SpokeCount(OuCounts(targets, accountsInOu)))
  {
    spokeCount := None;
    var calls := InstanceCalls(targets, regions, deployedRegions, deployedTargets, root);
    if calls.Err? {
      return Fail(calls.error), None;
    }
    if CF.ValidatePrefs(p).Fail? {
      return Fail(CF.ValidatePrefs(p).error), None;
    }
    SendCalls(stackSet, calls.value, p);
    r := Pass;
    if sendMetric {
      if UE.IsOrg(targets[0]) {
        spokeCount := Some(accountsInOrg - 1);
      } else {
        spokeCount := Some(SpokeCount(OuCounts(targets, accountsInOu)));
      }
    }
  }

  /** The inputs manageStackSets reads from the environment and services. */
  datatype StackSetsInput = StackSetsInput(
    model: DeploymentModel, taAvailable: bool, targets: seq<string>,
    selectedRegions: seq<string>, enabledRegions: seq<string>, root: string, prefs: CF.OpsPrefs,
    taDeployed: (seq<string>, seq<string>), sqDeployed: (seq<string>, seq<string>),
    sendMetric: bool, accountsInOrg: int, accountsInOu: string -> Option<int>)

  /** The Service Quotas regions of a run. */
  function SQRegionsOf(input: StackSetsInput): seq<string> {
    SQRegions(input.selectedRegions, input.enabledRegions).0
  }

  /** The requests for the Trusted Advisor stackset. */
  function TACalls(input: StackSetsInput): Result<seq<InstanceCall>>
    requires TARegions(SQRegionsOf(input)).Ok?
  {
    InstanceCalls(input.targets, TARegions(SQRegionsOf(input)).value, input.taDeployed.0, input.taDeployed.1, input.root)
  }

  /** The requests for the Service Quotas stackset. */
  function SQCalls(input: StackSetsInput): Result<seq<InstanceCall>> {
    InstanceCalls(input.targets, SQRegionsOf(input), input.sqDeployed.0, input.sqDeployed.1, input.root)
  }

  /** When an organization-based run gets through: a Trusted Advisor
      region, valid preferences, and requests that can be built for both
      stacksets (the Trusted Advisor one only when it is available). */
  predicate StackSetsPass(input: StackSetsInput) {
    && TARegions(SQRegionsOf(input)).Ok?
    && CF.ValidatePrefs(input.prefs).Pass?
    && (input.taAvailable ==> TACalls(input).Ok?)
    && SQCalls(input).Ok?
  }

  /** manageStackSets: nothing at all outside the organization-based
      models; otherwise the Trusted Advisor region is chosen first (and can
      refuse the run even when Trusted Advisor is unavailable), then the
      Trusted Advisor stackset is managed when available, then the Service
      Quotas stackset. */
  method ManageStackSets(cfnTA: CF.StackSetClient, cfnSQ: CF.StackSetClient, input: StackSetsInput)
    returns (r: Outcome, spokeCount: Option<int>)
    requires cfnTA != cfnSQ
    modifies cfnTA, cfnSQ
    ensures r.Pass? <==> !ManagesStackSets(input.model) || StackSetsPass(input)
    ensures r.Fail? ==> spokeCount.None?
    ensures !ManagesStackSets(input.model) ==>
      cfnTA.sent == old(cfnTA.sent) && cfnSQ.sent == old(cfnSQ.sent) && spokeCount.None?
    ensures ManagesStackSets(input.model) && TARegions(SQRegionsOf(input)).Err? ==>
      cfnTA.sent == old(cfnTA.sent) && cfnSQ.sent == old(cfnSQ.sent)
    ensures ManagesStackSets(input.model) && input.taAvailable && TARegions(SQRegionsOf(input)).Ok?
            && (TACalls(input).Err? || CF.ValidatePrefs(input.prefs).Fail?) ==>
      cfnTA.sent == old(cfnTA.sent) && cfnSQ.sent == old(cfnSQ.sent)
    ensures !input.taAvailable ==> cfnTA.sent == old(cfnTA.sent)
    ensures input.taAvailable && r.Pass? && ManagesStackSets(input.model) ==>
      cfnTA.sent == old(cfnTA.sent) + Sent(cfnTA.stackSetName, TACalls(input).value, input.prefs)
    ensures r.Pass? && ManagesStackSets(input.model) ==>
      && cfnSQ.sent == old(cfnSQ.sent) + Sent(cfnSQ.stackSetName, SQCalls(input).value, input.prefs)
      && (spokeCount.Some? <==> input.sendMetric)
      && (input.sendMetric && UE.IsOrg(input.targets[0]) ==> spokeCount == Some(input.accountsInOrg - 1))
      && (input.sendMetric && !UE.IsOrg(input.targets[0]) ==>
            spokeCount == Some(SpokeCount(OuCounts(input.targets, input.accountsInOu))))
  {
    spokeCount := None;
    if !ManagesStackSets(input.model) {
      return Pass, None;
    }
    var taRegions := TARegions(SQRegionsOf(input));
    if taRegions.Err? {
      return Fail(taRegions.error), None;
    }
    if input.taAvailable {
      r := ManageTAStackSet(cfnTA, input);
      if r.Fail? {
        return;
      }
    }
    r, spokeCount := ManageSQStackSet(cfnSQ, input);
  }

  /** The Trusted Advisor half of manageStackSets: no spoke count. */
  method ManageTAStackSet(cfnTA: CF.StackSetClient, input: StackSetsInput) returns (r: Outcome)
    requires TARegions(SQRegionsOf(input)).Ok?
    modifies cfnTA
    ensures r.Pass? <==> CF.ValidatePrefs(input.prefs).Pass? && TACalls(input).Ok?
    ensures r.Fail? ==> cfnTA.sent == old(cfnTA.sent)
    ensures r.Pass? ==> cfnTA.sent == old(cfnTA.sent) + Sent(cfnTA.stackSetName, TACalls(input).value, input.prefs)
  {
    var ignored;
    r, ignored := ManageStackSetInstances(cfnTA, input.targets, TARegions(SQRegionsOf(input)).value, input.taDeployed.0,
                                          input.taDeployed.1, input.root, input.prefs, false, 0, input.accountsInOu);
  }

  /** The Service Quotas half of manageStackSets, which counts the spokes. */
  method ManageSQStackSet(cfnSQ: CF.StackSetClient, input: StackSetsInput) returns (r: Outcome, spokeCount: Option<int>)
    modifies cfnSQ
    ensures r.Pass? <==> CF.ValidatePrefs(input.prefs).Pass? && SQCalls(input).Ok?
    ensures r.Fail? ==> cfnSQ.sent == old(cfnSQ.sent) && spokeCount.None?
    ensures r.Pass? ==>
      && cfnSQ.sent == old(cfnSQ.sent) + Sent(cfnSQ.stackSetName, SQCalls(input).value, input.prefs)
      && (spokeCount.Some? <==> input.sendMetric)
      && (input.sendMetric && UE.IsOrg(input.targets[0]) ==> spokeCount == Some(input.accountsInOrg - 1))
      && (input.sendMetric && !UE.IsOrg(input.targets[0]) ==>
            spokeCount == Some(SpokeCount(OuCounts(input.targets, input.accountsInOu))))
  {
    r, spokeCount := ManageStackSetInstances(cfnSQ, input.targets, SQRegionsOf(input), input.sqDeployed.0,
                                             input.sqDeployed.1, input.root, input.prefs, input.sendMetric,
                                             input.accountsInOrg, input.accountsInOu);
  }
}
