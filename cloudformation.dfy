/** CloudFormation StackSet helper (utilsLayer/lib/cloudformation.ts):
    operation-preference validation, the regions a stackset is deployed
    to, and the guarded create/delete of stack instances. */
module CloudFormation {
  import opened Common

  /** A JavaScript number as read from configuration: either a value or NaN
      (which is also what `undefined` becomes in a comparison). */
  datatype JsNumber = Num(v: real) | NaN

  /** `x < c` in JavaScript: false whenever x is NaN. */
  predicate Lt(x: JsNumber, c: real) { x.Num? && x.v < c }
  predicate Gt(x: JsNumber, c: real) { x.Num? && x.v > c }

  datatype OpsPrefs = OpsPrefs(regionConcurrencyType: Option<string>,
                               maxConcurrentPercentage: JsNumber,
                               failureTolerancePercentage: JsNumber)

  /** defaultOpsPercentagePrefs */
  const DefaultOpsPrefs := OpsPrefs(Some("PARALLEL"), Num(100.0), Num(0.0))

  const InvalidPrefs := IncorrectConfiguration("Invalid StackSetOperationPreferences")

  /** validateStackSetOpsPercentagePrefs */
  function ValidatePrefs(p: OpsPrefs): Outcome {
    if !(p.regionConcurrencyType in [Some("PARALLEL"), Some("SEQUENTIAL")])
       || Lt(p.maxConcurrentPercentage, 1.0) || Gt(p.maxConcurrentPercentage, 100.0)
       || Lt(p.failureTolerancePercentage, 0.0) || Gt(p.failureTolerancePercentage, 100.0)
    then Fail(InvalidPrefs)
    else Pass
  }

  predicate InRange(x: JsNumber, lo: real, hi: real) { x.Num? && lo <= x.v <= hi }

  /** Preferences are accepted iff the concurrency type is PARALLEL or
      SEQUENTIAL and each percentage lies in its range; a NaN percentage
      slips through, because every comparison with it is false. */
  lemma ValidatePrefsSpec(p: OpsPrefs)
    ensures ValidatePrefs(p).Pass? <==>
      && p.regionConcurrencyType in [Some("PARALLEL"), Some("SEQUENTIAL")]
      && (p.maxConcurrentPercentage.NaN? || InRange(p.maxConcurrentPercentage, 1.0, 100.0))
      && (p.failureTolerancePercentage.NaN? || InRange(p.failureTolerancePercentage, 0.0, 100.0))
    ensures ValidatePrefs(p).Fail? ==> ValidatePrefs(p).error == InvalidPrefs
  {
  }

  /** The default preferences pass validation. */
  lemma DefaultPrefsValid()
    ensures ValidatePrefs(DefaultOpsPrefs).Pass?
  {
  }

  /** getDeployedRegions: one entry per distinct region of the instance
      summaries, in first-occurrence order; no summaries gives none. */
  function DeployedRegions(summaryRegions: Option<seq<string>>): (r: seq<string>)
    ensures forall x :: x in r <==> summaryRegions.Some? && x in summaryRegions.value
    ensures NoDuplicates(r)
  {
    if summaryRegions.None? then []
    else
      DedupSpec(summaryRegions.value);
      Dedup(summaryRegions.value)
  }

  datatype StackInstancesCommand =
    | CreateStackInstances(stackSetName: string, targets: seq<string>, regions: seq<string>,
                           prefs: OpsPrefs, paramOverrides: seq<(string, string)>)
    | DeleteStackInstances(stackSetName: string, targets: seq<string>, regions: seq<string>,
                           prefs: OpsPrefs, retainStacks: bool)
  // both commands are sent with CallAs DELEGATED_ADMIN

  /** The command createStackSetInstances sends, if any: validation comes
      before the empty-input guard. */
  function CreatePlan(name: string, targets: seq<string>, regions: seq<string>, p: OpsPrefs,
                      overrides: seq<(string, string)>): Result<Option<StackInstancesCommand>> {
    match ValidatePrefs(p)
    case Fail(e) => Err(e)
    case Pass =>
      if |targets| == 0 || |regions| == 0 then Ok(None)
      else Ok(Some(CreateStackInstances(name, targets, regions, p, overrides)))
  }

  /** The command deleteStackSetInstances sends, if any. */
  function DeletePlan(name: string, targets: seq<string>, regions: seq<string>, p: OpsPrefs)
    : Result<Option<StackInstancesCommand>> {
    match ValidatePrefs(p)
    case Fail(e) => Err(e)
    case Pass =>
      if |targets| == 0 || |regions| == 0 then Ok(None)
      else Ok(Some(DeleteStackInstances(name, targets, regions, p, false)))
  }

  /** Invalid preferences throw even when there is nothing to create or
      delete; valid ones send a command iff both targets and regions are
      non-empty, carrying exactly those targets and regions, and a delete
      never retains stacks. */
  lemma PlanSpec(name: string, targets: seq<string>, regions: seq<string>, p: OpsPrefs,
                 overrides: seq<(string, string)>)
    ensures ValidatePrefs(p).Fail? ==>
      CreatePlan(name, targets, regions, p, overrides) == Err(InvalidPrefs) && DeletePlan(name, targets, regions, p) == Err(InvalidPrefs)
    ensures ValidatePrefs(p).Pass? ==>
      && CreatePlan(name, targets, regions, p, overrides).Ok?
      && (CreatePlan(name, targets, regions, p, overrides).value.Some? <==> |targets| > 0 && |regions| > 0)
      && DeletePlan(name, targets, regions, p).Ok?
      && (DeletePlan(name, targets, regions, p).value.Some? <==> |targets| > 0 && |regions| > 0)
    ensures CreatePlan(name, targets, regions, p, overrides).Ok? && CreatePlan(name, targets, regions, p, overrides).value.Some? ==>
      var c := CreatePlan(name, targets, regions, p, overrides).value.value;
      c.CreateStackInstances? && c.targets == targets && c.regions == regions && c.stackSetName == name
    ensures DeletePlan(name, targets, regions, p).Ok? && DeletePlan(name, targets, regions, p).value.Some? ==>
      var c := DeletePlan(name, targets, regions, p).value.value;
      c.DeleteStackInstances? && c.targets == targets && c.regions == regions && !c.retainStacks
  {
  }

  /** A CloudFormationHelper bound to one stackset; `sent` records every
      command sent to CloudFormation, in order. */
  class StackSetClient {
    const stackSetName: string
    var sent: seq<StackInstancesCommand>

    constructor (name: string)
      ensures stackSetName == name && sent == []
    {
      stackSetName := name;
      sent := [];
    }

    /** createStackSetInstances: sends at most one command. */
    method CreateStackSetInstances(targets: seq<string>, regions: seq<string>, p: OpsPrefs,
                                   overrides: seq<(string, string)>) returns (r: Outcome)
      modifies this
      ensures var plan := CreatePlan(stackSetName, targets, regions, p, overrides);
        && (r.Fail? <==> plan.Err?)
        && (plan.Ok? && plan.value.Some? ==> sent == old(sent) + [plan.value.value])
        && (plan.Err? || plan.value.None? ==> sent == old(sent))
    {
      var plan := CreatePlan(stackSetName, targets, regions, p, overrides);
      if plan.Err? {
        return Fail(plan.error);
      }
      if plan.value.Some? {
        sent := sent + [plan.value.value];
      }
      r := Pass;
    }

    /** deleteStackSetInstances: sends at most one command. */
    method DeleteStackSetInstances(targets: seq<string>, regions: seq<string>, p: OpsPrefs) returns (r: Outcome)
      modifies this
      ensures var plan := DeletePlan(stackSetName, targets, regions, p);
        && (r.Fail? <==> plan.Err?)
        && (plan.Ok? && plan.value.Some? ==> sent == old(sent) + [plan.value.value])
        && (plan.Err? || plan.value.None? ==> sent == old(sent))
    {
      var plan := DeletePlan(stackSetName, targets, regions, p);
      if plan.Err? {
        return Fail(plan.error);
      }
      if plan.value.Some? {
        sent := sent + [plan.value.value];
      }
      r := Pass;
    }
  }
}
