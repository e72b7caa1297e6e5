/** The earlier Python limit checker (limitCheck.py): for each region of the
    event it reads the Trusted Advisor service-limit check, counts EC2
    instances (one page), CloudFormation stacks and RDS instances against
    their limits, and publishes one SNS message when anything reaches 80 %.
    It keeps no per-service counters. */
module LimitCheckLegacy {
  import opened Common
  import LC = LimitCheck

  /** The separator line of this generation (24 dashes). */
  const Sep: string := "\n------------------------"

  // ---------------------------------------------------------------------
  // Alert texts
  // ---------------------------------------------------------------------

  /** ec2Alert: the EC2 block, opening with a blank line. */
  function Ec2Alert(limit: string, usage: nat, rgn: string): (m: string)
    ensures IsPrefix("\nEC2 Limits\nRegion: " + rgn + Sep, m)
  {
    "\nEC2 Limits" + "\nRegion: " + rgn + Sep + "\nInstance Limit: " + limit + "\nActual Usage: " + NatToString(usage) + "\n"
  }

  /** cloudformationAlert: the same shape, without the leading newline. */
  function CloudformationAlert(limit: nat, usage: nat, rgn: string): (m: string)
    ensures IsPrefix("Cloudformation Limits\nRegion: " + rgn + Sep, m)
  {
    "Cloudformation Limits" + "\nRegion: " + rgn + Sep + "\nStack Limit: " + NatToString(limit) + "\nActual Usage: " + NatToString(usage) + "\n"
  }

  /** rdsAlert as intended: the limit and usage rendered as decimals. */
  function RdsAlert(limit: nat, usage: nat, rgn: string): (m: string)
    ensures IsPrefix("RDS Limits\nRegion: " + rgn + Sep, m)
  {
    "RDS Limits" + "\nRegion: " + rgn + Sep + "\nInstance Limit: " + NatToString(limit) + "\nActual Usage: " + NatToString(usage) + "\n"
  }

  /** rdsAlert as written: `+= limit` appends the integer Max to a str,
      which raises TypeError whatever the values. */
  function RdsAlertAsWritten(limit: nat, usage: nat, rgn: string): (r: Result<string>)
    ensures r.Err?
  {
    Err(TypeError("cannot concatenate 'str' and 'int' objects"))
  }

  /** The separators are the only difference between the two generations'
      EC2 and CloudFormation alerts: one dash more here. */
  lemma SeparatorsDiffer(limit: nat, usage: nat, rgn: string)
    ensures Sep == LC.Sep + "-"
    ensures |Ec2Alert(NatToString(limit), usage, rgn)| == |LC.Ec2Alert(NatToString(limit), usage, rgn)| + 1
    ensures |CloudformationAlert(limit, usage, rgn)| == |LC.CloudformationAlert(limit, usage, rgn)| + 1
  {
  }

  /** An RDS resource at 32 of 40 instances is flagged, and as written
      its alert raises, so the invocation ends before anything is
      published. */
  lemma RdsAlertCounterexample()
    ensures LC.Flagged(32, 40) == Ok(true)
    ensures RdsAlertAsWritten(40, 32, "us-east-1").Err?
  {
    LC.RatioAtLeast(32.0, 40.0);
  }

  /** The intended alert ends with the usage figure, which reads back
      exactly. */
  lemma RdsAlertUsageReadBack(limit: nat, usage: nat, rgn: string)
    ensures DigitsValue(LC.LastNumber(RdsAlert(limit, usage, rgn), |NatToString(usage)|)) == usage
  {
    NatToStringRoundTrip(usage);
    var u := NatToString(usage);
    var m := RdsAlert(limit, usage, rgn);
    assert m == ("RDS Limits" + "\nRegion: " + rgn + Sep + "\nInstance Limit: " + NatToString(limit) + "\nActual Usage: ") + u + "\n";
    assert LC.LastNumber(m, |u|) == u;
  }

  /** The intended alert gives the limit right after "Instance Limit: ",
      and it reads back exactly. */
  lemma RdsAlertLimitReadBack(limit: nat, usage: nat, rgn: string)
    ensures var h := |"RDS Limits" + "\nRegion: " + rgn + Sep + "\nInstance Limit: "|;
      var m := RdsAlert(limit, usage, rgn);
      && h + |NatToString(limit)| <= |m|
      && DigitsValue(m[h..h + |NatToString(limit)|]) == limit
  {
    NatToStringRoundTrip(limit);
    var head := "RDS Limits" + "\nRegion: " + rgn + Sep + "\nInstance Limit: ";
    var l := NatToString(limit);
    var m := RdsAlert(limit, usage, rgn);
    assert m == (head + l) + ("\nActual Usage: " + NatToString(usage) + "\n");
    SliceOfPrefix(head, l, "\nActual Usage: " + NatToString(usage) + "\n");
  }

  lemma SliceOfPrefix(a: string, b: string, c: string)
    ensures |a| + |b| <= |(a + b) + c| && ((a + b) + c)[|a|..|a| + |b|] == b
  {
    assert ((a + b) + c)[..|a| + |b|] == a + b;
  }

  // ---------------------------------------------------------------------
  // Trusted Advisor
  // ---------------------------------------------------------------------

  /** The warning of a non-Green item: limit name, region, limit and
      usage; the service is not part of it. */
  function TAWarning(it: LC.TAItem): string {
    it.limitName + "\nRegion: " + it.region + Sep + "\nResource Limit: " + it.limitAmount
      + "\nResource Usage: " + it.currentUsage + "\n"
  }

  /** The non-Green items' warnings, in order. */
  function Warnings(items: seq<LC.TAItem>): seq<string> {
    if |items| == 0 then []
    else Warnings(items[..|items| - 1]) + (if items[|items| - 1].status != "Green" then [TAWarning(items[|items| - 1])] else [])
  }

  /** One warning per non-Green item, and none at all when every item is
      Green. */
  lemma {:induction false} WarningsCount(items: seq<LC.TAItem>)
    ensures |Warnings(items)| == LC.NonGreenTotal(items)
    ensures (forall i :: 0 <= i < |items| ==> items[i].status == "Green") ==> Warnings(items) == []
  {
    if |items| > 0 {
      WarningsCount(items[..|items| - 1]);
    }
  }

  /** Two items that differ only in their service give the same warning. */
  lemma WarningOmitsService(it: LC.TAItem, service: string)
    ensures TAWarning(it.(service := service)) == TAWarning(it)
  {
  }

  /** The loop over the flagged resources. */
  method CollectWarnings(items: seq<LC.TAItem>) returns (warns: seq<string>)
    ensures warns == Warnings(items)
  {
    warns := [];
    for i := 0 to |items|
      invariant warns == Warnings(items[..i])
    {
      assert items[..i + 1][..i] == items[..i];
      if items[i].status != "Green" {
        warns := warns + [TAWarning(items[i])];
      }
    }
    assert items[..|items|] == items;
  }

  // ---------------------------------------------------------------------
  // One region
  // ---------------------------------------------------------------------

  datatype AccountQuota = AccountQuota(max: nat, used: nat)

  /** What the AWS calls of one region return. */
  datatype RegionData = RegionData(
    ta: seq<LC.TAItem>,                   // describe_trusted_advisor_check_result
    attributes: seq<LC.Attribute>,        // describe_account_attributes
    reservations: seq<seq<string>>,       // the one describe_instances page
    accountLimits: seq<LC.AccountLimit>,  // describe_account_limits
    stacks: seq<string>,                  // the one describe_stacks page
    quotas: seq<AccountQuota>)            // RDS describe_account_attributes

  /** The EC2, CloudFormation and RDS checks: ec2 + cfn + rds, or the error
      that ends the invocation. */
  function Checks(rgn: string, d: RegionData): (r: Result<string>)
    ensures r.Ok? ==> LC.InstanceLimit(d.attributes).Some? && StackLimitOf(d).Ok? && |d.quotas| > 0
  {
    var limit :- LC.OptionToResult(LC.InstanceLimit(d.attributes), "limit_of_instances");
    var instances := |Flatten(d.reservations)|;
    var ec2 :- LC.Flagged(instances, limit);
    var stackLimit :- StackLimitOf(d);
    var cfn :- LC.Flagged(|d.stacks|, stackLimit);
    if |d.quotas| == 0 then Err(IndexError)
    else
      var rds :- LC.Flagged(d.quotas[0].used, d.quotas[0].max);
      Ok((if ec2 then Ec2Alert(NatToString(limit), instances, rgn) else "")
         + (if cfn then CloudformationAlert(stackLimit, |d.stacks|, rgn) else "")
         + (if rds then RdsAlert(d.quotas[0].max, d.quotas[0].used, rgn) else ""))
  }

  function StackLimitOf(d: RegionData): Result<nat> {
    LC.StackLimit(d.accountLimits)
  }

  /** The region message is empty exactly when none of the three checks
      reaches 80 %. */
  lemma ChecksQuiet(rgn: string, d: RegionData)
    requires Checks(rgn, d).Ok?
    ensures Checks(rgn, d).value == "" <==>
      !LC.Over(|Flatten(d.reservations)|, LC.InstanceLimit(d.attributes).value)
      && !LC.Over(|d.stacks|, StackLimitOf(d).value)
      && !LC.Over(d.quotas[0].used, d.quotas[0].max)
  {
    var limit := LC.InstanceLimit(d.attributes).value;
    var instances := |Flatten(d.reservations)|;
    var e := if LC.Over(instances, limit) then Ec2Alert(NatToString(limit), instances, rgn) else "";
    var c := if LC.Over(|d.stacks|, StackLimitOf(d).value) then CloudformationAlert(StackLimitOf(d).value, |d.stacks|, rgn) else "";
    var q := d.quotas[0];
    var s := if LC.Over(q.used, q.max) then RdsAlert(q.max, q.used, rgn) else "";
    assert LC.Flagged(instances, limit) == Ok(LC.Over(instances, limit));
    assert LC.Flagged(|d.stacks|, StackLimitOf(d).value) == Ok(LC.Over(|d.stacks|, StackLimitOf(d).value));
    assert LC.Flagged(q.used, q.max) == Ok(LC.Over(q.used, q.max));
    assert Checks(rgn, d).value == e + c + s;
    assert |e| > 0 <==> LC.Over(instances, limit);
    assert |c| > 0 <==> LC.Over(|d.stacks|, StackLimitOf(d).value);
    assert |s| > 0 <==> LC.Over(q.used, q.max);
    assert |e + c + s| == |e| + |c| + |s|;
  }

  /** assume_role on one region: ta_message afterwards (replaced whenever
      the region's read of Trusted Advisor has warnings) and the region
      message, or the error raised. */
  function Step(rgn: string, d: RegionData, ta: string): (string, Result<string>) {
    var w := Warnings(d.ta);
    (if |w| > 0 then LC.AlertList(w) else ta, Checks(rgn, d))
  }

  /** The regions in order: ta_message after them, and the concatenated
      region messages or the error that ended the loop. */
  function Run(regions: seq<string>, data: string -> RegionData, ta: string): (string, Result<string>) {
    if |regions| == 0 then (ta, Ok(""))
    else
      var p := Run(regions[..|regions| - 1], data, ta);
      if p.1.Err? then p
      else
        var q := Step(regions[|regions| - 1], data(regions[|regions| - 1]), p.0);
        if q.1.Err? then q else (q.0, Ok(p.1.value + q.1.value))
  }

  lemma RunSnoc(regions: seq<string>, data: string -> RegionData, ta: string, i: nat)
    requires i < |regions|
    requires Run(regions[..i], data, ta).1.Ok?
    ensures var p := Run(regions[..i], data, ta);
      var q := Step(regions[i], data(regions[i]), p.0);
      Run(regions[..i + 1], data, ta) == if q.1.Err? then q else (q.0, Ok(p.1.value + q.1.value))
  {
    assert regions[..i + 1][..i] == regions[..i];
  }

  lemma {:induction false} RunStops(regions: seq<string>, data: string -> RegionData, ta: string, k: nat)
    requires k <= |regions|
    requires Run(regions[..k], data, ta).1.Err?
    ensures Run(regions, data, ta) == Run(regions[..k], data, ta)
    decreases |regions| - k
  {
    if k < |regions| {
      assert regions[..k + 1][..k] == regions[..k];
      RunStops(regions, data, ta, k + 1);
    } else {
      assert regions[..k] == regions;
    }
  }

  /** Every region reads the same Trusted Advisor result, so when it has
      warnings ta_message ends up as their alert, whatever it held before. */
  lemma {:induction false} RunTAMessage(regions: seq<string>, data: string -> RegionData, ta: string, items: seq<LC.TAItem>)
    requires |regions| > 0
    requires forall i :: 0 <= i < |regions| ==> data(regions[i]).ta == items
    requires |Warnings(items)| > 0
    requires Run(regions, data, ta).1.Ok?
    ensures Run(regions, data, ta).0 == LC.AlertList(Warnings(items))
  {
    var n := |regions|;
    var last := regions[n - 1];
    assert data(last).ta == items;
    var p := Run(regions[..n - 1], data, ta);
    var q := Step(last, data(last), p.0);
    assert q.0 == LC.AlertList(Warnings(items));
    assert Run(regions, data, ta) == if p.1.Err? then p else if q.1.Err? then q else (q.0, Ok(p.1.value + q.1.value));
  }

  function Header(accountId: string): string {
    "AWS account " + accountId + " has limits approaching their upper threshold. Please take action accordingly.\n"
  }

  /** The Lambda function's state across invocations of one container:
      the module-level ta_message, and the SNS messages published. */
  class LegacyLimitCheckFunction {
    var taMessage: string
    var published: seq<string>

    constructor ()
      ensures taMessage == "" && published == []
    {
      taMessage := "";
      published := [];
    }

    /** assume_role for one region. */
    method AssumeRole(rgn: string, d: RegionData) returns (r: Result<string>)
      modifies this
      ensures (taMessage, r) == Step(rgn, d, old(taMessage))
      ensures published == old(published)
    {
      var warns := CollectWarnings(d.ta);
      if |warns| > 0 {
        taMessage := LC.TrustedAlert(warns);
      }
      r := Checks(rgn, d);
    }

    /** lambda_handler: the event's regions in order, then one publication
        exactly when the region messages or ta_message are non-empty. */
    method LambdaHandler(accountId: string, regions: seq<string>, data: string -> RegionData)
      returns (r: Result<Option<string>>)
      modifies this
      ensures var run := Run(regions, data, old(taMessage));
        && taMessage == run.0
        && (r.Err? <==> run.1.Err?)
        && (r.Ok? ==> (r.value.None? <==> run.1.value == "" && taMessage == ""))
        && (r.Ok? && r.value.Some? ==>
              r.value.value == Header(accountId) + taMessage + run.1.value
              && published == old(published) + [r.value.value])
        && ((r.Err? || r.value.None?) ==> published == old(published))
    {
      ghost var ta0 := taMessage;
      var snsMessage := "";
      for i := 0 to |regions|
        invariant published == old(published)
        invariant Run(regions[..i], data, ta0) == (taMessage, Ok(snsMessage))
      {
        var response := AssumeRole(regions[i], data(regions[i]));
        RunSnoc(regions, data, ta0, i);
        if response.Err? {
          RunStops(regions, data, ta0, i + 1);
          return Err(response.error);
        }
        snsMessage := snsMessage + response.value;
      }
      assert regions[..|regions|] == regions;
      if snsMessage == "" && taMessage == "" {
        return Ok(None);
      }
      var message := Header(accountId) + taMessage + snsMessage;
      published := published + [message];
      r := Ok(Some(message));
    }
  }
}
