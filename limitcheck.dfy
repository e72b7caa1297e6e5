/** The Python limit checker (limit-check.py): for every configured region
    it assumes the check role, reads the Trusted Advisor service-limit check
    (us-east-1 only), counts EC2 instances, CloudFormation stacks and
    DynamoDB capacity against their limits, flags whatever reaches 80 %,
    counts the flags per region and service, and publishes one SNS message
    when anything was flagged. */
module LimitCheck {
  import opened Common
  import SQChecks
  import CwPoller

  /** The separator line under every alert heading (23 dashes). */
  const Sep: string := "\n-----------------------"

  // ---------------------------------------------------------------------
  // The 80 % rule
  // ---------------------------------------------------------------------

  /** `usage/limit >= 0.8` on whole numbers, without division. */
  predicate Over(usage: nat, limit: nat) {
    5 * usage >= 4 * limit
  }

  lemma RatioAtLeast(u: real, l: real)
    requires l > 0.0
    ensures u / l >= 0.8 <==> 5.0 * u >= 4.0 * l
  {
    var x := u / l;
    assert x * l == u;
    if x >= 0.8 {
      assert x * l >= 0.8 * l;
    } else {
      assert x * l < 0.8 * l;
    }
  }

  /** `float(usage) / float(limit) >= 0.8`, which raises ZeroDivisionError
      when the limit is 0. */
  function Flagged(usage: nat, limit: nat): (r: Result<bool>)
    ensures r.Err? <==> limit == 0
    ensures r.Err? ==> r.error == ZeroDivision
    ensures r.Ok? ==> (r.value <==> (usage as real) / (limit as real) >= 0.8)
  {
    if limit == 0 then Err(ZeroDivision)
    else
      RatioAtLeast(usage as real, limit as real);
      Ok(Over(usage, limit))
  }

  /** The Python rule agrees with the Node checks' classification at a
      threshold of 0.8: a resource is flagged exactly when it is red or
      yellow there. */
  lemma FlaggedMatchesClassify(usage: nat, limit: nat)
    requires limit > 0
    ensures Flagged(usage, limit).value <==>
      SQChecks.Classify(usage as real, Some(limit as real), Some(0.8)).Some?
  {
  }

  /** At exactly 80 % the Python rule flags, while the CloudWatch poller,
      whose WARN needs a utilization strictly above its threshold, does not. */
  lemma ExactlyEightyPercent()
    ensures Flagged(4, 5) == Ok(true)
    ensures CwPoller.UtilizationStatus(100.0 * 4.0 / 5.0, Some(80.0)) == CwPoller.OK
  {
    RatioAtLeast(4.0, 5.0);
  }

  // ---------------------------------------------------------------------
  // Alert texts
  // ---------------------------------------------------------------------

  /** "\n" + each entry, in order. */
  function Entries(warns: seq<string>): string {
    if |warns| == 0 then ""
    else Entries(warns[..|warns| - 1]) + "\n" + warns[|warns| - 1]
  }

  /** What trusted_alert and dynamodb_alert build: each entry on a line of
      its own, then a closing newline. */
  function AlertList(warns: seq<string>): string {
    Entries(warns) + "\n"
  }

  /** trusted_alert / dynamodb_alert (the two have the same body). */
  method TrustedAlert(warns: seq<string>) returns (message: string)
    ensures message == AlertList(warns)
  {
    message := "";
    for i := 0 to |warns|
      invariant message == Entries(warns[..i])
    {
      assert warns[..i + 1][..i] == warns[..i];
      message := message + "\n" + warns[i];
    }
    assert warns[..|warns|] == warns;
    message := message + "\n";
  }

  lemma {:induction false} EntriesPrefix(warns: seq<string>, j: nat)
    requires j <= |warns|
    ensures IsPrefix(Entries(warns[..j]), Entries(warns))
    decreases |warns| - j
  {
    if j < |warns| {
      EntriesPrefix(warns, j + 1);
      assert warns[..j + 1][..j] == warns[..j];
      assert IsPrefix(Entries(warns[..j]), Entries(warns[..j + 1]));
    } else {
      assert warns[..j] == warns;
    }
  }

  /** Every warning appears in the alert, in order, each right after a
      newline at the offset the earlier entries leave; the alert ends with
      a newline. */
  lemma AlertListEntries(warns: seq<string>, i: nat)
    requires i < |warns|
    ensures OccursAt(AlertList(warns), "\n" + warns[i], |Entries(warns[..i])|)
    ensures AlertList(warns)[|AlertList(warns)| - 1] == '\n'
  {
    EntriesPrefix(warns, i + 1);
    assert warns[..i + 1][..i] == warns[..i];
    var e := Entries(warns[..i]);
    var m := AlertList(warns);
    assert Entries(warns[..i + 1]) == e + ("\n" + warns[i]);
    assert m[|e|..|e| + |"\n" + warns[i]|] == Entries(warns[..i + 1])[|e|..];
  }

  /** ec2_alert: the EC2 block, opening with a blank line. */
  function Ec2Alert(limit: string, usage: nat, rgn: string): (m: string)
    ensures IsPrefix("\nEC2 Limits\nRegion: " + rgn + Sep, m)
    ensures m[|m| - 1] == '\n'
  {
    "\nEC2 Limits" + "\nRegion: " + rgn + Sep + "\nInstance Limit: " + limit + "\nActual Usage: " + NatToString(usage) + "\n"
  }

  /** cloudformation_alert: the same shape, without the leading newline. */
  function CloudformationAlert(limit: nat, usage: nat, rgn: string): (m: string)
    ensures IsPrefix("Cloudformation Limits\nRegion: " + rgn + Sep, m)
    ensures m[|m| - 1] == '\n'
  {
    "Cloudformation Limits" + "\nRegion: " + rgn + Sep + "\nStack Limit: " + NatToString(limit) + "\nActual Usage: " + NatToString(usage) + "\n"
  }

  /** The digits just before the closing newline of an alert. */
  function LastNumber(m: string, width: nat): string
    requires width < |m|
  {
    m[|m| - 1 - width..|m| - 1]
  }

  /** Both alerts end with the usage figure, which reads back exactly. */
  lemma AlertUsageReadBack(limit: nat, usage: nat, rgn: string)
    ensures var w := |NatToString(usage)|;
      && DigitsValue(LastNumber(Ec2Alert(NatToString(limit), usage, rgn), w)) == usage
      && DigitsValue(LastNumber(CloudformationAlert(limit, usage, rgn), w)) == usage
  {
    NatToStringRoundTrip(usage);
    var u := NatToString(usage);
    var e := Ec2Alert(NatToString(limit), usage, rgn);
    assert e == ("\nEC2 Limits" + "\nRegion: " + rgn + Sep + "\nInstance Limit: " + NatToString(limit) + "\nActual Usage: ") + u + "\n";
    assert LastNumber(e, |u|) == u;
    var c := CloudformationAlert(limit, usage, rgn);
    assert c == ("Cloudformation Limits" + "\nRegion: " + rgn + Sep + "\nStack Limit: " + NatToString(limit) + "\nActual Usage: ") + u + "\n";
    assert LastNumber(c, |u|) == u;
  }

  // ---------------------------------------------------------------------
  // Alert counters: alerts[region][service]
  // ---------------------------------------------------------------------

  type Alerts = map<string, map<string, nat>>

  function Count(a: Alerts, r: string, s: string): nat {
    if r in a && s in a[r] then a[r][s] else 0
  }

  /** `alerts[r][s] += 1`, or `= 1` when the service has no counter yet;
      a region without an entry gets one. */
  function Bump(a: Alerts, r: string, s: string): (b: Alerts)
    ensures b.Keys == a.Keys + {r}
    ensures forall r' :: r' in a && r' != r ==> b[r'] == a[r']
  {
    var inner := if r in a then a[r] else map[];
    a[r := inner[s := if s in inner then inner[s] + 1 else 1]]
  }

  /** Bump adds one to its own counter and changes no other. */
  lemma BumpCount(a: Alerts, r: string, s: string, r2: string, s2: string)
    ensures Count(Bump(a, r, s), r2, s2) == Count(a, r2, s2) + (if r2 == r && s2 == s then 1 else 0)
  {
  }

  /** `alerts[rgn][s] = n`. */
  function SetCount(a: Alerts, r: string, s: string, n: nat): (b: Alerts)
    ensures b.Keys == a.Keys + {r}
    ensures Count(b, r, s) == n
    ensures forall r2, s2 :: r2 != r || s2 != s ==> Count(b, r2, s2) == Count(a, r2, s2)
  {
    var inner := if r in a then a[r] else map[];
    a[r := inner[s := n]]
  }

  // ---------------------------------------------------------------------
  // Trusted Advisor
  // ---------------------------------------------------------------------

  /** A flagged resource of the service-limits check: metadata[0..5]. */
  datatype TAItem = TAItem(region: string, service: string, limitName: string, limitAmount: string,
                           currentUsage: string, status: string)

  function Global(s: string): (r: string)
    ensures r != "-"
    ensures s != "-" ==> r == s
  {
    if s == "-" then "global" else s
  }

  /** A "-" in any of the first five metadata fields becomes "global". */
  function Normalize(it: TAItem): TAItem {
    TAItem(Global(it.region), Global(it.service), Global(it.limitName), Global(it.limitAmount),
           Global(it.currentUsage), it.status)
  }

  /** The warning text of a non-Green item. */
  function TAWarning(n: TAItem): string {
    n.service + " - " + n.limitName + "\nRegion: " + n.region + Sep + "\nResource Limit: " + n.limitAmount
      + "\nResource Usage: " + n.currentUsage + "\n"
  }

  /** u_decode: the text itself, or "None" for a missing value. */
  function UDecode(s: Option<string>): (r: string)
    ensures s.Some? ==> r == s.value
  {
    match s
    case None => "None"
    case Some(x) => x
  }

  /** extract_status: [limit name, limit, usage] of a us-east-1 item. */
  function ExtractStatus(n: TAItem): (r: Option<seq<string>>)
    ensures r.Some? <==> n.region == "us-east-1"
    ensures r.Some? ==> r.value == [n.limitName, n.limitAmount, n.currentUsage]
  {
    if UDecode(Some(n.region)) == "us-east-1" then Some([UDecode(Some(n.limitName)), UDecode(Some(n.limitAmount)), UDecode(Some(n.currentUsage))])
    else None
  }

  datatype TAResult = TAResult(warns: seq<string>, alerts: Alerts, status: seq<seq<string>>)

  /** The pass over the flagged resources. */
  function TAFold(items: seq<TAItem>, a: Alerts): TAResult {
    if |items| == 0 then TAResult([], a, [])
    else
      var p := TAFold(items[..|items| - 1], a);
      var n := Normalize(items[|items| - 1]);
      var q := if n.status != "Green" then TAResult(p.warns + [TAWarning(n)], Bump(p.alerts, n.region, n.service), p.status)
               else p;
      var st := ExtractStatus(n);
      if st.Some? then q.(status := q.status + [st.value]) else q
  }

  /** How many items are non-Green for the region and service, after the
      "-" to "global" rewrite. */
  function NonGreen(items: seq<TAItem>, r: string, s: string): nat {
    if |items| == 0 then 0
    else
      var n := Normalize(items[|items| - 1]);
      NonGreen(items[..|items| - 1], r, s) + (if n.status != "Green" && n.region == r && n.service == s then 1 else 0)
  }

  function NonGreenTotal(items: seq<TAItem>): nat {
    if |items| == 0 then 0
    else NonGreenTotal(items[..|items| - 1]) + (if items[|items| - 1].status != "Green" then 1 else 0)
  }

  /** Each non-Green item adds one warning and one to its own
      alerts[region][service] counter; Green items add neither. */
  lemma {:induction false} TAFoldCounts(items: seq<TAItem>, a: Alerts, r: string, s: string)
    ensures Count(TAFold(items, a).alerts, r, s) == Count(a, r, s) + NonGreen(items, r, s)
    ensures |TAFold(items, a).warns| == NonGreenTotal(items)
  {
    if |items| > 0 {
      var p := TAFold(items[..|items| - 1], a);
      TAFoldCounts(items[..|items| - 1], a, r, s);
      var n := Normalize(items[|items| - 1]);
      BumpCount(p.alerts, n.region, n.service, r, s);
    }
  }

  /** The status list holds one row per us-east-1 item, in order. */
  lemma {:induction false} TAFoldStatus(items: seq<TAItem>, a: Alerts)
    ensures forall i :: 0 <= i < |TAFold(items, a).status| ==> |TAFold(items, a).status[i]| == 3
    ensures (forall i :: 0 <= i < |items| ==> Normalize(items[i]).region != "us-east-1") ==> TAFold(items, a).status == []
  {
    if |items| > 0 {
      TAFoldStatus(items[..|items| - 1], a);
    }
  }

  /** The loop over the flagged resources in assume_role. */
  method ProcessTA(items: seq<TAItem>, a: Alerts) returns (r: TAResult)
    ensures r == TAFold(items, a)
  {
    var warns: seq<string> := [];
    var alerts := a;
    var status: seq<seq<string>> := [];
    for i := 0 to |items|
      invariant TAResult(warns, alerts, status) == TAFold(items[..i], a)
    {
      assert items[..i + 1][..i] == items[..i];
      var n := Normalize(items[i]);
      if n.status != "Green" {
        warns := warns + [TAWarning(n)];
        alerts := Bump(alerts, n.region, n.service);
      }
      var st := ExtractStatus(n);
      if st.Some? {
        status := status + [st.value];
      }
    }
    assert items[..|items|] == items;
    r := TAResult(warns, alerts, status);
  }

  /** The Trusted Advisor part of assume_role: only us-east-1 reads the
      check; TA_MESSAGE is replaced only when there are warnings. */
  function TAStage(rgn: string, items: seq<TAItem>, a: Alerts, ta: string): (Alerts, string) {
    if rgn != "us-east-1" then (a, ta)
    else
      var t := TAFold(items, a);
      (t.alerts, if |t.warns| > 0 then AlertList(t.warns) else ta)
  }

  // ---------------------------------------------------------------------
  // Pagination
  // ---------------------------------------------------------------------

  /** Following NextToken (or LastEvaluatedTableName) until it is absent:
      `pages` are the responses in order, and the result is every item of
      every page, in order. */
  method Aggregate<T>(pages: seq<seq<T>>) returns (all: seq<T>)
    ensures all == Flatten(pages)
  {
    all := [];
    var i := 0;
    while i < |pages|
      invariant 0 <= i <= |pages|
      invariant all == Flatten(pages[..i])
    {
      FlattenPrefixStep(pages, i);
      all := all + pages[i];
      i := i + 1;
    }
    assert pages[..|pages|] == pages;
  }

  /** The instances of all reservations of all pages. */
  function InstancesOf(pages: seq<seq<seq<string>>>): seq<string> {
    Flatten(Flatten(pages))
  }

  /** The EC2 part's count: the number of instances over every reservation
      of every describe_instances page. */
  method CountInstances(pages: seq<seq<seq<string>>>) returns (n: nat)
    ensures n == |InstancesOf(pages)|
  {
    var reservations := Aggregate(pages);
    n := 0;
    for i := 0 to |reservations|
      invariant n == |Flatten(reservations[..i])|
    {
      FlattenPrefixStep(reservations, i);
      n := n + |reservations[i]|;
    }
    assert reservations[..|reservations|] == reservations;
  }

  // ---------------------------------------------------------------------
  // EC2 and CloudFormation limits
  // ---------------------------------------------------------------------

  datatype Attribute = Attribute(name: string, value: nat)

  datatype AccountLimit = AccountLimit(name: string, value: nat)

  /** The value of the last "max-instances" attribute (the loop does not
      stop at the first match). */
  function InstanceLimit(attrs: seq<Attribute>): Option<nat> {
    if |attrs| == 0 then None
    else if attrs[|attrs| - 1].name == "max-instances" then Some(attrs[|attrs| - 1].value)
    else InstanceLimit(attrs[..|attrs| - 1])
  }

  /** The limit is found exactly when some attribute is "max-instances",
      and it is the value of the last one. */
  lemma {:induction false} InstanceLimitSpec(attrs: seq<Attribute>)
    ensures InstanceLimit(attrs).Some? <==> exists i :: 0 <= i < |attrs| && attrs[i].name == "max-instances"
    ensures InstanceLimit(attrs).Some? ==>
      exists i :: (0 <= i < |attrs| && attrs[i].name == "max-instances" && attrs[i].value == InstanceLimit(attrs).value
                   && forall j :: i < j < |attrs| ==> attrs[j].name != "max-instances")
  {
    if |attrs| > 0 {
      var n := |attrs| - 1;
      var p := attrs[..n];
      if attrs[n].name == "max-instances" {
        assert attrs[n].value == InstanceLimit(attrs).value;
      } else {
        InstanceLimitSpec(p);
        assert InstanceLimit(attrs) == InstanceLimit(p);
        if InstanceLimit(p).Some? {
          var i :| 0 <= i < |p| && p[i].name == "max-instances" && p[i].value == InstanceLimit(p).value
            && forall j :: i < j < |p| ==> p[j].name != "max-instances";
          assert attrs[i] == p[i];
          forall j | i < j < |attrs| ensures attrs[j].name != "max-instances" {
            if j < n { assert attrs[j] == p[j]; }
          }
        }
        if exists i :: 0 <= i < |attrs| && attrs[i].name == "max-instances" {
          var i :| 0 <= i < |attrs| && attrs[i].name == "max-instances";
          assert p[i] == attrs[i];
        }
      }
    }
  }

  /** The loop over the account attributes. */
  method FindInstanceLimit(attrs: seq<Attribute>) returns (limit: Option<nat>)
    ensures limit == InstanceLimit(attrs)
  {
    limit := None;
    for i := 0 to |attrs|
      invariant limit == InstanceLimit(attrs[..i])
    {
      assert attrs[..i + 1][..i] == attrs[..i];
      if attrs[i].name == "max-instances" {
        limit := Some(attrs[i].value);
      }
    }
    assert attrs[..|attrs|] == attrs;
  }

  /** The stack limit: AccountLimits[0], when it is named "StackLimit";
      otherwise limit_of_stacks is never bound. */
  function StackLimit(limits: seq<AccountLimit>): (r: Result<nat>)
    ensures r.Ok? <==> |limits| > 0 && limits[0].name == "StackLimit"
    ensures r.Ok? ==> r.value == limits[0].value
  {
    if |limits| == 0 then Err(IndexError)
    else if limits[0].name == "StackLimit" then Ok(limits[0].value)
    else Err(NameError("limit_of_stacks"))
  }

  // ---------------------------------------------------------------------
  // DynamoDB
  // ---------------------------------------------------------------------

  datatype Gsi = Gsi(indexName: string, rcu: nat, wcu: nat)

  /** A described table; `gsis` is None when the table has no
      GlobalSecondaryIndexes key. */
  datatype Table = Table(name: string, rcu: nat, wcu: nat, gsis: Option<seq<Gsi>>)

  datatype DynamoLimits = DynamoLimits(maxTableWrite: nat, maxTableRead: nat, maxAccountWrite: nat, maxAccountRead: nat)

  /** What the DynamoDB calls return: the limits and the pages of tables. */
  datatype DynamoData = DynamoData(limits: DynamoLimits, tablePages: seq<seq<Table>>)

  function TableWarning(table: string, kind: string, rgn: string, limit: nat, usage: nat): string {
    "Table - " + table + "\n" + kind + "\nRegion: " + rgn + Sep + "\nResource Limit: " + NatToString(limit)
      + "\nResource Usage: " + NatToString(usage) + "\n"
  }

  function IndexWarning(table: string, index: string, kind: string, rgn: string, limit: nat, usage: nat): string {
    "Table - " + table + ":\nIndex - " + index + "\n" + kind + "\nRegion: " + rgn + Sep + "\nResource Limit: "
      + NatToString(limit) + "\nResource Usage: " + NatToString(usage) + "\n"
  }

  function AccountWarning(kind: string, rgn: string, limit: nat, usage: nat): string {
    kind + "\nRegion: " + rgn + Sep + "\nResource Limit: " + NatToString(limit) + "\nResource Usage: " + NatToString(usage) + "\n"
  }

  function IndexWarnings(rgn: string, lim: DynamoLimits, table: string, gs: seq<Gsi>): seq<string> {
    if |gs| == 0 then []
    else
      var g := gs[|gs| - 1];
      IndexWarnings(rgn, lim, table, gs[..|gs| - 1])
        + (if Over(g.rcu, lim.maxTableRead) then [IndexWarning(table, g.indexName, "RCUs", rgn, lim.maxTableRead, g.rcu)] else [])
        + (if Over(g.wcu, lim.maxTableWrite) then [IndexWarning(table, g.indexName, "WCUs", rgn, lim.maxTableWrite, g.wcu)] else [])
  }

  function GsisOf(t: Table): seq<Gsi> {
    if t.gsis.Some? then t.gsis.value else []
  }

  /** The warnings of one table: its reads, its writes, then each index. */
  function TableWarnings(rgn: string, lim: DynamoLimits, t: Table): seq<string> {
    (if Over(t.rcu, lim.maxTableRead) then [TableWarning(t.name, "RCUs", rgn, lim.maxTableRead, t.rcu)] else [])
      + (if Over(t.wcu, lim.maxTableWrite) then [TableWarning(t.name, "WCUs", rgn, lim.maxTableWrite, t.wcu)] else [])
      + IndexWarnings(rgn, lim, t.name, GsisOf(t))
  }

  function TablesWarnings(rgn: string, lim: DynamoLimits, ts: seq<Table>): seq<string> {
    if |ts| == 0 then []
    else TablesWarnings(rgn, lim, ts[..|ts| - 1]) + TableWarnings(rgn, lim, ts[|ts| - 1])
  }

  function IndexRcu(gs: seq<Gsi>): nat {
    if |gs| == 0 then 0 else IndexRcu(gs[..|gs| - 1]) + gs[|gs| - 1].rcu
  }

  function IndexWcu(gs: seq<Gsi>): nat {
    if |gs| == 0 then 0 else IndexWcu(gs[..|gs| - 1]) + gs[|gs| - 1].wcu
  }

  /** The account's read capacity: every table and every index. */
  function TotalRcu(ts: seq<Table>): nat {
    if |ts| == 0 then 0 else TotalRcu(ts[..|ts| - 1]) + ts[|ts| - 1].rcu + IndexRcu(GsisOf(ts[|ts| - 1]))
  }

  function TotalWcu(ts: seq<Table>): nat {
    if |ts| == 0 then 0 else TotalWcu(ts[..|ts| - 1]) + ts[|ts| - 1].wcu + IndexWcu(GsisOf(ts[|ts| - 1]))
  }

  /** The DynamoDB block: its warning list, or None when anything in the
      try block raises (no limits, or a division by a zero limit). */
  function DynamoWarnings(rgn: string, d: Option<DynamoData>): Option<seq<string>> {
    if d.None? then None
    else
      var lim := d.value.limits;
      var ts := Flatten(d.value.tablePages);
      if |ts| > 0 && (lim.maxTableRead == 0 || lim.maxTableWrite == 0) then None
      else if lim.maxAccountRead == 0 || lim.maxAccountWrite == 0 then None
      else
        Some(TablesWarnings(rgn, lim, ts)
          + (if Over(TotalRcu(ts), lim.maxAccountRead) then [AccountWarning("RCU", rgn, lim.maxAccountRead, TotalRcu(ts))] else [])
          + (if Over(TotalWcu(ts), lim.maxAccountWrite) then [AccountWarning("WCU", rgn, lim.maxAccountWrite, TotalWcu(ts))] else []))
  }

  /** Every table and index under 80 % of the table limits gives no table
      warning. */
  lemma {:induction false} QuietTables(rgn: string, lim: DynamoLimits, ts: seq<Table>)
    requires forall i :: 0 <= i < |ts| ==> !Over(ts[i].rcu, lim.maxTableRead) && !Over(ts[i].wcu, lim.maxTableWrite)
    requires forall i, j :: 0 <= i < |ts| && 0 <= j < |GsisOf(ts[i])| ==>
      !Over(GsisOf(ts[i])[j].rcu, lim.maxTableRead) && !Over(GsisOf(ts[i])[j].wcu, lim.maxTableWrite)
    ensures TablesWarnings(rgn, lim, ts) == []
  {
    if |ts| > 0 {
      QuietTables(rgn, lim, ts[..|ts| - 1]);
      QuietIndexes(rgn, lim, ts[|ts| - 1].name, GsisOf(ts[|ts| - 1]));
    }
  }

  lemma {:induction false} QuietIndexes(rgn: string, lim: DynamoLimits, table: string, gs: seq<Gsi>)
    requires forall j :: 0 <= j < |gs| ==> !Over(gs[j].rcu, lim.maxTableRead) && !Over(gs[j].wcu, lim.maxTableWrite)
    ensures IndexWarnings(rgn, lim, table, gs) == []
  {
    if |gs| > 0 {
      QuietIndexes(rgn, lim, table, gs[..|gs| - 1]);
    }
  }

  /** The account warnings come after every table warning, and each
      appears exactly when its total reaches 80 % of the account limit. */
  lemma DynamoAccountWarnings(rgn: string, d: DynamoData)
    requires DynamoWarnings(rgn, Some(d)).Some?
    ensures var ts := Flatten(d.tablePages);
      var w := DynamoWarnings(rgn, Some(d)).value;
      var k := |TablesWarnings(rgn, d.limits, ts)|;
      && w[..k] == TablesWarnings(rgn, d.limits, ts)
      && (AccountWarning("RCU", rgn, d.limits.maxAccountRead, TotalRcu(ts)) in w[k..]
          <==> (TotalRcu(ts) as real) / (d.limits.maxAccountRead as real) >= 0.8)
  {
    var ts := Flatten(d.tablePages);
    var u := TotalRcu(ts);
    var l := d.limits.maxAccountRead;
    RatioAtLeast(u as real, l as real);
    var r := AccountWarning("RCU", rgn, l, u);
    var x := AccountWarning("WCU", rgn, d.limits.maxAccountWrite, TotalWcu(ts));
    assert r != x by {
      assert r[0] == 'R' && x[0] == 'W';
    }
    var tw := TablesWarnings(rgn, d.limits, ts);
    var extras := (if Over(u, l) then [r] else []) + (if Over(TotalWcu(ts), d.limits.maxAccountWrite) then [x] else []);
    var w := DynamoWarnings(rgn, Some(d)).value;
    assert w == tw + extras;
    assert w[..|tw|] == tw;
    assert w[|tw|..] == extras;
  }

  /** One table of the DynamoDB loop: its warnings, counted, and the
      capacity it adds to the running totals. */
  method CheckTable(rgn: string, lim: DynamoLimits, t: Table) returns (warns: seq<string>, counter: nat, rcu: nat, wcu: nat)
    ensures warns == TableWarnings(rgn, lim, t)
    ensures counter == |warns|
    ensures rcu == t.rcu + IndexRcu(GsisOf(t)) && wcu == t.wcu + IndexWcu(GsisOf(t))
  {
    warns := [];
    counter := 0;
    rcu := t.rcu;
    if Over(t.rcu, lim.maxTableRead) {
      warns := warns + [TableWarning(t.name, "RCUs", rgn, lim.maxTableRead, t.rcu)];
      counter := counter + 1;
    }
    wcu := t.wcu;
    if Over(t.wcu, lim.maxTableWrite) {
      warns := warns + [TableWarning(t.name, "WCUs", rgn, lim.maxTableWrite, t.wcu)];
      counter := counter + 1;
    }
    var indexWarns, indexCount, indexRcu, indexWcu := CheckIndexes(rgn, lim, t.name, GsisOf(t));
    warns := warns + indexWarns;
    counter := counter + indexCount;
    rcu := rcu + indexRcu;
    wcu := wcu + indexWcu;
  }

  /** The inner loop over a table's global secondary indexes. */
  method CheckIndexes(rgn: string, lim: DynamoLimits, table: string, gs: seq<Gsi>)
    returns (warns: seq<string>, counter: nat, rcu: nat, wcu: nat)
    ensures warns == IndexWarnings(rgn, lim, table, gs)
    ensures counter == |warns|
    ensures rcu == IndexRcu(gs) && wcu == IndexWcu(gs)
  {
    warns, counter, rcu, wcu := [], 0, 0, 0;
    for j := 0 to |gs|
      invariant warns == IndexWarnings(rgn, lim, table, gs[..j])
      invariant rcu == IndexRcu(gs[..j]) && wcu == IndexWcu(gs[..j])
      invariant counter == |warns|
    {
      assert gs[..j + 1][..j] == gs[..j];
      var g := gs[j];
      rcu := rcu + g.rcu;
      if Over(g.rcu, lim.maxTableRead) {
        warns := warns + [IndexWarning(table, g.indexName, "RCUs", rgn, lim.maxTableRead, g.rcu)];
        counter := counter + 1;
      }
      wcu := wcu + g.wcu;
      if Over(g.wcu, lim.maxTableWrite) {
        warns := warns + [IndexWarning(table, g.indexName, "WCUs", rgn, lim.maxTableWrite, g.wcu)];
        counter := counter + 1;
      }
    }
    assert gs[..|gs|] == gs;
  }

  /** The DynamoDB try block: the loop over the tables with its running
      totals and warning counter, then the account totals. A zero limit
      raises at its first division, which discards the whole block. */
  method DynamoCheck(rgn: string, d: Option<DynamoData>) returns (warns: Option<seq<string>>, counter: nat)
    ensures warns == DynamoWarnings(rgn, d)
    ensures warns.Some? ==> counter == |warns.value|
  {
    counter := 0;
    if d.None? {
      return None, 0;
    }
    var lim := d.value.limits;
    var ts := Aggregate(d.value.tablePages);
    var totalRcu, totalWcu := 0, 0;
    var list: seq<string> := [];
    for i := 0 to |ts|
      invariant list == TablesWarnings(rgn, lim, ts[..i])
      invariant totalRcu == TotalRcu(ts[..i]) && totalWcu == TotalWcu(ts[..i])
      invariant counter == |list|
      invariant i > 0 ==> lim.maxTableRead > 0 && lim.maxTableWrite > 0
    {
      assert ts[..i + 1][..i] == ts[..i];
      if lim.maxTableRead == 0 || lim.maxTableWrite == 0 {
        assert DynamoWarnings(rgn, d) == None;
        return None, counter;
      }
      var tableWarns, tableCount, rcu, wcu := CheckTable(rgn, lim, ts[i]);
      list := list + tableWarns;
      counter := counter + tableCount;
      totalRcu := totalRcu + rcu;
      totalWcu := totalWcu + wcu;
    }
    assert ts[..|ts|] == ts;
    assert totalRcu == TotalRcu(Flatten(d.value.tablePages)) && totalWcu == TotalWcu(Flatten(d.value.tablePages));
    assert list == TablesWarnings(rgn, lim, Flatten(d.value.tablePages));
    ghost var tablesList := list;
    if lim.maxAccountRead == 0 {
      return None, counter;
    }
    if Over(totalRcu, lim.maxAccountRead) {
      list := list + [AccountWarning("RCU", rgn, lim.maxAccountRead, totalRcu)];
      counter := counter + 1;
    }
    if lim.maxAccountWrite == 0 {
      return None, counter;
    }
    if Over(totalWcu, lim.maxAccountWrite) {
      list := list + [AccountWarning("WCU", rgn, lim.maxAccountWrite, totalWcu)];
      counter := counter + 1;
    }
    assert list == tablesList
      + (if Over(totalRcu, lim.maxAccountRead) then [AccountWarning("RCU", rgn, lim.maxAccountRead, totalRcu)] else [])
      + (if Over(totalWcu, lim.maxAccountWrite) then [AccountWarning("WCU", rgn, lim.maxAccountWrite, totalWcu)] else []);
    assert DynamoWarnings(rgn, d) == Some(list);
    warns := Some(list);
  }

  // ---------------------------------------------------------------------
  // One region
  // ---------------------------------------------------------------------

  /** What the AWS calls of one region return. */
  datatype RegionData = RegionData(
    ta: seq<TAItem>,                        // flagged resources, once the refresh has succeeded
    attributes: seq<Attribute>,             // describe_account_attributes
    reservationPages: seq<seq<seq<string>>>,  // describe_instances pages: reservations of instance ids
    stackPages: seq<seq<string>>,           // list_stacks pages
    accountLimits: seq<AccountLimit>,       // describe_account_limits
    dynamo: Option<DynamoData>)             // None when describe_limits or a table call raises

  function OptionToResult(o: Option<nat>, name: string): (r: Result<nat>)
    ensures r.Ok? <==> o.Some?
    ensures r.Ok? ==> r.value == o.value
  {
    if o.Some? then Ok(o.value) else Err(NameError(name))
  }

  /** What the EC2, CloudFormation and DynamoDB checks of one region find. */
  datatype Findings = Findings(instanceLimit: nat, instances: nat, ec2: bool,
                               stackLimit: nat, stacks: nat, cfn: bool,
                               dynamo: Option<seq<string>>)

  /** The three checks, or the error that ends the invocation: no
      max-instances attribute, no StackLimit, or a zero limit. */
  function Measure(rgn: string, d: RegionData): (r: Result<Findings>)
    ensures r.Ok? ==> r.value.instances == |InstancesOf(d.reservationPages)| && r.value.stacks == |Flatten(d.stackPages)|
    ensures r.Ok? ==> r.value.dynamo == DynamoWarnings(rgn, d.dynamo)
    ensures r.Ok? ==> (r.value.instanceLimit > 0
      && (r.value.ec2 <==> (r.value.instances as real) / (r.value.instanceLimit as real) >= 0.8))
    ensures r.Ok? ==> (r.value.stackLimit > 0
      && (r.value.cfn <==> (r.value.stacks as real) / (r.value.stackLimit as real) >= 0.8))
    ensures r.Ok? <==> InstanceLimit(d.attributes).Some? && InstanceLimit(d.attributes).value > 0
                       && StackLimit(d.accountLimits).Ok? && StackLimit(d.accountLimits).value > 0
  {
    var limit := InstanceLimit(d.attributes);
    var instances := |InstancesOf(d.reservationPages)|;
    var stackLimit := StackLimit(d.accountLimits);
    var stacks := |Flatten(d.stackPages)|;
    if limit.None? then Err(NameError("limit_of_instances"))
    else if limit.value == 0 then Err(ZeroDivision)
    else if stackLimit.Err? then Err(stackLimit.error)
    else if stackLimit.value == 0 then Err(ZeroDivision)
    else
      RatioAtLeast(instances as real, limit.value as real);
      RatioAtLeast(stacks as real, stackLimit.value as real);
      Ok(Findings(limit.value, instances, Over(instances, limit.value), stackLimit.value, stacks,
                  Over(stacks, stackLimit.value), DynamoWarnings(rgn, d.dynamo)))
  }

  function HasDynamoWarnings(f: Findings): bool {
    f.dynamo.Some? && |f.dynamo.value| > 0
  }

  /** The region message: ec2 + cfn + dynamodb. */
  function RegionMessage(rgn: string, f: Findings): string {
    (if f.ec2 then Ec2Alert(NatToString(f.instanceLimit), f.instances, rgn) else "")
      + (if f.cfn then CloudformationAlert(f.stackLimit, f.stacks, rgn) else "")
      + (if HasDynamoWarnings(f) then AlertList(f.dynamo.value) else "")
  }

  /** The counters after the checks: EC2 and cfn are added to, dynamodb
      is set. */
  function Counters(rgn: string, f: Findings, a: Alerts): Alerts {
    var a1 := if f.ec2 then Bump(a, rgn, "EC2") else a;
    var a2 := if f.cfn then Bump(a1, rgn, "cfn") else a1;
    if HasDynamoWarnings(f) then SetCount(a2, rgn, "dynamodb", |f.dynamo.value|) else a2
  }

  /** The EC2, CloudFormation and DynamoDB part of assume_role: the region
      message and the updated counters, or the error that ends the
      invocation. */
  function ChecksStage(rgn: string, d: RegionData, a: Alerts): Result<(string, Alerts)> {
    match Measure(rgn, d)
    case Err(e) => Err(e)
    case Ok(f) => Ok((RegionMessage(rgn, f), Counters(rgn, f, a)))
  }

  /** The checks touch only the current region's counters, add one to the
      EC2 and cfn counters exactly when those checks flag, and set the
      dynamodb counter to the number of DynamoDB warnings. */
  lemma CountersSpec(rgn: string, f: Findings, a: Alerts)
    ensures var b := Counters(rgn, f, a);
      && a.Keys <= b.Keys <= a.Keys + {rgn}
      && (forall r :: r in a && r != rgn ==> b[r] == a[r])
      && Count(b, rgn, "EC2") == Count(a, rgn, "EC2") + (if f.ec2 then 1 else 0)
      && Count(b, rgn, "cfn") == Count(a, rgn, "cfn") + (if f.cfn then 1 else 0)
      && Count(b, rgn, "dynamodb") == (if HasDynamoWarnings(f) then |f.dynamo.value| else Count(a, rgn, "dynamodb"))
  {
    var a1 := if f.ec2 then Bump(a, rgn, "EC2") else a;
    BumpCount(a, rgn, "EC2", rgn, "EC2");
    BumpCount(a, rgn, "EC2", rgn, "cfn");
    BumpCount(a, rgn, "EC2", rgn, "dynamodb");
    BumpCount(a1, rgn, "cfn", rgn, "EC2");
    BumpCount(a1, rgn, "cfn", rgn, "cfn");
    BumpCount(a1, rgn, "cfn", rgn, "dynamodb");
  }

  /** A region with nothing at 80 % or more sends no region message and
      changes no counter. */
  lemma QuietRegion(rgn: string, d: RegionData, a: Alerts)
    requires Measure(rgn, d).Ok?
    requires !Measure(rgn, d).value.ec2 && !Measure(rgn, d).value.cfn
    requires DynamoWarnings(rgn, d.dynamo).None? || DynamoWarnings(rgn, d.dynamo).value == []
    ensures ChecksStage(rgn, d, a) == Ok(("", a))
  {
    var f := Measure(rgn, d).value;
    assert !HasDynamoWarnings(f);
    assert RegionMessage(rgn, f) == "" + "" + "";
  }

  /** The EC2, CloudFormation and DynamoDB checks of assume_role, in the
      order the source runs them. */
  method RunChecks(rgn: string, d: RegionData, alerts: Alerts) returns (r: Result<(string, Alerts)>)
    ensures r == ChecksStage(rgn, d, alerts)
  {
    var limit := FindInstanceLimit(d.attributes);
    var instances := CountInstances(d.reservationPages);
    if limit.None? {
      return Err(NameError("limit_of_instances"));
    }
    if limit.value == 0 {
      return Err(ZeroDivision);
    }
    var a := alerts;
    var ec2Message := "";
    if Over(instances, limit.value) {
      ec2Message := Ec2Alert(NatToString(limit.value), instances, rgn);
      a := Bump(a, rgn, "EC2");
    }
    var stacks := Aggregate(d.stackPages);
    var stackLimit := StackLimit(d.accountLimits);
    if stackLimit.Err? {
      return Err(stackLimit.error);
    }
    if stackLimit.value == 0 {
      return Err(ZeroDivision);
    }
    var cfnMessage := "";
    if Over(|stacks|, stackLimit.value) {
      cfnMessage := CloudformationAlert(stackLimit.value, |stacks|, rgn);
      a := Bump(a, rgn, "cfn");
    }
    var dynamoMessage := "";
    var warns, counter := DynamoCheck(rgn, d.dynamo);
    if warns.Some? {
      if counter > 0 {
        a := SetCount(a, rgn, "dynamodb", counter);
      }
      if |warns.value| > 0 {
        dynamoMessage := TrustedAlert(warns.value);
      }
    }
    ghost var f := Findings(limit.value, instances, Over(instances, limit.value), stackLimit.value, |stacks|,
                            Over(|stacks|, stackLimit.value), warns);
    assert Measure(rgn, d) == Ok(f);
    assert ec2Message + cfnMessage + dynamoMessage == RegionMessage(rgn, f);
    r := Ok((ec2Message + cfnMessage + dynamoMessage, a));
  }

  // ---------------------------------------------------------------------
  // The handler
  // ---------------------------------------------------------------------

  /** REGION_LIST: the `regions` variable without spaces, split on commas;
      us-east-1 alone when it is unset. */
  function RegionList(env: Option<string>): (r: seq<string>)
    ensures |r| >= 1
    ensures forall i :: 0 <= i < |r| ==> ' ' !in r[i] && ',' !in r[i]
  {
    if env.None? then ["us-east-1"] else Split(RemoveAll(env.value, ' '), ',')
  }

  /** An empty counter map per region, plus "global". */
  function InitialAlerts(regions: seq<string>): (a: Alerts)
    ensures a.Keys == (set r | r in regions) + {"global"}
    ensures forall r :: r in a ==> a[r] == map[]
  {
    map r | r in regions + ["global"] :: map[]
  }

  function Header(accountId: string): string {
    "AWS account " + accountId + " has limits approaching their upper threshold." + "Please take action accordingly.\n"
  }

  /** assume_role on one region: TA_MESSAGE afterwards, and the region
      message with the counters, or the error raised. */
  function Step(rgn: string, d: RegionData, a: Alerts, ta: string): (string, Result<(string, Alerts)>) {
    var t := TAStage(rgn, d.ta, a, ta);
    (t.1, ChecksStage(rgn, d, t.0))
  }

  /** The regions in order: TA_MESSAGE as it stands after them, and either
      the concatenated region messages with the final counters or the
      error that ended the loop. */
  function Run(regions: seq<string>, data: string -> RegionData, a: Alerts, ta: string): (string, Result<(string, Alerts)>) {
    if |regions| == 0 then (ta, Ok(("", a)))
    else
      var p := Run(regions[..|regions| - 1], data, a, ta);
      if p.1.Err? then p
      else
        var rgn := regions[|regions| - 1];
        var q := Step(rgn, data(rgn), p.1.value.1, p.0);
        if q.1.Err? then q
        else (q.0, Ok((p.1.value.0 + q.1.value.0, q.1.value.1)))
  }

  /** Without us-east-1 among the regions, TA_MESSAGE keeps whatever an
      earlier invocation of the same container left in it. */
  lemma {:induction false} TAMessageSticky(regions: seq<string>, data: string -> RegionData, a: Alerts, ta: string)
    requires "us-east-1" !in regions
    ensures Run(regions, data, a, ta).0 == ta
  {
    if |regions| > 0 {
      assert "us-east-1" !in regions[..|regions| - 1];
      TAMessageSticky(regions[..|regions| - 1], data, a, ta);
    }
  }

  /** A Trusted Advisor check with every item Green never replaces
      TA_MESSAGE, whatever the regions: with REGION_LIST = us-east-1, the
      only list under which the source can run to the end, the handler
      publishes the message an earlier invocation of the same container
      left, behind the new header. */
  lemma {:induction false} TAMessageStickyGreen(regions: seq<string>, data: string -> RegionData, a: Alerts, ta: string)
    requires forall i :: 0 <= i < |data("us-east-1").ta| ==> data("us-east-1").ta[i].status == "Green"
    ensures Run(regions, data, a, ta).0 == ta
  {
    if |regions| > 0 {
      var p := Run(regions[..|regions| - 1], data, a, ta);
      TAMessageStickyGreen(regions[..|regions| - 1], data, a, ta);
      if p.1.Ok? {
        TAFoldGreen(data("us-east-1").ta, p.1.value.1);
      }
    }
  }

  /** All-Green items add no warning. */
  lemma {:induction false} TAFoldGreen(items: seq<TAItem>, a: Alerts)
    requires forall i :: 0 <= i < |items| ==> items[i].status == "Green"
    ensures TAFold(items, a).warns == [] && TAFold(items, a).alerts == a
  {
    if |items| > 0 {
      TAFoldGreen(items[..|items| - 1], a);
    }
  }

  /** Every region the counters start with is still there at the end. */
  lemma {:induction false} RunKeepsRegions(regions: seq<string>, data: string -> RegionData, a: Alerts, ta: string)
    requires Run(regions, data, a, ta).1.Ok?
    ensures a.Keys <= Run(regions, data, a, ta).1.value.1.Keys
  {
    if |regions| > 0 {
      var p := Run(regions[..|regions| - 1], data, a, ta);
      RunKeepsRegions(regions[..|regions| - 1], data, a, ta);
      var rgn := regions[|regions| - 1];
      var t := TAStage(rgn, data(rgn).ta, p.1.value.1, p.0);
      if rgn == "us-east-1" {
        TAFoldKeeps(data(rgn).ta, p.1.value.1);
      }
      CountersSpec(rgn, Measure(rgn, data(rgn)).value, t.0);
    }
  }

  lemma {:induction false} TAFoldKeeps(items: seq<TAItem>, a: Alerts)
    ensures a.Keys <= TAFold(items, a).alerts.Keys
  {
    if |items| > 0 {
      TAFoldKeeps(items[..|items| - 1], a);
    }
  }

  /** The Lambda function's state across invocations of one container:
      the module-level TA_MESSAGE, and the SNS messages published. */
  class LimitCheckFunction {
    var taMessage: string
    var published: seq<string>

    constructor ()
      ensures taMessage == "" && published == []
    {
      taMessage := "";
      published := [];
    }

    /** assume_role for one region: TA_MESSAGE is updated before the other
        checks run, so it keeps its new value even when they raise. */
    method AssumeRole(rgn: string, d: RegionData, alerts: Alerts) returns (r: Result<(string, Alerts)>)
      modifies this
      ensures (taMessage, r) == Step(rgn, d, alerts, old(taMessage))
      ensures published == old(published)
    {
      var a := alerts;
      if rgn == "us-east-1" {
        var t := ProcessTA(d.ta, alerts);
        a := t.alerts;
        if |t.warns| > 0 {
          taMessage := TrustedAlert(t.warns);
        }
      }
      r := RunChecks(rgn, d, a);
    }

    /** lambda_handler: the regions in order, then one publication exactly
        when the region messages or TA_MESSAGE are non-empty; an error in
        any region ends the invocation before anything is published.
        `data(rgn)` is what the AWS calls return for rgn. */
    method LambdaHandler(accountId: string, regionsEnv: Option<string>, data: string -> RegionData)
      returns (r: Result<Option<string>>)
      modifies this
      ensures var run := Run(RegionList(regionsEnv), data, InitialAlerts(RegionList(regionsEnv)), old(taMessage));
        && taMessage == run.0
        && (r.Err? <==> run.1.Err?)
        && (r.Ok? ==> (r.value.None? <==> run.1.value.0 == "" && taMessage == ""))
        && (r.Ok? && r.value.Some? ==>
              r.value.value == Header(accountId) + taMessage + run.1.value.0
              && published == old(published) + [r.value.value])
        && ((r.Err? || r.value.None?) ==> published == old(published))
    {
      var regions := RegionList(regionsEnv);
      ghost var start := InitialAlerts(regions);
      ghost var ta0 := taMessage;
      var alerts := InitialAlerts(regions);
      var snsMessage := "";
      for i := 0 to |regions|
        invariant published == old(published)
        invariant Run(regions[..i], data, start, ta0) == (taMessage, Ok((snsMessage, alerts)))
      {
        var response := AssumeRole(regions[i], data(regions[i]), alerts);
        RunSnoc(regions, data, start, ta0, i);
        if response.Err? {
          RunStops(regions, data, start, ta0, i + 1);
          return Err(response.error);
        }
        snsMessage := snsMessage + response.value.0;
        alerts := response.value.1;
      }
      assert regions[..|regions|] == regions;
      if snsMessage == "" && taMessage == "" {
        return Ok(None);
      }
      var message := Header(accountId) + taMessage + snsMessage;
      published := published + [message];
      r := Ok(Some(message));
    }
  }

  /** One more region: its step, after the regions before it. */
  lemma RunSnoc(regions: seq<string>, data: string -> RegionData, a: Alerts, ta: string, i: nat)
    requires i < |regions|
    requires Run(regions[..i], data, a, ta).1.Ok?
    ensures var p := Run(regions[..i], data, a, ta);
      var q := Step(regions[i], data(regions[i]), p.1.value.1, p.0);
      Run(regions[..i + 1], data, a, ta) == if q.1.Err? then q else (q.0, Ok((p.1.value.0 + q.1.value.0, q.1.value.1)))
  {
    assert regions[..i + 1][..i] == regions[..i];
  }

  /** Once a region raises, the later regions change nothing. */
  lemma {:induction false} RunStops(regions: seq<string>, data: string -> RegionData, a: Alerts, ta: string, k: nat)
    requires k <= |regions|
    requires Run(regions[..k], data, a, ta).1.Err?
    ensures Run(regions, data, a, ta) == Run(regions[..k], data, a, ta)
    decreases |regions| - k
  {
    if k < |regions| {
      assert regions[..k + 1][..k] == regions[..k];
      RunStops(regions, data, a, ta, k + 1);
    } else {
      assert regions[..k] == regions;
    }
  }

  // ---------------------------------------------------------------------
  // The source as written, where it differs from the model above
  // ---------------------------------------------------------------------

  /** The Trusted Advisor counter as written: `alerts[region]` raises
      KeyError for a region outside REGION_LIST and "global". */
  function TABumpAsWritten(a: Alerts, r: string, s: string): (b: Result<Alerts>)
    ensures b.Err? <==> r !in a
  {
    if r !in a then Err(KeyError(r)) else Ok(Bump(a, r, s))
  }

  /** With the default REGION_LIST, a non-Green item in another region
      raises, while Bump counts it. */
  lemma TAKeyErrorCounterexample()
    ensures TABumpAsWritten(InitialAlerts(RegionList(None)), "eu-west-1", "VPC").Err?
    ensures Count(Bump(InitialAlerts(RegionList(None)), "eu-west-1", "VPC"), "eu-west-1", "VPC") == 1
  {
    var a := InitialAlerts(RegionList(None));
    assert a.Keys == {"us-east-1", "global"};
    BumpCount(a, "eu-west-1", "VPC", "eu-west-1", "VPC");
  }

  /** The CloudFormation counter as written: when the region already has a
      "cfn" counter, `alerts[rgn] += 1` adds 1 to a dict and raises
      TypeError. */
  function CfnBumpAsWritten(a: Alerts, rgn: string): (b: Result<Alerts>)
    ensures b.Ok? ==> Count(b.value, rgn, "cfn") == 1
    ensures rgn in a && "cfn" in a[rgn] ==> b.Err?
  {
    if rgn !in a then Err(KeyError(rgn))
    else if "cfn" in a[rgn] then Err(TypeError("unsupported operand type(s) for +=: 'dict' and 'int'"))
    else Ok(a[rgn := a[rgn]["cfn" := 1]])
  }

  /** A region listed twice (regions = "us-east-1,us-east-1") whose stacks
      are at 80 %: after the first pass has set the counter, the second
      raises as written, while Bump counts 2. */
  lemma CfnCounterCounterexample()
    ensures var a := Bump(InitialAlerts(["us-east-1"]), "us-east-1", "cfn");
      && CfnBumpAsWritten(a, "us-east-1").Err?
      && Count(Bump(a, "us-east-1", "cfn"), "us-east-1", "cfn") == 2
  {
    var a0 := InitialAlerts(["us-east-1"]);
    BumpCount(a0, "us-east-1", "cfn", "us-east-1", "cfn");
    BumpCount(Bump(a0, "us-east-1", "cfn"), "us-east-1", "cfn", "us-east-1", "cfn");
  }

  /** assume_role's response as written: `status_list` is bound only
      inside the us-east-1 branch, so reading it for any other region
      raises UnboundLocalError. */
  function TAStatusAsWritten(rgn: string, items: seq<TAItem>): (r: Result<seq<seq<string>>>)
    ensures r.Err? <==> rgn != "us-east-1"
  {
    if rgn == "us-east-1" then Ok(TAFold(items, map[]).status) else Err(NameError("status_list"))
  }

  /** The status rows as intended: us-east-1's rows, and none elsewhere. */
  function TAStatus(rgn: string, items: seq<TAItem>): (r: seq<seq<string>>)
    ensures rgn != "us-east-1" ==> r == []
    ensures forall i :: 0 <= i < |r| ==> |r[i]| == 3
  {
    TAFoldStatus(items, map[]);
    if rgn == "us-east-1" then TAFold(items, map[]).status else []
  }

  /** Any region but us-east-1 ends the invocation as written. */
  lemma StatusListCounterexample()
    ensures TAStatusAsWritten("eu-west-1", []).Err?
    ensures TAStatus("eu-west-1", []) == []
  {
  }

  /** assume_role for one region with the status_list read as written:
      once the checks are done, building the response reads status_list,
      which raises outside us-east-1. TA_MESSAGE and the counters are as
      in Step (Bump, not TABumpAsWritten or CfnBumpAsWritten). */
  function StepAsWritten(rgn: string, d: RegionData, a: Alerts, ta: string): (r: (string, Result<(string, Alerts)>))
    ensures r.0 == Step(rgn, d, a, ta).0
    ensures rgn == "us-east-1" ==> r == Step(rgn, d, a, ta)
    ensures rgn != "us-east-1" ==> r.1.Err?
  {
    var s := Step(rgn, d, a, ta);
    var st := TAStatusAsWritten(rgn, d.ta);
    if s.1.Err? then s
    else if st.Err? then (s.0, Err(st.error))
    else s
  }

  /** The region loop of lambda_handler over StepAsWritten. */
  function RunAsWritten(regions: seq<string>, data: string -> RegionData, a: Alerts, ta: string): (string, Result<(string, Alerts)>) {
    if |regions| == 0 then (ta, Ok(("", a)))
    else
      var p := RunAsWritten(regions[..|regions| - 1], data, a, ta);
      if p.1.Err? then p
      else
        var rgn := regions[|regions| - 1];
        var q := StepAsWritten(rgn, data(rgn), p.1.value.1, p.0);
        if q.1.Err? then q
        else (q.0, Ok((p.1.value.0 + q.1.value.0, q.1.value.1)))
  }

  /** With the status_list read as written, any region but us-east-1 in
      REGION_LIST ends the invocation in its own assume_role, before
      anything is published. */
  lemma {:induction false} RunAsWrittenFails(regions: seq<string>, data: string -> RegionData, a: Alerts, ta: string)
    ensures (exists i :: 0 <= i < |regions| && regions[i] != "us-east-1") ==> RunAsWritten(regions, data, a, ta).1.Err?
  {
    if exists i :: 0 <= i < |regions| && regions[i] != "us-east-1" {
      var i :| 0 <= i < |regions| && regions[i] != "us-east-1";
      var init := regions[..|regions| - 1];
      if i < |regions| - 1 {
        assert init[i] == regions[i];
        RunAsWrittenFails(init, data, a, ta);
      }
    }
  }

  /** With only us-east-1 in REGION_LIST the status_list read changes
      nothing. */
  lemma {:induction false} RunAsWrittenAgrees(regions: seq<string>, data: string -> RegionData, a: Alerts, ta: string)
    requires forall i :: 0 <= i < |regions| ==> regions[i] == "us-east-1"
    ensures RunAsWritten(regions, data, a, ta) == Run(regions, data, a, ta)
  {
    if |regions| > 0 {
      RunAsWrittenAgrees(regions[..|regions| - 1], data, a, ta);
    }
  }
}
