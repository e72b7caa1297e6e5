/** Trusted Advisor refresh in its three generations: the TypeScript
    TAHelper (taRefresher/lib/ta-helper.ts), the JavaScript lambda
    (lambda/services/tarefresh/lib/ta-refresh.js) and the older JavaScript
    service (services/tarefresh/lib/ta-refresh.js). Each expands a list of
    service names into Trusted Advisor check ids through a table and asks
    for one refresh per id. */
module TARefresh {
  import opened Common

  type CheckTable = map<string, seq<string>>

  /** serviceChecks of ta-helper.ts */
  const HelperChecks: CheckTable := map[
    "AutoScaling" := ["aW7HH0l7J9", "fW7HH0l7J9"],
    "CloudFormation" := ["gW7HH0l7J9"],
    "DynamoDB" := ["6gtQddfEw6", "c5ftjdfkMr"],
    "EBS" := ["eI7KK0l7J9", "dH7RR0l6J9", "cG7HH0l7J9", "tV7YY0l7J9", "gI7MM0l7J9", "wH7DD0l3J9",
              "gH5CC0e3J9", "dH7RR0l6J3", "gI7MM0l7J2"],
    "EC2" := ["0Xc6LMYG8P", "iH7PP0l7J9", "aW9HH0l8J6"],
    "ELB" := ["iK7OO0l7J9", "EM8b3yLRTr", "8wIqYSt25K"],
    "IAM" := ["sU7XX0l7J9", "nO7SS0l7J9", "pR7UU0l7J9", "oQ7TT0l7J9", "rT7WW0l7J9", "qS7VV0l7J9"],
    "Kinesis" := ["bW7HH0l7J9"],
    "RDS" := ["jtlIMO3qZM", "7fuccf1Mx7", "gjqMBn6pjz", "XG0aXHpIEt", "jEECYg2YVU", "gfZAn3W7wl", "dV84wpqRUs",
              "keAhfbH5yb", "dBkuNCvqn5", "3Njm0DJQO9", "pYW8UkYz2w", "UUDvOa5r34", "dYWBaXaaMM", "jEhCtdJKOY",
              "P1jhKWEmLa"],
    "Route53" := ["dx3xfcdfMr", "ru4xfcdfMr", "ty3xfcdfMr", "dx3xfbjfMr", "dx8afcdfMr"],
    "SES" := ["hJ7NN0l7J9"],
    "VPC" := ["lN7RR0l7J9", "kM7QQ0l7J9", "jL7PP0l7J9"]
  ]

  /** The initial serviceChecks of the JavaScript lambda. */
  const LambdaChecks: CheckTable := map[
    "AutoScaling" := ["fW7HH0l7J9", "aW7HH0l7J9"],
    "CloudFormation" := ["gW7HH0l7J9"],
    "DynamoDB" := ["6gtQddfEw6", "c5ftjdfkMr"],
    "EBS" := ["eI7KK0l7J9", "dH7RR0l6J9", "cG7HH0l7J9", "tV7YY0l7J9", "gI7MM0l7J9", "wH7DD0l3J9", "gH5CC0e3J9"],
    "EC2" := ["0Xc6LMYG8P", "iH7PP0l7J9"],
    "ELB" := ["iK7OO0l7J9", "EM8b3yLRTr", "8wIqYSt25K"],
    "IAM" := ["sU7XX0l7J9", "nO7SS0l7J9", "pR7UU0l7J9", "oQ7TT0l7J9", "rT7WW0l7J9", "qS7VV0l7J9"],
    "Kinesis" := ["bW7HH0l7J9"],
    "RDS" := ["jtlIMO3qZM", "7fuccf1Mx7", "gjqMBn6pjz", "XG0aXHpIEt", "jEECYg2YVU", "gfZAn3W7wl", "dV84wpqRUs",
              "keAhfbH5yb", "dBkuNCvqn5", "3Njm0DJQO9", "pYW8UkYz2w", "UUDvOa5r34", "dYWBaXaaMM", "jEhCtdJKOY",
              "P1jhKWEmLa"],
    "Route53" := ["dx3xfcdfMr", "ru4xfcdfMr", "ty3xfcdfMr", "dx3xfbjfMr", "dx8afcdfMr"],
    "SES" := ["hJ7NN0l7J9"],
    "VPC" := ["lN7RR0l7J9", "kM7QQ0l7J9", "jL7PP0l7J9"]
  ]

  /** serviceChecks of the older JavaScript service. */
  const LegacyChecks: CheckTable := map[
    "AutoScaling" := ["fW7HH0l7J9", "aW7HH0l7J9"],
    "CloudFormation" := ["gW7HH0l7J9"],
    "EBS" := ["eI7KK0l7J9", "fH7LL0l7J9", "dH7RR0l6J9", "cG7HH0l7J9", "tV7YY0l7J9", "gI7MM0l7J9"],
    "EC2" := ["aW9HH0l8J6", "0Xc6LMYG8P", "iH7PP0l7J9"],
    "ELB" := ["iK7OO0l7J9"],
    "IAM" := ["sU7XX0l7J9", "nO7SS0l7J9", "pR7UU0l7J9", "oQ7TT0l7J9", "rT7WW0l7J9", "qS7VV0l7J9"],
    "Kinesis" := ["bW7HH0l7J9"],
    "RDS" := ["jtlIMO3qZM", "7fuccf1Mx7", "gjqMBn6pjz", "XG0aXHpIEt", "jEECYg2YVU", "gfZAn3W7wl", "dV84wpqRUs",
              "keAhfbH5yb", "dBkuNCvqn5", "3Njm0DJQO9", "pYW8UkYz2w", "UUDvOa5r34", "dYWBaXaaMM", "jEhCtdJKOY",
              "P1jhKWEmLa"],
    "SES" := ["hJ7NN0l7J9"],
    "VPC" := ["lN7RR0l7J9", "kM7QQ0l7J9", "jL7PP0l7J9"]
  ]

  /** The check ids of the listed services, service by service; a service
      the table does not know contributes nothing, and a service listed
      twice contributes its ids twice. */
  function CheckIdsFor(table: CheckTable, services: seq<string>): seq<string> {
    if |services| == 0 then []
    else
      var last := services[|services| - 1];
      CheckIdsFor(table, services[..|services| - 1]) + (if last in table then table[last] else [])
  }

  lemma {:induction false} CheckIdsForAppend(table: CheckTable, a: seq<string>, b: seq<string>)
    ensures CheckIdsFor(table, a + b) == CheckIdsFor(table, a) + CheckIdsFor(table, b)
    decreases |b|
  {
    if |b| == 0 {
      assert a + b == a;
    } else {
      assert (a + b)[..|a + b| - 1] == a + b[..|b| - 1];
      assert (a + b)[|a + b| - 1] == b[|b| - 1];
      CheckIdsForAppend(table, a, b[..|b| - 1]);
    }
  }

  /** An id is refreshed iff some listed, known service has it. */
  lemma {:induction false} CheckIdsForMembership(table: CheckTable, services: seq<string>, id: string)
    ensures id in CheckIdsFor(table, services) <==>
      exists i :: 0 <= i < |services| && services[i] in table && id in table[services[i]]
  {
    if |services| > 0 {
      var init := services[..|services| - 1];
      CheckIdsForMembership(table, init, id);
      if exists i :: 0 <= i < |services| && services[i] in table && id in table[services[i]] {
        var i :| 0 <= i < |services| && services[i] in table && id in table[services[i]];
        if i < |services| - 1 {
          assert init[i] == services[i];
        }
      }
    }
  }

  /** Listing a service twice refreshes its ids twice. */
  lemma RepeatedServiceRepeatsIds(table: CheckTable, service: string)
    requires service in table
    ensures CheckIdsFor(table, [service, service]) == table[service] + table[service]
  {
    assert [service][..0] == [];
    assert CheckIdsFor(table, [service]) == table[service];
    assert [service, service][..1] == [service];
  }

  /** AutoScaling then CloudFormation yields their three ids in table order. */
  lemma HelperExample()
    ensures CheckIdsFor(HelperChecks, ["AutoScaling", "CloudFormation"]) == ["aW7HH0l7J9", "fW7HH0l7J9", "gW7HH0l7J9"]
  {
    assert ["AutoScaling", "CloudFormation"][..1] == ["AutoScaling"];
    assert ["AutoScaling"][..0] == [];
  }

  /** refreshChecks' first loop: the ids of the listed services. */
  method CollectCheckIds(table: CheckTable, services: seq<string>) returns (checkIds: seq<string>)
    ensures checkIds == CheckIdsFor(table, services)
  {
    checkIds := [];
    for i := 0 to |services|
      invariant checkIds == CheckIdsFor(table, services[..i])
    {
      assert services[..i + 1][..i] == services[..i];
      if services[i] in table {
        checkIds := checkIds + table[services[i]];
      }
    }
    assert services[..|services|] == services;
  }

  /** The AWS_SERVICES variable as both JavaScript versions read it: every
      double quote deleted, then split on commas. */
  function ParseServices(env: string): (services: seq<string>)
    ensures |services| >= 1
    ensures forall s :: s in services ==> '"' !in s && ',' !in s
  {
    Split(RemoveAll(env, '"'), ',')
  }

  /** The parse loses nothing but the quotes: joining the services back
      with commas gives the variable with its quotes deleted. */
  lemma ParseServicesRoundTrip(env: string)
    ensures Join(ParseServices(env), ',') == RemoveAll(env, '"')
  {
    JoinSplit(RemoveAll(env, '"'), ',');
  }

  /** The TypeScript TAHelper; `refreshed` records every refresh request.
      Its table is the constant HelperChecks, which it never changes. */
  class TAHelper {
    var refreshed: seq<string>

    constructor ()
      ensures refreshed == []
    {
      refreshed := [];
    }

    /** refreshChecks: one refresh per collected id; a refresh that fails
        (allSettled) does not stop the others. */
    method RefreshChecks(services: seq<string>)
      modifies this
      ensures refreshed == old(refreshed) + CheckIdsFor(HelperChecks, services)
    {
      var checkIds := CollectCheckIds(HelperChecks, services);
      RefreshIds(checkIds);
    }

    /** refreshChecks' second loop: one refresh request per id, in order. */
    method RefreshIds(checkIds: seq<string>)
      modifies this
      ensures refreshed == old(refreshed) + checkIds
    {
      for i := 0 to |checkIds|
        invariant refreshed == old(refreshed) + checkIds[..i]
      {
        assert checkIds[..i + 1] == checkIds[..i] + [checkIds[i]];
        refreshed := refreshed + [checkIds[i]];
      }
      assert checkIds[..|checkIds|] == checkIds;
    }
  }

  const RefreshDone := "TA refresh done"

  /** The EC2 entry after the vCPU opt-in probe: replaced by the single
      vCPU check when the default quota reports ServiceCode "ec2";
      `probe` is None when the probe failed. */
  function UpdatedEC2Checks(table: CheckTable, probe: Option<string>): (t: CheckTable)
    ensures probe == Some("ec2") ==> "EC2" in t && t["EC2"] == ["iH7PP0l7J9"]
    ensures probe != Some("ec2") ==> t == table
    ensures forall k :: k != "EC2" ==> (k in t <==> k in table) && (k in t ==> t[k] == table[k])
  {
    if probe == Some("ec2") then table["EC2" := ["iH7PP0l7J9"]] else table
  }

  /** Once opted in, the table stays opted in whatever later probes say. */
  lemma EC2UpdatePersists(table: CheckTable, p1: Option<string>, p2: Option<string>)
    requires p1 == Some("ec2")
    ensures UpdatedEC2Checks(UpdatedEC2Checks(table, p1), p2) == UpdatedEC2Checks(table, p1)
  {
  }

  /** The JavaScript lambda; its table is module-level state that the
      opt-in probe overwrites, and `refreshed` records refresh requests. */
  class LambdaTARefresher {
    var serviceChecks: CheckTable
    var refreshed: seq<string>

    constructor ()
      ensures serviceChecks == LambdaChecks && refreshed == []
    {
      serviceChecks := LambdaChecks;
      refreshed := [];
    }

    /** getUpdatedEC2Checks */
    method GetUpdatedEC2Checks(probe: Option<string>)
      modifies this
      ensures serviceChecks == UpdatedEC2Checks(old(serviceChecks), probe)
      ensures refreshed == old(refreshed)
    {
      if probe == Some("ec2") {
        serviceChecks := serviceChecks["EC2" := ["iH7PP0l7J9"]];
      }
    }

    /** getTARefreshStatus: the probe, then one refresh per id of every
        listed service; the result is the same whatever the refreshes do. */
    method GetTARefreshStatus(services: seq<string>, probe: Option<string>) returns (result: string)
      modifies this
      ensures result == RefreshDone
      ensures serviceChecks == UpdatedEC2Checks(old(serviceChecks), probe)
      ensures refreshed == old(refreshed) + CheckIdsFor(serviceChecks, services)
    {
      GetUpdatedEC2Checks(probe);
      RefreshServices(services);
      result := RefreshDone;
    }

    /** The loop over the services: one refresh per id the table lists. */
    method RefreshServices(services: seq<string>)
      modifies this
      ensures serviceChecks == old(serviceChecks)
      ensures refreshed == old(refreshed) + CheckIdsFor(serviceChecks, services)
    {
      for i := 0 to |services|
        invariant serviceChecks == old(serviceChecks)
        invariant refreshed == old(refreshed) + CheckIdsFor(serviceChecks, services[..i])
      {
        assert services[..i + 1][..i] == services[..i];
        var ids := if services[i] in serviceChecks then serviceChecks[services[i]] else [];
        RefreshIds(ids);
      }
      assert services[..|services|] == services;
    }

    /** One refresh request per id, in order. */
    method RefreshIds(ids: seq<string>)
      modifies this
      ensures serviceChecks == old(serviceChecks)
      ensures refreshed == old(refreshed) + ids
    {
      for j := 0 to |ids|
        invariant serviceChecks == old(serviceChecks)
        invariant refreshed == old(refreshed) + ids[..j]
      {
        assert ids[..j + 1] == ids[..j] + [ids[j]];
        refreshed := refreshed + [ids[j]];
      }
      assert ids[..|ids|] == ids;
    }
  }

  /** The older JavaScript service, whose table is constant. */
  class LegacyTARefresher {
    var refreshed: seq<string>

    constructor ()
      ensures refreshed == []
    {
      refreshed := [];
    }

    /** getTARefreshStatus */
    method GetTARefreshStatus(services: seq<string>) returns (result: string)
      modifies this
      ensures result == RefreshDone
      ensures refreshed == old(refreshed) + CheckIdsFor(LegacyChecks, services)
    {
      RefreshServices(LegacyChecks, services);
      result := RefreshDone;
    }

    /** The loop over the services: one refresh per id the table lists. */
    method RefreshServices(table: CheckTable, services: seq<string>)
      modifies this
      ensures refreshed == old(refreshed) + CheckIdsFor(table, services)
    {
      for i := 0 to |services|
        invariant refreshed == old(refreshed) + CheckIdsFor(table, services[..i])
      {
        assert services[..i + 1][..i] == services[..i];
        var ids := if services[i] in table then table[services[i]] else [];
        RefreshIds(ids);
      }
      assert services[..|services|] == services;
    }

    /** One refresh request per id, in order. */
    method RefreshIds(ids: seq<string>)
      modifies this
      ensures refreshed == old(refreshed) + ids
    {
      for j := 0 to |ids|
        invariant refreshed == old(refreshed) + ids[..j]
      {
        assert ids[..j + 1] == ids[..j] + [ids[j]];
        refreshed := refreshed + [ids[j]];
      }
      assert ids[..|ids|] == ids;
    }
  }

  /** After the opt-in, the lambda refreshes a single EC2 check, one the
      TypeScript table also lists; the older service always refreshes three. */
  lemma EC2AcrossGenerations()
    ensures CheckIdsFor(UpdatedEC2Checks(LambdaChecks, Some("ec2")), ["EC2"]) == ["iH7PP0l7J9"]
    ensures "iH7PP0l7J9" in HelperChecks["EC2"]
    ensures |CheckIdsFor(LegacyChecks, ["EC2"])| == 3
  {
    assert ["EC2"][..0] == [];
  }
}
