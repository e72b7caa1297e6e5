/** EventBridge helper (utilsLayer/lib/events.ts): granting and revoking
    permission to put events on the hub's bus, and forwarding events in
    batches. */
module Events {
  import opened Common
  import UtilsExports

  /** A PutEvents entry. */
  datatype EventEntry = EventEntry(source: string, detailType: string, detail: string, eventBusName: string)

  /** The bus policy statement granted to an organizational unit. */
  datatype OrgUnitPolicy = OrgUnitPolicy(version: string, sid: string, effect: string, principal: string,
                                         action: string, resource: string, principalOrgPaths: seq<string>)

  datatype EventsCommand =
    | PutPermission(eventBusName: string, principal: string, statementId: string, action: string,
                    condition: Option<(string, string, string)>)   // (Type, Key, Value)
    | PutPermissionPolicy(eventBusName: string, policy: OrgUnitPolicy)
    | RemovePermission(eventBusName: string, statementId: string)
    | PutEvents(entries: seq<EventEntry>)

  /** The permission createTrust grants: the principal is matched against
      the org pattern, then the OU pattern, then the account pattern. */
  function TrustCommand(principal: string, orgId: string, bus: string, busArn: string): Option<EventsCommand> {
    if UtilsExports.IsOrg(principal) then
      Some(PutPermission(bus, "*", principal, "events:PutEvents",
                         Some(("StringEquals", "aws:PrincipalOrgID", principal))))
    else if UtilsExports.IsOu(principal) then
      Some(PutPermissionPolicy(bus, OrgUnitPolicy("2012-10-17", principal, "Allow", "*", "events:PutEvents", busArn,
                                                  [orgId + "/*/" + principal + "/*"])))
    else if UtilsExports.IsAccount(principal) then
      Some(PutPermission(bus, principal, principal, "events:PutEvents", None))
    else None
  }

  /** An org id opens the bus to every account of that organization; an
      OU id to every account under that OU path of the organization; an
      account id to that account alone; any other string grants nothing.
      Each statement is identified by the principal itself. */
  lemma TrustCommandSpec(principal: string, orgId: string, bus: string, busArn: string)
    ensures var c := TrustCommand(principal, orgId, bus, busArn);
      && (c.None? <==> !UtilsExports.IsOrg(principal) && !UtilsExports.IsOu(principal) && !UtilsExports.IsAccount(principal))
      && (UtilsExports.IsOrg(principal) ==>
            c == Some(PutPermission(bus, "*", principal, "events:PutEvents",
                                    Some(("StringEquals", "aws:PrincipalOrgID", principal)))))
      && (UtilsExports.IsOu(principal) ==>
            c.Some? && c.value.PutPermissionPolicy? && c.value.policy.sid == principal
            && c.value.policy.principalOrgPaths == [orgId + "/*/" + principal + "/*"])
      && (UtilsExports.IsAccount(principal) ==>
            c == Some(PutPermission(bus, principal, principal, "events:PutEvents", None)))
  {
    UtilsExports.PatternsDisjoint(principal);
  }

  function PutEventsCommands(chunks: seq<seq<EventEntry>>): (r: seq<EventsCommand>)
    ensures |r| == |chunks|
    ensures forall i :: 0 <= i < |r| ==> r[i] == PutEvents(chunks[i])
  {
    if |chunks| == 0 then [] else [PutEvents(chunks[0])] + PutEventsCommands(chunks[1..])
  }

  /** putEvent sends one PutEvents per batch of at most ten entries, and
      the batches, taken in order, hold every entry exactly once. */
  lemma PutEventBatches(entries: seq<EventEntry>)
    ensures var c := PutEventsCommands(Chunks(entries, 10));
      && |c| == (|entries| + 9) / 10
      && (forall i :: 0 <= i < |c| ==> 1 <= |c[i].entries| <= 10)
      && Flatten(Chunks(entries, 10)) == entries
  {
    FlattenChunks(entries, 10);
    ChunkSizes(entries, 10);
  }

  /** The EventBridge client; `sent` records every command, in order.
      Errors of the send calls are logged and swallowed by the source, so
      they change nothing here. */
  class EventBusClient {
    var sent: seq<EventsCommand>

    constructor ()
      ensures sent == []
    {
      sent := [];
    }

    method CreateTrust(principal: string, orgId: string, bus: string, busArn: string)
      modifies this
      ensures var c := TrustCommand(principal, orgId, bus, busArn);
        sent == old(sent) + (if c.Some? then [c.value] else [])
    {
      var c := TrustCommand(principal, orgId, bus, busArn);
      if c.Some? {
        sent := sent + [c.value];
      }
    }

    /** removeTrust: exactly one RemovePermission for the statement id. */
    method RemoveTrust(sid: string, bus: string)
      modifies this
      ensures sent == old(sent) + [RemovePermission(bus, sid)]
    {
      sent := sent + [RemovePermission(bus, sid)];
    }

    /** putEvent: one PutEvents per chunk of ten. */
    method PutEvent(entries: seq<EventEntry>)
      modifies this
      ensures sent == old(sent) + PutEventsCommands(Chunks(entries, 10))
    {
      var chunks := UtilsExports.CreateChunksFromArray(entries, 10);
      var i := 0;
      while i < |chunks|
        invariant 0 <= i <= |chunks|
        invariant sent == old(sent) + PutEventsCommands(chunks[..i])
      {
        assert PutEventsCommands(chunks[..i + 1]) == PutEventsCommands(chunks[..i]) + [PutEvents(chunks[i])];
        sent := sent + [PutEvents(chunks[i])];
        i := i + 1;
      }
      assert chunks[..|chunks|] == chunks;
    }
  }
}
