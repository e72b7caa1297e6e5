/** Slack notifications of quota events in two generations: the TypeScript
    SlackNotifier (slackNotifier/lib/slack-notify.ts) and the older
    JavaScript slacknotify (slacknotify/lib/slack-notify.js). Both build an
    attachment message from the event and classify the webhook's HTTP
    status. */
module Slack {
  import opened Common

  // ---------------------------------------------------------------------
  // The event and the message
  // ---------------------------------------------------------------------

  /** `detail` of a quota event: its status and its "check-item-detail"
      object (field name -> value). */
  datatype EventDetail = EventDetail(status: Option<string>, checkItem: Option<map<string, string>>)

  datatype QuotaEvent = QuotaEvent(account: Option<string>, time: Option<string>, detail: Option<EventDetail>,
                                   quotaIncreaseLink: Option<string>)

  datatype Field = Field(title: string, value: Option<string>)

  datatype SlackMessage = SlackMessage(color: string, fields: seq<Field>, pretext: string, actionUrl: string,
                                       channel: Option<string>)

  const Green := "#36a64f"
  const Yellow := "#eaea3c"
  const Red := "#bf3e2d"
  const Grey := "#93938f"

  const OkEmoji := "\U{1F197}"
  const WarnEmoji := "\U{26A0}\U{FE0F}"
  const ErrorEmoji := "\U{1F525}"

  /** `${x}` of a possibly undefined string. */
  function Text(x: Option<string>): string { if x.Some? then x.value else "undefined" }

  function Lookup(m: map<string, string>, k: string): Option<string> { if k in m then Some(m[k]) else None }

  /** The TypeScript colour: an else-if chain over the status. */
  function ColorTS(status: Option<string>): string {
    if status == Some("OK") then Green
    else if status == Some("WARN") then Yellow
    else if status == Some("ERROR") then Red
    else Grey
  }

  /** The JavaScript colour: three independent ifs, each overwriting the
      default. */
  function ColorJS(status: Option<string>): string {
    var c0 := Grey;
    var c1 := if status == Some("OK") then Green else c0;
    var c2 := if status == Some("WARN") then Yellow else c1;
    if status == Some("ERROR") then Red else c2
  }

  /** The status shown: the three known statuses become emoji, anything
      else (undefined included) is shown as it is. Both generations write
      it the same way, the JavaScript one as independent ifs. */
  function StatusTS(status: Option<string>): Option<string> {
    if status == Some("OK") then Some(OkEmoji)
    else if status == Some("WARN") then Some(WarnEmoji)
    else if status == Some("ERROR") then Some(ErrorEmoji)
    else status
  }

  function StatusJS(status: Option<string>): Option<string> {
    var s1 := if status == Some("OK") then Some(OkEmoji) else status;
    var s2 := if s1 == Some("WARN") then Some(WarnEmoji) else s1;
    if s2 == Some("ERROR") then Some(ErrorEmoji) else s2
  }

  /** The two generations agree on colour and shown status for every
      status, although the JavaScript one tests all three conditions: the
      emoji it writes can never match a later test. The three colours are
      distinct and differ from the default. */
  lemma ColorAndStatusAgree(status: Option<string>)
    ensures ColorJS(status) == ColorTS(status)
    ensures StatusJS(status) == StatusTS(status)
    ensures status !in [Some("OK"), Some("WARN"), Some("ERROR")] ==> ColorTS(status) == Grey && StatusTS(status) == status
    ensures ColorTS(status) == Grey <==> status !in [Some("OK"), Some("WARN"), Some("ERROR")]
  {
    assert OkEmoji != "WARN" && OkEmoji != "ERROR" && WarnEmoji != "ERROR" by {
      assert |OkEmoji| == 1 && |WarnEmoji| == 2;
      assert WarnEmoji[0] != "ERROR"[0];
    }
  }

  const FieldTitles := ["AccountId", "Status", "TimeStamp", "Region", "Service", "LimitName", "CurrentUsage", "LimitAmount"]

  const ConsoleUrl := "https://console.aws.amazon.com/servicequotas/home"

  /** The TypeScript slackMessageBuilder; an event without detail or
      without a check item throws. */
  function BuildMessageTS(e: QuotaEvent): Result<SlackMessage> {
    if e.detail.None? then Err(TypeError("Cannot read properties of undefined (reading 'status')"))
    else if e.detail.value.checkItem.None? then Err(TypeError("Cannot read properties of undefined (reading 'Timestamp')"))
    else
      var status := e.detail.value.status;
      var c := e.detail.value.checkItem.value;
      var ts := Lookup(c, "Timestamp");
      Ok(SlackMessage(
        ColorTS(status),
        [Field("AccountId", Some(Text(e.account))),
         Field("Status", StatusTS(status)),
         Field("TimeStamp", if ts.Some? then ts else e.time),
         Field("Region", Some(Text(Lookup(c, "Region")))),
         Field("Service", Some(Text(Lookup(c, "Service")))),
         Field("LimitName", Some(Text(Lookup(c, "Limit Name")))),
         Field("CurrentUsage", Some(Text(Lookup(c, "Current Usage")))),
         Field("LimitAmount", Some(Text(Lookup(c, "Limit Amount"))))],
        "*Quota Monitor for AWS Update*",
        if e.quotaIncreaseLink.Some? && e.quotaIncreaseLink.value != "" then e.quotaIncreaseLink.value else ConsoleUrl,
        None))
  }

  /** Eight fields with fixed titles in fixed order; the TimeStamp is the
      check item's own when it has one, else the event time; the action
      points at the event's increase link when it is non-empty, else at the
      Service Quotas console. */
  lemma BuildMessageTSSpec(e: QuotaEvent)
    ensures BuildMessageTS(e).Ok? <==> e.detail.Some? && e.detail.value.checkItem.Some?
    ensures BuildMessageTS(e).Ok? ==>
      var m := BuildMessageTS(e).value;
      var c := e.detail.value.checkItem.value;
      && |m.fields| == 8
      && (forall i :: 0 <= i < 8 ==> m.fields[i].title == FieldTitles[i])
      && m.fields[2].value == (if "Timestamp" in c then Some(c["Timestamp"]) else e.time)
      && m.fields[1].value == StatusTS(e.detail.value.status)
      && m.color == ColorTS(e.detail.value.status)
      && (e.quotaIncreaseLink.Some? && e.quotaIncreaseLink.value != "" ==> m.actionUrl == e.quotaIncreaseLink.value)
      && (e.quotaIncreaseLink.None? || e.quotaIncreaseLink.value == "" ==> m.actionUrl == ConsoleUrl)
  {
  }

  /** The JavaScript slackMessageBuilder: the event time is always the
      TimeStamp and the action is the Support console. */
  function BuildMessageJS(e: QuotaEvent): Result<SlackMessage> {
    if e.detail.None? then Err(TypeError("Cannot read properties of undefined (reading 'status')"))
    else if e.detail.value.checkItem.None? then Err(TypeError("Cannot read properties of undefined (reading 'Region')"))
    else
      var status := e.detail.value.status;
      var c := e.detail.value.checkItem.value;
      Ok(SlackMessage(
        ColorJS(status),
        [Field("AccountId", Some(Text(e.account))),
         Field("Status", StatusJS(status)),
         Field("TimeStamp", Some(Text(e.time))),
         Field("Region", Some(Text(Lookup(c, "Region")))),
         Field("Service", Some(Text(Lookup(c, "Service")))),
         Field("LimitName", Some(Text(Lookup(c, "Limit Name")))),
         Field("CurrentUsage", Some(Text(Lookup(c, "Current Usage")))),
         Field("LimitAmount", Some(Text(Lookup(c, "Limit Amount"))))],
        "*Limit Monitor Update*",
        "https://console.aws.amazon.com/support/home?region=us-east-1#",
        None))
  }

  /** Both builders accept the same events and emit the same titles,
      colour and status field. */
  lemma BuildersAgree(e: QuotaEvent)
    ensures BuildMessageJS(e).Ok? <==> BuildMessageTS(e).Ok?
    ensures BuildMessageJS(e).Ok? ==>
      var j := BuildMessageJS(e).value;
      var t := BuildMessageTS(e).value;
      && |j.fields| == |t.fields| == 8
      && (forall i :: 0 <= i < 8 ==> j.fields[i].title == t.fields[i].title)
      && j.color == t.color && j.fields[1] == t.fields[1] && j.fields[0] == t.fields[0]
  {
    if e.detail.Some? {
      ColorAndStatusAgree(e.detail.value.status);
    }
  }

  // ---------------------------------------------------------------------
  // Posting and classifying the response
  // ---------------------------------------------------------------------

  datatype Response = Response(statusCode: Option<int>, statusMessage: Option<string>)

  /** `${n}` of a possibly undefined status code. */
  function CodeText(code: Option<int>): string {
    if code.None? then "undefined"
    else if code.value >= 0 then NatToString(code.value)
    else "-" + NatToString(-code.value)
  }

  function ServerErrorText(r: Response): string {
    "Server error when processing message: " + CodeText(r.statusCode) + " - " + Text(r.statusMessage)
  }

  const Posted := "Message posted successfully"

  /** The TypeScript processEvent: a falsy status code (undefined or 0)
      falls through to the server-error text. */
  function ProcessEventTS(r: Response): Option<string> {
    if r.statusCode.Some? && r.statusCode.value != 0 && r.statusCode.value < 400 then Some(Posted)
    else if r.statusCode.Some? && r.statusCode.value != 0 && r.statusCode.value < 500 then r.statusMessage
    else Some(ServerErrorText(r))
  }

  lemma ProcessEventTSSpec(r: Response)
    ensures ProcessEventTS(r) == Some(Posted) <==>
      || (r.statusCode.Some? && r.statusCode.value != 0 && r.statusCode.value < 400)
      || (r.statusCode.Some? && 400 <= r.statusCode.value < 500 && r.statusMessage == Some(Posted))
    ensures r.statusCode.Some? && 400 <= r.statusCode.value < 500 ==> ProcessEventTS(r) == r.statusMessage
    ensures r.statusCode.None? || r.statusCode.value == 0 || r.statusCode.value >= 500 ==>
      ProcessEventTS(r) == Some(ServerErrorText(r))
  {
    var prefix := "Server error when processing message: ";
    assert ServerErrorText(r)[0] == prefix[0] != Posted[0];
  }

  /** How the JavaScript processEvent calls back: success, or an error
      value (the status message for a 4xx, which may be undefined or empty,
      or the server-error text). */
  datatype Callback = CbSuccess | CbError(err: Option<string>)

  /** The JavaScript processEvent: `undefined < 400` is false, so a missing
      code is a server error, while 0 counts as posted. */
  function ProcessEventJS(r: Response): Callback {
    if r.statusCode.Some? && r.statusCode.value < 400 then CbSuccess
    else if r.statusCode.Some? && r.statusCode.value < 500 then CbError(r.statusMessage)
    else CbError(Some(ServerErrorText(r)))
  }

  /** The two generations classify every response alike, except a status
      code of 0, which TypeScript treats as a server error and JavaScript
      as posted. */
  lemma ProcessEventsAgree(r: Response)
    ensures r.statusCode != Some(0) ==>
      (ProcessEventJS(r).CbSuccess? <==>
         ProcessEventTS(r) == Some(Posted) && !(r.statusCode.Some? && 400 <= r.statusCode.value < 500))
    ensures r.statusCode != Some(0) && ProcessEventJS(r).CbError? ==> ProcessEventJS(r).err == ProcessEventTS(r)
    ensures r.statusCode == Some(0) ==> ProcessEventJS(r).CbSuccess? && ProcessEventTS(r) == Some(ServerErrorText(r))
  {
    ProcessEventTSSpec(r);
  }

  /** The TypeScript sendNotification: `hook` is the webhook parameter's
      value list (None when the read throws); any failure along the way
      collapses to "error". */
  function SendNotificationTS(e: QuotaEvent, hook: Option<seq<string>>, r: Response): Option<string> {
    if hook.None? || |hook.value| == 0 then Some("error")
    else match BuildMessageTS(e)
      case Err(_) => Some("error")
      case Ok(_) => ProcessEventTS(r)
  }

  lemma SendNotificationTSSpec(e: QuotaEvent, hook: Option<seq<string>>, r: Response)
    ensures hook.None? || |hook.value| == 0 || BuildMessageTS(e).Err? ==> SendNotificationTS(e, hook, r) == Some("error")
    ensures hook.Some? && |hook.value| > 0 && BuildMessageTS(e).Ok? ==> SendNotificationTS(e, hook, r) == ProcessEventTS(r)
  {
  }

  /** How the JavaScript sendNotification ends: its callback with a
      success, with the error of a parameter read, or with processEvent's
      error, or an exception thrown out of the SDK callback. */
  datatype NotifyOutcome = Success | ReadFailure | Failure(err: Option<string>) | Thrown(error: Error)

  /** The JavaScript slacknotify; `paramReads` are the SSM parameters read
      and `posted` the (webhook, message) pairs posted, in order. */
  class SlackNotify {
    const slackHook: string
    const slackChannel: string
    var paramReads: seq<string>
    var posted: seq<(string, SlackMessage)>

    constructor (hook: string, channel: string)
      ensures slackHook == hook && slackChannel == channel && paramReads == [] && posted == []
    {
      slackHook := hook;
      slackChannel := channel;
      paramReads := [];
      posted := [];
    }

    /** sendNotification: the channel parameter first, then the webhook;
        the message gets the channel read and is posted to the webhook.
        The callback's error is checked for truthiness. */
    method SendNotification(e: QuotaEvent, channel: Option<string>, hook: Option<string>, r: Response)
      returns (out: NotifyOutcome)
      modifies this
      ensures channel.None? ==> out == ReadFailure && paramReads == old(paramReads) + [slackChannel]
                                && posted == old(posted)
      ensures channel.Some? ==> paramReads == old(paramReads) + [slackChannel, slackHook]
      ensures channel.Some? && hook.None? ==> out == ReadFailure && posted == old(posted)
      ensures channel.Some? && hook.Some? && BuildMessageJS(e).Err? ==> out.Thrown? && posted == old(posted)
      ensures channel.Some? && hook.Some? && BuildMessageJS(e).Ok? ==>
        && posted == old(posted) + [(hook.value, BuildMessageJS(e).value.(channel := Some(channel.value)))]
        && (out.Success? <==> ProcessEventJS(r).CbSuccess? || !Truthy(ProcessEventJS(r).err))
        && (out.Failure? ==> out.err == ProcessEventJS(r).err)
    {
      paramReads := paramReads + [slackChannel];
      if channel.None? {
        return ReadFailure;
      }
      paramReads := paramReads + [slackHook];
      if hook.None? {
        return ReadFailure;
      }
      var built := BuildMessageJS(e);
      if built.Err? {
        return Thrown(built.error);
      }
      var message := built.value.(channel := Some(channel.value));
      posted := posted + [(hook.value, message)];
      var cb := ProcessEventJS(r);
      if cb.CbError? && Truthy(cb.err) {
        out := Failure(cb.err);
      } else {
        out := Success;
      }
    }
  }

  predicate Truthy(x: Option<string>) { x.Some? && x.value != "" }

  /** A 4xx response whose status message is empty or missing is reported
      as a success by the JavaScript generation. */
  lemma EmptyClientErrorLooksPosted(r: Response)
    requires r.statusCode.Some? && 400 <= r.statusCode.value < 500 && !Truthy(r.statusMessage)
    ensures ProcessEventJS(r).CbError? && !Truthy(ProcessEventJS(r).err)
  {
  }
}
