/** The usage reporter (reporter/lib/limit-report.ts): drains the summary
    queue into the quota-usage table, one item per message, deleting a
    message only once its item is written. */
module Reporter {
  import opened Common

  // ---------------------------------------------------------------------
  // parseInt
  // ---------------------------------------------------------------------

  /** The characters parseInt skips at the front: the ECMAScript
      WhiteSpace (tab, vertical tab, form feed, space, no-break space, the
      byte order mark and the other Zs space separators) and
      LineTerminator code points. */
  predicate IsJsSpace(c: char) {
    c == '\t' || c == '\U{000B}' || c == '\U{000C}' || c == ' ' || c == '\U{00A0}' || c == '\U{FEFF}'
    || c == '\n' || c == '\r' || c == '\U{2028}' || c == '\U{2029}'
    || c == '\U{1680}' || ('\U{2000}' <= c <= '\U{200A}') || c == '\U{202F}' || c == '\U{205F}' || c == '\U{3000}'
  }

  /** The text without its leading white space. */
  function TrimStart(s: string): string {
    if |s| == 0 || !IsJsSpace(s[0]) then s else TrimStart(s[1..])
  }

  /** TrimStart drops exactly the leading white space: what it keeps is a
      suffix that does not open with white space, and all it drops is
      white space. */
  lemma {:induction false} TrimStartSpec(s: string)
    ensures var t := TrimStart(s);
      && |t| <= |s| && t == s[|s| - |t|..]
      && (forall i :: 0 <= i < |s| - |t| ==> IsJsSpace(s[i]))
      && (|t| == 0 || !IsJsSpace(t[0]))
  {
    if |s| > 0 && IsJsSpace(s[0]) {
      TrimStartSpec(s[1..]);
    }
  }

  /** The value of a digit in any radix up to 36: 0-9, then a-z or A-Z
      for 10-35; 36 for a character that is no digit at all. */
  function DigitValue(c: char): (v: nat)
    ensures v <= 36
    ensures IsDigit(c) <==> v < 10
  {
    if '0' <= c <= '9' then c as int - '0' as int
    else if 'a' <= c <= 'z' then c as int - 'a' as int + 10
    else if 'A' <= c <= 'Z' then c as int - 'A' as int + 10
    else 36
  }

  /** The longest prefix of digits of the radix. */
  function LeadingDigits(s: string, radix: nat): (d: string)
    ensures |d| <= |s| && d == s[..|d|]
    ensures forall i :: 0 <= i < |d| ==> DigitValue(d[i]) < radix
    ensures |d| < |s| ==> DigitValue(s[|d|]) >= radix
    ensures (forall i :: 0 <= i < |s| ==> DigitValue(s[i]) < radix) ==> d == s
  {
    if |s| == 0 || DigitValue(s[0]) >= radix then ""
    else [s[0]] + LeadingDigits(s[1..], radix)
  }

  /** The number the digits spell in the radix. */
  function RadixValue(d: string, radix: nat): nat
    decreases |d|
  {
    if |d| == 0 then 0 else RadixValue(d[..|d| - 1], radix) * radix + DigitValue(d[|d| - 1])
  }

  /** The text parseInt reads from an environment value: "undefined" when
      the variable is unset. */
  function EnvText(text: Option<string>): string {
    if text.None? then "undefined" else text.value
  }

  /** The digits after the sign: a "0x" or "0X" prefix selects radix 16,
      else radix 10; None when no digit of that radix follows. */
  function ParseUnsigned(u: string): Option<nat> {
    var hex := |u| >= 2 && u[0] == '0' && (u[1] == 'x' || u[1] == 'X');
    var radix := if hex then 16 else 10;
    var digits := LeadingDigits(if hex then u[2..] else u, radix);
    if |digits| == 0 then None else Some(RadixValue(digits, radix))
  }

  /** An optional sign, then the unsigned part. */
  function ParseSigned(s: string): Option<int> {
    var u := if |s| > 0 && (s[0] == '-' || s[0] == '+') then s[1..] else s;
    match ParseUnsigned(u)
    case None => None
    case Some(v) => var w: int := v; if |s| > 0 && s[0] == '-' then Some(-w) else Some(w)
  }

  /** `parseInt(text)` with no radix, as section 19.2.5 of ECMA-262 gives
      it, on an environment value (None when unset): leading white space
      skipped, then ParseSigned. None stands for NaN. */
  function ParseInt(text: Option<string>): Option<int> {
    ParseSigned(TrimStart(EnvText(text)))
  }

  /** Read in radix 10, decimal digits mean what DigitsValue says. */
  lemma {:induction false} DecimalRadixValue(d: string)
    requires forall i :: 0 <= i < |d| ==> IsDigit(d[i])
    ensures RadixValue(d, 10) == DigitsValue(d)
  {
    if |d| > 0 {
      DecimalRadixValue(d[..|d| - 1]);
    }
  }

  /** Text opening with a digit is read from its first character on. */
  lemma ParseIntOpeningDigit(s: string)
    requires |s| > 0 && IsDigit(s[0])
    ensures ParseInt(Some(s)) == ParseUnsigned(s)
  {
    assert !IsJsSpace(s[0]);
    assert TrimStart(s) == s;
  }

  /** A string of decimal digits parses as the number it spells. */
  lemma ParseIntDecimal(s: string)
    requires |s| > 0 && forall i :: 0 <= i < |s| ==> IsDigit(s[i])
    ensures ParseInt(Some(s)) == Some(DigitsValue(s))
  {
    ParseIntOpeningDigit(s);
    ParseUnsignedDecimal(s);
    DecimalRadixValue(s);
  }

  lemma ParseUnsignedDecimal(s: string)
    requires |s| > 0 && forall i :: 0 <= i < |s| ==> IsDigit(s[i])
    ensures ParseUnsigned(s) == Some(RadixValue(s, 10))
  {
    assert !(|s| >= 2 && s[1] == 'x') && !(|s| >= 2 && s[1] == 'X') by {
      if |s| >= 2 {
        assert IsDigit(s[1]);
      }
    }
    assert forall i :: 0 <= i < |s| ==> DigitValue(s[i]) < 10;
    assert LeadingDigits(s, 10) == s;
  }

  /** A rendered count parses back to itself. */
  lemma ParseIntRoundTrip(n: nat)
    ensures ParseInt(Some(NatToString(n))) == Some(n)
  {
    NatToStringRoundTrip(n);
    ParseIntDecimal(NatToString(n));
  }

  /** Leading white space changes nothing: " 5" parses as "5". */
  lemma ParseIntSkipsSpace(ws: string, t: string)
    requires forall i :: 0 <= i < |ws| ==> IsJsSpace(ws[i])
    ensures ParseInt(Some(ws + t)) == ParseInt(Some(t))
  {
    TrimStartSkips(ws, t);
  }

  lemma {:induction false} TrimStartSkips(ws: string, t: string)
    requires forall i :: 0 <= i < |ws| ==> IsJsSpace(ws[i])
    ensures TrimStart(ws + t) == TrimStart(t)
  {
    if |ws| > 0 {
      assert (ws + t)[0] == ws[0] && IsJsSpace(ws[0]);
      assert (ws + t)[1..] == ws[1..] + t;
      TrimStartSkips(ws[1..], t);
    } else {
      assert ws + t == t;
    }
  }

  /** A "0x" or "0X" prefix reads the digits after it in hexadecimal. */
  lemma ParseIntHex(x: char, d: string)
    requires x == 'x' || x == 'X'
    requires |d| > 0 && forall i :: 0 <= i < |d| ==> DigitValue(d[i]) < 16
    ensures ParseInt(Some(['0', x] + d)) == Some(RadixValue(d, 16))
  {
    var s := ['0', x] + d;
    assert s[2..] == d;
    ParseIntOpeningDigit(s);
    ParseUnsignedHex(s, d);
  }

  lemma ParseUnsignedHex(s: string, d: string)
    requires |s| == |d| + 2 && s[0] == '0' && (s[1] == 'x' || s[1] == 'X') && s[2..] == d
    requires |d| > 0 && forall i :: 0 <= i < |d| ==> DigitValue(d[i]) < 16
    ensures ParseUnsigned(s) == Some(RadixValue(d, 16))
  {
    assert LeadingDigits(d, 16) == d;
  }

  /** MAX_LOOPS = "0x10" asks for sixteen rounds. */
  lemma LoopCountHex()
    ensures LoopCount(Some("0x10")) == 16
  {
    ParseIntHex('x', "10");
    assert ['0', 'x'] + "10" == "0x10";
    assert RadixValue("10", 16) == 16 by {
      assert "10"[..1] == "1";
    }
  }

  /** The deployed MAX_LOOPS = "10" asks for ten rounds. */
  lemma LoopCountDeployed()
    ensures LoopCount(Some("10")) == 10
  {
    ParseIntDecimal("10");
    assert DigitsValue("10") == 10 by {
      assert "10"[..1] == "1";
    }
  }

  /** An unset variable, and text that after its leading white space does
      not open with a sign or a digit, parse as NaN. */
  lemma ParseIntNaN(text: Option<string>)
    requires text.Some? ==> var s := TrimStart(text.value); |s| == 0 || (s[0] != '-' && s[0] != '+' && !IsDigit(s[0]))
    ensures ParseInt(text).None?
  {
    if text.None? {
      assert TrimStart("undefined") == "undefined";
    }
  }

  /** The number of receive rounds readQueueAsync runs: `parseInt(MAX_LOOPS)
      ?? 10` never falls back to 10, since parseInt returns NaN rather than
      undefined, and `i < NaN` stops the loop at once. */
  function LoopCount(maxLoops: Option<string>): (n: nat)
    ensures ParseInt(maxLoops).None? ==> n == 0
    ensures ParseInt(maxLoops).Some? && ParseInt(maxLoops).value >= 0 ==> n == ParseInt(maxLoops).value
  {
    match ParseInt(maxLoops)
    case None => 0
    case Some(k) => if k < 0 then 0 else k
  }

  /** An unset MAX_LOOPS runs no round at all. */
  lemma UnsetMaxLoopsRunsNothing()
    ensures LoopCount(None) == 0
  {
  }

  // ---------------------------------------------------------------------
  // The usage item
  // ---------------------------------------------------------------------

  /** The fields of the "check-item-detail" object, each None when absent. */
  datatype CheckItemDetail = CheckItemDetail(
    timestamp: Option<string>, region: Option<string>, service: Option<string>, resource: Option<string>,
    limitCode: Option<string>, limitName: Option<string>, currentUsage: Option<string>, limitAmount: Option<string>)

  datatype Detail = Detail(checkItemDetail: Option<CheckItemDetail>, status: Option<string>)

  /** The parsed body of a queue message. */
  datatype UsageMessage = UsageMessage(account: Option<string>, time: Option<string>, source: Option<string>,
                                       detail: Option<Detail>)

  /** A message body: missing or empty, not JSON, or a parsed usage message. */
  datatype Body = NoBody | Unparsable | Parsed(usage: UsageMessage)

  datatype Message = Message(messageId: Option<string>, receiptHandle: Option<string>, body: Body)

  datatype UsageItem = UsageItem(
    messageId: Option<string>, accountId: Option<string>, timeStamp: Option<string>, region: Option<string>,
    source: Option<string>, service: Option<string>, resource: Option<string>, limitCode: Option<string>,
    limitName: Option<string>, currentUsage: Option<string>, limitAmount: Option<string>, status: Option<string>,
    expiryTime: string)

  /** Fifteen days, in seconds. */
  const Retention: nat := 15 * 24 * 3600

  /** `(Math.round(nowMillis / 1000) + 15 * 24 * 3600).toString()` */
  function ExpiryTime(nowMillis: nat): string {
    NatToString((nowMillis + 500) / 1000 + Retention)
  }

  /** The expiry is the current time, rounded to the nearest second, plus
      fifteen days. */
  lemma ExpiryTimeSpec(nowMillis: nat)
    ensures var e := DigitsValue(ExpiryTime(nowMillis));
      && nowMillis - 500 < (e - Retention) * 1000 <= nowMillis + 500
      && ParseInt(Some(ExpiryTime(nowMillis))) == Some(e)
  {
    NatToStringRoundTrip((nowMillis + 500) / 1000 + Retention);
    ParseIntRoundTrip((nowMillis + 500) / 1000 + Retention);
  }

  /** putUsageItemOnDDB's item, or None when the message has no body to
      write; a body that is not JSON, or lacks its detail objects, throws. */
  function ItemFor(m: Message, nowMillis: nat): Result<Option<UsageItem>> {
    match m.body
    case NoBody => Ok(None)
    case Unparsable => Err(SyntaxError("Unexpected token in JSON"))
    case Parsed(u) =>
      if u.detail.None? then Err(TypeError("Cannot read properties of undefined (reading 'check-item-detail')"))
      else if u.detail.value.checkItemDetail.None? then Err(TypeError("Cannot read properties of undefined (reading 'Timestamp')"))
      else
        var c := u.detail.value.checkItemDetail.value;
        Ok(Some(UsageItem(
          m.messageId, u.account,
          if c.timestamp.Some? then c.timestamp else u.time,
          c.region, u.source, c.service, c.resource, c.limitCode, c.limitName,
          Some(c.currentUsage.GetOr("0")), c.limitAmount, u.detail.value.status,
          ExpiryTime(nowMillis))))
  }

  /** The item copies the message's fields; the check item's own timestamp
      wins over the event time, and a missing current usage reads "0". */
  lemma ItemForSpec(m: Message, nowMillis: nat)
    ensures m.body.NoBody? <==> ItemFor(m, nowMillis) == Ok(None)
    ensures ItemFor(m, nowMillis).Ok? && ItemFor(m, nowMillis).value.Some? ==>
      var it := ItemFor(m, nowMillis).value.value;
      var u := m.body.usage;
      var c := u.detail.value.checkItemDetail.value;
      && m.body.Parsed?
      && it.messageId == m.messageId && it.accountId == u.account && it.source == u.source
      && (c.timestamp.Some? ==> it.timeStamp == c.timestamp)
      && (c.timestamp.None? ==> it.timeStamp == u.time)
      && (c.currentUsage.Some? ==> it.currentUsage == c.currentUsage)
      && (c.currentUsage.None? ==> it.currentUsage == Some("0"))
      && it.region == c.region && it.service == c.service && it.resource == c.resource
      && it.limitCode == c.limitCode && it.limitName == c.limitName && it.limitAmount == c.limitAmount
      && it.status == u.detail.value.status
      && it.expiryTime == ExpiryTime(nowMillis)
    ensures ItemFor(m, nowMillis).Err? <==>
      m.body.Unparsable? || (m.body.Parsed? && (m.body.usage.detail.None? || m.body.usage.detail.value.checkItemDetail.None?))
  {
  }

  /** What handling one message does: the item written, if any, and
      whether the message is deleted. The put comes first; a message is
      deleted only when its put returned normally. */
  function Handle(m: Message, nowMillis: nat, putOk: UsageItem -> bool): (Option<UsageItem>, bool) {
    match ItemFor(m, nowMillis)
    case Err(_) => (None, false)
    case Ok(None) => (None, true)
    case Ok(Some(item)) => if putOk(item) then (Some(item), true) else (None, false)
  }

  /** A deleted message either had nothing to write or had its item
      written; a message whose write failed stays on the queue. */
  lemma DeletedOnlyAfterPut(m: Message, nowMillis: nat, putOk: UsageItem -> bool)
    ensures Handle(m, nowMillis, putOk).1 <==>
      ItemFor(m, nowMillis) == Ok(None) || Handle(m, nowMillis, putOk).0.Some?
    ensures Handle(m, nowMillis, putOk).0.Some? ==>
      ItemFor(m, nowMillis) == Ok(Some(Handle(m, nowMillis, putOk).0.value)) && putOk(Handle(m, nowMillis, putOk).0.value)
    ensures m.body.NoBody? ==> Handle(m, nowMillis, putOk) == (None, true)
  {
  }

  function Written(ms: seq<Message>, nowMillis: nat, putOk: UsageItem -> bool): seq<UsageItem> {
    if |ms| == 0 then []
    else
      var h := Handle(ms[|ms| - 1], nowMillis, putOk);
      Written(ms[..|ms| - 1], nowMillis, putOk) + (if h.0.Some? then [h.0.value] else [])
  }

  function Deleted(ms: seq<Message>, nowMillis: nat, putOk: UsageItem -> bool): seq<Option<string>> {
    if |ms| == 0 then []
    else
      var h := Handle(ms[|ms| - 1], nowMillis, putOk);
      Deleted(ms[..|ms| - 1], nowMillis, putOk) + (if h.1 then [ms[|ms| - 1].receiptHandle] else [])
  }

  /** The items written by the first n rounds, round after round. */
  function WrittenRounds(n: nat, receive: nat -> seq<Message>, nowMillis: nat, putOk: UsageItem -> bool): seq<UsageItem> {
    if n == 0 then [] else WrittenRounds(n - 1, receive, nowMillis, putOk) + Written(receive(n - 1), nowMillis, putOk)
  }

  /** The receipt handles deleted by the first n rounds. */
  function DeletedRounds(n: nat, receive: nat -> seq<Message>, nowMillis: nat, putOk: UsageItem -> bool): seq<Option<string>> {
    if n == 0 then [] else DeletedRounds(n - 1, receive, nowMillis, putOk) + Deleted(receive(n - 1), nowMillis, putOk)
  }

  /** The MaxNumberOfMessages of the first n receives: the parsed
      MAX_MESSAGES every time. */
  function Requests(n: nat, maxMessages: Option<string>): (r: seq<Option<int>>)
    ensures |r| == n
    ensures forall k :: 0 <= k < n ==> r[k] == ParseInt(maxMessages)
  {
    if n == 0 then [] else Requests(n - 1, maxMessages) + [ParseInt(maxMessages)]
  }

  /** Round i adds its own writes, deletes and receive to those before. */
  lemma RoundsSnoc(i: nat, maxMessages: Option<string>, receive: nat -> seq<Message>, nowMillis: nat,
                   putOk: UsageItem -> bool)
    ensures WrittenRounds(i + 1, receive, nowMillis, putOk)
      == WrittenRounds(i, receive, nowMillis, putOk) + Written(receive(i), nowMillis, putOk)
    ensures DeletedRounds(i + 1, receive, nowMillis, putOk)
      == DeletedRounds(i, receive, nowMillis, putOk) + Deleted(receive(i), nowMillis, putOk)
    ensures Requests(i + 1, maxMessages) == Requests(i, maxMessages) + [ParseInt(maxMessages)]
  {
  }

  /** The reporter's view of the queue and the table: `items` are the
      items written, `deleted` the receipt handles deleted, `requested`
      the MaxNumberOfMessages of every receive. */
  class LimitReport {
    var items: seq<UsageItem>
    var deleted: seq<Option<string>>
    var requested: seq<Option<int>>

    constructor ()
      ensures items == [] && deleted == [] && requested == []
    {
      items := [];
      deleted := [];
      requested := [];
    }

    /** processMessages on the messages one receive returned. */
    method ProcessMessages(maxMessages: Option<string>, messages: seq<Message>, nowMillis: nat,
                           putOk: UsageItem -> bool)
      modifies this
      ensures requested == old(requested) + [ParseInt(maxMessages)]
      ensures items == old(items) + Written(messages, nowMillis, putOk)
      ensures deleted == old(deleted) + Deleted(messages, nowMillis, putOk)
    {
      requested := requested + [ParseInt(maxMessages)];
      HandleMessages(messages, nowMillis, putOk);
    }

    /** The messages in order: each one's put, then its delete. */
    method HandleMessages(messages: seq<Message>, nowMillis: nat, putOk: UsageItem -> bool)
      modifies this
      ensures requested == old(requested)
      ensures items == old(items) + Written(messages, nowMillis, putOk)
      ensures deleted == old(deleted) + Deleted(messages, nowMillis, putOk)
    {
      for i := 0 to |messages|
        invariant requested == old(requested)
        invariant items == old(items) + Written(messages[..i], nowMillis, putOk)
        invariant deleted == old(deleted) + Deleted(messages[..i], nowMillis, putOk)
      {
        assert messages[..i + 1][..i] == messages[..i];
        var item := ItemFor(messages[i], nowMillis);
        if item.Ok? {
          if item.value.None? {
            deleted := deleted + [messages[i].receiptHandle];
          } else if putOk(item.value.value) {
            items := items + [item.value.value];
            deleted := deleted + [messages[i].receiptHandle];
          }
        }
      }
      assert messages[..|messages|] == messages;
    }

    /** Round i of readQueueAsync, given what was logged before the first
        round. */
    method Round(i: nat, maxMessages: Option<string>, receive: nat -> seq<Message>, nowMillis: nat,
                 putOk: UsageItem -> bool, ghost items0: seq<UsageItem>, ghost deleted0: seq<Option<string>>,
                 ghost requested0: seq<Option<int>>)
      requires items == items0 + WrittenRounds(i, receive, nowMillis, putOk)
      requires deleted == deleted0 + DeletedRounds(i, receive, nowMillis, putOk)
      requires requested == requested0 + Requests(i, maxMessages)
      modifies this
      ensures items == items0 + WrittenRounds(i + 1, receive, nowMillis, putOk)
      ensures deleted == deleted0 + DeletedRounds(i + 1, receive, nowMillis, putOk)
      ensures requested == requested0 + Requests(i + 1, maxMessages)
    {
      RoundsSnoc(i, maxMessages, receive, nowMillis, putOk);
      AppendAssoc(items0, WrittenRounds(i, receive, nowMillis, putOk), Written(receive(i), nowMillis, putOk));
      AppendAssoc(deleted0, DeletedRounds(i, receive, nowMillis, putOk), Deleted(receive(i), nowMillis, putOk));
      AppendAssoc(requested0, Requests(i, maxMessages), [ParseInt(maxMessages)]);
      ProcessMessages(maxMessages, receive(i), nowMillis, putOk);
    }

    /** readQueueAsync: LoopCount(MAX_LOOPS) rounds; `receive(i)` is what
        round i's receive returns. */
    method ReadQueueAsync(maxLoops: Option<string>, maxMessages: Option<string>, receive: nat -> seq<Message>,
                          nowMillis: nat, putOk: UsageItem -> bool)
      modifies this
      ensures requested == old(requested) + Requests(LoopCount(maxLoops), maxMessages)
      ensures items == old(items) + WrittenRounds(LoopCount(maxLoops), receive, nowMillis, putOk)
      ensures deleted == old(deleted) + DeletedRounds(LoopCount(maxLoops), receive, nowMillis, putOk)
    {
      var n := LoopCount(maxLoops);
      for i := 0 to n
        invariant requested == old(requested) + Requests(i, maxMessages)
        invariant items == old(items) + WrittenRounds(i, receive, nowMillis, putOk)
        invariant deleted == old(deleted) + DeletedRounds(i, receive, nowMillis, putOk)
      {
        Round(i, maxMessages, receive, nowMillis, putOk, old(items), old(deleted), old(requested));
      }
    }
  }
}
