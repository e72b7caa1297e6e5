/** Recognisers for the shapes of event a lambda can be triggered with
    (utilsLayer/lib/triggers.ts). An event is a JSON object: its top-level
    keys mapped to their values. */
module Triggers {

  datatype JsonValue = JString(s: string) | JOther

  type Event = map<string, JsonValue>

  /** `"Records" in event` */
  predicate IsDynamoDBStreamEvent(event: Event) {
    "Records" in event
  }

  /** `"RequestType" in event && "ResourceType" in event` */
  predicate IsCfnEvent(event: Event) {
    "RequestType" in event && "ResourceType" in event
  }

  /** the "detail-type" key holds exactly the given string */
  predicate DetailTypeIs(event: Event, value: string) {
    "detail-type" in event && event["detail-type"] == JString(value)
  }

  predicate IsScheduledEvent(event: Event) {
    DetailTypeIs(event, "Scheduled Event")
  }

  predicate IsQMLambdaTestEvent(event: Event) {
    DetailTypeIs(event, "QM Lambda Test Event")
  }

  /** A scheduled event is never a test event: one key cannot hold both
      strings. */
  lemma ScheduledAndTestExclusive(event: Event)
    ensures !(IsScheduledEvent(event) && IsQMLambdaTestEvent(event))
  {
    if IsScheduledEvent(event) {
      assert "Scheduled Event"[0] != "QM Lambda Test Event"[0];
    }
  }

  /** The stream and CloudFormation recognisers look at key presence only:
      changing the value under a key already present changes neither. */
  lemma PresenceOnly(event: Event, key: string, v: JsonValue)
    requires key in event
    ensures IsDynamoDBStreamEvent(event[key := v]) == IsDynamoDBStreamEvent(event)
    ensures IsCfnEvent(event[key := v]) == IsCfnEvent(event)
  {
  }

  /** A scheduled event whose "detail-type" is overwritten with anything
      else stops being one. */
  lemma ScheduledNeedsExactValue(event: Event, other: string)
    requires other != "Scheduled Event"
    ensures !IsScheduledEvent(event["detail-type" := JString(other)])
    ensures IsScheduledEvent(event["detail-type" := JString("Scheduled Event")])
  {
  }
}
