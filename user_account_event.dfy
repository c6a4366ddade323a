/** The events of the user-account example domain and the converter that
    rebuilds an event from its decoded JSON envelope. */
module UserAccountEvents {
  import opened Types
  import opened UserAccountIds
  import opened IsoDates

  /** What an event holds as `occurredAt`. A command stores a `Date` there; the
      converter stores whatever the JSON held, which for a `Date` is the string
      `JSON.stringify` wrote. */
  datatype Time = Instant(millis: TimeValue) | IsoText(text: string)

  /** What `JSON.stringify` writes for an `occurredAt`: `toISOString()` of a `Date`,
      and a string unchanged. */
  function TimeToJson(t: Time): (s: string)
    ensures t.Instant? ==> ReadIsoString(s) == Some(t.millis)
    ensures t.IsoText? ==> s == t.text
  {
    match t
    case Instant(millis) => IsoStringRoundTrip(millis); IsoString(millis)
    case IsoText(text) => text
  }

  /** An event of the user-account example domain. */
  datatype UserAccountEvent =
    | UserAccountCreated(id: string, aggregateId: UserAccountId, name: string, sequenceNumber: int, occurredAt: Time)
    | UserAccountRenamed(id: string, aggregateId: UserAccountId, name: string, sequenceNumber: int, occurredAt: Time)
  {
    const typeName: string := if UserAccountCreated? then "UserAccountCreated" else "UserAccountRenamed"
    /** Only the creation event opens an aggregate's lifetime. */
    const isCreated: bool := UserAccountCreated?
  }

  /** The JSON object `JSON.stringify` makes of an event: its own fields, the time as a string. */
  datatype EventData = EventData(
    typeName: string, isCreated: bool, id: string, aggregateId: IdJson,
    name: string, sequenceNumber: int, occurredAt: string)

  /** The envelope the JSON event serializer writes: `{type, data}`. */
  datatype EventJson = EventJson(tag: string, data: EventData)

  /** The envelope serializing an event yields: its type name as tag, and as data
      every field of the event, with a `Date` written as its ISO string. */
  function EventToJson(event: UserAccountEvent): (json: EventJson)
    ensures json.tag == event.typeName && json.data.typeName == event.typeName
    ensures json.data.isCreated == event.isCreated && json.data.id == event.id
    ensures ConvertJsonToUserAccountId(json.data.aggregateId) == event.aggregateId
    ensures json.data.name == event.name && json.data.sequenceNumber == event.sequenceNumber
    ensures event.occurredAt.Instant? ==> json.data.occurredAt == IsoString(event.occurredAt.millis)
    ensures event.occurredAt.IsoText? ==> json.data.occurredAt == event.occurredAt.text
  {
    EventJson(event.typeName, EventData(event.typeName, event.isCreated, event.id,
      IdToJson(event.aggregateId), event.name, event.sequenceNumber, TimeToJson(event.occurredAt)))
  }

  /** `convertJSONtoUserAccountEvent`: dispatches on the envelope's tag and copies the
      data fields; an unknown tag is an error. */
  function ConvertJsonToUserAccountEvent(json: EventJson): (r: Result<UserAccountEvent, Error>)
    ensures r.Success? <==> json.tag == "UserAccountCreated" || json.tag == "UserAccountRenamed"
    ensures r.Failure? ==> r.error == Error("Unknown type: " + json.tag)
    ensures r.Success? ==>
      && r.value.typeName == json.tag
      && r.value.isCreated == (json.tag == "UserAccountCreated")
      && r.value.id == json.data.id
      && r.value.aggregateId == ConvertJsonToUserAccountId(json.data.aggregateId)
      && r.value.name == json.data.name
      && r.value.sequenceNumber == json.data.sequenceNumber
      && r.value.occurredAt == IsoText(json.data.occurredAt)
  {
    var aggregateId := ConvertJsonToUserAccountId(json.data.aggregateId);
    var d := json.data;
    match json.tag
    case "UserAccountCreated" => Success(UserAccountCreated(d.id, aggregateId, d.name, d.sequenceNumber, IsoText(d.occurredAt)))
    case "UserAccountRenamed" => Success(UserAccountRenamed(d.id, aggregateId, d.name, d.sequenceNumber, IsoText(d.occurredAt)))
    case _ => Failure(Error("Unknown type: " + json.tag))
  }

  /** The event as the JSON serializer reads it back: the same event, except that
      `occurredAt` is now the string `JSON.stringify` wrote for it. */
  function ReadBack(event: UserAccountEvent): (r: UserAccountEvent)
    ensures r.UserAccountCreated? == event.UserAccountCreated?
    ensures r.id == event.id && r.aggregateId == event.aggregateId && r.name == event.name
    ensures r.sequenceNumber == event.sequenceNumber
    ensures r.occurredAt.IsoText?
    ensures event.occurredAt.Instant? ==> ReadIsoString(r.occurredAt.text) == Some(event.occurredAt.millis)
    ensures event.occurredAt.IsoText? ==> r == event
  {
    event.(occurredAt := IsoText(TimeToJson(event.occurredAt)))
  }

  /** Converting the envelope of an event gives back every field but the time, which
      comes back as the ISO string of the `Date`: not the event itself once it held a
      `Date`, but the same JSON when serialized again. */
  lemma EventJsonRoundTrip(event: UserAccountEvent)
    ensures ConvertJsonToUserAccountEvent(EventToJson(event)) == Success(ReadBack(event))
    ensures event.occurredAt.Instant? ==> ConvertJsonToUserAccountEvent(EventToJson(event)) != Success(event)
    ensures EventToJson(ReadBack(event)) == EventToJson(event)
  {
    var json := EventToJson(event);
    assert ConvertJsonToUserAccountId(json.data.aggregateId) == event.aggregateId;
  }
}
