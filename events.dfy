/**
 * The event envelope, the publish request built by the caller, the Kafka
 * message, the client's errors, and `ConstructEvent` (kafka.go:206-242).
 */
module Events {
  import opened Common
  import Utf8

  /** A value of a Go `map[string]interface{}`, kept as its encoded text. */
  datatype JsonValue = JsonValue(raw: string)

  /** The envelope carried as a Kafka message value. */
  datatype Event = Event(
    id: string,
    eventName: string,
    namespace: string,
    clientID: string,
    userID: string,
    traceID: string,
    spanContext: string,
    sessionID: string,
    timestamp: string,
    version: int,
    eventID: int,
    eventType: int,
    eventLevel: int,
    serviceName: string,
    clientIDs: seq<string>,
    targetUserIDs: seq<string>,
    targetNamespace: string,
    privacy: bool,
    additionalFields: map<string, JsonValue>,
    payload: map<string, JsonValue>)

  /**
   * What a `PublishBuilder` holds once the caller has filled it in. Of the
   * error callback only its presence matters here; the context is not
   * modelled.
   */
  datatype PublishBuilder = PublishBuilder(
    topic: seq<string>,
    eventName: string,
    namespace: string,
    clientID: string,
    userID: string,
    traceID: string,
    spanContext: string,
    sessionID: string,
    version: int,
    eventID: int,
    eventType: int,
    eventLevel: int,
    serviceName: string,
    clientIDs: seq<string>,
    targetUserIDs: seq<string>,
    targetNamespace: string,
    privacy: bool,
    additionalFields: map<string, JsonValue>,
    payload: map<string, JsonValue>,
    hasErrorCallback: bool)

  datatype Message = Message(topic: string, key: seq<byte>, value: seq<byte>)

  /** `kafka.Message{}`. */
  const EmptyMessage: Message := Message("", [], [])

  /** The errors this client returns or hands to callbacks. */
  datatype Error =
    | PubNilEvent                                       // errPubNilEvent
    | SubNilEvent                                       // errSubNilEvent
    | ConstructFailed(eventName: string, cause: Error)  // Publish's fmt.Errorf around a construct error
    | AlreadyRegistered(topic: string, eventName: string)
    | External(text: string)                            // produced outside this file: validation, JSON, broker, context

  /** `marshal` (not part of this model): an event's JSON bytes, or why it could not be encoded. */
  type Marshaller = Event -> Result<seq<byte>, Error>

  /** Event `e` carries every field the builder supplies. */
  predicate CarriesBuilder(e: Event, b: PublishBuilder)
  {
    && e.eventName == b.eventName && e.namespace == b.namespace
    && e.clientID == b.clientID && e.userID == b.userID
    && e.traceID == b.traceID && e.spanContext == b.spanContext
    && e.sessionID == b.sessionID && e.version == b.version
    && e.eventID == b.eventID && e.eventType == b.eventType
    && e.eventLevel == b.eventLevel && e.serviceName == b.serviceName
    && e.clientIDs == b.clientIDs && e.targetUserIDs == b.targetUserIDs
    && e.targetNamespace == b.targetNamespace && e.privacy == b.privacy
    && e.additionalFields == b.additionalFields && e.payload == b.payload
  }

  /** `ConstructEvent`'s three results. */
  datatype Constructed = Constructed(message: Message, event: Event, err: Option<Error>)

  /**
   * Builds the envelope from the builder, the generated `id` and the
   * construction time `timestamp`, and encodes it. The event is returned
   * even when encoding fails; the message is then empty.
   */
  function ConstructEvent(b: PublishBuilder, id: string, timestamp: string, marshal: Marshaller)
    : (r: Constructed)
    ensures r.event.id == id && r.event.timestamp == timestamp && CarriesBuilder(r.event, b)
    ensures r.err.Some? <==> marshal(r.event).Err?
    ensures r.err.Some? ==> r.err == Some(marshal(r.event).error) && r.message == EmptyMessage
    ensures r.err.None? ==>
      r.message == Message("", Utf8.Encode(id), marshal(r.event).value)
  {
    var event := Event(
      id := id,
      eventName := b.eventName,
      namespace := b.namespace,
      clientID := b.clientID,
      userID := b.userID,
      traceID := b.traceID,
      spanContext := b.spanContext,
      sessionID := b.sessionID,
      timestamp := timestamp,
      version := b.version,
      eventID := b.eventID,
      eventType := b.eventType,
      eventLevel := b.eventLevel,
      serviceName := b.serviceName,
      clientIDs := b.clientIDs,
      targetUserIDs := b.targetUserIDs,
      targetNamespace := b.targetNamespace,
      privacy := b.privacy,
      additionalFields := b.additionalFields,
      payload := b.payload);
    match marshal(event)
    case Err(e) => Constructed(EmptyMessage, event, Some(e))
    case Ok(bytes) => Constructed(Message("", Utf8.Encode(id), bytes), event, None)
  }

  /**
   * The id is the only thing that tells two constructions from one builder
   * apart: with equal timestamps the events are equal exactly when the ids
   * are, and two successful constructions have equal keys exactly when their
   * ids are equal.
   */
  lemma ConstructionsDifferOnlyById(b: PublishBuilder, id1: string, id2: string, timestamp: string,
                                    marshal: Marshaller)
    ensures var c1, c2 := ConstructEvent(b, id1, timestamp, marshal), ConstructEvent(b, id2, timestamp, marshal);
      && (c1.event == c2.event <==> id1 == id2)
      && (c1.err.None? && c2.err.None? ==> (c1.message.key == c2.message.key <==> id1 == id2))
  {
    Utf8.EncodeInjective(id1, id2);
  }
}
