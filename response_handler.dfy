// The replies a command consumer publishes, and its dead-letter records.
module ResponseHandler {
  import opened Wrappers
  import opened Guids
  import opened Envelopes

  /** The six Send*ResponseAsync calls, each with what it carries. */
  datatype Reply =
    | GetAllReply(rows: seq<Entity>)
    | GetByIdReply(found: Option<Entity>)
    | CreatedReply(created: Entity)
    | UpdatedReply(updated: Entity)
    | DeletedReply(id: Guid)
    | ErrorReply(message: string)

  function EventTypeOf(r: Reply): string
  {
    match r
    case GetAllReply(_) => GET_ALL_RESPONSE
    case GetByIdReply(_) => GET_BY_ID_RESPONSE
    case CreatedReply(_) => CREATED_RESPONSE
    case UpdatedReply(_) => UPDATED_RESPONSE
    case DeletedReply(_) => DELETED_RESPONSE
    case ErrorReply(_) => ERROR_RESPONSE
  }

  /** The payload as the requester reads it: a Guid travels as its text. */
  function PayloadOf(r: Reply): Payload
  {
    match r
    case GetAllReply(rows) => ListPayload(rows)
    case GetByIdReply(found) => if found.Some? then EntityPayload(found.value) else NullPayload
    case CreatedReply(e) => EntityPayload(e)
    case UpdatedReply(e) => EntityPayload(e)
    case DeletedReply(id) => TextPayload(GuidText(id))
    case ErrorReply(m) => TextPayload(m)
  }

  /**
   * The one message a Send*ResponseAsync call publishes: an envelope of the
   * reply's event type for `typeName` with a new event id, sent to
   * `responseTopic` and keyed by the correlation id it carries.
   */
  function ReplyMessage(typeName: string, r: Reply, correlationId: Option<string>,
                        responseTopic: string, eventId: string, now: int): (m: Published)
    ensures m.topic == responseTopic && m.key == correlationId
    ensures m.envelope.correlationId == correlationId && m.envelope.modelType == typeName
    ensures m.envelope.eventId == eventId
    ensures (m.envelope.eventType == ERROR_RESPONSE) <==> r.ErrorReply?
    ensures r.ErrorReply? ==> m.envelope.payload == TextPayload(r.message)
    ensures r.DeletedReply? ==> m.envelope.payload == TextPayload(GuidText(r.id))
    ensures r.GetByIdReply? ==> (m.envelope.payload == NullPayload <==> r.found.None?)
  {
    Published(responseTopic, correlationId,
      Envelope(EventTypeOf(r), typeName, PayloadOf(r), now, eventId, correlationId))
  }

  /** The record SendToDeadLetterQueueAsync serialises. */
  datatype DeadLetter = DeadLetter(originalMessage: string, error: string, timestamp: int)

  datatype DlqMessage = DlqMessage(topic: string, key: string, record: DeadLetter)

  /**
   * SendToDeadLetterQueueAsync: one record on the type's dead-letter topic
   * under a new key, or nothing when publishing fails; the failure is
   * swallowed, so the call itself never fails.
   */
  function DeadLetterMessages(typeName: string, message: string, error: string,
                              key: string, now: int, published: bool): (out: seq<DlqMessage>)
    ensures |out| == if published then 1 else 0
    ensures forall d :: d in out ==>
      d.topic == DlqTopic(typeName) && d.key == key && d.record == DeadLetter(message, error, now)
  {
    if published then [DlqMessage(DlqTopic(typeName), key, DeadLetter(message, error, now))] else []
  }
}
