// The EventWrapper envelope, the entity it carries, and topic names.
module Envelopes {
  import opened Wrappers
  import opened Text
  import opened Guids

  /** The bound entity type's Id value: a Guid, or an integer identity. */
  datatype Key = GuidKey(guid: Guid) | IntKey(n: int)

  datatype Value = NullValue | TextValue(s: string) | NumberValue(n: int) | FlagValue(b: bool)

  type Fields = map<string, Value>

  /** An entity of the bound type: its Id, the other properties that have a setter, and those without one. */
  datatype Entity = Entity(id: Key, settable: Fields, getOnly: Fields)

  /** EventWrapper.Payload as a receiver sees it once the JSON is read back. */
  datatype Payload =
    | NullPayload
    | TextPayload(text: string)
    | EntityPayload(entity: Entity)
    | ListPayload(entities: seq<Entity>)

  /**
   * Payload.ToString() of a value read from JSON: a JSON string gives its
   * text; an object or array gives its raw JSON, kept here as the value.
   */
  datatype Shown = Plain(text: string) | RawJson(json: Payload)

  function PayloadString(p: Payload): (r: Option<Shown>)
    ensures r.None? <==> p.NullPayload?
    ensures p.TextPayload? ==> r == Some(Plain(p.text))
  {
    match p
    case NullPayload => None
    case TextPayload(t) => Some(Plain(t))
    case _ => Some(RawJson(p))
  }

  /** EventWrapper; a null EventType or ModelType is a string that matches no command or type name. */
  datatype Envelope = Envelope(
    eventType: string,
    modelType: string,
    payload: Payload,
    timestamp: int,
    eventId: string,
    correlationId: Option<string>)

  /** One message handed to the broker: topic, message key and the envelope it carries. */
  datatype Published = Published(topic: string, key: Option<string>, envelope: Envelope)

  // Command event types.
  const CREATE := "CREATE"
  const UPDATE := "UPDATE"
  const DELETE := "DELETE"
  const GET_ALL := "GET_ALL"
  const GET_BY_ID := "GET_BY_ID"

  // Reply event types.
  const GET_ALL_RESPONSE := "GET_ALL_RESPONSE"
  const GET_BY_ID_RESPONSE := "GET_BY_ID_RESPONSE"
  const CREATED_RESPONSE := "CREATED_RESPONSE"
  const UPDATED_RESPONSE := "UPDATED_RESPONSE"
  const DELETED_RESPONSE := "DELETED_RESPONSE"
  const ERROR_RESPONSE := "ERROR_RESPONSE"

  /** The topic on which service `from` talks to service `to` about the entity type `typeName`. */
  function TopicName(from: string, to: string, typeName: string): (t: string)
    ensures |t| == |from| + |to| + |typeName| + 2
    ensures t[|from|] == '-' && t[|from| + |to| + 1] == '-'
    ensures t[|from| + |to| + 2..] == Lower(typeName)
  {
    from + "-" + to + "-" + Lower(typeName)
  }

  /** The type name's letter case does not reach the topic. */
  lemma TopicNameIgnoresCase(from: string, to: string, typeName: string)
    ensures TopicName(from, to, Lower(typeName)) == TopicName(from, to, typeName)
  {
    LowerIdempotent(typeName);
  }

  /** The dead-letter topic of an entity type. */
  function DlqTopic(typeName: string): (t: string)
    ensures |t| == |typeName| + 4 && t[|typeName|..] == "-dlq"
    ensures t[..|typeName|] == Lower(typeName)
  {
    Lower(typeName) + "-dlq"
  }
}
