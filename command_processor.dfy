// The command consumer (KafkaConsumerRepository): it reads commands for one
// entity type from its command topic, drops the ones it must not handle,
// deduplicates by correlation id, runs the handler, publishes one reply,
// and commits the offset once the message has been processed.
module CommandProcessor {
  import opened Wrappers
  import opened Text
  import opened Guids
  import opened Envelopes
  import opened ResponseHandler
  import opened EntityStore

  /** The consumed message; its key and its value may each be null. */
  datatype Message = Message(key: Option<string>, value: Option<string>)

  /** What JsonSerializer makes of a message value: an exception, null, or an envelope. */
  datatype Decoded = JsonError | JsonNull | Parsed(envelope: Envelope)

  /** The exceptions a handler can raise; each stands for its exception's Message. */
  datatype Fault =
    | NullReference   // the payload is null where its text is read
    | BadFormat       // Guid.Parse of text that is not a Guid
    | InvalidCast     // the Id value is not a Guid
    | NotAnEntity     // the payload does not read as the entity type
    | DuplicateKey    // saving an entity whose Id is already stored

  function FaultText(f: Fault): string
  {
    match f
    case NullReference => "Object reference not set to an instance of an object."
    case BadFormat => "Unrecognized Guid format."
    case InvalidCast => "Specified cast is not valid."
    case NotAnEntity => "The JSON value could not be converted to the entity type."
    case DuplicateKey => "An error occurred while saving the entity changes."
  }

  /** What the runtime supplies per message: the reply's event id, a dead letter's key, the clock, and whether the dead-letter publish goes through. */
  datatype Fresh = Fresh(eventId: string, dlqKey: string, now: int, dlqPublished: bool)

  /**
   * The consumer's settings: the requesting service, this service
   * (Kafka:CurrentService), the bound type's name, and how a value reads as JSON.
   */
  datatype Config = Config(source: string, current: string, typeName: string, decode: string -> Decoded)

  function CommandTopic(c: Config): string
  {
    TopicName(c.source, c.current, c.typeName)
  }

  function ResponseTopic(c: Config): string
  {
    TopicName(c.current, c.source, c.typeName)
  }

  /** The response topic is the command topic with the two service names swapped. */
  lemma ResponseTopicSwapsServices(c: Config)
    ensures ResponseTopic(c) == CommandTopic(c.(source := c.current, current := c.source))
  {
  }

  /**
   * Everything a step can change: the in-flight correlation ids, the store,
   * the store's next identity value, the replies, the dead letters and the
   * committed offsets.
   */
  datatype State = State(
    processed: set<string>,
    rows: seq<Entity>,
    nextIdentity: int,
    outbox: seq<Published>,
    deadLetters: seq<DlqMessage>,
    committed: seq<nat>)

  /** Reading the payload as the entity type: null stays null. */
  function DecodeEntity(p: Payload): (r: Result<Option<Entity>, Fault>)
    ensures r == Ok(None) <==> p.NullPayload?
    ensures r.Ok? && r.value.Some? <==> p.EntityPayload?
  {
    match p
    case NullPayload => Ok(None)
    case EntityPayload(e) => Ok(Some(e))
    case _ => Err(NotAnEntity)
  }

  /** Guid.Parse(wrapper.Payload.ToString()). */
  function PayloadGuid(p: Payload): (r: Result<Guid, Fault>)
    ensures r.Ok? <==> p.TextPayload? && ParseGuid(p.text).Some?
    ensures r.Ok? ==> ParseGuid(p.text) == Some(r.value)
    ensures p.NullPayload? ==> r == Err(NullReference)
  {
    match p
    case NullPayload => Err(NullReference)
    case TextPayload(t) => if ParseGuid(t).Some? then Ok(ParseGuid(t).value) else Err(BadFormat)
    case _ => Err(BadFormat)
  }

  /** The (Guid) cast of the entity's Id value. */
  function AsGuid(k: Key): (r: Option<Guid>)
    ensures r.Some? <==> k.GuidKey?
    ensures r.Some? ==> k == GuidKey(r.value)
  {
    if k.GuidKey? then Some(k.guid) else None
  }

  function NotFoundText(id: Guid): string
  {
    "Entity with ID " + GuidText(id) + " not found."
  }

  /** Publishing one reply to the command's correlation id. */
  function Respond(c: Config, s: State, w: Envelope, r: Reply, f: Fresh): State
  {
    s.(outbox := s.outbox + [ReplyMessage(c.typeName, r, w.correlationId, ResponseTopic(c), f.eventId, f.now)])
  }

  /** From s to t the handler published at most one message, a reply to w on the response topic. */
  ghost predicate AtMostOneReply(c: Config, s: State, t: State, w: Envelope)
  {
    |s.outbox| <= |t.outbox| <= |s.outbox| + 1 && t.outbox[..|s.outbox|] == s.outbox
    && forall p :: p in t.outbox[|s.outbox|..] ==>
         p.topic == ResponseTopic(c) && p.key == w.correlationId && p.envelope.correlationId == w.correlationId
  }

  /** The default value of an integer identity key: saving such an entity lets the database generate its Id. */
  predicate GeneratesId(e: Entity)
  {
    e.id == IntKey(0)
  }

  /** The entity as SaveChangesAsync leaves it: a generated Id is written back into it, any other Id is kept. */
  function Identified(e: Entity, next: int): Entity
  {
    if GeneratesId(e) then e.(id := IntKey(next)) else e
  }

  /** The identity sequence after an insert: it advances exactly when it supplied the Id, whether or not the insert succeeds. */
  function Advanced(e: Entity, next: int): int
  {
    if GeneratesId(e) then next + 1 else next
  }

  /** HandleCreateAsync. */
  function CreateEffect(c: Config, s: State, w: Envelope, f: Fresh): (t: State)
    ensures AtMostOneReply(c, s, t, w)
    ensures t.processed == s.processed && t.deadLetters == s.deadLetters && t.committed == s.committed
    ensures s.nextIdentity <= t.nextIdentity <= s.nextIdentity + 1
  {
    match DecodeEntity(w.payload)
    case Err(e) => Respond(c, s, w, ErrorReply("Error creating entity: " + FaultText(e)), f)
    case Ok(None) => s
    case Ok(Some(e)) =>
      var saved := Identified(e, s.nextIdentity);
      var u := s.(nextIdentity := Advanced(e, s.nextIdentity));
      if HasKey(s.rows, saved.id) then Respond(c, u, w, ErrorReply("Error creating entity: " + FaultText(DuplicateKey)), f)
      else Respond(c, u.(rows := s.rows + [saved]), w, CreatedReply(saved), f)
  }

  /** HandleUpdateAsync. */
  function UpdateEffect(c: Config, s: State, w: Envelope, f: Fresh): (t: State)
    ensures AtMostOneReply(c, s, t, w)
    ensures t.processed == s.processed && t.deadLetters == s.deadLetters && t.committed == s.committed
  {
    match DecodeEntity(w.payload)
    case Err(e) => Respond(c, s, w, ErrorReply("Error updating entity: " + FaultText(e)), f)
    case Ok(None) => s
    case Ok(Some(e)) =>
      match AsGuid(e.id)
      case None => Respond(c, s, w, ErrorReply("Error updating entity: " + FaultText(InvalidCast)), f)
      case Some(id) =>
        match Find(s.rows, GuidKey(id))
        case None => Respond(c, s, w, ErrorReply(NotFoundText(id)), f)
        case Some(stored) =>
          var merged := Merge(stored, e);
          Respond(c, s.(rows := Replace(s.rows, merged)), w, UpdatedReply(merged), f)
  }

  /** HandleDeleteAsync. */
  function DeleteEffect(c: Config, s: State, w: Envelope, f: Fresh): (t: State)
    ensures AtMostOneReply(c, s, t, w)
    ensures t.processed == s.processed && t.deadLetters == s.deadLetters && t.committed == s.committed
  {
    match PayloadGuid(w.payload)
    case Err(e) => Respond(c, s, w, ErrorReply("Error deleting entity: " + FaultText(e)), f)
    case Ok(id) =>
      if HasKey(s.rows, GuidKey(id)) then Respond(c, s.(rows := Remove(s.rows, GuidKey(id))), w, DeletedReply(id), f)
      else Respond(c, s, w, ErrorReply(NotFoundText(id)), f)
  }

  /** HandleGetAllAsync. */
  function GetAllEffect(c: Config, s: State, w: Envelope, f: Fresh): (t: State)
    ensures AtMostOneReply(c, s, t, w)
    ensures t.processed == s.processed && t.rows == s.rows && t.deadLetters == s.deadLetters
    ensures t.committed == s.committed
  {
    Respond(c, s, w, GetAllReply(s.rows), f)
  }

  /** HandleGetByIdAsync; a payload that is not a Guid raises out of the handler. */
  function GetByIdEffect(c: Config, s: State, w: Envelope, f: Fresh): (r: Result<State, Fault>)
    ensures r.Ok? ==> AtMostOneReply(c, s, r.value, w)
    ensures r.Ok? ==> r.value.processed == s.processed && r.value.rows == s.rows
    ensures r.Ok? ==> r.value.deadLetters == s.deadLetters && r.value.committed == s.committed
  {
    match PayloadGuid(w.payload)
    case Err(e) => Err(e)
    case Ok(id) => Ok(Respond(c, s, w, GetByIdReply(Find(s.rows, GuidKey(id))), f))
  }

  /** ProcessEventAsync: the switch on the event type. */
  function EventEffect(c: Config, s: State, w: Envelope, f: Fresh): (r: Result<State, Fault>)
    ensures r.Ok? ==> AtMostOneReply(c, s, r.value, w)
    ensures r.Ok? ==> r.value.processed == s.processed
    ensures r.Ok? ==> r.value.deadLetters == s.deadLetters && r.value.committed == s.committed
    ensures r.Err? ==> w.eventType == GET_BY_ID
  {
    if w.eventType == CREATE then Ok(if w.payload.NullPayload? then s else CreateEffect(c, s, w, f))
    else if w.eventType == UPDATE then Ok(if w.payload.NullPayload? then s else UpdateEffect(c, s, w, f))
    else if w.eventType == DELETE then Ok(DeleteEffect(c, s, w, f))
    else if w.eventType == GET_ALL then Ok(GetAllEffect(c, s, w, f))
    else if w.eventType == GET_BY_ID then GetByIdEffect(c, s, w, f)
    else Ok(s)
  }

  /** SendToDeadLetterQueueAsync(message, ex). */
  function DeadLettered(c: Config, s: State, message: string, error: string, f: Fresh): State
  {
    s.(deadLetters := s.deadLetters + DeadLetterMessages(c.typeName, message, error, f.dlqKey, f.now, f.dlqPublished))
  }

  /** The envelope a message carries, when it reads as one. */
  function Command(c: Config, m: Message): Option<Envelope>
  {
    if IsNullOrWhiteSpace(m.value) then None
    else match c.decode(m.value.value)
      case Parsed(w) => Some(w)
      case _ => None
  }

  /** The message passes the filter chain and is not a duplicate: it is dispatched. */
  predicate Dispatches(c: Config, s: State, m: Message)
  {
    var w := Command(c, m);
    w.Some? && w.value.modelType == c.typeName && !IsNullOrEmpty(w.value.correlationId)
      && w.value.correlationId.value !in s.processed
  }

  /** The try block of ProcessMessageAsync and its catch. */
  function AttemptEffect(c: Config, s: State, m: Message, f: Fresh): State
  {
    if !Dispatches(c, s, m) then s
    else
      var w := Command(c, m).value;
      var inFlight := s.(processed := s.processed + {w.correlationId.value});
      match EventEffect(c, inFlight, w, f)
      case Ok(t) => t
      case Err(e) => DeadLettered(c, inFlight, "Process error: " + FaultText(e), FaultText(e), f)
  }

  /** The key the finally block removes from the in-flight set, if any. */
  function Released(key: Option<string>): set<string>
  {
    if IsNullOrEmpty(key) then {} else {key.value}
  }

  /** ProcessMessageAsync: the attempt, then the finally block. */
  function MessageEffect(c: Config, s: State, m: Message, f: Fresh): State
  {
    var t := AttemptEffect(c, s, m, f);
    t.(processed := t.processed - Released(m.key))
  }

  /** One Consume call's outcome. */
  datatype Poll =
    | NoResult                                            // nothing within the poll timeout
    | NoMessage                                           // a result without a message (end of partition)
    | Received(offset: nat, message: Message, given: Fresh)
    | Cancelled                                           // the token was cancelled: the loop ends

  /** One iteration of ConsumeLoopAsync: process, then commit. */
  function PollEffect(c: Config, s: State, p: Poll): State
  {
    match p
    case Received(o, m, f) =>
      var t := MessageEffect(c, s, m, f);
      t.(committed := t.committed + [o])
    case _ => s
  }

  /** ConsumeLoopAsync over a sequence of polls; it stops at the first cancellation. */
  function LoopEffect(c: Config, s: State, polls: seq<Poll>): State
    decreases |polls|
  {
    if polls == [] || polls[0].Cancelled? then s
    else LoopEffect(c, PollEffect(c, s, polls[0]), polls[1..])
  }

  /** The offsets the loop commits: those of the messages before the first cancellation, in order. */
  function CommittedOffsets(polls: seq<Poll>): seq<nat>
  {
    if polls == [] || polls[0].Cancelled? then []
    else (if polls[0].Received? then [polls[0].offset] else []) + CommittedOffsets(polls[1..])
  }

  // ---------------------------------------------------------------------
  // Properties of one message

  /**
   * A blank value, unreadable JSON, a null envelope, a foreign ModelType, a
   * missing CorrelationId or an in-flight one: no reply, no store change, no
   * dead letter; only the finally block's removal of the key.
   */
  lemma DroppedMessageChangesNothing(c: Config, s: State, m: Message, f: Fresh)
    requires !Dispatches(c, s, m)
    ensures MessageEffect(c, s, m, f) == s.(processed := s.processed - Released(m.key))
  {
  }

  /** Each drop condition on its own keeps the message from being dispatched. */
  lemma DropConditions(c: Config, s: State, m: Message)
    ensures IsNullOrWhiteSpace(m.value) ==> !Dispatches(c, s, m)
    ensures !IsNullOrWhiteSpace(m.value) && !c.decode(m.value.value).Parsed? ==> !Dispatches(c, s, m)
    ensures !IsNullOrWhiteSpace(m.value) && c.decode(m.value.value).Parsed? ==>
      var w := c.decode(m.value.value).envelope;
      (w.modelType != c.typeName || IsNullOrEmpty(w.correlationId)
        || w.correlationId.value in s.processed) ==> !Dispatches(c, s, m)
  {
  }

  /** A body of no-break spaces and line separators is blank too, and is never handed to the JSON reader. */
  lemma UnicodeBlankBodyIsDropped(c: Config, s: State, key: Option<string>, f: Fresh)
    ensures MessageEffect(c, s, Message(key, Some("\U{00A0}\U{2028}\U{3000}")), f) == s.(processed := s.processed - Released(key))
  {
    DropConditions(c, s, Message(key, Some("\U{00A0}\U{2028}\U{3000}")));
  }

  /**
   * A dispatched command's correlation id is added before the handler runs
   * and stays for it; afterwards the finally block removes the message key.
   */
  lemma {:induction false} InFlightBookkeeping(c: Config, s: State, m: Message, f: Fresh)
    requires Dispatches(c, s, m)
    ensures MessageEffect(c, s, m, f).processed
      == (s.processed + {Command(c, m).value.correlationId.value}) - Released(m.key)
  {
    var w := Command(c, m).value;
    var inFlight := s.(processed := s.processed + {w.correlationId.value});
    match EventEffect(c, inFlight, w, f)
    case Ok(t) =>
    case Err(e) =>
  }

  /**
   * When the key is the correlation id, as producers send it, a step leaves
   * no entry behind: from an empty in-flight set it stays empty.
   */
  lemma KeyedByCorrelationLeavesNothing(c: Config, s: State, m: Message, f: Fresh)
    requires s.processed == {}
    requires Dispatches(c, s, m) ==> m.key == Command(c, m).value.correlationId
    ensures MessageEffect(c, s, m, f).processed == {}
  {
    if Dispatches(c, s, m) {
      InFlightBookkeeping(c, s, m, f);
    } else {
      DroppedMessageChangesNothing(c, s, m, f);
    }
  }

  /** The correlation id of a dispatched command. */
  function CorrelationOf(c: Config, s: State, m: Message): string
    requires Dispatches(c, s, m)
  {
    Command(c, m).value.correlationId.value
  }

  /** The reply to a dispatched command, as ReplyMessage builds it for this consumer. */
  function ReplyTo(c: Config, s: State, m: Message, r: Reply, f: Fresh): Published
    requires Dispatches(c, s, m)
  {
    ReplyMessage(c.typeName, r, Some(CorrelationOf(c, s, m)), ResponseTopic(c), f.eventId, f.now)
  }

  /** UPDATE of an Id that is not stored: one ERROR_RESPONSE saying so, store unchanged. */
  lemma UpdateOfAbsentId(c: Config, s: State, m: Message, f: Fresh, e: Entity, id: Guid)
    requires Dispatches(c, s, m)
    requires Command(c, m).value.eventType == UPDATE
    requires Command(c, m).value.payload == EntityPayload(e) && e.id == GuidKey(id)
    requires !HasKey(s.rows, GuidKey(id))
    ensures MessageEffect(c, s, m, f).rows == s.rows
    ensures MessageEffect(c, s, m, f).outbox == s.outbox + [ReplyTo(c, s, m, ErrorReply(NotFoundText(id)), f)]
    ensures MessageEffect(c, s, m, f).deadLetters == s.deadLetters
  {
  }

  /**
   * UPDATE of a stored Id: the stored row takes every settable property of
   * the payload except Id, no other row changes, and the reply carries the
   * merged entity.
   */
  lemma UpdateOfStoredId(c: Config, s: State, m: Message, f: Fresh, e: Entity, id: Guid, i: nat)
    requires UniqueKeys(s.rows)
    requires Dispatches(c, s, m)
    requires Command(c, m).value.eventType == UPDATE
    requires Command(c, m).value.payload == EntityPayload(e) && e.id == GuidKey(id)
    requires i < |s.rows| && s.rows[i].id == GuidKey(id)
    ensures var t := MessageEffect(c, s, m, f);
      var merged := Entity(GuidKey(id), e.settable, s.rows[i].getOnly);
      |t.rows| == |s.rows| && t.rows[i] == merged
      && (forall j :: 0 <= j < |s.rows| && j != i ==> t.rows[j] == s.rows[j])
      && t.outbox == s.outbox + [ReplyTo(c, s, m, UpdatedReply(merged), f)]
      && t.deadLetters == s.deadLetters
  {
    FindUnique(s.rows, GuidKey(id), i);
  }

  /** UPDATE whose payload Id is not a Guid (an integer identity): an "Error updating entity" reply, store unchanged. */
  lemma UpdateWithIntegerIdFails(c: Config, s: State, m: Message, f: Fresh, e: Entity)
    requires Dispatches(c, s, m)
    requires Command(c, m).value.eventType == UPDATE
    requires Command(c, m).value.payload == EntityPayload(e) && e.id.IntKey?
    ensures MessageEffect(c, s, m, f).rows == s.rows
    ensures MessageEffect(c, s, m, f).outbox
      == s.outbox + [ReplyTo(c, s, m, ErrorReply("Error updating entity: " + FaultText(InvalidCast)), f)]
  {
  }

  /** DELETE of a stored Id removes that row and replies DELETED_RESPONSE with the Id. */
  lemma DeleteOfStoredId(c: Config, s: State, m: Message, f: Fresh, id: Guid)
    requires UniqueKeys(s.rows)
    requires Dispatches(c, s, m)
    requires Command(c, m).value.eventType == DELETE
    requires Command(c, m).value.payload == TextPayload(GuidText(id))
    requires HasKey(s.rows, GuidKey(id))
    ensures var t := MessageEffect(c, s, m, f);
      t.rows == Remove(s.rows, GuidKey(id)) && |t.rows| == |s.rows| - 1
      && t.outbox == s.outbox + [ReplyTo(c, s, m, DeletedReply(id), f)]
  {
    ParseGuidText(id);
    RemoveUnique(s.rows, GuidKey(id));
  }

  /** DELETE of an Id that is not stored: one ERROR_RESPONSE, store unchanged. */
  lemma DeleteOfAbsentId(c: Config, s: State, m: Message, f: Fresh, id: Guid)
    requires Dispatches(c, s, m)
    requires Command(c, m).value.eventType == DELETE
    requires Command(c, m).value.payload == TextPayload(GuidText(id))
    requires !HasKey(s.rows, GuidKey(id))
    ensures MessageEffect(c, s, m, f).rows == s.rows
    ensures MessageEffect(c, s, m, f).outbox == s.outbox + [ReplyTo(c, s, m, ErrorReply(NotFoundText(id)), f)]
  {
    ParseGuidText(id);
  }

  /** GET_BY_ID replies with the stored entity, or with a null payload when there is none. */
  lemma GetByIdReplies(c: Config, s: State, m: Message, f: Fresh, id: Guid)
    requires Dispatches(c, s, m)
    requires Command(c, m).value.eventType == GET_BY_ID
    requires Command(c, m).value.payload == TextPayload(GuidText(id))
    ensures var t := MessageEffect(c, s, m, f);
      t.rows == s.rows && t.deadLetters == s.deadLetters
      && t.outbox == s.outbox + [ReplyTo(c, s, m, GetByIdReply(Find(s.rows, GuidKey(id))), f)]
  {
    ParseGuidText(id);
  }

  /** GET_BY_ID whose payload is not a Guid: no reply; the exception goes to the dead-letter topic as "Process error: ...". */
  lemma GetByIdBadIdIsDeadLettered(c: Config, s: State, m: Message, f: Fresh)
    requires Dispatches(c, s, m)
    requires Command(c, m).value.eventType == GET_BY_ID
    requires PayloadGuid(Command(c, m).value.payload).Err?
    ensures var t := MessageEffect(c, s, m, f);
      var e := PayloadGuid(Command(c, m).value.payload).error;
      t.rows == s.rows && t.outbox == s.outbox
      && t.deadLetters == s.deadLetters
        + DeadLetterMessages(c.typeName, "Process error: " + FaultText(e), FaultText(e), f.dlqKey, f.now, f.dlqPublished)
  {
  }

  /** GET_ALL replies with every stored row, in storage order. */
  lemma GetAllReplies(c: Config, s: State, m: Message, f: Fresh)
    requires Dispatches(c, s, m)
    requires Command(c, m).value.eventType == GET_ALL
    ensures MessageEffect(c, s, m, f).rows == s.rows
    ensures MessageEffect(c, s, m, f).outbox == s.outbox + [ReplyTo(c, s, m, GetAllReply(s.rows), f)]
  {
  }

  /**
   * CREATE of an entity whose Id, as saved, is new: the saved entity is
   * stored at the end and the CREATED_RESPONSE carries it. An entity with
   * the default Id 0 is saved with the store's next identity value, which
   * then advances; any other Id is kept and the identity does not move.
   */
  lemma CreateStores(c: Config, s: State, m: Message, f: Fresh, e: Entity)
    requires Dispatches(c, s, m)
    requires Command(c, m).value.eventType == CREATE
    requires Command(c, m).value.payload == EntityPayload(e)
    requires !HasKey(s.rows, if e.id == IntKey(0) then IntKey(s.nextIdentity) else e.id)
    ensures var t := MessageEffect(c, s, m, f);
      var saved := if e.id == IntKey(0) then e.(id := IntKey(s.nextIdentity)) else e;
      t.rows == s.rows + [saved]
      && t.outbox == s.outbox + [ReplyTo(c, s, m, CreatedReply(saved), f)]
      && t.nextIdentity == if e.id == IntKey(0) then s.nextIdentity + 1 else s.nextIdentity
  {
  }

  /**
   * CREATE whose saved Id is already stored: one "Error creating entity"
   * reply and the store unchanged; a generated Id is used up all the same.
   */
  lemma CreateOfStoredIdFails(c: Config, s: State, m: Message, f: Fresh, e: Entity)
    requires Dispatches(c, s, m)
    requires Command(c, m).value.eventType == CREATE
    requires Command(c, m).value.payload == EntityPayload(e)
    requires HasKey(s.rows, if e.id == IntKey(0) then IntKey(s.nextIdentity) else e.id)
    ensures var t := MessageEffect(c, s, m, f);
      t.rows == s.rows
      && t.outbox == s.outbox + [ReplyTo(c, s, m, ErrorReply("Error creating entity: " + FaultText(DuplicateKey)), f)]
      && t.nextIdentity == if e.id == IntKey(0) then s.nextIdentity + 1 else s.nextIdentity
  {
  }

  /** Every integer Id in the store is below the identity sequence's next value. */
  ghost predicate IdentityAhead(s: State)
  {
    forall i :: 0 <= i < |s.rows| && s.rows[i].id.IntKey? ==> s.rows[i].id.n < s.nextIdentity
  }

  /**
   * While the identity sequence is ahead of every stored integer Id, a
   * CREATE with the default Id 0 always succeeds: it stores the entity with
   * the next identity value, and the sequence stays ahead. Two such CREATEs
   * in a row therefore store consecutive Ids.
   */
  lemma GeneratedCreateSucceeds(c: Config, s: State, w: Envelope, f: Fresh, e: Entity)
    requires IdentityAhead(s)
    requires w.payload == EntityPayload(e) && e.id == IntKey(0)
    ensures var t := CreateEffect(c, s, w, f);
      t.rows == s.rows + [e.(id := IntKey(s.nextIdentity))]
      && t.nextIdentity == s.nextIdentity + 1
      && t.outbox == s.outbox + [ReplyMessage(c.typeName, CreatedReply(e.(id := IntKey(s.nextIdentity))), w.correlationId, ResponseTopic(c), f.eventId, f.now)]
      && IdentityAhead(t)
  {
  }

  /** CREATE or UPDATE with a null payload, and unknown event types, send nothing and change nothing. */
  lemma SilentCommands(c: Config, s: State, m: Message, f: Fresh)
    requires Dispatches(c, s, m)
    requires var w := Command(c, m).value;
      ((w.eventType == CREATE || w.eventType == UPDATE) && w.payload.NullPayload?)
      || w.eventType !in {CREATE, UPDATE, DELETE, GET_ALL, GET_BY_ID}
    ensures MessageEffect(c, s, m, f).rows == s.rows
    ensures MessageEffect(c, s, m, f).outbox == s.outbox
    ensures MessageEffect(c, s, m, f).deadLetters == s.deadLetters
  {
  }

  /**
   * Every message yields at most one outgoing record: a reply on the response
   * topic keyed by the command's correlation id, or a dead letter, or nothing.
   */
  lemma {:induction false} AtMostOneOutput(c: Config, s: State, m: Message, f: Fresh)
    ensures var t := MessageEffect(c, s, m, f);
      |s.outbox| <= |t.outbox| && t.outbox[..|s.outbox|] == s.outbox
      && |s.deadLetters| <= |t.deadLetters| && t.deadLetters[..|s.deadLetters|] == s.deadLetters
      && |t.outbox| + |t.deadLetters| <= |s.outbox| + |s.deadLetters| + 1
      && t.committed == s.committed
      && (forall p :: p in t.outbox[|s.outbox|..] ==>
            Dispatches(c, s, m) && p.topic == ResponseTopic(c)
            && p.key == Some(CorrelationOf(c, s, m)) && p.envelope.correlationId == p.key)
  {
    if Dispatches(c, s, m) {
      var w := Command(c, m).value;
      var inFlight := s.(processed := s.processed + {w.correlationId.value});
      var r := EventEffect(c, inFlight, w, f);
      if r.Ok? {
        assert AtMostOneReply(c, inFlight, r.value, w);
      }
    }
  }

  /** A step keeps the store's primary key. */
  lemma MessageKeepsUniqueKeys(c: Config, s: State, m: Message, f: Fresh)
    requires UniqueKeys(s.rows)
    ensures UniqueKeys(MessageEffect(c, s, m, f).rows)
  {
    if Dispatches(c, s, m) {
      var w := Command(c, m).value;
      var inFlight := s.(processed := s.processed + {w.correlationId.value});
      if w.eventType == CREATE && w.payload.EntityPayload? && !HasKey(s.rows, Identified(w.payload.entity, s.nextIdentity).id) {
        AppendUnique(s.rows, Identified(w.payload.entity, s.nextIdentity));
      } else if w.eventType == UPDATE && !w.payload.NullPayload? && w.payload.EntityPayload? {
        var e := w.payload.entity;
        if AsGuid(e.id).Some? && Find(s.rows, e.id).Some? {
          ReplaceUnique(s.rows, Merge(Find(s.rows, e.id).value, e));
        }
      } else if w.eventType == DELETE && PayloadGuid(w.payload).Ok? {
        RemoveUnique(s.rows, GuidKey(PayloadGuid(w.payload).value));
      }
    }
  }

  // ---------------------------------------------------------------------
  // Properties of the read loop

  /** The loop commits exactly the received offsets before the first cancellation, in order, each after its message. */
  lemma {:induction false} LoopCommitsInOrder(c: Config, s: State, polls: seq<Poll>)
    decreases |polls|
    ensures LoopEffect(c, s, polls).committed == s.committed + CommittedOffsets(polls)
  {
    if polls != [] && !polls[0].Cancelled? {
      var t := PollEffect(c, s, polls[0]);
      if polls[0].Received? {
        AtMostOneOutput(c, s, polls[0].message, polls[0].given);
      }
      LoopCommitsInOrder(c, t, polls[1..]);
    }
  }

  /** The loop keeps the store's primary key. */
  lemma {:induction false} LoopKeepsUniqueKeys(c: Config, s: State, polls: seq<Poll>)
    decreases |polls|
    requires UniqueKeys(s.rows)
    ensures UniqueKeys(LoopEffect(c, s, polls).rows)
  {
    if polls != [] && !polls[0].Cancelled? {
      if polls[0].Received? {
        MessageKeepsUniqueKeys(c, s, polls[0].message, polls[0].given);
      }
      LoopKeepsUniqueKeys(c, PollEffect(c, s, polls[0]), polls[1..]);
    }
  }

  /** Every received message is keyed by its own correlation id. */
  ghost predicate KeyedByCorrelation(c: Config, polls: seq<Poll>)
  {
    forall i :: 0 <= i < |polls| && polls[i].Received? ==>
      var w := Command(c, polls[i].message);
      w.Some? && !IsNullOrEmpty(w.value.correlationId) ==> polls[i].message.key == w.value.correlationId
  }

  /**
   * With every message keyed by its correlation id, the in-flight set is
   * empty after every step of a sequential loop, so no message is ever
   * skipped as a duplicate.
   */
  lemma {:induction false} SequentialLoopNeverDeduplicates(c: Config, s: State, polls: seq<Poll>)
    decreases |polls|
    requires s.processed == {}
    requires KeyedByCorrelation(c, polls)
    ensures LoopEffect(c, s, polls).processed == {}
  {
    if polls != [] && !polls[0].Cancelled? {
      if polls[0].Received? {
        KeyedByCorrelationLeavesNothing(c, s, polls[0].message, polls[0].given);
      }
      assert KeyedByCorrelation(c, polls[1..]) by {
        forall i | 0 <= i < |polls| - 1 && polls[1..][i].Received?
          ensures var w := Command(c, polls[1..][i].message);
            w.Some? && !IsNullOrEmpty(w.value.correlationId) ==> polls[1..][i].message.key == w.value.correlationId
        {
          assert polls[1..][i] == polls[i + 1];
        }
      }
      SequentialLoopNeverDeduplicates(c, PollEffect(c, s, polls[0]), polls[1..]);
    }
  }

  // ---------------------------------------------------------------------
  // The consumer object

  class Consumer {
    const config: Config
    var processed: set<string>
    var rows: seq<Entity>
    var nextIdentity: int
    var outbox: seq<Published>
    var deadLetters: seq<DlqMessage>
    var committed: seq<nat>

    function Snapshot(): State
      reads this
    {
      State(processed, rows, nextIdentity, outbox, deadLetters, committed)
    }

    ghost predicate Valid()
      reads this
    {
      UniqueKeys(rows)
    }

    /** A consumer for `typeName` commands from `source`, over an existing store whose identity sequence is at `identity`. */
    constructor (source: string, current: string, typeName: string, decode: string -> Decoded, stored: seq<Entity>, identity: int)
      requires UniqueKeys(stored)
      ensures Valid()
      ensures config == Config(source, current, typeName, decode)
      ensures Snapshot() == State({}, stored, identity, [], [], [])
    {
      config := Config(source, current, typeName, decode);
      processed := {};
      rows := stored;
      nextIdentity := identity;
      outbox := [];
      deadLetters := [];
      committed := [];
    }

    method Send(w: Envelope, r: Reply, f: Fresh)
      modifies this`outbox
      ensures Snapshot() == Respond(config, old(Snapshot()), w, r, f)
    {
      outbox := outbox + [ReplyMessage(config.typeName, r, w.correlationId, ResponseTopic(config), f.eventId, f.now)];
    }

    method HandleCreate(w: Envelope, f: Fresh)
      requires Valid()
      modifies this`rows, this`nextIdentity, this`outbox
      ensures Valid()
      ensures Snapshot() == CreateEffect(config, old(Snapshot()), w, f)
    {
      match DecodeEntity(w.payload)
      case Err(e) => Send(w, ErrorReply("Error creating entity: " + FaultText(e)), f);
      case Ok(None) =>
      case Ok(Some(e)) =>
        // AddAsync, then SaveChangesAsync: the insert draws a generated Id before it can fail
        var saved := e;
        if GeneratesId(e) {
          saved := e.(id := IntKey(nextIdentity));
          nextIdentity := nextIdentity + 1;
        }
        if HasKey(rows, saved.id) {
          Send(w, ErrorReply("Error creating entity: " + FaultText(DuplicateKey)), f);
        } else {
          AppendUnique(rows, saved);
          rows := rows + [saved];
          Send(w, CreatedReply(saved), f);
        }
    }

    method HandleUpdate(w: Envelope, f: Fresh)
      requires Valid()
      modifies this`rows, this`outbox
      ensures Valid()
      ensures Snapshot() == UpdateEffect(config, old(Snapshot()), w, f)
    {
      match DecodeEntity(w.payload)
      case Err(e) => Send(w, ErrorReply("Error updating entity: " + FaultText(e)), f);
      case Ok(None) =>
      case Ok(Some(e)) =>
        var id := AsGuid(e.id);
        if id.None? {
          Send(w, ErrorReply("Error updating entity: " + FaultText(InvalidCast)), f);
          return;
        }
        var stored := Find(rows, GuidKey(id.value));
        if stored.None? {
          Send(w, ErrorReply(NotFoundText(id.value)), f);
          return;
        }
        var merged := Merge(stored.value, e);
        ReplaceUnique(rows, merged);
        rows := Replace(rows, merged);
        Send(w, UpdatedReply(merged), f);
    }

    method HandleDelete(w: Envelope, f: Fresh)
      requires Valid()
      modifies this`rows, this`outbox
      ensures Valid()
      ensures Snapshot() == DeleteEffect(config, old(Snapshot()), w, f)
    {
      var id := PayloadGuid(w.payload);
      if id.Err? {
        Send(w, ErrorReply("Error deleting entity: " + FaultText(id.error)), f);
        return;
      }
      if !HasKey(rows, GuidKey(id.value)) {
        Send(w, ErrorReply(NotFoundText(id.value)), f);
        return;
      }
      RemoveUnique(rows, GuidKey(id.value));
      rows := Remove(rows, GuidKey(id.value));
      Send(w, DeletedReply(id.value), f);
    }

    method HandleGetAll(w: Envelope, f: Fresh)
      modifies this`outbox
      ensures Snapshot() == GetAllEffect(config, old(Snapshot()), w, f)
    {
      Send(w, GetAllReply(rows), f);
    }

    /** Returns the exception the handler raises, if any. */
    method HandleGetById(w: Envelope, f: Fresh) returns (raised: Option<Fault>)
      modifies this`outbox
      ensures raised.Some? ==> Snapshot() == old(Snapshot())
      ensures GetByIdEffect(config, old(Snapshot()), w, f)
        == if raised.Some? then Err(raised.value) else Ok(Snapshot())
    {
      var id := PayloadGuid(w.payload);
      if id.Err? {
        return Some(id.error);
      }
      Send(w, GetByIdReply(Find(rows, GuidKey(id.value))), f);
      return None;
    }

    method ProcessEvent(w: Envelope, f: Fresh) returns (raised: Option<Fault>)
      requires Valid()
      modifies this`rows, this`nextIdentity, this`outbox
      ensures Valid()
      ensures raised.Some? ==> Snapshot() == old(Snapshot())
      ensures EventEffect(config, old(Snapshot()), w, f)
        == if raised.Some? then Err(raised.value) else Ok(Snapshot())
    {
      raised := None;
      if w.eventType == CREATE {
        if !w.payload.NullPayload? { HandleCreate(w, f); }
      } else if w.eventType == UPDATE {
        if !w.payload.NullPayload? { HandleUpdate(w, f); }
      } else if w.eventType == DELETE {
        HandleDelete(w, f);
      } else if w.eventType == GET_ALL {
        HandleGetAll(w, f);
      } else if w.eventType == GET_BY_ID {
        raised := HandleGetById(w, f);
      }
    }

    method SendToDeadLetterQueue(message: string, error: string, f: Fresh)
      modifies this`deadLetters
      ensures Snapshot() == DeadLettered(config, old(Snapshot()), message, error, f)
    {
      deadLetters := deadLetters + DeadLetterMessages(config.typeName, message, error, f.dlqKey, f.now, f.dlqPublished);
    }

    /** ProcessMessageAsync. */
    method ProcessMessage(m: Message, f: Fresh)
      requires Valid()
      modifies this`processed, this`rows, this`nextIdentity, this`outbox, this`deadLetters
      ensures Valid()
      ensures Snapshot() == MessageEffect(config, old(Snapshot()), m, f)
    {
      if Dispatches(config, Snapshot(), m) {
        var w := Command(config, m).value;
        processed := processed + {w.correlationId.value};
        var raised := ProcessEvent(w, f);
        if raised.Some? {
          SendToDeadLetterQueue("Process error: " + FaultText(raised.value), FaultText(raised.value), f);
        }
      }
      // finally
      if !IsNullOrEmpty(m.key) {
        processed := processed - {m.key.value};
      }
    }

    /** ConsumeLoopAsync over the polls it sees, until cancellation. */
    method ConsumeLoop(polls: seq<Poll>)
      requires Valid()
      modifies this`processed, this`rows, this`nextIdentity, this`outbox, this`deadLetters, this`committed
      ensures Valid()
      ensures Snapshot() == LoopEffect(config, old(Snapshot()), polls)
      ensures committed == old(committed) + CommittedOffsets(polls)
    {
      var i := 0;
      while i < |polls| && !polls[i].Cancelled?
        invariant 0 <= i <= |polls|
        invariant Valid()
        invariant LoopEffect(config, old(Snapshot()), polls) == LoopEffect(config, Snapshot(), polls[i..])
        decreases |polls| - i
      {
        assert polls[i..][1..] == polls[i + 1..];
        if polls[i].Received? {
          ProcessMessage(polls[i].message, polls[i].given);
          committed := committed + [polls[i].offset];
        }
        i := i + 1;
      }
      LoopCommitsInOrder(config, old(Snapshot()), polls);
    }

    /** Dispose: the in-flight set is cleared; nothing else of the model changes. */
    method Dispose()
      modifies this`processed
      ensures processed == {}
      ensures rows == old(rows) && nextIdentity == old(nextIdentity)
      ensures outbox == old(outbox) && deadLetters == old(deadLetters)
      ensures committed == old(committed)
    {
      processed := {};
    }
  }
}
