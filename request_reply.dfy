// The two halves together: a command published by a requester's repository
// reaches the command consumer of the destination service, and the reply
// that consumer publishes resolves the requester's wait as intended.
module RequestReply {
  import opened Wrappers
  import opened Guids
  import opened Envelopes
  import opened ResponseHandler
  import opened EntityStore
  import opened CommandProcessor
  import opened ResponseCorrelator
  import opened ProducerRepository

  /** The result type each command is awaited as. */
  function WantFor(r: Reply): Wanted
  {
    match r
    case GetAllReply(_) => AsList
    case DeletedReply(_) => AsText
    case _ => AsEntity
  }

  /** What a requester should get for each reply: the entity, the rows, null, the Id's text, or the remote error. */
  function Intended(r: Reply): WaitOutcome
  {
    match r
    case GetAllReply(rows) => Answered(ListAnswer(rows))
    case GetByIdReply(found) => if found.Some? then Answered(EntityAnswer(found.value)) else Answered(Default)
    case CreatedReply(e) => Answered(EntityAnswer(e))
    case UpdatedReply(e) => Answered(EntityAnswer(e))
    case DeletedReply(id) => Answered(TextAnswer(Plain(GuidText(id))))
    case ErrorReply(m) => RemoteFailure(Plain(m))
  }

  /**
   * Every reply a command consumer sends, read back by a waiter on its
   * correlation id before the timer, yields the intended outcome; an error
   * reply does so whatever type is awaited.
   */
  lemma ReplyRoundTrip(typeName: string, r: Reply, id: string, topic: string, eventId: string, now: int, want: Wanted)
    requires want == WantFor(r) || r.ErrorReply?
    ensures var m := ReplyMessage(typeName, r, Some(id), topic, eventId, now);
      Answering([Read(0, Some(m.envelope))], id) == Some(m.envelope)
      && WaitResult(want, Some(m.envelope), false) == Intended(r)
  {
    var m := ReplyMessage(typeName, r, Some(id), topic, eventId, now);
    assert Answers(Read(0, Some(m.envelope)), id);
  }

  /** The DELETE reply, read back by the waiter, makes ProduceDeleteAsync return the deleted Id. */
  lemma DeletedReplyAnswers(typeName: string, g: Guid, id: string, topic: string, eventId: string, now: int, offset: nat)
    ensures var m := ReplyMessage(typeName, DeletedReply(g), Some(id), topic, eventId, now);
      DeleteResult(WaitResult(AsText, Answering([Read(offset, Some(m.envelope))], id), false)) == DeletedId(g)
  {
    var m := ReplyMessage(typeName, DeletedReply(g), Some(id), topic, eventId, now);
    assert Answers(Read(offset, Some(m.envelope)), id);
    DeletedIdRoundTrip(g);
  }

  /** A requester in service `from` publishes to the topic that service `to`'s consumer for the type reads, and that consumer replies on the topic with the names swapped. */
  lemma TopicsAgree(requester: KafkaProducerRepository, destination: string, c: Config)
    requires c.source == requester.current && c.current == destination && c.typeName == requester.typeName
    ensures requester.TopicTo(destination) == CommandTopic(c)
    ensures ResponseTopic(c) == TopicName(destination, requester.current, requester.typeName)
  {
  }

  /**
   * The message that carries a requester's command, as the consumer
   * reads it: its value decodes to the envelope ProduceAsync built.
   */
  predicate Carries(c: Config, m: Message, w: Envelope)
  {
    Command(c, m) == Some(w)
  }

  /**
   * DELETE end to end: the consumer removes the stored row, and the one
   * record it publishes, read back on the response topic, makes
   * ProduceDeleteAsync return the Id it asked to delete.
   */
  lemma DeleteEndToEnd(c: Config, s: State, m: Message, f: Fresh, id: Guid,
                       used: string, eventId: string, now: int, offset: nat)
    requires UniqueKeys(s.rows) && HasKey(s.rows, GuidKey(id))
    requires Carries(c, m, CommandEnvelope(DELETE, c.typeName, TextPayload(GuidText(id)), eventId, used, now))
    requires used != "" && used !in s.processed
    ensures var t := MessageEffect(c, s, m, f);
      |t.outbox| == |s.outbox| + 1
      && t.rows == Remove(s.rows, GuidKey(id)) && !HasKey(t.rows, GuidKey(id))
      && var reply := t.outbox[|s.outbox|];
      reply.topic == ResponseTopic(c)
      && DeleteResult(WaitResult(AsText, Answering([Read(offset, Some(reply.envelope))], used), false)) == DeletedId(id)
  {
    assert Dispatches(c, s, m);
    DeleteOfStoredId(c, s, m, f, id);
    DeletedReplyAnswers(c.typeName, id, used, ResponseTopic(c), f.eventId, f.now, offset);
  }

  /**
   * CREATE end to end: the consumer stores the entity as saved (with its
   * generated Id when it was sent with the default Id 0), and its reply
   * makes ProduceCreateAsync return that saved entity.
   */
  lemma CreateEndToEnd(c: Config, s: State, m: Message, f: Fresh, e: Entity,
                       used: string, eventId: string, now: int, offset: nat)
    requires !HasKey(s.rows, Identified(e, s.nextIdentity).id)
    requires Carries(c, m, CommandEnvelope(CREATE, c.typeName, EntityPayload(e), eventId, used, now))
    requires used != "" && used !in s.processed
    ensures var t := MessageEffect(c, s, m, f);
      var saved := Identified(e, s.nextIdentity);
      |t.outbox| == |s.outbox| + 1 && t.rows == s.rows + [saved]
      && (e.id == IntKey(0) ==> saved.id == IntKey(s.nextIdentity))
      && (e.id != IntKey(0) ==> saved == e)
      && var reply := t.outbox[|s.outbox|];
      reply.topic == ResponseTopic(c)
      && WaitResult(AsEntity, Answering([Read(offset, Some(reply.envelope))], used), false) == Answered(EntityAnswer(saved))
  {
    assert Dispatches(c, s, m);
    CreateStores(c, s, m, f, e);
    ReplyRoundTrip(c.typeName, CreatedReply(Identified(e, s.nextIdentity)), used, ResponseTopic(c), f.eventId, f.now, AsEntity);
  }

  /**
   * UPDATE of an Id the destination does not store: ProduceUpdateAsync
   * fails with the consumer's "not found" text.
   */
  lemma UpdateOfAbsentIdEndToEnd(c: Config, s: State, m: Message, f: Fresh, e: Entity, id: Guid,
                                 used: string, eventId: string, now: int, offset: nat)
    requires e.id == GuidKey(id) && !HasKey(s.rows, GuidKey(id))
    requires Carries(c, m, CommandEnvelope(UPDATE, c.typeName, EntityPayload(e), eventId, used, now))
    requires used != "" && used !in s.processed
    ensures var t := MessageEffect(c, s, m, f);
      |t.outbox| == |s.outbox| + 1 && t.rows == s.rows
      && var reply := t.outbox[|s.outbox|];
      WaitResult(AsEntity, Answering([Read(offset, Some(reply.envelope))], used), false)
        == RemoteFailure(Plain(NotFoundText(id)))
  {
    assert Dispatches(c, s, m);
    UpdateOfAbsentId(c, s, m, f, e, id);
    ReplyRoundTrip(c.typeName, ErrorReply(NotFoundText(id)), used, ResponseTopic(c), f.eventId, f.now, AsEntity);
  }

  /** GET_BY_ID end to end: the requester gets the stored entity, or null when the Id is not stored. */
  lemma GetByIdEndToEnd(c: Config, s: State, m: Message, f: Fresh, id: Guid,
                        used: string, eventId: string, now: int, offset: nat)
    requires Carries(c, m, CommandEnvelope(GET_BY_ID, c.typeName, TextPayload(GuidText(id)), eventId, used, now))
    requires used != "" && used !in s.processed
    ensures var t := MessageEffect(c, s, m, f);
      |t.outbox| == |s.outbox| + 1
      && var reply := t.outbox[|s.outbox|];
      var got := WaitResult(AsEntity, Answering([Read(offset, Some(reply.envelope))], used), false);
      (HasKey(s.rows, GuidKey(id)) ==> got == Answered(EntityAnswer(Find(s.rows, GuidKey(id)).value)))
      && (!HasKey(s.rows, GuidKey(id)) ==> got == Answered(Default))
  {
    assert Dispatches(c, s, m);
    GetByIdReplies(c, s, m, f, id);
    ReplyRoundTrip(c.typeName, GetByIdReply(Find(s.rows, GuidKey(id))), used, ResponseTopic(c), f.eventId, f.now, AsEntity);
  }
}
