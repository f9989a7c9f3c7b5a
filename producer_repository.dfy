// The requester's repository (KafkaProducerRepository<T>): each Produce*
// call publishes one command envelope under a correlation id and then waits
// on the caller's response topic for the reply to that id.
module ProducerRepository {
  import opened Wrappers
  import opened Guids
  import opened Envelopes
  import opened TopicProvisioning
  import opened ResponseCorrelator

  /** The envelope ProduceAsync sends for the bound type. */
  function CommandEnvelope(eventType: string, typeName: string, payload: Payload,
                           eventId: string, correlationId: string, now: int): Envelope
  {
    Envelope(eventType, typeName, payload, now, eventId, Some(correlationId))
  }

  /** What ProduceDeleteAsync makes of the wait: Guid.Parse of the reply text. */
  datatype DeleteOutcome =
    | DeletedId(id: Guid)
    | WaitFailed(outcome: WaitOutcome)   // the wait itself raised
    | NullId                             // Guid.Parse(null): ArgumentNullException
    | BadIdFormat                        // Guid.Parse of text that is not a Guid: FormatException

  function DeleteResult(o: WaitOutcome): (d: DeleteOutcome)
    ensures !o.Answered? <==> d.WaitFailed?
    ensures d.WaitFailed? ==> d.outcome == o
    ensures o == Answered(Default) <==> d == NullId
    ensures d.DeletedId? <==> o.Answered? && o.answer.TextAnswer? && o.answer.text.Plain?
                              && ParseGuid(o.answer.text.text).Some?
    ensures d.DeletedId? ==> ParseGuid(o.answer.text.text) == Some(d.id)
  {
    match o
    case Answered(Default) => NullId
    case Answered(TextAnswer(Plain(t))) => if ParseGuid(t).Some? then DeletedId(ParseGuid(t).value) else BadIdFormat
    case Answered(_) => BadIdFormat
    case _ => WaitFailed(o)
  }

  /** The reply text of a deleted Id parses back to that Id. */
  lemma DeletedIdRoundTrip(g: Guid)
    ensures DeleteResult(Answered(TextAnswer(Plain(GuidText(g))))) == DeletedId(g)
  {
    ParseGuidText(g);
  }

  class KafkaProducerRepository {
    /** Kafka:CurrentService. */
    const current: string
    /** typeof(T).Name. */
    const typeName: string
    const producer: KafkaProducer<Envelope>
    var disposed: bool
    /** How many times the underlying producer was disposed. */
    var producerDisposals: nat

    constructor (current: string, typeName: string)
      ensures this.current == current && this.typeName == typeName
      ensures fresh(producer) && producer.Valid() && producer.State() == ProducerState(false, 0, [], [])
      ensures !disposed && producerDisposals == 0
    {
      this.current := current;
      this.typeName := typeName;
      producer := new KafkaProducer();
      disposed := false;
      producerDisposals := 0;
    }

    /** The command topic for a destination service. */
    function TopicTo(destination: string): string
    {
      TopicName(current, destination, typeName)
    }

    /**
     * ProduceAsync: the envelope goes to "{current}-{destination}-{type}",
     * keyed by the correlation id it carries; the id is returned unless the
     * publish raised.
     */
    method Produce(eventType: string, payload: Payload, destination: string, correlationId: Option<string>,
                   newId: string, eventId: string, now: int, b: Broker) returns (r: Result<string, string>)
      requires producer.Valid()
      modifies producer
      ensures producer.Valid()
      ensures var used := correlationId.UnwrapOr(newId);
        var (st, out) := ProduceEffect(old(producer.State()), TopicTo(destination), used,
                                       CommandEnvelope(eventType, typeName, payload, eventId, used, now), b);
        producer.State() == st && r == if out.Ok? then Ok(used) else Err(out.error)
      ensures r.Ok? && correlationId.Some? ==> r.value == correlationId.value
      ensures r.Ok? && correlationId.None? ==> r.value == newId
    {
      var used := correlationId.UnwrapOr(newId);
      var w := CommandEnvelope(eventType, typeName, payload, eventId, used, now);
      var out := producer.Produce(TopicTo(destination), used, w, b);
      if out.Ok? {
        r := Ok(used);
      } else {
        r := Err(out.error);
      }
    }

    /**
     * The shared body of the Produce*Async calls: publish, then wait on the
     * response topic for the reply to the id just used. A publish that raises
     * leaves the correlator untouched.
     */
    method Request(eventType: string, payload: Payload, want: Wanted, destination: string, responseTopic: string,
                   correlationId: Option<string>, newId: string, eventId: string, now: int, b: Broker,
                   correlator: Correlator, incoming: seq<Record>, timerFirst: bool)
      returns (r: Result<WaitOutcome, string>)
      requires producer.Valid() && correlator.Valid()
      modifies producer, correlator
      ensures producer.Valid() && correlator.Valid()
      ensures var used := correlationId.UnwrapOr(newId);
        var (st, out) := ProduceEffect(old(producer.State()), TopicTo(destination), used,
                                       CommandEnvelope(eventType, typeName, payload, eventId, used, now), b);
        producer.State() == st
        && (out.Err? ==> r == Err(out.error) && unchanged(correlator))
        && (out.Ok? ==> r == Ok(WaitResult(want, Answering(incoming, used), timerFirst))
                        && responseTopic in correlator.waiters && used !in correlator.waiters[responseTopic]
                        && correlator.committed == old(correlator.committed) + Commits(responseTopic, incoming))
    {
      var sent := Produce(eventType, payload, destination, correlationId, newId, eventId, now, b);
      if sent.Err? {
        return Err(sent.error);
      }
      var outcome := correlator.WaitFor(responseTopic, sent.value, incoming, want, timerFirst);
      r := Ok(outcome);
    }

    method ProduceCreate(entity: Entity, destination: string, responseTopic: string, correlationId: Option<string>,
                         newId: string, eventId: string, now: int, b: Broker,
                         correlator: Correlator, incoming: seq<Record>, timerFirst: bool)
      returns (r: Result<WaitOutcome, string>)
      requires producer.Valid() && correlator.Valid()
      modifies producer, correlator
      ensures producer.Valid() && correlator.Valid()
      ensures var used := correlationId.UnwrapOr(newId);
        var (st, out) := ProduceEffect(old(producer.State()), TopicTo(destination), used,
                                       CommandEnvelope(CREATE, typeName, EntityPayload(entity), eventId, used, now), b);
        producer.State() == st
        && (out.Err? ==> r == Err(out.error))
        && (out.Ok? ==> r == Ok(WaitResult(AsEntity, Answering(incoming, used), timerFirst)))
    {
      r := Request(CREATE, EntityPayload(entity), AsEntity, destination, responseTopic, correlationId, newId,
                   eventId, now, b, correlator, incoming, timerFirst);
    }

    method ProduceUpdate(entity: Entity, destination: string, responseTopic: string, correlationId: Option<string>,
                         newId: string, eventId: string, now: int, b: Broker,
                         correlator: Correlator, incoming: seq<Record>, timerFirst: bool)
      returns (r: Result<WaitOutcome, string>)
      requires producer.Valid() && correlator.Valid()
      modifies producer, correlator
      ensures producer.Valid() && correlator.Valid()
      ensures var used := correlationId.UnwrapOr(newId);
        var (st, out) := ProduceEffect(old(producer.State()), TopicTo(destination), used,
                                       CommandEnvelope(UPDATE, typeName, EntityPayload(entity), eventId, used, now), b);
        producer.State() == st
        && (out.Err? ==> r == Err(out.error))
        && (out.Ok? ==> r == Ok(WaitResult(AsEntity, Answering(incoming, used), timerFirst)))
    {
      r := Request(UPDATE, EntityPayload(entity), AsEntity, destination, responseTopic, correlationId, newId,
                   eventId, now, b, correlator, incoming, timerFirst);
    }

    /** The Id travels as its text; the reply text is parsed back into a Guid. */
    method ProduceDelete(id: Guid, destination: string, responseTopic: string, correlationId: Option<string>,
                         newId: string, eventId: string, now: int, b: Broker,
                         correlator: Correlator, incoming: seq<Record>, timerFirst: bool)
      returns (r: Result<DeleteOutcome, string>)
      requires producer.Valid() && correlator.Valid()
      modifies producer, correlator
      ensures producer.Valid() && correlator.Valid()
      ensures var used := correlationId.UnwrapOr(newId);
        var (st, out) := ProduceEffect(old(producer.State()), TopicTo(destination), used,
                                       CommandEnvelope(DELETE, typeName, TextPayload(GuidText(id)), eventId, used, now), b);
        producer.State() == st
        && (out.Err? ==> r == Err(out.error))
        && (out.Ok? ==> r == Ok(DeleteResult(WaitResult(AsText, Answering(incoming, used), timerFirst))))
    {
      var waited := Request(DELETE, TextPayload(GuidText(id)), AsText, destination, responseTopic, correlationId, newId,
                            eventId, now, b, correlator, incoming, timerFirst);
      if waited.Err? {
        return Err(waited.error);
      }
      r := Ok(DeleteResult(waited.value));
    }

    /** GET_ALL carries a null payload. */
    method ProduceGetAll(destination: string, responseTopic: string, correlationId: Option<string>,
                         newId: string, eventId: string, now: int, b: Broker,
                         correlator: Correlator, incoming: seq<Record>, timerFirst: bool)
      returns (r: Result<WaitOutcome, string>)
      requires producer.Valid() && correlator.Valid()
      modifies producer, correlator
      ensures producer.Valid() && correlator.Valid()
      ensures var used := correlationId.UnwrapOr(newId);
        var (st, out) := ProduceEffect(old(producer.State()), TopicTo(destination), used,
                                       CommandEnvelope(GET_ALL, typeName, NullPayload, eventId, used, now), b);
        producer.State() == st
        && (out.Err? ==> r == Err(out.error))
        && (out.Ok? ==> r == Ok(WaitResult(AsList, Answering(incoming, used), timerFirst)))
    {
      r := Request(GET_ALL, NullPayload, AsList, destination, responseTopic, correlationId, newId,
                   eventId, now, b, correlator, incoming, timerFirst);
    }

    method ProduceGetById(id: Guid, destination: string, responseTopic: string, correlationId: Option<string>,
                          newId: string, eventId: string, now: int, b: Broker,
                          correlator: Correlator, incoming: seq<Record>, timerFirst: bool)
      returns (r: Result<WaitOutcome, string>)
      requires producer.Valid() && correlator.Valid()
      modifies producer, correlator
      ensures producer.Valid() && correlator.Valid()
      ensures var used := correlationId.UnwrapOr(newId);
        var (st, out) := ProduceEffect(old(producer.State()), TopicTo(destination), used,
                                       CommandEnvelope(GET_BY_ID, typeName, TextPayload(GuidText(id)), eventId, used, now), b);
        producer.State() == st
        && (out.Err? ==> r == Err(out.error))
        && (out.Ok? ==> r == Ok(WaitResult(AsEntity, Answering(incoming, used), timerFirst)))
    {
      r := Request(GET_BY_ID, TextPayload(GuidText(id)), AsEntity, destination, responseTopic, correlationId, newId,
                   eventId, now, b, correlator, incoming, timerFirst);
    }

    /** Dispose: the producer is disposed on the first call only. */
    method Dispose()
      modifies this`disposed, this`producerDisposals
      ensures disposed
      ensures producerDisposals == old(producerDisposals) + if old(disposed) then 0 else 1
    {
      if !disposed {
        producerDisposals := producerDisposals + 1;
        disposed := true;
      }
    }
  }
}
