// The requester's side (KafkaResponseConsumer): one consumer per response
// topic, started on the first wait for that topic, and a table of waiters
// from correlation id to a completion slot that a reply resolves once.
module ResponseCorrelator {
  import opened Wrappers
  import opened Envelopes

  /** A TaskCompletionSource<object>: pending until something resolves it. */
  datatype Slot = Pending | Succeeded(payload: Payload) | Failed(message: Shown)

  /** How a reply resolves its waiter: ERROR_RESPONSE fails with the payload text, or "Unknown error" for a null payload; anything else succeeds with the payload. */
  function Resolution(w: Envelope): (r: Slot)
    ensures r != Pending
    ensures r.Failed? <==> w.eventType == ERROR_RESPONSE
    ensures r.Failed? && w.payload.NullPayload? ==> r.message == Plain("Unknown error")
    ensures r.Failed? && w.payload.TextPayload? ==> r.message == Plain(w.payload.text)
    ensures r.Succeeded? ==> r.payload == w.payload
  {
    if w.eventType == ERROR_RESPONSE then
      Failed(if w.payload.NullPayload? then Plain("Unknown error") else PayloadString(w.payload).value)
    else Succeeded(w.payload)
  }

  /** What one Consume call on a response topic yields. */
  datatype Record =
    | NoMessage                                          // no result, or a result without a message
    | Unreadable                                         // the JSON read throws
    | Read(offset: nat, envelope: Option<Envelope>)     // a message and its envelope, or null

  /** The result type WaitForResponseAsync is asked for. */
  datatype Wanted = AsEntity | AsText | AsList

  datatype Answer = Default | EntityAnswer(entity: Entity) | TextAnswer(text: Shown) | ListAnswer(entities: seq<Entity>)

  datatype WaitOutcome =
    | Answered(answer: Answer)
    | RemoteFailure(message: Shown)   // the reply was an ERROR_RESPONSE
    | DecodeFailure                   // the payload does not read as the requested type
    | Timeout                         // the timer or the cancellation token finished first

  /** Lines 97-102: a null result is the default; a string is the payload text; anything else is read as JSON. */
  function DecodeResult(want: Wanted, p: Payload): (r: WaitOutcome)
    ensures p.NullPayload? ==> r == Answered(Default)
    ensures want == AsText ==> r.Answered? && (p.TextPayload? ==> r.answer == TextAnswer(Plain(p.text)))
    ensures want == AsEntity && !p.NullPayload? ==> (r.Answered? <==> p.EntityPayload?)
    ensures want == AsEntity && p.EntityPayload? ==> r == Answered(EntityAnswer(p.entity))
    ensures want == AsList && !p.NullPayload? ==> (r.Answered? <==> p.ListPayload?)
    ensures want == AsList && p.ListPayload? ==> r == Answered(ListAnswer(p.entities))
    ensures r != Timeout && !r.RemoteFailure?
  {
    if p.NullPayload? then Answered(Default)
    else match want
      case AsText => Answered(TextAnswer(PayloadString(p).value))
      case AsEntity => if p.EntityPayload? then Answered(EntityAnswer(p.entity)) else DecodeFailure
      case AsList => if p.ListPayload? then Answered(ListAnswer(p.entities)) else DecodeFailure
  }

  /** The outcome of awaiting a resolved slot. */
  function SlotOutcome(want: Wanted, slot: Slot): (r: WaitOutcome)
    requires slot != Pending
    ensures slot.Failed? <==> r.RemoteFailure?
    ensures r != Timeout
  {
    match slot
    case Succeeded(p) => DecodeResult(want, p)
    case Failed(m) => RemoteFailure(m)
  }

  datatype Commit = Commit(topic: string, offset: nat)

  /** The record is a reply carrying the correlation id. */
  predicate Answers(r: Record, id: string)
  {
    r.Read? && r.envelope.Some? && r.envelope.value.correlationId == Some(id)
  }

  /** The first reply to `id` among the records, if any. */
  function Answering(records: seq<Record>, id: string): (w: Option<Envelope>)
    ensures w.Some? <==> exists i :: 0 <= i < |records| && Answers(records[i], id)
    ensures w.Some? ==> w.value.correlationId == Some(id)
  {
    if records == [] then None
    else
      var before := Answering(records[..|records| - 1], id);
      var last := records[|records| - 1];
      if before.Some? then before
      else if Answers(last, id) then Some(last.envelope.value)
      else None
  }

  /** The commits ConsumeResponsesAsync makes for these records: one per envelope with a correlation id. */
  function Commits(topic: string, records: seq<Record>): seq<Commit>
  {
    if records == [] then []
    else
      var last := records[|records| - 1];
      Commits(topic, records[..|records| - 1])
        + if last.Read? && last.envelope.Some? && last.envelope.value.correlationId.Some?
          then [Commit(topic, last.offset)] else []
  }

  /** One more record: the first reply and the commits of a prefix grow by what that record adds. */
  lemma PrefixStep(topic: string, records: seq<Record>, i: nat, id: string)
    requires i < |records|
    ensures Answering(records[..i + 1], id)
         == if Answering(records[..i], id).Some? then Answering(records[..i], id)
            else if Answers(records[i], id) then Some(records[i].envelope.value) else None
    ensures Commits(topic, records[..i + 1])
         == Commits(topic, records[..i])
            + if records[i].Read? && records[i].envelope.Some? && records[i].envelope.value.correlationId.Some?
              then [Commit(topic, records[i].offset)] else []
  {
    assert records[..i + 1][..i] == records[..i];
  }

  /** What WaitForResponseAsync returns: the first reply decoded, unless the timer finished first or no reply came. */
  function WaitResult(want: Wanted, reply: Option<Envelope>, timerFirst: bool): (r: WaitOutcome)
    ensures r == Timeout <==> timerFirst || reply.None?
    ensures reply.Some? && !timerFirst ==>
      (r.RemoteFailure? <==> reply.value.eventType == ERROR_RESPONSE)
  {
    if timerFirst || reply.None? then Timeout else SlotOutcome(want, Resolution(reply.value))
  }

  class Correlator {
    var consumers: set<string>
    var waiters: map<string, map<string, nat>>
    var slots: seq<Slot>
    var committed: seq<Commit>
    /** The topic and correlation id each slot was registered under. */
    ghost var owners: seq<(string, string)>

    /**
     * Every topic with a consumer has a waiter table; every registered waiter
     * is a pending slot, registered under that very topic and id, so no
     * slot serves two waiters.
     */
    ghost predicate Valid()
      reads this
    {
      waiters.Keys == consumers && |owners| == |slots|
      && forall t, id :: t in waiters && id in waiters[t] ==>
           waiters[t][id] < |slots| && slots[waiters[t][id]] == Pending && owners[waiters[t][id]] == (t, id)
    }

    constructor ()
      ensures Valid() && consumers == {} && waiters == map[] && slots == [] && committed == []
    {
      consumers := {};
      waiters := map[];
      slots := [];
      committed := [];
      owners := [];
    }

    /** GetConsumer: the first call for a topic starts its consumer with an empty waiter table; later calls reuse them. */
    method GetConsumer(topic: string)
      requires Valid()
      modifies this`consumers, this`waiters
      ensures Valid()
      ensures consumers == old(consumers) + {topic}
      ensures topic in old(consumers) ==> waiters == old(waiters)
      ensures topic !in old(consumers) ==> waiters == old(waiters)[topic := map[]]
    {
      if topic !in consumers {
        consumers := consumers + {topic};
        waiters := waiters[topic := map[]];
      }
    }

    /** Lines 85-89: a new pending slot, registered under the correlation id; it replaces any earlier waiter for that id. */
    method Register(topic: string, correlationId: string) returns (ticket: nat)
      requires Valid()
      modifies this`consumers, this`waiters, this`slots, this`owners
      ensures Valid()
      ensures ticket == |old(slots)| && slots == old(slots) + [Pending]
      ensures consumers == old(consumers) + {topic}
      ensures topic in waiters && waiters[topic] == old(if topic in waiters then waiters[topic] else map[])[correlationId := ticket]
      ensures forall t :: t in old(waiters) && t != topic ==> t in waiters && waiters[t] == old(waiters)[t]
      ensures waiters.Keys == old(waiters.Keys) + {topic}
    {
      GetConsumer(topic);
      ghost var before := waiters;
      ticket := |slots|;
      slots := slots + [Pending];
      owners := owners + [(topic, correlationId)];
      var table: map<string, nat> := waiters[topic][correlationId := ticket];
      waiters := waiters[topic := table];
      forall t, id | t in waiters && id in waiters[t]
        ensures waiters[t][id] < |slots| && slots[waiters[t][id]] == Pending && owners[waiters[t][id]] == (t, id)
      {
        if t != topic || id != correlationId {
          assert waiters[t][id] == before[t][id];
        }
      }
    }

    /**
     * One iteration of ConsumeResponsesAsync. A reply with a correlation id
     * that has a waiter removes the waiter and resolves its slot; a reply
     * with a correlation id is committed whether or not a waiter matched;
     * nothing else changes anything.
     */
    method Deliver(topic: string, r: Record)
      requires Valid()
      modifies this`waiters, this`slots, this`committed
      ensures Valid()
      ensures consumers == old(consumers)
      ensures |slots| == |old(slots)| && owners == old(owners)
      ensures forall j :: 0 <= j < |slots| && old(slots)[j] != Pending ==> slots[j] == old(slots)[j]
      ensures (r.Read? && r.envelope.Some? && r.envelope.value.correlationId.Some?) ==>
        var w := r.envelope.value;
        var id := w.correlationId.value;
        committed == old(committed) + [Commit(topic, r.offset)]
        && if topic in old(waiters) && id in old(waiters)[topic] then
             var k := old(waiters)[topic][id];
             waiters == old(waiters)[topic := old(waiters)[topic] - {id}]
             && slots == old(slots)[k := Resolution(w)]
           else waiters == old(waiters) && slots == old(slots)
    ensures !(r.Read? && r.envelope.Some? && r.envelope.value.correlationId.Some?) ==>
        waiters == old(waiters) && slots == old(slots) && committed == old(committed)
    {
      if r.Read? && r.envelope.Some? && r.envelope.value.correlationId.Some? {
        var w := r.envelope.value;
        var id := w.correlationId.value;
        if topic in waiters && id in waiters[topic] {
          var k := waiters[topic][id];
          waiters := waiters[topic := waiters[topic] - {id}];
          slots := slots[k := Resolution(w)];
        }
        committed := committed + [Commit(topic, r.offset)];
      }
    }

    /**
     * The slot `ticket`, registered under (topic, id), is still waiting when
     * no reply has come, and holds the first reply once one has.
     */
    ghost predicate Awaits(topic: string, id: string, ticket: nat, answered: Option<Envelope>)
      reads this
    {
      ticket < |slots| && |owners| == |slots| && owners[ticket] == (topic, id)
      && (answered.None? ==>
            slots[ticket] == Pending && topic in waiters && id in waiters[topic] && waiters[topic][id] == ticket)
      && (answered.Some? ==> slots[ticket] == Resolution(answered.value))
    }

    /** Deliver, seen from one waiter: its slot takes the record when the record is the first reply to it. */
    method DeliverWhileWaiting(topic: string, id: string, ticket: nat, ghost answered: Option<Envelope>, r: Record)
      requires Valid() && Awaits(topic, id, ticket, answered)
      modifies this`waiters, this`slots, this`committed
      ensures Valid() && consumers == old(consumers) && owners == old(owners)
      ensures Awaits(topic, id, ticket,
                     if answered.Some? then answered else if Answers(r, id) then Some(r.envelope.value) else None)
      ensures committed == old(committed)
                + if r.Read? && r.envelope.Some? && r.envelope.value.correlationId.Some?
                  then [Commit(topic, r.offset)] else []
    {
      Deliver(topic, r);
    }

    /**
     * Lines 91-105, once Task.WhenAny has returned: the waiter under the
     * correlation id is removed; the slot's outcome is returned if it won
     * the race, and Timeout otherwise (cancellation included).
     */
    method Finish(topic: string, correlationId: string, ticket: nat, want: Wanted, timerFirst: bool)
      returns (outcome: WaitOutcome)
      requires Valid()
      requires topic in waiters && ticket < |slots|
      requires !timerFirst ==> slots[ticket] != Pending
      modifies this`waiters
      ensures Valid()
      ensures waiters == old(waiters)[topic := old(waiters)[topic] - {correlationId}]
      ensures correlationId !in waiters[topic]
      ensures timerFirst ==> outcome == Timeout
      ensures !timerFirst ==> outcome == SlotOutcome(want, slots[ticket])
    {
      waiters := waiters[topic := waiters[topic] - {correlationId}];
      if timerFirst {
        outcome := Timeout;
      } else {
        outcome := SlotOutcome(want, slots[ticket]);
      }
    }

    /** The records the topic's consumer reads while the waiter waits, delivered in order. */
    method DeliverAll(topic: string, correlationId: string, ticket: nat, incoming: seq<Record>)
      requires Valid() && Awaits(topic, correlationId, ticket, None)
      modifies this`waiters, this`slots, this`committed
      ensures Valid() && consumers == old(consumers) && owners == old(owners)
      ensures Awaits(topic, correlationId, ticket, Answering(incoming, correlationId))
      ensures committed == old(committed) + Commits(topic, incoming)
    {
      var i := 0;
      while i < |incoming|
        invariant 0 <= i <= |incoming|
        invariant Valid() && consumers == old(consumers) && owners == old(owners)
        invariant Awaits(topic, correlationId, ticket, Answering(incoming[..i], correlationId))
        invariant committed == old(committed) + Commits(topic, incoming[..i])
      {
        PrefixStep(topic, incoming, i, correlationId);
        DeliverWhileWaiting(topic, correlationId, ticket, Answering(incoming[..i], correlationId), incoming[i]);
        i := i + 1;
      }
      assert incoming[..i] == incoming;
    }

    /**
     * WaitForResponseAsync, with the records the topic's consumer reads while
     * it waits: the waiter is registered, the records are delivered, and the
     * waiter is removed. The outcome is the first reply to the correlation id,
     * decoded as asked, or Timeout.
     */
    method WaitFor(topic: string, correlationId: string, incoming: seq<Record>, want: Wanted, timerFirst: bool)
      returns (outcome: WaitOutcome)
      requires Valid()
      modifies this`consumers, this`waiters, this`slots, this`owners, this`committed
      ensures Valid()
      ensures outcome == WaitResult(want, Answering(incoming, correlationId), timerFirst)
      ensures consumers == old(consumers) + {topic}
      ensures topic in waiters && correlationId !in waiters[topic]
      ensures committed == old(committed) + Commits(topic, incoming)
    {
      var ticket := Register(topic, correlationId);
      DeliverAll(topic, correlationId, ticket, incoming);
      outcome := Finish(topic, correlationId, ticket, want, timerFirst || slots[ticket] == Pending);
    }
  }
}
