// The producer wrapper (KafkaProducer): before every publish it makes sure
// the topic exists, once per producer, under a single-permit semaphore.
module TopicProvisioning {
  import opened Wrappers

  /** The topic specification CreateTopicAsync requests. */
  datatype TopicSpec = TopicSpec(name: string, partitions: nat, replicationFactor: nat, configs: map<string, string>)

  function Specification(topic: string): TopicSpec
  {
    TopicSpec(topic, 3, 1, map["cleanup.policy" := "delete", "retention.ms" := "604800000", "segment.ms" := "86400000"])
  }

  /** Created topics get three partitions, one replica, deletion cleanup, seven days' retention and one-day segments. */
  lemma SpecificationSettings(topic: string)
    ensures var t := Specification(topic);
      t.name == topic && t.partitions == 3 && t.replicationFactor == 1
      && t.configs["cleanup.policy"] == "delete"
      && t.configs["retention.ms"] == "604800000" && t.configs["retention.ms"] != "0"
      && t.configs["segment.ms"] == "86400000"
  {
  }

  /** The broker's answer to a create request. */
  datatype CreateResult = Created | AlreadyExists | CreateFailed(reason: string)

  /**
   * What the cluster does during one publish: the GetMetadata call either
   * throws (with its message) or lists topics, a create request ends in one
   * of three ways, and the final ProduceAsync either is acknowledged or
   * throws (with its message).
   */
  datatype Broker = Broker(metadataError: Option<string>, listed: set<string>, createResult: CreateResult, deliveryError: Option<string>)

  datatype Sent<V> = Sent(topic: string, key: string, value: V)

  /** The producer's state: the check flag, the metadata lookups and create requests made, and the messages published. */
  datatype ProducerState<V> = ProducerState(checked: bool, lookups: nat, createRequests: seq<TopicSpec>, sent: seq<Sent<V>>)

  /** CreateTopicAsync: "already exists" counts as success; any other failure raises InvalidOperationException. */
  function CreateOutcome(topic: string, r: CreateResult): (out: Result<(), string>)
    ensures out.Err? <==> r.CreateFailed?
  {
    match r
    case CreateFailed(reason) => Err("Failed to create topic '" + topic + "': " + reason)
    case _ => Ok(())
  }

  /** A check that runs gets through: the metadata is read, and the topic is listed or its creation does not fail. */
  predicate CheckPasses(topic: string, b: Broker)
  {
    b.metadataError.None? && (topic in b.listed || !b.createResult.CreateFailed?)
  }

  /** EnsureTopicExistsAsync: the new state and whether it raised. */
  function CheckEffect<V>(st: ProducerState<V>, topic: string, b: Broker): (ProducerState<V>, Result<(), string>)
  {
    if st.checked then (st, Ok(()))
    else
      var looked := st.(lookups := st.lookups + 1);
      if b.metadataError.Some? then (looked, Err(b.metadataError.value))
      else if topic in b.listed then (looked.(checked := true), Ok(()))
      else
        var asked := looked.(createRequests := st.createRequests + [Specification(topic)]);
        var out := CreateOutcome(topic, b.createResult);
        (asked.(checked := out.Ok?), out)
  }

  /** ProduceAsync: the topic check, then the publish if the check did not raise. */
  function ProduceEffect<V>(st: ProducerState<V>, topic: string, key: string, value: V, b: Broker): (ProducerState<V>, Result<(), string>)
  {
    var (t, out) := CheckEffect(st, topic, b);
    if out.Err? then (t, out)
    else if b.deliveryError.Some? then (t, Err(b.deliveryError.value))
    else (t.(sent := t.sent + [Sent(topic, key, value)]), out)
  }

  /**
   * A publish succeeds exactly when the topic check passes (or was already
   * done) and the broker acknowledges the message; it then appends exactly
   * its message, and otherwise publishes nothing. An unchecked producer
   * looks up the metadata once, asks to create the topic exactly when the
   * metadata was read and does not list it, and sets the flag exactly when
   * the check passes, even if the delivery then fails.
   */
  lemma ProducePublishesOnce<V>(st: ProducerState<V>, topic: string, key: string, value: V, b: Broker)
    ensures var (t, out) := ProduceEffect(st, topic, key, value, b);
      (out.Ok? <==> (st.checked || CheckPasses(topic, b)) && b.deliveryError.None?)
      && (out.Ok? ==> t.sent == st.sent + [Sent(topic, key, value)])
      && (out.Err? ==> t.sent == st.sent)
      && t.lookups == (if st.checked then st.lookups else st.lookups + 1)
      && |t.createRequests| <= |st.createRequests| + 1
      && (|t.createRequests| == |st.createRequests| + 1 <==> !st.checked && b.metadataError.None? && topic !in b.listed)
      && (t.checked <==> st.checked || CheckPasses(topic, b))
  {
  }

  datatype Call<V> = Call(topic: string, key: string, value: V, broker: Broker)

  function RunEffect<V>(st: ProducerState<V>, calls: seq<Call<V>>): ProducerState<V>
    decreases |calls|
  {
    if calls == [] then st
    else RunEffect(ProduceEffect(st, calls[0].topic, calls[0].key, calls[0].value, calls[0].broker).0, calls[1..])
  }

  /** The messages of the calls the broker acknowledges, in order. */
  function Delivered<V>(calls: seq<Call<V>>): seq<Sent<V>>
  {
    if calls == [] then []
    else
      var first := if calls[0].broker.deliveryError.None? then [Sent(calls[0].topic, calls[0].key, calls[0].value)] else [];
      first + Delivered(calls[1..])
  }

  /**
   * The flag is one per producer, not per topic: once set, no later publish
   * to any topic looks up metadata or asks to create a topic, and exactly
   * the publishes the broker acknowledges go through.
   */
  lemma {:induction false} CheckedProducerNeverChecksAgain<V>(st: ProducerState<V>, calls: seq<Call<V>>)
    requires st.checked
    ensures var t := RunEffect(st, calls);
      t.checked && t.lookups == st.lookups && t.createRequests == st.createRequests
      && t.sent == st.sent + Delivered(calls)
    decreases |calls|
  {
    if calls != [] {
      var next := ProduceEffect(st, calls[0].topic, calls[0].key, calls[0].value, calls[0].broker).0;
      CheckedProducerNeverChecksAgain(next, calls[1..]);
    }
  }

  /** A failed check (metadata or creation) leaves the flag unset, so the next publish checks again. */
  lemma FailedCreationIsRetried<V>(st: ProducerState<V>, first: Call<V>, second: Call<V>)
    requires !st.checked && !CheckPasses(first.topic, first.broker)
    ensures var t := ProduceEffect(st, first.topic, first.key, first.value, first.broker).0;
      !t.checked && t.sent == st.sent
      && ProduceEffect(t, second.topic, second.key, second.value, second.broker).0.lookups == t.lookups + 1
  {
  }

  class KafkaProducer<V> {
    var checked: bool
    /** Free permits of the topic-check semaphore. */
    var permits: nat
    var lookups: nat
    var createRequests: seq<TopicSpec>
    var sent: seq<Sent<V>>

    function State(): ProducerState<V>
      reads this
    {
      ProducerState(checked, lookups, createRequests, sent)
    }

    ghost predicate Valid()
      reads this
    {
      permits == 1
    }

    constructor ()
      ensures Valid() && State() == ProducerState(false, 0, [], [])
    {
      checked := false;
      permits := 1;
      lookups := 0;
      createRequests := [];
      sent := [];
    }

    method CreateTopic(topic: string, b: Broker) returns (out: Result<(), string>)
      modifies this`createRequests
      ensures createRequests == old(createRequests) + [Specification(topic)]
      ensures out == CreateOutcome(topic, b.createResult)
    {
      createRequests := createRequests + [Specification(topic)];
      match b.createResult
      case CreateFailed(reason) =>
        out := Err("Failed to create topic '" + topic + "': " + reason);
      case _ =>
        out := Ok(());
    }

    /** EnsureTopicExistsAsync; the semaphore's permit is given back on every path. */
    method EnsureTopicExists(topic: string, b: Broker) returns (out: Result<(), string>)
      requires Valid()
      modifies this`checked, this`permits, this`lookups, this`createRequests
      ensures Valid()
      ensures (State(), out) == CheckEffect(old(State()), topic, b)
    {
      permits := permits - 1;
      if checked {
        permits := permits + 1;
        return Ok(());
      }
      lookups := lookups + 1;
      if b.metadataError.Some? {
        permits := permits + 1;
        return Err(b.metadataError.value);
      }
      if topic !in b.listed {
        out := CreateTopic(topic, b);
        if out.Err? {
          permits := permits + 1;
          return;
        }
      }
      checked := true;
      permits := permits + 1;
      return Ok(());
    }

    method Produce(topic: string, key: string, value: V, b: Broker) returns (out: Result<(), string>)
      requires Valid()
      modifies this`checked, this`permits, this`lookups, this`createRequests, this`sent
      ensures Valid()
      ensures (State(), out) == ProduceEffect(old(State()), topic, key, value, b)
    {
      out := EnsureTopicExists(topic, b);
      if out.Err? {
        return;
      }
      match b.deliveryError
      case Some(reason) =>
        out := Err(reason);
      case None =>
        sent := sent + [Sent(topic, key, value)];
    }
  }
}
