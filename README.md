# EliosPaymentService in Dafny

A model of the core of EliosPaymentService. The model has two halves.

**The Kafka request/response bridge.**

- A `KafkaConsumerRepository<T>` listens on the command topic `{source}-{current}-{lower(T.Name)}`.
  - It drops blank, unparsable, foreign or uncorrelated messages.
  - It deduplicates by correlation id.
  - It applies CREATE, UPDATE, DELETE, GET_ALL and GET_BY_ID to its entity store.
  - It answers through the `KafkaResponseHandler` on the swapped response topic.
  - It sends failures that escape dispatch to the `{lower(T.Name)}-dlq` topic.
- On the requesting side, `KafkaProducerRepository<T>` picks the correlation id and publishes the command through `KafkaProducer`. `KafkaProducer` checks the topic once per producer and creates it if it is missing.
- The requester then waits in `KafkaResponseConsumer` for the reply with that correlation id, or for the 30-second timer.

**The order domain.**

- The `OrderService` create, update (field-wise merge) and delete operations over the Orders table.
- The order, transaction and invoice repository queries: filters, newest or latest first, paging and statistics.
- The transaction and invoice services.
- The `OrderController` paging endpoint, its not-found guards and the pre-checks and defaults of `CreatePayment`.

**How state is modelled.**

- Stateful parts are classes whose methods are proved against pure specification functions:
  - `Consumer` for the command consumer;
  - `Correlator` for the static response-consumer tables;
  - `KafkaProducer` and `KafkaProducerRepository`;
  - `Table` for a repository's DbSet;
  - the order services and the controller.
- The consumer's state is the processed-id set, the entity rows, the store's next identity value, the response outbox, the dead-letter outbox and the committed offsets.
- The pure parts are functions, with lemmas relating them:
  - topic names and envelope builders;
  - the effect of one message, and of the whole consume loop;
  - LINQ queries;
  - Guid text and parsing.
- `RequestReply` connects the two ends. For DELETE, CREATE, UPDATE of an absent id and GET_BY_ID, it proves that the reply the consumer publishes is the one the waiting producer decodes into the intended answer.

Where the description of the system and the code disagree, the model follows the code:

- The response consumer commits the offset of every parsed envelope that carries a correlation id, whether or not a waiter matched. It skips the commit only when the envelope has no correlation id or parsing throws.
- `OrderService` has no `GetByUserIdAsync` or `GetStatisticsByUserIdAsync`, although `IOrderService` declares them. Paging and statistics are therefore modelled on `OrderRepository`, where they are implemented.
- The only binding of the generic consumer is `Order`, whose `Id` is an `int`. `HandleUpdate` casts the id to `Guid`, so an UPDATE of such an entity always fails with an invalid cast and produces an error reply (`CommandProcessor.UpdateWithIntegerIdFails`). The model keeps both key kinds, so the Guid path is modelled as well.

## Model

| member | source | states |
|---|---|---|
| Text.Lower | EliosPaymentService/Repositories/Implementations/KafkaConsumerRepository.cs:55-56 | ToLower keeps the length and lowers each letter, character by character |
| Text.LowerIdempotent | EliosPaymentService/Repositories/Implementations/Repository/OrderRepository.cs:43 | lowering an already lowered text changes nothing |
| Guids.GuidText | EliosPaymentService/Repositories/Implementations/KafkaProducerRepository.cs:47 | Guid.ToString() is the 36-character "D" text of the Guid |
| Guids.ParseGuid | EliosPaymentService/Repositories/Implementations/KafkaConsumerRepository.cs:260 | Guid.Parse succeeds only on dashed 8-4-4-4-12 hexadecimal text |
| Guids.ParseGuidText | EliosPaymentService/Repositories/Implementations/KafkaProducerRepository.cs:47-49 | parsing the text a Guid prints gives that Guid back |
| Guids.ParsedTextIsGuidText | EliosPaymentService/Repositories/Implementations/KafkaConsumerRepository.cs:328 | any text that parses to g is g's printed text up to letter case |
| Guids.GuidTextInjective | EliosPaymentService/Repositories/Implementations/KafkaProducerRepository.cs:47-49 | two Guids print the same text only if they are equal |
| Envelopes.PayloadString | EliosPaymentService/Repositories/Implementations/KafkaResponseConsumer.cs:66 | Payload?.ToString() is null exactly for a null payload and is the text itself for a text payload |
| Envelopes.TopicName | EliosPaymentService/Repositories/Implementations/KafkaConsumerRepository.cs:55-56 | a topic is the first service, a dash, the second service, a dash and the lower-cased type name |
| Envelopes.TopicNameIgnoresCase | EliosPaymentService/Repositories/Implementations/KafkaConsumerRepository.cs:55-56 | the topic depends on the type name only up to letter case |
| Envelopes.DlqTopic | EliosPaymentService/Repositories/Implementations/KafkaResponseHandler.cs:28 | the dead-letter topic is the lower-cased type name followed by "-dlq" |
| ResponseHandler.ReplyMessage | EliosPaymentService/Repositories/Implementations/KafkaResponseHandler.cs:32-126 | every reply goes to the response topic, keyed by the correlation id, which the envelope echoes, and carries ModelType = T.Name and the fresh EventId; its type is ERROR_RESPONSE iff it is an error reply, which carries the error text; DELETED carries the id's text; GET_BY_ID's payload is null iff nothing was found |
| ResponseHandler.DeadLetterMessages | EliosPaymentService/Repositories/Implementations/KafkaResponseHandler.cs:128-145 | one record to the dead-letter topic, keyed by the fresh key and holding the message, the error and the timestamp, when publishing succeeds; none when it fails, and never an error |
| CommandProcessor.Respond | EliosPaymentService/Repositories/Implementations/KafkaResponseHandler.cs:32-126 | one Send*ResponseAsync call: the outbox gains exactly the ReplyMessage for the command, on the response topic under its correlation id; AtMostOneOutput and the per-command lemmas state which reply each command sends |
| CommandProcessor.DeadLettered | EliosPaymentService/Repositories/Implementations/KafkaResponseHandler.cs:128-145 | SendToDeadLetterQueueAsync: the dead letters gain the DeadLetterMessages record, or nothing when that publish fails; GetByIdBadIdIsDeadLettered states when it is reached |
| EntityStore.Find | EliosPaymentService/Repositories/Implementations/KafkaConsumerRepository.cs:298 | the entity found has the key and is stored; none is found exactly when no stored entity has the key |
| EntityStore.FindUnique | EliosPaymentService/Repositories/Implementations/KafkaConsumerRepository.cs:261 | under unique keys the lookup finds the one entity stored with that key |
| EntityStore.Remove | EliosPaymentService/Repositories/Implementations/KafkaConsumerRepository.cs:336 | after deleting a key, exactly the entities with other keys remain |
| EntityStore.RemoveUnique | EliosPaymentService/Repositories/Implementations/KafkaConsumerRepository.cs:336-337 | deleting keeps keys unique and shrinks the store by one exactly when the key was present |
| EntityStore.RemoveAbsent | EliosPaymentService/Repositories/Implementations/KafkaConsumerRepository.cs:330-334 | deleting an absent key changes nothing |
| EntityStore.Replace | EliosPaymentService/Repositories/Implementations/KafkaConsumerRepository.cs:311 | updating an entity replaces the rows with its key, keeps every position's key and leaves the other rows alone |
| EntityStore.ReplaceUnique | EliosPaymentService/Repositories/Implementations/KafkaConsumerRepository.cs:311 | updating keeps keys unique |
| EntityStore.AppendUnique | EliosPaymentService/Repositories/Implementations/KafkaConsumerRepository.cs:275-276 | adding an entity with a new key keeps keys unique |
| EntityStore.MergeIdempotent | EliosPaymentService/Repositories/Implementations/KafkaConsumerRepository.cs:305-309 | the property copy keeps the stored Id, merging twice equals merging once, and merging an entity with itself changes nothing |
| CommandProcessor.ResponseTopicSwapsServices | EliosPaymentService/Repositories/Implementations/KafkaConsumerRepository.cs:55-56 | the response topic is the command topic with the two services swapped |
| CommandProcessor.DecodeEntity | EliosPaymentService/Repositories/Implementations/KafkaConsumerRepository.cs:272-273 | a null payload decodes to null; an entity payload, and only that, decodes to an entity; anything else is an error |
| CommandProcessor.PayloadGuid | EliosPaymentService/Repositories/Implementations/KafkaConsumerRepository.cs:260 | Guid.Parse(payload.ToString()) succeeds iff the payload is text that parses, and gives the parsed Guid; a null payload is a null-reference failure |
| CommandProcessor.AsGuid | EliosPaymentService/Repositories/Implementations/KafkaConsumerRepository.cs:296 | the (Guid) cast of the Id succeeds iff the Id is a Guid, and gives that Guid |
| CommandProcessor.CreateEffect | EliosPaymentService/Repositories/Implementations/KafkaConsumerRepository.cs:265-283 | CREATE publishes at most one reply, to the response topic under the correlation id, advances the identity sequence by at most one, and touches neither the in-flight set, the dead letters nor the commits |
| CommandProcessor.UpdateEffect | EliosPaymentService/Repositories/Implementations/KafkaConsumerRepository.cs:285-319 | UPDATE publishes at most one reply to the response topic and touches neither the in-flight set, the dead letters nor the commits |
| CommandProcessor.DeleteEffect | EliosPaymentService/Repositories/Implementations/KafkaConsumerRepository.cs:321-344 | DELETE publishes at most one reply to the response topic and touches neither the in-flight set, the dead letters nor the commits |
| CommandProcessor.GetAllEffect | EliosPaymentService/Repositories/Implementations/KafkaConsumerRepository.cs:248-254 | GET_ALL publishes at most one reply and leaves the store unchanged |
| CommandProcessor.GetByIdEffect | EliosPaymentService/Repositories/Implementations/KafkaConsumerRepository.cs:256-263 | GET_BY_ID either raises or publishes at most one reply with the store unchanged |
| CommandProcessor.EventEffect | EliosPaymentService/Repositories/Implementations/KafkaConsumerRepository.cs:221-246 | dispatch publishes at most one reply and only GET_BY_ID can let an exception escape |
| CommandProcessor.DroppedMessageChangesNothing | EliosPaymentService/Repositories/Implementations/KafkaConsumerRepository.cs:161-218 | a message that is not dispatched changes nothing except the finally's removal of its key from the in-flight set |
| CommandProcessor.DropConditions | EliosPaymentService/Repositories/Implementations/KafkaConsumerRepository.cs:161-201 | a blank body, a failed or null parse, a foreign ModelType, a missing correlation id or one already in flight each prevent dispatch |
| CommandProcessor.UnicodeBlankBodyIsDropped | EliosPaymentService/Repositories/Implementations/KafkaConsumerRepository.cs:161-165 | a body of no-break spaces and Unicode line separators counts as white space, so the message is skipped before any parsing |
| CommandProcessor.InFlightBookkeeping | EliosPaymentService/Repositories/Implementations/KafkaConsumerRepository.cs:197-218 | a dispatched message's correlation id is added before dispatch and the entry under its message key is removed afterwards |
| CommandProcessor.KeyedByCorrelationLeavesNothing | EliosPaymentService/Repositories/Implementations/KafkaConsumerRepository.cs:214-218 | when the key is the correlation id, an empty in-flight set stays empty after the message |
| CommandProcessor.AttemptEffect | EliosPaymentService/Repositories/Implementations/KafkaConsumerRepository.cs:159-213 | the try and catch of ProcessMessageAsync: DropConditions states when a message is dispatched, DroppedMessageChangesNothing that an undispatched one changes nothing, GetByIdBadIdIsDeadLettered that an escaping fault is dead-lettered with "Process error: …" |
| CommandProcessor.MessageEffect | EliosPaymentService/Repositories/Implementations/KafkaConsumerRepository.cs:157-219 | ProcessMessageAsync with its finally: InFlightBookkeeping states the in-flight set before and after, AtMostOneOutput that at most one reply or dead letter is sent and nothing is committed, MessageKeepsUniqueKeys that the store keeps unique keys |
| CommandProcessor.UpdateOfAbsentId | EliosPaymentService/Repositories/Implementations/KafkaConsumerRepository.cs:298-303 | UPDATE of an absent id leaves the store unchanged and publishes exactly the "Entity with ID … not found." error reply |
| CommandProcessor.UpdateOfStoredId | EliosPaymentService/Repositories/Implementations/KafkaConsumerRepository.cs:305-313 | UPDATE of a stored id replaces exactly that row with the merge (stored Id, incoming writable fields) and replies UPDATED with the merged entity |
| CommandProcessor.UpdateWithIntegerIdFails | EliosPaymentService/Repositories/Implementations/KafkaConsumerRepository.cs:295-318 | UPDATE of an entity whose Id is an int leaves the store unchanged and replies "Error updating entity: " with the invalid-cast message |
| CommandProcessor.DeleteOfStoredId | EliosPaymentService/Repositories/Implementations/KafkaConsumerRepository.cs:328-338 | DELETE of a stored id removes exactly it, shrinks the store by one and replies DELETED with the id |
| CommandProcessor.DeleteOfAbsentId | EliosPaymentService/Repositories/Implementations/KafkaConsumerRepository.cs:328-334 | DELETE of an absent id leaves the store unchanged and replies with the not-found error |
| CommandProcessor.GetByIdReplies | EliosPaymentService/Repositories/Implementations/KafkaConsumerRepository.cs:256-263 | GET_BY_ID replies with the lookup's result, possibly null, and leaves the store unchanged |
| CommandProcessor.GetByIdBadIdIsDeadLettered | EliosPaymentService/Repositories/Implementations/KafkaConsumerRepository.cs:209-213 | a GET_BY_ID whose id does not parse sends no reply and dead-letters "Process error: …" |
| CommandProcessor.GetAllReplies | EliosPaymentService/Repositories/Implementations/KafkaConsumerRepository.cs:248-254 | GET_ALL replies with the whole store and changes nothing |
| CommandProcessor.CreateStores | EliosPaymentService/Repositories/Implementations/KafkaConsumerRepository.cs:272-277 | CREATE of an entity whose saved Id is new appends the saved entity and replies CREATED with it; the default Id 0 is replaced by the next identity value, which then advances, and any other Id is kept |
| CommandProcessor.CreateOfStoredIdFails | EliosPaymentService/Repositories/Implementations/KafkaConsumerRepository.cs:272-282 | CREATE whose saved Id is already stored leaves the rows unchanged and replies "Error creating entity: " with the save error; a generated Id is used up all the same |
| CommandProcessor.GeneratedCreateSucceeds | EliosPaymentService/Repositories/Implementations/KafkaConsumerRepository.cs:272-277 | while the identity sequence is above every stored int Id, a CREATE with Id 0 stores the entity under the next identity value, replies CREATED with it, and keeps the sequence ahead, so repeated creates get consecutive Ids |
| CommandProcessor.SilentCommands | EliosPaymentService/Repositories/Implementations/KafkaConsumerRepository.cs:225-244 | CREATE or UPDATE with a null payload, and unknown event types, change nothing and send nothing |
| CommandProcessor.AtMostOneOutput | EliosPaymentService/Repositories/Implementations/KafkaConsumerRepository.cs:157-219 | one message appends at most one reply or dead letter, never commits, and every reply goes to the response topic keyed by the correlation id |
| CommandProcessor.MessageKeepsUniqueKeys | EliosPaymentService/Repositories/Implementations/KafkaConsumerRepository.cs:265-344 | processing a message keeps the store's keys unique |
| CommandProcessor.PollEffect | EliosPaymentService/Repositories/Implementations/KafkaConsumerRepository.cs:106-129 | one pass of the loop body: no result or no message changes nothing; a message is processed and then its offset committed, as LoopCommitsInOrder states over a whole run |
| CommandProcessor.LoopEffect | EliosPaymentService/Repositories/Implementations/KafkaConsumerRepository.cs:100-148 | ConsumeLoopAsync until cancellation: LoopCommitsInOrder states the committed offsets, LoopKeepsUniqueKeys the store invariant, SequentialLoopNeverDeduplicates the in-flight set |
| CommandProcessor.LoopCommitsInOrder | EliosPaymentService/Repositories/Implementations/KafkaConsumerRepository.cs:104-145 | the loop commits exactly the offsets of the messages it processed, in poll order, each after its processing |
| CommandProcessor.LoopKeepsUniqueKeys | EliosPaymentService/Repositories/Implementations/KafkaConsumerRepository.cs:104-145 | the consume loop keeps the store's keys unique |
| CommandProcessor.SequentialLoopNeverDeduplicates | EliosPaymentService/Repositories/Implementations/KafkaConsumerRepository.cs:197-217 | with keys equal to correlation ids, the in-flight set is empty again after every sequential loop |
| CommandProcessor.Consumer.constructor | EliosPaymentService/Repositories/Implementations/KafkaConsumerRepository.cs:28-75 | the consumer starts with an empty in-flight set, the given rows and identity value, and empty outboxes |
| CommandProcessor.Consumer.HandleCreate | EliosPaymentService/Repositories/Implementations/KafkaConsumerRepository.cs:265-283 | the handler's new state is CreateEffect of the old one: the saved entity, with its generated Id when it was sent with Id 0, is appended and returned in the reply |
| CommandProcessor.Consumer.HandleUpdate | EliosPaymentService/Repositories/Implementations/KafkaConsumerRepository.cs:285-319 | the handler's new state is UpdateEffect of the old one |
| CommandProcessor.Consumer.HandleDelete | EliosPaymentService/Repositories/Implementations/KafkaConsumerRepository.cs:321-344 | the handler's new state is DeleteEffect of the old one |
| CommandProcessor.Consumer.HandleGetAll | EliosPaymentService/Repositories/Implementations/KafkaConsumerRepository.cs:248-254 | the handler's new state is GetAllEffect of the old one |
| CommandProcessor.Consumer.HandleGetById | EliosPaymentService/Repositories/Implementations/KafkaConsumerRepository.cs:256-263 | the handler raises with nothing changed, or its new state is GetByIdEffect of the old one |
| CommandProcessor.Consumer.ProcessEvent | EliosPaymentService/Repositories/Implementations/KafkaConsumerRepository.cs:221-246 | dispatch raises with nothing changed, or its new state is EventEffect of the old one |
| CommandProcessor.Consumer.Send | EliosPaymentService/Repositories/Implementations/KafkaResponseHandler.cs:32-126 | the only change is the outbox, which becomes Respond of the old state: the one reply appended |
| CommandProcessor.Consumer.SendToDeadLetterQueue | EliosPaymentService/Repositories/Implementations/KafkaResponseHandler.cs:128-145 | the dead-letter outbox grows by DeadLetterMessages and nothing else changes |
| CommandProcessor.Consumer.ProcessMessage | EliosPaymentService/Repositories/Implementations/KafkaConsumerRepository.cs:157-219 | the new state is MessageEffect of the old one, and the store keeps unique keys |
| CommandProcessor.Consumer.ConsumeLoop | EliosPaymentService/Repositories/Implementations/KafkaConsumerRepository.cs:100-148 | the new state is LoopEffect of the old one, and the commits grow by the processed offsets in order |
| CommandProcessor.Consumer.Dispose | EliosPaymentService/Repositories/Implementations/KafkaConsumerRepository.cs:346-359 | disposing clears the in-flight set and keeps everything else |
| TopicProvisioning.SpecificationSettings | EliosPaymentService/Repositories/Implementations/KafkaProducer.cs:81-91 | created topics have 3 partitions, replication factor 1, cleanup "delete", retention 604800000 ms and segment 86400000 ms |
| TopicProvisioning.CreateOutcome | EliosPaymentService/Repositories/Implementations/KafkaProducer.cs:105-116 | creation fails exactly on an error other than TopicAlreadyExists |
| TopicProvisioning.CheckEffect | EliosPaymentService/Repositories/Implementations/KafkaProducer.cs:54-75 | EnsureTopicExistsAsync: ProducePublishesOnce states the lookup count, the creation request and when the flag is set; FailedCreationIsRetried that a failed check leaves it clear |
| TopicProvisioning.ProduceEffect | EliosPaymentService/Repositories/Implementations/KafkaProducer.cs:43-52 | ProduceAsync: ProducePublishesOnce states that exactly one message is appended iff the check passes and the broker acknowledges it; CheckedProducerNeverChecksAgain states a run of produces once the flag is set |
| TopicProvisioning.ProducePublishesOnce | EliosPaymentService/Repositories/Implementations/KafkaProducer.cs:43-75 | a produce succeeds iff the topic check passes (or was done before) and the broker acknowledges the message; on success the message is published once, on failure nothing is; an unchecked producer looks up the metadata once and asks to create the topic iff the metadata was read and does not list it; the flag is set iff it was set or the check passed, even when the delivery then fails |
| TopicProvisioning.CheckedProducerNeverChecksAgain | EliosPaymentService/Repositories/Implementations/KafkaProducer.cs:43-69 | once the flag is set, no later produce to any topic looks up metadata or creates a topic, and exactly the acknowledged messages are published, in order |
| TopicProvisioning.FailedCreationIsRetried | EliosPaymentService/Repositories/Implementations/KafkaProducer.cs:59-69 | a check that fails, because GetMetadata throws or the creation fails, leaves the flag clear and publishes nothing, so the next produce looks up the metadata again |
| TopicProvisioning.KafkaProducer.constructor | EliosPaymentService/Repositories/Implementations/KafkaProducer.cs:17-18 | the flag starts clear and the semaphore has its one permit |
| TopicProvisioning.KafkaProducer.CreateTopic | EliosPaymentService/Repositories/Implementations/KafkaProducer.cs:77-117 | one creation request with the fixed specification, with the outcome of CreateOutcome |
| TopicProvisioning.KafkaProducer.EnsureTopicExists | EliosPaymentService/Repositories/Implementations/KafkaProducer.cs:54-75 | the new state and outcome are those of CheckEffect (a GetMetadata failure, a failed creation, or the flag set), with the permit back on every path |
| TopicProvisioning.KafkaProducer.Produce | EliosPaymentService/Repositories/Implementations/KafkaProducer.cs:43-52 | the new state and outcome are those of ProduceEffect: the check runs, then the publish, which either is acknowledged and recorded or fails with the broker's error |
| ProducerRepository.DeleteResult | EliosPaymentService/Repositories/Implementations/KafkaProducerRepository.cs:47-49 | a failed wait stays a failure; a null reply is a null id; the result is a deleted Guid iff the reply text parses, and it is the parsed Guid |
| ProducerRepository.DeletedIdRoundTrip | EliosPaymentService/Repositories/Implementations/KafkaProducerRepository.cs:47-49 | a reply carrying a Guid's text yields exactly that Guid |
| ProducerRepository.KafkaProducerRepository.constructor | EliosPaymentService/Repositories/Implementations/KafkaProducerRepository.cs:20-31 | a fresh, unchecked producer that is not disposed |
| ProducerRepository.KafkaProducerRepository.Produce | EliosPaymentService/Repositories/Implementations/KafkaProducerRepository.cs:64-93 | publishes the command envelope, keyed by the used correlation id, to `{current}-{destination}-{lower(T.Name)}`, and returns that id, or the producer's error; the id returned is the caller's when one is given, and the fresh one otherwise |
| ProducerRepository.KafkaProducerRepository.Request | EliosPaymentService/Repositories/Implementations/KafkaProducerRepository.cs:35-36 | after publishing, it waits on the response topic for the same correlation id; it returns the wait's result and no waiter remains; a failed publish returns its error without waiting |
| ProducerRepository.KafkaProducerRepository.ProduceCreate | EliosPaymentService/Repositories/Implementations/KafkaProducerRepository.cs:33-37 | CREATE with the entity as payload, answered by the entity the reply decodes to |
| ProducerRepository.KafkaProducerRepository.ProduceUpdate | EliosPaymentService/Repositories/Implementations/KafkaProducerRepository.cs:39-43 | UPDATE with the entity as payload, answered by the entity the reply decodes to |
| ProducerRepository.KafkaProducerRepository.ProduceDelete | EliosPaymentService/Repositories/Implementations/KafkaProducerRepository.cs:45-50 | DELETE with the id's text as payload; the text reply is parsed back into a Guid |
| ProducerRepository.KafkaProducerRepository.ProduceGetAll | EliosPaymentService/Repositories/Implementations/KafkaProducerRepository.cs:52-56 | GET_ALL with a null payload, answered by the decoded list |
| ProducerRepository.KafkaProducerRepository.ProduceGetById | EliosPaymentService/Repositories/Implementations/KafkaProducerRepository.cs:58-62 | GET_BY_ID with the id's text as payload, answered by the decoded entity or the default |
| ProducerRepository.KafkaProducerRepository.Dispose | EliosPaymentService/Repositories/Implementations/KafkaProducerRepository.cs:95-102 | disposing twice disposes the producer once |
| ResponseCorrelator.Resolution | EliosPaymentService/Repositories/Implementations/KafkaResponseConsumer.cs:65-68 | ERROR_RESPONSE, and only it, fails the waiter with the payload text or "Unknown error"; any other type succeeds with the payload |
| ResponseCorrelator.DecodeResult | EliosPaymentService/Repositories/Implementations/KafkaResponseConsumer.cs:96-102 | a null payload gives the default; a string request gets the text unchanged; otherwise the payload decodes to the requested shape or the call fails |
| ResponseCorrelator.SlotOutcome | EliosPaymentService/Repositories/Implementations/KafkaResponseConsumer.cs:94-102 | a resolved waiter gives a remote failure iff it was failed, and never a timeout |
| ResponseCorrelator.Answering | EliosPaymentService/Repositories/Implementations/KafkaResponseConsumer.cs:56-63 | a reply answers the waiter iff some record read carries its correlation id, and the answer carries that id |
| ResponseCorrelator.WaitResult | EliosPaymentService/Repositories/Implementations/KafkaResponseConsumer.cs:91-105 | the wait times out iff the timer wins or no reply came; otherwise it fails remotely iff the reply is ERROR_RESPONSE |
| ResponseCorrelator.Correlator.constructor | EliosPaymentService/Repositories/Implementations/KafkaResponseConsumer.cs:11-12 | empty consumer and waiter tables |
| ResponseCorrelator.Correlator.GetConsumer | EliosPaymentService/Repositories/Implementations/KafkaResponseConsumer.cs:25-47 | the first use of a topic adds its consumer and an empty waiter table; later uses change nothing |
| ResponseCorrelator.Correlator.Register | EliosPaymentService/Repositories/Implementations/KafkaResponseConsumer.cs:85-89 | the new pending waiter overwrites any waiter for the same correlation id; the other topics are unchanged |
| ResponseCorrelator.Correlator.Deliver | EliosPaymentService/Repositories/Implementations/KafkaResponseConsumer.cs:56-73 | an envelope with a correlation id is committed and, if a waiter exists, removes it and resolves it with Resolution; otherwise nothing changes and already resolved waiters stay as they were |
| ResponseCorrelator.Correlator.DeliverWhileWaiting | EliosPaymentService/Repositories/Implementations/KafkaResponseConsumer.cs:56-73 | one record read while a waiter is pending: the waiter becomes answered by the record exactly when it is the first reply carrying its correlation id, an earlier answer stays, and the record is committed iff it carries a correlation id |
| ResponseCorrelator.Correlator.DeliverAll | EliosPaymentService/Repositories/Implementations/KafkaResponseConsumer.cs:52-80 | reading a record sequence while waiting leaves the waiter answered by the first matching reply and commits every correlated envelope in order |
| ResponseCorrelator.Correlator.Finish | EliosPaymentService/Repositories/Implementations/KafkaResponseConsumer.cs:91-105 | the waiter is removed on every path; a timer win is a timeout, otherwise the waiter's resolution decides |
| ResponseCorrelator.Correlator.WaitFor | EliosPaymentService/Repositories/Implementations/KafkaResponseConsumer.cs:83-106 | the outcome is WaitResult of the first answering reply; no waiter remains for the id; the correlated envelopes are committed in order |
| RequestReply.ReplyRoundTrip | EliosPaymentService/Repositories/Implementations/KafkaResponseConsumer.cs:62-102 | every reply envelope the handler builds is decoded by the waiting requester into the answer the reply was meant to carry |
| RequestReply.DeletedReplyAnswers | EliosPaymentService/Repositories/Implementations/KafkaProducerRepository.cs:45-50 | a DELETED reply carrying an id resolves the requester's delete call to that id |
| RequestReply.TopicsAgree | EliosPaymentService/Repositories/Implementations/KafkaProducerRepository.cs:67 | the producer's command topic is the topic the destination's consumer subscribes to, and the consumer's response topic swaps the two services |
| RequestReply.DeleteEndToEnd | EliosPaymentService/Repositories/Implementations/KafkaProducerRepository.cs:45-50 | a DELETE request for a stored id removes it, and the consumer's one reply resolves the requester's call to the same id |
| RequestReply.CreateEndToEnd | EliosPaymentService/Repositories/Implementations/KafkaProducerRepository.cs:33-37 | a CREATE request appends the saved entity, which carries the next identity value when it was sent with Id 0 and is the sent entity otherwise, and the reply resolves the requester's call to that saved entity |
| RequestReply.UpdateOfAbsentIdEndToEnd | EliosPaymentService/Repositories/Implementations/KafkaProducerRepository.cs:39-43 | an UPDATE of an absent id changes nothing, and the requester's call fails with the not-found text |
| RequestReply.GetByIdEndToEnd | EliosPaymentService/Repositories/Implementations/KafkaProducerRepository.cs:58-62 | a GET_BY_ID request resolves to the stored entity, or to the default when none is stored |
| Linq.Where | EliosPaymentService/Repositories/Implementations/Repository/OrderRepository.cs:33-40 | Where keeps exactly the elements satisfying the predicate, as often as they occur |
| Linq.FirstWhere | EliosPaymentService/Repositories/Implementations/Repository/OrderRepository.cs:15-19 | FirstOrDefault finds the first element satisfying the predicate, and none iff there is none |
| Linq.Count | EliosPaymentService/Repositories/Implementations/Repository/OrderRepository.cs:57 | CountAsync is the length of the filtered sequence |
| Linq.SumAppend | EliosPaymentService/Repositories/Implementations/Repository/OrderRepository.cs:75-78 | a sum over two concatenated sequences is the sum of the two sums |
| Linq.SortBy | EliosPaymentService/Repositories/Implementations/Repository/OrderRepository.cs:42-54 | OrderBy returns a permutation of its input |
| Linq.SortByOrdered | EliosPaymentService/Repositories/Implementations/Repository/OrderRepository.cs:42-54 | OrderBy returns its input ordered by the key in the requested direction, with nulls last ascending and first descending |
| Linq.PageIsSlice | EliosPaymentService/Repositories/Implementations/Repository/OrderRepository.cs:60-63 | Skip(offset).Take(count) is the slice from offset, at most count long |
| Linq.EmptyPage | EliosPaymentService/Repositories/Implementations/Repository/OrderRepository.cs:60-63 | a page is empty exactly when the offset reaches past the end |
| Linq.OrderedPage | EliosPaymentService/Repositories/Implementations/Repository/OrderRepository.cs:60-63 | a page of an ordered sequence is ordered |
| Tables.Table.constructor | EliosPaymentService/Repositories/Implementations/Repository.cs:10-14 | an empty table whose identity starts at 1 |
| Tables.Table.Find | EliosPaymentService/Repositories/Implementations/Repository.cs:16-17 | FindAsync finds the row with that Id, none iff no row has it |
| Tables.Table.Add | EliosPaymentService/Repositories/Implementations/Repository.cs:22-28 | adding a row with the default Id stores it with the next identity and saves once |
| Tables.Table.AddRange | EliosPaymentService/Repositories/Implementations/Repository.cs:30-41 | adding a range stores the rows in order with consecutive identities and saves once |
| Tables.Table.Update | EliosPaymentService/Repositories/Implementations/Repository.cs:43-48 | updating replaces the row with that Id and saves once |
| Tables.Table.Delete | EliosPaymentService/Repositories/Implementations/Repository.cs:50-54 | deleting removes that row, keeps the others in order and saves once |
| Tables.Table.RemoveWhere | EliosPaymentService/Repositories/Implementations/OrderTransactionRepository.cs:42-43 | RemoveRange keeps exactly the rows not matching, in order, and saves once |
| Tables.KeepExactly | EliosPaymentService/Repositories/Implementations/OrderTransactionRepository.cs:36-43 | after removal, a row remains iff it was stored and does not match; nothing matching means nothing removed |
| Orders.MergeKeepsIdentity | EliosPaymentService/Services/OrderService.cs:35-80 | the merged order keeps the stored Id and UserId and takes every other listed field from the update |
| Orders.MergeIdempotent | EliosPaymentService/Services/OrderService.cs:35-80 | merging the same update twice equals merging it once |
| Orders.MergeOrder | EliosPaymentService/Services/OrderService.cs:35-80 | the property copy of UpdateAsync; MergeKeepsIdentity states that it keeps Id and UserId and takes every listed field from the update, MergeIdempotent that it is idempotent |
| OrderRepository.GetByOrderCode | EliosPaymentService/Repositories/Implementations/Repository/OrderRepository.cs:15-16 | a stored order with the code whose status is Pending or Processing, and none iff there is no such order |
| OrderRepository.GetByPaymentLinkId | EliosPaymentService/Repositories/Implementations/Repository/OrderRepository.cs:18-19 | a stored order with that payment-link id, and none iff there is none |
| OrderRepository.SortFieldFor | EliosPaymentService/Repositories/Implementations/Repository/OrderRepository.cs:43-54 | "orderdate" sorts by OrderDate and "amount" by Amount, case-insensitively; anything else by CreatedAt |
| OrderRepository.SortFieldIgnoresCase | EliosPaymentService/Repositories/Implementations/Repository/OrderRepository.cs:43 | the sort field does not depend on the letter case of sortBy |
| OrderRepository.UserOrders | EliosPaymentService/Repositories/Implementations/Repository/OrderRepository.cs:33-40 | exactly the user's orders, with the given status when one is supplied |
| OrderRepository.Offset | EliosPaymentService/Repositories/Implementations/Repository/OrderRepository.cs:61 | the exact offset of a valid page is nonnegative |
| OrderRepository.GetByUserIdPage | EliosPaymentService/Repositories/Implementations/Repository/OrderRepository.cs:42-63 | the page is the slice of the sorted, filtered orders from (page-1)*limit, at most limit long, ordered by the chosen key |
| OrderRepository.GetByUserIdTotal | EliosPaymentService/Repositories/Implementations/Repository/OrderRepository.cs:56-57 | the sorted list is a permutation of the filtered orders, and TotalCount is their number |
| OrderRepository.GetByUserId | EliosPaymentService/Repositories/Implementations/Repository/OrderRepository.cs:24-66 | GetByUserIdAsync's page and TotalCount: GetByUserIdPage states the page is the sorted slice at (page-1)*limit, GetByUserIdTotal that TotalCount is the filtered count, GetByUserIdFilters that each order on the page is the user's with the status |
| OrderRepository.Int32 | EliosPaymentService/Repositories/Implementations/Repository/OrderRepository.cs:61 | 32-bit int arithmetic: the value is in range and congruent to the exact one modulo 2^32 |
| OrderRepository.OffsetWraps | EliosPaymentService/Repositories/Implementations/Repository/OrderRepository.cs:61 | for page 21474838 and limit 100 the exact offset is 2147483700 but the int offset wraps to -2147483596 |
| OrderRepository.GetByUserId32 | EliosPaymentService/Repositories/Implementations/Repository/OrderRepository.cs:60-63 | the query as written, with the 32-bit offset, fails with the database's negative-OFFSET error exactly when that offset is negative |
| OrderRepository.GetByUserId32AgreesBelowWrap | EliosPaymentService/Repositories/Implementations/Repository/OrderRepository.cs:60-63 | while (page-1)*limit fits in an int, the query as written returns what the exact query does |
| OrderRepository.OffsetWrapFailsQuery | EliosPaymentService/Repositories/Implementations/Repository/OrderRepository.cs:60-63 | page 21474838 with limit 100 makes the query as written fail on the negative OFFSET, whereas the exact offset gives an empty page for any user with fewer than 2147483700 orders |
| OrderRepository.EmptyPageIffPastTotal | EliosPaymentService/Repositories/Implementations/Repository/OrderRepository.cs:56-63 | a page is empty exactly when its offset reaches the total count |
| OrderRepository.GetByUserIdFilters | EliosPaymentService/Repositories/Implementations/Repository/OrderRepository.cs:33-40 | every order on a page is stored, belongs to the user and has the requested status |
| OrderRepository.TotalIgnoresPaging | EliosPaymentService/Repositories/Implementations/Repository/OrderRepository.cs:56-57 | TotalCount does not depend on page or limit |
| OrderRepository.SpentIsPaidTotal | EliosPaymentService/Repositories/Implementations/Repository/OrderRepository.cs:75-78 | TotalSpent is the sum of AmountPaid over the user's Paid orders |
| OrderRepository.StatusNamesDistinct | EliosPaymentService/Repositories/Implementations/Repository/OrderRepository.cs:84 | distinct statuses have distinct names, so the dictionary keys are unambiguous |
| OrderRepository.CountPositive | EliosPaymentService/Repositories/Implementations/Repository/OrderRepository.cs:82-85 | a status's count is positive iff some order has that status |
| OrderRepository.CountedStatuses | EliosPaymentService/Repositories/Implementations/Repository/OrderRepository.cs:80-86 | a status name is a key of OrderCountByStatus iff the user has an order with that status |
| OrderRepository.CountsByStatus | EliosPaymentService/Repositories/Implementations/Repository/OrderRepository.cs:80-86 | each key's count is the number of the user's orders with that status |
| OrderRepository.CountsSumToOrderCount | EliosPaymentService/Repositories/Implementations/Repository/OrderRepository.cs:80-86 | the per-status counts sum to the number of orders |
| OrderRepository.GetStatistics | EliosPaymentService/Repositories/Implementations/Repository/OrderRepository.cs:68-93 | GetStatisticsByUserIdAsync: SpentIsPaidTotal states TotalSpent, CountedStatuses the keys of OrderCountByStatus, CountsByStatus their values and CountsSumToOrderCount their sum |
| OrderTransactions.GetByOrderId | EliosPaymentService/Repositories/Implementations/OrderTransactionRepository.cs:16-20 | exactly the transactions of the order, as often as stored, newest first |
| OrderTransactions.GetByOrderCode | EliosPaymentService/Repositories/Implementations/OrderTransactionRepository.cs:22-26 | exactly the transactions with the order code, newest first |
| OrderTransactions.GetByPaymentLinkId | EliosPaymentService/Repositories/Implementations/OrderTransactionRepository.cs:28-32 | exactly the transactions of the payment link, newest first |
| OrderTransactions.DeletedOrderHasNoTransactions | EliosPaymentService/Repositories/Implementations/OrderTransactionRepository.cs:34-44 | after deleting an order's transactions, querying that order finds none |
| OrderTransactions.DeleteKeepsOtherOrders | EliosPaymentService/Repositories/Implementations/OrderTransactionRepository.cs:34-44 | deleting one order's transactions leaves every other order's query result unchanged |
| OrderTransactions.OrderTransactionRepository.DeleteByOrderId | EliosPaymentService/Repositories/Implementations/OrderTransactionRepository.cs:34-44 | removes all and only the order's transactions, keeps the rest in order, and saves only when something matched |
| OrderTransactions.OrderTransactionService.CreateTransaction | EliosPaymentService/Services/OrderTransactionService.cs:19-23 | the Id is reset to 0, so the transaction is stored with the next identity |
| OrderTransactions.OrderTransactionService.CreateTransactions | EliosPaymentService/Services/OrderTransactionService.cs:25-34 | the elements are added in order in one save with consecutive identities, and each caller's element ends up carrying its generated Id |
| OrderTransactions.OrderTransactionService.DeleteTransactionsByOrderId | EliosPaymentService/Services/OrderTransactionService.cs:36-40 | delegates the delete and always returns true |
| OrderInvoices.GetByInvoiceId | EliosPaymentService/Repositories/Implementations/Repository/OrderInvoiceRepository.cs:16-17 | a stored invoice with that InvoiceId, and none iff there is none |
| OrderInvoices.GetByOrderId | EliosPaymentService/Repositories/Implementations/Repository/OrderInvoiceRepository.cs:19-23 | exactly the order's invoices, latest IssuedDatetime first |
| OrderInvoices.GetByOrderCode | EliosPaymentService/Repositories/Implementations/Repository/OrderInvoiceRepository.cs:25-29 | exactly the invoices with the order code, latest first |
| OrderInvoices.GetByPaymentLinkId | EliosPaymentService/Repositories/Implementations/Repository/OrderInvoiceRepository.cs:31-35 | exactly the invoices of the payment link, latest first |
| OrderInvoices.DeletedOrderHasNoInvoices | EliosPaymentService/Repositories/Implementations/Repository/OrderInvoiceRepository.cs:37-47 | after deleting an order's invoices, querying that order finds none |
| OrderInvoices.DeleteKeepsOtherOrders | EliosPaymentService/Repositories/Implementations/Repository/OrderInvoiceRepository.cs:37-47 | deleting one order's invoices leaves every other order's query result unchanged |
| OrderInvoices.OrderInvoiceRepository.DeleteByOrderId | EliosPaymentService/Repositories/Implementations/Repository/OrderInvoiceRepository.cs:37-47 | removes exactly the order's invoices, keeps the rest in order, and saves only when something matched |
| OrderInvoices.OrderInvoiceService.CreateInvoices | EliosPaymentService/Services/OrderInvoiceService.cs:22-31 | the invoices are added in order in one save with consecutive identities, and each caller's invoice ends up carrying its generated Id |
| OrderInvoices.OrderInvoiceService.DeleteInvoicesByOrderId | EliosPaymentService/Services/OrderInvoiceService.cs:33-37 | delegates the delete and always returns true |
| OrderServices.OrderService.Create | EliosPaymentService/Services/OrderService.cs:19-24 | the Id is reset to 0 so the order is stored with the next identity, saved once, and findable by it |
| OrderServices.OrderService.Update | EliosPaymentService/Services/OrderService.cs:26-84 | false with nothing written iff no order has the Id; otherwise exactly that row becomes the merge, one save, and true |
| OrderServices.OrderService.Delete | EliosPaymentService/Services/OrderService.cs:86-96 | false with nothing deleted iff the Id is unknown; otherwise exactly that order is gone, one save, and true |
| OrderApi.TotalPages | EliosPaymentService/Controllers/OrderController.cs:72 | TotalPages is the ceiling of totalCount / limit |
| OrderApi.TotalPagesExamples | EliosPaymentService.Tests/Controllers/OrderControllerTests.cs:157 | an example from the tests: 25 orders with limit 10 make 3 pages, and 0 orders make 0 pages |
| OrderApi.PagesBeforeTotal | EliosPaymentService/Controllers/OrderController.cs:72 | a page's offset is below the total count iff the page is at most TotalPages |
| OrderApi.GetByUserId | EliosPaymentService/Controllers/OrderController.cs:35-84 | page < 1 and a limit outside [1,100] are refused with their BadRequest messages, in that order; a service error is a 500; otherwise the data is the slice of the user's filtered, sorted orders at offset (page-1)*limit, at most limit long and ordered by the chosen column; the metadata echoes page and limit with the total count and TotalPages of it; the statistics are GetStatistics of all the user's orders |
| OrderApi.WrappedPageIsServerError | EliosPaymentService/Controllers/OrderController.cs:44-82 | page 21474838 with limit 100 passes both checks, the query as written fails, and the endpoint answers 500 with the database's error, where the exact offset gives a successful empty page |
| OrderApi.LimitBoundsAccepted | EliosPaymentService.Tests/Controllers/OrderControllerTests.cs:278-305 | an example from the tests: limits 1 and 100 are accepted |
| OrderApi.PageWithinTotalPages | EliosPaymentService/Controllers/OrderController.cs:64-73 | a returned page has data iff its number is at most TotalPages |
| OrderApi.LinkedOrder | EliosPaymentService/Controllers/OrderController.cs:89-93 | NotFound iff the order is missing or has no PaymentLinkId; otherwise the stored order with that Id |
| OrderApi.InvoiceToDownload | EliosPaymentService/Controllers/OrderController.cs:353-364 | NotFound for a missing or unlinked order; "Invoice not found for this order" iff no invoice of the order has the InvoiceId; otherwise the first invoice with that InvoiceId in the order's latest-issued-first list |
| OrderApi.NewOrder | EliosPaymentService/Controllers/OrderController.cs:155-240 | the new order belongs to the header's user, has AmountPaid 0 and AmountRemaining equal to Amount, the request's return and cancel URLs or the default ones when absent, OrderDate left at its default and CreatedAt the current time, the link's id and status, and one item per requested item |
| OrderApi.BadHeadersRejected | EliosPaymentService.Tests/Controllers/OrderControllerTests.cs:399-468 | an example from the tests: an empty header and "invalid-guid" are not Guids |
| OrderApi.OrderController.CreatePayment | EliosPaymentService/Controllers/OrderController.cs:143-249 | a null request, invalid model state, a non-Guid user header and a gateway error are refused in that order, with nothing stored; otherwise exactly the new order, with its OrderDate at the default, is stored and returned with its Id |

## Left out

- Kafka client plumbing is not modelled: consumer, producer and admin-client construction and configs, poll timeouts, `Task.Run`, the `Task.Delay` back-offs and cancellation sources. The consume loops are sequences of polls or records. The 30-second timer and cancellation are one boolean, "the timer finished first".
- Concurrency is not modelled. This covers the race between TryGetValue and the insert in `GetConsumer`, and use of the waiter tables from several threads. A reply that arrives before its waiter registers is not modelled either.
- System.Text.Json is not modelled. Serialising an envelope is the identity. Parsing a message body is a `decode` function the consumer is given, and JSON decoding of a result is a match on the payload's shape.
- The reflection-based property copy in `HandleUpdate` is the explicit `EntityStore.Merge`: the Id is kept, settable properties are copied, get-only ones are kept.
- Guid.NewGuid, DateTime.UtcNow and event ids are parameters: `Fresh`, `newId`, `eventId`, `now`.
- The PayOS gateway calls in `OrderController` are not modelled. `CreatePayment` takes the gateway's outcome as a parameter; the other gateway calls are left out with their endpoints.
- The payment-link request's description and item mapping is not modelled, and neither are the `Get`/`Cancel` endpoints' refresh of the order from gateway data. Only their not-found guards are modelled, by `OrderApi.LinkedOrder`.
- The mapping of gateway data into transactions and invoices is not modelled.
- Entity Framework is a `Table` class holding rows in insertion order, an identity counter and a save counter. Change tracking, detaching and database exceptions other than the modelled ones are not modelled.
- OrderBy sorts a null key above every value, as PostgreSQL does by default: nulls come last ascending and first descending. Equal keys keep storage order, where the database leaves their order unspecified.
- The getters of `OrderService`, `OrderTransactionService` and `OrderInvoiceService` only delegate. The model uses the repository functions and `Table.Find` directly.
- ASP.NET model validation is a boolean parameter of `CreatePayment`.
- Guid text: only the "D" format is parsed. Lowering is ASCII-only, with no culture-specific case mapping. White space is the fixed set `char.IsWhiteSpace` accepts, over code points rather than UTF-16 units.
- Guids.ParseGuid: surrounding white space is not trimmed, although `Guid.Parse` and `Guid.TryParse` trim it first, so a padded Guid is refused here where the runtime accepts it.
- CommandProcessor.FaultText: the exception messages are representative, not the runtime's exact texts. `Guid.Parse` words each format error differently, the .NET Core unbox names both types, `DbUpdateException` adds " See the inner exception for details." and `JsonException` names the type and the JSON path. Only which fault occurs, and the reply built around its text, is stated.
- `Math.Ceiling(totalCount / (double)limit)` is exact integer ceiling division, since the counts are far below 2^53.
- Integer widths are unbounded except for the paging offset of the finding below.
- The one-second delay after an exception in the response consumer is not modelled. A record whose read or parse throws (`Unreadable`) is neither committed nor delivered, as in the source.
- The response handler's Flush on dispose is not modelled.
- The consumer's status logging (`Console.WriteLine`) is not modelled.
- `CommandProcessor.CreateEffect`, `UpdateEffect`, `DeleteEffect`, `GetAllEffect`, `GetByIdEffect` and `EventEffect` state only the shared invariants in their own contracts. The per-command behaviour is stated by the lemmas `CreateStores`, `UpdateOfAbsentId`, `UpdateOfStoredId`, `DeleteOfStoredId`, `DeleteOfAbsentId`, `GetAllReplies`, `GetByIdReplies` and `SilentCommands`.
- `OrderApi.GetByUserId` uses the exact offset (the corrected definition of the finding), not the source's 32-bit one; `OrderApi.WrappedPageIsServerError` shows what the 32-bit one does.
- CommandProcessor.CreateEffect: an entity with a Guid Id keeps it as sent, even the empty Guid, for which Entity Framework would generate a new one. The only bound entity, Order, has an int identity, which is modelled.
- CommandProcessor.Respond: the consumer's replies are assumed to be delivered. In the source a failed CREATED, UPDATED or DELETED publish is caught by the handler and followed by an ERROR_RESPONSE, after the store has changed; a failed GET_ALL or GET_BY_ID reply escapes to the dead-letter path. Delivery failure is modelled only for the requester's producer (`TopicProvisioning.Broker`).
- CommandProcessor.DeleteEffect: the generic repository behind `GetByIdAsync(object)` is not part of this model. A Guid looked up in a store keyed by int is treated as not found; a lookup that throws on the key-type mismatch would instead reply "Error deleting entity: …".
- CommandProcessor.DeleteOfAbsentId: as for DeleteEffect, an absent Guid is assumed to be reported as not found, not to throw.
- CommandProcessor.GetByIdEffect: a Guid looked up in a store keyed by int is treated as not found, giving a null reply; a lookup that throws on the mismatch would send the message to the dead-letter path instead.
- CommandProcessor.GetByIdReplies: as for GetByIdEffect, the lookup is assumed not to throw on a key-type mismatch.

## Findings

| source | as written | input that shows it | evidently intended | confidence | as-written member | corrected member |
|---|---|---|---|---|---|---|
| EliosPaymentService/Repositories/Implementations/Repository/OrderRepository.cs:61 | the offset `(page - 1) * limit` is computed in 32-bit `int`, and the controller bounds only the page from below and the limit to [1,100] | page 21474838, limit 100: the offset wraps to -2147483596, PostgreSQL rejects the negative OFFSET, and the endpoint answers 500 "Failed to retrieve orders for user …" | the exact offset 2147483700, which lies past every order and gives a successful empty page | not executed | OrderRepository.OffsetWrapFailsQuery | OrderRepository.EmptyPageIffPastTotal |
