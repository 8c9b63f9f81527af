/** MemphisClient (src/Memphis.Client/MemphisClient.cs): the connection-wide state a producer
    or consumer is created against. The broker request, the schema-update subscription's reader
    task and the cancellation token are left to the environment; the broker's answer to a
    creation request is a parameter, and so is the random suffix GetUniqueKey would produce. */
module Client {
  import opened Wrappers
  import opened Errors
  import opened Text
  import opened Services
  import opened SchemaRegistry
  import Broker
  import ConsumerSpec
  import Consumer
  import MemphisConstants

  /** The message every creation failure is wrapped in; the consumer path reuses the
      producer's wording. */
  const CREATE_FAILED: string := "Failed to create memphis producer"

  /** The CreateProducerRequest sent to the producer-creation station. */
  datatype CreateProducerRequest = CreateProducerRequest(
    producerName: string, stationName: string, connectionId: string, producerType: string, requestVersion: int)

  /** The CreateConsumerRequest sent to the consumer-creation station. */
  datatype CreateConsumerRequest = CreateConsumerRequest(
    consumerName: string, stationName: string, connectionId: string, consumerType: string, consumerGroup: string)

  /** The broker's answer to a producer-creation request: the request itself failed, or a
      CreateProducerResponse with its error text and schema init (either may be null). */
  datatype ProducerCreationReply =
    | ProducerRequestFailed(failure: MemphisError)
    | ProducerCreationResponse(responseError: Option<string>, schemaUpdate: Option<SchemaUpdateInit>)

  /** The arguments CreateProducer hands to `new MemphisProducer`: the final producer name and
      the station name as the caller wrote it. */
  datatype ProducerConstruction = ProducerConstruction(producerName: string, stationName: string)

  /** A producer or consumer name, with `_<unique key>` appended when a random suffix is asked for. */
  function Suffixed(name: string, generateRandomSuffix: bool, uniqueKey: string): (r: string)
    ensures !generateRandomSuffix ==> r == name
    ensures generateRandomSuffix ==>
      && |r| == |name| + 1 + |uniqueKey|
      && r[..|name|] == name && r[|name|] == '_' && r[|name| + 1..] == uniqueKey
  {
    if generateRandomSuffix then name + "_" + uniqueKey else name
  }

  /** The consumer group: the consumer's name when the group was left empty. */
  function DefaultGroup(group: string, consumerName: string): (r: string)
    ensures group != "" ==> r == group
    ensures group == "" ==> r == consumerName
  {
    if IsNullOrEmpty(Some(group)) then consumerName else group
  }

  /** CreateProducer after its connection check, on the bookkeeping: a failed request, an error
      in the response and a null schema init (which listenForSchemaUpdate dereferences) all
      fail wrapped and leave the bookkeeping as it was; otherwise listenForSchemaUpdate runs for
      the station and the producer is built. */
  function ProducerCreation(connectionActive: bool, registry: Registry, services: ClientServices,
                            stationName: string, producerName: string, reply: ProducerCreationReply)
    : (r: (Registry, Result<ProducerConstruction, MemphisError>))
    ensures !connectionActive ==> r == (registry, Failure(ConnectionDead))
    ensures r.1.Failure? ==> r.0 == registry
    ensures connectionActive && r.1.Failure? ==> r.1.error.Wrapped? && r.1.error.message == CREATE_FAILED
    ensures r.1.Success? <==>
      connectionActive && reply.ProducerCreationResponse? && IsNullOrEmpty(reply.responseError) && reply.schemaUpdate.Some?
    ensures r.1.Success? ==>
      var internal := services.internalName(stationName);
      && r.1.value == ProducerConstruction(producerName, stationName)
      && ProducerCount(r.0, internal) == ProducerCount(registry, internal) + 1
      && (forall s :: s != internal ==> ProducerCount(r.0, s) == ProducerCount(registry, s))
      && internal in r.0.subscriptions
      && (forall s :: s in registry.subscriptions ==> s in r.0.subscriptions && r.0.subscriptions[s] == registry.subscriptions[s])
      && (forall s :: s in registry.schemaUpdates ==> s in r.0.schemaUpdates && r.0.schemaUpdates[s] == registry.schemaUpdates[s])
  {
    if !connectionActive then (registry, Failure(ConnectionDead))
    else match reply
      case ProducerRequestFailed(e) => (registry, Failure(Wrapped(CREATE_FAILED, e)))
      case ProducerCreationResponse(error, schemaUpdate) =>
        if !IsNullOrEmpty(error) then (registry, Failure(Wrapped(CREATE_FAILED, Memphis(error.value))))
        else if schemaUpdate.None? then (registry, Failure(Wrapped(CREATE_FAILED, NullSchemaUpdate)))
        else (Listen(registry, services.internalName(stationName), schemaUpdate.value),
              Success(ProducerConstruction(producerName, stationName)))
  }

  /** Why CreateConsumer fails, if it does: a dead connection, a failed request, a non-empty
      reply, or options the consumer's constructor rejects; all but the first are wrapped. */
  function ConsumerCreationFailure(connectionActive: bool, reply: Broker.Reply, startConsumeFromSequence: int,
                                   lastMessages: int): (r: Option<MemphisError>)
    ensures r.None? <==>
      connectionActive && reply == Broker.Reply("")
      && ConsumerSpec.CheckConsumerOptions(startConsumeFromSequence, lastMessages) == Pass
    ensures !connectionActive ==> r == Some(ConnectionDead)
    ensures connectionActive && r.Some? ==> r.value.Wrapped? && r.value.message == CREATE_FAILED
    ensures connectionActive && reply.Reply? && reply.data != "" ==> r == Some(Wrapped(CREATE_FAILED, Memphis(reply.data)))
  {
    if !connectionActive then Some(ConnectionDead)
    else match reply
      case RequestFailed(e) => Some(Wrapped(CREATE_FAILED, e))
      case Reply(data) =>
        if !IsNullOrEmpty(Some(data)) then Some(Wrapped(CREATE_FAILED, Memphis(data)))
        else match ConsumerSpec.CheckConsumerOptions(startConsumeFromSequence, lastMessages)
          case Pass => None
          case Fail(e) => Some(Wrapped(CREATE_FAILED, e))
  }

  class MemphisClient {
    /** The members of the client that producers and consumers call. */
    const services: ClientServices
    /** PrefetchedMessages, shared by the client's consumers. */
    const prefetched: Consumer.PrefetchCache
    var connectionActive: bool
    /** Whether the client's cancellation token has been cancelled. */
    var cancelled: bool
    /** _schemaUpdateDictionary */
    var schemaUpdates: map<string, SchemaUpdateInit>
    /** _subscriptionPerSchema, each subscription given by the subject it listens on */
    var subscriptions: map<string, string>
    /** _producerPerStations */
    var producerCounts: map<string, nat>

    /** The bookkeeping as a value. */
    function Bookkeeping(): Registry
      reads this
    {
      Registry(schemaUpdates, subscriptions, producerCounts)
    }

    /** Every subscription listens on its station's schema-update subject. */
    predicate Valid()
      reads this
    {
      forall s :: s in subscriptions ==> subscriptions[s] == MemphisConstants.SchemaUpdateSubject(s)
    }

    /** The constructor: an active connection and no bookkeeping yet. */
    constructor (services: ClientServices, prefetched: Consumer.PrefetchCache)
      ensures Valid()
      ensures this.services == services && this.prefetched == prefetched
      ensures connectionActive && !cancelled && Bookkeeping() == EMPTY
    {
      this.services := services;
      this.prefetched := prefetched;
      connectionActive := true;
      cancelled := false;
      schemaUpdates := map[];
      subscriptions := map[];
      producerCounts := map[];
    }

    /** listenForSchemaUpdate. A null init fails before anything changes. */
    method ListenForSchemaUpdate(internalStation: string, init: Option<SchemaUpdateInit>) returns (r: Outcome<MemphisError>)
      requires Valid()
      modifies this
      ensures Valid()
      ensures init.None? ==> r == Fail(NullSchemaUpdate) && Bookkeeping() == old(Bookkeeping())
      ensures init.Some? ==> r == Pass && Bookkeeping() == Listen(old(Bookkeeping()), internalStation, init.value)
      ensures connectionActive == old(connectionActive) && cancelled == old(cancelled)
    {
      if init.None? {
        return Fail(NullSchemaUpdate);
      }
      if !IsNullOrEmpty(init.value.schemaName) && internalStation !in schemaUpdates {
        schemaUpdates := schemaUpdates[internalStation := init.value];
      }
      var count := if internalStation in producerCounts then producerCounts[internalStation] else 0;
      if internalStation in subscriptions {
        producerCounts := producerCounts[internalStation := count + 1];
        return Pass;
      }
      subscriptions := subscriptions[internalStation := MemphisConstants.SchemaUpdateSubject(internalStation)];
      producerCounts := producerCounts[internalStation := count + 1];
      return Pass;
    }

    /** processAndStoreSchemaUpdate, for the init a schema-update message carries. */
    method ProcessAndStoreSchemaUpdate(internalStation: string, update: Option<SchemaUpdateInit>)
      returns (r: Outcome<MemphisError>)
      requires Valid()
      modifies this
      ensures Valid()
      ensures (Bookkeeping(), r) == Store(old(Bookkeeping()), internalStation, update)
      ensures connectionActive == old(connectionActive) && cancelled == old(cancelled)
    {
      if update.Some? && !IsNullOrEmpty(update.value.schemaName) {
        if internalStation in schemaUpdates {
          return Fail(UnableToSaveSchemaData);
        }
        schemaUpdates := schemaUpdates[internalStation := update.value];
      }
      return Pass;
    }

    /** CreateProducer. `request` is the creation request sent to the broker, if one was. */
    method CreateProducer(stationName: string, producerName: string, generateRandomSuffix: bool,
                          uniqueKey: string, reply: ProducerCreationReply)
      returns (request: Option<CreateProducerRequest>, r: Result<ProducerConstruction, MemphisError>)
      requires Valid()
      modifies this
      ensures Valid()
      ensures request == if old(connectionActive) then
        Some(CreateProducerRequest(Suffixed(producerName, generateRandomSuffix, uniqueKey),
                                   services.internalName(stationName), services.connectionId, "application", 1))
        else None
      ensures (Bookkeeping(), r) == ProducerCreation(old(connectionActive), old(Bookkeeping()), services, stationName,
                                                     Suffixed(producerName, generateRandomSuffix, uniqueKey), reply)
      ensures connectionActive == old(connectionActive) && cancelled == old(cancelled)
    {
      if !connectionActive {
        return None, Failure(ConnectionDead);
      }
      var name := producerName;
      if generateRandomSuffix {
        name := producerName + "_" + uniqueKey;
      }
      var internal := services.internalName(stationName);
      request := Some(CreateProducerRequest(name, internal, services.connectionId, "application", 1));
      match reply {
        case ProducerRequestFailed(e) =>
          return request, Failure(Wrapped(CREATE_FAILED, e));
        case ProducerCreationResponse(error, schemaUpdate) =>
          if !IsNullOrEmpty(error) {
            return request, Failure(Wrapped(CREATE_FAILED, Memphis(error.value)));
          }
          var listened := ListenForSchemaUpdate(internal, schemaUpdate);
          if listened.Fail? {
            return request, Failure(Wrapped(CREATE_FAILED, listened.error));
          }
          r := Success(ProducerConstruction(name, stationName));
      }
    }

    /** CreateConsumer. The random suffix and the default group are written into the caller's
        options before the request is sent; `order` is the order the new consumer's partition
        resolver yields partitions in. */
    method CreateConsumer(options: Consumer.ConsumerOptions, uniqueKey: string, reply: Broker.Reply, order: nat -> int)
      returns (request: Option<CreateConsumerRequest>, r: Result<Consumer.MemphisConsumer, MemphisError>)
      modifies options
      ensures !old(connectionActive) ==>
        request == None && r == Failure(ConnectionDead) && options.consumerName == old(options.consumerName)
        && options.consumerGroup == old(options.consumerGroup)
      ensures old(connectionActive) ==>
        && options.consumerName == Suffixed(old(options.consumerName), options.generateRandomSuffix, uniqueKey)
        && options.consumerGroup == DefaultGroup(old(options.consumerGroup), options.consumerName)
        && request == Some(CreateConsumerRequest(options.consumerName, options.stationName, services.connectionId,
                                                 "application", options.consumerGroup))
      ensures options.stationName == old(options.stationName) && options.realName == old(options.realName)
      ensures options.startConsumeFromSequence == old(options.startConsumeFromSequence)
      ensures options.lastMessages == old(options.lastMessages) && options.batchSize == old(options.batchSize)
      ensures options.generateRandomSuffix == old(options.generateRandomSuffix)
      ensures r.Failure? <==> ConsumerCreationFailure(connectionActive, reply, options.startConsumeFromSequence, options.lastMessages).Some?
      ensures r.Failure? ==> Some(r.error) == ConsumerCreationFailure(connectionActive, reply, options.startConsumeFromSequence, options.lastMessages)
      ensures r.Success? ==>
        && fresh(r.value) && r.value.Valid() && r.value.options == options && r.value.cache == prefetched
        && r.value.services == services && r.value.partitions == [] && r.value.dlsMessages == []
        && r.value.subscriptionActive
    {
      if !connectionActive {
        return None, Failure(ConnectionDead);
      }
      if options.generateRandomSuffix {
        options.consumerName := options.consumerName + "_" + uniqueKey;
      }
      if IsNullOrEmpty(Some(options.consumerGroup)) {
        options.consumerGroup := options.consumerName;
      }
      request := Some(CreateConsumerRequest(options.consumerName, options.stationName, services.connectionId,
                                            "application", options.consumerGroup));
      match reply {
        case RequestFailed(e) =>
          return request, Failure(Wrapped(CREATE_FAILED, e));
        case Reply(data) =>
          if !IsNullOrEmpty(Some(data)) {
            return request, Failure(Wrapped(CREATE_FAILED, Memphis(data)));
          }
          var created := Consumer.NewMemphisConsumer(services, prefetched, options, None, order);
          if created.Failure? {
            return request, Failure(Wrapped(CREATE_FAILED, created.error));
          }
          r := created;
      }
    }

    /** Dispose: cancel the token and mark the connection dead; later creations fail. */
    method Dispose()
      modifies this
      ensures cancelled && !connectionActive
      ensures Bookkeeping() == old(Bookkeeping())
    {
      cancelled := true;
      connectionActive := false;
    }
  }

  /** MemphisConsumer.Dispose as written: the consumer's part runs first, and only when it did not
      throw is the client the consumer belongs to disposed, so that every later creation on it
      fails. A consumer that never subscribed to its dead-letter subject throws and leaves the
      client connected. */
  method DisposeConsumer(consumer: Consumer.MemphisConsumer, client: MemphisClient) returns (r: Outcome<MemphisError>)
    modifies consumer, client
    ensures !consumer.subscriptionActive
    ensures r.Fail? <==> !old(consumer.dlsSubscribed)
    ensures r.Fail? ==>
      && r.error == NullDlsSubscription
      && consumer.cancelled == old(consumer.cancelled)
      && client.cancelled == old(client.cancelled) && client.connectionActive == old(client.connectionActive)
    ensures r.Pass? ==> consumer.cancelled && client.cancelled && !client.connectionActive
    ensures consumer.dlsMessages == old(consumer.dlsMessages) && consumer.contexts == old(consumer.contexts)
    ensures client.Bookkeeping() == old(client.Bookkeeping())
  {
    r := consumer.Dispose();
    if r.Pass? {
      client.Dispose();
    }
  }

  /** MemphisConsumer.Dispose as evidently intended: the consumer is stopped and cancelled and its
      client disposed whether or not a dead-letter subscription was made. */
  method DisposeConsumerIntended(consumer: Consumer.MemphisConsumer, client: MemphisClient)
    modifies consumer, client
    ensures !consumer.subscriptionActive && consumer.cancelled
    ensures client.cancelled && !client.connectionActive
    ensures consumer.dlsMessages == old(consumer.dlsMessages) && consumer.contexts == old(consumer.contexts)
    ensures client.Bookkeeping() == old(client.Bookkeeping())
  {
    consumer.DisposeIntended();
    client.Dispose();
  }
}
