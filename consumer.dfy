/** The consumer object of src/Memphis.Client/Consumer/MemphisConsumer.cs. Its fields are
    updated in place, as in the source; every method is proved against the value-level
    definitions of module ConsumerSpec. */
module Consumer {
  import opened Wrappers
  import opened Errors
  import opened Text
  import opened ConsumerSpec
  import MemphisConstants
  import Broker
  import Partitioning
  import opened Services

  /** The consumer options the client and the consumer both update (ConsumerOptions /
      MemphisConsumerOptions). */
  class ConsumerOptions {
    var stationName: string
    var consumerName: string
    var consumerGroup: string
    var realName: string
    var startConsumeFromSequence: int
    var lastMessages: int
    var batchSize: int
    var generateRandomSuffix: bool

    constructor (stationName: string, consumerName: string, consumerGroup: string,
                 startConsumeFromSequence: int, lastMessages: int, batchSize: int, generateRandomSuffix: bool)
      ensures this.stationName == stationName && this.consumerName == consumerName
      ensures this.consumerGroup == consumerGroup && this.realName == ""
      ensures this.startConsumeFromSequence == startConsumeFromSequence && this.lastMessages == lastMessages
      ensures this.batchSize == batchSize && this.generateRandomSuffix == generateRandomSuffix
    {
      this.stationName := stationName;
      this.consumerName := consumerName;
      this.consumerGroup := consumerGroup;
      this.realName := "";
      this.startConsumeFromSequence := startConsumeFromSequence;
      this.lastMessages := lastMessages;
      this.batchSize := batchSize;
      this.generateRandomSuffix := generateRandomSuffix;
    }
  }

  /** The client's PrefetchedMessages dictionary, shared by every consumer of the client. */
  class PrefetchCache {
    var entries: Cache

    constructor ()
      ensures entries == map[]
    {
      entries := map[];
    }
  }

  /** The request DestroyAsync sends to the consumer-destruction subject. */
  datatype RemoveConsumerRequest = RemoveConsumerRequest(subject: string, consumerName: string, stationName: string)

  /** The partition count the resolver is built over: one for an unpartitioned station. */
  function ResolverPartitionCount(partitions: seq<int>): (n: nat)
    ensures n >= 1
    ensures |partitions| > 0 ==> n == |partitions|
  {
    if |partitions| == 0 then 1 else |partitions|
  }

  class MemphisConsumer {
    /** The members of the client the consumer calls. */
    const services: ClientServices
    /** The client's prefetch cache. */
    const cache: PrefetchCache
    /** The options the consumer was created with; Fetch records its batch size here. */
    const options: ConsumerOptions
    const internalStationName: string
    var partitions: seq<int>
    var resolver: Partitioning.StationPartitionResolver
    /** The consumer contexts by partition number (_consumerContexts). */
    var contexts: map<int, ConsumerContext>
    /** The dead-letter buffer, oldest first (_dlsMessages). */
    var dlsMessages: seq<MemphisMessage>
    var subscriptionActive: bool
    /** Whether ConsumeFromDls has subscribed to the dead-letter subject (_dlsSubscription is
        no longer null). */
    var dlsSubscribed: bool
    /** Whether the consumer's cancellation token has been cancelled. */
    var cancelled: bool

    /** The durable name every context of this consumer is obtained for. */
    function DurableName(): string
      reads options
    {
      services.internalName(options.consumerGroup)
    }

    /** What holds between calls: the internal station name is that of the options' station,
        the resolver covers the partitions, and the context map is the one InitConsumerContext
        builds for them. */
    ghost predicate Valid()
      reads this, options, resolver
    {
      && internalStationName == services.internalName(options.stationName)
      && resolver.partitionCount == ResolverPartitionCount(partitions)
      && contexts == ContextsFor(partitions, internalStationName, DurableName())
    }

    /** The key the client registers the consumer under: `<internal station>_<real name>`. */
    function Key(): (k: string)
      reads this, options
      ensures |k| == |internalStationName| + 1 + |options.realName|
      ensures k[..|internalStationName|] == internalStationName
      ensures k[|internalStationName|..] == "_" + options.realName
    {
      internalStationName + "_" + options.realName
    }

    /** The subject and queue group of the consumer group's dead-letter subscription. */
    function DlsSubscriptionName(): (subject: string)
      reads options
      ensures subject == MemphisConstants.DlsSubject(services.internalName(options.stationName), DurableName())
    {
      MemphisConstants.DLS_PREFIX + services.internalName(options.stationName) + "." + DurableName()
    }

    /** The constructor, once the option checks have passed. `partitions` is None when the
        caller passes no partition list; `order` is the order in which the resolver yields
        partitions. */
    constructor (services: ClientServices, cache: PrefetchCache, options: ConsumerOptions,
                 partitions: Option<seq<int>>, order: nat -> int)
      requires CheckConsumerOptions(options.startConsumeFromSequence, options.lastMessages) == Pass
      ensures Valid()
      ensures this.services == services && this.cache == cache && this.options == options
      ensures this.partitions == (if partitions.Some? then partitions.value else [])
      ensures fresh(resolver) && resolver.calls == 0 && resolver.order == order
      ensures dlsMessages == [] && subscriptionActive && !cancelled && !dlsSubscribed
    {
      this.services := services;
      this.cache := cache;
      this.options := options;
      internalStationName := services.internalName(options.stationName);
      dlsMessages := [];
      subscriptionActive := true;
      cancelled := false;
      dlsSubscribed := false;
      var ps := if partitions.Some? then partitions.value else [];
      resolver := new Partitioning.StationPartitionResolver(ResolverPartitionCount(ps), order);
      this.partitions := ps;
      contexts := map[];
      new;
      InitConsumerContext();
    }

    /** The Partitions setter: a fresh resolver over the new partitions (one partition when
        the list is empty). The context map is left as it was. */
    method SetPartitions(value: seq<int>, order: nat -> int)
      modifies this
      ensures partitions == value
      ensures fresh(resolver) && resolver.partitionCount == ResolverPartitionCount(value)
      ensures resolver.calls == 0 && resolver.order == order
      ensures contexts == old(contexts) && dlsMessages == old(dlsMessages)
      ensures subscriptionActive == old(subscriptionActive) && cancelled == old(cancelled)
      ensures dlsSubscribed == old(dlsSubscribed)
    {
      resolver := new Partitioning.StationPartitionResolver(ResolverPartitionCount(value), order);
      partitions := value;
    }

    /** InitConsumerContext: one context for the station's own stream under key 1 when there are
        no partitions, otherwise one per partition for the stream `<internal name>$<partition>`. */
    method InitConsumerContext()
      requires internalStationName == services.internalName(options.stationName)
      modifies this
      ensures contexts == ContextsFor(partitions, internalStationName, DurableName())
      ensures partitions == old(partitions) && resolver == old(resolver) && dlsMessages == old(dlsMessages) && dlsSubscribed == old(dlsSubscribed)
      ensures subscriptionActive == old(subscriptionActive) && cancelled == old(cancelled)
    {
      var durable := services.internalName(options.consumerGroup);
      var internalSubject := services.internalName(options.stationName);
      if |partitions| == 0 {
        contexts := map[1 := ConsumerContext(internalSubject, durable)];
        return;
      }
      contexts := map[];
      var i := 0;
      while i < |partitions|
        invariant 0 <= i <= |partitions|
        invariant contexts == PartitionContexts(partitions[..i], internalSubject, durable)
        invariant partitions == old(partitions) && resolver == old(resolver) && dlsMessages == old(dlsMessages) && dlsSubscribed == old(dlsSubscribed)
        invariant subscriptionActive == old(subscriptionActive) && cancelled == old(cancelled)
      {
        assert partitions[..i + 1][..i] == partitions[..i];
        var stream := internalSubject + "$" + IntToString(partitions[i]);
        contexts := contexts[partitions[i] := ConsumerContext(stream, durable)];
        i := i + 1;
      }
      assert partitions[..i] == partitions;
    }

    /** EnqueueDlsMessage: drop the oldest entry when more than 10,000 are buffered, then append. */
    method EnqueueDlsMessage(message: MemphisMessage)
      modifies this
      ensures dlsMessages == EnqueueDls(old(dlsMessages), message)
      ensures partitions == old(partitions) && resolver == old(resolver) && contexts == old(contexts) && dlsSubscribed == old(dlsSubscribed)
      ensures subscriptionActive == old(subscriptionActive) && cancelled == old(cancelled)
    {
      var insertToIndex := |dlsMessages|;
      if insertToIndex > DLS_EVICTION_THRESHOLD {
        dlsMessages := dlsMessages[1..];
      }
      dlsMessages := dlsMessages + [message];
    }

    /** DequeueDlsMessages: dequeues one entry at a time, counting the batch size down and
        stopping once it reaches zero or the buffer is empty. The dequeued batch is concatenated
        onto `messages` but the concatenation is discarded, so `messages` comes back unchanged. */
    method DequeueDlsMessages(batchSize: int, messages: seq<MemphisMessage>) returns (messagesOut: seq<MemphisMessage>)
      modifies this
      ensures dlsMessages == old(dlsMessages)[DlsDequeueCount(|old(dlsMessages)|, batchSize)..]
      ensures messagesOut == messages
      ensures partitions == old(partitions) && resolver == old(resolver) && contexts == old(contexts) && dlsSubscribed == old(dlsSubscribed)
      ensures subscriptionActive == old(subscriptionActive) && cancelled == old(cancelled)
    {
      ghost var buffered := dlsMessages;
      var remaining := batchSize;
      var batchMessages: seq<MemphisMessage> := [];
      var done := false;
      while !done && |dlsMessages| > 0
        invariant |batchMessages| <= |buffered|
        invariant batchMessages == buffered[..|batchMessages|]
        invariant dlsMessages == buffered[|batchMessages|..]
        invariant remaining == batchSize - |batchMessages|
        invariant |batchMessages| <= Max(batchSize, 1)
        invariant done ==> |batchMessages| >= 1 && remaining <= 0
        invariant !done ==> |batchMessages| == 0 || remaining > 0
        invariant partitions == old(partitions) && resolver == old(resolver) && contexts == old(contexts) && dlsSubscribed == old(dlsSubscribed)
        invariant subscriptionActive == old(subscriptionActive) && cancelled == old(cancelled)
        decreases |dlsMessages|
      {
        var message := dlsMessages[0];
        dlsMessages := dlsMessages[1..];
        remaining := remaining - 1;
        batchMessages := batchMessages + [message];
        if remaining <= 0 {
          done := true;
        }
      }
      var concatenated := messages + batchMessages;
      messagesOut := messages;
    }

    /** TryGetAndRemovePrefetchedMessages: looks the lower-cased station name and the consumer
        group up in the client's cache and takes at most a batch from the front of the list. */
    method TryGetAndRemovePrefetchedMessages(batchSize: int) returns (found: bool, messages: seq<MemphisMessage>)
      modifies cache
      ensures Taken(found, messages, cache.entries)
              == TakePrefetched(old(cache.entries), ToLower(options.stationName), options.consumerGroup, batchSize)
    {
      messages := [];
      var station := ToLower(options.stationName);
      var group := options.consumerGroup;
      if station !in cache.entries {
        return false, messages;
      }
      if group !in cache.entries[station] {
        return false, messages;
      }
      if |cache.entries[station][group]| == 0 {
        return false, messages;
      }
      var prefetched := cache.entries[station][group];
      if |prefetched| <= batchSize {
        messages := prefetched;
        cache.entries := cache.entries[station := cache.entries[station][group := []]];
        return true, messages;
      }
      var k := if batchSize < 0 then 0 else batchSize;
      messages := prefetched[..k];
      cache.entries := cache.entries[station := cache.entries[station][group := prefetched[k..]]];
      return true, messages;
    }

    /** FetchSubscriptionWithTimeOut: the resolver is consulted first when the consumer has
        partitions; then the selectors decide the partition, its context is looked up, and the
        broker is asked with the caller's partition number. */
    method FetchSubscriptionWithTimeOut(partitionKey: string, consumerPartitionNumber: int,
                                        pull: (ConsumerContext, FetchRequest) -> PullResult)
      returns (r: Result<seq<MemphisMessage>, MemphisError>)
      modifies resolver
      ensures resolver.calls == old(resolver.calls) + (if |partitions| > 0 then 1 else 0)
      ensures r == PullSelected(contexts,
                                SubscriptionPartition(services, options.stationName, |partitions| > 0,
                                                      old(resolver.Next()), partitionKey, consumerPartitionNumber),
                                FetchRequest(internalStationName, options.batchSize, consumerPartitionNumber), pull)
    {
      var partitionNumber := 0;
      if |partitions| > 0 {
        partitionNumber := resolver.Resolve();
      }
      if !IsBlank(partitionKey) && consumerPartitionNumber > 0 {
        return Failure(BothPartitionNumAndKey);
      }
      if !IsBlank(partitionKey) {
        partitionNumber := services.partitionFromKey(partitionKey, options.stationName);
      } else if consumerPartitionNumber > 0 {
        if !services.partitionNumberValid(consumerPartitionNumber, options.stationName) {
          return Failure(InvalidPartitionNumber(consumerPartitionNumber));
        }
        partitionNumber := consumerPartitionNumber;
      }
      if partitionNumber !in contexts {
        return Failure(NullConsumerContext(partitionNumber));
      }
      var request := FetchRequest(internalStationName, options.batchSize, consumerPartitionNumber);
      match pull(contexts[partitionNumber], request)
      case Pulled(ms) => r := Success(ms);
      case PullFailed(e) => r := Failure(e);
    }

    /** Fetch: the batch size is checked before anything else and recorded in the options. A
        non-empty dead-letter buffer answers the fetch on its own (see DlsFetch). Otherwise
        prefetched messages are taken from the client's cache; a prefetch is scheduled when
        asked for (the caller runs Prefetch afterwards); and only when the cache gave nothing is
        the broker asked. Failures after the batch-size check are rethrown with their message. */
    method Fetch(batchSize: int, prefetch: bool, partitionKey: string, partitionNumber: int,
                 pull: (ConsumerContext, FetchRequest) -> PullResult)
      returns (r: Result<seq<MemphisMessage>, MemphisError>, prefetchScheduled: bool)
      requires Valid()
      modifies this, options, cache, resolver
      ensures Valid()
      ensures partitions == old(partitions) && resolver == old(resolver) && contexts == old(contexts) && dlsSubscribed == old(dlsSubscribed)
      ensures options.stationName == old(options.stationName) && options.consumerGroup == old(options.consumerGroup)
      ensures subscriptionActive == old(subscriptionActive) && cancelled == old(cancelled)
      ensures !services.batchSizeValid(batchSize) ==>
        && r == Failure(InvalidBatchSize(batchSize)) && !prefetchScheduled
        && options.batchSize == old(options.batchSize) && dlsMessages == old(dlsMessages)
        && cache.entries == old(cache.entries) && resolver.calls == old(resolver.calls)
      ensures services.batchSizeValid(batchSize) ==> options.batchSize == batchSize
      ensures services.batchSizeValid(batchSize) && |old(dlsMessages)| > 0 ==>
        && r.Success? && (r.value, dlsMessages) == DlsFetch(old(dlsMessages), batchSize)
        && !prefetchScheduled && cache.entries == old(cache.entries) && resolver.calls == old(resolver.calls)
      ensures services.batchSizeValid(batchSize) && |old(dlsMessages)| == 0 ==>
        var taken := TakePrefetched(old(cache.entries), ToLower(options.stationName), options.consumerGroup, batchSize);
        && dlsMessages == [] && prefetchScheduled == prefetch && cache.entries == taken.cache
        && (|taken.messages| > 0 ==> r == Success(taken.messages) && resolver.calls == old(resolver.calls))
        && (|taken.messages| == 0 ==>
              && resolver.calls == old(resolver.calls) + (if |partitions| > 0 then 1 else 0)
              && r == RethrowFailure(PullSelected(contexts,
                        SubscriptionPartition(services, options.stationName, |partitions| > 0,
                                              old(resolver.Next()), partitionKey, partitionNumber),
                        FetchRequest(internalStationName, batchSize, partitionNumber), pull)))
    {
      prefetchScheduled := false;
      if !services.batchSizeValid(batchSize) {
        return Failure(InvalidBatchSize(batchSize)), false;
      }
      options.batchSize := batchSize;
      if |dlsMessages| > 0 {
        if |dlsMessages| <= batchSize {
          r := Success(dlsMessages);
          dlsMessages := [];
        } else {
          var messages := DequeueDlsMessages(batchSize, []);
          r := Success(messages);
        }
        return;
      }
      var messages: seq<MemphisMessage> := [];
      var found, prefetched := TryGetAndRemovePrefetchedMessages(batchSize);
      if found {
        messages := prefetched;
      }
      prefetchScheduled := prefetch;
      if |messages| > 0 {
        return Success(messages), prefetchScheduled;
      }
      var pulled := FetchSubscriptionWithTimeOut(partitionKey, partitionNumber, pull);
      r := RethrowFailure(pulled);
    }

    /** Prefetch: makes sure the cache has a list for the lower-cased station and the group,
        fetches from the broker, and appends what arrived. A failed fetch leaves only the
        (possibly new) empty entry; its exception is lost with the background task. */
    method Prefetch(partitionKey: string, consumerPartitionNumber: int,
                    pull: (ConsumerContext, FetchRequest) -> PullResult)
      returns (r: Result<seq<MemphisMessage>, MemphisError>)
      modifies cache, resolver
      ensures resolver.calls == old(resolver.calls) + (if |partitions| > 0 then 1 else 0)
      ensures r == PullSelected(contexts,
                                SubscriptionPartition(services, options.stationName, |partitions| > 0,
                                                      old(resolver.Next()), partitionKey, consumerPartitionNumber),
                                FetchRequest(internalStationName, options.batchSize, consumerPartitionNumber), pull)
      ensures cache.entries == if r.Success?
        then AppendPrefetched(old(cache.entries), ToLower(options.stationName), options.consumerGroup, r.value)
        else EnsurePrefetchEntry(old(cache.entries), ToLower(options.stationName), options.consumerGroup)
    {
      var station := ToLower(options.stationName);
      var group := options.consumerGroup;
      if station !in cache.entries {
        cache.entries := cache.entries[station := map[]];
      }
      if group !in cache.entries[station] {
        cache.entries := cache.entries[station := cache.entries[station][group := []]];
      }
      assert cache.entries == EnsurePrefetchEntry(old(cache.entries), station, group);
      ghost var ensured := cache.entries;
      r := FetchSubscriptionWithTimeOut(partitionKey, consumerPartitionNumber, pull);
      assert cache.entries == ensured;
      if r.Success? {
        cache.entries := cache.entries[station := cache.entries[station][group := cache.entries[station][group] + r.value]];
      }
    }

    /** FetchFromPartition, one round of the consume loop: the partition is chosen (the selectors
        count only when there is more than one context, and a selector error escapes the round),
        then the event the round raises, if any. */
    method FetchFromPartition(partitionKey: string, consumerPartitionNumber: int,
                              pull: (ConsumerContext, FetchRequest) -> PullResult)
      returns (failure: Option<MemphisError>, event: Option<MessageEvent>)
      modifies resolver
      ensures var selection := FromPartitionPartition(services, internalStationName, |contexts|,
                                                      old(resolver.Next()), partitionKey, consumerPartitionNumber);
        && (selection.Failure? ==> failure == Some(selection.error) && event.None?)
        && (selection.Success? ==>
              && failure.None?
              && event == FromPartitionEvent(contexts, selection.value,
                            FetchRequest(internalStationName, options.batchSize, selection.value), pull))
      ensures resolver.calls == old(resolver.calls) +
        (if |contexts| > 1 && IsBlank(partitionKey) && consumerPartitionNumber <= 0 then 1 else 0)
    {
      var partitionNumber := 1;
      if |contexts| > 1 {
        if !IsBlank(partitionKey) && consumerPartitionNumber > 0 {
          return Some(BothPartitionNumAndKey), None;
        }
        if !IsBlank(partitionKey) {
          partitionNumber := services.partitionFromKey(partitionKey, internalStationName);
        } else if consumerPartitionNumber > 0 {
          if !services.partitionNumberValid(consumerPartitionNumber, internalStationName) {
            return Some(InvalidPartitionNumber(consumerPartitionNumber)), None;
          }
          partitionNumber := consumerPartitionNumber;
        } else {
          partitionNumber := resolver.Resolve();
        }
      }
      failure := None;
      if partitionNumber !in contexts {
        event := Some(MessageEvent([], None, Some(NullConsumerContext(partitionNumber))));
        return;
      }
      var context := contexts[partitionNumber];
      match pull(context, FetchRequest(internalStationName, options.batchSize, partitionNumber))
      case PullFailed(e) =>
        event := Some(MessageEvent([], Some(context), Some(e)));
      case Pulled(ms) =>
        event := if |ms| == 0 then None else Some(MessageEvent(ms, Some(context), None));
    }

    /** One round of PingConsumer: every context's info is looked up (`probe` says how each
        lookup ends); each one found missing raises a station-unreachable event and stops
        consuming. The events are keyed by partition, as the contexts are visited in no set order. */
    method PingConsumer(probe: ConsumerContext -> InfoResult) returns (events: map<int, MessageEvent>)
      modifies this
      ensures events.Keys == UnreachablePartitions(contexts, probe)
      ensures forall k :: k in events ==> events[k] == MessageEvent([], Some(contexts[k]), Some(StationUnreachable))
      ensures subscriptionActive == (old(subscriptionActive) && events.Keys == {})
      ensures contexts == old(contexts) && dlsMessages == old(dlsMessages) && cancelled == old(cancelled)
      ensures partitions == old(partitions) && resolver == old(resolver) && dlsSubscribed == old(dlsSubscribed)
    {
      events := map[];
      var remaining := contexts.Keys;
      while remaining != {}
        invariant remaining <= contexts.Keys
        invariant events.Keys == UnreachablePartitions(contexts, probe) - remaining
        invariant forall k :: k in events ==> events[k] == MessageEvent([], Some(contexts[k]), Some(StationUnreachable))
        invariant subscriptionActive == (old(subscriptionActive) && events.Keys == {})
        invariant contexts == old(contexts) && dlsMessages == old(dlsMessages) && cancelled == old(cancelled)
        invariant partitions == old(partitions) && resolver == old(resolver) && dlsSubscribed == old(dlsSubscribed)
        decreases remaining
      {
        if forall x :: x !in remaining {
          assert false;
        }
        var k :| k in remaining;
        remaining := remaining - {k};
        var info := probe(contexts[k]);
        if info.InfoFailed? && IsConsumerOrStreamNotFound(info.message) {
          events := events[k := MessageEvent([], Some(contexts[k]), Some(StationUnreachable))];
          subscriptionActive := false;
        }
      }
    }

    /** The start of ConsumeFromDls: the consumer subscribes to its dead-letter subject, with that
        subject as the queue group; `subject` is the subject subscribed to. */
    method SubscribeDls() returns (subject: string)
      modifies this
      ensures subject == DlsSubscriptionName() && dlsSubscribed
      ensures dlsMessages == old(dlsMessages) && contexts == old(contexts)
      ensures partitions == old(partitions) && resolver == old(resolver)
      ensures subscriptionActive == old(subscriptionActive) && cancelled == old(cancelled)
    {
      dlsSubscribed := true;
      subject := DlsSubscriptionName();
    }

    /** One round of ConsumeFromDls that received a message: without a dead-letter handler the
        message is buffered; with one, an event carrying it is raised, its context looked up
        under key 0 for an unpartitioned consumer and under the resolver's next partition
        otherwise. */
    method ReceiveDlsMessage(data: seq<bv8>, hasDlsHandler: bool) returns (event: Option<MessageEvent>)
      modifies this, resolver
      ensures var message := MemphisMessage(data, internalStationName, options.consumerGroup, DLS_MESSAGE_PARTITION_NUMBER);
        && (!hasDlsHandler ==>
              && event.None? && dlsMessages == EnqueueDls(old(dlsMessages), message)
              && resolver.calls == old(resolver.calls))
        && (hasDlsHandler ==>
              && dlsMessages == old(dlsMessages)
              && event == Some(DlsEvent(contexts, message, if |partitions| == 0 then 0 else old(resolver.Next())))
              && resolver.calls == old(resolver.calls) + (if |partitions| == 0 then 0 else 1))
      ensures contexts == old(contexts) && partitions == old(partitions) && resolver == old(resolver) && dlsSubscribed == old(dlsSubscribed)
      ensures subscriptionActive == old(subscriptionActive) && cancelled == old(cancelled)
    {
      var message := MemphisMessage(data, internalStationName, options.consumerGroup, DLS_MESSAGE_PARTITION_NUMBER);
      if !hasDlsHandler {
        EnqueueDlsMessage(message);
        return None;
      }
      var key := 0;
      if |partitions| != 0 {
        key := resolver.Resolve();
      }
      event := Some(DlsEvent(contexts, message, key));
    }

    /** StopConsume: the consume loops stop at their next round. */
    method StopConsume()
      modifies this
      ensures !subscriptionActive
      ensures cancelled == old(cancelled) && dlsMessages == old(dlsMessages) && contexts == old(contexts)
      ensures partitions == old(partitions) && resolver == old(resolver) && dlsSubscribed == old(dlsSubscribed)
    {
      subscriptionActive := false;
    }

    /** DestroyAsync: stops consuming, cancels the consumer's token and asks the broker to remove
        the consumer; `reply` is the broker's answer. */
    method DestroyAsync(reply: Broker.Reply) returns (request: RemoveConsumerRequest, r: Outcome<MemphisError>)
      modifies this
      ensures !subscriptionActive && cancelled
      ensures dlsMessages == old(dlsMessages) && contexts == old(contexts)
      ensures partitions == old(partitions) && resolver == old(resolver) && dlsSubscribed == old(dlsSubscribed)
      ensures request == RemoveConsumerRequest(MemphisConstants.MEMPHIS_CONSUMER_DESTRUCTIONS,
                                               options.consumerName, options.stationName)
      ensures r == DestroyConsumerOutcome(reply)
    {
      StopConsume();
      cancelled := true;
      request := RemoveConsumerRequest(MemphisConstants.MEMPHIS_CONSUMER_DESTRUCTIONS,
                                       options.consumerName, options.stationName);
      r := DestroyConsumerOutcome(reply);
    }

    /** The consumer's own part of Dispose, as written: consuming stops, then the dead-letter
        subscription is drained without a null check. A consumer that never started
        ConsumeFromDls has no subscription, so Dispose fails there and its token is not
        cancelled. Otherwise the token is cancelled. Client.DisposeConsumer adds the client's
        disposal that follows. */
    method Dispose() returns (r: Outcome<MemphisError>)
      modifies this
      ensures !subscriptionActive
      ensures r.Fail? <==> !old(dlsSubscribed)
      ensures r.Fail? ==> r.error == NullDlsSubscription && cancelled == old(cancelled)
      ensures r.Pass? ==> cancelled
      ensures dlsMessages == old(dlsMessages) && contexts == old(contexts)
      ensures partitions == old(partitions) && resolver == old(resolver) && dlsSubscribed == old(dlsSubscribed)
    {
      StopConsume();
      if !dlsSubscribed {
        return Fail(NullDlsSubscription);
      }
      cancelled := true;
      r := Pass;
    }

    /** Dispose as evidently intended: the drain guarded as in DestroyAsync, so the token is
        cancelled whether or not a dead-letter subscription was made. */
    method DisposeIntended()
      modifies this
      ensures !subscriptionActive && cancelled
      ensures dlsMessages == old(dlsMessages) && contexts == old(contexts)
      ensures partitions == old(partitions) && resolver == old(resolver) && dlsSubscribed == old(dlsSubscribed)
    {
      StopConsume();
      cancelled := true;
    }
  }

  /** The constructor with its option checks: a failing check raises its error and no
      consumer is built. */
  method NewMemphisConsumer(services: ClientServices, cache: PrefetchCache, options: ConsumerOptions,
                            partitions: Option<seq<int>>, order: nat -> int)
    returns (r: Result<MemphisConsumer, MemphisError>)
    ensures r.Failure? <==> CheckConsumerOptions(options.startConsumeFromSequence, options.lastMessages) != Pass
    ensures r.Failure? ==> CheckConsumerOptions(options.startConsumeFromSequence, options.lastMessages) == Fail(r.error)
    ensures r.Success? ==>
      && fresh(r.value) && r.value.Valid() && r.value.options == options && r.value.cache == cache
      && r.value.services == services
      && r.value.partitions == (if partitions.Some? then partitions.value else [])
      && r.value.dlsMessages == [] && r.value.subscriptionActive && !r.value.dlsSubscribed
  {
    var check := CheckConsumerOptions(options.startConsumeFromSequence, options.lastMessages);
    if check.Fail? {
      return Failure(check.error);
    }
    var consumer := new MemphisConsumer(services, cache, options, partitions, order);
    return Success(consumer);
  }
}
