/** The consumer's bookkeeping as values (src/Memphis.Client/Consumer/MemphisConsumer.cs):
    option checks, the partition-to-context map, the dead-letter buffer, the client-wide
    prefetch cache, and the choice of partition for a fetch. The class in module Consumer
    updates its fields in place and is proved against these functions. */
module ConsumerSpec {
  import opened Wrappers
  import opened Errors
  import opened Text
  import Broker
  import opened Services

  /** A received message. Its content is opaque to the bookkeeping modelled here. */
  datatype MemphisMessage = MemphisMessage(data: seq<bv8>, station: string, group: string, partitionNumber: int)

  /** Messages taken off the dead-letter subscription carry this partition number. */
  const DLS_MESSAGE_PARTITION_NUMBER: int := -1

  /** EnqueueDlsMessage drops the oldest entry only when the buffer holds more than this many. */
  const DLS_EVICTION_THRESHOLD: nat := 10_000

  /** The most entries the dead-letter buffer holds as written: one more than the threshold. */
  const DLS_CAPACITY: nat := DLS_EVICTION_THRESHOLD + 1

  /** A handle on one durable consumer of one stream (IConsumerContext), identified by the
      stream and the durable name it was obtained for. */
  datatype ConsumerContext = ConsumerContext(streamName: string, durableName: string)

  /** What the broker answers to IConsumerContext.FetchMessages. */
  datatype PullResult = Pulled(messages: seq<MemphisMessage>) | PullFailed(error: MemphisError)

  /** The event raised through MessageReceived: a batch, its context (null when the lookup
      found none) and the error, if any. */
  datatype MessageEvent = MessageEvent(messages: seq<MemphisMessage>, context: Option<ConsumerContext>, error: Option<MemphisError>)

  // ---------------------------------------------------------------- construction

  /** The constructor's option checks, in the order the constructor makes them. */
  function CheckConsumerOptions(startConsumeFromSequence: int, lastMessages: int): (r: Outcome<MemphisError>)
    ensures r == Pass <==>
      (startConsumeFromSequence == 1 && lastMessages >= -1) || (startConsumeFromSequence > 1 && lastMessages == -1)
    ensures r == Fail(StartSequenceNotPositive) <==> startConsumeFromSequence <= 0
    ensures r == Fail(LastMessagesBelowMinusOne) <==> startConsumeFromSequence > 0 && lastMessages < -1
    ensures r == Fail(StartSequenceWithLastMessages) <==>
      startConsumeFromSequence > 1 && lastMessages > -1
  {
    if startConsumeFromSequence <= 0 then Fail(StartSequenceNotPositive)
    else if lastMessages < -1 then Fail(LastMessagesBelowMinusOne)
    else if startConsumeFromSequence > 1 && lastMessages > -1 then Fail(StartSequenceWithLastMessages)
    else Pass
  }

  /** The contexts the loop of InitConsumerContext has added after visiting `partitions`:
      each partition, in turn, bound (AddOrUpdate) to the context of its own stream. */
  function PartitionContexts(partitions: seq<int>, internalStation: string, durable: string): map<int, ConsumerContext>
    decreases |partitions|
  {
    if |partitions| == 0 then
      map[]
    else
      var p := partitions[|partitions| - 1];
      PartitionContexts(partitions[..|partitions| - 1], internalStation, durable)
        [p := ConsumerContext(PartitionStream(internalStation, p), durable)]
  }

  /** The context map InitConsumerContext builds. */
  function ContextsFor(partitions: seq<int>, internalStation: string, durable: string): map<int, ConsumerContext> {
    if |partitions| == 0 then
      map[1 := ConsumerContext(internalStation, durable)]
    else
      PartitionContexts(partitions, internalStation, durable)
  }

  lemma {:induction false} PartitionContextsSpec(partitions: seq<int>, internalStation: string, durable: string)
    ensures PartitionContexts(partitions, internalStation, durable).Keys == set p | p in partitions
    ensures forall p :: p in PartitionContexts(partitions, internalStation, durable) ==>
      PartitionContexts(partitions, internalStation, durable)[p]
        == ConsumerContext(PartitionStream(internalStation, p), durable)
    decreases |partitions|
  {
    if |partitions| > 0 {
      var init := partitions[..|partitions| - 1];
      PartitionContextsSpec(init, internalStation, durable);
      assert partitions == init + [partitions[|partitions| - 1]];
      assert (set p | p in partitions) == (set p | p in init) + {partitions[|partitions| - 1]};
    }
  }

  /** The context map of an unpartitioned station holds exactly key 1, bound to the station's
      own stream; otherwise its keys are exactly the partition numbers, each bound to the stream
      `<internal name>$<partition>`. Every context carries the consumer group's durable name. */
  lemma ContextsForSpec(partitions: seq<int>, internalStation: string, durable: string)
    ensures |partitions| == 0 ==>
      ContextsFor(partitions, internalStation, durable) == map[1 := ConsumerContext(internalStation, durable)]
    ensures |partitions| > 0 ==>
      ContextsFor(partitions, internalStation, durable).Keys == set p | p in partitions
    ensures |partitions| > 0 ==> forall p :: p in partitions ==>
      ContextsFor(partitions, internalStation, durable)[p]
        == ConsumerContext(PartitionStream(internalStation, p), durable)
  {
    if |partitions| > 0 {
      PartitionContextsSpec(partitions, internalStation, durable);
    }
  }

  // ---------------------------------------------------------------- dead-letter buffer

  /** EnqueueDlsMessage: the oldest entry is removed only when the buffer holds more than
      10,000 entries; then the message is appended. The result is the tail of the buffer with
      the message appended, so the surviving entries keep their order. */
  function EnqueueDls(buffer: seq<MemphisMessage>, message: MemphisMessage): (r: seq<MemphisMessage>)
    ensures |r| == if |buffer| > DLS_EVICTION_THRESHOLD then |buffer| else |buffer| + 1
    ensures r == (buffer + [message])[|buffer| + 1 - |r|..]
  {
    if |buffer| > DLS_EVICTION_THRESHOLD then buffer[1..] + [message] else buffer + [message]
  }

  /** A series of EnqueueDlsMessage calls, in order. */
  function EnqueueAllDls(buffer: seq<MemphisMessage>, messages: seq<MemphisMessage>): seq<MemphisMessage>
    decreases |messages|
  {
    if |messages| == 0 then buffer else EnqueueAllDls(EnqueueDls(buffer, messages[0]), messages[1..])
  }

  function Max(a: int, b: int): int {
    if a < b then b else a
  }

  function Min(a: int, b: int): int {
    if a < b then a else b
  }

  /** From a buffer of at most 10,001 entries, any series of enqueues keeps exactly the newest
      entries, at most 10,001 of them, in arrival order: the oldest are the ones evicted. */
  lemma {:induction false} EnqueueAllKeepsNewest(buffer: seq<MemphisMessage>, messages: seq<MemphisMessage>)
    requires |buffer| <= DLS_CAPACITY
    ensures EnqueueAllDls(buffer, messages)
      == (buffer + messages)[Max(0, |buffer| + |messages| - DLS_CAPACITY)..]
    ensures |EnqueueAllDls(buffer, messages)| <= DLS_CAPACITY
    decreases |messages|
  {
    if |messages| > 0 {
      var m := messages[0];
      var next := EnqueueDls(buffer, m);
      var d := Max(0, |buffer| + 1 - DLS_CAPACITY);
      assert next == (buffer + [m])[d..];
      EnqueueAllKeepsNewest(next, messages[1..]);
      var d2 := Max(0, |next| + |messages| - 1 - DLS_CAPACITY);
      assert next + messages[1..] == (buffer + messages)[d..] by {
        assert buffer + messages == (buffer + [m]) + messages[1..];
      }
      assert (buffer + messages)[d..][d2..] == (buffer + messages)[d + d2..];
      assert d + d2 == Max(0, |buffer| + |messages| - DLS_CAPACITY);
    }
  }

  /** How many entries DequeueDlsMessages removes: it dequeues at least one and stops once
      `batchSize` have been taken or the buffer is empty. */
  function DlsDequeueCount(count: nat, batchSize: int): nat {
    Min(count, Max(batchSize, 1))
  }

  /** Fetch served from a non-empty dead-letter buffer: the messages returned and the buffer left.
      When the buffer fits in the batch it is returned whole and emptied; otherwise
      DequeueDlsMessages removes the oldest entries but the Concat holding them is discarded,
      so nothing is returned. */
  function DlsFetch(buffer: seq<MemphisMessage>, batchSize: int): (seq<MemphisMessage>, seq<MemphisMessage>)
    requires |buffer| > 0
  {
    if |buffer| <= batchSize then (buffer, []) else ([], buffer[DlsDequeueCount(|buffer|, batchSize)..])
  }

  /** A dead-letter buffer that fits in the batch is returned whole, in order, and left empty;
      a larger one loses exactly its max(batchSize, 1) oldest entries, keeps the rest in order,
      and nothing is returned. */
  lemma DlsFetchSpec(buffer: seq<MemphisMessage>, batchSize: int)
    requires |buffer| > 0
    ensures |buffer| <= batchSize ==> DlsFetch(buffer, batchSize) == (buffer, [])
    ensures |buffer| > batchSize ==>
      DlsFetch(buffer, batchSize).0 == [] &&
      |buffer| - |DlsFetch(buffer, batchSize).1| == Max(batchSize, 1) &&
      DlsFetch(buffer, batchSize).1 == buffer[Max(batchSize, 1)..] &&
      DlsFetch(buffer, batchSize).0 + DlsFetch(buffer, batchSize).1 != buffer
  {
    if |buffer| > batchSize {
      assert |DlsFetch(buffer, batchSize).1| < |buffer|;
    }
  }

  /** Fetch from a dead-letter buffer as evidently intended: the oldest min(count, batchSize)
      entries are returned and the rest stay buffered. */
  function DlsFetchIntended(buffer: seq<MemphisMessage>, batchSize: int): (r: (seq<MemphisMessage>, seq<MemphisMessage>))
    requires |buffer| > 0
    ensures r.0 + r.1 == buffer
    ensures batchSize >= 1 ==> |r.0| == Min(|buffer|, batchSize)
  {
    var k := DlsDequeueCount(|buffer|, batchSize);
    (buffer[..k], buffer[k..])
  }

  /** The eviction rule as evidently intended: evict when the buffer already holds 10,000. */
  function EnqueueDlsIntended(buffer: seq<MemphisMessage>, message: MemphisMessage): (r: seq<MemphisMessage>)
    ensures |r| == if |buffer| >= DLS_EVICTION_THRESHOLD then |buffer| else |buffer| + 1
    ensures |buffer| <= DLS_EVICTION_THRESHOLD ==> |r| <= DLS_EVICTION_THRESHOLD
    ensures r == (buffer + [message])[|buffer| + 1 - |r|..]
  {
    if |buffer| >= DLS_EVICTION_THRESHOLD then buffer[1..] + [message] else buffer + [message]
  }

  /** As written, the dead-letter buffer grows to 10,001 entries: 10,001 enqueues into an empty
      buffer keep all of them. */
  lemma DlsBufferExceedsThreshold(messages: seq<MemphisMessage>)
    requires |messages| == DLS_CAPACITY
    ensures |EnqueueAllDls([], messages)| == DLS_EVICTION_THRESHOLD + 1
  {
    EnqueueAllKeepsNewest([], messages);
  }

  // ---------------------------------------------------------------- prefetch cache

  /** The client-wide prefetch cache: station name (lower-cased) to consumer group to messages. */
  type Cache = map<string, map<string, seq<MemphisMessage>>>

  /** The messages cached for a station and group; none when either key is missing. */
  function Cached(cache: Cache, station: string, group: string): seq<MemphisMessage> {
    if station in cache && group in cache[station] then cache[station][group] else []
  }

  /** The outcome of TryGetAndRemovePrefetchedMessages: its return value, the messages it hands
      out, and the cache it leaves. */
  datatype Taken = Taken(found: bool, messages: seq<MemphisMessage>, cache: Cache)

  /** TryGetAndRemovePrefetchedMessages: nothing when the station or group is missing or its list
      is empty; otherwise the list is returned whole if it fits in the batch, or its first
      `batchSize` messages are returned and the rest kept. */
  function TakePrefetched(cache: Cache, station: string, group: string, batchSize: int): Taken {
    if station !in cache || group !in cache[station] || |cache[station][group]| == 0 then
      Taken(false, [], cache)
    else
      var list := cache[station][group];
      if |list| <= batchSize then
        Taken(true, list, cache[station := cache[station][group := []]])
      else
        var k := Max(batchSize, 0);
        Taken(true, list[..k], cache[station := cache[station][group := list[k..]]])
  }

  /** The other cache entries are unchanged and the taken messages followed by what is left
      are the list as it was: messages are handed out in order, none lost or repeated. */
  lemma TakePrefetchedSpec(cache: Cache, station: string, group: string, batchSize: int)
    ensures var t := TakePrefetched(cache, station, group, batchSize);
      && (t.found <==> |Cached(cache, station, group)| > 0)
      && (!t.found ==> t.messages == [] && t.cache == cache)
      && (t.found ==>
            && t.messages + Cached(t.cache, station, group) == Cached(cache, station, group)
            && |t.messages| == Min(|Cached(cache, station, group)|, Max(batchSize, 0))
            && t.cache.Keys == cache.Keys
            && station in t.cache && t.cache[station].Keys == cache[station].Keys)
      && (forall s, g :: (s, g) != (station, group) ==> Cached(t.cache, s, g) == Cached(cache, s, g))
  {
    var t := TakePrefetched(cache, station, group, batchSize);
    if t.found {
      var list := cache[station][group];
      var k := Max(batchSize, 0);
      if |list| > batchSize {
        assert list[..k] + list[k..] == list;
      }
    }
  }

  /** The first lines of Prefetch: the station and the group get empty lists when missing. */
  function EnsurePrefetchEntry(cache: Cache, station: string, group: string): Cache {
    var inner := if station in cache then cache[station] else map[];
    cache[station := if group in inner then inner else inner[group := []]]
  }

  /** Prefetch after a successful pull: the fetched messages are appended after those already cached. */
  function AppendPrefetched(cache: Cache, station: string, group: string, fetched: seq<MemphisMessage>): Cache {
    var c := EnsurePrefetchEntry(cache, station, group);
    c[station := c[station][group := c[station][group] + fetched]]
  }

  /** Prefetch creates the entry if needed and appends after the existing messages; every other
      entry is unchanged and no existing station or group disappears. */
  lemma AppendPrefetchedSpec(cache: Cache, station: string, group: string, fetched: seq<MemphisMessage>)
    ensures var c := AppendPrefetched(cache, station, group, fetched);
      && station in c && group in c[station]
      && Cached(c, station, group) == Cached(cache, station, group) + fetched
      && c.Keys == cache.Keys + {station}
      && (station in cache ==> c[station].Keys == cache[station].Keys + {group})
      && (forall s, g :: (s, g) != (station, group) ==> Cached(c, s, g) == Cached(cache, s, g))
  {
  }

  /** Fetching repeatedly with the same batch size until the cache reports nothing. */
  function DrainPrefetched(cache: Cache, station: string, group: string, batchSize: int): seq<MemphisMessage>
    requires batchSize >= 1
    decreases |Cached(cache, station, group)|
  {
    var t := TakePrefetched(cache, station, group, batchSize);
    if !t.found then
      []
    else
      TakePrefetchedSpec(cache, station, group, batchSize);
      t.messages + DrainPrefetched(t.cache, station, group, batchSize)
  }

  /** Draining the cache batch by batch delivers every cached message exactly once, in the
      order it was cached. */
  lemma {:induction false} DrainPrefetchedDeliversInOrder(cache: Cache, station: string, group: string, batchSize: int)
    requires batchSize >= 1
    ensures DrainPrefetched(cache, station, group, batchSize) == Cached(cache, station, group)
    decreases |Cached(cache, station, group)|
  {
    var t := TakePrefetched(cache, station, group, batchSize);
    TakePrefetchedSpec(cache, station, group, batchSize);
    if t.found {
      DrainPrefetchedDeliversInOrder(t.cache, station, group, batchSize);
    }
  }

  /** What one Prefetch appends is delivered by later fetches after everything cached before it. */
  lemma PrefetchThenDrain(cache: Cache, station: string, group: string, fetched: seq<MemphisMessage>, batchSize: int)
    requires batchSize >= 1
    ensures DrainPrefetched(AppendPrefetched(cache, station, group, fetched), station, group, batchSize)
            == Cached(cache, station, group) + fetched
  {
    AppendPrefetchedSpec(cache, station, group, fetched);
    DrainPrefetchedDeliversInOrder(AppendPrefetched(cache, station, group, fetched), station, group, batchSize);
  }

  // ---------------------------------------------------------------- partition selection

  /** The partition FetchSubscriptionWithTimeOut reads: `resolved` is what the resolver returned
      (it is consulted only when the consumer has partitions); without selectors that is the
      partition, or 0 for an unpartitioned consumer. */
  function SubscriptionPartition(services: ClientServices, stationName: string, partitioned: bool,
                                 resolved: int, partitionKey: string, partitionNumber: int): Result<int, MemphisError>
  {
    SelectPartition(services, stationName, if partitioned then resolved else 0, partitionKey, partitionNumber)
  }

  /** Selector precedence: both selectors are refused whatever the resolver gave; a key alone
      wins over the resolver; a number alone wins over the resolver and is refused when the
      client rejects it; without selectors the resolver decides, and an unpartitioned consumer
      reads key 0. */
  lemma SubscriptionPartitionPrecedence(services: ClientServices, stationName: string, partitioned: bool,
                                        resolved: int, resolved': int, partitionKey: string, partitionNumber: int)
    ensures !IsBlank(partitionKey) && partitionNumber > 0 ==>
      SubscriptionPartition(services, stationName, partitioned, resolved, partitionKey, partitionNumber)
        == Failure(BothPartitionNumAndKey)
    ensures !IsBlank(partitionKey) || partitionNumber > 0 ==>
      SubscriptionPartition(services, stationName, partitioned, resolved, partitionKey, partitionNumber)
        == SubscriptionPartition(services, stationName, partitioned, resolved', partitionKey, partitionNumber)
    ensures !IsBlank(partitionKey) && partitionNumber <= 0 ==>
      SubscriptionPartition(services, stationName, partitioned, resolved, partitionKey, partitionNumber)
        == Success(services.partitionFromKey(partitionKey, stationName))
    ensures IsBlank(partitionKey) && partitionNumber > 0 ==>
      SubscriptionPartition(services, stationName, partitioned, resolved, partitionKey, partitionNumber)
        == if services.partitionNumberValid(partitionNumber, stationName) then Success(partitionNumber)
           else Failure(InvalidPartitionNumber(partitionNumber))
    ensures IsBlank(partitionKey) && partitionNumber <= 0 ==>
      SubscriptionPartition(services, stationName, partitioned, resolved, partitionKey, partitionNumber)
        == Success(if partitioned then resolved else 0)
  {
  }

  /** What a pull hands the broker besides the context (FetchOptions): the internal station
      name, the batch size currently in the consumer options and a partition number. */
  datatype FetchRequest = FetchRequest(internalStationName: string, batchSize: int, partitionNumber: int)

  /** The broker pull of FetchSubscriptionWithTimeOut: the context of the selected partition is
      asked for messages; a missing context is a null dereference. */
  function PullSelected(contexts: map<int, ConsumerContext>, selection: Result<int, MemphisError>,
                        request: FetchRequest, pull: (ConsumerContext, FetchRequest) -> PullResult): Result<seq<MemphisMessage>, MemphisError>
  {
    match selection
    case Failure(e) => Failure(e)
    case Success(p) =>
      if p !in contexts then Failure(NullConsumerContext(p))
      else match pull(contexts[p], request)
        case Pulled(messages) => Success(messages)
        case PullFailed(e) => Failure(e)
  }

  /** The catch of Fetch: every failure inside it is rethrown as a MemphisException carrying
      the cause's message; a success passes through. */
  function RethrowFailure(r: Result<seq<MemphisMessage>, MemphisError>): (w: Result<seq<MemphisMessage>, MemphisError>)
    ensures w.Success? <==> r.Success?
    ensures w.Success? ==> w.value == r.value
    ensures w.Failure? ==> w.error == Rethrown(r.error)
  {
    match r
    case Success(ms) => Success(ms)
    case Failure(e) => Failure(Rethrown(e))
  }

  /** As written, a broker fetch without selectors on an unpartitioned consumer always fails
      without reaching the broker: it looks up key 0 while the context map holds only key 1. */
  lemma UnpartitionedFetchMissesContext(services: ClientServices, stationName: string, internalStation: string,
                                        durable: string, resolved: int, partitionKey: string,
                                        request: FetchRequest, pull: (ConsumerContext, FetchRequest) -> PullResult)
    requires IsBlank(partitionKey) && request.partitionNumber <= 0
    ensures PullSelected(ContextsFor([], internalStation, durable),
                         SubscriptionPartition(services, stationName, false, resolved, partitionKey, request.partitionNumber),
                         request, pull)
            == Failure(NullConsumerContext(0))
  {
  }

  /** The partition choice as evidently intended: an unpartitioned consumer reads key 1, the key
      its context map holds. */
  function SubscriptionPartitionIntended(services: ClientServices, stationName: string, partitioned: bool,
                                         resolved: int, partitionKey: string, partitionNumber: int): Result<int, MemphisError>
  {
    SelectPartition(services, stationName, if partitioned then resolved else 1, partitionKey, partitionNumber)
  }

  /** With the intended choice, a fetch without selectors always finds a context: key 1 for an
      unpartitioned consumer, and for a partitioned one any partition the resolver yields from
      the consumer's own list. The pull is then made on that context. */
  lemma IntendedSelectionFindsContext(services: ClientServices, stationName: string, internalStation: string,
                                      durable: string, partitions: seq<int>, resolved: int, partitionKey: string,
                                      request: FetchRequest, pull: (ConsumerContext, FetchRequest) -> PullResult)
    requires |partitions| > 0 ==> resolved in partitions
    requires IsBlank(partitionKey) && request.partitionNumber <= 0
    ensures var contexts := ContextsFor(partitions, internalStation, durable);
      var selection := SubscriptionPartitionIntended(services, stationName, |partitions| > 0, resolved,
                                                     partitionKey, request.partitionNumber);
      && selection.Success? && selection.value in contexts
      && PullSelected(contexts, selection, request, pull)
         == match pull(contexts[selection.value], request)
            case Pulled(ms) => Success(ms)
            case PullFailed(e) => Failure(e)
  {
    ContextsForSpec(partitions, internalStation, durable);
  }

  /** The partition FetchFromPartition reads: partition 1 unless the context map holds more
      than one entry; then the same precedence as a fetch, with the key hashed against the
      internal station name and the resolver as the fallback. */
  function FromPartitionPartition(services: ClientServices, internalStation: string, contextCount: nat,
                                  resolved: int, partitionKey: string, partitionNumber: int): Result<int, MemphisError>
  {
    if contextCount <= 1 then Success(1)
    else SelectPartition(services, internalStation, resolved, partitionKey, partitionNumber)
  }

  /** The event FetchFromPartition raises once the partition is chosen: none for an empty batch,
      the batch with its context, or the failure (a missing context gives a null dereference,
      reported with no context). The pull is made with the chosen partition number. */
  function FromPartitionEvent(contexts: map<int, ConsumerContext>, partition: int, request: FetchRequest,
                              pull: (ConsumerContext, FetchRequest) -> PullResult): (r: Option<MessageEvent>)
    requires request.partitionNumber == partition
    ensures r.Some? && r.value.error.None? ==>
      partition in contexts && |r.value.messages| > 0 && r.value.context == Some(contexts[partition])
      && pull(contexts[partition], request) == Pulled(r.value.messages)
    ensures partition !in contexts ==> r == Some(MessageEvent([], None, Some(NullConsumerContext(partition))))
    ensures r.None? <==> partition in contexts && pull(contexts[partition], request) == Pulled([])
  {
    if partition !in contexts then
      Some(MessageEvent([], None, Some(NullConsumerContext(partition))))
    else
      match pull(contexts[partition], request)
      case PullFailed(e) => Some(MessageEvent([], Some(contexts[partition]), Some(e)))
      case Pulled(ms) => if |ms| == 0 then None else Some(MessageEvent(ms, Some(contexts[partition]), None))
  }

  /** With at most one context, FetchFromPartition ignores both selectors and reads partition 1;
      for an unpartitioned consumer that is always its one context. */
  lemma FromPartitionIgnoresSelectors(services: ClientServices, internalStation: string, contextCount: nat,
                                      resolved: int, partitionKey: string, partitionNumber: int,
                                      durable: string)
    requires contextCount <= 1
    ensures FromPartitionPartition(services, internalStation, contextCount, resolved, partitionKey, partitionNumber) == Success(1)
    ensures 1 in ContextsFor([], internalStation, durable) && |ContextsFor([], internalStation, durable)| == 1
  {
  }

  // ---------------------------------------------------------------- liveness and teardown

  /** IsConsumerOrStreamNotFound: the exception message is non-blank and mentions a missing
      consumer or a missing stream. */
  function IsConsumerOrStreamNotFound(message: Option<string>): bool {
    if IsNullOrWhiteSpace(message) then false
    else Contains(message.value, "consumer not found") || Contains(message.value, "stream not found")
  }

  lemma OccurrenceIsNotBlank(s: string, sub: string, i: int)
    requires OccursAt(s, sub, i)
    requires exists k :: 0 <= k < |sub| && !IsWhiteSpaceChar(sub[k])
    ensures !IsBlank(s)
  {
    var k :| 0 <= k < |sub| && !IsWhiteSpaceChar(sub[k]);
    assert s[i..i + |sub|][k] == s[i + k];
  }

  /** The predicate holds exactly when the message mentions a missing consumer or stream: the
      blank test never changes the answer, since both phrases hold non-blank characters. */
  lemma NotFoundExactlyWhenMentioned(message: string)
    ensures IsConsumerOrStreamNotFound(Some(message)) <==>
      (exists i :: OccursAt(message, "consumer not found", i)) || (exists i :: OccursAt(message, "stream not found", i))
    ensures IsConsumerOrStreamNotFound(Some(message)) ==> |message| >= 16
  {
    if exists i :: OccursAt(message, "consumer not found", i) {
      var i :| OccursAt(message, "consumer not found", i);
      assert !IsWhiteSpaceChar("consumer not found"[0]);
      OccurrenceIsNotBlank(message, "consumer not found", i);
    }
    if exists i :: OccursAt(message, "stream not found", i) {
      var i :| OccursAt(message, "stream not found", i);
      assert !IsWhiteSpaceChar("stream not found"[0]);
      OccurrenceIsNotBlank(message, "stream not found", i);
    }
  }

  /** What IConsumerContext.GetConsumerInfo did: returned, or threw an exception carrying this
      message (None when the message is null). */
  datatype InfoResult = InfoFound | InfoFailed(message: Option<string>)

  /** The partitions whose contexts one PingConsumer round reports unreachable: those whose
      info lookup threw a consumer-or-stream-not-found exception. Other exceptions are ignored. */
  function UnreachablePartitions(contexts: map<int, ConsumerContext>, probe: ConsumerContext -> InfoResult): (r: set<int>)
    ensures r <= contexts.Keys
    ensures forall k :: k in contexts && probe(contexts[k]).InfoFound? ==> k !in r
  {
    set k | k in contexts && probe(contexts[k]).InfoFailed? && IsConsumerOrStreamNotFound(probe(contexts[k]).message)
  }

  /** The event ConsumeFromDls raises for a dead-letter message when a handler is attached: the
      message alone, with the context found under `key` (null when there is none). */
  function DlsEvent(contexts: map<int, ConsumerContext>, message: MemphisMessage, key: int): (e: MessageEvent)
    ensures e.messages == [message] && e.error.None?
    ensures e.context.Some? <==> key in contexts
    ensures key in contexts ==> e.context == Some(contexts[key])
  {
    MessageEvent([message], if key in contexts then Some(contexts[key]) else None, None)
  }

  /** ConsumeFromDls looks an unpartitioned consumer's context up under key 0, but the only
      context is under key 1: every dead-letter event it raises carries no context. */
  lemma UnpartitionedDlsEventHasNoContext(internalStation: string, durable: string, message: MemphisMessage)
    ensures DlsEvent(ContextsFor([], internalStation, durable), message, 0).context.None?
    ensures DlsEvent(ContextsFor([], internalStation, durable), message, 1).context.Some?
  {
  }

  /** DestroyAsync's reading of the removal reply: a non-empty reply is the broker's error;
      every failure is wrapped as "Failed to destroy consumer". */
  function DestroyConsumerOutcome(reply: Broker.Reply): (r: Outcome<MemphisError>)
    ensures r == Pass <==> reply == Broker.Reply("")
    ensures reply.Reply? && reply.data != "" ==>
      r == Fail(Wrapped("Failed to destroy consumer", Memphis(reply.data)))
  {
    match reply
    case RequestFailed(e) => Fail(Wrapped("Failed to destroy consumer", e))
    case Reply(data) => if data != "" then Fail(Wrapped("Failed to destroy consumer", Memphis(data))) else Pass
  }
}
