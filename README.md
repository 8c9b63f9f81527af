# memphis.net client bookkeeping, modelled in Dafny

This project models the parts of the memphis.net client (C#) that decide where a message goes
and which locally buffered message comes back next.

- **Consumer** (`MemphisConsumer`):
  - the option checks of the constructor;
  - the partition-to-context map;
  - the dead-letter buffer, with its drop-oldest rule;
  - the order in which `Fetch` serves sources: the dead-letter buffer, then the client-wide prefetch cache, then the broker;
  - the prefetch cache;
  - the choice of partition, from a partition key, a partition number or the round-robin resolver;
  - one round of the ping and dead-letter loops.
- **Producer** (`MemphisProducer`):
  - the constructor checks;
  - the stream name and the subject;
  - the order of headers;
  - the empty message-id check;
  - dead-lettering after a schema-validation failure, with hex encoding of the payload;
  - the mapping of publish errors;
  - the multi-station fan-out;
  - the keys used by destroy.
- **Client** (`MemphisClient`):
  - the connection-alive gate;
  - naming of producers and consumers: the random suffix and the default consumer group;
  - the schema-update registry (first writer wins);
  - one schema-update subscription per station, with a count of producers per station;
  - `processAndStoreSchemaUpdate`, which never replaces an entry.
- **Constants**: the schema-type mapping `ToValidator` and the subject prefixes.

Code that changes state in place is written as classes whose fields the methods update:
`Consumer.MemphisConsumer`, `Consumer.PrefetchCache`, `Consumer.ConsumerOptions`, `Producer.MemphisProducer`, `Client.MemphisClient` and `Partitioning.StationPartitionResolver`.
Each method is proved against a function on values in a companion module:

| Class module | Companion module |
|---|---|
| `Consumer` | `ConsumerSpec` |
| `Client` | `SchemaRegistry` |
| `Producer` | its own pure functions |

The lemmas about those functions carry the properties.

Helpers of the client whose code is not part of this model are abstract fields of the datatype `Services.ClientServices`:

- `GetInternalName`;
- `GetPartitionFromKey`;
- `EnsurePartitionNumberIsValid` and `EnsureBatchSizeIsValid`, each a "may fail" predicate;
- `IsSchemaVerseToDlsEnabled`;
- the client's partition and function tables.

`StationPartitionResolver` is not part of this model. It is represented by a class whose `Resolve` returns the next element of an arbitrary given order and advances a cursor. Nothing else is assumed about it.

Broker answers are parameters of the operations that receive them. These are:

- the result of a pull, of a publish, of an info lookup and of a request reply;
- the outcome of schema validation;
- the random key `GetUniqueKey` would produce.

Modules, in dependency order:

| Module | Contents |
|---|---|
| `Wrappers` | `Option`, `Result` and `Outcome` |
| `Errors` | the error cases |
| `Text` | .NET string and number behaviour: `String.Split`, `Contains`, `Convert.ToInt32`, `BitConverter.ToString` |
| `MemphisConstants` | constants and subjects |
| `Partitioning` | the resolver |
| `Broker` | replies and envelopes |
| `Services` | the client's abstract helpers and the shared selector precedence |
| `SchemaRegistry` | the client's schema bookkeeping as values |
| `ConsumerSpec` | the consumer's bookkeeping as values |
| `Consumer` | the consumer classes |
| `Producer` | the producer |
| `Client` | the client |

## Model

Source paths are relative to the repository root.

| member | source | states |
|---|---|---|
| Text.Contains | src/Memphis.Client/Consumer/MemphisConsumer.cs:324-325 | String.Contains: true exactly when the phrase occurs at some index of the message |
| Text.IntToString | src/Memphis.Client/Consumer/MemphisConsumer.cs:91 | a partition number written into a stream name holds only digits and '-', so never the '$' separator |
| Text.ParseInt32 | src/Memphis.Client/Producer/MemphisProducer.cs:239 | Convert.ToInt32 yields only values inside the 32-bit range; other text is an error |
| Text.ParseInt32OfIntToString | src/Memphis.Client/Producer/MemphisProducer.cs:238-239 | a 32-bit partition number written out as text reads back as itself |
| Text.Split | src/Memphis.Client/Producer/MemphisProducer.cs:238 | String.Split always yields at least one piece |
| Text.SplitWithoutSeparator | src/Memphis.Client/Producer/MemphisProducer.cs:238 | a string without the separator splits into itself alone, so piece 1 does not exist |
| Text.SplitAtFirstSeparator | src/Memphis.Client/Producer/MemphisProducer.cs:238 | the first piece ends at the first separator and the rest splits on its own |
| Text.RemoveChar | src/Memphis.Client/Producer/MemphisProducer.cs:399 | Replace("-", "") leaves no dash |
| Text.BitConverterWithoutDashes | src/Memphis.Client/Producer/MemphisProducer.cs:399 | BitConverter.ToString with its dashes removed is two upper-case hex digits per byte, in byte order |
| Text.HexRoundTrip | src/Memphis.Client/Producer/MemphisProducer.cs:399 | the dead-letter data field has two characters per byte and decodes back to the original payload |
| MemphisConstants.ToValidator | src/Memphis.Client/Constants/MemphisConstants.cs:48-58 | succeeds exactly for "json", "graphql", "protobuf" and "avro", mapping each to the validator of that name; any other text, NONE ("") included, fails with "Schema type ... is not supported" |
| MemphisConstants.ToValidatorOfName | src/Memphis.Client/Constants/MemphisConstants.cs:42-58 | every validator kind is reached from its own name, and the four names are distinct, so the four kinds are distinct |
| MemphisConstants.DlsSubjectDecomposes | src/Memphis.Client/Consumer/MemphisConsumer.cs:445 | a dead-letter subject starts with "$memphis_dls_" and, for a station name without '.', the rest splits at '.' into the station then the group |
| MemphisConstants.DlsSubjectInjective | src/Memphis.Client/Consumer/MemphisConsumer.cs:445 | distinct (station, group) pairs, station names without '.', get distinct dead-letter subjects |
| MemphisConstants.DlsAndSchemaUpdateSubjectsDiffer | src/Memphis.Client/Constants/MemphisConstants.cs:26-32 | schema-update subjects start with "$memphis_schema_updates_" and never equal a dead-letter subject |
| Partitioning.StationPartitionResolver.Resolve | src/Memphis.Client/Consumer/MemphisConsumer.cs:339 | returns the next partition of the resolver's order and advances its cursor by one |
| Services.SelectPartition | src/Memphis.Client/Consumer/MemphisConsumer.cs:341-353 | fails exactly when a non-blank key meets a positive number, or a positive number alone is rejected by the client; a key alone picks its hashed partition; with neither, the fallback |
| SchemaRegistry.ListenAllSpec | src/Memphis.Client/MemphisClient.cs:177-210 | after any series of listenForSchemaUpdate calls, each station's producer count rose by the number of calls for it, whether or not a subscription existed; the stations subscribed are exactly those listened to, each once on its own schema-update subject; recorded inits are never replaced |
| SchemaRegistry.ListenAllFirstWriterWins | src/Memphis.Client/MemphisClient.cs:181-184 | a station's recorded schema init is the first one with a non-empty name among the calls for it, and none is recorded if no call had one |
| SchemaRegistry.ListenAllKeepsRecorded | src/Memphis.Client/MemphisClient.cs:181-184 | a recorded schema init survives any later listen calls unchanged |
| SchemaRegistry.Store | src/Memphis.Client/MemphisClient.cs:213-227 | an update without a schema name changes nothing; a named one is recorded for a station without an entry and fails with "Unable to save schema data for station" otherwise; no entry is ever replaced, and subscriptions and counts are untouched |
| ConsumerSpec.CheckConsumerOptions | src/Memphis.Client/Consumer/MemphisConsumer.cs:45-50 | passes exactly when the start sequence is 1 and last-messages is at least -1, or the start sequence exceeds 1 and last-messages is -1; each of the three errors is raised exactly in its own case, in the source's order |
| ConsumerSpec.PartitionContextsSpec | src/Memphis.Client/Consumer/MemphisConsumer.cs:88-94 | the context map's keys are exactly the partition numbers, each bound to the stream `<internal>$<p>` with the consumer group's durable name |
| ConsumerSpec.ContextsForSpec | src/Memphis.Client/Consumer/MemphisConsumer.cs:73-95 | without partitions the map has the single key 1, bound to the station's own stream; otherwise as above |
| ConsumerSpec.EnqueueDls | src/Memphis.Client/Consumer/MemphisConsumer.cs:519-527 | the buffer grows by one unless it already holds more than 10,000, and the result is the newest suffix of the old buffer followed by the message |
| ConsumerSpec.EnqueueAllKeepsNewest | src/Memphis.Client/Consumer/MemphisConsumer.cs:519-527 | from a buffer of at most 10,001 entries, any series of enqueues keeps exactly the newest entries, at most 10,001, in arrival order |
| ConsumerSpec.DlsBufferExceedsThreshold | src/Memphis.Client/Consumer/MemphisConsumer.cs:521-526 | as written, 10,001 enqueues into an empty buffer keep 10,001 entries |
| ConsumerSpec.EnqueueDlsIntended | src/Memphis.Client/Consumer/MemphisConsumer.cs:521-526 | with eviction at 10,000 entries the buffer never exceeds 10,000 and keeps the newest entries in order |
| ConsumerSpec.DlsFetchSpec | src/Memphis.Client/Consumer/MemphisConsumer.cs:207-220 | a dead-letter buffer that fits in the batch is returned whole, in order, and emptied; a larger one loses exactly its max(batchSize, 1) oldest entries, the rest stay in order, and nothing is returned |
| ConsumerSpec.DlsFetchIntended | src/Memphis.Client/Consumer/MemphisConsumer.cs:529-542 | the intended dequeue: what is returned followed by what stays is the old buffer, and the batch holds min(count, batchSize) entries |
| ConsumerSpec.TakePrefetchedSpec | src/Memphis.Client/Consumer/MemphisConsumer.cs:245-268 | nothing is taken and nothing changes when the station, the group or the list is missing or empty; otherwise the first min(count, batchSize) messages are handed out, the rest stay in order, and every other entry is unchanged |
| ConsumerSpec.AppendPrefetchedSpec | src/Memphis.Client/Consumer/MemphisConsumer.cs:270-284 | Prefetch creates the station and group entries if missing and appends the fetched messages after those already cached; every other entry is unchanged |
| ConsumerSpec.DrainPrefetchedDeliversInOrder | src/Memphis.Client/Consumer/MemphisConsumer.cs:245-268 | fetching batch after batch delivers every cached message exactly once, in cache order |
| ConsumerSpec.PrefetchThenDrain | src/Memphis.Client/Consumer/MemphisConsumer.cs:270-284 | what one prefetch appends is delivered after everything that was cached before it |
| ConsumerSpec.SubscriptionPartitionPrecedence | src/Memphis.Client/Consumer/MemphisConsumer.cs:339-353 | both selectors are refused; the key beats the number and the number beats the resolver; with a selector the resolver's answer is irrelevant; an unpartitioned consumer without selectors reads key 0 |
| ConsumerSpec.RethrowFailure | src/Memphis.Client/Consumer/MemphisConsumer.cs:239-242 | the catch of Fetch passes a success through and rethrows every failure with the cause's message |
| ConsumerSpec.UnpartitionedFetchMissesContext | src/Memphis.Client/Consumer/MemphisConsumer.cs:339-357 | as written, a broker fetch without selectors on an unpartitioned consumer fails on the missing context under key 0 and never reaches the broker |
| ConsumerSpec.IntendedSelectionFindsContext | src/Memphis.Client/Consumer/MemphisConsumer.cs:339-357 | with key 1 for an unpartitioned consumer, a fetch without selectors always finds a context and pulls from it |
| ConsumerSpec.FromPartitionEvent | src/Memphis.Client/Consumer/MemphisConsumer.cs:415-433 | no event for an empty batch; a batch event carries its context and what the pull returned; a missing context gives an error event without a context |
| ConsumerSpec.FromPartitionIgnoresSelectors | src/Memphis.Client/Consumer/MemphisConsumer.cs:394-414 | with at most one context both selectors are ignored and partition 1 is read, the one context of an unpartitioned consumer |
| ConsumerSpec.NotFoundExactlyWhenMentioned | src/Memphis.Client/Consumer/MemphisConsumer.cs:318-326 | IsConsumerOrStreamNotFound holds exactly when the message contains "consumer not found" or "stream not found"; the blank test never changes the answer |
| ConsumerSpec.UnreachablePartitions | src/Memphis.Client/Consumer/MemphisConsumer.cs:297-311 | only partitions that have a context can be reported, and never one whose info lookup succeeded |
| ConsumerSpec.DlsEvent | src/Memphis.Client/Consumer/MemphisConsumer.cs:480-490 | a dead-letter event carries exactly the one message, no error, and a context exactly when the looked-up key has one |
| ConsumerSpec.UnpartitionedDlsEventHasNoContext | src/Memphis.Client/Consumer/MemphisConsumer.cs:482-485 | as written, dead-letter events of an unpartitioned consumer carry no context (key 0), though key 1 holds one |
| ConsumerSpec.DestroyConsumerOutcome | src/Memphis.Client/Consumer/MemphisConsumer.cs:159-171 | destroy succeeds exactly on an empty reply; a non-empty reply or a failed request is wrapped as "Failed to destroy consumer" |
| Consumer.ResolverPartitionCount | src/Memphis.Client/Consumer/MemphisConsumer.cs:31-39 | the resolver covers at least one partition, and exactly the partition count when there are partitions |
| Consumer.MemphisConsumer.Key | src/Memphis.Client/Consumer/MemphisConsumer.cs:10 | the key is the internal station name, then '_', then the real name |
| Consumer.MemphisConsumer.DlsSubscriptionName | src/Memphis.Client/Consumer/MemphisConsumer.cs:442-445 | the dead-letter subject of the internal station and internal group names |
| Consumer.MemphisConsumer.constructor | src/Memphis.Client/Consumer/MemphisConsumer.cs:43-66 | from options that pass the checks: a missing partition list becomes empty, the buffer is empty, consuming is active and the contexts are those of InitConsumerContext |
| Consumer.MemphisConsumer.SetPartitions | src/Memphis.Client/Consumer/MemphisConsumer.cs:26-40 | stores the partitions unchanged and installs a fresh resolver over max(1, count) partitions |
| Consumer.MemphisConsumer.InitConsumerContext | src/Memphis.Client/Consumer/MemphisConsumer.cs:73-95 | the loop leaves exactly the context map of ContextsFor |
| Consumer.MemphisConsumer.EnqueueDlsMessage | src/Memphis.Client/Consumer/MemphisConsumer.cs:519-527 | the buffer becomes EnqueueDls of the old buffer; nothing else changes |
| Consumer.MemphisConsumer.DequeueDlsMessages | src/Memphis.Client/Consumer/MemphisConsumer.cs:529-542 | the loop removes the min(count, max(batchSize, 1)) oldest entries, and the caller's sequence comes back unchanged |
| Consumer.MemphisConsumer.TryGetAndRemovePrefetchedMessages | src/Memphis.Client/Consumer/MemphisConsumer.cs:245-268 | result, messages and cache are TakePrefetched of the old cache under the lower-cased station name and the group |
| Consumer.MemphisConsumer.FetchSubscriptionWithTimeOut | src/Memphis.Client/Consumer/MemphisConsumer.cs:337-363 | the resolver advances once exactly when there are partitions, even when the selectors are then refused; the pull uses the selected partition's context and the caller's partition number |
| Consumer.MemphisConsumer.Fetch | src/Memphis.Client/Consumer/MemphisConsumer.cs:198-243 | an invalid batch size fails before anything changes; else the batch size is recorded; a non-empty dead-letter buffer is served alone, without touching cache or broker; else prefetched messages are served, else the broker, whose failures are rethrown; a prefetch is scheduled only when asked for |
| Consumer.MemphisConsumer.Prefetch | src/Memphis.Client/Consumer/MemphisConsumer.cs:270-284 | the cache entry is created even when the pull fails, and on success the pulled messages are appended |
| Consumer.MemphisConsumer.FetchFromPartition | src/Memphis.Client/Consumer/MemphisConsumer.cs:388-434 | partition 1 unless more than one context; otherwise the selector precedence, with the resolver consulted only when no selector is given; the event is FromPartitionEvent for the chosen partition |
| Consumer.MemphisConsumer.PingConsumer | src/Memphis.Client/Consumer/MemphisConsumer.cs:292-316 | one round: a station-unreachable event for exactly the unreachable partitions, and consuming stops exactly when there is one |
| Consumer.MemphisConsumer.ReceiveDlsMessage | src/Memphis.Client/Consumer/MemphisConsumer.cs:458-490 | without a handler the message is buffered by EnqueueDls; with one, an event is raised with the context under key 0, unpartitioned, or under the resolver's next partition |
| Consumer.MemphisConsumer.StopConsume | src/Memphis.Client/Consumer/MemphisConsumer.cs:332-335 | consuming stops and nothing else changes |
| Consumer.MemphisConsumer.DestroyAsync | src/Memphis.Client/Consumer/MemphisConsumer.cs:133-173 | consuming stops, the token is cancelled, the removal request names the consumer and the station, and the outcome is DestroyConsumerOutcome of the reply |
| Consumer.MemphisConsumer.SubscribeDls | src/Memphis.Client/Consumer/MemphisConsumer.cs:440-446 | ConsumeFromDls subscribes to the consumer group's dead-letter subject, and from then on the consumer has a dead-letter subscription |
| Consumer.MemphisConsumer.Dispose | src/Memphis.Client/Consumer/MemphisConsumer.cs:544-551 | consuming always stops; a consumer without a dead-letter subscription fails with a null reference at the drain and its token stays as it was; otherwise the token is cancelled; buffer and contexts are kept |
| Consumer.MemphisConsumer.DisposeIntended | src/Memphis.Client/Consumer/MemphisConsumer.cs:544-551 | with the drain guarded as in DestroyAsync, consuming stops and the token is cancelled in every case |
| Consumer.NewMemphisConsumer | src/Memphis.Client/Consumer/MemphisConsumer.cs:43-50 | construction fails exactly when CheckConsumerOptions fails, with its error; otherwise a fresh consumer in its initial state |
| Producer.SingleStationArgsCheck | src/Memphis.Client/Producer/MemphisProducer.cs:29-35 | passes exactly when the real name, producer name and station name are all present; each missing one is reported in that order |
| Producer.MultiStationArgsCheck | src/Memphis.Client/Producer/MemphisProducer.cs:41-52 | passes exactly when both names are present and the station list is neither null nor empty; failures in that order |
| Producer.StreamNameCases | src/Memphis.Client/Producer/MemphisProducer.cs:143-169 | no partition list gives the internal name; one partition gives its stream, with the selectors unchecked; with more, both selectors are refused, then key, then a valid number, then the resolver |
| Producer.SubjectOfPartitionStream | src/Memphis.Client/Producer/MemphisProducer.cs:234-246 | for a partition stream the partition read back is the one it was built from: the function stage subject when that partition has a function, else `.final` |
| Producer.SubjectOfUnpartitionedStream | src/Memphis.Client/Producer/MemphisProducer.cs:234-246 | as written, an unpartitioned station's stream goes to `.final` unless the station has function details, where reading the partition fails |
| Producer.FullSubjectNameIntended | src/Memphis.Client/Producer/MemphisProducer.cs:234-246 | agrees with the code wherever the code succeeds and gives `.final` where it fails |
| Producer.IntendedSubjectOfUnpartitionedStream | src/Memphis.Client/Producer/MemphisProducer.cs:234-246 | with the intended subject, an unpartitioned station always reaches `.final` |
| Producer.AddAllSpec | src/Memphis.Client/Producer/MemphisProducer.cs:385-388 | Dictionary.Add of the caller's headers succeeds exactly when no key repeats, and then the dictionary is the old one followed by the headers; a failure names a repeated key |
| Producer.DlsOutcomeSpec | src/Memphis.Client/Producer/MemphisProducer.cs:375-418 | a dead-letter record is published exactly when dead-lettering is enabled and no header key repeats, on the schemaverse dead-letter subject; its data decodes back to the payload; its headers are connection id, producer, then the caller's; the notification is sent only after a publication |
| Producer.ProduceValidatesFirst | src/Memphis.Client/Producer/MemphisProducer.cs:358-373 | a message that fails validation is never published nor retried, a schema failure is dead-lettered, and the validation error is raised unless building the record threw |
| Producer.ProduceRejectsEmptyMessageId | src/Memphis.Client/Producer/MemphisProducer.cs:182-183 | an empty message id is refused after validation and the choice of destination, before anything is published |
| Producer.ProducePublishedEnvelope | src/Memphis.Client/Producer/MemphisProducer.cs:171-193 | a published message goes to the stream's subject with the payload unchanged and the headers in order: producer, connection, message id when not blank, then the caller's |
| Producer.ProducePublishOutcome | src/Memphis.Client/Producer/MemphisProducer.cs:195-232 | with the async ack the produce succeeds at once; otherwise an ack error, a MemphisException and any other exception are mapped as in the source, and exactly one retry, passing the partition key but not the number, follows "no responders" |
| Producer.DestroyProducerOutcome | src/Memphis.Client/Producer/MemphisProducer.cs:323-336 | destroy succeeds exactly on an empty reply; every failure is wrapped as "Failed to destroy producer" |
| Producer.DestroyTargets | src/Memphis.Client/Producer/MemphisProducer.cs:343 | the producers destroyed are exactly the cached ones whose key is one of the multi-station producer's keys |
| Producer.MemphisProducer.Single | src/Memphis.Client/Producer/MemphisProducer.cs:29-39 | stores the names, the internal station name and a resolver over no partitions; not a multi-station producer |
| Producer.MemphisProducer.Multi | src/Memphis.Client/Producer/MemphisProducer.cs:41-55 | stores the names and the non-empty station list, with empty station names; a multi-station producer |
| Producer.MemphisProducer.Key | src/Memphis.Client/Producer/MemphisProducer.cs:12 | the key is the internal station name, then '_', then the real name |
| Producer.MemphisProducer.ProducerKeys | src/Memphis.Client/Producer/MemphisProducer.cs:341-342 | one key per station, in order: the internal station name with the real name |
| Producer.MemphisProducer.BuildHeaders | src/Memphis.Client/Producer/MemphisProducer.cs:175-193 | the headers added one by one are exactly MessageHeaders: producer, connection, message id when not blank, then the caller's |
| Producer.MemphisProducer.BuildDlsHeaders | src/Memphis.Client/Producer/MemphisProducer.cs:379-388 | the dictionary built one Add at a time is DlsHeaders, failing on the first repeated key |
| Producer.MemphisProducer.SendMessageToDls | src/Memphis.Client/Producer/MemphisProducer.cs:375-418 | the report is DlsOutcome: nothing when dead-lettering is off, else the record, and the notification when enabled |
| Producer.MemphisProducer.ChooseStream | src/Memphis.Client/Producer/MemphisProducer.cs:143-169 | the stream is StreamName with the resolver's next partition, and the resolver advances exactly when there is more than one partition |
| Producer.MemphisProducer.Publish | src/Memphis.Client/Producer/MemphisProducer.cs:182-232 | the report of the empty-id check, the envelope and the publish is PublishSpec |
| Producer.MemphisProducer.ProduceToBrokerAsync | src/Memphis.Client/Producer/MemphisProducer.cs:132-247 | the report is ProduceSpec with the resolver's next partition, and the resolver advances only when the stream choice consults it |
| Producer.MemphisProducer.MultiStationProduceAsync | src/Memphis.Client/Producer/MemphisProducer.cs:90-120 | one call per station in list order with the same arguments; the first failure stops the fan-out and is raised; earlier calls stand; success exactly when every call succeeded |
| Producer.MemphisProducer.ProduceAsync | src/Memphis.Client/Producer/MemphisProducer.cs:66-76 | a single-station producer makes exactly one call of the client's ProduceAsync, passing itself (its key) and the caller's arguments unchanged, and the outcome is that call's; a multi-station one makes no such call and fans out |
| Producer.MemphisProducer.DestroyAsync | src/Memphis.Client/Producer/MemphisProducer.cs:295-303 | a single-station producer sends its removal request; a multi-station one destroys exactly the DestroyTargets of the cache |
| Producer.MemphisProducer.DestroySingleStationProducerAsync | src/Memphis.Client/Producer/MemphisProducer.cs:306-337 | the removal request names the producer and station; the outcome is DestroyProducerOutcome of the reply |
| Producer.DestroyReachesStationProducers | src/Memphis.Client/Producer/MemphisProducer.cs:339-347 | a multi-station destroy reaches the cached single-station producer of each of its stations under the same real name |
| Producer.NewSingleStationProducer | src/Memphis.Client/Producer/MemphisProducer.cs:29-35 | construction fails exactly when SingleStationArgsCheck does, with its error |
| Producer.NewMultiStationProducer | src/Memphis.Client/Producer/MemphisProducer.cs:41-54 | construction fails exactly when MultiStationArgsCheck does, with its error |
| Client.Suffixed | src/Memphis.Client/MemphisClient.cs:70-73 | with the random-suffix flag the name is the old name, '_', then the key; without it, unchanged |
| Client.DefaultGroup | src/Memphis.Client/MemphisClient.cs:137-140 | an empty consumer group becomes the consumer name; any other group is kept |
| Client.ProducerCreation | src/Memphis.Client/MemphisClient.cs:62-118 | a dead connection fails unwrapped and changes nothing; every other failure is wrapped as "Failed to create memphis producer" and changes nothing; success, exactly for a clean response with a schema init, counts one more producer for the station, subscribes it, and keeps all earlier entries |
| Client.ConsumerCreationFailure | src/Memphis.Client/MemphisClient.cs:125-174 | creation succeeds exactly on a live connection, an empty reply and options that pass the consumer's checks; failures after the connection check are wrapped, a non-empty reply as the broker's error |
| Client.MemphisClient.constructor | src/Memphis.Client/MemphisClient.cs:37-52 | the connection is active and the registries are empty |
| Client.MemphisClient.ListenForSchemaUpdate | src/Memphis.Client/MemphisClient.cs:177-210 | the bookkeeping becomes Listen of the old one; a null init fails before anything changes |
| Client.MemphisClient.ProcessAndStoreSchemaUpdate | src/Memphis.Client/MemphisClient.cs:213-227 | bookkeeping and outcome are Store of the old bookkeeping |
| Client.MemphisClient.CreateProducer | src/Memphis.Client/MemphisClient.cs:62-118 | with a live connection the request carries the suffixed name and the internal station name; bookkeeping and result are ProducerCreation |
| Client.MemphisClient.CreateConsumer | src/Memphis.Client/MemphisClient.cs:125-174 | on a live connection the options get the suffixed name and the default group before the request; the result fails exactly as ConsumerCreationFailure says, else a fresh consumer without partitions |
| Client.MemphisClient.Dispose | src/Memphis.Client/MemphisClient.cs:229-236 | the connection is marked dead and the token cancelled; the bookkeeping is kept |
| Client.DisposeConsumer | src/Memphis.Client/Consumer/MemphisConsumer.cs:544-554 | disposing a consumer with a dead-letter subscription cancels its token and disposes its client, whose later creations then fail; without one it fails with a null reference and consumer token and client stay as they were |
| Client.DisposeConsumerIntended | src/Memphis.Client/Consumer/MemphisConsumer.cs:544-554 | with the drain guarded, disposing a consumer always cancels its token and disposes its client |

## Left out

- Broker I/O is not modelled: requests, publishes, subscriptions, pulls, draining and info lookups. Each answer is a parameter of the operation that receives it.
- Request and response bodies are reduced to their fields. JSON and UTF-8 serialisation are left out.
- Concurrency and timing are left out: the `Task.Run` prefetch, the schema-listener task, `Task.Delay` and cancellation.
  - The concurrent collections are sequential sequences and maps.
  - `ConsumeAsync`, `Consume`, `ConsumeFromDls` and `PingConsumer` are modelled by one round each: `FetchFromPartition`, `ReceiveDlsMessage` and `PingConsumer`. `ConsumeFromDls` also has its subscription step, `SubscribeDls`. The loops themselves are not modelled.
- `Fetch` returns whether it scheduled a prefetch. The prefetch itself is a separate call of `Prefetch`, because in the source it runs concurrently.
- `IsSubscriptionActive` and a null dead-letter message are left out, because they depend on the connection state.
- Consumer.MemphisConsumer.PingConsumer: the order in which contexts are visited is not modelled, because it is unspecified for a concurrent dictionary. The events are keyed by partition.
- `StationPartitionResolver`, `GetPartitionFromKey`, `EnsurePartitionNumberIsValid`, `EnsureBatchSizeIsValid`, `GetInternalName`, `ValidateMessageAsync`, `IsSchemaVerseToDlsEnabled` and `SendNotificationAsync` are not part of this model. They are abstract.
  - The model uses `MAX_BATCH_SIZE` as a constant only. It does not assume how `EnsureBatchSizeIsValid` uses it.
- Text.IsWhiteSpaceChar covers the ASCII and Latin-1 whitespace characters (U+0009 to U+000D, U+0020, U+0085, U+00A0). The other Unicode separators (U+1680, U+2000 to U+200A, U+2028, U+2029, U+202F, U+205F, U+3000) are left out.
- Text.ToLower lowers only the ASCII letters. Other letters and culture-specific casing are not modelled.
- Text.ParseInt32: leading and trailing whitespace and a leading '+' are not modelled. Only text produced by the client reaches it.
- The caller's `NameValueCollection` headers are a sequence of distinct-key pairs in `AllKeys` order. Its case-insensitive keys, its multi-valued entries and NATS header validation are left out.
- Null client and null options arguments are left out: the `memphisClient ?? throw` checks and the null `consumerOptions`.
  - Null names are modelled through `Option` in the producer constructors.
- `ProduceAsync<T>` and `SerializeMessage` are left out, because they involve reflection and schema serialisers.
- Producer.MemphisProducer.DestroyAsync: for a multi-station producer, the model returns the producers to destroy. It does not model each one's destroy outcome or a failure stopping the loop.
- `NotifyRemoveProducer` and `NotifyRemoveConsumer` after a successful destroy are left out. The drain of the consumer's dead-letter subscription in `DestroyAsync` and `Dispose` is left out as broker I/O; only the null dereference in `Dispose` is modelled.
- Client.MemphisClient.CreateProducer: the result is the argument record of `new MemphisProducer(this, producerName, stationName)`, the three-argument call at MemphisClient.cs:112. The producer class defines only four-argument constructors, so no producer object is built here.
- Client.MemphisClient.ListenForSchemaUpdate: the "Unable to add subscription" throw is not modelled. In a sequential model, `TryAdd` cannot fail after the lookup just before it found no entry.
- The lookup of `_schemaUpdateData` in `CreateProducer` is left out, because its body is empty.
- `CreateConsumer` wraps its failures in the message "Failed to create memphis producer", and the model keeps that wording.

## Findings

| source | as written | input that shows it | evidently intended | confidence | as-written member | corrected member |
|---|---|---|---|---|---|---|
| src/Memphis.Client/Consumer/MemphisConsumer.cs:541 | `messages.Concat(batchMessages)` discards its result, so a Fetch from a dead-letter buffer larger than the batch removes the oldest entries and returns nothing | a buffer of 3 messages, Fetch with batchSize 2: two messages are dropped, none returned | the dequeued batch is returned: returned + remaining == old buffer | high, not executed | ConsumerSpec.DlsFetchSpec | ConsumerSpec.DlsFetchIntended |
| src/Memphis.Client/Consumer/MemphisConsumer.cs:339 | an unpartitioned consumer reads partition 0 while InitConsumerContext (line 83) stores its only context under key 1 | no partitions, blank key, partition number -1: the context lookup finds nothing and the null context is dereferenced | the unpartitioned default is key 1, so the lookup always finds the context | high, not executed | ConsumerSpec.UnpartitionedFetchMissesContext | ConsumerSpec.IntendedSelectionFindsContext |
| src/Memphis.Client/Consumer/MemphisConsumer.cs:522 | the oldest dead-letter entry is evicted only when more than 10,000 are held, so the buffer holds 10,001 | 10,001 messages enqueued into an empty buffer are all kept | the buffer holds at most 10,000 | low, not executed | ConsumerSpec.DlsBufferExceedsThreshold | ConsumerSpec.EnqueueDlsIntended |
| src/Memphis.Client/Producer/MemphisProducer.cs:238 | the partition is read from the text after '$' even for a stream name without one | a station without partitions for which the client holds function details: `Split('$')[1]` is out of range and the produce fails | a stream without a partition goes to `.final` | low, not executed | Producer.SubjectOfUnpartitionedStream | Producer.FullSubjectNameIntended |
| src/Memphis.Client/Consumer/MemphisConsumer.cs:547 | Dispose drains the dead-letter subscription without a null check, though it is made only when ConsumeFromDls starts (line 446) | a consumer used only through Fetch, then disposed: the drain throws a null reference before the token is cancelled (line 549) and before the client is disposed (line 552) | the drain is guarded as in DestroyAsync (line 137), and the token and client are always disposed | high, not executed | Client.DisposeConsumer | Client.DisposeConsumerIntended |

The corrected members are proved beside the as-written ones. The classes follow the code as written:

- `Fetch` and `DequeueDlsMessages` drop the dequeued batch;
- `FetchSubscriptionWithTimeOut` and `ReceiveDlsMessage` look up key 0;
- `EnqueueDlsMessage` evicts above 10,000;
- `ProduceToBrokerAsync` fails on the unpartitioned subject;
- `Consumer.MemphisConsumer.Dispose` and `Client.DisposeConsumer` fail on a consumer without a dead-letter subscription.

The same key-0 lookup leaves every dead-letter event of an unpartitioned consumer without a context (`ConsumerSpec.UnpartitionedDlsEventHasNoContext`).
