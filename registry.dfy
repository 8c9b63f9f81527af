/** The client's schema-update bookkeeping as a value (src/Memphis.Client/MemphisClient.cs):
    the schema init recorded per station, the schema-update subscription per station, and the
    number of producers created per station. The class in module Client keeps the same three
    maps as fields and is proved against these functions. */
module SchemaRegistry {
  import opened Wrappers
  import opened Errors
  import opened Text
  import MemphisConstants

  /** The schema part of a producer-creation response or a schema-update message
      (ProducerSchemaUpdateInit): the schema name, which may be null, and the rest of the
      schema description, which the bookkeeping only stores. */
  datatype SchemaUpdateInit = SchemaUpdateInit(schemaName: Option<string>, details: string)

  datatype Registry = Registry(
    /** _schemaUpdateDictionary: internal station name to recorded schema init */
    schemaUpdates: map<string, SchemaUpdateInit>,
    /** _subscriptionPerSchema: internal station name to the subject its subscription listens on */
    subscriptions: map<string, string>,
    /** _producerPerStations: internal station name to number of producers */
    producerCounts: map<string, nat>)

  const EMPTY: Registry := Registry(map[], map[], map[])

  /** The number of producers recorded for a station; none when it has no entry. */
  function ProducerCount(registry: Registry, internalStation: string): nat {
    if internalStation in registry.producerCounts then registry.producerCounts[internalStation] else 0
  }

  /** A schema init with a name is recorded unless the station already has one (TryAdd). */
  function RecordInit(updates: map<string, SchemaUpdateInit>, internalStation: string, init: SchemaUpdateInit): map<string, SchemaUpdateInit> {
    if !IsNullOrEmpty(init.schemaName) && internalStation !in updates then updates[internalStation := init] else updates
  }

  /** listenForSchemaUpdate: record the init (first writer wins), subscribe to the station's
      schema-update subject unless already subscribed, and count one more producer. */
  function Listen(registry: Registry, internalStation: string, init: SchemaUpdateInit): Registry {
    Registry(
      RecordInit(registry.schemaUpdates, internalStation, init),
      if internalStation in registry.subscriptions then registry.subscriptions
      else registry.subscriptions[internalStation := MemphisConstants.SchemaUpdateSubject(internalStation)],
      registry.producerCounts[internalStation := ProducerCount(registry, internalStation) + 1])
  }

  /** One listenForSchemaUpdate call per (station, init) pair, in order. */
  function ListenAll(registry: Registry, calls: seq<(string, SchemaUpdateInit)>): Registry
    decreases |calls|
  {
    if |calls| == 0 then registry else ListenAll(Listen(registry, calls[0].0, calls[0].1), calls[1..])
  }

  /** How many of the calls name the station. */
  function Occurrences(calls: seq<(string, SchemaUpdateInit)>, internalStation: string): nat
    decreases |calls|
  {
    if |calls| == 0 then 0
    else (if calls[0].0 == internalStation then 1 else 0) + Occurrences(calls[1..], internalStation)
  }

  /** Every call counts exactly one producer for its station, whether or not a subscription
      already existed; each station listened to has exactly one subscription, on its own
      schema-update subject; and a recorded schema init is never replaced. */
  lemma {:induction false} ListenAllSpec(registry: Registry, calls: seq<(string, SchemaUpdateInit)>)
    requires forall s :: s in registry.subscriptions ==> registry.subscriptions[s] == MemphisConstants.SchemaUpdateSubject(s)
    ensures forall s :: ProducerCount(ListenAll(registry, calls), s) == ProducerCount(registry, s) + Occurrences(calls, s)
    ensures forall s :: s in ListenAll(registry, calls).subscriptions <==>
      s in registry.subscriptions || exists i :: 0 <= i < |calls| && calls[i].0 == s
    ensures forall s :: s in ListenAll(registry, calls).subscriptions ==>
      ListenAll(registry, calls).subscriptions[s] == MemphisConstants.SchemaUpdateSubject(s)
    ensures forall s :: s in registry.schemaUpdates ==>
      s in ListenAll(registry, calls).schemaUpdates && ListenAll(registry, calls).schemaUpdates[s] == registry.schemaUpdates[s]
    decreases |calls|
  {
    if |calls| > 0 {
      var next := Listen(registry, calls[0].0, calls[0].1);
      ListenAllSpec(next, calls[1..]);
      forall s
        ensures s in ListenAll(registry, calls).subscriptions <==>
          s in registry.subscriptions || exists i :: 0 <= i < |calls| && calls[i].0 == s
      {
        if exists i :: 0 <= i < |calls[1..]| && calls[1..][i].0 == s {
          var i :| 0 <= i < |calls[1..]| && calls[1..][i].0 == s;
          assert calls[i + 1].0 == s;
        }
        if exists i :: 0 <= i < |calls| && calls[i].0 == s {
          var i :| 0 <= i < |calls| && calls[i].0 == s;
          if i > 0 {
            assert calls[1..][i - 1].0 == s;
          }
        }
      }
    }
  }

  /** The first schema init with a name among the calls for a station, if any. */
  function FirstNamedInit(calls: seq<(string, SchemaUpdateInit)>, internalStation: string): Option<SchemaUpdateInit>
    decreases |calls|
  {
    if |calls| == 0 then None
    else if calls[0].0 == internalStation && !IsNullOrEmpty(calls[0].1.schemaName) then Some(calls[0].1)
    else FirstNamedInit(calls[1..], internalStation)
  }

  /** First writer wins: starting from a station without a recorded init, after any series of
      calls the station's recorded init is the first one with a name, and none is recorded when
      no call carried a name. */
  lemma {:induction false} ListenAllFirstWriterWins(registry: Registry, calls: seq<(string, SchemaUpdateInit)>, internalStation: string)
    requires internalStation !in registry.schemaUpdates
    ensures var updates := ListenAll(registry, calls).schemaUpdates;
      match FirstNamedInit(calls, internalStation)
      case None => internalStation !in updates
      case Some(init) => internalStation in updates && updates[internalStation] == init
    decreases |calls|
  {
    if |calls| > 0 {
      var next := Listen(registry, calls[0].0, calls[0].1);
      if calls[0].0 == internalStation && !IsNullOrEmpty(calls[0].1.schemaName) {
        assert next.schemaUpdates[internalStation] == calls[0].1;
        ListenAllKeepsRecorded(next, calls[1..], internalStation);
      } else {
        ListenAllFirstWriterWins(next, calls[1..], internalStation);
      }
    }
  }

  /** A recorded init survives any series of calls unchanged. */
  lemma {:induction false} ListenAllKeepsRecorded(registry: Registry, calls: seq<(string, SchemaUpdateInit)>, internalStation: string)
    requires internalStation in registry.schemaUpdates
    ensures internalStation in ListenAll(registry, calls).schemaUpdates
    ensures ListenAll(registry, calls).schemaUpdates[internalStation] == registry.schemaUpdates[internalStation]
    decreases |calls|
  {
    if |calls| > 0 {
      ListenAllKeepsRecorded(Listen(registry, calls[0].0, calls[0].1), calls[1..], internalStation);
    }
  }

  /** processAndStoreSchemaUpdate: `update` is the init a schema-update message carries (None when
      the message or its init is null). An init without a name is ignored; one with a name is
      recorded if the station has none, and otherwise the call throws without replacing it.
      A store never replaces a recorded init and touches nothing but the station's own entry. */
  function Store(registry: Registry, internalStation: string, update: Option<SchemaUpdateInit>): (r: (Registry, Outcome<MemphisError>))
    ensures r.0.subscriptions == registry.subscriptions && r.0.producerCounts == registry.producerCounts
    ensures r.1.Fail? <==> update.Some? && !IsNullOrEmpty(update.value.schemaName) && internalStation in registry.schemaUpdates
    ensures r.1.Fail? ==> r.1.error == UnableToSaveSchemaData && r.0 == registry
    ensures forall s :: s in registry.schemaUpdates ==> s in r.0.schemaUpdates && r.0.schemaUpdates[s] == registry.schemaUpdates[s]
    ensures forall s :: s != internalStation ==> (s in r.0.schemaUpdates <==> s in registry.schemaUpdates)
    ensures update.Some? && !IsNullOrEmpty(update.value.schemaName) && internalStation !in registry.schemaUpdates ==>
      internalStation in r.0.schemaUpdates && r.0.schemaUpdates[internalStation] == update.value
    ensures (update.None? || IsNullOrEmpty(update.value.schemaName)) ==> r == (registry, Pass)
  {
    if update.None? || IsNullOrEmpty(update.value.schemaName) then
      (registry, Pass)
    else if internalStation in registry.schemaUpdates then
      (registry, Fail(UnableToSaveSchemaData))
    else
      (registry.(schemaUpdates := registry.schemaUpdates[internalStation := update.value]), Pass)
  }
}
