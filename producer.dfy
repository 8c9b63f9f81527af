/** The producer of src/Memphis.Client/Producer/MemphisProducer.cs: where a message goes (stream
    and subject), the envelope it travels in (headers in order), the dead-letter record of a
    message that fails schema validation, the mapping of publish failures to exceptions, the
    fan-out of a multi-station producer, and the keys a destroy acts on. The decisions are
    functions; the producer object, whose resolver cursor advances, is a class proved against them. */
module Producer {
  import opened Wrappers
  import opened Errors
  import opened Text
  import opened Services
  import MemphisConstants
  import Broker
  import Partitioning

  /** One header: key and value. */
  type Header = (string, string)

  /** No two headers share a key. */
  predicate DistinctKeys(headers: seq<Header>) {
    forall i, j :: 0 <= i < j < |headers| ==> headers[i].0 != headers[j].0
  }

  predicate HasKey(headers: seq<Header>, key: string) {
    exists i :: 0 <= i < |headers| && headers[i].0 == key
  }

  // ---------------------------------------------------------------- construction

  /** The null checks of the single-station constructor, in its order: real name, producer
      name, station name. */
  function SingleStationArgsCheck(producerName: Option<string>, stationName: Option<string>,
                                  realName: Option<string>): (r: Outcome<MemphisError>)
    ensures r == Pass <==> realName.Some? && producerName.Some? && stationName.Some?
    ensures r == Fail(ArgumentNull("realName")) <==> realName.None?
    ensures r == Fail(ArgumentNull("producerName")) <==> realName.Some? && producerName.None?
    ensures r == Fail(ArgumentNull("stationName")) <==> realName.Some? && producerName.Some? && stationName.None?
  {
    if realName.None? then Fail(ArgumentNull("realName"))
    else if producerName.None? then Fail(ArgumentNull("producerName"))
    else if stationName.None? then Fail(ArgumentNull("stationName"))
    else Pass
  }

  /** The ArgumentNullException parameter text for a missing or empty station list. */
  const STATIONS_NULL_OR_EMPTY: string := "stations cannot be null or empty"

  /** The checks of the multi-station constructor, in its order: real name, producer name, then
      a station list that is neither null nor empty. */
  function MultiStationArgsCheck(producerName: Option<string>, realName: Option<string>,
                                 stations: Option<seq<string>>): (r: Outcome<MemphisError>)
    ensures r == Pass <==> realName.Some? && producerName.Some? && stations.Some? && |stations.value| > 0
    ensures r == Fail(ArgumentNull("realName")) <==> realName.None?
    ensures r == Fail(ArgumentNull("producerName")) <==> realName.Some? && producerName.None?
    ensures r == Fail(ArgumentNull(STATIONS_NULL_OR_EMPTY)) <==>
      realName.Some? && producerName.Some? && (stations.None? || |stations.value| == 0)
  {
    if realName.None? then Fail(ArgumentNull("realName"))
    else if producerName.None? then Fail(ArgumentNull("producerName"))
    else if stations.None? || |stations.value| == 0 then Fail(ArgumentNull(STATIONS_NULL_OR_EMPTY))
    else Pass
  }

  /** The key a producer is registered under: `<internal station>_<real name>`. */
  function ProducerKey(internalStation: string, realName: string): string {
    internalStation + "_" + realName
  }

  // ---------------------------------------------------------------- destination

  /** The partition list the client records for an internal station name; empty when there is
      no entry or the entry holds no list. */
  function PartitionList(services: ClientServices, internalStation: string): seq<int> {
    if internalStation in services.stationPartitions && services.stationPartitions[internalStation].Some?
    then services.stationPartitions[internalStation].value
    else []
  }

  /** Whether choosing the stream advances the resolver: only with more than one partition and
      when the selectors are not both set. */
  predicate ResolverConsulted(services: ClientServices, internalStation: string, partitionKey: string, partitionNumber: int) {
    |PartitionList(services, internalStation)| > 1 && !(partitionNumber > 0 && !IsBlank(partitionKey))
  }

  /** The stream a message is published to; `resolved` is the resolver's answer when it is
      consulted. No partition information gives the station's own stream; one partition gives
      that partition's stream whatever the selectors; more than one goes through the selectors
      and the resolver. */
  function StreamName(services: ClientServices, internalStation: string, resolved: int,
                      partitionKey: string, partitionNumber: int): Result<string, MemphisError>
  {
    var partitions := PartitionList(services, internalStation);
    if |partitions| == 0 then
      Success(internalStation)
    else if |partitions| == 1 then
      Success(PartitionStream(internalStation, partitions[0]))
    else
      match SelectPartition(services, internalStation, resolved, partitionKey, partitionNumber)
      case Failure(e) => Failure(e)
      case Success(p) => Success(PartitionStream(internalStation, p))
  }

  /** The stream-name rules: the station's own stream without partitions; the one partition's
      stream whatever the selectors; with several partitions, both selectors are refused, the key
      beats the number and the number beats the resolver. */
  lemma StreamNameCases(services: ClientServices, internalStation: string, resolved: int,
                        partitionKey: string, partitionNumber: int)
    ensures var partitions := PartitionList(services, internalStation);
      var r := StreamName(services, internalStation, resolved, partitionKey, partitionNumber);
      && (|partitions| == 0 ==> r == Success(internalStation))
      && (|partitions| == 1 ==> r == Success(PartitionStream(internalStation, partitions[0])))
      && (|partitions| > 1 && !IsBlank(partitionKey) && partitionNumber > 0 ==> r == Failure(BothPartitionNumAndKey))
      && (|partitions| > 1 && !IsBlank(partitionKey) && partitionNumber <= 0 ==>
            r == Success(PartitionStream(internalStation, services.partitionFromKey(partitionKey, internalStation))))
      && (|partitions| > 1 && IsBlank(partitionKey) && partitionNumber > 0 ==>
            r == if services.partitionNumberValid(partitionNumber, internalStation)
                 then Success(PartitionStream(internalStation, partitionNumber))
                 else Failure(InvalidPartitionNumber(partitionNumber)))
      && (|partitions| > 1 && IsBlank(partitionKey) && partitionNumber <= 0 ==>
            r == Success(PartitionStream(internalStation, resolved)))
  {
  }

  /** FullSubjectName: when the client has function details for the station, the partition is
      read back from the stream name (the text after its first '$', as a 32-bit integer) and a
      partition with a function gets `<stream>.functions.<id>`; every other message goes to
      `<stream>.final`. A stream name without '$' fails on the missing piece, one whose piece is
      not a 32-bit integer fails to convert. */
  function FullSubjectName(services: ClientServices, internalStation: string, streamName: string): Result<string, MemphisError> {
    if internalStation !in services.functionDetails then
      Success(streamName + ".final")
    else
      var pieces := Split(streamName, '$');
      if |pieces| < 2 then
        Failure(SplitIndexOutOfRange)
      else
        match ParseInt32(pieces[1])
        case None => Failure(NotAnInt32(pieces[1]))
        case Some(p) =>
          if p in services.functionDetails[internalStation]
          then Success(streamName + ".functions." + services.functionDetails[internalStation][p])
          else Success(streamName + ".final")
  }

  lemma NoDollarInIntToString(p: int)
    ensures '$' !in IntToString(p)
  {
  }

  /** For the stream of a partition (a station name without '$', a 32-bit partition number) the
      partition read back is the one the stream was built from, so the subject is the stage of
      the function attached to that partition, or the final subject when none is. */
  lemma SubjectOfPartitionStream(services: ClientServices, internalStation: string, partition: int)
    requires '$' !in internalStation && IsInt32(partition)
    ensures var stream := PartitionStream(internalStation, partition);
      FullSubjectName(services, internalStation, stream) ==
        if internalStation in services.functionDetails && partition in services.functionDetails[internalStation]
        then Success(stream + ".functions." + services.functionDetails[internalStation][partition])
        else Success(stream + ".final")
  {
    var digits := IntToString(partition);
    var stream := PartitionStream(internalStation, partition);
    assert stream == internalStation + ['$'] + digits;
    SplitAtFirstSeparator(internalStation, digits, '$');
    NoDollarInIntToString(partition);
    SplitWithoutSeparator(digits, '$');
    ParseInt32OfIntToString(partition);
  }

  /** The stream of an unpartitioned station holds no '$': it goes to the final subject, unless
      the station has function details, where reading the partition fails. */
  lemma SubjectOfUnpartitionedStream(services: ClientServices, internalStation: string)
    requires '$' !in internalStation
    ensures FullSubjectName(services, internalStation, internalStation) ==
      if internalStation in services.functionDetails then Failure(SplitIndexOutOfRange)
      else Success(internalStation + ".final")
  {
    SplitWithoutSeparator(internalStation, '$');
  }

  /** The subject as evidently intended: a stream name that carries no readable partition goes
      to the final subject instead of failing. */
  function FullSubjectNameIntended(services: ClientServices, internalStation: string, streamName: string): (r: string)
    ensures FullSubjectName(services, internalStation, streamName).Success? ==>
      r == FullSubjectName(services, internalStation, streamName).value
    ensures FullSubjectName(services, internalStation, streamName).Failure? ==> r == streamName + ".final"
  {
    if internalStation !in services.functionDetails then
      streamName + ".final"
    else
      var pieces := Split(streamName, '$');
      if |pieces| < 2 then
        streamName + ".final"
      else
        match ParseInt32(pieces[1])
        case None => streamName + ".final"
        case Some(p) =>
          if p in services.functionDetails[internalStation]
          then streamName + ".functions." + services.functionDetails[internalStation][p]
          else streamName + ".final"
  }

  /** With the intended subject, an unpartitioned station's messages reach its final subject
      whether or not it has function details. */
  lemma IntendedSubjectOfUnpartitionedStream(services: ClientServices, internalStation: string)
    requires '$' !in internalStation
    ensures FullSubjectNameIntended(services, internalStation, internalStation) == internalStation + ".final"
  {
    SplitWithoutSeparator(internalStation, '$');
  }

  // ---------------------------------------------------------------- envelope

  /** The headers of a produced message, in the order they are added: producer name, connection
      id, the message id when it is neither null nor blank, then the caller's headers in order. */
  function MessageHeaders(producerName: string, connectionId: string, messageId: Option<string>,
                          headers: seq<Header>): seq<Header>
  {
    [(MemphisConstants.MEMPHIS_PRODUCED_BY, producerName), (MemphisConstants.MEMPHIS_CONNECTION_ID, connectionId)]
    + (if IsNullOrWhiteSpace(messageId) then [] else [(MemphisConstants.MESSAGE_ID, messageId.value)])
    + headers
  }

  /** Dictionary.Add of each header in turn onto `dictionary`: a key already present throws. */
  function AddAll(dictionary: seq<Header>, headers: seq<Header>): Result<seq<Header>, MemphisError>
    decreases |headers|
  {
    if |headers| == 0 then Success(dictionary)
    else if HasKey(dictionary, headers[0].0) then Failure(DuplicateHeaderKey(headers[0].0))
    else AddAll(dictionary + [headers[0]], headers[1..])
  }

  /** Adding headers to a dictionary succeeds exactly when the result has distinct keys, and then
      the dictionary holds the headers after its own entries, in order; a failure names a key
      of the headers. */
  lemma {:induction false} AddAllSpec(dictionary: seq<Header>, headers: seq<Header>)
    requires DistinctKeys(dictionary)
    ensures AddAll(dictionary, headers).Success? <==> DistinctKeys(dictionary + headers)
    ensures AddAll(dictionary, headers).Success? ==> AddAll(dictionary, headers).value == dictionary + headers
    ensures AddAll(dictionary, headers).Failure? ==>
      exists i :: 0 <= i < |headers| && AddAll(dictionary, headers).error == DuplicateHeaderKey(headers[i].0)
    decreases |headers|
  {
    if |headers| > 0 {
      var h := headers[0];
      var all := dictionary + headers;
      assert all == (dictionary + [h]) + headers[1..];
      if HasKey(dictionary, h.0) {
        var i :| 0 <= i < |dictionary| && dictionary[i].0 == h.0;
        assert all[i].0 == all[|dictionary|].0;
      } else {
        assert DistinctKeys(dictionary + [h]);
        AddAllSpec(dictionary + [h], headers[1..]);
        var r := AddAll(dictionary + [h], headers[1..]);
        if r.Failure? {
          var i :| 0 <= i < |headers[1..]| && r.error == DuplicateHeaderKey(headers[1..][i].0);
          assert headers[1..][i] == headers[i + 1];
        }
      }
    }
  }

  /** The headers of a dead-letter record: connection id, producer name, then the caller's. */
  function DlsHeaders(connectionId: string, producerName: string, headers: seq<Header>): Result<seq<Header>, MemphisError> {
    AddAll([(MemphisConstants.MEMPHIS_CONNECTION_ID, connectionId), (MemphisConstants.MEMPHIS_PRODUCED_BY, producerName)], headers)
  }

  /** The record published for a message that failed schema validation (DlsMessage). */
  datatype DlsMessage = DlsMessage(stationName: string, producerName: string, connectionId: string,
                                   data: string, headers: seq<Header>, validationError: string)

  datatype DlsPublication = DlsPublication(subject: string, message: DlsMessage)

  /** What SendMessageToDls did: the record it published, whether it sent the notification,
      and the exception it raised, if any. */
  datatype DlsReport = DlsReport(publication: Option<DlsPublication>, notified: bool, failure: Option<MemphisError>)

  /** SendMessageToDls: nothing unless dead-lettering is enabled for the station; otherwise the
      record (payload as hexadecimal, the header dictionary) goes to the schemaverse dead-letter
      subject and a notification follows when notifications are enabled. A caller header that
      repeats a key makes building the dictionary throw before anything is published. */
  function DlsOutcome(services: ClientServices, internalStation: string, producerName: string,
                      message: seq<bv8>, headers: seq<Header>, validationError: string): DlsReport
  {
    if !services.schemaVerseToDls(internalStation) then
      DlsReport(None, false, None)
    else
      match DlsHeaders(services.connectionId, producerName, headers)
      case Failure(e) => DlsReport(None, false, Some(e))
      case Success(dictionary) =>
        var record := DlsMessage(internalStation, producerName, services.connectionId,
                                 HexString(message), dictionary, validationError);
        DlsReport(Some(DlsPublication(MemphisConstants.MEMPHIS_SCHEMA_VERSE_DLS, record)),
                  services.sendingNotificationEnabled, None)
  }

  /** A dead-letter record is published exactly when dead-lettering is enabled and no caller
      header repeats a system key or another caller key; its payload is two upper-case hex
      digits per byte that decode back to the message, and its headers are the system ones
      followed by the caller's. */
  lemma DlsOutcomeSpec(services: ClientServices, internalStation: string, producerName: string,
                       message: seq<bv8>, headers: seq<Header>, validationError: string)
    ensures var d := DlsOutcome(services, internalStation, producerName, message, headers, validationError);
      var system := [(MemphisConstants.MEMPHIS_CONNECTION_ID, services.connectionId), (MemphisConstants.MEMPHIS_PRODUCED_BY, producerName)];
      && (d.publication.Some? <==> services.schemaVerseToDls(internalStation) && DistinctKeys(system + headers))
      && (d.failure.Some? <==> services.schemaVerseToDls(internalStation) && !DistinctKeys(system + headers))
      && (d.notified ==> d.publication.Some? && services.sendingNotificationEnabled)
      && (d.publication.Some? ==>
            && d.publication.value.subject == MemphisConstants.MEMPHIS_SCHEMA_VERSE_DLS
            && d.publication.value.message.headers == system + headers
            && |d.publication.value.message.data| == 2 * |message|
            && HexDecode(d.publication.value.message.data) == Some(message)
            && d.publication.value.message.validationError == validationError)
  {
    var system := [(MemphisConstants.MEMPHIS_CONNECTION_ID, services.connectionId), (MemphisConstants.MEMPHIS_PRODUCED_BY, producerName)];
    assert DistinctKeys(system);
    AddAllSpec(system, headers);
    HexRoundTrip(message);
  }

  // ---------------------------------------------------------------- produce

  /** What ValidateMessageAsync did: passed, raised a schema-validation exception with its
      message, or raised some other exception. */
  datatype ValidationResult = Valid | SchemaInvalid(message: string) | ValidationFailed(error: MemphisError)

  /** How the awaited publish ended: acknowledged, acknowledged with an error description, no
      responders, a MemphisException, or another exception with its message. */
  datatype PublishResult = Acked | AckError(description: string) | NoResponders
                         | MemphisFailure(error: MemphisError) | OtherFailure(message: string)

  /** The re-produce through the client after "no responders": the same payload, headers,
      ack wait, ack mode, message id and partition key; the partition number is not passed. */
  datatype RetryCall = RetryCall(message: seq<bv8>, headers: seq<Header>, ackWaitMs: int,
                                 asyncProduceAck: bool, messageId: Option<string>, partitionKey: string)

  /** Everything ProduceToBrokerAsync did that can be observed: the dead-letter report, the
      message it published, the retry it made, and how it ended. */
  datatype ProduceReport = ProduceReport(dls: DlsReport, published: Option<Broker.Msg>,
                                         retry: Option<RetryCall>, outcome: Outcome<MemphisError>)

  /** The publish error mapping: an ack error becomes a MemphisException with its description, a
      MemphisException passes unchanged, any other exception becomes a MemphisException with its
      message; "no responders" ends as the retry ends. */
  function PublishOutcome(publish: PublishResult, retryOutcome: Outcome<MemphisError>): Outcome<MemphisError> {
    match publish
    case Acked => Pass
    case AckError(d) => Fail(Memphis(d))
    case NoResponders => retryOutcome
    case MemphisFailure(e) => Fail(e)
    case OtherFailure(m) => Fail(Memphis(m))
  }

  /** The last steps of ProduceToBrokerAsync once the subject is known: the empty-id check, the
      envelope, then the publish and its error mapping. */
  function PublishSpec(services: ClientServices, producerName: string, subject: string,
                       message: seq<bv8>, headers: seq<Header>, asyncProduceAck: bool,
                       partitionKey: string, ackWaitMs: int, messageId: Option<string>,
                       publish: PublishResult, retryOutcome: Outcome<MemphisError>): ProduceReport
  {
    var none := DlsReport(None, false, None);
    if messageId == Some("") then
      ProduceReport(none, None, None, Fail(EmptyMessageId))
    else
      var msg := Broker.Msg(subject, message, MessageHeaders(producerName, services.connectionId, messageId, headers));
      if asyncProduceAck then
        ProduceReport(none, Some(msg), None, Pass)
      else
        var retry := if publish.NoResponders?
          then Some(RetryCall(message, headers, ackWaitMs, asyncProduceAck, messageId, partitionKey))
          else None;
        ProduceReport(none, Some(msg), retry, PublishOutcome(publish, retryOutcome))
  }

  /** ProduceToBrokerAsync, step by step: validation (with dead-lettering on a schema failure),
      the stream, the subject, then the publish. */
  function ProduceSpec(services: ClientServices, producerName: string, internalStation: string, resolved: int,
                       message: seq<bv8>, headers: seq<Header>, asyncProduceAck: bool,
                       partitionKey: string, partitionNumber: int, ackWaitMs: int, messageId: Option<string>,
                       validation: ValidationResult, publish: PublishResult, retryOutcome: Outcome<MemphisError>): ProduceReport
  {
    var none := DlsReport(None, false, None);
    match validation
    case ValidationFailed(e) => ProduceReport(none, None, None, Fail(e))
    case SchemaInvalid(v) =>
      var d := DlsOutcome(services, internalStation, producerName, message, headers, v);
      ProduceReport(d, None, None, Fail(if d.failure.Some? then d.failure.value else SchemaValidation(v)))
    case Valid =>
      match StreamName(services, internalStation, resolved, partitionKey, partitionNumber)
      case Failure(e) => ProduceReport(none, None, None, Fail(e))
      case Success(stream) =>
        match FullSubjectName(services, internalStation, stream)
        case Failure(e) => ProduceReport(none, None, None, Fail(e))
        case Success(subject) =>
          PublishSpec(services, producerName, subject, message, headers, asyncProduceAck,
                      partitionKey, ackWaitMs, messageId, publish, retryOutcome)
  }

  /** Validation comes first: a message that fails it is never published nor retried, and the
      schema-validation exception is rethrown unless building the dead-letter record threw. */
  lemma ProduceValidatesFirst(services: ClientServices, producerName: string, internalStation: string, resolved: int,
                              message: seq<bv8>, headers: seq<Header>, asyncProduceAck: bool,
                              partitionKey: string, partitionNumber: int, ackWaitMs: int, messageId: Option<string>,
                              validation: ValidationResult, publish: PublishResult, retryOutcome: Outcome<MemphisError>)
    requires !validation.Valid?
    ensures var r := ProduceSpec(services, producerName, internalStation, resolved, message, headers, asyncProduceAck,
                                 partitionKey, partitionNumber, ackWaitMs, messageId, validation, publish, retryOutcome);
      && r.published.None? && r.retry.None? && r.outcome.Fail?
      && (validation.ValidationFailed? ==> r.outcome == Fail(validation.error) && r.dls.publication.None?)
      && (validation.SchemaInvalid? ==>
            && r.dls == DlsOutcome(services, internalStation, producerName, message, headers, validation.message)
            && (r.dls.failure.None? ==> r.outcome == Fail(SchemaValidation(validation.message))))
  {
  }

  /** An empty message id is refused after validation and the choice of destination succeed and
      before anything is published. */
  lemma ProduceRejectsEmptyMessageId(services: ClientServices, producerName: string, internalStation: string, resolved: int,
                                     message: seq<bv8>, headers: seq<Header>, asyncProduceAck: bool,
                                     partitionKey: string, partitionNumber: int, ackWaitMs: int,
                                     publish: PublishResult, retryOutcome: Outcome<MemphisError>)
    requires StreamName(services, internalStation, resolved, partitionKey, partitionNumber).Success?
    requires FullSubjectName(services, internalStation,
                             StreamName(services, internalStation, resolved, partitionKey, partitionNumber).value).Success?
    ensures var r := ProduceSpec(services, producerName, internalStation, resolved, message, headers, asyncProduceAck,
                                 partitionKey, partitionNumber, ackWaitMs, Some(""), Valid, publish, retryOutcome);
      r.outcome == Fail(EmptyMessageId) && r.published.None? && r.retry.None?
  {
  }

  /** A published message goes to the subject of its stream, carries the payload unchanged, and
      holds the headers in order: producer, connection, message id when present, caller's. */
  lemma ProducePublishedEnvelope(services: ClientServices, producerName: string, internalStation: string, resolved: int,
                                 message: seq<bv8>, headers: seq<Header>, asyncProduceAck: bool,
                                 partitionKey: string, partitionNumber: int, ackWaitMs: int, messageId: Option<string>,
                                 validation: ValidationResult, publish: PublishResult, retryOutcome: Outcome<MemphisError>)
    ensures var r := ProduceSpec(services, producerName, internalStation, resolved, message, headers, asyncProduceAck,
                                 partitionKey, partitionNumber, ackWaitMs, messageId, validation, publish, retryOutcome);
      var stream := StreamName(services, internalStation, resolved, partitionKey, partitionNumber);
      r.published.Some? ==>
        && validation.Valid? && stream.Success? && messageId != Some("")
        && Success(r.published.value.subject) == FullSubjectName(services, internalStation, stream.value)
        && r.published.value.data == message
        && r.published.value.headers[..2] == [(MemphisConstants.MEMPHIS_PRODUCED_BY, producerName),
                                              (MemphisConstants.MEMPHIS_CONNECTION_ID, services.connectionId)]
        && r.published.value.headers[|r.published.value.headers| - |headers|..] == headers
        && (|r.published.value.headers| == |headers| + 3 <==> !IsNullOrWhiteSpace(messageId))
        && (!IsNullOrWhiteSpace(messageId) ==> r.published.value.headers[2] == (MemphisConstants.MESSAGE_ID, messageId.value))
  {
  }

  /** The outcome of a produce that reached the publish: with the async ack it succeeds at once;
      otherwise the publish error mapping decides, and exactly one retry, with the partition key,
      follows "no responders". */
  lemma ProducePublishOutcome(services: ClientServices, producerName: string, internalStation: string, resolved: int,
                              message: seq<bv8>, headers: seq<Header>, asyncProduceAck: bool,
                              partitionKey: string, partitionNumber: int, ackWaitMs: int, messageId: Option<string>,
                              validation: ValidationResult, publish: PublishResult, retryOutcome: Outcome<MemphisError>)
    ensures var r := ProduceSpec(services, producerName, internalStation, resolved, message, headers, asyncProduceAck,
                                 partitionKey, partitionNumber, ackWaitMs, messageId, validation, publish, retryOutcome);
      r.published.Some? ==>
        && (asyncProduceAck ==> r.outcome == Pass && r.retry.None?)
        && (!asyncProduceAck ==> r.outcome == PublishOutcome(publish, retryOutcome))
        && (r.retry.Some? <==> !asyncProduceAck && publish.NoResponders?)
        && (r.retry.Some? ==> r.retry.value == RetryCall(message, headers, ackWaitMs, asyncProduceAck, messageId, partitionKey))
        && (!asyncProduceAck && publish.AckError? ==> r.outcome == Fail(Memphis(publish.description)))
        && (!asyncProduceAck && publish.MemphisFailure? ==> r.outcome == Fail(publish.error))
        && (!asyncProduceAck && publish.OtherFailure? ==> r.outcome == Fail(Memphis(publish.message)))
  {
  }

  // ---------------------------------------------------------------- fan-out and teardown

  /** One call of the client's ProduceAsync made by the multi-station fan-out. */
  datatype StationProduceCall = StationProduceCall(stationName: string, producerName: string, ackWaitMs: int,
                                                   message: seq<bv8>, headers: seq<Header>, messageId: Option<string>,
                                                   asyncProduceAck: bool, partitionKey: string, partitionNumber: int)

  /** The call of the client's ProduceAsync made by a single-station producer: the producer passes
      itself, named here by its key, with the caller's arguments unchanged. */
  datatype SelfProduceCall = SelfProduceCall(producerKey: string, message: seq<bv8>, headers: seq<Header>, ackWaitMs: int,
                                             asyncProduceAck: bool, messageId: Option<string>,
                                             partitionKey: string, partitionNumber: int)

  /** The request a single-station destroy sends to the producer-destruction subject. */
  datatype RemoveProducerRequest = RemoveProducerRequest(subject: string, producerName: string, stationName: string)

  /** DestroySingleStationProducerAsync's reading of the removal reply: a non-empty reply is the
      broker's error; every failure is wrapped as "Failed to destroy producer". */
  function DestroyProducerOutcome(reply: Broker.Reply): (r: Outcome<MemphisError>)
    ensures r == Pass <==> reply == Broker.Reply("")
    ensures reply.Reply? && reply.data != "" ==> r == Fail(Wrapped("Failed to destroy producer", Memphis(reply.data)))
    ensures reply.RequestFailed? ==> r == Fail(Wrapped("Failed to destroy producer", reply.error))
  {
    match reply
    case RequestFailed(e) => Fail(Wrapped("Failed to destroy producer", e))
    case Reply(data) => if data != "" then Fail(Wrapped("Failed to destroy producer", Memphis(data))) else Pass
  }

  /** The keys of the client's producer cache that a multi-station destroy acts on, in cache
      order: those equal to one of `producerKeys`. */
  function DestroyTargets(cacheKeys: seq<string>, producerKeys: seq<string>): (targets: seq<string>)
    ensures forall k :: k in targets <==> k in cacheKeys && k in producerKeys
    ensures |targets| <= |cacheKeys|
    decreases |cacheKeys|
  {
    if |cacheKeys| == 0 then []
    else if cacheKeys[0] in producerKeys then [cacheKeys[0]] + DestroyTargets(cacheKeys[1..], producerKeys)
    else DestroyTargets(cacheKeys[1..], producerKeys)
  }

  /** The multi-station fan-out, call by call: the calls are the template sent to each station in
      list order; the first failure stops the fan-out and is raised, and the calls before it
      stand; the fan-out succeeds when every station's call did. */
  predicate FannedOut(stations: seq<string>, template: StationProduceCall, produce: StationProduceCall -> Outcome<MemphisError>,
                      calls: seq<StationProduceCall>, r: Outcome<MemphisError>)
  {
    && |calls| <= |stations|
    && (forall i :: 0 <= i < |calls| ==> calls[i] == template.(stationName := stations[i]))
    && (forall i :: 0 <= i < |calls| - 1 ==> produce(calls[i]) == Pass)
    && (r == Pass <==> |calls| == |stations| && forall i :: 0 <= i < |calls| ==> produce(calls[i]) == Pass)
    && (r.Fail? ==> |calls| > 0 && produce(calls[|calls| - 1]) == r)
  }

  /** What DestroyAsync does: a single-station producer sends its removal request; a
      multi-station one destroys the cached producers whose keys are among its own. */
  datatype Destruction =
    | SingleDestroy(request: RemoveProducerRequest, outcome: Outcome<MemphisError>)
    | MultiDestroy(targets: seq<string>)

  class MemphisProducer {
    const services: ClientServices
    const realName: string
    const producerName: string
    /** Empty for a multi-station producer. */
    const stationName: string
    /** Empty for a multi-station producer. */
    const internalStationName: string
    const isMultiStationProducer: bool
    /** The stations a multi-station producer writes to; empty for a single-station one. */
    const stations: seq<string>
    var resolver: Partitioning.StationPartitionResolver

    /** The single-station constructor, once its null checks have passed. */
    constructor Single(services: ClientServices, producerName: string, stationName: string, realName: string,
                       order: nat -> int)
      ensures this.services == services && this.producerName == producerName && this.realName == realName
      ensures this.stationName == stationName && internalStationName == services.internalName(stationName)
      ensures !isMultiStationProducer && stations == []
      ensures fresh(resolver) && resolver.partitionCount == 0 && resolver.calls == 0 && resolver.order == order
    {
      this.services := services;
      this.realName := realName;
      this.producerName := producerName;
      this.stationName := stationName;
      internalStationName := services.internalName(stationName);
      isMultiStationProducer := false;
      stations := [];
      resolver := new Partitioning.StationPartitionResolver(0, order);
    }

    /** The multi-station constructor, once its checks have passed. */
    constructor Multi(services: ClientServices, producerName: string, realName: string, stations: seq<string>,
                      order: nat -> int)
      requires |stations| > 0
      ensures this.services == services && this.producerName == producerName && this.realName == realName
      ensures stationName == "" && internalStationName == ""
      ensures isMultiStationProducer && this.stations == stations
      ensures fresh(resolver) && resolver.partitionCount == 0 && resolver.calls == 0 && resolver.order == order
    {
      this.services := services;
      stationName := "";
      internalStationName := "";
      resolver := new Partitioning.StationPartitionResolver(0, order);
      this.realName := realName;
      this.producerName := producerName;
      isMultiStationProducer := true;
      this.stations := stations;
    }

    /** Key: `<internal station>_<real name>`. */
    function Key(): (k: string)
      ensures k == ProducerKey(internalStationName, realName)
      ensures |k| > |internalStationName| && k[|internalStationName|] == '_'
    {
      internalStationName + "_" + realName
    }

    /** The keys a multi-station destroy looks for: the key each station's own producer with
        this producer's real name would have, in station order. */
    function ProducerKeys(): (keys: seq<string>)
      ensures |keys| == |stations|
      ensures forall i :: 0 <= i < |stations| ==> keys[i] == ProducerKey(services.internalName(stations[i]), realName)
    {
      seq(|stations|, i requires 0 <= i < |stations| => ProducerKey(services.internalName(stations[i]), realName))
    }

    /** The headers of the envelope, added one by one as the source adds them. */
    method BuildHeaders(messageId: Option<string>, headers: seq<Header>) returns (h: seq<Header>)
      ensures h == MessageHeaders(producerName, services.connectionId, messageId, headers)
    {
      h := [(MemphisConstants.MEMPHIS_PRODUCED_BY, producerName), (MemphisConstants.MEMPHIS_CONNECTION_ID, services.connectionId)];
      if !IsNullOrWhiteSpace(messageId) {
        h := h + [(MemphisConstants.MESSAGE_ID, messageId.value)];
      }
      ghost var system := h;
      var i := 0;
      while i < |headers|
        invariant 0 <= i <= |headers|
        invariant h == system + headers[..i]
      {
        h := h + [headers[i]];
        i := i + 1;
        assert headers[..i] == headers[..i - 1] + [headers[i - 1]];
      }
      assert headers[..i] == headers;
    }

    /** The dead-letter header dictionary, one Dictionary.Add at a time. */
    method BuildDlsHeaders(headers: seq<Header>) returns (r: Result<seq<Header>, MemphisError>)
      ensures r == DlsHeaders(services.connectionId, producerName, headers)
    {
      var dictionary := [(MemphisConstants.MEMPHIS_CONNECTION_ID, services.connectionId),
                         (MemphisConstants.MEMPHIS_PRODUCED_BY, producerName)];
      var i := 0;
      while i < |headers|
        invariant 0 <= i <= |headers|
        invariant AddAll(dictionary, headers[i..]) == DlsHeaders(services.connectionId, producerName, headers)
      {
        var key := headers[i].0;
        var j := 0;
        while j < |dictionary|
          invariant 0 <= j <= |dictionary|
          invariant forall k :: 0 <= k < j ==> dictionary[k].0 != key
        {
          if dictionary[j].0 == key {
            return Failure(DuplicateHeaderKey(key));
          }
          j := j + 1;
        }
        assert headers[i..][1..] == headers[i + 1..];
        dictionary := dictionary + [headers[i]];
        i := i + 1;
      }
      r := Success(dictionary);
    }

    /** SendMessageToDls, run when validation raised a schema-validation exception. */
    method SendMessageToDls(message: seq<bv8>, headers: seq<Header>, validationError: string) returns (report: DlsReport)
      ensures report == DlsOutcome(services, internalStationName, producerName, message, headers, validationError)
    {
      if !services.schemaVerseToDls(internalStationName) {
        return DlsReport(None, false, None);
      }
      var dictionary := BuildDlsHeaders(headers);
      if dictionary.Failure? {
        return DlsReport(None, false, Some(dictionary.error));
      }
      var data := RemoveChar(BitConverterToString(message), '-');
      BitConverterWithoutDashes(message);
      var record := DlsMessage(internalStationName, producerName, services.connectionId, data, dictionary.value, validationError);
      report := DlsReport(Some(DlsPublication(MemphisConstants.MEMPHIS_SCHEMA_VERSE_DLS, record)),
                          services.sendingNotificationEnabled, None);
    }

    /** The choice of stream in ProduceToBrokerAsync. The resolver advances only when the stream
        is chosen among several partitions and the selectors are not both set. */
    method ChooseStream(partitionKey: string, partitionNumber: int) returns (stream: Result<string, MemphisError>)
      modifies resolver
      ensures stream == StreamName(services, internalStationName, old(resolver.Next()), partitionKey, partitionNumber)
      ensures resolver.calls == old(resolver.calls) +
        (if ResolverConsulted(services, internalStationName, partitionKey, partitionNumber) then 1 else 0)
    {
      var streamName := internalStationName;
      var partitions := PartitionList(services, internalStationName);
      if |partitions| == 1 {
        streamName := PartitionStream(internalStationName, partitions[0]);
      } else if |partitions| > 1 {
        if partitionNumber > 0 && !IsBlank(partitionKey) {
          return Failure(BothPartitionNumAndKey);
        }
        var partition := resolver.Resolve();
        if !IsBlank(partitionKey) {
          partition := services.partitionFromKey(partitionKey, internalStationName);
        } else if partitionNumber > 0 {
          if !services.partitionNumberValid(partitionNumber, internalStationName) {
            return Failure(InvalidPartitionNumber(partitionNumber));
          }
          partition := partitionNumber;
        }
        streamName := PartitionStream(internalStationName, partition);
      }
      stream := Success(streamName);
    }

    /** The publish in ProduceToBrokerAsync, from the empty-id check on. */
    method Publish(subject: string, message: seq<bv8>, headers: seq<Header>, asyncProduceAck: bool,
                   partitionKey: string, ackWaitMs: int, messageId: Option<string>,
                   publish: PublishResult, retryOutcome: Outcome<MemphisError>) returns (report: ProduceReport)
      ensures report == PublishSpec(services, producerName, subject, message, headers, asyncProduceAck,
                                    partitionKey, ackWaitMs, messageId, publish, retryOutcome)
    {
      var none := DlsReport(None, false, None);
      if messageId == Some("") {
        return ProduceReport(none, None, None, Fail(EmptyMessageId));
      }
      var h := BuildHeaders(messageId, headers);
      var msg := Broker.Msg(subject, message, h);
      if asyncProduceAck {
        return ProduceReport(none, Some(msg), None, Pass);
      }
      match publish {
        case Acked =>
          report := ProduceReport(none, Some(msg), None, Pass);
        case AckError(description) =>
          report := ProduceReport(none, Some(msg), None, Fail(Memphis(description)));
        case NoResponders =>
          var retry := RetryCall(message, headers, ackWaitMs, asyncProduceAck, messageId, partitionKey);
          report := ProduceReport(none, Some(msg), Some(retry), retryOutcome);
        case MemphisFailure(e) =>
          report := ProduceReport(none, Some(msg), None, Fail(e));
        case OtherFailure(m) =>
          report := ProduceReport(none, Some(msg), None, Fail(Memphis(m)));
      }
    }

    /** ProduceToBrokerAsync. `validation` is what ValidateMessageAsync did, `publish` how the
        awaited publish ended and `retryOutcome` how the re-produce after "no responders" ended. */
    method ProduceToBrokerAsync(message: seq<bv8>, headers: seq<Header>, asyncProduceAck: bool,
                                partitionKey: string, partitionNumber: int, ackWaitMs: int, messageId: Option<string>,
                                validation: ValidationResult, publish: PublishResult, retryOutcome: Outcome<MemphisError>)
      returns (report: ProduceReport)
      modifies resolver
      ensures report == ProduceSpec(services, producerName, internalStationName, old(resolver.Next()), message, headers,
                                    asyncProduceAck, partitionKey, partitionNumber, ackWaitMs, messageId,
                                    validation, publish, retryOutcome)
      ensures resolver.calls == old(resolver.calls) +
        (if validation.Valid? && ResolverConsulted(services, internalStationName, partitionKey, partitionNumber) then 1 else 0)
    {
      var none := DlsReport(None, false, None);
      match validation {
        case ValidationFailed(e) =>
          return ProduceReport(none, None, None, Fail(e));
        case SchemaInvalid(v) =>
          var d := SendMessageToDls(message, headers, v);
          return ProduceReport(d, None, None, Fail(if d.failure.Some? then d.failure.value else SchemaValidation(v)));
        case Valid =>
      }
      var stream := ChooseStream(partitionKey, partitionNumber);
      if stream.Failure? {
        return ProduceReport(none, None, None, Fail(stream.error));
      }
      var subject := FullSubjectName(services, internalStationName, stream.value);
      if subject.Failure? {
        return ProduceReport(none, None, None, Fail(subject.error));
      }
      report := Publish(subject.value, message, headers, asyncProduceAck, partitionKey, ackWaitMs, messageId,
                        publish, retryOutcome);
    }

    /** MultiStationProduceAsync: one ProduceAsync call per station, in list order, each with the
        same payload and arguments; `produce` says how each call ends. */
    method MultiStationProduceAsync(message: seq<bv8>, headers: seq<Header>, ackWaitMs: int, messageId: Option<string>,
                                    asyncProduceAck: bool, partitionKey: string, partitionNumber: int,
                                    produce: StationProduceCall -> Outcome<MemphisError>)
      returns (calls: seq<StationProduceCall>, r: Outcome<MemphisError>)
      ensures FannedOut(stations, StationProduceCall("", producerName, ackWaitMs, message, headers, messageId,
                                                     asyncProduceAck, partitionKey, partitionNumber), produce, calls, r)
    {
      calls := [];
      var i := 0;
      while i < |stations|
        invariant 0 <= i <= |stations| && |calls| == i
        invariant forall k :: 0 <= k < i ==>
          calls[k] == StationProduceCall(stations[k], producerName, ackWaitMs, message, headers, messageId,
                                         asyncProduceAck, partitionKey, partitionNumber)
        invariant forall k :: 0 <= k < i ==> produce(calls[k]) == Pass
      {
        var call := StationProduceCall(stations[i], producerName, ackWaitMs, message, headers, messageId,
                                       asyncProduceAck, partitionKey, partitionNumber);
        calls := calls + [call];
        var outcome := produce(call);
        if outcome.Fail? {
          return calls, outcome;
        }
        i := i + 1;
      }
      r := Pass;
    }

    /** ProduceAsync on raw bytes: a single-station producer hands itself and the caller's
        arguments to the client's ProduceAsync (SingleStationProduceAsync), whose outcome
        `produceSelf` gives; a multi-station one fans out, one client call per station. */
    method ProduceAsync(message: seq<bv8>, headers: seq<Header>, ackWaitMs: int, messageId: Option<string>,
                        asyncProduceAck: bool, partitionKey: string, partitionNumber: int,
                        produceSelf: SelfProduceCall -> Outcome<MemphisError>,
                        produce: StationProduceCall -> Outcome<MemphisError>)
      returns (selfCall: Option<SelfProduceCall>, calls: seq<StationProduceCall>, r: Outcome<MemphisError>)
      ensures !isMultiStationProducer ==>
        && calls == []
        && selfCall == Some(SelfProduceCall(Key(), message, headers, ackWaitMs, asyncProduceAck, messageId,
                                            partitionKey, partitionNumber))
        && r == produceSelf(selfCall.value)
      ensures isMultiStationProducer ==>
        && selfCall.None?
        && FannedOut(stations, StationProduceCall("", producerName, ackWaitMs, message, headers, messageId,
                                                  asyncProduceAck, partitionKey, partitionNumber), produce, calls, r)
    {
      if isMultiStationProducer {
        calls, r := MultiStationProduceAsync(message, headers, ackWaitMs, messageId, asyncProduceAck,
                                             partitionKey, partitionNumber, produce);
        return None, calls, r;
      }
      var call := SelfProduceCall(Key(), message, headers, ackWaitMs, asyncProduceAck, messageId,
                                  partitionKey, partitionNumber);
      return Some(call), [], produceSelf(call);
    }

    /** DestroyAsync: `reply` answers a single-station producer's removal request; `cacheKeys` are
        the keys of the client's producer cache, in its order. */
    method DestroyAsync(reply: Broker.Reply, cacheKeys: seq<string>) returns (d: Destruction)
      ensures !isMultiStationProducer ==>
        d == SingleDestroy(RemoveProducerRequest(MemphisConstants.MEMPHIS_PRODUCER_DESTRUCTIONS, producerName, stationName),
                           DestroyProducerOutcome(reply))
      ensures isMultiStationProducer ==> d == MultiDestroy(DestroyTargets(cacheKeys, ProducerKeys()))
    {
      if isMultiStationProducer {
        return MultiDestroy(DestroyTargets(cacheKeys, ProducerKeys()));
      }
      var request, outcome := DestroySingleStationProducerAsync(reply);
      return SingleDestroy(request, outcome);
    }

    /** DestroySingleStationProducerAsync: the removal request and how the reply ends it. */
    method DestroySingleStationProducerAsync(reply: Broker.Reply) returns (request: RemoveProducerRequest, r: Outcome<MemphisError>)
      ensures request == RemoveProducerRequest(MemphisConstants.MEMPHIS_PRODUCER_DESTRUCTIONS, producerName, stationName)
      ensures r == Pass <==> reply == Broker.Reply("")
      ensures r == DestroyProducerOutcome(reply)
    {
      request := RemoveProducerRequest(MemphisConstants.MEMPHIS_PRODUCER_DESTRUCTIONS, producerName, stationName);
      match reply {
        case RequestFailed(e) =>
          r := Fail(Wrapped("Failed to destroy producer", e));
        case Reply(data) =>
          r := if data != "" then Fail(Wrapped("Failed to destroy producer", Memphis(data))) else Pass;
      }
    }
  }

  /** A multi-station destroy acts on exactly the cached producers that belong to one of its
      stations under its real name: the single-station producer of such a station is a target
      whenever it is cached. */
  lemma DestroyReachesStationProducers(multi: MemphisProducer, single: MemphisProducer, cacheKeys: seq<string>)
    requires multi.services == single.services && multi.realName == single.realName
    requires single.internalStationName == single.services.internalName(single.stationName)
    requires single.stationName in multi.stations
    ensures single.Key() in cacheKeys ==> single.Key() in DestroyTargets(cacheKeys, multi.ProducerKeys())
  {
    var i :| 0 <= i < |multi.stations| && multi.stations[i] == single.stationName;
    assert multi.ProducerKeys()[i] == single.Key();
  }

  /** The constructors with their checks: a failing check raises its error and builds nothing. */
  method NewSingleStationProducer(services: ClientServices, producerName: Option<string>, stationName: Option<string>,
                                  realName: Option<string>, order: nat -> int)
    returns (r: Result<MemphisProducer, MemphisError>)
    ensures r.Failure? <==> SingleStationArgsCheck(producerName, stationName, realName) != Pass
    ensures r.Failure? ==> SingleStationArgsCheck(producerName, stationName, realName) == Fail(r.error)
    ensures r.Success? ==>
      && fresh(r.value) && !r.value.isMultiStationProducer
      && r.value.producerName == producerName.value && r.value.stationName == stationName.value
      && r.value.realName == realName.value
  {
    var check := SingleStationArgsCheck(producerName, stationName, realName);
    if check.Fail? {
      return Failure(check.error);
    }
    var producer := new MemphisProducer.Single(services, producerName.value, stationName.value, realName.value, order);
    return Success(producer);
  }

  method NewMultiStationProducer(services: ClientServices, producerName: Option<string>, realName: Option<string>,
                                 stations: Option<seq<string>>, order: nat -> int)
    returns (r: Result<MemphisProducer, MemphisError>)
    ensures r.Failure? <==> MultiStationArgsCheck(producerName, realName, stations) != Pass
    ensures r.Failure? ==> MultiStationArgsCheck(producerName, realName, stations) == Fail(r.error)
    ensures r.Success? ==>
      && fresh(r.value) && r.value.isMultiStationProducer && r.value.stations == stations.value
      && r.value.producerName == producerName.value && r.value.realName == realName.value
  {
    var check := MultiStationArgsCheck(producerName, realName, stations);
    if check.Fail? {
      return Failure(check.error);
    }
    var producer := new MemphisProducer.Multi(services, producerName.value, realName.value, stations.value, order);
    return Success(producer);
  }
}
