/** The constants of src/Memphis.Client/Constants/MemphisConstants.cs: control subjects,
    header names, subject prefixes, schema type names with their validator mapping,
    and the largest batch size. */
module MemphisConstants {
  import opened Wrappers
  import opened Errors
  import Text

  // MemphisStations: control-plane request subjects.
  const MEMPHIS_PRODUCER_CREATIONS: string := "$memphis_producer_creations"
  const MEMPHIS_CONSUMER_CREATIONS: string := "$memphis_consumer_creations"
  const MEMPHIS_PRODUCER_DESTRUCTIONS: string := "$memphis_producer_destructions"
  const MEMPHIS_CONSUMER_DESTRUCTIONS: string := "$memphis_consumer_destructions"

  // MemphisHeaders: the system headers a producer attaches.
  const MESSAGE_ID: string := "msg-id"
  const MEMPHIS_PRODUCED_BY: string := "$memphis_producedBy"
  const MEMPHIS_CONNECTION_ID: string := "$memphis_connectionId"

  // MemphisSubscriptions and MemphisSubjects: subject prefixes and fixed subjects.
  const DLS_PREFIX: string := "$memphis_dls_"
  const MEMPHIS_SCHEMA_UPDATE: string := "$memphis_schema_updates_"
  const MEMPHIS_SCHEMA_VERSE_DLS: string := "$memphis_schemaverse_dls"

  // MemphisSchemaTypes: the schema type names.
  const NONE: string := ""
  const JSON: string := "json"
  const GRAPH_QL: string := "graphql"
  const PROTO_BUF: string := "protobuf"
  const AVRO: string := "avro"

  // MemphisGlobalVariables.
  const MAX_BATCH_SIZE: int := 5000

  /** The validator kinds a schema type selects (ValidatorType). */
  datatype ValidatorType = JsonValidator | GraphqlValidator | ProtobufValidator | AvroValidator

  /** The schema type name whose switch arm yields `v`. */
  function SchemaTypeName(v: ValidatorType): string {
    match v
    case JsonValidator => JSON
    case GraphqlValidator => GRAPH_QL
    case ProtobufValidator => PROTO_BUF
    case AvroValidator => AVRO
  }

  /** MemphisSchemaTypes.ToValidator: a supported schema type name maps to its validator;
      every other string, NONE included, is rejected as not supported. */
  function ToValidator(schemaType: string): (r: Result<ValidatorType, MemphisError>)
    ensures r.Success? <==> schemaType in {JSON, GRAPH_QL, PROTO_BUF, AVRO}
    ensures r.Success? ==> SchemaTypeName(r.value) == schemaType
    ensures r.Failure? ==> r.error == SchemaTypeNotSupported(schemaType)
  {
    if schemaType == JSON then Success(JsonValidator)
    else if schemaType == GRAPH_QL then Success(GraphqlValidator)
    else if schemaType == PROTO_BUF then Success(ProtobufValidator)
    else if schemaType == AVRO then Success(AvroValidator)
    else Failure(SchemaTypeNotSupported(schemaType))
  }

  /** Every validator kind is reached from exactly one name: mapping a kind's name gives the kind back,
      so the four supported names select four distinct validators. */
  lemma ToValidatorOfName(v: ValidatorType)
    ensures ToValidator(SchemaTypeName(v)) == Success(v)
    ensures forall w :: w != v ==> SchemaTypeName(w) != SchemaTypeName(v)
  {
  }

  /** The subject of a consumer group's dead-letter subscription. */
  function DlsSubject(internalStation: string, internalGroup: string): string {
    DLS_PREFIX + internalStation + "." + internalGroup
  }

  /** The subject a station's schema updates are broadcast on. */
  function SchemaUpdateSubject(internalStation: string): string {
    MEMPHIS_SCHEMA_UPDATE + internalStation
  }

  /** A dead-letter subject starts with the dead-letter prefix, and when the station name holds
      no '.', the rest splits at its first '.' into exactly the station and the group. */
  lemma DlsSubjectDecomposes(internalStation: string, internalGroup: string)
    requires '.' !in internalStation
    ensures DlsSubject(internalStation, internalGroup)[..|DLS_PREFIX|] == DLS_PREFIX
    ensures Text.Split(DlsSubject(internalStation, internalGroup)[|DLS_PREFIX|..], '.')
            == [internalStation] + Text.Split(internalGroup, '.')
  {
    var subject := DlsSubject(internalStation, internalGroup);
    assert subject[|DLS_PREFIX|..] == internalStation + ['.'] + internalGroup;
    Text.SplitAtFirstSeparator(internalStation, internalGroup, '.');
  }

  /** Distinct stations or groups without '.' in the station name get distinct dead-letter subjects. */
  lemma DlsSubjectInjective(s1: string, g1: string, s2: string, g2: string)
    requires '.' !in s1 && '.' !in s2
    requires DlsSubject(s1, g1) == DlsSubject(s2, g2)
    ensures s1 == s2 && g1 == g2
  {
    DlsSubjectDecomposes(s1, g1);
    DlsSubjectDecomposes(s2, g2);
    assert s1 == Text.Split(DlsSubject(s1, g1)[|DLS_PREFIX|..], '.')[0];
    assert s2 == Text.Split(DlsSubject(s2, g2)[|DLS_PREFIX|..], '.')[0];
    var n := |DLS_PREFIX| + |s1| + 1;
    assert g1 == DlsSubject(s1, g1)[n..];
    assert g2 == DlsSubject(s2, g2)[n..];
  }

  /** A dead-letter subject is never a schema-update subject: the prefixes differ at their tenth character. */
  lemma DlsAndSchemaUpdateSubjectsDiffer(internalStation: string, internalGroup: string, otherStation: string)
    ensures SchemaUpdateSubject(otherStation)[..|MEMPHIS_SCHEMA_UPDATE|] == MEMPHIS_SCHEMA_UPDATE
    ensures DlsSubject(internalStation, internalGroup) != SchemaUpdateSubject(otherStation)
  {
    assert DlsSubject(internalStation, internalGroup)[9] == DLS_PREFIX[9] == 'd';
    assert SchemaUpdateSubject(otherStation)[9] == MEMPHIS_SCHEMA_UPDATE[9] == 's';
  }
}
