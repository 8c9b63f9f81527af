/** The exceptions the client raises, one constructor per distinct error case.
    Message texts are those of src/Memphis.Client/Exception/MemphisExceptions.cs
    and of the throw sites in the core files. */
module Errors {

  datatype MemphisError =
      /** "Value of StartConsumeFromSequence must be greater than 0" */
    | StartSequenceNotPositive
      /** "Value of LastMessages can not be less than -1" */
    | LastMessagesBelowMinusOne
      /** "Consumer creation option can't contain both StartConsumeFromSequence and LastMessages" */
    | StartSequenceWithLastMessages
      /** ArgumentNullException for the named parameter */
    | ArgumentNull(parameter: string)
      /** "PartitionKey and PartitionNumber can not be set at the same time" */
    | BothPartitionNumAndKey
      /** MemphisMessageIdException "Message ID cannot be empty" */
    | EmptyMessageId
      /** MemphisConnectionException "Connection is dead" */
    | ConnectionDead
      /** "Schema type: <type> is not supported" */
    | SchemaTypeNotSupported(schemaType: string)
      /** "Station unreachable" */
    | StationUnreachable
      /** "Unable to save schema data for station" */
    | UnableToSaveSchemaData
      /** raised by MemphisClient.EnsureBatchSizeIsValid */
    | InvalidBatchSize(batchSize: int)
      /** raised by MemphisClient.EnsurePartitionNumberIsValid */
    | InvalidPartitionNumber(partitionNumber: int)
      /** NullReferenceException: a consumer context lookup found nothing and the null was used */
    | NullConsumerContext(partitionNumber: int)
      /** NullReferenceException: Dispose drained a dead-letter subscription that was never made */
    | NullDlsSubscription
      /** NullReferenceException: a response carried no schema-update object */
    | NullSchemaUpdate
      /** MemphisSchemaValidationException with the validator's message */
    | SchemaValidation(message: string)
      /** ArgumentException from Dictionary.Add: the key is already present */
    | DuplicateHeaderKey(key: string)
      /** IndexOutOfRangeException from indexing the pieces of String.Split */
    | SplitIndexOutOfRange
      /** FormatException or OverflowException from Convert.ToInt32 */
    | NotAnInt32(text: string)
      /** MemphisException carrying a message (an ack error description, a broker error string,
          or the message of a wrapped non-Memphis exception) */
    | Memphis(message: string)
      /** MemphisException(message, inner): a fixed message wrapping the exception that caused it */
    | Wrapped(message: string, inner: MemphisError)
      /** MemphisException(ex.Message, ex): the cause's own message, wrapped */
    | Rethrown(inner: MemphisError)
      /** an exception raised by a collaborator whose code is not part of this model */
    | External(description: string)
}
