/** The members and state of MemphisClient that the consumer and the producer call but whose
    code is not part of this model. Each is an arbitrary function fixed for the client; nothing
    is assumed about it beyond its type. */
module Services {
  import opened Wrappers
  import opened Errors
  import opened Text

  datatype ClientServices = ClientServices(
    /** MemphisUtil.GetInternalName */
    internalName: string -> string,
    /** MemphisClient.GetPartitionFromKey(key, station) */
    partitionFromKey: (string, string) -> int,
    /** MemphisClient.EnsurePartitionNumberIsValid(number, station) returns without throwing */
    partitionNumberValid: (int, string) -> bool,
    /** MemphisClient.EnsureBatchSizeIsValid(batchSize) returns without throwing */
    batchSizeValid: int -> bool,
    /** MemphisClient.ConnectionId */
    connectionId: string,
    /** MemphisClient.StationPartitions: the partition list recorded for an internal station
        name; None when the entry or its list is null */
    stationPartitions: map<string, Option<seq<int>>>,
    /** MemphisClient.FunctionDetails: for an internal station name, the function id (as text)
        attached to each partition */
    functionDetails: map<string, map<int, string>>,
    /** MemphisClient.IsSchemaVerseToDlsEnabled(internal station name) */
    schemaVerseToDls: string -> bool,
    /** MemphisClient.IsSendingNotificationEnabled */
    sendingNotificationEnabled: bool)

  /** The stream of one partition of a station: `<internal name>$<partition>`. */
  function PartitionStream(internalStation: string, partition: int): string {
    internalStation + "$" + IntToString(partition)
  }

  /** The selector precedence shared by the consumer's fetch paths and the producer: a non-blank
      key together with a positive number is refused; otherwise the key wins (hashed against
      `station`), then the number (if the client accepts it for `station`), then `fallback`. */
  function SelectPartition(services: ClientServices, station: string, fallback: int,
                           partitionKey: string, partitionNumber: int): (r: Result<int, MemphisError>)
    ensures r.Failure? <==>
      (!IsBlank(partitionKey) && partitionNumber > 0) ||
      (IsBlank(partitionKey) && partitionNumber > 0 && !services.partitionNumberValid(partitionNumber, station))
    ensures IsBlank(partitionKey) && partitionNumber <= 0 ==> r == Success(fallback)
    ensures !IsBlank(partitionKey) && partitionNumber <= 0 ==> r == Success(services.partitionFromKey(partitionKey, station))
  {
    if !IsBlank(partitionKey) && partitionNumber > 0 then
      Failure(BothPartitionNumAndKey)
    else if !IsBlank(partitionKey) then
      Success(services.partitionFromKey(partitionKey, station))
    else if partitionNumber > 0 then
      if services.partitionNumberValid(partitionNumber, station) then Success(partitionNumber)
      else Failure(InvalidPartitionNumber(partitionNumber))
    else
      Success(fallback)
  }
}
