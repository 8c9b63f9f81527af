/** The round-robin partition resolver (StationPartitionResolver). Its code is not part of this
    model: the resolver is a cursor that every Resolve() advances by one, and the partition it
    returns for the k-th call is `order(k)`, an arbitrary function fixed when the resolver is built.
    Nothing else is assumed about the partitions it yields. */
module Partitioning {

  class StationPartitionResolver {
    /** The partition count the resolver was built over. */
    const partitionCount: nat
    /** What the k-th call of Resolve() returns. */
    const order: nat -> int
    /** How many times Resolve() has been called. */
    var calls: nat

    constructor (partitionCount: nat, order: nat -> int)
      ensures this.partitionCount == partitionCount && this.order == order && calls == 0
    {
      this.partitionCount := partitionCount;
      this.order := order;
      calls := 0;
    }

    /** The partition the next Resolve() will return. */
    function Next(): int
      reads this
    {
      order(calls)
    }

    /** Resolve(): returns the next partition and advances the cursor. */
    method Resolve() returns (partition: int)
      modifies this
      ensures partition == old(Next())
      ensures calls == old(calls) + 1
    {
      partition := order(calls);
      calls := calls + 1;
    }
  }
}
