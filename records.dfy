/**
 * The batch preparer of `KinesisWritable`: how a queued record becomes a PutRecords
 * entry `{Data, PartitionKey}`. The serialiser (`JSON.stringify`) and the partition-key
 * function are parameters: the model treats both as opaque.
 */
module Records {

  /** One entry of a PutRecords request. */
  datatype WireRecord = WireRecord(data: string, partitionKey: string)

  /** `getPartitionKey` as shipped: every record goes to the partition named "0". */
  function DefaultPartitionKey<R>(record: R): string {
    "0"
  }

  /** `_prepRecord`: the serialised payload and the key the key function picks for it. */
  function PrepRecord<R>(serialise: R -> string, partitionKey: R -> string, record: R): WireRecord {
    WireRecord(serialise(record), partitionKey(record))
  }

  /** `dataToPut.map(_prepRecord)`: one wire entry per record, in batch order. */
  function PrepBatch<R>(serialise: R -> string, partitionKey: R -> string, batch: seq<R>): (wire: seq<WireRecord>)
    ensures |wire| == |batch|
    ensures forall i :: 0 <= i < |batch| ==>
      wire[i].data == serialise(batch[i]) && wire[i].partitionKey == partitionKey(batch[i])
  {
    if batch == [] then []
    else [PrepRecord(serialise, partitionKey, batch[0])] + PrepBatch(serialise, partitionKey, batch[1..])
  }

  /** With the default key function every wire record carries the partition key "0". */
  lemma DefaultKeySinglePartition<R>(serialise: R -> string, batch: seq<R>)
    ensures forall w :: w in PrepBatch(serialise, DefaultPartitionKey, batch) ==> w.partitionKey == "0"
  {
  }
}
