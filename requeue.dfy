/**
 * Which records `writeRecords` takes out of the queue, and which of them it puts back
 * after a partial failure: the ones whose response entry carries an `ErrorCode`.
 */
module Requeue {
  import opened Service

  /**
   * `Math.min(queue.length, highWaterMark)` as `splice` applies it: a negative count
   * removes nothing. The result is the largest count within both bounds.
   */
  function TakeCount(queueLength: nat, highWaterMark: int): (n: nat)
    ensures n <= queueLength
    ensures n <= highWaterMark || n == 0
    ensures n == queueLength || n == highWaterMark || (highWaterMark < 0 && n == 0)
  {
    if queueLength <= highWaterMark then queueLength
    else if highWaterMark < 0 then 0
    else highWaterMark
  }

  /**
   * The indices whose response entries carry an `ErrorCode`, in increasing order:
   * exactly the indices at which the `forEach` scan pushes a record.
   */
  function FailedIndices(entries: seq<ResultEntry>): (ix: seq<nat>)
    ensures |ix| <= |entries|
    ensures forall k :: 0 <= k < |ix| ==> ix[k] < |entries| && HasErrorCode(entries[ix[k]])
    ensures forall k, l :: 0 <= k < l < |ix| ==> ix[k] < ix[l]
    ensures forall i :: 0 <= i < |entries| && HasErrorCode(entries[i]) ==> i in ix
  {
    if entries == [] then []
    else
      var last := |entries| - 1;
      FailedIndices(entries[..last]) + (if HasErrorCode(entries[last]) then [last] else [])
  }

  /**
   * The batch records whose response entries carry an `ErrorCode`, in batch order: what
   * the `forEach` scan pushes onto `failedRecords`.
   */
  function FailedRecords<R>(batch: seq<R>, entries: seq<ResultEntry>): (failed: seq<R>)
    requires |batch| == |entries|
    ensures |failed| <= |batch|
  {
    if batch == [] then []
    else
      var last := |batch| - 1;
      FailedRecords(batch[..last], entries[..last]) + (if HasErrorCode(entries[last]) then [batch[last]] else [])
  }

  /**
   * The requeued records are the batch records at `FailedIndices`, one for one: exactly
   * the records whose entries failed, in their original order, and no accepted record.
   */
  lemma {:induction false} FailedRecordsAtFailedIndices<R>(batch: seq<R>, entries: seq<ResultEntry>)
    requires |batch| == |entries|
    ensures var ix := FailedIndices(entries);
      && |FailedRecords(batch, entries)| == |ix|
      && forall k :: 0 <= k < |ix| ==> FailedRecords(batch, entries)[k] == batch[ix[k]]
  {
    if batch != [] {
      var last := |batch| - 1;
      FailedRecordsAtFailedIndices(batch[..last], entries[..last]);
    }
  }

  /** One more step of the scan appends the next record exactly when its entry failed. */
  lemma FailedRecordsStep<R>(batch: seq<R>, entries: seq<ResultEntry>, n: nat)
    requires |batch| == |entries| && n < |batch|
    ensures FailedRecords(batch[..n + 1], entries[..n + 1])
         == FailedRecords(batch[..n], entries[..n]) + (if HasErrorCode(entries[n]) then [batch[n]] else [])
  {
    assert batch[..n + 1][..n] == batch[..n];
    assert entries[..n + 1][..n] == entries[..n];
  }

  /**
   * The `forEach` loop: scan the response entries in order and collect the batch record
   * at each index whose entry carries an `ErrorCode`.
   */
  method CollectFailed<R>(batch: seq<R>, entries: seq<ResultEntry>) returns (failed: seq<R>)
    requires |batch| == |entries|
    ensures failed == FailedRecords(batch, entries)
  {
    failed := [];
    var idx := 0;
    while idx < |entries|
      invariant idx <= |entries|
      invariant failed == FailedRecords(batch[..idx], entries[..idx])
    {
      FailedRecordsStep(batch, entries, idx);
      if HasErrorCode(entries[idx]) {
        failed := failed + [batch[idx]];
      }
      idx := idx + 1;
    }
    assert batch[..idx] == batch && entries[..idx] == entries;
  }

  /** The requeued records are drawn from the batch: none is invented or duplicated. */
  lemma {:induction false} FailedRecordsFromBatch<R>(batch: seq<R>, entries: seq<ResultEntry>)
    requires |batch| == |entries|
    ensures multiset(FailedRecords(batch, entries)) <= multiset(batch)
  {
    if batch != [] {
      var last := |batch| - 1;
      FailedRecordsFromBatch(batch[..last], entries[..last]);
      assert batch == batch[..last] + [batch[last]];
    }
  }

  /** No entry carries an `ErrorCode`: nothing is selected for requeue. */
  lemma {:induction false} NoErrorCodeNothingFailed<R>(batch: seq<R>, entries: seq<ResultEntry>)
    requires |batch| == |entries|
    requires forall i :: 0 <= i < |entries| ==> !HasErrorCode(entries[i])
    ensures FailedRecords(batch, entries) == []
  {
    if batch != [] {
      var last := |batch| - 1;
      NoErrorCodeNothingFailed(batch[..last], entries[..last]);
    }
  }
}
