/**
 * What the dispatch engine promises: which records a flush sends, which come back to
 * the queue after a partial failure, when `_write` flushes, and when `flushWrite`
 * resolves.
 */
module Properties {
  import opened Wrappers
  import opened Records
  import opened Service
  import opened Requeue
  import opened Batching

  /** `writeRecords` on an empty queue calls back at once, sends nothing, changes nothing. */
  lemma EmptyQueueNoCall<R>(d: Dispatch<R>, s: State<R>, service: Client)
    requires ParallelResponses(service) && |s.queue| == 0
    ensures WriteRecords(d, s, service) == Effect(s, [], [None])
  {
  }

  /**
   * A flush sends the first `min(|queue|, highWaterMark)` records, prepared in order,
   * with the same params on each of its one to `maxRetries + 1` attempts; the records it
   * did not take stay at the tail of the queue, in order.
   */
  lemma {:induction false} SendsFrontPrefix<R>(d: Dispatch<R>, s: State<R>, service: Client)
    requires ParallelResponses(service) && |s.queue| != 0
    ensures var n := TakeCount(|s.queue|, d.highWaterMark);
      var e := WriteRecords(d, s, service);
      && Batch(d, s) == s.queue[..n]
      && 1 <= |e.calls| <= d.maxRetries + 1
      && (forall i :: 0 <= i < |e.calls| ==> e.calls[i] == BatchRequest(d, s.queue[..n]))
      && |e.calls[0].records| == n
      && (forall i :: 0 <= i < n ==>
            e.calls[0].records[i] == PrepRecord(d.serialise, d.partitionKey, s.queue[i]))
      && |s.queue| - n <= |e.after.queue|
      && e.after.queue[|e.after.queue| - (|s.queue| - n)..] == s.queue[n..]
  {
    var n := TakeCount(|s.queue|, d.highWaterMark);
    var e := WriteRecords(d, s, service);
    var call := Call(d, s, service);
    var batch := s.queue[..n];
    match call.outcome
    case Err(_) =>
    case Ok(response) =>
      if response.failedRecordCount != 0 {
        var failed := FailedRecords(batch, response.records);
        assert e.after.queue == failed + s.queue[n..];
        assert e.after.queue[|failed|..] == s.queue[n..];
      }
  }

  /** A batch never holds more than `highWaterMark` records, so never more than 500 once clamped. */
  lemma BatchWithinHighWaterMark<R>(d: Dispatch<R>, s: State<R>, service: Client)
    requires ParallelResponses(service) && 0 <= d.highWaterMark <= 500
    ensures forall call :: call in WriteRecords(d, s, service).calls ==>
      |call.records| <= d.highWaterMark <= 500
  {
    if |s.queue| != 0 {
      SendsFrontPrefix(d, s, service);
    }
  }

  /**
   * After a partial failure (`FailedRecordCount` not zero) the queue is the records whose
   * entries carry an `ErrorCode`, in batch order, followed by the records left untaken;
   * accepted records are not requeued, and the callback first receives an error counting
   * the requeued records, then is called again without one.
   */
  lemma {:induction false} PartialFailureRequeuesFailed<R>(d: Dispatch<R>, s: State<R>, service: Client, response: PutRecordsOutput)
    requires ParallelResponses(service) && |s.queue| != 0
    requires Call(d, s, service).outcome == Ok(response) && response.failedRecordCount != 0
    ensures |response.records| == |Batch(d, s)|
    ensures var ix := FailedIndices(response.records);
      var n := |Batch(d, s)|;
      var e := WriteRecords(d, s, service);
      && |e.after.queue| == |ix| + |s.queue| - n
      && (forall k :: 0 <= k < |ix| ==> ix[k] < n && e.after.queue[k] == s.queue[ix[k]])
      && e.after.queue[|ix|..] == s.queue[n..]
      && e.callbacks == [Some(RecordsFailed(|ix|)), None]
  {
    var batch := Batch(d, s);
    var n := |batch|;
    var ix := FailedIndices(response.records);
    var failed := FailedRecords(batch, response.records);
    FailedRecordsAtFailedIndices(batch, response.records);
    var e := WriteRecords(d, s, service);
    assert e.after.queue == failed + s.queue[n..];
    assert e.after.queue[|ix|..] == s.queue[n..];
  }

  /**
   * No flush duplicates or invents a record: the queue afterwards holds at most the
   * records it held before.
   */
  lemma WriteRecordsNeverDuplicates<R>(d: Dispatch<R>, s: State<R>, service: Client)
    requires ParallelResponses(service)
    ensures multiset(WriteRecords(d, s, service).after.queue) <= multiset(s.queue)
  {
    if |s.queue| != 0 {
      var n := TakeCount(|s.queue|, d.highWaterMark);
      var batch := s.queue[..n];
      var rest := s.queue[n..];
      assert s.queue == batch + rest;
      var call := Call(d, s, service);
      match call.outcome
      case Err(_) =>
      case Ok(response) =>
        if response.failedRecordCount != 0 {
          FailedRecordsFromBatch(batch, response.records);
        }
    }
  }

  /** A call that fails as a whole drops its batch: those records are in no queue. */
  lemma CallFailureDropsBatch<R>(d: Dispatch<R>, s: State<R>, service: Client, err: CallError)
    requires ParallelResponses(service) && |s.queue| != 0
    requires Call(d, s, service).outcome == Err(err)
    ensures var e := WriteRecords(d, s, service);
      && e.after.queue == s.queue[|Batch(d, s)|..]
      && e.callbacks == [Some(CallFailed(err))]
  {
  }

  /**
   * Requeue is decided by `FailedRecordCount` alone: when it is zero, entries that carry
   * an `ErrorCode` are still not requeued.
   */
  lemma ZeroFailedCountRequeuesNothing<R>(d: Dispatch<R>, s: State<R>, service: Client, response: PutRecordsOutput)
    requires ParallelResponses(service) && |s.queue| != 0
    requires Call(d, s, service).outcome == Ok(response) && response.failedRecordCount == 0
    ensures var e := WriteRecords(d, s, service);
      && e.after.queue == s.queue[|Batch(d, s)|..]
      && e.callbacks == [None]
  {
  }

  /**
   * Membership is decided by the `ErrorCode` scan alone: a non-zero `FailedRecordCount`
   * with no entry carrying an `ErrorCode` requeues nothing, yet reports an error for
   * zero records.
   */
  lemma FailedCountWithoutErrorCodes<R>(d: Dispatch<R>, s: State<R>, service: Client, response: PutRecordsOutput)
    requires ParallelResponses(service) && |s.queue| != 0
    requires Call(d, s, service).outcome == Ok(response) && response.failedRecordCount != 0
    requires forall i :: 0 <= i < |response.records| ==> !HasErrorCode(response.records[i])
    ensures var e := WriteRecords(d, s, service);
      && e.after.queue == s.queue[|Batch(d, s)|..]
      && e.callbacks == [Some(RecordsFailed(0)), None]
  {
    NoErrorCodeNothingFailed(Batch(d, s), response.records);
  }

  /**
   * `_write` below `highWaterMark` only buffers: each record is appended at the tail,
   * no call is made, each write calls back at once and re-arms the idle timer.
   */
  lemma {:induction false} BufferBelowHighWaterMark<R>(d: Dispatch<R>, s: State<R>, records: seq<R>, service: Client)
    requires ParallelResponses(service)
    requires |s.queue| + |records| < d.highWaterMark
    ensures var e := WriteAll(d, s, records, service);
      && e.after.queue == s.queue + records
      && e.calls == []
      && e.callbacks == Repeat(None, |records|)
      && e.after.timerArms == s.timerArms + |records|
      && (records != [] ==> e.after.timerArmed)
  {
    if records != [] {
      var last := |records| - 1;
      BufferBelowHighWaterMark(d, s, records[..last], service);
      assert s.queue + records[..last] + [records[last]] == s.queue + records;
    }
  }

  /**
   * The write that brings the queue to `highWaterMark` flushes it: the whole queue,
   * the new record last, goes out as one batch, with the write's callback deferred to
   * that flush; on full success the queue is left empty.
   */
  lemma ThresholdWriteFlushesQueue<R>(d: Dispatch<R>, s: State<R>, record: R, service: Client)
    requires ParallelResponses(service)
    requires |s.queue| + 1 == d.highWaterMark
    ensures var e := Write(d, s, record, service);
      var pushed := s.(queue := s.queue + [record]);
      && e == WriteRecords(d, pushed, service)
      && 1 <= |e.calls| <= d.maxRetries + 1
      && e.calls[0] == BatchRequest(d, s.queue + [record])
      && (Call(d, pushed, service).outcome.Ok? && Call(d, pushed, service).outcome.value.failedRecordCount == 0
          ==> e.after.queue == [] && e.callbacks == [None])
  {
    var pushed := s.(queue := s.queue + [record]);
    assert pushed.queue[..|pushed.queue|] == pushed.queue;
    SendsFrontPrefix(d, pushed, service);
  }

  /**
   * The write that fills the queue to `highWaterMark` sends the whole queue, the new
   * record last, on every attempt of its flush.
   */
  lemma LastWriteFlushesAll<R>(d: Dispatch<R>, b: State<R>, records: seq<R>, service: Client)
    requires ParallelResponses(service)
    requires |records| == d.highWaterMark >= 1 && b.queue == records[..|records| - 1]
    ensures var e := Write(d, b, records[|records| - 1], service);
      && e.calls == Repeat(BatchRequest(d, records), |e.calls|)
      && 1 <= |e.calls| <= d.maxRetries + 1
  {
    var last := |records| - 1;
    assert b.queue + [records[last]] == records;
    ThresholdWriteFlushesQueue(d, b, records[last], service);
    SendsFrontPrefix(d, b.(queue := records), service);
  }

  /**
   * Writes that bring the queue exactly to `highWaterMark` make no call until the last
   * one, whose flush sends the earlier queue followed by all the written records.
   */
  lemma {:induction false} BufferThenFlush<R>(d: Dispatch<R>, s: State<R>, later: seq<R>, service: Client)
    requires ParallelResponses(service)
    requires later != [] && |s.queue| + |later| == d.highWaterMark
    ensures var e := WriteAll(d, s, later, service);
      && e.calls == Repeat(BatchRequest(d, s.queue + later), |e.calls|)
      && 1 <= |e.calls| <= d.maxRetries + 1
  {
    var last := |later| - 1;
    BufferBelowHighWaterMark(d, s, later[..last], service);
    var init := WriteAll(d, s, later[..last], service);
    assert s.queue + later == s.queue + later[..last] + [later[last]];
    assert (s.queue + later)[..|s.queue + later| - 1] == init.after.queue;
    LastWriteFlushesAll(d, init.after, s.queue + later, service);
  }

  /**
   * Writing `highWaterMark` records into an empty queue makes no call for the first
   * `highWaterMark - 1` and exactly one flush, of all of them, on the last.
   */
  lemma FillToHighWaterMark<R>(d: Dispatch<R>, s: State<R>, records: seq<R>, service: Client)
    requires ParallelResponses(service)
    requires |s.queue| == 0 && |records| == d.highWaterMark >= 1
    ensures var last := |records| - 1;
      var buffered := WriteAll(d, s, records[..last], service);
      var e := WriteAll(d, s, records, service);
      && buffered.calls == []
      && buffered.after.queue == records[..last]
      && e.calls == Repeat(BatchRequest(d, records), |e.calls|)
      && 1 <= |e.calls| <= d.maxRetries + 1
  {
    var last := |records| - 1;
    BufferBelowHighWaterMark(d, s, records[..last], service);
    assert s.queue + records == records;
    BufferThenFlush(d, s, records, service);
  }

  /**
   * Fewer than `highWaterMark` records and then the idle timer: the timer is armed, and
   * when it fires one flush sends exactly those records.
   */
  lemma IdleFlushSendsBufferedRecords<R>(d: Dispatch<R>, s: State<R>, records: seq<R>, service: Client)
    requires ParallelResponses(service)
    requires |s.queue| == 0 && 0 < |records| < d.highWaterMark
    ensures var buffered := WriteAll(d, s, records, service).after;
      && buffered.timerArmed
      && 1 <= |IdleTimerFires(d, buffered, service).calls| <= d.maxRetries + 1
      && IdleTimerFires(d, buffered, service).calls[0] == BatchRequest(d, records)
      && IdleTimerFires(d, buffered, service).calls
         == Repeat(BatchRequest(d, records), |IdleTimerFires(d, buffered, service).calls|)
      && !IdleTimerFires(d, buffered, service).after.timerArmed
  {
    BufferBelowHighWaterMark(d, s, records, service);
    var buffered := WriteAll(d, s, records, service).after;
    assert buffered.queue[..|records|] == records;
    SendsFrontPrefix(d, buffered.(timerArmed := false), service);
  }

  /**
   * Requeued records go out before anything written after the partial failure: later
   * writes below the threshold only append behind them.
   */
  lemma RequeuedBeforeLaterWrites<R>(d: Dispatch<R>, s: State<R>, service: Client, response: PutRecordsOutput, later: seq<R>)
    requires ParallelResponses(service) && |s.queue| != 0
    requires Call(d, s, service).outcome == Ok(response) && response.failedRecordCount != 0
    requires |WriteRecords(d, s, service).after.queue| + |later| < d.highWaterMark
    ensures |response.records| == |Batch(d, s)|
    ensures var failed := FailedRecords(Batch(d, s), response.records);
      WriteAll(d, WriteRecords(d, s, service).after, later, service).after.queue
        == failed + s.queue[|Batch(d, s)|..] + later
  {
    BufferBelowHighWaterMark(d, WriteRecords(d, s, service).after, later, service);
  }

  /**
   * When later writes fill the queue to `highWaterMark`, the flush they trigger sends the
   * requeued records first, then the untaken rest, then the later records.
   */
  lemma RequeuedSentFirstAtThreshold<R>(d: Dispatch<R>, s: State<R>, service: Client, response: PutRecordsOutput, later: seq<R>)
    requires ParallelResponses(service) && |s.queue| != 0
    requires Call(d, s, service).outcome == Ok(response) && response.failedRecordCount != 0
    requires later != [] && |WriteRecords(d, s, service).after.queue| + |later| == d.highWaterMark
    ensures |response.records| == |Batch(d, s)|
    ensures var failed := FailedRecords(Batch(d, s), response.records);
      var e := WriteAll(d, WriteRecords(d, s, service).after, later, service);
      && 1 <= |e.calls| <= d.maxRetries + 1
      && e.calls[0] == BatchRequest(d, failed + s.queue[|Batch(d, s)|..] + later)
  {
    BufferThenFlush(d, WriteRecords(d, s, service).after, later, service);
  }

  /**
   * `flushWrite` resolves exactly when there was nothing to send, or when the whole
   * queue fit in one batch and the call succeeded with `FailedRecordCount` zero.
   */
  lemma FlushWriteResolvesIffDrained<R>(d: Dispatch<R>, s: State<R>, service: Client)
    requires ParallelResponses(service)
    ensures FlushWrite(d, s, service).settlement == Resolved <==>
      (|s.queue| == 0
       || (|s.queue| <= d.highWaterMark
           && Call(d, s, service).outcome.Ok?
           && Call(d, s, service).outcome.value.failedRecordCount == 0))
  {
    if |s.queue| != 0 {
      SendsFrontPrefix(d, s, service);
    }
  }

  /**
   * A successful call that could not take the whole queue leaves `flushWrite` rejected
   * with the count of records left.
   */
  lemma FlushWriteReportsItemsLeft<R>(d: Dispatch<R>, s: State<R>, service: Client, response: PutRecordsOutput)
    requires ParallelResponses(service)
    requires 0 <= d.highWaterMark < |s.queue|
    requires Call(d, s, service).outcome == Ok(response) && response.failedRecordCount == 0
    ensures FlushWrite(d, s, service).settlement == Rejected(ItemsLeft(|s.queue| - d.highWaterMark))
  {
  }
}
