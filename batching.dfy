/**
 * The dispatch engine of `KinesisWritable` as functions of its state: the record queue
 * and the idle timer. Each function gives the new state, the PutRecords calls made and
 * the arguments the callback receives, in order (`None` for `callback()`).
 */
module Batching {
  import opened Wrappers
  import opened Records
  import opened Service
  import opened Requeue

  /** The mutable part of an instance: `queue` and the `_queueCheckTimer` handle. */
  datatype State<R> = State(queue: seq<R>, timerArmed: bool, timerArms: nat)

  /** The instance settings a flush uses. */
  datatype Dispatch<!R> = Dispatch(
    streamName: string,
    highWaterMark: int,
    maxRetries: nat,
    serialise: R -> string,
    partitionKey: R -> string)

  /** The error `writeRecords` hands its callback. */
  datatype WriteError =
    | CallFailed(cause: CallError)        // the PutRecords call was rejected as a whole
    | RecordsFailed(failedCount: nat)     // "Failed to write N records"

  datatype Effect<R> = Effect(after: State<R>, calls: seq<PutRecordsInput>, callbacks: seq<Option<WriteError>>)

  /** How the promise of `flushWrite` settles. */
  datatype Settlement = Resolved | Rejected(reason: FlushError)

  datatype FlushError = WriteFailed(error: WriteError) | ItemsLeft(count: nat)

  datatype Flushed<R> = Flushed(effect: Effect<R>, settlement: Settlement)

  /** The params of the PutRecords call for a batch. */
  function BatchRequest<R>(d: Dispatch<R>, batch: seq<R>): PutRecordsInput {
    PutRecordsInput(PrepBatch(d.serialise, d.partitionKey, batch), d.streamName)
  }

  /** `queue.splice(0, Math.min(queue.length, highWaterMark))`: the records a flush takes. */
  function Batch<R>(d: Dispatch<R>, s: State<R>): seq<R> {
    s.queue[..TakeCount(|s.queue|, d.highWaterMark)]
  }

  /** The retried PutRecords call a flush makes for its batch. */
  function Call<R>(d: Dispatch<R>, s: State<R>, service: Client): CallResult {
    Retry(service, BatchRequest(d, Batch(d, s)), d.maxRetries)
  }

  /** The same params, once per attempt. */
  function Repeat<T>(x: T, n: nat): (s: seq<T>)
    ensures |s| == n && forall i :: 0 <= i < n ==> s[i] == x
  {
    if n == 0 then [] else Repeat(x, n - 1) + [x]
  }

  /**
   * `writeRecords`: take the front batch, send it through the retry policy, and on a
   * non-zero `FailedRecordCount` put the records whose entries carry an `ErrorCode` back
   * at the head of the queue. The timer is not touched.
   */
  function WriteRecords<R>(d: Dispatch<R>, s: State<R>, service: Client): (e: Effect<R>)
    requires ParallelResponses(service)
    ensures e.callbacks != []
    ensures e.after.timerArmed == s.timerArmed && e.after.timerArms == s.timerArms
  {
    if |s.queue| == 0 then Effect(s, [], [None])
    else
      var n := TakeCount(|s.queue|, d.highWaterMark);
      var batch := Batch(d, s);
      var params := BatchRequest(d, batch);
      var call := Call(d, s, service);
      var calls := Repeat(params, call.attempts);
      match call.outcome
      case Err(err) => Effect(s.(queue := s.queue[n..]), calls, [Some(CallFailed(err))])
      case Ok(response) =>
        if response.failedRecordCount != 0 then
          var failed := FailedRecords(batch, response.records);
          Effect(s.(queue := failed + s.queue[n..]), calls, [Some(RecordsFailed(|failed|)), None])
        else
          Effect(s.(queue := s.queue[n..]), calls, [None])
  }

  /**
   * `_write`: append the record; at `highWaterMark` flush with the write's callback,
   * otherwise replace the idle timer by a new one and call back at once.
   */
  function Write<R>(d: Dispatch<R>, s: State<R>, record: R, service: Client): (e: Effect<R>)
    requires ParallelResponses(service)
    ensures |s.queue| + 1 < d.highWaterMark ==>
      && e.after.queue == s.queue + [record] && e.calls == [] && e.callbacks == [None]
      && e.after.timerArmed && e.after.timerArms == s.timerArms + 1
    ensures |s.queue| + 1 >= d.highWaterMark ==>
      && e == WriteRecords(d, s.(queue := s.queue + [record]), service)
      && 1 <= |e.calls| <= d.maxRetries + 1
      && e.after.timerArmed == s.timerArmed && e.after.timerArms == s.timerArms
  {
    var pushed := s.(queue := s.queue + [record]);
    if |pushed.queue| >= d.highWaterMark then WriteRecords(d, pushed, service)
    else Effect(pushed.(timerArmed := true, timerArms := s.timerArms + 1), [], [None])
  }

  /** Several `_write` calls in a row, against the same service. */
  function WriteAll<R>(d: Dispatch<R>, s: State<R>, records: seq<R>, service: Client): Effect<R>
    requires ParallelResponses(service)
  {
    if records == [] then Effect(s, [], [])
    else
      var last := |records| - 1;
      var init := WriteAll(d, s, records[..last], service);
      var step := Write(d, init.after, records[last], service);
      Effect(step.after, init.calls + step.calls, init.callbacks + step.callbacks)
  }

  /** The idle timer fires: a `writeRecords` whose callback does nothing. */
  function IdleTimerFires<R>(d: Dispatch<R>, s: State<R>, service: Client): (e: Effect<R>)
    requires ParallelResponses(service) && s.timerArmed
    ensures !e.after.timerArmed && e.after.timerArms == s.timerArms
    ensures |e.calls| == 0 <==> |s.queue| == 0
  {
    WriteRecords(d, s.(timerArmed := false), service)
  }

  /**
   * `flushWrite`: one `writeRecords`; the promise settles on its first callback, with
   * that error if there is one, otherwise rejected while records are left in the queue.
   */
  function FlushWrite<R>(d: Dispatch<R>, s: State<R>, service: Client): (f: Flushed<R>)
    requires ParallelResponses(service)
    ensures f.settlement == Resolved ==> f.effect.after.queue == []
    ensures |s.queue| == 0 ==> f.settlement == Resolved && f.effect.calls == []
  {
    var e := WriteRecords(d, s, service);
    var settlement :=
      match e.callbacks[0]
      case Some(err) => Rejected(WriteFailed(err))
      case None => if |e.after.queue| != 0 then Rejected(ItemsLeft(|e.after.queue|)) else Resolved;
    Flushed(e, settlement)
  }
}
