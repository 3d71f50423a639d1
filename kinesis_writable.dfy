/**
 * `KinesisWritable` as a class: the record queue and the idle-timer handle are fields
 * its methods update in place, and each method is proved to move the instance exactly
 * as the functions of module Batching describe.
 */
module Writable {
  import opened Wrappers
  import opened Service
  import opened Requeue
  import opened Batching
  import opened Config

  class KinesisWritable<R> {
    const streamName: string
    const highWaterMark: int
    const maxRetries: nat
    const retryTimeout: int
    const wait: int
    /** `JSON.stringify`, opaque to the model. */
    const serialise: R -> string
    /** `getPartitionKey`, `DefaultPartitionKey` unless overridden. */
    const getPartitionKey: R -> string

    var queue: seq<R>
    /** Whether `_queueCheckTimer` is pending, and how many times a timer has been set. */
    var timerArmed: bool
    var timerArms: nat

    function Dispatcher(): Dispatch<R> {
      Dispatch(streamName, highWaterMark, maxRetries, serialise, getPartitionKey)
    }

    function Current(): State<R>
      reads this
    {
      State(queue, timerArmed, timerArms)
    }

    /** Store validated settings, set the first idle timer, start with an empty queue. */
    constructor (settings: Settings, serialise: R -> string, getPartitionKey: R -> string)
      ensures streamName == settings.streamName && highWaterMark == settings.highWaterMark
      ensures maxRetries == settings.maxRetries && retryTimeout == settings.retryTimeout && wait == settings.wait
      ensures this.serialise == serialise && this.getPartitionKey == getPartitionKey
      ensures queue == [] && timerArmed && timerArms == 1
    {
      streamName := settings.streamName;
      highWaterMark := settings.highWaterMark;
      maxRetries := settings.maxRetries;
      retryTimeout := settings.retryTimeout;
      wait := settings.wait;
      this.serialise := serialise;
      this.getPartitionKey := getPartitionKey;
      timerArmed := true;
      timerArms := 1;
      queue := [];
    }

    /** `new KinesisWritable(client, streamName, options)`: throws, or a fresh instance. */
    static method Create(hasClient: bool, streamName: Option<string>, options: Options,
                         serialise: R -> string, getPartitionKey: R -> string)
      returns (r: Result<KinesisWritable<R>, ConfigError>)
      ensures !hasClient ==> r == Err(ClientRequired)
      ensures hasClient && !Truthy(streamName) ==> r == Err(StreamNameRequired)
      ensures r.Ok? <==> Configure(hasClient, streamName, options).Ok?
      ensures r.Ok? ==> var settings := Configure(hasClient, streamName, options).value;
        && fresh(r.value)
        && r.value.streamName == settings.streamName
        && r.value.highWaterMark == settings.highWaterMark <= PutRecordsLimit
        && r.value.maxRetries == FixedMaxRetries
        && r.value.retryTimeout == settings.retryTimeout && r.value.wait == settings.wait
        && r.value.serialise == serialise && r.value.getPartitionKey == getPartitionKey
        && r.value.queue == [] && r.value.timerArmed && r.value.timerArms == 1
    {
      var configured := Configure(hasClient, streamName, options);
      match configured
      case Err(e) =>
        r := Err(e);
      case Ok(settings) =>
        var stream := new KinesisWritable(settings, serialise, getPartitionKey);
        r := Ok(stream);
    }

    /**
     * `retryAWS`: attempt the call, numbering attempts from 1; stop on an answer or a
     * non-retryable error, retry a retryable one while retries are left. Every attempt
     * sends the same params.
     */
    method RetryAWS(params: PutRecordsInput, service: Client)
      returns (calls: seq<PutRecordsInput>, result: Result<PutRecordsOutput, CallError>)
      ensures 1 <= |calls| <= maxRetries + 1
      ensures forall i :: 0 <= i < |calls| ==> calls[i] == params
      ensures |calls| == Retry(service, params, maxRetries).attempts
      ensures result == Retry(service, params, maxRetries).outcome
    {
      var number := 1;
      calls := [];
      while true
        invariant 1 <= number <= maxRetries + 1
        invariant |calls| == number - 1
        invariant forall i :: 0 <= i < |calls| ==> calls[i] == params
        invariant Retry(service, params, maxRetries) == RetryFrom(service, params, maxRetries, number)
        decreases maxRetries + 1 - number
      {
        calls := calls + [params];
        match service(params, number)
        case Answered(response) =>
          result := Ok(response);
          return;
        case Threw(err) =>
          if !err.retryable {
            result := Err(NonRetryable(err));
            return;
          }
          if number == maxRetries + 1 {
            result := Err(RetriesExhausted(err));
            return;
          }
          number := number + 1;
      }
    }

    /**
     * `writeRecords`: splice the front batch off the queue, send it, and on a partial
     * failure put the records whose entries carry an `ErrorCode` back at the head.
     */
    method WriteRecords(service: Client) returns (calls: seq<PutRecordsInput>, callbacks: seq<Option<WriteError>>)
      requires ParallelResponses(service)
      modifies this
      ensures var e := Batching.WriteRecords(Dispatcher(), old(Current()), service);
        Current() == e.after && calls == e.calls && callbacks == e.callbacks
      ensures old(queue) == [] ==> queue == [] && calls == [] && callbacks == [None]
    {
      if |queue| == 0 {
        calls, callbacks := [], [None];
        return;
      }
      var n := TakeCount(|queue|, highWaterMark);
      var dataToPut := queue[..n];
      queue := queue[n..];
      var params := BatchRequest(Dispatcher(), dataToPut);
      var result;
      calls, result := RetryAWS(params, service);
      match result
      case Err(err) =>
        callbacks := [Some(CallFailed(err))];
      case Ok(response) =>
        callbacks := [];
        if response.failedRecordCount != 0 {
          var failedRecords := CollectFailed(dataToPut, response.records);
          queue := failedRecords + queue;
          callbacks := callbacks + [Some(RecordsFailed(|failedRecords|))];
        }
        callbacks := callbacks + [None];
    }

    /**
     * `_write`: append the record; at `highWaterMark` flush, the write's callback going
     * to that flush; otherwise clear the idle timer, set a new one and call back.
     */
    method Write(record: R, service: Client)
      returns (flushed: bool, calls: seq<PutRecordsInput>, callbacks: seq<Option<WriteError>>)
      requires ParallelResponses(service)
      modifies this
      ensures flushed <==> |old(queue)| + 1 >= highWaterMark
      ensures var e := Batching.Write(Dispatcher(), old(Current()), record, service);
        Current() == e.after && calls == e.calls && callbacks == e.callbacks
      ensures !flushed ==> && queue == old(queue) + [record] && timerArmed
                           && timerArms == old(timerArms) + 1 && calls == [] && callbacks == [None]
    {
      queue := queue + [record];
      if |queue| >= highWaterMark {
        flushed := true;
        calls, callbacks := WriteRecords(service);
        return;
      }
      flushed := false;
      timerArmed := true;
      timerArms := timerArms + 1;
      calls, callbacks := [], [None];
    }

    /** The idle timer fires and flushes with a callback that does nothing. */
    method IdleTimerFires(service: Client) returns (calls: seq<PutRecordsInput>)
      requires ParallelResponses(service) && timerArmed
      modifies this
      ensures var e := Batching.IdleTimerFires(Dispatcher(), old(Current()), service);
        Current() == e.after && calls == e.calls
      ensures !timerArmed
    {
      timerArmed := false;
      var ignored;
      calls, ignored := WriteRecords(service);
    }

    /**
     * `flushWrite`: one `writeRecords`, settled by its first callback: rejected with its
     * error, rejected while records are left, resolved otherwise.
     */
    method FlushWrite(service: Client) returns (calls: seq<PutRecordsInput>, settlement: Settlement)
      requires ParallelResponses(service)
      modifies this
      ensures var f := Batching.FlushWrite(Dispatcher(), old(Current()), service);
        Current() == f.effect.after && calls == f.effect.calls && settlement == f.settlement
      ensures settlement == Resolved ==> queue == []
    {
      var callbacks;
      calls, callbacks := WriteRecords(service);
      match callbacks[0]
      case Some(err) =>
        settlement := Rejected(WriteFailed(err));
      case None =>
        if |queue| != 0 {
          settlement := Rejected(ItemsLeft(|queue|));
        } else {
          settlement := Resolved;
        }
    }
  }
}
