# kinesis-write-stream: the batching and requeue engine

This project models the core of `KinesisWritable`, a writable object stream that buffers
records and ships them to an Amazon Kinesis stream with `PutRecords`. It covers:

- construction: the checks for a client and a stream name, the option defaults, and the
  clamp of `highWaterMark` to 500 records;
- `_write`: the record is appended to the queue. At `highWaterMark` it flushes;
  otherwise it replaces the idle timer;
- `writeRecords`: it takes a front batch and prepares `{Data, PartitionKey}` wire
  records. It sends them through the retry policy. On a partial failure it requeues
  the records whose response entries carry an `ErrorCode`;
- `retryAWS`: promise-retry with three retries. A non-retryable error is final at once;
- `flushWrite`: resolves only when the flush succeeded and the queue is empty.

Layout:

- `wrappers.dfy`: Option and Result.
- `records.dfy`: `_prepRecord` and the `map` over a batch.
- `service.dfy`: the PutRecords request and response and the retry policy.
- `requeue.dfy`: the batch size and the `ErrorCode` scan, including the `forEach` loop as
  a method.
- `batching.dfy`: the engine as functions of its state (queue, timer).
- `properties.dfy`: lemmas about those functions.
- `config.dfy`: constructor validation.
- `kinesis_writable.dfy`: the class `KinesisWritable`. Its methods update `queue` and
  the timer fields in place. `Write`, `WriteRecords`, `IdleTimerFires` and `FlushWrite`
  are proved to match the Batching functions. `Create` is proved against
  `Config.Configure`, and `RetryAWS` against `Service.Retry`.

Boundaries are parameters:

- The AWS client is a `Client`, a function giving the outcome of attempt `number` of a
  call with given params. It is passed to each operation that calls the service.
- `JSON.stringify` and `getPartitionKey` are function-valued fields. The default key
  function is `Records.DefaultPartitionKey`, the constant "0".
- The idle timer is a flag (`timerArmed`) plus a count of the times a timer was set.

The model keeps these behaviours of the code as written:

- a call that fails as a whole drops its batch;
- a partial failure calls the callback twice, first with an error and then without;
- `maxRetries` is always 3, whatever the options say;
- requeue is decided by `FailedRecordCount !== 0`, but which records are requeued is
  decided by the `ErrorCode` scan.

## Model

| member | source | states |
|---|---|---|
| `Records.DefaultPartitionKey` | index.js:93-95 | the shipped key function: the constant "0" for every record |
| `Records.PrepRecord` | index.js:97-102 | `_prepRecord`: the serialised record as `Data` and the key function's answer for it as `PartitionKey` |
| `Records.PrepBatch` | index.js:112 | the wire batch has one entry per record, in order; entry i holds the serialised record i and the key the key function gives record i |
| `Records.DefaultKeySinglePartition` | index.js:93-95 | with the default key function every wire record has partition key "0" |
| `Service.RetryFrom` | index.js:142-156 | the attempts used lie between the current attempt number and maxRetries + 1; a successful call returns the answer the service gave on its last attempt |
| `Service.Retry` | index.js:155 | a call makes at least one and at most maxRetries + 1 attempts |
| `Service.RetryStopsAtFirstSettledAttempt` | index.js:147-154 | every attempt before the last was a retryable error; the last is not retryable unless it is attempt maxRetries + 1; the call settles on the last attempt's outcome |
| `Service.NonRetryableStopsAtOnce` | index.js:149-151 | a non-retryable error on attempt 1 ends the call after one attempt with that error |
| `Service.AlwaysRetryableExhausts` | index.js:153-155 | a service that only fails retryably is tried exactly maxRetries + 1 times and the call fails as exhausted |
| `Service.RetryTwiceThenSucceed` | test/kinesis-write-stream.js:192-210 | two retryable failures then an answer: exactly 3 attempts, success with that answer |
| `Requeue.TakeCount` | index.js:111 | the batch size is at most the queue length and at most highWaterMark (0 when highWaterMark is negative), and equals one of them |
| `Requeue.FailedIndices` | index.js:126-131 | the scan selects, in increasing order, exactly the indices whose entries carry an ErrorCode |
| `Requeue.FailedRecords` | index.js:125-131 | the records the scan pushes onto `failedRecords`: never more than the batch holds |
| `Requeue.FailedRecordsAtFailedIndices` | index.js:125-131 | the requeued records are the batch records at those indices, one for one and in batch order, so no accepted record is requeued |
| `Requeue.FailedRecordsStep` | index.js:126-130 | scanning one more entry appends that record exactly when its entry carries an ErrorCode |
| `Requeue.CollectFailed` | index.js:125-131 | the forEach loop builds exactly the failed records of the batch |
| `Requeue.FailedRecordsFromBatch` | index.js:129 | the requeued records are a sub-multiset of the batch: none invented or duplicated |
| `Requeue.NoErrorCodeNothingFailed` | index.js:127 | when no entry carries an ErrorCode nothing is selected |
| `Batching.WriteRecords` | index.js:104-140 | a flush never touches the idle timer and always calls back at least once |
| `Batching.Write` | index.js:47-62 | below highWaterMark the record is appended, no call is made, the callback runs at once and one new timer is set; at or past highWaterMark the write is writeRecords on the pushed queue, its callback deferred to that flush, with 1 to maxRetries + 1 attempts and the timer left as it was |
| `Batching.IdleTimerFires` | index.js:59 | the timer callback leaves no timer armed and makes a call exactly when the queue is not empty |
| `Batching.FlushWrite` | index.js:64-78 | resolving implies the queue is empty afterwards; an empty queue resolves with no call |
| `Properties.EmptyQueueNoCall` | index.js:105-108 | on an empty queue writeRecords calls back without error, makes no call and changes nothing |
| `Properties.SendsFrontPrefix` | index.js:111-117 | a flush takes the first min(queue length, highWaterMark) records and sends them, prepared in order, with the same params on each of 1 to maxRetries + 1 attempts; the untaken records stay at the tail in order |
| `Properties.BatchWithinHighWaterMark` | index.js:111 | no request carries more than highWaterMark records, so none more than 500 |
| `Properties.PartialFailureRequeuesFailed` | index.js:121-137 | with FailedRecordCount not 0, the queue becomes the ErrorCode records in batch order followed by the untaken rest; the callback gets an error counting them, then is called again |
| `Properties.WriteRecordsNeverDuplicates` | index.js:111-132 | after a flush the queue holds a sub-multiset of the records it held before |
| `Properties.CallFailureDropsBatch` | index.js:139 | when the call fails as a whole the batch is not restored and the callback gets the call's error |
| `Properties.ZeroFailedCountRequeuesNothing` | index.js:121 | with FailedRecordCount 0 nothing is requeued even if entries carry an ErrorCode |
| `Properties.FailedCountWithoutErrorCodes` | index.js:121-134 | with FailedRecordCount not 0 and no ErrorCode entry nothing is requeued, yet an error for 0 records is reported |
| `Properties.BufferBelowHighWaterMark` | index.js:50-61 | writes that stay below highWaterMark append at the tail, make no call, call back at once and set one new timer each |
| `Properties.ThresholdWriteFlushesQueue` | index.js:52-54 | the write reaching highWaterMark flushes the whole queue in one batch, its callback deferred to that flush; full success empties the queue |
| `Properties.LastWriteFlushesAll` | index.js:52-53 | the write that fills the queue to highWaterMark sends the whole queue, the new record last, on every attempt |
| `Properties.BufferThenFlush` | index.js:50-61 | writes that bring any queue exactly to highWaterMark make no call until the last, whose flush sends the earlier queue followed by all written records |
| `Properties.FillToHighWaterMark` | test/kinesis-write-stream.js:150-166 | highWaterMark writes into an empty queue: no call before the last write, then one flush of all of them |
| `Properties.IdleFlushSendsBufferedRecords` | index.js:56-59 | after fewer than highWaterMark writes the timer is set; when it fires, the flush makes 1 to maxRetries + 1 attempts and each sends exactly those records |
| `Properties.RequeuedBeforeLaterWrites` | index.js:132 | while later writes stay below highWaterMark, the requeued records stay at the head of the queue, ahead of those writes |
| `Properties.RequeuedSentFirstAtThreshold` | index.js:132 | when later writes fill the queue to highWaterMark, their flush sends the requeued records first, then the untaken rest, then the later records |
| `Properties.FlushWriteResolvesIffDrained` | index.js:64-78 | flushWrite resolves exactly when the queue was empty, or it fit in one batch and the call succeeded with FailedRecordCount 0 |
| `Properties.FlushWriteReportsItemsLeft` | index.js:71-73 | a successful flush that could not take the whole queue is rejected with the count left |
| `Config.Configure` | index.js:24-38 | construction fails with ClientRequired without a client, checked first, and with StreamNameRequired without a stream name; otherwise succeeds with highWaterMark at most 500 |
| `Config.HighWaterMarkClamped` | index.js:34-38 | the effective highWaterMark is min(requested, 500) with 16 by default; the warning is logged exactly when the request exceeds 500 |
| `Config.MaxRetriesOptionIgnored` | index.js:39 | the maxRetries option has no effect; every instance retries 3 times |
| `Writable.KinesisWritable.constructor` | index.js:32-44 | stores the settings, sets the first idle timer, starts with an empty queue |
| `Writable.KinesisWritable.Create` | index.js:17-45 | throws the configuration error or returns a fresh instance holding the clamped settings, the given serialiser and key function, one armed timer and an empty queue |
| `Writable.KinesisWritable.RetryAWS` | index.js:142-156 | the attempt loop sends the same params on each of 1 to maxRetries + 1 attempts and ends as the retry policy says |
| `Writable.KinesisWritable.WriteRecords` | index.js:104-140 | splices the batch, sends it, requeues failed records at the head; the new queue, calls and callbacks are those of Batching.WriteRecords |
| `Writable.KinesisWritable.Write` | index.js:47-62 | flushes exactly when the new length reaches highWaterMark; otherwise appends, sets a new timer and calls back at once |
| `Writable.KinesisWritable.IdleTimerFires` | index.js:59 | the timer callback clears the timer flag and flushes with a callback that does nothing |
| `Writable.KinesisWritable.FlushWrite` | index.js:64-78 | settles on the first callback of one flush; resolving implies an empty queue |

## Left out

- `_flush` (index.js:80-90): the timer cancel and the outer promise-retry around `flushWrite`. Its retry count comes from library defaults that are not part of this model, and it has no rejection handler. Only `flushWrite` is modelled.
- Real time: the `wait` idle delay and the `retryTimeout` backoff are stored but have no effect on the model. `setTimeout`/`clearTimeout` become the `timerArmed` flag and the `timerArms` count.
- Asynchrony: every operation runs to completion in one step. Overlapping flushes, one from the idle timer and one from the threshold, are not modelled.
- The stream base class: the `super` call, object mode, backpressure, and the `finish` and `error` events.
- Logging, apart from the clamp warning, which is the `clampWarned` setting.
- Serialisation: `JSON.stringify` is a total function parameter. A record it cannot serialise, which would throw out of `writeRecords`, is not modelled.
- Error text: "Failed to write N records" becomes `RecordsFailed(N)`. `new Error(err)` for a non-retryable error becomes `NonRetryable(err)`.
- `retryAWS`'s `funcName` argument: only `putRecords` is ever passed. It is also used only for the method lookup and the attempt log.
- Batching.WriteRecords: responses whose `Records` array is not as long as the batch are excluded by `ParallelResponses`. The code would push `undefined` into the queue for an extra entry.
- The client: only whether one was given is checked. Its behaviour is the `Client` passed to each operation.
- The client's answer depends only on the params and the attempt number, and `Batching.WriteAll` passes one client to every write. Two flushes of the same batch therefore get the same answers. A service whose answers change over time is not modelled.
- A `highWaterMark` that is not an integer, and options given as `null`.
- A callback that throws inside the `then` handler, which the `catch` at index.js:139 would call again.
- demo.js: a random-timed producer and client setup, I/O only.
- The skipped random partition-key test (test/kinesis-write-stream.js:73-83). The code has no such behaviour.
