/**
 * The boundary with the stream-ingestion service (the PutRecords call) and the retry
 * policy `retryAWS` wraps around it: promise-retry with `retries: maxRetries`, where a
 * non-retryable error ends the call at once and a retryable one is retried while
 * retries are left.
 */
module Service {
  import opened Wrappers
  import opened Records

  /** The params of one PutRecords call: `{Records, StreamName}`. */
  datatype PutRecordsInput = PutRecordsInput(records: seq<WireRecord>, streamName: string)

  /** One entry of the response's `Records` array; an absent field is `None`. */
  datatype ResultEntry = ResultEntry(errorCode: Option<string>, errorMessage: Option<string>)

  /** JavaScript truthiness of `record.ErrorCode`: present and not the empty string. */
  predicate HasErrorCode(entry: ResultEntry) {
    entry.errorCode.Some? && entry.errorCode.value != ""
  }

  datatype PutRecordsOutput = PutRecordsOutput(failedRecordCount: nat, records: seq<ResultEntry>)

  /** A rejected call; `retryable` is the SDK's classification flag. */
  datatype ServiceError = ServiceError(retryable: bool, message: string)

  /** What one attempt of the call yields. */
  datatype Outcome = Answered(response: PutRecordsOutput) | Threw(error: ServiceError)

  /**
   * The service as an oracle: the outcome of attempt `number` (counted from 1, as
   * promise-retry counts) of a call with the given params.
   */
  type Client = (PutRecordsInput, nat) -> Outcome

  /** The service answers every submitted record with one response entry, in order. */
  ghost predicate ParallelResponses(client: Client) {
    forall params: PutRecordsInput, number: nat :: client(params, number).Answered? ==>
      |client(params, number).response.records| == |params.records|
  }

  predicate IsRetryable(outcome: Outcome) {
    outcome.Threw? && outcome.error.retryable
  }

  /** Why a whole call failed: `throw new Error(err)` at once, or promise-retry giving up. */
  datatype CallError = NonRetryable(cause: ServiceError) | RetriesExhausted(last: ServiceError)

  datatype CallResult = CallResult(attempts: nat, outcome: Result<PutRecordsOutput, CallError>)

  /** The attempts from `number` on, with `maxRetries` retries allowed after the first. */
  function RetryFrom(client: Client, params: PutRecordsInput, maxRetries: nat, number: nat): (r: CallResult)
    requires 1 <= number <= maxRetries + 1
    ensures number <= r.attempts <= maxRetries + 1
    ensures r.outcome.Ok? ==> client(params, r.attempts) == Answered(r.outcome.value)
    decreases maxRetries + 1 - number
  {
    match client(params, number)
    case Answered(response) => CallResult(number, Ok(response))
    case Threw(err) =>
      if !err.retryable then CallResult(number, Err(NonRetryable(err)))
      else if number == maxRetries + 1 then CallResult(number, Err(RetriesExhausted(err)))
      else RetryFrom(client, params, maxRetries, number + 1)
  }

  /** The whole retry policy of one call. */
  function Retry(client: Client, params: PutRecordsInput, maxRetries: nat): (r: CallResult)
    ensures 1 <= r.attempts <= maxRetries + 1
  {
    RetryFrom(client, params, maxRetries, 1)
  }

  /** How the call settles, given the outcome of the attempt that ends it. */
  function Settle(last: Outcome): Result<PutRecordsOutput, CallError> {
    match last
    case Answered(response) => Ok(response)
    case Threw(err) => if err.retryable then Err(RetriesExhausted(err)) else Err(NonRetryable(err))
  }

  /**
   * The policy stops at the first attempt that is not a retryable error, or at the last
   * attempt allowed; every earlier attempt was a retryable error, and the call settles
   * on the outcome of that last attempt.
   */
  lemma {:induction false} RetryStopsAtFirstSettledAttempt(client: Client, params: PutRecordsInput, maxRetries: nat, number: nat)
    requires 1 <= number <= maxRetries + 1
    ensures var r := RetryFrom(client, params, maxRetries, number);
      && (forall j :: number <= j < r.attempts ==> IsRetryable(client(params, j)))
      && (r.attempts < maxRetries + 1 ==> !IsRetryable(client(params, r.attempts)))
      && r.outcome == Settle(client(params, r.attempts))
    decreases maxRetries + 1 - number
  {
    if IsRetryable(client(params, number)) && number < maxRetries + 1 {
      RetryStopsAtFirstSettledAttempt(client, params, maxRetries, number + 1);
    }
  }

  /** A non-retryable error on the first attempt ends the call after that one attempt. */
  lemma NonRetryableStopsAtOnce(client: Client, params: PutRecordsInput, maxRetries: nat)
    requires client(params, 1).Threw? && !client(params, 1).error.retryable
    ensures Retry(client, params, maxRetries) == CallResult(1, Err(NonRetryable(client(params, 1).error)))
  {
  }

  /** A service that keeps failing retryably is tried exactly `maxRetries + 1` times. */
  lemma {:induction false} AlwaysRetryableExhausts(client: Client, params: PutRecordsInput, maxRetries: nat)
    requires forall j :: 1 <= j <= maxRetries + 1 ==> IsRetryable(client(params, j))
    ensures Retry(client, params, maxRetries).attempts == maxRetries + 1
    ensures Retry(client, params, maxRetries).outcome.Err?
    ensures Retry(client, params, maxRetries).outcome.error.RetriesExhausted?
    ensures Retry(client, params, maxRetries).outcome == Settle(client(params, maxRetries + 1))
  {
    RetryStopsAtFirstSettledAttempt(client, params, maxRetries, 1);
  }

  /**
   * Two retryable failures and then an answer: with three retries allowed the call
   * takes exactly three attempts and succeeds with that answer.
   */
  lemma RetryTwiceThenSucceed(client: Client, params: PutRecordsInput, response: PutRecordsOutput)
    requires IsRetryable(client(params, 1)) && IsRetryable(client(params, 2))
    requires client(params, 3) == Answered(response)
    ensures Retry(client, params, 3) == CallResult(3, Ok(response))
  {
    RetryStopsAtFirstSettledAttempt(client, params, 3, 1);
  }
}
