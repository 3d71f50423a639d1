/**
 * Construction of a `KinesisWritable`: the two required arguments, the option defaults,
 * and the clamp of `highWaterMark` to the 500 records one PutRecords call accepts.
 */
module Config {
  import opened Wrappers

  /** The most records one PutRecords request may carry. */
  const PutRecordsLimit := 500

  const DefaultHighWaterMark := 16
  const DefaultRetryTimeout := 100
  const DefaultWait := 500

  /** The retry count every instance uses, whatever the options say. */
  const FixedMaxRetries := 3

  /** The options object; `None` is an option left undefined. */
  datatype Options = Options(
    highWaterMark: Option<int>,
    maxRetries: Option<int>,
    retryTimeout: Option<int>,
    wait: Option<int>)

  /** The constructor's two exceptions: 'client is required', 'streamName is required'. */
  datatype ConfigError = ClientRequired | StreamNameRequired

  /** What the constructor stores; `clampWarned` records the logger warning. */
  datatype Settings = Settings(
    streamName: string,
    highWaterMark: int,
    maxRetries: nat,
    retryTimeout: int,
    wait: int,
    clampWarned: bool)

  /** JavaScript truthiness of the stream name: given and not the empty string. */
  predicate Truthy(name: Option<string>) {
    name.Some? && name.value != ""
  }

  /** The validation and option handling of the constructor. */
  function Configure(hasClient: bool, streamName: Option<string>, options: Options): (r: Result<Settings, ConfigError>)
    ensures r.Ok? <==> hasClient && Truthy(streamName)
    ensures !hasClient ==> r == Err(ClientRequired)
    ensures hasClient && !Truthy(streamName) ==> r == Err(StreamNameRequired)
    ensures r.Ok? ==> r.value.streamName == streamName.value && r.value.highWaterMark <= PutRecordsLimit
  {
    if !hasClient then Err(ClientRequired)
    else if !Truthy(streamName) then Err(StreamNameRequired)
    else
      var requested := options.highWaterMark.GetOr(DefaultHighWaterMark);
      var clamp := requested > PutRecordsLimit;
      Ok(Settings(
        streamName.value,
        if clamp then PutRecordsLimit else requested,
        FixedMaxRetries,
        options.retryTimeout.GetOr(DefaultRetryTimeout),
        options.wait.GetOr(DefaultWait),
        clamp))
  }

  /**
   * The effective `highWaterMark` is the requested one (16 by default) capped at 500; a
   * warning is logged exactly when the request exceeds 500, and construction goes on.
   */
  lemma HighWaterMarkClamped(hasClient: bool, streamName: Option<string>, options: Options)
    requires hasClient && Truthy(streamName)
    ensures var requested := options.highWaterMark.GetOr(16);
      var settings := Configure(hasClient, streamName, options).value;
      && settings.highWaterMark == (if requested < 500 then requested else 500)
      && (settings.clampWarned <==> requested > 500)
  {
  }

  /** The `maxRetries` option is ignored: every instance retries three times. */
  lemma MaxRetriesOptionIgnored(hasClient: bool, streamName: Option<string>, options: Options, maxRetries: Option<int>)
    ensures Configure(hasClient, streamName, options)
         == Configure(hasClient, streamName, options.(maxRetries := maxRetries))
    ensures Configure(hasClient, streamName, options).Ok? ==>
      Configure(hasClient, streamName, options).value.maxRetries == 3
  {
  }
}
