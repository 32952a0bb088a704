/** The settings that bound jobs, retries and uploads, and the startup validators over them. */
module Settings {
  import opened Wrappers
  import opened Scheduler
  import opened RetryLoop

  datatype Settings = Settings(
    minUploadPhotos: int,
    maxUploadPhotos: int,
    maxUploadVideos: int,
    maxUploadFiles: int,
    maxUploadSizeMb: int,
    uploadConcurrency: int,
    geminiMaxAttempts: int,
    geminiRetryBaseDelay: real,
    geminiRequestTimeout: real,
    geminiMinAttempt: real,
    geminiDeadlineMargin: real,
    jobsMaxConcurrent: int,
    jobsMaxQueued: int,
    jobMaxWait: real,
    jobTimeout: real,
    jobShutdownGrace: real,
    stuckJobThreshold: int)

  datatype ConfigError =
    | FieldOutOfRange
    | PhotoBoundsUnsatisfiable
    | WaitEatsTheBudget
    | RunTooShortForAnAttempt
    | AttemptLongerThanRequest

  const MULTIPART_FRAMING_SLACK_BYTES := 1024 * 1024

  /** The `ge` and `gt` constraints of the fields, checked before any validator. */
  predicate FieldsInRange(s: Settings) {
    && s.minUploadPhotos >= 1 && s.maxUploadPhotos >= 1 && s.maxUploadVideos >= 1
    && s.geminiRequestTimeout > 0.0 && s.geminiMinAttempt > 0.0 && s.geminiDeadlineMargin >= 0.0
    && s.jobsMaxConcurrent >= 1 && s.jobsMaxQueued >= 1
    && s.jobMaxWait > 0.0 && s.jobTimeout > 0.0 && s.jobShutdownGrace >= 0.0
  }

  /** Construction of `Settings`: the first check that fails decides the error. */
  function Load(s: Settings): Result<Settings, ConfigError> {
    if !FieldsInRange(s) then Err(FieldOutOfRange)
    else if s.minUploadPhotos > s.maxUploadPhotos then Err(PhotoBoundsUnsatisfiable)
    else if s.jobMaxWait >= s.jobTimeout then Err(WaitEatsTheBudget)
    else if s.jobTimeout - s.jobMaxWait < s.geminiMinAttempt + s.geminiDeadlineMargin then Err(RunTooShortForAnAttempt)
    else if s.geminiMinAttempt > s.geminiRequestTimeout then Err(AttemptLongerThanRequest)
    else Ok(s)
  }

  /** The job runner's limits, as the application builds it from its settings. */
  function LimitsOf(s: Settings): Limits
    requires FieldsInRange(s)
  {
    Limits(s.jobsMaxConcurrent, s.jobsMaxQueued, s.jobMaxWait, s.jobTimeout, s.jobShutdownGrace)
  }

  /** `_retry_kwargs`. */
  function PolicyOf(s: Settings): Policy {
    Policy(s.geminiMaxAttempts, s.geminiRetryBaseDelay, s.geminiRequestTimeout, s.geminiMinAttempt,
           s.geminiDeadlineMargin)
  }

  function MaxRequestBodyBytes(s: Settings): int {
    s.maxUploadFiles * s.maxUploadSizeMb * 1024 * 1024 + MULTIPART_FRAMING_SLACK_BYTES
  }

  /** The counts and times that must be positive, and the two times that may be zero. */
  lemma RefusedByField(s: Settings)
    ensures
      var counts := [s.minUploadPhotos, s.maxUploadPhotos, s.maxUploadVideos, s.jobsMaxConcurrent, s.jobsMaxQueued];
      var times := [s.geminiRequestTimeout, s.geminiMinAttempt, s.jobMaxWait, s.jobTimeout];
      Load(s) == Err(FieldOutOfRange) <==>
        || (exists i :: 0 <= i < |counts| && counts[i] <= 0)
        || (exists i :: 0 <= i < |times| && times[i] <= 0.0)
        || s.geminiDeadlineMargin < 0.0 || s.jobShutdownGrace < 0.0
  {
    var counts := [s.minUploadPhotos, s.maxUploadPhotos, s.maxUploadVideos, s.jobsMaxConcurrent, s.jobsMaxQueued];
    var times := [s.geminiRequestTimeout, s.geminiMinAttempt, s.jobMaxWait, s.jobTimeout];
    assert counts[0] == s.minUploadPhotos && counts[1] == s.maxUploadPhotos && counts[2] == s.maxUploadVideos;
    assert counts[3] == s.jobsMaxConcurrent && counts[4] == s.jobsMaxQueued;
    assert times[0] == s.geminiRequestTimeout && times[1] == s.geminiMinAttempt;
    assert times[2] == s.jobMaxWait && times[3] == s.jobTimeout;
  }

  /** The other refusals, in the order of the validators: each names the first relation that fails. */
  lemma RefusedByRelation(s: Settings)
    requires FieldsInRange(s)
    ensures Load(s) == Err(PhotoBoundsUnsatisfiable) <==> s.minUploadPhotos > s.maxUploadPhotos
    ensures Load(s) == Err(WaitEatsTheBudget) <==>
            s.minUploadPhotos <= s.maxUploadPhotos && s.jobTimeout <= s.jobMaxWait
    ensures Load(s) == Err(RunTooShortForAnAttempt) <==>
            s.minUploadPhotos <= s.maxUploadPhotos
            && s.jobMaxWait < s.jobTimeout < s.jobMaxWait + s.geminiMinAttempt + s.geminiDeadlineMargin
    ensures Load(s) == Err(AttemptLongerThanRequest) <==>
            s.minUploadPhotos <= s.maxUploadPhotos && s.geminiRequestTimeout < s.geminiMinAttempt
            && s.jobMaxWait + s.geminiMinAttempt + s.geminiDeadlineMargin <= s.jobTimeout
    ensures Load(s).Ok? ==> Load(s).value == s
  {}

  /** One mebibyte per megabyte of each file, and one for the framing. */
  lemma BodyCapInMebibytes(s: Settings)
    ensures MaxRequestBodyBytes(s) == (s.maxUploadFiles * s.maxUploadSizeMb + 1) * 1048576
  {}
}
