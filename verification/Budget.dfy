/** What the validated settings buy a job, from submit to its last Gemini call. */
module Budget {
  import opened Wrappers
  import opened Messages
  import opened Scheduler
  import SchedulerRuns
  import opened RetryLoop
  import opened RetryClaims
  import opened Settings
  import ReviewPasses
  import Product
  import ProductClocks
  import ProductWitnesses

  /** A Gemini call entered at `start` by a job submitted at `submitted` can make an attempt. */
  predicate CanAttempt(s: Settings, submitted: real, start: real) {
    AttemptTimeout(PolicyOf(s), Some(submitted + s.jobTimeout), start).Some?
  }

  /**
    The two budget validators are exact: settings that pass the others are accepted if and only if
    every job entered within the wait cap can make an attempt of at least min_attempt on entry, and
    has its whole wait inside its budget.
   */
  lemma BudgetIsExact(s: Settings)
    requires FieldsInRange(s) && s.minUploadPhotos <= s.maxUploadPhotos && s.geminiMinAttempt <= s.geminiRequestTimeout
    ensures Load(s).Ok? <==>
            s.jobMaxWait < s.jobTimeout
            && forall submitted: real, entered: real ::
                 submitted <= entered <= submitted + s.jobMaxWait ==> CanAttempt(s, submitted, entered)
  {
    assert CanAttempt(s, 0.0, s.jobMaxWait) <==>
      s.jobTimeout - s.jobMaxWait >= s.geminiMinAttempt + s.geminiDeadlineMargin;
  }

  /** In every run of the runner with accepted settings, a Gemini call made on entering fn makes an attempt. */
  lemma EnteredJobsCanAttempt<A>(s: Settings, r: Runner, j: JobId, world: nat -> Try<A>)
    requires Load(s).Ok? && SchedulerRuns.Reachable(LimitsOf(s), r) && j in r.jobs && r.jobs[j].entered
    ensures var job := r.jobs[j];
      var run := Whole(PolicyOf(s), Some(job.submittedAt + s.jobTimeout), world, job.enteredAt);
      && run.calls != []
      && s.geminiMinAttempt <= run.calls[0].timeout <= s.geminiRequestTimeout
      && run.calls[0].at + run.calls[0].timeout <= job.runUntil - s.geminiDeadlineMargin
      && (Punctual(run) ==> run.ends < job.runUntil || (run.ends == job.runUntil && s.geminiDeadlineMargin == 0.0))
  {
    SchedulerRuns.EntersWithinCap(LimitsOf(s), r, j);
    var job := r.jobs[j];
    var d := job.submittedAt + s.jobTimeout;
    FirstAttemptIsMade(PolicyOf(s), Some(d), world, job.enteredAt);
    AttemptsFitTheDeadline(PolicyOf(s), d, world, job.enteredAt, 0);
    if Punctual(Whole(PolicyOf(s), Some(d), world, job.enteredAt)) {
      ExitsByTheDeadline(PolicyOf(s), d, world, job.enteredAt);
    }
  }

  /**
    In every run with accepted settings, both Gemini passes of a review that an entered job starts by
    its deadline are over by its run deadline, submit time plus job timeout.
   */
  lemma ReviewsEndWithTheJob<S>(s: Settings, r: Runner, j: JobId, g: ReviewPasses.Gemini<S>, singlePass: bool,
                                described: bool, start: real, review: Result<ReviewPasses.Review<S>, KnownError>,
                                ends: real)
    requires Load(s).Ok? && SchedulerRuns.Reachable(LimitsOf(s), r) && j in r.jobs && r.jobs[j].entered
    requires g.policy == PolicyOf(s) && g.deadline == Some(r.jobs[j].submittedAt + s.jobTimeout)
    requires r.jobs[j].enteredAt <= start <= r.jobs[j].submittedAt + s.jobTimeout
    requires ReviewPasses.Reviews(g, singlePass, described, start, review, ends)
    requires Punctual(Whole(g.policy, g.deadline, g.scoring, start))
    requires ReviewPasses.Refines(singlePass, described, ReviewPasses.First(g, start).result) ==>
      Punctual(Whole(g.policy, g.deadline, g.refining, ReviewPasses.First(g, start).ends))
    ensures ends <= r.jobs[j].runUntil == r.jobs[j].submittedAt + s.jobTimeout
  {
    SchedulerRuns.EntersWithinCap(LimitsOf(s), r, j);
    ReviewPasses.BothPassesEndInTime(g, singlePass, described, start, review, ends);
  }

  // ---- The stuck threshold -------------------------------------------------

  /** What the row checks run with; gap and cleanup are what the code outside the runner takes. */
  function ParamsOf(s: Settings, gap: real, cleanup: real): Product.Params
    requires FieldsInRange(s)
  {
    Product.Params(LimitsOf(s), gap, cleanup, s.stuckJobThreshold as real)
  }

  /**
    No validator looks at the stuck threshold. Under accepted settings the two checks spare every live
    row in every run if and only if the threshold covers the insert-to-submit gap, the job timeout and
    one failure write; exceeding the job timeout, as the setting's description asks, is not enough.
   */
  lemma ThresholdMustCoverTheJob(s: Settings, gap: real, cleanup: real)
    requires Load(s).Ok? && gap >= 0.0 && cleanup >= 0.0
    ensures var p := ParamsOf(s, gap, cleanup);
      (forall w, id :: ProductWitnesses.Arises(p, w) ==> !ProductWitnesses.LiveRowFails(p, w, id))
      <==> gap + s.jobTimeout + cleanup <= s.stuckJobThreshold as real
  {
    ProductWitnesses.ThresholdIsTight(ParamsOf(s, gap, cleanup));
  }

  const DEFAULTS := Settings(1, 10, 1, 11, 100, 4, 3, 0.5, 90.0, 10.0, 5.0, 2, 4, 60.0, 240.0, 25.0, 300)

  /**
    The defaults leave a minute for the gap and the write; lowering the threshold to the timeout is
    accepted all the same.
   */
  lemma DefaultsAreAccepted(threshold: int)
    ensures Load(DEFAULTS.(stuckJobThreshold := threshold)).Ok?
    ensures LimitsOf(DEFAULTS) == Limits(2, 4, 60.0, 240.0, 25.0)
    ensures PolicyOf(DEFAULTS) == Policy(3, 0.5, 90.0, 10.0, 5.0)
    ensures MaxRequestBodyBytes(DEFAULTS) == 1101 * 1048576 && DEFAULTS.uploadConcurrency == 4
    ensures DEFAULTS.minUploadPhotos == DEFAULTS.maxUploadVideos == 1 && DEFAULTS.maxUploadPhotos == 10
    ensures forall gap: real, cleanup: real :: 0.0 <= gap && 0.0 <= cleanup && gap + cleanup <= 60.0 ==>
              ProductClocks.Roomy(ParamsOf(DEFAULTS, gap, cleanup))
    ensures !ProductClocks.Roomy(ParamsOf(DEFAULTS.(stuckJobThreshold := 240), 1.0, 0.0))
  {}
}
