/** What `GenerateContentWithRetry` promises its callers, over every oracle. */
module RetryClaims {
  import opened Wrappers
  import opened RetryLoop

  // ---- The trace -----------------------------------------------------------

  /** Calls and sleeps alternate without gaps, and every call but the last n failed retryably. */
  ghost predicate Alternates<A>(start: real, calls: seq<Call<A>>, sleeps: seq<Sleep>) {
    && |calls| - 1 <= |sleeps| <= |calls|
    && (calls != [] ==> calls[0].at == start)
    && (forall i :: 0 <= i < |sleeps| ==> sleeps[i].at == calls[i].until)
    && (forall i :: 0 < i < |calls| ==> calls[i].at == sleeps[i - 1].at + sleeps[i - 1].delay)
  }

  ghost predicate FailedRetryably<A>(calls: seq<Call<A>>, n: nat)
    requires n <= |calls|
  {
    forall i :: 0 <= i < n ==> calls[i].result.Err? && IsRetryable(calls[i].result.error)
  }

  function Finish<A>(start: real, calls: seq<Call<A>>, sleeps: seq<Sleep>): real {
    if calls == [] then start
    else if |sleeps| == |calls| then sleeps[|sleeps| - 1].at + sleeps[|sleeps| - 1].delay
    else calls[|calls| - 1].until
  }

  predicate CallFits<A>(p: Policy, deadline: Option<real>, c: Call<A>) {
    match deadline
    case None => c.timeout == p.requestTimeout
    case Some(d) =>
      && c.timeout <= p.requestTimeout && c.at + c.timeout <= d - p.deadlineMargin
      && (c.timeout == p.requestTimeout || c.at + c.timeout == d - p.deadlineMargin)
      && (p.minAttempt <= p.requestTimeout ==> p.minAttempt <= c.timeout)
  }

  predicate SleepFits(p: Policy, deadline: Option<real>, z: Sleep) {
    z.delay >= 0.0 && (deadline.Some? ==> z.at + z.delay < deadline.value - p.minAttempt)
  }

  ghost predicate TraceFits<A>(p: Policy, deadline: Option<real>, calls: seq<Call<A>>, sleeps: seq<Sleep>) {
    && (forall i :: 0 <= i < |calls| ==> CallFits(p, deadline, calls[i]))
    && (forall i :: 0 <= i < |sleeps| ==> SleepFits(p, deadline, sleeps[i]))
  }

  function Total(sleeps: seq<Sleep>): real {
    if sleeps == [] then 0.0 else Total(sleeps[..|sleeps| - 1]) + sleeps[|sleeps| - 1].delay
  }

  /** What n backoffs without jitter add up to. */
  function Ideal(p: Policy, n: nat): real { p.baseDelay * (Pow2(n) - 1.0) }

  predicate SumFits(p: Policy, sleeps: seq<Sleep>) {
    p.baseDelay >= 0.0 ==> Ideal(p, |sleeps|) <= Total(sleeps) <= 1.25 * Ideal(p, |sleeps|)
  }

  /** The loop head. */
  ghost predicate AtHead<A>(p: Policy, deadline: Option<real>, start: real, s: State<A>) {
    && 1 <= s.attempt <= Attempts(p)
    && |s.calls| == s.attempt - 1 && |s.sleeps| == s.attempt - 1
    && Alternates(start, s.calls, s.sleeps) && FailedRetryably(s.calls, |s.calls|)
    && TraceFits(p, deadline, s.calls, s.sleeps) && SumFits(p, s.sleeps)
    && s.now == Finish(start, s.calls, s.sleeps)
    && (if s.calls == [] then s.lastExc == None else s.lastExc == Some(s.calls[|s.calls| - 1].result.error))
  }

  // ---- How a run ends ------------------------------------------------------

  /** There was no time for the sleep that would come next, or for the attempt after the last sleep. */
  ghost predicate OutOfTime<A>(p: Policy, deadline: Option<real>, run: Run<A>) {
    && deadline.Some? && run.calls != []
    && if |run.sleeps| == |run.calls| then deadline.value - run.ends - p.deadlineMargin < p.minAttempt
       else exists jitter: Fraction :: run.ends + Backoff(p, |run.calls|, jitter) >= deadline.value - p.minAttempt
  }

  ghost predicate EndsWell<A>(p: Policy, deadline: Option<real>, run: Run<A>) {
    match run.outcome
    case Value(v) => run.calls != [] && run.calls[|run.calls| - 1].result == Ok(v)
    case Raised(e) =>
      && run.calls != [] && run.calls[|run.calls| - 1].result == Err(e)
      && (IsRetryable(e) && |run.calls| < Attempts(p) ==> OutOfTime(p, deadline, run))
    case GenerationFailed => run.calls == []
    case NegativeSleep => p.baseDelay < 0.0 && 0 < |run.calls| < Attempts(p)
    case FellOff => false
  }

  ghost predicate RunFits<A>(p: Policy, deadline: Option<real>, start: real, run: Run<A>) {
    && |run.calls| <= Attempts(p) && |run.sleeps| < Attempts(p)
    && Alternates(start, run.calls, run.sleeps)
    && FailedRetryably(run.calls, if run.calls == [] then 0 else |run.calls| - 1)
    && TraceFits(p, deadline, run.calls, run.sleeps) && SumFits(p, run.sleeps)
    && run.ends == Finish(start, run.calls, run.sleeps)
    && EndsWell(p, deadline, run)
  }

  lemma BackoffBounds(p: Policy, attempt: nat, jitter: Fraction)
    requires attempt >= 1 && p.baseDelay >= 0.0
    ensures var delay := p.baseDelay * Pow2(attempt - 1);
      0.0 <= delay <= Backoff(p, attempt, jitter) <= 1.25 * delay
  {
    NotNegative(p.baseDelay, Pow2(attempt - 1));
    JitterSpan(p.baseDelay * Pow2(attempt - 1), jitter);
  }

  lemma NotNegative(b: real, m: real)
    requires b >= 0.0 && m >= 0.0
    ensures b * m >= 0.0
  {}

  lemma IdealGrows(p: Policy, n: nat)
    ensures Ideal(p, n + 1) == Ideal(p, n) + p.baseDelay * Pow2(n)
  {
    Doubled(p.baseDelay, Pow2(n));
    assert Pow2(n + 1) == 2.0 * Pow2(n);
  }

  lemma Doubled(b: real, m: real)
    ensures b * (2.0 * m - 1.0) == b * (m - 1.0) + b * m
  {}

  lemma SumGrows(p: Policy, sleeps: seq<Sleep>, z: Sleep, jitter: Fraction)
    requires SumFits(p, sleeps) && z.delay == Backoff(p, |sleeps| + 1, jitter)
    ensures SumFits(p, sleeps + [z])
  {
    if p.baseDelay >= 0.0 {
      BackoffBounds(p, |sleeps| + 1, jitter);
      IdealGrows(p, |sleeps|);
      assert (sleeps + [z])[..|sleeps|] == sleeps;
      assert Total(sleeps + [z]) == Total(sleeps) + z.delay;
    }
  }

  lemma CallAlternates<A>(start: real, calls: seq<Call<A>>, sleeps: seq<Sleep>, c: Call<A>)
    requires Alternates(start, calls, sleeps) && |calls| == |sleeps| && c.at == Finish(start, calls, sleeps)
    ensures Alternates(start, calls + [c], sleeps) && Finish(start, calls + [c], sleeps) == c.until
  {}

  lemma SleepAlternates<A>(start: real, calls: seq<Call<A>>, sleeps: seq<Sleep>, z: Sleep)
    requires Alternates(start, calls, sleeps) && |calls| == |sleeps| + 1 && z.at == Finish(start, calls, sleeps)
    ensures Alternates(start, calls, sleeps + [z]) && Finish(start, calls, sleeps + [z]) == z.at + z.delay
  {}

  /** After a call, whatever came of it. */
  ghost predicate AfterCall<A>(p: Policy, deadline: Option<real>, start: real, s: State<A>, result: Result<A, Exc>) {
    && 1 <= s.attempt <= Attempts(p)
    && |s.calls| == s.attempt && |s.sleeps| == s.attempt - 1
    && Alternates(start, s.calls, s.sleeps) && FailedRetryably(s.calls, s.attempt - 1)
    && TraceFits(p, deadline, s.calls, s.sleeps) && SumFits(p, s.sleeps)
    && s.now == Finish(start, s.calls, s.sleeps)
    && s.calls[s.attempt - 1].result == result
  }

  lemma CallMade<A>(p: Policy, deadline: Option<real>, start: real, s: State<A>, timeout: real, t: Try<A>)
    requires AtHead(p, deadline, start, s) && AttemptTimeout(p, deadline, s.now) == Some(timeout)
    ensures AfterCall(p, deadline, start, Called(s, timeout, t), t.result)
  {
    CallAlternates(start, s.calls, s.sleeps, Call(s.now, timeout, s.now + t.took, t.result));
  }

  lemma SleepKeepsHead<A>(p: Policy, deadline: Option<real>, start: real, s: State<A>, e: Exc, jitter: Fraction)
    requires AfterCall(p, deadline, start, s, Err(e)) && AfterFailure(p, deadline, s, e, jitter).Goes?
    ensures AtHead(p, deadline, start, AfterFailure(p, deadline, s, e, jitter).state)
  {
    var z := Sleep(s.now, Backoff(p, s.attempt, jitter));
    SleepAlternates(start, s.calls, s.sleeps, z);
    SumGrows(p, s.sleeps, z, jitter);
  }

  lemma FailureEndsWell<A>(p: Policy, deadline: Option<real>, start: real, s: State<A>, e: Exc, jitter: Fraction)
    requires AfterCall(p, deadline, start, s, Err(e)) && AfterFailure(p, deadline, s, e, jitter).Ended?
    ensures RunFits(p, deadline, start, AfterFailure(p, deadline, s, e, jitter).run)
  {
    if p.baseDelay >= 0.0 { BackoffBounds(p, s.attempt, jitter); }
  }

  lemma IterationFits<A>(p: Policy, deadline: Option<real>, world: nat -> Try<A>, start: real, s: State<A>)
    requires AtHead(p, deadline, start, s)
    ensures var next := Iteration(p, deadline, world, s);
      if next.Ended? then RunFits(p, deadline, start, next.run)
      else AtHead(p, deadline, start, next.state) && next.state.attempt == s.attempt + 1
  {
    var timeout := AttemptTimeout(p, deadline, s.now);
    if timeout.Some? {
      var t := world(s.attempt);
      var called := Called(s, timeout.value, t);
      CallMade(p, deadline, start, s, timeout.value, t);
      if t.result.Err? { FailureFits(p, deadline, start, called, t.result.error, t.jitter); }
    }
  }

  lemma FailureFits<A>(p: Policy, deadline: Option<real>, start: real, s: State<A>, e: Exc, jitter: Fraction)
    requires AfterCall(p, deadline, start, s, Err(e))
    ensures var next := AfterFailure(p, deadline, s, e, jitter);
      if next.Ended? then RunFits(p, deadline, start, next.run)
      else AtHead(p, deadline, start, next.state) && next.state.attempt == s.attempt + 1
  {
    match AfterFailure(p, deadline, s, e, jitter)
    case Ended(_) => FailureEndsWell(p, deadline, start, s, e, jitter);
    case Goes(_) => SleepKeepsHead(p, deadline, start, s, e, jitter);
  }

  lemma {:induction false} LoopFits<A>(p: Policy, deadline: Option<real>, world: nat -> Try<A>, start: real,
                                       s: State<A>)
    requires AtHead(p, deadline, start, s)
    ensures RunFits(p, deadline, start, From(p, deadline, world, s))
    decreases Attempts(p) - s.attempt
  {
    IterationFits(p, deadline, world, start, s);
    match Iteration(p, deadline, world, s)
    case Ended(_) =>
    case Goes(next) => LoopFits(p, deadline, world, start, next);
  }

  lemma WholeFits<A>(p: Policy, deadline: Option<real>, world: nat -> Try<A>, start: real)
    ensures RunFits(p, deadline, start, Whole(p, deadline, world, start))
  {
    LoopFits(p, deadline, world, start, State(1, start, None, [], []));
  }

  // ---- The oracle ----------------------------------------------------------

  /** The n-th call is the oracle's n-th try, and the sleep after it is base * 2^(n - 1), plus its jitter. */
  ghost predicate Follows<A>(p: Policy, world: nat -> Try<A>, calls: seq<Call<A>>, sleeps: seq<Sleep>) {
    && (forall i: nat :: i < |calls| ==>
          calls[i].result == world(i + 1).result && calls[i].until == calls[i].at + world(i + 1).took)
    && (forall i: nat :: i < |sleeps| ==> sleeps[i].delay == DelayAfter(p, world, i + 1))
  }

  function DelayAfter<A>(p: Policy, world: nat -> Try<A>, n: nat): real
    requires n >= 1
  {
    p.baseDelay * Pow2(n - 1) * (1.0 + 0.25 * world(n).jitter)
  }

  lemma JitterFactor(delay: real, jitter: Fraction)
    ensures Jittered(delay, jitter) == delay * (1.0 + 0.25 * jitter)
  {}

  /** An attempt that was made had its minimum of time left. */
  ghost predicate AllInTime<A>(p: Policy, deadline: Option<real>, calls: seq<Call<A>>) {
    deadline.Some? ==> forall i :: 0 <= i < |calls| ==> calls[i].at + p.minAttempt <= deadline.value - p.deadlineMargin
  }

  /** A retryable error is raised with attempts left only where there was no time to sleep or to try again. */
  ghost predicate RaisedForWantOfTime<A>(p: Policy, deadline: Option<real>, world: nat -> Try<A>, run: Run<A>) {
    run.outcome.Raised? && IsRetryable(run.outcome.error) && 0 < |run.calls| < Attempts(p) ==>
      && deadline.Some?
      && if |run.sleeps| == |run.calls| then run.ends + p.minAttempt > deadline.value - p.deadlineMargin
         else run.ends + DelayAfter(p, world, |run.calls|) >= deadline.value - p.minAttempt
  }

  ghost predicate RunFollows<A>(p: Policy, deadline: Option<real>, world: nat -> Try<A>, run: Run<A>) {
    && Follows(p, world, run.calls, run.sleeps) && AllInTime(p, deadline, run.calls)
    && RaisedForWantOfTime(p, deadline, world, run)
  }

  lemma BackoffIs<A>(p: Policy, world: nat -> Try<A>, n: nat)
    requires n >= 1
    ensures Backoff(p, n, world(n).jitter) == DelayAfter(p, world, n)
  {
    JitterFactor(p.baseDelay * Pow2(n - 1), world(n).jitter);
  }

  lemma CallFollows<A>(p: Policy, world: nat -> Try<A>, calls: seq<Call<A>>, sleeps: seq<Sleep>, c: Call<A>)
    requires Follows(p, world, calls, sleeps)
    requires c.result == world(|calls| + 1).result && c.until == c.at + world(|calls| + 1).took
    ensures Follows(p, world, calls + [c], sleeps)
  {}

  lemma SleepFollows<A>(p: Policy, world: nat -> Try<A>, calls: seq<Call<A>>, sleeps: seq<Sleep>, z: Sleep)
    requires Follows(p, world, calls, sleeps) && z.delay == DelayAfter(p, world, |sleeps| + 1)
    ensures Follows(p, world, calls, sleeps + [z])
  {}

  lemma FailureFollows<A>(p: Policy, deadline: Option<real>, world: nat -> Try<A>, s: State<A>, e: Exc)
    requires 1 <= s.attempt <= Attempts(p) && |s.calls| == s.attempt && |s.sleeps| == s.attempt - 1
    requires Follows(p, world, s.calls, s.sleeps) && AllInTime(p, deadline, s.calls)
    ensures var next := AfterFailure(p, deadline, s, e, world(s.attempt).jitter);
      if next.Ended? then RunFollows(p, deadline, world, next.run)
      else |next.state.calls| == |next.state.sleeps| == s.attempt == next.state.attempt - 1
           && Follows(p, world, next.state.calls, next.state.sleeps) && AllInTime(p, deadline, next.state.calls)
  {
    BackoffIs(p, world, s.attempt);
    SleepFollows(p, world, s.calls, s.sleeps, Sleep(s.now, DelayAfter(p, world, s.attempt)));
  }

  lemma IterationFollows<A>(p: Policy, deadline: Option<real>, world: nat -> Try<A>, s: State<A>)
    requires 1 <= s.attempt <= Attempts(p) && |s.calls| == |s.sleeps| == s.attempt - 1
    requires Follows(p, world, s.calls, s.sleeps) && AllInTime(p, deadline, s.calls)
    ensures var next := Iteration(p, deadline, world, s);
      if next.Ended? then RunFollows(p, deadline, world, next.run)
      else |next.state.calls| == |next.state.sleeps| == s.attempt == next.state.attempt - 1
           && Follows(p, world, next.state.calls, next.state.sleeps) && AllInTime(p, deadline, next.state.calls)
  {
    var timeout, t := AttemptTimeout(p, deadline, s.now), world(s.attempt);
    if timeout.Some? {
      var called := Called(s, timeout.value, t);
      CallFollows(p, world, s.calls, s.sleeps, called.calls[s.attempt - 1]);
      if t.result.Err? { FailureFollows(p, deadline, world, called, t.result.error); }
    }
  }

  lemma {:induction false} LoopFollows<A>(p: Policy, deadline: Option<real>, world: nat -> Try<A>, s: State<A>)
    requires 1 <= s.attempt <= Attempts(p) && |s.calls| == |s.sleeps| == s.attempt - 1
    requires Follows(p, world, s.calls, s.sleeps) && AllInTime(p, deadline, s.calls)
    ensures RunFollows(p, deadline, world, From(p, deadline, world, s))
    decreases Attempts(p) - s.attempt
  {
    IterationFollows(p, deadline, world, s);
    match Iteration(p, deadline, world, s)
    case Ended(_) =>
    case Goes(next) => LoopFollows(p, deadline, world, next);
  }

  // ---- Claims --------------------------------------------------------------

  /**
    The run is the oracle's: each call's length and result, each sleep's exact delay; an attempt is made
    only with min_attempt left before the margin, and given up with attempts left only for want of time.
   */
  lemma RunFollowsTheOracle<A>(p: Policy, deadline: Option<real>, world: nat -> Try<A>, start: real)
    ensures RunFollows(p, deadline, world, Whole(p, deadline, world, start))
  {
    LoopFollows(p, deadline, world, State(1, start, None, [], []));
  }

  /**
    At most max(1, max_attempts) calls; every call but the last failed retryably; the value returned
    or the error raised is the last call's, the generic error means no call was made, and the loop
    never falls off its end. A retryable error is raised early only for want of time.
   */
  lemma RetryTrace<A>(p: Policy, deadline: Option<real>, world: nat -> Try<A>, start: real)
    ensures var run := Whole(p, deadline, world, start);
      && |run.calls| <= (if p.maxAttempts > 1 then p.maxAttempts else 1)
      && (forall i :: 0 <= i < |run.calls| - 1 ==> run.calls[i].result.Err? && IsRetryable(run.calls[i].result.error))
      && EndsWell(p, deadline, run)
      && (run.outcome.GenerationFailed? <==> run.calls == [])
      && (p.baseDelay >= 0.0 ==> run.outcome.Value? || run.outcome.Raised? || run.outcome.GenerationFailed?)
  {
    WholeFits(p, deadline, world, start);
  }

  /**
    Every attempt gets the longest timeout that fits: request_timeout, or what is left to the deadline
    less the margin when that is shorter; and never less than min_attempt, unless request_timeout is.
   */
  lemma AttemptsFitTheDeadline<A>(p: Policy, d: real, world: nat -> Try<A>, start: real, i: nat)
    requires i < |Whole(p, Some(d), world, start).calls|
    ensures var c := Whole(p, Some(d), world, start).calls[i];
      && c.timeout <= p.requestTimeout && c.at + c.timeout <= d - p.deadlineMargin
      && (c.timeout == p.requestTimeout || c.at + c.timeout == d - p.deadlineMargin)
      && (p.minAttempt <= p.requestTimeout ==> p.minAttempt <= c.timeout)
  {
    WholeFits(p, Some(d), world, start);
  }

  /** Without a deadline every attempt gets request_timeout, and only the attempts are counted. */
  lemma NoDeadlineNoCut<A>(p: Policy, world: nat -> Try<A>, start: real, i: nat)
    ensures var run := Whole(p, None, world, start);
      && run.calls != []
      && (i < |run.calls| ==> run.calls[i].timeout == p.requestTimeout)
      && (run.outcome.Raised? && IsRetryable(run.outcome.error) ==>
            |run.calls| == if p.maxAttempts > 1 then p.maxAttempts else 1)
  {
    WholeFits(p, None, world, start);
    FirstAttemptIsMade(p, None, world, start);
  }

  /** A backoff sleep ends before deadline - min_attempt. */
  lemma SleepsFitTheDeadline<A>(p: Policy, d: real, world: nat -> Try<A>, start: real, i: nat)
    requires i < |Whole(p, Some(d), world, start).sleeps|
    ensures var z := Whole(p, Some(d), world, start).sleeps[i];
      z.delay >= 0.0 && z.at + z.delay < d - p.minAttempt
  {
    WholeFits(p, Some(d), world, start);
  }

  /** No attempt outlasted the timeout it was given. */
  ghost predicate Punctual<A>(run: Run<A>) {
    forall i :: 0 <= i < |run.calls| ==> run.calls[i].until <= run.calls[i].at + run.calls[i].timeout
  }

  /**
    When attempts keep to their timeouts the call is over by deadline - min(margin, min_attempt), or
    at once if it is entered too late for one attempt.
   */
  lemma ExitsByTheDeadline<A>(p: Policy, d: real, world: nat -> Try<A>, start: real)
    requires Punctual(Whole(p, Some(d), world, start))
    ensures var run := Whole(p, Some(d), world, start);
      && (run.ends == start || run.ends <= d - Min(p.deadlineMargin, p.minAttempt))
      && (d - start - p.deadlineMargin < p.minAttempt ==> run == Run(GenerationFailed, start, [], []))
      && (d - start - p.deadlineMargin >= p.minAttempt ==> run.calls != [])
  {
    WholeFits(p, Some(d), world, start);
    var run := Whole(p, Some(d), world, start);
    if run.calls != [] {
      assert CallFits(p, Some(d), run.calls[|run.calls| - 1]);
      assert |run.sleeps| == |run.calls| ==> SleepFits(p, Some(d), run.sleeps[|run.sleeps| - 1]);
    } else if d - start - p.deadlineMargin >= p.minAttempt {
      FirstAttemptIsMade(p, Some(d), world, start);
    }
  }

  lemma FirstAttemptIsMade<A>(p: Policy, deadline: Option<real>, world: nat -> Try<A>, start: real)
    requires AttemptTimeout(p, deadline, start).Some?
    ensures Whole(p, deadline, world, start).calls != []
  {
    var s: State<A> := State(1, start, None, [], []);
    match Iteration(p, deadline, world, s)
    case Ended(run) =>
    case Goes(t) => CallsGrow(p, deadline, world, t);
  }

  lemma {:induction false} CallsGrow<A>(p: Policy, deadline: Option<real>, world: nat -> Try<A>, s: State<A>)
    requires s.attempt >= 1
    ensures |From(p, deadline, world, s).calls| >= |s.calls|
    decreases Attempts(p) + 1 - s.attempt
  {
    if s.attempt <= Attempts(p) && Iteration(p, deadline, world, s).Goes? {
      CallsGrow(p, deadline, world, Iteration(p, deadline, world, s).state);
    }
  }

  /** The m sleeps of a run add up to between base·(2^m - 1) and a quarter more, and m < max(1, max_attempts). */
  lemma BackoffSum<A>(p: Policy, deadline: Option<real>, world: nat -> Try<A>, start: real)
    requires p.baseDelay >= 0.0
    ensures var sleeps := Whole(p, deadline, world, start).sleeps;
      && |sleeps| < (if p.maxAttempts > 1 then p.maxAttempts else 1)
      && p.baseDelay * (Pow2(|sleeps|) - 1.0) <= Total(sleeps) <= 1.25 * (p.baseDelay * (Pow2(|sleeps|) - 1.0))
  {
    WholeFits(p, deadline, world, start);
    SumIs(p, Whole(p, deadline, world, start).sleeps);
  }

  lemma SumIs(p: Policy, sleeps: seq<Sleep>)
    requires SumFits(p, sleeps) && p.baseDelay >= 0.0
    ensures p.baseDelay * (Pow2(|sleeps|) - 1.0) <= Total(sleeps) <= 1.25 * (p.baseDelay * (Pow2(|sleeps|) - 1.0))
  {
    assert Ideal(p, |sleeps|) == p.baseDelay * (Pow2(|sleeps|) - 1.0);
  }

  // ---- A negative base delay -----------------------------------------------

  lemma NegativeDelaySleeps<A>(p: Policy, world: nat -> Try<A>, start: real)
    requires p.baseDelay < 0.0 && Attempts(p) > 1
    requires world(1).result.Err? && IsRetryable(world(1).result.error)
    ensures Whole(p, None, world, start).outcome == NegativeSleep
  {
    assert Pow2(0) == 1.0;
  }

  const OVERLOADED := Exc(Number(503), NoCode, "APIError", Unset, Unset)

  /**
    The settings put no bound on the base delay. A run can end in the ValueError of a negative sleep,
    in place of the value or of the attempt's own error, if and only if the delay is negative and
    there is more than one attempt.
   */
  lemma NegativeSleepIff(p: Policy)
    ensures (exists deadline, world: nat -> Try<int>, start: real ::
               Whole(p, deadline, world, start).outcome == NegativeSleep)
            <==> p.baseDelay < 0.0 && p.maxAttempts > 1
  {
    if deadline, world: nat -> Try<int>, start: real :| Whole(p, deadline, world, start).outcome == NegativeSleep {
      WholeFits(p, deadline, world, start);
    }
    if p.baseDelay < 0.0 && p.maxAttempts > 1 {
      var world: nat -> Try<int> := attempt => Try(0.0, Err(OVERLOADED), 0.0);
      assert Transient(OVERLOADED);
      NegativeDelaySleeps(p, world, 0.0);
    }
  }
}
