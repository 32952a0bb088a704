/** What a single step of the job runner can do to each job. */
module SchedulerMoves {
  import opened Wrappers
  import opened Scheduler
  import opened SchedulerInvariant
  import opened SchedulerSteps

  /** A job's history only grows, and a finished job stays finished. */
  predicate Grew(a: Job, b: Job) {
    && b.submittedAt == a.submittedAt
    && (a.entered ==> b.entered && b.enteredAt == a.enteredAt && b.runUntil == a.runUntil)
    && a.failures <= b.failures && a.logged <= b.logged
    && (a.interrupted ==> b.interrupted) && (a.timedOut ==> b.timedOut)
    && (!Live(a.phase) ==> b == a)
  }

  /** The phase changes one step allows. */
  predicate Moves(a: Phase, b: Phase) {
    && (InLine(a) ==> InLine(b) || b.Running? || b == Marking(false))
    && (a.Marking? ==> b.Marking? || b.Done?)
    && (a.Running? ==> b.Running? || b.Done?)
  }

  predicate Moved(a: Job, b: Job) { Grew(a, b) && Moves(a.phase, b.phase) }

  ghost predicate Stepped(s: Runner, t: Runner) {
    && (forall j :: j in s.jobs ==> j in t.jobs && Moved(s.jobs[j], t.jobs[j]))
    && (s.closed ==> t.closed && t.jobs.Keys == s.jobs.Keys)
    && (PassDone(s.closer) ==> PassDone(t.closer))
    && (PassDone(s.closer) ==> forall j :: j in s.jobs && t.jobs[j].entered ==> s.jobs[j].entered)
  }

  /** A step that changes one job only. */
  lemma OneJobEvolves(s: Runner, t: Runner, j: JobId)
    requires t.jobs.Keys == s.jobs.Keys && j in s.jobs && Moved(s.jobs[j], t.jobs[j])
    requires forall k :: k in s.jobs && k != j ==> t.jobs[k] == s.jobs[k]
    requires t.closed == s.closed && t.closer == s.closer
    requires PassDone(s.closer) ==> t.jobs[j].entered == s.jobs[j].entered
    ensures Stepped(s, t)
  {}

  /** A step that changes one job after waking waiters, or before. */
  lemma WakeEvolves(s: Runner, u: Runner, w: Runner, t: Runner, j: JobId)
    requires u.jobs.Keys == s.jobs.Keys && SameButGrants(u, w) && t.jobs.Keys == s.jobs.Keys
    requires forall k :: k in s.jobs && k != j ==> u.jobs[k] == s.jobs[k] && t.jobs[k] == w.jobs[k]
    requires j in s.jobs && Moved(s.jobs[j], t.jobs[j])
    requires t.closed == s.closed && t.closer == s.closer
    requires PassDone(s.closer) ==> t.jobs[j].entered == s.jobs[j].entered
    ensures Stepped(s, t)
  {
    forall k | k in s.jobs && k != j ensures Moved(s.jobs[k], t.jobs[k]) && t.jobs[k].entered == s.jobs[k].entered {
      assert u.jobs[k] == s.jobs[k] && t.jobs[k] == w.jobs[k];
    }
  }

  lemma ResumeEvolves(l: Limits, s: Runner, j: JobId)
    requires Inv(l, s) && Enabled(l, s, Resume(j))
    ensures Stepped(s, Resumed(l, s, j))
  {
    assert HistoryOk(s.jobs[j]);
    assert PassDone(s.closer) ==> SealedJob(s.jobs[j]);
    if s.jobs[j].phase.Granted? {
      ResumeGrantedEvolves(l, s, j);
    } else {
      GaveBackKeeps(l, s, j);
      ResumeUnwindingEvolves(s, j);
    }
  }

  lemma ResumeGrantedEvolves(l: Limits, s: Runner, j: JobId)
    requires QueueOk(s) && j in s.jobs && s.jobs[j].phase.Granted? && HistoryOk(s.jobs[j]) && !PassDone(s.closer)
    ensures Stepped(s, ResumedGranted(l, s, j))
  {
    WakeAllGrants(s);
    WakeEvolves(s, s, WakeAll(s), ResumedGranted(l, s, j), j);
  }

  lemma ResumeUnwindingEvolves(s: Runner, j: JobId)
    requires j in s.jobs && s.jobs[j].phase.Unwinding? && QueueOk(GaveBack(s, j))
    ensures Stepped(s, ResumedUnwinding(s, j))
  {
    var u := GaveBack(s, j);
    WakeAllGrants(u);
    WakeEvolves(s, u, WakeAll(u), ResumedUnwinding(s, j), j);
  }

  lemma FnEndEvolves(s: Runner, j: JobId, r: FnResult)
    requires j in s.jobs && s.jobs[j].phase.Running? && QueueOk(Left(s, j, r))
    ensures Stepped(s, FnEnded(s, j, r))
  {
    var u := Left(s, j, r);
    WakeNextGrants(u);
    FnEndedIs(s, j, r);
    WakeEvolves(s, u, WakeNext(u), FnEnded(s, j, r), j);
  }

  lemma ReadyEvolves(l: Limits, s: Runner)
    requires Inv(l, s) && Enabled(l, s, RunReady)
    ensures Stepped(s, RanReady(l, s))
  {
    assert s.ready[0] in s.ready;
    match s.ready[0]
    case FirstStep(j) =>
      assert HistoryOk(s.jobs[j]);
      assert PassDone(s.closer) ==> SealedJob(s.jobs[j]);
      FirstStepEvolves(l, s, j);
    case CloseWakes =>
      forall j | j in s.jobs ensures !s.jobs[j].phase.Created? { NoneUnstartedAtPass(l, s, j); }
      CancelPassEvolves(l, s);
  }

  lemma FirstStepEvolves(l: Limits, s: Runner, j: JobId)
    requires Enabled(l, s, RunReady) && s.ready[0] == FirstStep(j)
    requires s.jobs[j].phase.Created? && HistoryOk(s.jobs[j]) && !PassDone(s.closer)
    ensures Stepped(s, RanReady(l, s))
  {
    OneJobEvolves(s, RanReady(l, s), j);
  }

  /** What the cancel pass does to the jobs and to `close()`. */
  lemma PassShape(l: Limits, s: Runner)
    requires Enabled(l, s, RunReady) && s.ready[0].CloseWakes?
    ensures var t := RanReady(l, s);
      && t.closed == s.closed && !PassDone(s.closer) && PassDone(t.closer)
      && t.jobs.Keys == s.jobs.Keys
      && forall j :: j in s.jobs ==>
           t.jobs[j] == if j in s.tasks && j !in s.running then CancelInLine(s.jobs[j]) else s.jobs[j]
  {
    assert RanReady(l, s).jobs == PassJobs(s.(ready := s.ready[1..]));
  }

  lemma CancelPassEvolves(l: Limits, s: Runner)
    requires Enabled(l, s, RunReady) && s.ready[0].CloseWakes?
    requires forall j :: j in s.jobs ==> !s.jobs[j].phase.Created?
    ensures Stepped(s, RanReady(l, s))
  {
    var t := RanReady(l, s);
    PassShape(l, s);
    forall k | k in s.jobs ensures k in t.jobs && Moved(s.jobs[k], t.jobs[k]) {
      CancelGrows(s.jobs[k]);
    }
  }

  lemma CancelGrows(job: Job)
    requires !job.phase.Created?
    ensures Moved(job, CancelInLine(job)) && Moved(job, CancelRunning(job))
  {}

  lemma GraceEvolves(s: Runner)
    requires s.closer.Draining?
    ensures Stepped(s, GraceEnded(s))
  {}

  lemma StepEvolves(l: Limits, s: Runner, e: Event)
    requires Inv(l, s) && Enabled(l, s, e)
    ensures Stepped(s, Apply(l, s, e))
  {
    match e
    case Resume(j) => ResumeEvolves(l, s, j);
    case FnEnds(j, r) => LeftKeeps(l, s, j, r); FnEndEvolves(s, j, r);
    case RunReady => ReadyEvolves(l, s);
    case GraceEnds => GraceEvolves(s);
    case Submit(j) => SubmitEvolves(l, s, j);
    case _ => QuietEvolves(l, s, e);
  }

  lemma SubmitEvolves(l: Limits, s: Runner, j: JobId)
    requires j !in s.jobs && (PassDone(s.closer) ==> s.closed)
    ensures Stepped(s, Submitted(l, s, j))
  {}

  lemma QuietEvolves(l: Limits, s: Runner, e: Event)
    requires Enabled(l, s, e)
    requires !e.Resume? && !e.FnEnds? && !e.RunReady? && !e.GraceEnds? && !e.Submit?
    ensures Stepped(s, Apply(l, s, e))
  {
    if JoblessStep(e) { JoblessKeepsJobs(l, s, e); } else { TimerEvolves(l, s, e); }
  }

  lemma TimerEvolves(l: Limits, s: Runner, e: Event)
    requires Enabled(l, s, e) && TimerStep(e)
    ensures Stepped(s, Apply(l, s, e))
  {
    match e
    case WaitExpires(j) => OneJobEvolves(s, WaitExpired(s, j), j);
    case MarkEnds(j) => OneJobEvolves(s, MarkEnded(s, j), j);
    case DeadlineFires(j) => OneJobEvolves(s, DeadlineFired(s, j), j);
    case Deliver(j) => OneJobEvolves(s, Delivered(s, j), j);
  }

  /** Inside fn a cancellation request is never dropped before it is delivered, and a job enters with none. */
  predicate FlagsKept(a: Job, b: Job) {
    && (b.phase.Running? && a.phase.Running? ==>
          && (a.cancelPending ==> b.cancelPending)
          && (b.timedOut != a.timedOut || b.interrupted != a.interrupted ==> b.cancelPending))
    && (b.phase.Running? && !a.phase.Running? ==> !b.timedOut && !b.interrupted && !b.cancelPending)
  }

  /** Nobody leaves fn, and no cancellation is lost. */
  ghost predicate AllFlagsKept(s: Runner, t: Runner) {
    && t.jobs.Keys == s.jobs.Keys
    && forall j :: j in s.jobs ==>
         FlagsKept(s.jobs[j], t.jobs[j]) && (s.jobs[j].phase.Running? ==> t.jobs[j].phase.Running?)
  }

  lemma WakeFlags(s: Runner, u: Runner, w: Runner, t: Runner, j: JobId)
    requires u.jobs.Keys == s.jobs.Keys && SameButGrants(u, w) && t.jobs.Keys == s.jobs.Keys
    requires forall k :: k in s.jobs && k != j ==> u.jobs[k] == s.jobs[k] && t.jobs[k] == w.jobs[k]
    requires j in s.jobs && FlagsKept(s.jobs[j], t.jobs[j]) && !s.jobs[j].phase.Running?
    ensures AllFlagsKept(s, t)
  {}

  lemma ResumeFlags(l: Limits, s: Runner, j: JobId)
    requires Inv(l, s) && Enabled(l, s, Resume(j))
    ensures AllFlagsKept(s, Resumed(l, s, j))
  {
    assert HistoryOk(s.jobs[j]) && TimesOk(l, s, s.jobs[j]);
    if s.jobs[j].phase.Granted? {
      GrantedFlags(l, s, j);
    } else {
      GaveBackKeeps(l, s, j);
      UnwindingFlags(s, j);
    }
  }

  lemma GrantedFlags(l: Limits, s: Runner, j: JobId)
    requires QueueOk(s) && j in s.jobs && s.jobs[j].phase.Granted?
    requires !s.jobs[j].timedOut && !s.jobs[j].interrupted && !s.jobs[j].cancelPending
    ensures AllFlagsKept(s, ResumedGranted(l, s, j))
  {
    WakeAllGrants(s);
    WakeFlags(s, s, WakeAll(s), ResumedGranted(l, s, j), j);
  }

  lemma UnwindingFlags(s: Runner, j: JobId)
    requires j in s.jobs && s.jobs[j].phase.Unwinding? && QueueOk(GaveBack(s, j))
    ensures AllFlagsKept(s, ResumedUnwinding(s, j))
  {
    WakeAllGrants(GaveBack(s, j));
    WakeFlags(s, GaveBack(s, j), WakeAll(GaveBack(s, j)), ResumedUnwinding(s, j), j);
  }

  /** When j leaves fn, other jobs are at most granted a slot. */
  lemma FnEndOthers(s: Runner, j: JobId, r: FnResult)
    requires j in s.jobs && s.jobs[j].phase.Running? && QueueOk(s)
    ensures var t := FnEnded(s, j, r);
      && t.jobs.Keys == s.jobs.Keys
      && t.jobs[j] == s.jobs[j].(phase := Done, logged := s.jobs[j].logged + [RunOutcome(s.jobs[j], r)])
      && t == s.(free := t.free, queue := t.queue, running := s.running - {j}, jobs := t.jobs)
      && forall k :: k in s.jobs && k != j ==>
           t.jobs[k] == s.jobs[k] || (s.jobs[k].phase.Waiting? && t.jobs[k] == s.jobs[k].(phase := Granted))
  {
    var u := Left(s, j, r);
    assert j !in u.queue;
    WakeNextGrants(u);
    FnEndedIs(s, j, r);
  }

  lemma ReadyFlags(l: Limits, s: Runner)
    requires Inv(l, s) && Enabled(l, s, RunReady)
    ensures AllFlagsKept(s, RanReady(l, s))
  {
    assert s.ready[0] in s.ready;
    match s.ready[0]
    case FirstStep(j) =>
      assert HistoryOk(s.jobs[j]) && TimesOk(l, s, s.jobs[j]);
      FirstStepFlags(l, s, j);
    case CloseWakes => CancelPassFlags(l, s);
  }

  lemma FirstStepFlags(l: Limits, s: Runner, j: JobId)
    requires Enabled(l, s, RunReady) && s.ready[0] == FirstStep(j)
    requires s.jobs[j].phase.Created? && !s.jobs[j].timedOut && !s.jobs[j].interrupted && !s.jobs[j].cancelPending
    ensures AllFlagsKept(s, RanReady(l, s))
  {}

  lemma CancelPassFlags(l: Limits, s: Runner)
    requires Enabled(l, s, RunReady) && s.ready[0].CloseWakes?
    requires forall j :: j in s.running <==> j in s.jobs && s.jobs[j].phase.Running?
    ensures AllFlagsKept(s, RanReady(l, s))
  {
    var t := RanReady(l, s);
    PassShape(l, s);
    forall j | j in s.jobs
      ensures FlagsKept(s.jobs[j], t.jobs[j]) && (s.jobs[j].phase.Running? ==> t.jobs[j].phase.Running?)
    {
      if !s.jobs[j].phase.Running? { CancelKeepsFlags(s.jobs[j]); }
    }
  }

  lemma CancelKeepsFlags(job: Job)
    requires !job.phase.Running?
    ensures FlagsKept(job, job) && FlagsKept(job, CancelInLine(job))
  {}

  /** The steps of timers and writes, which change one job. */
  predicate TimerStep(e: Event) { e.WaitExpires? || e.MarkEnds? || e.DeadlineFires? || e.Deliver? }

  /** The steps that change no job. */
  predicate JoblessStep(e: Event) { e.Discard? || e.Close? || e.DrainEnds? || e.Tick? }

  lemma JoblessKeepsJobs(l: Limits, s: Runner, e: Event)
    requires Enabled(l, s, e) && JoblessStep(e)
    ensures Apply(l, s, e).jobs == s.jobs && (s.closed ==> Apply(l, s, e).closed)
    ensures PassDone(s.closer) ==> PassDone(Apply(l, s, e).closer)
  {}

  lemma QuietFlags(l: Limits, s: Runner, e: Event)
    requires Enabled(l, s, e)
    requires !e.Resume? && !e.FnEnds? && !e.RunReady? && !e.Submit? && !e.Deliver?
    ensures AllFlagsKept(s, Apply(l, s, e))
  {
    if JoblessStep(e) {
      JoblessKeepsJobs(l, s, e);
    } else if e.GraceEnds? {
      GraceFlags(s);
    } else {
      TimerFlags(l, s, e);
    }
  }

  lemma TimerFlags(l: Limits, s: Runner, e: Event)
    requires Enabled(l, s, e) && TimerStep(e) && !e.Deliver?
    ensures AllFlagsKept(s, Apply(l, s, e))
  {}

  lemma GraceFlags(s: Runner)
    requires s.closer.Draining?
    ensures AllFlagsKept(s, GraceEnded(s))
  {}

  lemma StepFlags(l: Limits, s: Runner, e: Event)
    requires Inv(l, s) && Enabled(l, s, e) && !e.Submit? && !e.Deliver? && !e.FnEnds?
    ensures AllFlagsKept(s, Apply(l, s, e))
  {
    match e
    case Resume(j) => ResumeFlags(l, s, j);
    case RunReady => ReadyFlags(l, s);
    case _ => QuietFlags(l, s, e);
  }

  // ---- Leaving the line ----------------------------------------------------

  predicate Leaves(a: Phase, b: Phase) { InLine(a) && (b.Running? || b.Marking?) }

  /** Only the job whose coroutine a step resumes can enter fn, or give up its place. */
  ghost predicate OnlyResumedLeaves(s: Runner, e: Event, t: Runner) {
    && (Resumes(s, e).Some? ==> Resumes(s, e).value in s.jobs && InLine(s.jobs[Resumes(s, e).value].phase))
    && t.jobs.Keys >= s.jobs.Keys
    && forall j :: j in s.jobs && Leaves(s.jobs[j].phase, t.jobs[j].phase) ==> Resumes(s, e) == Some(j)
  }

  lemma ResumeLeaves(l: Limits, s: Runner, j: JobId)
    requires Inv(l, s) && Enabled(l, s, Resume(j))
    ensures OnlyResumedLeaves(s, Resume(j), Resumed(l, s, j))
  {
    if s.jobs[j].phase.Granted? {
      GrantedLeaves(l, s, j);
    } else {
      GaveBackKeeps(l, s, j);
      UnwindingLeaves(s, j);
    }
  }

  lemma GrantedLeaves(l: Limits, s: Runner, j: JobId)
    requires QueueOk(s) && j in s.jobs && s.jobs[j].phase.Granted?
    ensures OnlyResumedLeaves(s, Resume(j), ResumedGranted(l, s, j))
  {
    WakeAllGrants(s);
    WakeLeaves(s, s, WakeAll(s), ResumedGranted(l, s, j), j);
  }

  lemma UnwindingLeaves(s: Runner, j: JobId)
    requires j in s.jobs && s.jobs[j].phase.Unwinding? && QueueOk(GaveBack(s, j))
    ensures OnlyResumedLeaves(s, Resume(j), ResumedUnwinding(s, j))
  {
    WakeAllGrants(GaveBack(s, j));
    WakeLeaves(s, GaveBack(s, j), WakeAll(GaveBack(s, j)), ResumedUnwinding(s, j), j);
  }

  lemma WakeLeaves(s: Runner, u: Runner, w: Runner, t: Runner, j: JobId)
    requires u.jobs.Keys == s.jobs.Keys && SameButGrants(u, w) && t.jobs.Keys == s.jobs.Keys
    requires forall k :: k in s.jobs && k != j ==> u.jobs[k] == s.jobs[k] && t.jobs[k] == w.jobs[k]
    requires j in s.jobs && InLine(s.jobs[j].phase)
    ensures OnlyResumedLeaves(s, Resume(j), t)
  {}

  lemma StepLeaves(l: Limits, s: Runner, e: Event)
    requires Inv(l, s) && Enabled(l, s, e) && !e.Submit? && !e.FnEnds?
    ensures OnlyResumedLeaves(s, e, Apply(l, s, e))
  {
    match e
    case Resume(j) => ResumeLeaves(l, s, j);
    case RunReady =>
      assert s.ready[0] in s.ready;
      ReadyLeaves(l, s);
    case _ => QuietLeaves(l, s, e);
  }

  lemma ReadyLeaves(l: Limits, s: Runner)
    requires Enabled(l, s, RunReady)
    requires s.ready[0].FirstStep? ==> s.jobs[s.ready[0].job].phase.Created?
    ensures OnlyResumedLeaves(s, RunReady, RanReady(l, s))
  {
    match s.ready[0]
    case FirstStep(j) =>
    case CloseWakes =>
      var t := RanReady(l, s);
      PassShape(l, s);
      forall j | j in s.jobs ensures !Leaves(s.jobs[j].phase, t.jobs[j].phase) { CancelKeepsPlace(s.jobs[j]); }
  }

  lemma CancelKeepsPlace(job: Job)
    ensures !Leaves(job.phase, CancelInLine(job).phase)
  {}

  lemma QuietLeaves(l: Limits, s: Runner, e: Event)
    requires Enabled(l, s, e)
    requires !e.Resume? && !e.FnEnds? && !e.RunReady? && !e.Submit?
    ensures OnlyResumedLeaves(s, e, Apply(l, s, e))
  {
    if JoblessStep(e) {
      JoblessKeepsJobs(l, s, e);
    } else if e.GraceEnds? {
      GraceLeaves(s);
    } else {
      TimerLeaves(l, s, e);
    }
  }

  lemma TimerLeaves(l: Limits, s: Runner, e: Event)
    requires Enabled(l, s, e) && TimerStep(e)
    ensures OnlyResumedLeaves(s, e, Apply(l, s, e))
  {}

  lemma GraceLeaves(s: Runner)
    requires s.closer.Draining?
    ensures OnlyResumedLeaves(s, GraceEnds, GraceEnded(s))
  {}
}
