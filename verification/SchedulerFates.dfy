/** What one step does to one job, exactly, and which jobs the shutdown still waits for. */
module SchedulerFates {
  import opened Scheduler
  import opened SchedulerInvariant
  import opened SchedulerSteps
  import opened SchedulerMoves

  /** The job as it is when it enters fn. */
  function EnteredJob(l: Limits, now: real, job: Job): Job {
    job.(phase := Running, entered := true, enteredAt := now, runUntil := Max(now, job.submittedAt + l.timeout))
  }

  /** At most granted a slot on the way. */
  predicate Unmoved(a: Job, b: Job) { b == a || (a.phase.Waiting? && b == a.(phase := Granted)) }

  predicate TookFirstStep(l: Limits, now: real, a: Job, b: Job) {
    var armed := a.(giveUpAt := now + l.maxWait);
    b == armed.(phase := Waiting) || b == EnteredJob(l, now, armed)
  }

  /** What the front of the ready list does to the job. */
  predicate TookReady(l: Limits, s: Runner, c: Callback, j: JobId, a: Job, b: Job) {
    match c
    case FirstStep(k) => if k == j then TookFirstStep(l, s.now, a, b) else b == a
    case CloseWakes => b == if j in s.tasks && j !in s.running then CancelInLine(a) else a
  }

  /** The event turns job j from a into b. */
  predicate Took(l: Limits, s: Runner, e: Event, j: JobId, a: Job, b: Job) {
    match e
    case RunReady => s.ready != [] && TookReady(l, s, s.ready[0], j, a, b)
    case Resume(k) =>
      if k != j then Unmoved(a, b) else if a.phase.Granted? then b == EnteredJob(l, s.now, a) else b == Unwound(a)
    case WaitExpires(k) => b == if k == j then a.(phase := Unwinding(a.phase.Granted?)) else a
    case MarkEnds(k) => b == if k == j then a.(phase := Done, logged := b.logged) else a
    case DeadlineFires(k) => b == if k == j then a.(timedOut := true, cancelPending := true) else a
    case Deliver(k) => b == if k == j then a.(cancelPending := false) else a
    case FnEnds(k, _) => if k == j then b == a.(phase := Done, logged := b.logged) else Unmoved(a, b)
    case GraceEnds => b == if s.closer.Draining? && j in s.closer.victims then CancelRunning(a) else a
    case _ => b == a
  }

  lemma StepTakes(l: Limits, s: Runner, e: Event, j: JobId)
    requires Inv(l, s) && Enabled(l, s, e) && j in s.jobs
    ensures j in Apply(l, s, e).jobs && Took(l, s, e, j, s.jobs[j], Apply(l, s, e).jobs[j])
  {
    match e
    case RunReady => ReadyTakes(l, s, j);
    case Resume(k) => ResumeTakes(l, s, k, j);
    case FnEnds(k, r) => FnEndOthers(s, k, r);
    case GraceEnds => GraceTakes(s, j);
    case _ => if TimerStep(e) { TimerTakes(l, s, e, j); } else { RestTakes(l, s, e, j); }
  }

  lemma GraceTakes(s: Runner, j: JobId)
    requires s.closer.Draining? && j in s.jobs
    ensures var t := GraceEnded(s);
      j in t.jobs && t.jobs[j] == if j in s.closer.victims then CancelRunning(s.jobs[j]) else s.jobs[j]
  {}

  lemma TimerTakes(l: Limits, s: Runner, e: Event, j: JobId)
    requires Enabled(l, s, e) && TimerStep(e) && j in s.jobs
    ensures j in Apply(l, s, e).jobs && Took(l, s, e, j, s.jobs[j], Apply(l, s, e).jobs[j])
  {}

  lemma RestTakes(l: Limits, s: Runner, e: Event, j: JobId)
    requires Enabled(l, s, e) && (JoblessStep(e) || e.Submit?) && j in s.jobs
    ensures j in Apply(l, s, e).jobs && Apply(l, s, e).jobs[j] == s.jobs[j]
  {
    if JoblessStep(e) { JoblessKeepsJobs(l, s, e); }
  }

  lemma ReadyTakes(l: Limits, s: Runner, j: JobId)
    requires Inv(l, s) && Enabled(l, s, RunReady) && j in s.jobs
    ensures j in RanReady(l, s).jobs && TookReady(l, s, s.ready[0], j, s.jobs[j], RanReady(l, s).jobs[j])
  {
    assert s.ready[0] in s.ready;
    if s.ready[0].CloseWakes? { PassShape(l, s); } else { FirstStepTakes(l, s, j); }
  }

  lemma FirstStepTakes(l: Limits, s: Runner, j: JobId)
    requires Enabled(l, s, RunReady) && s.ready[0].FirstStep? && j in s.jobs
    ensures j in RanReady(l, s).jobs && TookReady(l, s, s.ready[0], j, s.jobs[j], RanReady(l, s).jobs[j])
  {}

  lemma ResumeTakes(l: Limits, s: Runner, k: JobId, j: JobId)
    requires Inv(l, s) && Enabled(l, s, Resume(k)) && j in s.jobs
    ensures j in Resumed(l, s, k).jobs && Took(l, s, Resume(k), j, s.jobs[j], Resumed(l, s, k).jobs[j])
  {
    if s.jobs[k].phase.Granted? {
      GrantedTakes(l, s, k, j);
    } else {
      GaveBackKeeps(l, s, k);
      UnwindingTakes(s, k, j);
    }
  }

  lemma GrantedTakes(l: Limits, s: Runner, k: JobId, j: JobId)
    requires QueueOk(s) && k in s.jobs && s.jobs[k].phase.Granted? && j in s.jobs
    ensures var t := ResumedGranted(l, s, k);
      j in t.jobs && if k == j then t.jobs[j] == EnteredJob(l, s.now, s.jobs[j]) else Unmoved(s.jobs[j], t.jobs[j])
  {
    WakeAllGrants(s);
  }

  lemma UnwindingTakes(s: Runner, k: JobId, j: JobId)
    requires k in s.jobs && s.jobs[k].phase.Unwinding? && QueueOk(GaveBack(s, k)) && j in s.jobs
    ensures var t := ResumedUnwinding(s, k);
      j in t.jobs && if k == j then t.jobs[j] == Unwound(s.jobs[j]) else Unmoved(s.jobs[j], t.jobs[j])
  {
    WakeAllGrants(GaveBack(s, k));
  }

  // ---- The never-started write ---------------------------------------------

  /** The pass cuts the job loose from the write it awaits. */
  predicate PassFinds(s: Runner, e: Event, j: JobId) {
    e.RunReady? && s.ready != [] && s.ready[0].CloseWakes? && j in s.jobs && s.jobs[j].phase.Marking?
  }

  /** A job in its never-started write stays in it until the write's await ends or is cut. */
  predicate MarkingKept(s: Runner, e: Event, t: Runner, j: JobId)
    requires j in s.jobs
  {
    && j in t.jobs
    && (t.jobs[j].phase == s.jobs[j].phase || (e == MarkEnds(j) && t.jobs[j].phase.Done?) || PassFinds(s, e, j))
    && (PassFinds(s, e, j) ==> t.jobs[j].phase == Marking(true))
  }

  lemma MarkingStays(l: Limits, s: Runner, e: Event, j: JobId)
    requires Inv(l, s) && Enabled(l, s, e) && j in s.jobs && s.jobs[j].phase.Marking?
    ensures MarkingKept(s, e, Apply(l, s, e), j)
  {
    StepTakes(l, s, e, j);
    assert HistoryOk(s.jobs[j]);
    if e.RunReady? { assert s.ready[0] in s.ready; }
  }

  // ---- Whom close() waits for ----------------------------------------------

  /** Nobody is in line. */
  predicate LineEmpty(jobs: map<JobId, Job>) { forall j :: j in jobs ==> !InLine(jobs[j].phase) }

  predicate AllDone(jobs: map<JobId, Job>) { forall j :: j in jobs ==> !Live(jobs[j].phase) }

  /** When the last wait of close() began. */
  function WaitBegan(c: Closer): real
    requires c.Finishing?
  {
    c.until - CANCEL_DRAIN_SEC
  }

  /** Whoever is unfinished is awaited; and after the instant of the last cancellations the line is empty. */
  ghost predicate CoverOk(s: Runner) {
    match s.closer
    case Draining(_, _, tasks, _) => forall j :: j in s.jobs && Live(s.jobs[j].phase) ==> j in tasks
    case Finishing(_, _, pending) =>
      && (forall j :: j in s.jobs && Live(s.jobs[j].phase) ==> j in pending)
      && WaitBegan(s.closer) <= s.now
      && (WaitBegan(s.closer) < s.now ==> LineEmpty(s.jobs))
    case Returned(_, _) => LineEmpty(s.jobs)
    case _ => true
  }

  /** Steps of the runner that move close() past its pass. */
  predicate MovesCloser(s: Runner, e: Event) {
    e.Close? || e.GraceEnds? || e.DrainEnds? || (e.RunReady? && s.ready != [] && s.ready[0].CloseWakes?)
  }

  lemma CloserKept(l: Limits, s: Runner, e: Event)
    requires Inv(l, s) && Enabled(l, s, e) && !MovesCloser(s, e)
    ensures Apply(l, s, e).closer == s.closer && (!e.Tick? ==> Apply(l, s, e).now == s.now)
  {
    match e
    case Resume(j) =>
      if s.jobs[j].phase.Unwinding? { GaveBackKeeps(l, s, j); }
      WakeAllGrants(if s.jobs[j].phase.Granted? then s else GaveBack(s, j));
    case FnEnds(j, r) => FnEndOthers(s, j, r);
    case _ =>
  }

  lemma OthersKeepCover(l: Limits, s: Runner, e: Event)
    requires Inv(l, s) && Enabled(l, s, e) && !MovesCloser(s, e) && !e.Tick? && CoverOk(s)
    ensures CoverOk(Apply(l, s, e))
  {
    CloserKept(l, s, e);
    StepEvolves(l, s, e);
    MonotoneCover(s, Apply(l, s, e));
  }

  /** Jobs only finish and leave the line. */
  lemma MonotoneCover(s: Runner, t: Runner)
    requires CoverOk(s) && Stepped(s, t) && t.closer == s.closer && t.now == s.now
    requires PassDone(s.closer) ==> t.jobs.Keys == s.jobs.Keys
    ensures CoverOk(t)
  {
    if PassDone(s.closer) {
      forall j | j in t.jobs
        ensures Live(t.jobs[j].phase) ==> Live(s.jobs[j].phase)
        ensures InLine(t.jobs[j].phase) ==> InLine(s.jobs[j].phase)
      {
        assert Moved(s.jobs[j], t.jobs[j]);
      }
    }
  }

  lemma TickKeepsCover(l: Limits, s: Runner, to: real)
    requires Inv(l, s) && Enabled(l, s, Tick(to)) && CoverOk(s)
    ensures CoverOk(s.(now := to))
  {
    if s.closer.Finishing? {
      forall j | j in s.jobs ensures !InLine(s.jobs[j].phase) { assert SealedJob(s.jobs[j]) && !Urgent(s.jobs[j]); }
    }
  }

  lemma FinalWaitCovers(s: Runner, since: real, tasks: set<JobId>)
    requires forall j :: j in s.jobs && Live(s.jobs[j].phase) ==> j in tasks
    ensures CoverOk(FinalWait(s, since, tasks))
    ensures FinalWait(s, since, tasks).closer.Returned? ==> AllDone(s.jobs)
  {
    assert forall j :: j in s.jobs && Live(s.jobs[j].phase) ==> j in Unfinished(s, tasks);
  }

  lemma CloserKeepsCover(l: Limits, s: Runner, e: Event)
    requires Inv(l, s) && Enabled(l, s, e) && MovesCloser(s, e) && CoverOk(s)
    ensures CoverOk(Apply(l, s, e))
  {
    match e
    case Close =>
    case GraceEnds => GraceKeepsCover(s);
    case DrainEnds => DrainKeepsCover(s);
    case RunReady => PassCovers(l, s);
  }

  lemma GraceKeepsCover(s: Runner)
    requires s.closer.Draining? && CoverOk(s)
    ensures CoverOk(GraceEnded(s))
  {
    FinalWaitCovers(s.(jobs := GraceJobs(s, s.closer.victims)), s.closer.since, s.closer.tasks);
  }

  lemma DrainKeepsCover(s: Runner)
    requires s.closer.Finishing? && WaitOver(s, s.closer.pending, s.closer.until) && CoverOk(s)
    ensures CoverOk(DrainEnded(s))
  {
    if s.now < s.closer.until {
      forall j | j in s.jobs ensures !InLine(s.jobs[j].phase) { assert !Live(s.jobs[j].phase); }
    }
  }

  lemma PassCovers(l: Limits, s: Runner)
    requires Inv(l, s) && Enabled(l, s, RunReady) && s.ready[0].CloseWakes?
    ensures CoverOk(RanReady(l, s))
  {
    var rest := s.(ready := s.ready[1..]);
    var passed := rest.(queue := [], jobs := PassJobs(rest));
    forall j | j in passed.jobs && Live(passed.jobs[j].phase) ensures j in s.tasks {
      NoneUnstartedAtPass(l, s, j);
      CancelInLineKind(s.jobs[j]);
    }
    FinalWaitCovers(passed, s.closer.since, s.tasks);
  }

  lemma StepKeepsCover(l: Limits, s: Runner, e: Event)
    requires Inv(l, s) && Enabled(l, s, e) && CoverOk(s)
    ensures CoverOk(Apply(l, s, e))
  {
    if e.Tick? {
      TickKeepsCover(l, s, e.to);
    } else if MovesCloser(s, e) {
      CloserKeepsCover(l, s, e);
    } else {
      OthersKeepCover(l, s, e);
    }
  }

  // ---- How close() returns -------------------------------------------------

  /** It returns when its last wait has timed out, or when everybody is done. */
  lemma ReturnsWhenDone(l: Limits, s: Runner, e: Event)
    requires Inv(l, s) && Enabled(l, s, e) && CoverOk(s) && !s.closer.Returned? && Apply(l, s, e).closer.Returned?
    ensures AllDone(Apply(l, s, e).jobs) || (e.DrainEnds? && s.now >= s.closer.until)
  {
    if MovesCloser(s, e) { MoveReturnsWhenDone(l, s, e); } else { CloserKept(l, s, e); }
  }

  lemma MoveReturnsWhenDone(l: Limits, s: Runner, e: Event)
    requires Inv(l, s) && Enabled(l, s, e) && MovesCloser(s, e)
    requires CoverOk(s) && !s.closer.Returned? && Apply(l, s, e).closer.Returned?
    ensures AllDone(Apply(l, s, e).jobs) || (e.DrainEnds? && s.now >= s.closer.until)
  {
    match e
    case Close => assert forall j :: j in s.jobs && Live(s.jobs[j].phase) ==> j in s.tasks;
    case GraceEnds => FinalWaitCovers(s.(jobs := GraceJobs(s, s.closer.victims)), s.closer.since, s.closer.tasks);
    case RunReady => PassReturns(l, s);
    case _ =>
  }

  lemma PassReturns(l: Limits, s: Runner)
    requires Inv(l, s) && Enabled(l, s, RunReady) && s.ready[0].CloseWakes? && RanReady(l, s).closer.Returned?
    ensures AllDone(RanReady(l, s).jobs)
  {
    var rest := s.(ready := s.ready[1..]);
    var passed := rest.(queue := [], jobs := PassJobs(rest));
    forall j | j in passed.jobs && Live(passed.jobs[j].phase) ensures j in s.tasks {
      NoneUnstartedAtPass(l, s, j);
      CancelInLineKind(s.jobs[j]);
    }
    FinalWaitCovers(passed, s.closer.since, s.tasks);
  }
}
