/** What every step of the job runner keeps. */
module SchedulerInvariant {
  import opened Messages
  import opened Scheduler

  // ---- The invariant, part by part ----------------------------------------

  /** The wait queue holds exactly the waiting jobs, once each. */
  ghost predicate QueueOk(s: Runner) {
    && (forall i, k :: 0 <= i < k < |s.queue| ==> s.queue[i] != s.queue[k])
    && (forall j :: j in s.queue <==> j in s.jobs && s.jobs[j].phase.Waiting?)
  }

  /** `_waiting`, `_running_tasks` and the semaphore value count what they should. */
  ghost predicate CountsOk(l: Limits, s: Runner) {
    && s.waiting == |InLineJobs(s.jobs)| <= l.maxQueued
    && s.free + |Holders(s.jobs)| == l.maxConcurrent
    && (forall j :: j in s.running <==> j in s.jobs && s.jobs[j].phase.Running?)
  }

  /** A free slot and a pending waiter coexist only while a resumption is due that will wake it. */
  ghost predicate NoLostWakeup(s: Runner) {
    s.free > 0 && s.queue != [] ==> exists j :: j in s.jobs && OwedSlot(s.jobs[j].phase)
  }

  /** `_tasks` holds every unfinished task, and only tasks. */
  ghost predicate TasksOk(s: Runner) {
    && (forall j :: j in s.tasks ==> j in s.jobs && !s.jobs[j].phase.Rejected?)
    && (forall j :: j in s.jobs && Live(s.jobs[j].phase) ==> j in s.tasks)
  }

  /** The ready list holds the first step of exactly the created jobs, once each. */
  ghost predicate ReadyOk(s: Runner) {
    && (forall i, k :: 0 <= i < k < |s.ready| ==> s.ready[i] != s.ready[k])
    && (forall j :: FirstStep(j) in s.ready <==> j in s.jobs && s.jobs[j].phase.Created?)
    && (CloseWakes in s.ready <==> s.closer.Yielding?)
    && (s.closer.Yielding? ==> s.ready != [] && s.ready[|s.ready| - 1] == CloseWakes)
  }

  /** on_failure calls and finished events, phase by phase. */
  predicate HistoryOk(job: Job) {
    match job.phase
    case Created => Untouched(job) && !job.interrupted
    case Waiting => Untouched(job) && !job.interrupted
    case Granted => Untouched(job) && !job.interrupted
    case Unwinding(_) => Untouched(job)
    case Marking(aborted) =>
      && !job.entered && job.logged == []
      && (if job.interrupted && !aborted then job.failures == [SweepMessage]
          else job.failures == [BusyMessage])
      && (aborted ==> job.interrupted)
    case Running => job.entered && job.failures == [] && job.logged == []
    case Rejected => !job.entered && job.failures == [] && job.logged == [RejectedBusy]
    case Done =>
      if job.entered then RunFinished(job) else NeverStarted(job)
  }

  predicate Untouched(job: Job) { !job.entered && job.failures == [] && job.logged == [] }

  predicate RunFinished(job: Job) {
    && job.failures == []
    && |job.logged| == 1
    && job.logged[0] in {Succeeded, Failed, RunTimeout, CancelledRunning}
    && (job.logged[0] == CancelledRunning ==> job.interrupted)
  }

  predicate NeverStarted(job: Job) {
    || (job.failures == [BusyMessage] && job.logged == [WaitTimeout] && !job.interrupted)
    || (job.failures == [SweepMessage] && job.logged == [CancelledWaiting] && job.interrupted)
    || (job.failures == [BusyMessage] && job.logged == [] && job.interrupted)
  }

  /** Timers and cancellation flags of one job against the clock. */
  predicate TimesOk(l: Limits, s: Runner, job: Job) {
    && job.submittedAt <= s.now
    && (job.phase.Created? ==> job.submittedAt == s.now)
    && (job.phase.Waiting? || job.phase.Granted? || job.phase.Unwinding? ==>
          s.now <= job.giveUpAt == job.submittedAt + l.maxWait)
    && (job.entered ==>
          && job.submittedAt <= job.enteredAt <= job.submittedAt + l.maxWait
          && job.enteredAt <= s.now
          && job.runUntil == Max(job.enteredAt, job.submittedAt + l.timeout))
    && (job.phase.Running? && !job.timedOut ==> s.now <= job.runUntil)
    && (job.timedOut ==> job.entered && job.runUntil <= s.now)
    && (job.interrupted ==> s.closed)
    && (job.cancelPending ==> job.phase.Running? && (job.timedOut || job.interrupted))
  }

  ghost predicate JobsOk(l: Limits, s: Runner) {
    forall j :: j in s.jobs ==> HistoryOk(s.jobs[j]) && TimesOk(l, s, s.jobs[j])
  }

  /** After the cancel pass no job can still reach fn, and none was missed. */
  predicate SealedJob(job: Job) {
    && !job.phase.Created? && !job.phase.Waiting? && !job.phase.Granted?
    && (job.phase.Unwinding? || job.phase.Marking? ==> job.interrupted)
  }

  predicate PassDone(c: Closer) { c.Draining? || c.Finishing? || c.Returned? }

  ghost predicate CloseOk(l: Limits, s: Runner) {
    && (s.closed <==> !s.closer.Open?)
    && (!PassDone(s.closer) ==> forall j :: j in s.jobs ==> !s.jobs[j].interrupted)
    && (PassDone(s.closer) ==> s.queue == [] && forall j :: j in s.jobs ==> SealedJob(s.jobs[j]))
    && (s.closer.Finishing? || s.closer.Returned? ==>
          forall j :: j in s.jobs && s.jobs[j].phase.Running? ==> s.jobs[j].interrupted)
    && CloserTimesOk(l, s)
  }

  ghost predicate CloserTimesOk(l: Limits, s: Runner) {
    match s.closer
    case Open => true
    case Yielding(since) => since == s.now
    case Draining(since, until, tasks, victims) =>
      since <= s.now <= until == since + l.grace && s.running <= victims
    case Finishing(since, until, pending) => since <= s.now <= until <= since + l.grace + CANCEL_DRAIN_SEC
    case Returned(since, at) => since <= at <= s.now && at <= since + l.grace + CANCEL_DRAIN_SEC
  }

  predicate Sane(l: Limits) { l.maxWait >= 0.0 && l.grace >= 0.0 }

  ghost predicate Inv(l: Limits, s: Runner) {
    && Sane(l)
    && QueueOk(s) && CountsOk(l, s) && NoLostWakeup(s) && TasksOk(s) && ReadyOk(s)
    && JobsOk(l, s) && CloseOk(l, s)
  }

  // ---- Counting ------------------------------------------------------------

  /** What job j adds to the two counts. */
  function InLineAt(jobs: map<JobId, Job>, j: JobId): int { if j in jobs && InLine(jobs[j].phase) then 1 else 0 }
  function HoldsAt(jobs: map<JobId, Job>, j: JobId): int { if j in jobs && Holds(jobs[j].phase) then 1 else 0 }

  /** How one job's phase change moves the two counts. */
  lemma Recount(jobs: map<JobId, Job>, j: JobId, job: Job)
    ensures var after := jobs[j := job];
      && |InLineJobs(after)| == |InLineJobs(jobs)| + InLineAt(after, j) - InLineAt(jobs, j)
      && |Holders(after)| == |Holders(jobs)| + HoldsAt(after, j) - HoldsAt(jobs, j)
  {
    RecountInLine(jobs, j, job);
    RecountHolders(jobs, j, job);
  }

  lemma RecountInLine(jobs: map<JobId, Job>, j: JobId, job: Job)
    ensures |InLineJobs(jobs[j := job])| == |InLineJobs(jobs)| + InLineAt(jobs[j := job], j) - InLineAt(jobs, j)
  {
    assert InLineJobs(jobs[j := job]) == if InLine(job.phase) then InLineJobs(jobs) + {j} else InLineJobs(jobs) - {j};
  }

  lemma RecountHolders(jobs: map<JobId, Job>, j: JobId, job: Job)
    ensures |Holders(jobs[j := job])| == |Holders(jobs)| + HoldsAt(jobs[j := job], j) - HoldsAt(jobs, j)
  {
    assert Holders(jobs[j := job]) == if Holds(job.phase) then Holders(jobs) + {j} else Holders(jobs) - {j};
  }

  // ---- Waking --------------------------------------------------------------

  /** Waking only turns waiting jobs into granted ones. */
  ghost predicate OnlyGrants(before: map<JobId, Job>, after: map<JobId, Job>) {
    && after.Keys == before.Keys
    && forall j :: j in before ==>
         after[j] == before[j] || (before[j].phase.Waiting? && after[j] == before[j].(phase := Granted))
  }

  ghost predicate SameButGrants(s: Runner, w: Runner) {
    && w == s.(free := w.free, queue := w.queue, jobs := w.jobs)
    && OnlyGrants(s.jobs, w.jobs)
    && QueueOk(w)
    && InLineJobs(w.jobs) == InLineJobs(s.jobs)
    && w.free + |Holders(w.jobs)| == s.free + |Holders(s.jobs)|
  }

  lemma WakeNextGrants(s: Runner)
    requires QueueOk(s)
    ensures SameButGrants(s, WakeNext(s))
    ensures s.free > 0 && s.queue != [] ==> exists j :: j in WakeNext(s).jobs && WakeNext(s).jobs[j].phase.Granted?
  {
    if s.free > 0 && s.queue != [] {
      var j := s.queue[0];
      assert j in s.queue;
      Recount(s.jobs, j, s.jobs[j].(phase := Granted));
      var w := WakeNext(s);
      assert w.jobs[j].phase.Granted?;
      assert InLineJobs(w.jobs) == InLineJobs(s.jobs);
      TailOf(s.queue);
    }
  }

  /** A queue without repetitions loses exactly its front. */
  lemma TailOf(q: seq<JobId>)
    requires q != [] && forall i, k :: 0 <= i < k < |q| ==> q[i] != q[k]
    ensures forall k :: k in q[1..] <==> k in q && k != q[0]
    ensures forall i, k :: 0 <= i < k < |q[1..]| ==> q[1..][i] != q[1..][k]
  {
    assert q == [q[0]] + q[1..];
  }

  lemma {:induction false} WakeAllGrants(s: Runner)
    requires QueueOk(s)
    ensures SameButGrants(s, WakeAll(s))
    ensures WakeAll(s).free == 0 || WakeAll(s).queue == []
    decreases |s.queue|
  {
    if s.free > 0 && s.queue != [] {
      WakeNextGrants(s);
      WakeAllGrants(WakeNext(s));
    }
  }

  /** What a waking step keeps of the parts that do not count slots. */
  lemma GrantsKeep(l: Limits, s: Runner, w: Runner)
    requires SameButGrants(s, w)
    requires TasksOk(s) && ReadyOk(s) && JobsOk(l, s)
    requires forall j :: j in s.running <==> j in s.jobs && s.jobs[j].phase.Running?
    requires CloseOk(l, s)
    requires PassDone(s.closer) ==> w.queue == []
    ensures TasksOk(w) && ReadyOk(w) && JobsOk(l, w) && CloseOk(l, w)
    ensures forall j :: j in w.running <==> j in w.jobs && w.jobs[j].phase.Running?
  {
    GrantsKeepTasks(s, w);
    GrantsKeepJobs(l, s, w);
    GrantsKeepClose(l, s, w);
  }

  lemma GrantsKeepTasks(s: Runner, w: Runner)
    requires OnlyGrants(s.jobs, w.jobs) && TasksOk(s) && ReadyOk(s)
    requires w.tasks == s.tasks && w.ready == s.ready && w.closer == s.closer
    ensures TasksOk(w) && ReadyOk(w)
  {
    forall j | j in w.jobs ensures w.jobs[j].phase.Created? == s.jobs[j].phase.Created? {}
  }

  lemma GrantsKeepJobs(l: Limits, s: Runner, w: Runner)
    requires SameButGrants(s, w) && JobsOk(l, s)
    ensures JobsOk(l, w)
  {
    forall j | j in w.jobs ensures HistoryOk(w.jobs[j]) && TimesOk(l, w, w.jobs[j]) {
      assert HistoryOk(s.jobs[j]) && TimesOk(l, s, s.jobs[j]);
    }
  }

  lemma GrantsKeepClose(l: Limits, s: Runner, w: Runner)
    requires SameButGrants(s, w) && CloseOk(l, s) && (PassDone(s.closer) ==> w.queue == [])
    ensures CloseOk(l, w)
  {}
}
