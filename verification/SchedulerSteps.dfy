/** Each step of the job runner keeps the invariant. */
module SchedulerSteps {
  import opened Scheduler
  import opened SchedulerInvariant

  lemma InitHolds(l: Limits, now: real)
    requires Sane(l)
    ensures Inv(l, Init(l, now))
  {
    assert InLineJobs(map[]) == {} && Holders(map[]) == {};
  }

  /** Replacing one job keeps the per-job part. */
  lemma PutKeepsJobs(l: Limits, s: Runner, t: Runner, j: JobId)
    requires JobsOk(l, s) && t.now == s.now && (s.closed ==> t.closed)
    requires t.jobs.Keys == s.jobs.Keys + {j}
    requires forall k :: k in s.jobs && k != j ==> t.jobs[k] == s.jobs[k]
    requires HistoryOk(t.jobs[j]) && TimesOk(l, t, t.jobs[j])
    ensures JobsOk(l, t)
  {
    forall k | k in t.jobs ensures HistoryOk(t.jobs[k]) && TimesOk(l, t, t.jobs[k]) {
      if k != j { assert HistoryOk(s.jobs[k]) && TimesOk(l, s, s.jobs[k]); }
    }
  }

  /** The per-job part looks at the jobs, the clock and closedness only. */
  lemma SameJobsOk(l: Limits, s: Runner, t: Runner)
    requires JobsOk(l, s) && t.jobs == s.jobs && t.now == s.now && (s.closed ==> t.closed)
    ensures JobsOk(l, t)
  {
    forall k | k in t.jobs ensures HistoryOk(t.jobs[k]) && TimesOk(l, t, t.jobs[k]) {
      assert HistoryOk(s.jobs[k]) && TimesOk(l, s, s.jobs[k]);
    }
  }

  /** Replacing one job keeps the closing part. */
  lemma PutKeepsClose(l: Limits, s: Runner, t: Runner, j: JobId)
    requires CloseOk(l, s) && t.now == s.now && t.closed == s.closed && t.closer == s.closer
    requires t.running <= s.running && (PassDone(s.closer) ==> t.queue == [])
    requires t.jobs.Keys == s.jobs.Keys + {j}
    requires forall k :: k in s.jobs && k != j ==> t.jobs[k] == s.jobs[k]
    requires if PassDone(s.closer) then SealedJob(t.jobs[j]) else !t.jobs[j].interrupted
    requires s.closer.Finishing? || s.closer.Returned? ==> t.jobs[j].phase.Running? ==> t.jobs[j].interrupted
    ensures CloseOk(l, t)
  {}

  /** A resumption that is due survives a change to another job. */
  lemma PutKeepsWakeup(s: Runner, t: Runner, j: JobId)
    requires NoLostWakeup(s) && t.free == s.free && t.queue == s.queue
    requires t.jobs.Keys == s.jobs.Keys + {j}
    requires forall k :: k in s.jobs && k != j ==> t.jobs[k] == s.jobs[k]
    requires j in s.jobs && OwedSlot(s.jobs[j].phase) ==> OwedSlot(t.jobs[j].phase)
    ensures NoLostWakeup(t)
  {
    if t.free > 0 && t.queue != [] {
      var k :| k in s.jobs && OwedSlot(s.jobs[k].phase);
      assert OwedSlot(t.jobs[k].phase);
    }
  }

  /** t is s but for job j and what the counts and the queue make of it. */
  predicate Replaces(s: Runner, t: Runner, j: JobId) {
    j in t.jobs && t.jobs == s.jobs[j := t.jobs[j]]
  }

  lemma OneJobCounts(l: Limits, s: Runner, t: Runner, j: JobId)
    requires CountsOk(l, s) && Replaces(s, t, j)
    requires t.waiting == s.waiting + InLineAt(t.jobs, j) - InLineAt(s.jobs, j) <= l.maxQueued
    requires t.free == s.free - HoldsAt(t.jobs, j) + HoldsAt(s.jobs, j)
    requires forall k :: k in t.running <==> if k == j then t.jobs[j].phase.Running? else k in s.running
    ensures CountsOk(l, t)
  {
    Recount(s.jobs, j, t.jobs[j]);
  }

  lemma OneJobQueue(s: Runner, t: Runner, j: JobId)
    requires QueueOk(s) && Replaces(s, t, j) && t.queue == s.queue
    requires t.jobs[j].phase.Waiting? <==> j in s.jobs && s.jobs[j].phase.Waiting?
    ensures QueueOk(t)
  {}

  lemma OneJobTasks(s: Runner, t: Runner, j: JobId)
    requires TasksOk(s) && ReadyOk(s) && j in s.jobs && Replaces(s, t, j)
    requires t.tasks == s.tasks && t.ready == s.ready && t.closer == s.closer
    requires Live(s.jobs[j].phase) && !t.jobs[j].phase.Rejected?
    requires t.jobs[j].phase.Created? == s.jobs[j].phase.Created?
    ensures TasksOk(t) && ReadyOk(t)
  {}

  /** Phases that the queue, the tasks, the ready list and the counts cannot tell apart. */
  predicate SameKind(p: Phase, q: Phase) {
    && Live(p) == Live(q) && p.Created? == q.Created? && p.Waiting? == q.Waiting?
    && p.Running? == q.Running? && p.Rejected? == q.Rejected?
    && InLine(p) == InLine(q) && Holds(p) == Holds(q) && OwedSlot(p) == OwedSlot(q)
  }

  lemma SameKindKeeps(l: Limits, s: Runner, j: JobId, job: Job)
    requires QueueOk(s) && CountsOk(l, s) && TasksOk(s) && ReadyOk(s)
    requires j in s.jobs && SameKind(s.jobs[j].phase, job.phase)
    ensures var t := s.(jobs := s.jobs[j := job]);
            QueueOk(t) && CountsOk(l, t) && TasksOk(t) && ReadyOk(t)
  {
    Recount(s.jobs, j, job);
  }

  lemma OneJobKeeps(l: Limits, s: Runner, j: JobId, job: Job)
    requires Inv(l, s) && j in s.jobs && SameKind(s.jobs[j].phase, job.phase)
    requires HistoryOk(job) && TimesOk(l, s, job)
    requires if PassDone(s.closer) then SealedJob(job) else !job.interrupted
    requires s.jobs[j].interrupted ==> job.interrupted
    ensures Inv(l, s.(jobs := s.jobs[j := job]))
  {
    var t := s.(jobs := s.jobs[j := job]);
    SameKindKeeps(l, s, j, job);
    PutKeepsJobs(l, s, t, j);
    PutKeepsClose(l, s, t, j);
    PutKeepsWakeup(s, t, j);
  }

  lemma DeadlineKeeps(l: Limits, s: Runner, j: JobId)
    requires Inv(l, s) && Enabled(l, s, DeadlineFires(j))
    ensures Inv(l, DeadlineFired(s, j))
  {
    OneJobKeeps(l, s, j, s.jobs[j].(timedOut := true, cancelPending := true));
  }

  lemma DeliverKeeps(l: Limits, s: Runner, j: JobId)
    requires Inv(l, s) && Enabled(l, s, Deliver(j))
    ensures Inv(l, Delivered(s, j))
  {
    OneJobKeeps(l, s, j, s.jobs[j].(cancelPending := false));
  }

  lemma SubmitKeeps(l: Limits, s: Runner, j: JobId)
    requires Inv(l, s) && Enabled(l, s, Submit(j))
    ensures Inv(l, Submitted(l, s, j))
    ensures Judge(l, s).Busy? ==> s.waiting == l.maxQueued
  {
    if s.closed {
      assert Submitted(l, s, j) == s;
    } else {
      SubmitCounts(l, s, j);
      SubmitJobs(l, s, j);
      SubmitWakeup(l, s, j);
    }
  }

  lemma SubmitWakeup(l: Limits, s: Runner, j: JobId)
    requires NoLostWakeup(s) && j !in s.jobs && !s.closed
    ensures NoLostWakeup(Submitted(l, s, j))
  {
    PutKeepsWakeup(s, Submitted(l, s, j), j);
  }

  lemma SubmitJobs(l: Limits, s: Runner, j: JobId)
    requires Sane(l) && JobsOk(l, s) && CloseOk(l, s) && j !in s.jobs && !s.closed
    ensures JobsOk(l, Submitted(l, s, j)) && CloseOk(l, Submitted(l, s, j))
  {
    PutKeepsJobs(l, s, Submitted(l, s, j), j);
    PutKeepsClose(l, s, Submitted(l, s, j), j);
  }

  lemma SubmitCounts(l: Limits, s: Runner, j: JobId)
    requires QueueOk(s) && CountsOk(l, s) && TasksOk(s) && ReadyOk(s)
    requires j !in s.jobs && !s.closed && s.closer.Open?
    ensures var t := Submitted(l, s, j);
            QueueOk(t) && CountsOk(l, t) && TasksOk(t) && ReadyOk(t)
  {
    var t := Submitted(l, s, j);
    if s.waiting < l.maxQueued { OneJobCounts(l, s, t, j); } else { RefusedCounts(l, s, j); }
    OneJobQueue(s, t, j);
    assert FirstStep(j) !in s.ready;
  }

  lemma RefusedCounts(l: Limits, s: Runner, j: JobId)
    requires CountsOk(l, s) && j !in s.jobs && Judge(l, s).Busy?
    ensures CountsOk(l, Submitted(l, s, j))
  {
    OneJobCounts(l, s, Submitted(l, s, j), j);
  }

  lemma DiscardKeeps(l: Limits, s: Runner, j: JobId)
    requires Inv(l, s) && Enabled(l, s, Discard(j))
    ensures Inv(l, Discarded(s, j))
  {
    SameJobsOk(l, s, Discarded(s, j));
  }

  lemma TickKeeps(l: Limits, s: Runner, to: real)
    requires Inv(l, s) && Enabled(l, s, Tick(to))
    ensures Inv(l, s.(now := to))
  {
    var t := s.(now := to);
    assert s.closer.Yielding? ==> CloseWakes in s.ready;
    forall k | k in t.jobs ensures HistoryOk(t.jobs[k]) && TimesOk(l, t, t.jobs[k]) {
      assert HistoryOk(s.jobs[k]) && TimesOk(l, s, s.jobs[k]);
      assert TimerAllows(s.jobs[k], to) && !Urgent(s.jobs[k]);
      assert FirstStep(k) !in s.ready;
    }
  }

  // ---- Acquiring and entering ----------------------------------------------

  /** The invariant without the wake-up promise, as it stands inside acquire() and release(). */
  ghost predicate Core(l: Limits, s: Runner) {
    && Sane(l)
    && QueueOk(s) && CountsOk(l, s) && TasksOk(s) && ReadyOk(s) && JobsOk(l, s) && CloseOk(l, s)
  }

  lemma WakeAllKeeps(l: Limits, s: Runner)
    requires Core(l, s)
    ensures Inv(l, WakeAll(s)) && SameButGrants(s, WakeAll(s))
    ensures WakeAll(s).free == 0 || WakeAll(s).queue == []
  {
    WakeAllGrants(s);
    GrantsKeep(l, s, WakeAll(s));
  }

  lemma WakeNextKeeps(l: Limits, s: Runner)
    requires Core(l, s)
    requires NoLostWakeup(s.(free := if s.free > 0 then s.free - 1 else 0))
    ensures Inv(l, WakeNext(s)) && SameButGrants(s, WakeNext(s))
  {
    WakeNextGrants(s);
    GrantsKeep(l, s, WakeNext(s));
  }

  /** A granted job enters fn when nobody depends on it to be woken. */
  lemma EnteredKeeps(l: Limits, s: Runner, j: JobId)
    requires Inv(l, s) && j in s.jobs && s.jobs[j].phase.Granted?
    requires s.free == 0 || s.queue == []
    ensures Inv(l, Entered(l, s, j))
  {
    var t := Entered(l, s, j);
    assert HistoryOk(s.jobs[j]) && TimesOk(l, s, s.jobs[j]);
    PutKeepsJobs(l, s, t, j);
    EnteredCounts(l, s, j);
  }

  lemma EnteredCounts(l: Limits, s: Runner, j: JobId)
    requires QueueOk(s) && CountsOk(l, s) && TasksOk(s) && ReadyOk(s)
    requires j in s.jobs && s.jobs[j].phase.Granted?
    ensures var t := Entered(l, s, j);
            QueueOk(t) && CountsOk(l, t) && TasksOk(t) && ReadyOk(t)
  {
    var t := Entered(l, s, j);
    OneJobCounts(l, s, t, j);
    OneJobQueue(s, t, j);
    OneJobTasks(s, t, j);
  }

  lemma ResumedGrantedKeeps(l: Limits, s: Runner, j: JobId)
    requires Inv(l, s) && j in s.jobs && s.jobs[j].phase.Granted?
    ensures Inv(l, ResumedGranted(l, s, j))
  {
    WakeAllKeeps(l, s);
    EnteredKeeps(l, WakeAll(s), j);
  }

  // ---- The first step ------------------------------------------------------

  lemma PoppedReady(s: Runner)
    requires ReadyOk(s) && s.ready != []
    ensures var rest := s.ready[1..];
      && s.ready[0] !in rest
      && (forall c :: c in s.ready && c != s.ready[0] ==> c in rest)
      && (forall c :: c in rest ==> c in s.ready)
      && (forall i, k :: 0 <= i < k < |rest| ==> rest[i] != rest[k])
  {
    assert s.ready == [s.ready[0]] + s.ready[1..];
  }

  /** A created job leaves the ready list for the wait queue. */
  lemma QueuedKeeps(l: Limits, s: Runner, j: JobId)
    requires Inv(l, s) && Enabled(l, s, RunReady) && s.ready[0] == FirstStep(j) && Locked(s)
    ensures Inv(l, RanReady(l, s))
  {
    var t := RanReady(l, s);
    assert FirstStep(j) in s.ready;
    assert HistoryOk(s.jobs[j]) && TimesOk(l, s, s.jobs[j]);
    PutKeepsJobs(l, s, t, j);
    PutKeepsClose(l, s, t, j);
    QueuedCounts(l, s, j);
    QueuedWakeup(l, s, j);
  }

  lemma QueuedWakeup(l: Limits, s: Runner, j: JobId)
    requires NoLostWakeup(s) && Enabled(l, s, RunReady) && s.ready[0] == FirstStep(j) && Locked(s)
    requires s.jobs[j].phase.Created?
    ensures NoLostWakeup(RanReady(l, s))
  {
    if s.free > 0 {
      var k :| k in s.jobs && OwedSlot(s.jobs[k].phase);
      assert OwedSlot(RanReady(l, s).jobs[k].phase);
    }
  }

  lemma QueuedCounts(l: Limits, s: Runner, j: JobId)
    requires QueueOk(s) && CountsOk(l, s) && TasksOk(s) && ReadyOk(s)
    requires Enabled(l, s, RunReady) && s.ready[0] == FirstStep(j) && Locked(s)
    ensures var t := RanReady(l, s);
            QueueOk(t) && CountsOk(l, t) && TasksOk(t) && ReadyOk(t)
  {
    var t := RanReady(l, s);
    assert FirstStep(j) in s.ready;
    assert t.jobs == s.jobs[j := t.jobs[j]];
    assert t == s.(ready := s.ready[1..], queue := s.queue + [j], jobs := t.jobs);
    OneJobCounts(l, s, t, j);
    QueuedOrder(s, t, j);
    assert Live(s.jobs[j].phase);
  }

  lemma QueuedOrder(s: Runner, t: Runner, j: JobId)
    requires QueueOk(s) && ReadyOk(s) && s.ready != [] && s.ready[0] == FirstStep(j)
    requires j in t.jobs && t.jobs[j].phase.Waiting? && t.jobs == s.jobs[j := t.jobs[j]]
    requires t == s.(ready := s.ready[1..], queue := s.queue + [j], jobs := t.jobs)
    ensures QueueOk(t) && ReadyOk(t)
  {
    assert FirstStep(j) in s.ready;
    PoppedReady(s);
  }

  /** The uncontended acquire() seen as a grant, before the job enters fn. */
  function Taken(l: Limits, s: Runner, j: JobId): Runner
    requires j in s.jobs && s.ready != [] && s.free > 0
  {
    s.(ready := s.ready[1..], free := s.free - 1,
       jobs := s.jobs[j := s.jobs[j].(giveUpAt := s.now + l.maxWait, phase := Granted)])
  }

  lemma TakenKeeps(l: Limits, s: Runner, j: JobId)
    requires Inv(l, s) && Enabled(l, s, RunReady) && s.ready[0] == FirstStep(j) && !Locked(s)
    ensures Inv(l, Taken(l, s, j))
  {
    var t := Taken(l, s, j);
    assert FirstStep(j) in s.ready;
    assert HistoryOk(s.jobs[j]) && TimesOk(l, s, s.jobs[j]);
    PutKeepsJobs(l, s, t, j);
    PutKeepsClose(l, s, t, j);
    TakenCounts(l, s, j);
  }

  lemma TakenCounts(l: Limits, s: Runner, j: JobId)
    requires QueueOk(s) && CountsOk(l, s) && TasksOk(s) && ReadyOk(s)
    requires Enabled(l, s, RunReady) && s.ready[0] == FirstStep(j) && !Locked(s)
    ensures var t := Taken(l, s, j);
            QueueOk(t) && CountsOk(l, t) && TasksOk(t) && ReadyOk(t)
  {
    var t := Taken(l, s, j);
    assert FirstStep(j) in s.ready;
    OneJobCounts(l, s, t, j);
    OneJobQueue(s, t, j);
    TakenOrder(s, t, j);
  }

  lemma TakenOrder(s: Runner, t: Runner, j: JobId)
    requires TasksOk(s) && ReadyOk(s) && s.ready != [] && s.ready[0] == FirstStep(j) && j in s.jobs && Replaces(s, t, j)
    requires t.ready == s.ready[1..] && t.tasks == s.tasks && t.closer == s.closer
    requires Live(s.jobs[j].phase) && t.jobs[j].phase.Granted?
    ensures TasksOk(t) && ReadyOk(t)
  {
    PoppedReady(s);
  }

  lemma FirstStepKeeps(l: Limits, s: Runner, j: JobId)
    requires Inv(l, s) && Enabled(l, s, RunReady) && s.ready[0] == FirstStep(j)
    ensures Inv(l, RanReady(l, s))
  {
    if Locked(s) {
      QueuedKeeps(l, s, j);
    } else {
      TakenKeeps(l, s, j);
      EnteredKeeps(l, Taken(l, s, j), j);
      UncontendedStart(l, s, j);
    }
  }

  lemma UncontendedStart(l: Limits, s: Runner, j: JobId)
    requires Enabled(l, s, RunReady) && s.ready[0] == FirstStep(j) && !Locked(s)
    ensures RanReady(l, s) == Entered(l, Taken(l, s, j), j)
  {
    assert RanReady(l, s).jobs == Entered(l, Taken(l, s, j), j).jobs;
  }

  // ---- Giving up the wait --------------------------------------------------

  lemma {:induction false} WithoutMeans(q: seq<JobId>, j: JobId)
    requires forall i, k :: 0 <= i < k < |q| ==> q[i] != q[k]
    ensures var w := Without(q, j);
      && (forall i, k :: 0 <= i < k < |w| ==> w[i] != w[k])
      && (forall k :: k in w <==> k in q && k != j)
  {
    if q != [] {
      var w, v := Without(q, j), Without(q[1..], j);
      WithoutMeans(q[1..], j);
      assert q == [q[0]] + q[1..];
      assert q[0] !in q[1..];
      assert w == if q[0] == j then v else [q[0]] + v;
    }
  }

  lemma WaitExpiredKeeps(l: Limits, s: Runner, j: JobId)
    requires Inv(l, s) && Enabled(l, s, WaitExpires(j))
    ensures Inv(l, WaitExpired(s, j))
  {
    var t := WaitExpired(s, j);
    assert HistoryOk(s.jobs[j]) && TimesOk(l, s, s.jobs[j]);
    WithoutMeans(s.queue, j);
    PutKeepsJobs(l, s, t, j);
    PutKeepsClose(l, s, t, j);
    WaitExpiredCounts(l, s, j);
    WaitExpiredWakeup(l, s, j);
  }

  lemma WaitExpiredWakeup(l: Limits, s: Runner, j: JobId)
    requires NoLostWakeup(s) && Enabled(l, s, WaitExpires(j))
    ensures NoLostWakeup(WaitExpired(s, j))
  {
    var t := WaitExpired(s, j);
    if t.free > 0 && t.queue != [] {
      assert s.queue != [];
      var k :| k in s.jobs && OwedSlot(s.jobs[k].phase);
      assert OwedSlot(t.jobs[k].phase);
    }
  }

  lemma WaitExpiredCounts(l: Limits, s: Runner, j: JobId)
    requires QueueOk(s) && CountsOk(l, s) && TasksOk(s) && ReadyOk(s) && Enabled(l, s, WaitExpires(j))
    ensures var t := WaitExpired(s, j);
            QueueOk(t) && CountsOk(l, t) && TasksOk(t) && ReadyOk(t)
  {
    var t := WaitExpired(s, j);
    OneJobCounts(l, s, t, j);
    OneJobTasks(s, t, j);
    WaitExpiredQueue(s, t, j);
  }

  lemma WaitExpiredQueue(s: Runner, t: Runner, j: JobId)
    requires QueueOk(s) && Replaces(s, t, j) && t.queue == Without(s.queue, j) && t.jobs[j].phase.Unwinding?
    ensures QueueOk(t)
  {
    WithoutMeans(s.queue, j);
  }

  // ---- Leaving acquire() cancelled -----------------------------------------

  lemma GaveBackKeeps(l: Limits, s: Runner, j: JobId)
    requires Inv(l, s) && j in s.jobs && s.jobs[j].phase.Unwinding?
    ensures Core(l, GaveBack(s, j))
  {
    var t := GaveBack(s, j);
    assert HistoryOk(s.jobs[j]) && TimesOk(l, s, s.jobs[j]);
    PutKeepsJobs(l, s, t, j);
    PutKeepsClose(l, s, t, j);
    GaveBackCounts(l, s, j);
  }

  lemma GaveBackCounts(l: Limits, s: Runner, j: JobId)
    requires QueueOk(s) && CountsOk(l, s) && TasksOk(s) && ReadyOk(s)
    requires j in s.jobs && s.jobs[j].phase.Unwinding?
    ensures var t := GaveBack(s, j);
            QueueOk(t) && CountsOk(l, t) && TasksOk(t) && ReadyOk(t)
  {
    var t := GaveBack(s, j);
    OneJobCounts(l, s, t, j);
    OneJobQueue(s, t, j);
    OneJobTasks(s, t, j);
  }

  lemma ResumedUnwindingKeeps(l: Limits, s: Runner, j: JobId)
    requires Inv(l, s) && j in s.jobs && s.jobs[j].phase.Unwinding?
    ensures Inv(l, ResumedUnwinding(s, j))
  {
    GaveBackKeeps(l, s, j);
    WakeAllKeeps(l, GaveBack(s, j));
    UnwoundJob(l, s, j);
    LeftLineKeeps(l, WakeAll(GaveBack(s, j)), ResumedUnwinding(s, j), j);
  }

  lemma UnwoundJob(l: Limits, s: Runner, j: JobId)
    requires JobsOk(l, s) && j in s.jobs && s.jobs[j].phase.Unwinding?
    requires SameButGrants(GaveBack(s, j), WakeAll(GaveBack(s, j)))
    ensures var w, t := WakeAll(GaveBack(s, j)), ResumedUnwinding(s, j);
      && j in w.jobs && w.jobs[j].phase == Unwinding(false)
      && j in t.jobs && t.jobs[j].phase == Marking(false)
      && t == w.(waiting := w.waiting - 1, jobs := w.jobs[j := t.jobs[j]])
      && HistoryOk(t.jobs[j]) && TimesOk(l, t, t.jobs[j])
      && t.jobs[j].interrupted == w.jobs[j].interrupted
  {
    assert HistoryOk(s.jobs[j]) && TimesOk(l, s, s.jobs[j]);
  }

  lemma LeftLineKeeps(l: Limits, w: Runner, t: Runner, j: JobId)
    requires Inv(l, w) && j in w.jobs && w.jobs[j].phase == Unwinding(false)
    requires j in t.jobs && t.jobs[j].phase == Marking(false)
    requires t == w.(waiting := w.waiting - 1, jobs := w.jobs[j := t.jobs[j]])
    requires HistoryOk(t.jobs[j]) && TimesOk(l, t, t.jobs[j])
    requires t.jobs[j].interrupted == w.jobs[j].interrupted
    ensures Inv(l, t)
  {
    PutKeepsJobs(l, w, t, j);
    PutKeepsClose(l, w, t, j);
    PutKeepsWakeup(w, t, j);
    LeftLineCounts(l, w, t, j);
  }

  lemma LeftLineCounts(l: Limits, w: Runner, t: Runner, j: JobId)
    requires QueueOk(w) && CountsOk(l, w) && TasksOk(w) && ReadyOk(w)
    requires j in w.jobs && w.jobs[j].phase == Unwinding(false)
    requires j in t.jobs && t.jobs[j].phase == Marking(false)
    requires t == w.(waiting := w.waiting - 1, jobs := w.jobs[j := t.jobs[j]])
    ensures QueueOk(t) && CountsOk(l, t) && TasksOk(t) && ReadyOk(t)
  {
    OneJobCounts(l, w, t, j);
    OneJobQueue(w, t, j);
    OneJobTasks(w, t, j);
  }

  lemma MarkEndedKeeps(l: Limits, s: Runner, j: JobId)
    requires Inv(l, s) && Enabled(l, s, MarkEnds(j))
    ensures Inv(l, MarkEnded(s, j))
  {
    var t := MarkEnded(s, j);
    assert HistoryOk(s.jobs[j]) && TimesOk(l, s, s.jobs[j]);
    PutKeepsJobs(l, s, t, j);
    PutKeepsClose(l, s, t, j);
    PutKeepsWakeup(s, t, j);
    MarkEndedCounts(l, s, j);
  }

  lemma MarkEndedCounts(l: Limits, s: Runner, j: JobId)
    requires QueueOk(s) && CountsOk(l, s) && TasksOk(s) && ReadyOk(s) && Enabled(l, s, MarkEnds(j))
    ensures var t := MarkEnded(s, j);
            QueueOk(t) && CountsOk(l, t) && TasksOk(t) && ReadyOk(t)
  {
    var t := MarkEnded(s, j);
    OneJobCounts(l, s, t, j);
    OneJobQueue(s, t, j);
    OneJobTasks(s, t, j);
  }

  // ---- Leaving fn ----------------------------------------------------------

  /** The job is off `_running_tasks` and logged; its slot is not released yet. */
  function Left(s: Runner, j: JobId, r: FnResult): Runner
    requires j in s.jobs
  {
    s.(free := s.free + 1, running := s.running - {j},
       jobs := s.jobs[j := s.jobs[j].(phase := Done, logged := s.jobs[j].logged + [RunOutcome(s.jobs[j], r)])])
  }

  lemma LeftKeeps(l: Limits, s: Runner, j: JobId, r: FnResult)
    requires Inv(l, s) && Enabled(l, s, FnEnds(j, r))
    ensures Core(l, Left(s, j, r))
  {
    var t := Left(s, j, r);
    assert HistoryOk(s.jobs[j]) && TimesOk(l, s, s.jobs[j]);
    LeftJob(l, s, t, j, r);
    PutKeepsJobs(l, s, t, j);
    PutKeepsClose(l, s, t, j);
    LeftCounts(l, s, j, r);
  }

  lemma LeftJob(l: Limits, s: Runner, t: Runner, j: JobId, r: FnResult)
    requires Enabled(l, s, FnEnds(j, r)) && t == Left(s, j, r)
    requires HistoryOk(s.jobs[j]) && TimesOk(l, s, s.jobs[j])
    ensures HistoryOk(t.jobs[j]) && TimesOk(l, t, t.jobs[j]) && t.jobs[j].interrupted == s.jobs[j].interrupted
    ensures t.jobs[j].phase.Done? && t.jobs[j].entered
  {}

  lemma LeftCounts(l: Limits, s: Runner, j: JobId, r: FnResult)
    requires QueueOk(s) && CountsOk(l, s) && TasksOk(s) && ReadyOk(s) && Enabled(l, s, FnEnds(j, r))
    ensures var t := Left(s, j, r);
            QueueOk(t) && CountsOk(l, t) && TasksOk(t) && ReadyOk(t)
  {
    var t := Left(s, j, r);
    OneJobCounts(l, s, t, j);
    OneJobQueue(s, t, j);
    OneJobTasks(s, t, j);
  }

  lemma FnEndedKeeps(l: Limits, s: Runner, j: JobId, r: FnResult)
    requires Inv(l, s) && Enabled(l, s, FnEnds(j, r))
    ensures Inv(l, FnEnded(s, j, r))
  {
    LeftKeeps(l, s, j, r);
    var t := Left(s, j, r);
    LeftWakeup(s, j, r);
    WakeNextKeeps(l, t);
    FnEndedIs(s, j, r);
  }

  lemma LeftWakeup(s: Runner, j: JobId, r: FnResult)
    requires NoLostWakeup(s) && j in s.jobs && s.jobs[j].phase.Running?
    ensures NoLostWakeup(Left(s, j, r).(free := s.free))
  {
    PutKeepsWakeup(s, Left(s, j, r).(free := s.free), j);
  }

  lemma FnEndedIs(s: Runner, j: JobId, r: FnResult)
    requires j in s.jobs
    ensures FnEnded(s, j, r) == WakeNext(Left(s, j, r))
  {}

  // ---- close() -------------------------------------------------------------

  lemma CloseKeeps(l: Limits, s: Runner)
    requires Inv(l, s) && Enabled(l, s, Close)
    ensures Inv(l, CloseBegun(s))
  {
    var t := CloseBegun(s);
    SameJobsOk(l, s, t);
    ClosedReady(l, s);
    if s.tasks == {} { IdleCloses(l, s, t); } else { BusyCloses(l, s, t); }
  }

  lemma BusyCloses(l: Limits, s: Runner, t: Runner)
    requires CloseOk(l, s) && s.closer.Open? && s.tasks != {} && t == CloseBegun(s)
    ensures CloseOk(l, t)
  {}

  lemma IdleCloses(l: Limits, s: Runner, t: Runner)
    requires Sane(l) && QueueOk(s) && TasksOk(s) && s.tasks == {} && t == CloseBegun(s)
    ensures CloseOk(l, t)
  {
    EmptyOrSome(s.queue);
    forall k | k in s.jobs ensures SealedJob(s.jobs[k]) { assert !Live(s.jobs[k].phase); }
  }

  lemma EmptyOrSome(q: seq<JobId>)
    ensures q == [] || exists j :: j in q
  {
    assert q != [] ==> q[0] in q;
  }

  lemma ClosedReady(l: Limits, s: Runner)
    requires ReadyOk(s) && s.closer.Open?
    ensures ReadyOk(CloseBegun(s))
  {
    assert CloseWakes !in s.ready;
    var t := CloseBegun(s);
    assert forall c :: c in t.ready <==> c in s.ready || (c == CloseWakes && s.tasks != {});
  }

  /** Because close() yields once, the pass finds every coroutine inside `_run`. */
  lemma NoneUnstartedAtPass(l: Limits, s: Runner, j: JobId)
    requires Inv(l, s) && Enabled(l, s, RunReady) && s.ready[0] == CloseWakes
    requires j in s.jobs
    ensures !s.jobs[j].phase.Created?
    ensures s.ready == [CloseWakes]
  {
    var last := |s.ready| - 1;
    assert s.ready[last] == CloseWakes;
    assert last == 0;
    assert s.ready == [CloseWakes];
  }

  lemma CancelInLineKind(job: Job)
    requires !job.phase.Created?
    ensures var c := CancelInLine(job);
      && Live(c.phase) == Live(job.phase) && InLine(c.phase) == InLine(job.phase)
      && Holds(c.phase) == Holds(job.phase) && c.phase.Running? == job.phase.Running?
      && c.phase.Rejected? == job.phase.Rejected? && !c.phase.Waiting? == (!job.phase.Waiting? || c != job)
  {}

  /** The counts cannot see the cancel pass; only the queue empties. */
  lemma PassCounts(l: Limits, s: Runner, t: Runner)
    requires CountsOk(l, s) && TasksOk(s)
    requires forall j :: j in s.jobs ==> !s.jobs[j].phase.Created?
    requires t == s.(ready := t.ready, queue := [], jobs := PassJobs(s))
    ensures CountsOk(l, t) && TasksOk(t)
  {
    forall j | j in s.jobs
      ensures InLine(t.jobs[j].phase) == InLine(s.jobs[j].phase) && Holds(t.jobs[j].phase) == Holds(s.jobs[j].phase)
      ensures Live(t.jobs[j].phase) == Live(s.jobs[j].phase) && t.jobs[j].phase.Running? == s.jobs[j].phase.Running?
      ensures t.jobs[j].phase.Rejected? == s.jobs[j].phase.Rejected?
    {
      CancelInLineKind(s.jobs[j]);
    }
    assert InLineJobs(t.jobs) == InLineJobs(s.jobs);
    assert Holders(t.jobs) == Holders(s.jobs);
  }

  lemma PassSeals(l: Limits, s: Runner, t: Runner)
    requires JobsOk(l, s) && TasksOk(s) && s.closed
    requires forall j :: j in s.jobs ==> !s.jobs[j].phase.Created?
    requires forall j :: j in s.jobs ==> !s.jobs[j].interrupted
    requires forall j :: j in s.running <==> j in s.jobs && s.jobs[j].phase.Running?
    requires t.now == s.now && t.closed && t.jobs == PassJobs(s)
    ensures JobsOk(l, t)
    ensures forall j :: j in t.jobs ==> SealedJob(t.jobs[j])
  {
    forall j | j in t.jobs ensures HistoryOk(t.jobs[j]) && TimesOk(l, t, t.jobs[j]) && SealedJob(t.jobs[j]) {
      assert HistoryOk(s.jobs[j]) && TimesOk(l, s, s.jobs[j]);
    }
  }

  /** Everything but the closer is as the end of a cancel pass leaves it. */
  lemma FinalWaitKeeps(l: Limits, s: Runner, t: Runner, since: real, tasks: set<JobId>)
    requires Sane(l) && QueueOk(s) && CountsOk(l, s) && NoLostWakeup(s) && TasksOk(s) && JobsOk(l, s)
    requires s.ready == [] || (forall i :: 0 <= i < |s.ready| ==> s.ready[i].FirstStep?)
    requires forall i, k :: 0 <= i < k < |s.ready| ==> s.ready[i] != s.ready[k]
    requires forall j :: FirstStep(j) in s.ready <==> j in s.jobs && s.jobs[j].phase.Created?
    requires s.closed && forall j :: j in s.jobs ==> SealedJob(s.jobs[j])
    requires forall j :: j in s.jobs && s.jobs[j].phase.Running? ==> s.jobs[j].interrupted
    requires since <= s.now <= since + l.grace && s.queue == []
    requires t == FinalWait(s, since, tasks)
    ensures Inv(l, t)
  {
    assert t == s.(closer := t.closer) && (t.closer.Returned? || t.closer.Finishing?);
    SameJobsOk(l, s, t);
    FinalWaitCloses(l, s, t, since, tasks);
  }

  lemma FinalWaitCloses(l: Limits, s: Runner, t: Runner, since: real, tasks: set<JobId>)
    requires Sane(l) && s.closed && s.queue == [] && since <= s.now <= since + l.grace
    requires forall j :: j in s.jobs ==> SealedJob(s.jobs[j])
    requires forall j :: j in s.jobs && s.jobs[j].phase.Running? ==> s.jobs[j].interrupted
    requires t == FinalWait(s, since, tasks)
    ensures CloseOk(l, t)
  {}

  lemma CancelPassKeeps(l: Limits, s: Runner)
    requires Inv(l, s) && Enabled(l, s, RunReady) && s.ready[0] == CloseWakes
    ensures Inv(l, RanReady(l, s))
  {
    var passed := s.(ready := [], queue := [], jobs := PassJobs(s));
    forall j | j in s.jobs ensures !s.jobs[j].phase.Created? { NoneUnstartedAtPass(l, s, j); }
    PassReady(l, s);
    PassCounts(l, s, passed);
    PassSeals(l, s, passed);
    assert s.running <= s.tasks by { assert forall j :: j in s.running ==> Live(s.jobs[j].phase); }
    PassEnds(l, s, passed);
  }

  lemma PassReady(l: Limits, s: Runner)
    requires Inv(l, s) && Enabled(l, s, RunReady) && s.ready[0] == CloseWakes
    ensures s.ready == [CloseWakes] && s.closer.since == s.now
  {
    assert s.ready[|s.ready| - 1] == CloseWakes;
  }

  lemma PassEnds(l: Limits, s: Runner, passed: Runner)
    requires Sane(l) && s.closed && Enabled(l, s, RunReady) && s.ready == [CloseWakes] && s.closer.since == s.now
    requires passed == s.(ready := [], queue := [], jobs := PassJobs(s))
    requires s.running <= s.tasks
    requires CountsOk(l, passed) && TasksOk(passed) && JobsOk(l, passed)
    requires forall j :: j in passed.jobs ==> SealedJob(passed.jobs[j])
    ensures Inv(l, RanReady(l, s))
  {
    var victims := Victims(s);
    assert victims == s.running;
    PassResult(l, s, passed, victims);
    if victims == {} {
      PassFinishes(l, passed, RanReady(l, s), s.tasks);
    } else {
      PassDrains(l, s, passed, RanReady(l, s), victims);
    }
  }

  lemma PassFinishes(l: Limits, passed: Runner, t: Runner, tasks: set<JobId>)
    requires Sane(l) && CountsOk(l, passed) && TasksOk(passed) && JobsOk(l, passed)
    requires passed.queue == [] && passed.ready == [] && passed.closed && passed.running == {}
    requires forall j :: j in passed.jobs ==> SealedJob(passed.jobs[j])
    requires t == FinalWait(passed, passed.now, tasks)
    ensures Inv(l, t)
  {
    FinalWaitKeeps(l, passed, t, passed.now, tasks);
  }

  lemma PassResult(l: Limits, s: Runner, passed: Runner, victims: set<JobId>)
    requires Enabled(l, s, RunReady) && s.ready == [CloseWakes]
    requires passed == s.(ready := [], queue := [], jobs := PassJobs(s))
    requires victims == Victims(s)
    ensures RanReady(l, s) ==
            if victims == {} then FinalWait(passed, s.closer.since, s.tasks)
            else passed.(closer := Draining(s.closer.since, s.now + l.grace, s.tasks, victims))
  {
    assert s.ready[1..] == [];
    var rest := s.(ready := []);
    assert PassJobs(rest) == PassJobs(s);
    assert rest.(queue := [], jobs := PassJobs(rest)) == passed;
    assert RanReady(l, s) == CancelPass(l, rest);
  }

  lemma PassDrains(l: Limits, s: Runner, passed: Runner, t: Runner, victims: set<JobId>)
    requires Sane(l) && CountsOk(l, passed) && TasksOk(passed) && JobsOk(l, passed)
    requires passed.queue == [] && passed.ready == [] && passed.closed
    requires forall j :: j in passed.jobs ==> SealedJob(passed.jobs[j])
    requires passed.running <= victims
    requires t == passed.(closer := Draining(passed.now, passed.now + l.grace, s.tasks, victims))
    ensures Inv(l, t)
  {
    SameJobsOk(l, passed, t);
  }

  lemma GraceCounts(l: Limits, s: Runner, victims: set<JobId>)
    requires QueueOk(s) && CountsOk(l, s) && TasksOk(s) && ReadyOk(s)
    ensures var t := s.(jobs := GraceJobs(s, victims));
            QueueOk(t) && CountsOk(l, t) && TasksOk(t) && ReadyOk(t)
  {
    var t := s.(jobs := GraceJobs(s, victims));
    assert forall j :: j in s.jobs ==> t.jobs[j].phase == s.jobs[j].phase;
    assert InLineJobs(t.jobs) == InLineJobs(s.jobs);
    assert Holders(t.jobs) == Holders(s.jobs);
  }

  lemma GraceJobsOk(l: Limits, s: Runner, victims: set<JobId>)
    requires JobsOk(l, s) && s.closed && s.running <= victims
    requires forall j :: j in s.running <==> j in s.jobs && s.jobs[j].phase.Running?
    requires forall j :: j in s.jobs ==> SealedJob(s.jobs[j])
    ensures var t := s.(jobs := GraceJobs(s, victims));
            && JobsOk(l, t)
            && (forall j :: j in t.jobs ==> SealedJob(t.jobs[j]))
            && (forall j :: j in t.jobs && t.jobs[j].phase.Running? ==> t.jobs[j].interrupted)
  {
    var t := s.(jobs := GraceJobs(s, victims));
    forall j | j in t.jobs
      ensures HistoryOk(t.jobs[j]) && TimesOk(l, t, t.jobs[j]) && SealedJob(t.jobs[j])
    {
      assert HistoryOk(s.jobs[j]) && TimesOk(l, s, s.jobs[j]) && SealedJob(s.jobs[j]);
    }
  }

  lemma GraceKeeps(l: Limits, s: Runner)
    requires Inv(l, s) && Enabled(l, s, GraceEnds)
    ensures Inv(l, GraceEnded(s))
  {
    var victims := s.closer.victims;
    var t := s.(jobs := GraceJobs(s, victims));
    GraceCounts(l, s, victims);
    GraceJobsOk(l, s, victims);
    NoWakeReady(s);
    FinalWaitKeeps(l, t, GraceEnded(s), s.closer.since, s.closer.tasks);
  }

  lemma NoWakeReady(s: Runner)
    requires ReadyOk(s) && !s.closer.Yielding?
    ensures forall i :: 0 <= i < |s.ready| ==> s.ready[i].FirstStep?
  {
    assert forall i :: 0 <= i < |s.ready| ==> s.ready[i] in s.ready;
  }

  lemma DrainKeeps(l: Limits, s: Runner)
    requires Inv(l, s) && Enabled(l, s, DrainEnds)
    ensures Inv(l, DrainEnded(s))
  {
    SameJobsOk(l, s, DrainEnded(s));
  }

  // ---- Every step ----------------------------------------------------------

  lemma StepKeeps(l: Limits, s: Runner, e: Event)
    requires Inv(l, s) && Enabled(l, s, e)
    ensures Inv(l, Apply(l, s, e))
  {
    match e
    case Submit(j) => SubmitKeeps(l, s, j);
    case RunReady =>
      match s.ready[0] {
        case FirstStep(j) => FirstStepKeeps(l, s, j);
        case CloseWakes => CancelPassKeeps(l, s);
      }
    case Resume(j) =>
      if s.jobs[j].phase.Granted? { ResumedGrantedKeeps(l, s, j); } else { ResumedUnwindingKeeps(l, s, j); }
    case WaitExpires(j) => WaitExpiredKeeps(l, s, j);
    case MarkEnds(j) => MarkEndedKeeps(l, s, j);
    case DeadlineFires(j) => DeadlineKeeps(l, s, j);
    case Deliver(j) => DeliverKeeps(l, s, j);
    case FnEnds(j, r) => FnEndedKeeps(l, s, j, r);
    case Discard(j) => DiscardKeeps(l, s, j);
    case Close => CloseKeeps(l, s);
    case GraceEnds => GraceKeeps(l, s);
    case DrainEnds => DrainKeeps(l, s);
    case Tick(to) => TickKeeps(l, s, to);
  }
}
