/** Claims about whole runs of the job runner, over every interleaving. */
module SchedulerRuns {
  import opened Messages
  import opened Scheduler
  import opened SchedulerInvariant
  import opened SchedulerSteps
  import opened SchedulerMoves
  import opened SchedulerFates

  ghost predicate Possible(l: Limits, s: Runner, es: seq<Event>)
    decreases |es|
  {
    es == [] || (Enabled(l, s, es[0]) && Possible(l, Apply(l, s, es[0]), es[1..]))
  }

  ghost function After(l: Limits, s: Runner, es: seq<Event>): Runner
    requires Possible(l, s, es)
    decreases |es|
  {
    if es == [] then s else After(l, Apply(l, s, es[0]), es[1..])
  }

  lemma {:induction false} RunKeeps(l: Limits, s: Runner, es: seq<Event>)
    requires Inv(l, s) && Possible(l, s, es)
    ensures Inv(l, After(l, s, es))
    decreases |es|
  {
    if es != [] {
      StepKeeps(l, s, es[0]);
      RunKeeps(l, Apply(l, s, es[0]), es[1..]);
    }
  }

  /** A state some run of a fresh runner ends in. */
  ghost predicate Reachable(l: Limits, s: Runner) {
    Sane(l) && exists start: real, es :: Possible(l, Init(l, start), es) && After(l, Init(l, start), es) == s
  }

  lemma ReachableInv(l: Limits, s: Runner)
    requires Reachable(l, s)
    ensures Inv(l, s)
  {
    var start: real, es :| Possible(l, Init(l, start), es) && After(l, Init(l, start), es) == s;
    InitHolds(l, start);
    RunKeeps(l, Init(l, start), es);
  }

  // ---- Conservation --------------------------------------------------------

  lemma SubsetSize(a: set<JobId>, b: set<JobId>)
    requires a <= b
    ensures |a| <= |b|
  {
    assert b == a + (b - a);
  }

  /** Slots and counters are conserved, and bound what runs and waits. */
  lemma SlotsConserved(l: Limits, s: Runner)
    requires Reachable(l, s)
    ensures s.free + |set j | j in s.jobs && Holds(s.jobs[j].phase)| == l.maxConcurrent
    ensures s.waiting == |set j | j in s.jobs && InLine(s.jobs[j].phase)|
    ensures s.running == set j | j in s.jobs && s.jobs[j].phase.Running?
    ensures |s.running| <= l.maxConcurrent && 0 <= s.waiting <= l.maxQueued
    ensures Judge(l, s).Busy? ==> s.waiting == l.maxQueued
  {
    ReachableInv(l, s);
    assert Holders(s.jobs) == set j | j in s.jobs && Holds(s.jobs[j].phase);
    assert InLineJobs(s.jobs) == set j | j in s.jobs && InLine(s.jobs[j].phase);
    assert s.running <= Holders(s.jobs);
    SubsetSize(s.running, Holders(s.jobs));
  }

  /** Whichever exit each job took, everything is handed back. */
  lemma AllHandedBack(l: Limits, s: Runner)
    requires Reachable(l, s) && forall j :: j in s.jobs ==> !Live(s.jobs[j].phase)
    ensures s.waiting == 0 && s.running == {} && s.free == l.maxConcurrent
    ensures s.queue == [] && forall j :: j in s.tasks ==> j in s.jobs && s.jobs[j].phase.Done?
  {
    ReachableInv(l, s);
    assert Holders(s.jobs) == {} && InLineJobs(s.jobs) == {};
    EmptyOrSome(s.queue);
  }

  /** A slot is never idle while a job waits: before the clock moves, either none is free or none waits. */
  lemma WorkConserving(l: Limits, s: Runner)
    requires Reachable(l, s) && Idle(s)
    ensures s.free == 0 || s.queue == []
  {
    ReachableInv(l, s);
  }

  // ---- One owner per outcome -----------------------------------------------

  /**
    A job either enters fn or has on_failure called, never both; once finished exactly one of
    the two; and it logs one event, unless close() cancelled it inside the never-started write.
   */
  lemma OneOwnerPerOutcome(l: Limits, s: Runner, j: JobId)
    requires Reachable(l, s) && j in s.jobs
    ensures var job := s.jobs[j];
      && !(job.entered && job.failures != [])
      && |job.failures| <= 1 && |job.logged| <= 1
      && (job.phase.Done? ==> (job.entered <==> job.failures == []))
      && (job.phase.Done? && job.logged == [] <==>
            job.phase.Done? && !job.entered && job.interrupted && job.failures == [BusyMessage])
      && (job.logged == [WaitTimeout] ==> job.failures == [BusyMessage])
      && (job.logged == [CancelledWaiting] ==> job.failures == [SweepMessage] && s.closed)
      && (job.logged == [CancelledRunning] ==> job.entered && s.closed)
      && (job.logged == [RejectedBusy] ==> !job.entered && job.failures == [])
  {
    ReachableInv(l, s);
    assert HistoryOk(s.jobs[j]) && TimesOk(l, s, s.jobs[j]);
  }

  /** What a run may do to every job. */
  ghost predicate Evolved(s: Runner, t: Runner) {
    && (forall j :: j in s.jobs ==> j in t.jobs && Grew(s.jobs[j], t.jobs[j]))
    && (s.closed ==> t.closed && t.jobs.Keys == s.jobs.Keys)
    && (PassDone(s.closer) ==> PassDone(t.closer))
    && (PassDone(s.closer) ==> forall j :: j in s.jobs && t.jobs[j].entered ==> s.jobs[j].entered)
  }

  lemma {:induction false} RunEvolves(l: Limits, s: Runner, es: seq<Event>)
    requires Inv(l, s) && Possible(l, s, es)
    ensures Evolved(s, After(l, s, es))
    decreases |es|
  {
    if es != [] {
      StepKeeps(l, s, es[0]);
      StepEvolves(l, s, es[0]);
      var m := Apply(l, s, es[0]);
      assert forall j :: j in s.jobs ==> Moved(s.jobs[j], m.jobs[j]);
      RunEvolves(l, m, es[1..]);
      EvolvedTrans(s, m, After(l, m, es[1..]));
    }
  }

  lemma EvolvedTrans(s: Runner, m: Runner, t: Runner)
    requires Evolved(s, m) && Evolved(m, t)
    ensures Evolved(s, t)
  {
    forall j | j in s.jobs ensures j in t.jobs && Grew(s.jobs[j], t.jobs[j]) {
      assert Grew(s.jobs[j], m.jobs[j]) && Grew(m.jobs[j], t.jobs[j]);
    }
  }

  // ---- Shutdown ------------------------------------------------------------

  /** From the cancel pass on: no submit is accepted and no job enters fn, however the run goes on. */
  lemma NothingStartsAfterPass(l: Limits, s: Runner, es: seq<Event>)
    requires Reachable(l, s) && PassDone(s.closer) && Possible(l, s, es)
    ensures var t := After(l, s, es);
      && t.jobs.Keys == s.jobs.Keys && Judge(l, t).Closed?
      && forall j :: j in s.jobs ==> (t.jobs[j].entered <==> s.jobs[j].entered)
  {
    ReachableInv(l, s);
    RunEvolves(l, s, es);
    assert forall j :: j in s.jobs ==> Grew(s.jobs[j], After(l, s, es).jobs[j]);
  }

  /**
    The pass misses nobody: a job not yet in fn is finished or its cancellation lands inside
    `_run`; once the grace period is over the same holds for the jobs inside fn.
   */
  lemma PassReachesEveryJob(l: Limits, s: Runner, j: JobId)
    requires Reachable(l, s) && PassDone(s.closer) && j in s.jobs && Live(s.jobs[j].phase)
    ensures !s.jobs[j].phase.Running? ==>
              s.jobs[j].interrupted && (s.jobs[j].phase.Unwinding? || s.jobs[j].phase.Marking?)
    ensures !s.closer.Draining? ==> s.jobs[j].interrupted
    ensures s.closer.Draining? && s.jobs[j].phase.Running? ==> j in s.closer.victims
  {
    ReachableInv(l, s);
    assert SealedJob(s.jobs[j]);
  }

  /** close() is back within the grace period plus CANCEL_DRAIN_SEC: no later state has it still waiting. */
  lemma CloseReturnsInTime(l: Limits, s: Runner)
    requires Reachable(l, s) && s.closed
    ensures s.closer.Returned? ==> s.closer.since <= s.closer.at <= s.closer.since + l.grace + 5.0
    ensures !s.closer.Open? && (!s.closer.Returned? ==> s.now <= s.closer.since + l.grace + 5.0)
  {
    ReachableInv(l, s);
  }

  // ---- The job that logs nothing -------------------------------------------

  /** A cancelled job that has not entered fn and was not told it was busy. */
  predicate Swept(job: Job) { job.interrupted && !job.entered && (InLine(job.phase) || job.failures == [SweepMessage]) }

  lemma {:induction false} StaysSwept(l: Limits, s: Runner, es: seq<Event>, j: JobId)
    requires Inv(l, s) && PassDone(s.closer) && Possible(l, s, es) && j in s.jobs && Swept(s.jobs[j])
    ensures j in After(l, s, es).jobs && Swept(After(l, s, es).jobs[j])
    decreases |es|
  {
    if es != [] {
      var t := Apply(l, s, es[0]);
      StepKeeps(l, s, es[0]);
      StepEvolves(l, s, es[0]);
      assert HistoryOk(t.jobs[j]) && Moved(s.jobs[j], t.jobs[j]);
      SweptMoves(s.jobs[j], t.jobs[j]);
      StaysSwept(l, t, es[1..], j);
    }
  }

  lemma SweptMoves(a: Job, b: Job)
    requires Swept(a) && Moved(a, b) && !b.entered && HistoryOk(b)
    ensures Swept(b)
  {}

  /** Before the cancel pass everybody who is done has logged. */
  lemma EverybodyLogsBeforePass(l: Limits, s: Runner, j: JobId)
    requires Reachable(l, s) && !PassDone(s.closer) && j in s.jobs && s.jobs[j].phase.Done?
    ensures |s.jobs[j].logged| == 1
  {
    ReachableInv(l, s);
    assert HistoryOk(s.jobs[j]);
  }

  /** A job whose failure was being recorded as busy when the pass found it. */
  lemma BusyEnds(a: Job, m: Job, t: Job)
    requires HistoryOk(a) && a.phase.Marking? && !a.interrupted && m == CancelInLine(a)
    requires HistoryOk(t) && Grew(m, t) && t.phase.Done?
    ensures t.logged == []
  {
    assert t.failures[0] == BusyMessage;
  }

  /** A job that was past its wait for a slot, one way or the other. */
  lemma PastLineEnds(a: Job, m: Job, t: Job)
    requires HistoryOk(a) && !InLine(a.phase) && !a.phase.Marking? && !a.interrupted && m == a
    requires HistoryOk(t) && Grew(m, t) && t.phase.Done?
    ensures t.logged != []
  {}

  lemma SweptEnds(t: Job)
    requires HistoryOk(t) && Swept(t) && t.phase.Done?
    ensures t.logged != []
  {}

  /** What the pass leaves of a job it found past its first step. */
  function Passed(job: Job): Job { if InLine(job.phase) || job.phase.Marking? then CancelInLine(job) else job }

  lemma PassMeets(l: Limits, s: Runner, j: JobId)
    requires Inv(l, s) && Enabled(l, s, RunReady) && s.ready[0] == CloseWakes && j in s.jobs
    ensures HistoryOk(s.jobs[j]) && !s.jobs[j].phase.Created? && !s.jobs[j].interrupted
    ensures var m := RanReady(l, s);
      Inv(l, m) && PassDone(m.closer) && j in m.jobs && m.jobs[j] == Passed(s.jobs[j])
  {
    StepKeeps(l, s, RunReady);
    PassShape(l, s);
    NoneUnstartedAtPass(l, s, j);
  }

  lemma RunEnds(l: Limits, m: Runner, es: seq<Event>, j: JobId)
    requires Inv(l, m) && Possible(l, m, es) && j in m.jobs
    ensures var t := After(l, m, es);
      j in t.jobs && HistoryOk(t.jobs[j]) && Grew(m.jobs[j], t.jobs[j])
  {
    RunKeeps(l, m, es);
    RunEvolves(l, m, es);
  }

  /** However the run goes on after the cancel pass, the jobs that end with no event are those it found in Marking. */
  lemma LogsNothingIff(l: Limits, s: Runner, es: seq<Event>, j: JobId)
    requires Reachable(l, s) && Enabled(l, s, RunReady) && s.ready[0] == CloseWakes && j in s.jobs
    requires Possible(l, RanReady(l, s), es)
    requires var t := After(l, RanReady(l, s), es); j in t.jobs && t.jobs[j].phase.Done?
    ensures After(l, RanReady(l, s), es).jobs[j].logged == [] <==> s.jobs[j].phase.Marking?
  {
    var m := RanReady(l, s);
    ReachableInv(l, s);
    PassMeets(l, s, j);
    RunEnds(l, m, es, j);
    var t := After(l, m, es);
    if InLine(s.jobs[j].phase) {
      StaysSwept(l, m, es, j);
      SweptEnds(t.jobs[j]);
    } else if s.jobs[j].phase.Marking? {
      BusyEnds(s.jobs[j], m.jobs[j], t.jobs[j]);
    } else {
      PastLineEnds(s.jobs[j], m.jobs[j], t.jobs[j]);
    }
  }

  // ---- Deadlines -----------------------------------------------------------

  /** A job enters fn within the wait cap, or not at all, and then keeps the rest of its budget. */
  lemma EntersWithinCap(l: Limits, s: Runner, j: JobId)
    requires Reachable(l, s) && j in s.jobs && s.jobs[j].entered
    ensures var job := s.jobs[j];
      && job.submittedAt <= job.enteredAt <= job.submittedAt + l.maxWait
      && (l.maxWait <= l.timeout ==>
            && job.runUntil == job.submittedAt + l.timeout
            && job.runUntil - job.enteredAt >= l.timeout - l.maxWait)
      && (job.phase.Running? && s.now > job.runUntil ==> job.timedOut)
      && (job.timedOut ==> s.now >= job.runUntil)
  {
    ReachableInv(l, s);
    assert TimesOk(l, s, s.jobs[j]);
  }

  /** Nobody is in line past its wait cap, in any state. */
  lemma NobodyWaitsPastCap(l: Limits, s: Runner, j: JobId)
    requires Reachable(l, s) && j in s.jobs && InLine(s.jobs[j].phase)
    ensures s.jobs[j].submittedAt <= s.now <= s.jobs[j].submittedAt + l.maxWait
  {
    ReachableInv(l, s);
    assert TimesOk(l, s, s.jobs[j]);
  }

  // ---- The clock is never stuck --------------------------------------------

  /** Steps the clock waits for. */
  predicate Awaited(s: Runner, e: Event) {
    || e.RunReady? || e.Resume? || e.WaitExpires? || e.DeadlineFires? || e.Deliver? || e.GraceEnds? || e.DrainEnds?
    || (e.MarkEnds? && e.job in s.jobs && s.jobs[e.job].phase == Marking(true))
  }

  ghost predicate StepDue(l: Limits, s: Runner) { exists e :: Awaited(s, e) && Enabled(l, s, e) }

  /** No armed timer of the job is up. */
  predicate TimerClear(job: Job, now: real) {
    && (job.phase.Waiting? ==> now < job.giveUpAt)
    && (job.phase.Running? && !job.timedOut ==> now < job.runUntil)
  }

  predicate CloserClear(c: Closer, now: real) { c.Draining? || c.Finishing? ==> now < c.until }

  predicate AllTimersAllow(jobs: map<JobId, Job>, t: real) {
    forall j :: j in jobs ==> TimerAllows(jobs[j], t)
  }

  lemma {:induction false} Clearance(jobs: map<JobId, Job>, now: real, cap: real) returns (t: real)
    requires now < cap
    requires forall j :: j in jobs ==> TimerClear(jobs[j], now)
    ensures now < t <= cap && AllTimersAllow(jobs, t)
    ensures t == cap || exists j :: j in jobs && !TimerClear(jobs[j], t)
    decreases |jobs|
  {
    if jobs == map[] {
      t := cap;
    } else {
      var j :| j in jobs;
      var job := jobs[j];
      var rest := jobs - {j};
      assert |rest| < |jobs| by { assert rest.Keys == jobs.Keys - {j}; }
      var at := if job.phase.Waiting? then job.giveUpAt
                else if job.phase.Running? && !job.timedOut then job.runUntil else cap;
      t := Clearance(rest, now, if at < cap then at else cap);
      forall k | k in jobs ensures TimerAllows(jobs[k], t) {
        assert k == j || k in rest;
      }
      if t < cap {
        var k :| k in jobs && (k == j || k in rest) && !TimerClear(jobs[k], t);
      }
    }
  }

  lemma UrgentDue(l: Limits, s: Runner, j: JobId)
    requires j in s.jobs && Urgent(s.jobs[j]) && TimesOk(l, s, s.jobs[j])
    ensures StepDue(l, s)
  {
    var e := if s.jobs[j].cancelPending then Deliver(j)
             else if s.jobs[j].phase.Marking? then MarkEnds(j) else Resume(j);
    assert Awaited(s, e) && Enabled(l, s, e);
  }

  lemma TimerDue(l: Limits, s: Runner, j: JobId)
    requires j in s.jobs && !TimerClear(s.jobs[j], s.now)
    ensures StepDue(l, s)
  {
    var e := if s.jobs[j].phase.Waiting? then WaitExpires(j) else DeadlineFires(j);
    assert Awaited(s, e) && Enabled(l, s, e);
  }

  lemma CloserDue(l: Limits, s: Runner)
    requires !CloserClear(s.closer, s.now)
    ensures StepDue(l, s)
  {
    var e := if s.closer.Draining? then GraceEnds else DrainEnds;
    assert Awaited(s, e) && Enabled(l, s, e);
  }

  lemma TimePasses(l: Limits, s: Runner, cap: real) returns (t: real)
    requires s.now < cap && Idle(s) && CloserClear(s.closer, s.now)
    requires forall j :: j in s.jobs ==> TimerClear(s.jobs[j], s.now)
    ensures t <= cap && Enabled(l, s, Tick(t)) && (t == cap || StepDue(l, s.(now := t)))
  {
    var until := if s.closer.Draining? || s.closer.Finishing? then s.closer.until else cap;
    t := Clearance(s.jobs, s.now, if until < cap then until else cap);
    var later := s.(now := t);
    if j :| j in s.jobs && !TimerClear(s.jobs[j], t) {
      TimerDue(l, later, j);
    } else if t < cap {
      CloserDue(l, later);
    }
  }

  /**
    Either the loop has a step to take that the clock waits for, or the clock can move: as far as is
    asked, or until there is such a step.
   */
  lemma ClockMoves(l: Limits, s: Runner, cap: real)
    requires Inv(l, s) && s.now < cap
    ensures StepDue(l, s)
            || exists t :: t <= cap && Enabled(l, s, Tick(t)) && (t == cap || StepDue(l, s.(now := t)))
  {
    if s.ready != [] {
      assert s.ready[0] in s.ready;
      assert Awaited(s, RunReady) && Enabled(l, s, RunReady);
    } else if j :| j in s.jobs && Urgent(s.jobs[j]) {
      UrgentDue(l, s, j);
    } else if j :| j in s.jobs && !TimerClear(s.jobs[j], s.now) {
      TimerDue(l, s, j);
    } else if !CloserClear(s.closer, s.now) {
      CloserDue(l, s);
    } else {
      var t := TimePasses(l, s, cap);
    }
  }

  /** Every bound on the clock is one the loop can act on: either it has a step to take or time can pass. */
  lemma ClockNeverStuck(l: Limits, s: Runner)
    requires Reachable(l, s)
    ensures (exists e :: Awaited(s, e) && Enabled(l, s, e)) || (exists t :: Enabled(l, s, Tick(t)))
  {
    ReachableInv(l, s);
    ClockMoves(l, s, s.now + 1.0);
  }

  // ---- First come, first served --------------------------------------------

  /** In q, a stands before b. */
  ghost predicate Ahead(q: seq<JobId>, a: JobId, b: JobId) {
    exists i, k :: 0 <= i < k < |q| && q[i] == a && q[k] == b
  }

  lemma AheadOfTail(q: seq<JobId>, a: JobId, b: JobId)
    requires q != []
    ensures Ahead(q, a, b) <==> (q[0] == a && b in q[1..]) || Ahead(q[1..], a, b)
  {
    if i, k :| 0 <= i < k < |q| && q[i] == a && q[k] == b {
      assert q[1..][k - 1] == b;
      if i > 0 { assert q[1..][i - 1] == a && q[1..][k - 1] == b; }
    }
    if q[0] == a && b in q[1..] {
      var k :| 0 <= k < |q[1..]| && q[1..][k] == b;
      assert q[0] == a && q[k + 1] == b;
    }
    if Ahead(q[1..], a, b) {
      var i, k :| 0 <= i < k < |q[1..]| && q[1..][i] == a && q[1..][k] == b;
      assert q[i + 1] == a && q[k + 1] == b;
    }
  }

  lemma {:induction false} WithoutKeepsOrder(q: seq<JobId>, j: JobId, a: JobId, b: JobId)
    requires Ahead(q, a, b) && a != j && b != j
    ensures Ahead(Without(q, j), a, b)
  {
    AheadOfTail(q, a, b);
    var w := Without(q[1..], j);
    if q[0] != j {
      assert Without(q, j)[1..] == w;
      AheadOfTail(Without(q, j), a, b);
    }
    if Ahead(q[1..], a, b) { WithoutKeepsOrder(q[1..], j, a, b); } else { WithoutHas(q[1..], j, b); }
  }

  lemma {:induction false} WithoutHas(q: seq<JobId>, j: JobId, b: JobId)
    requires b in q && b != j
    ensures b in Without(q, j)
  {
    if q[0] != b {
      WithoutHas(q[1..], j, b);
    }
  }

  /** Waking takes waiters off the front only. */
  lemma {:induction false} WakeAllFront(s: Runner, a: JobId, b: JobId)
    requires forall i, k :: 0 <= i < k < |s.queue| ==> s.queue[i] != s.queue[k]
    requires Ahead(s.queue, a, b) && a in WakeAll(s).queue
    ensures Ahead(WakeAll(s).queue, a, b)
    decreases |s.queue|
  {
    if s.free > 0 && s.queue != [] {
      AheadOfTail(s.queue, a, b);
      WakeAllTail(WakeNext(s), a);
      assert a != s.queue[0];
      WakeAllFront(WakeNext(s), a, b);
    }
  }

  lemma {:induction false} WakeAllTail(s: Runner, a: JobId)
    requires a in WakeAll(s).queue
    ensures a in s.queue
    decreases |s.queue|
  {
    if s.free > 0 && s.queue != [] {
      WakeAllTail(WakeNext(s), a);
    }
  }

  lemma WakeNextFront(s: Runner, a: JobId, b: JobId)
    requires forall i, k :: 0 <= i < k < |s.queue| ==> s.queue[i] != s.queue[k]
    requires Ahead(s.queue, a, b) && a in WakeNext(s).queue
    ensures Ahead(WakeNext(s).queue, a, b)
  {
    AheadOfTail(s.queue, a, b);
  }

  lemma AppendKeepsOrder(q: seq<JobId>, j: JobId, a: JobId, b: JobId)
    requires Ahead(q, a, b)
    ensures Ahead(q + [j], a, b)
  {
    var i, k :| 0 <= i < k < |q| && q[i] == a && q[k] == b;
    assert (q + [j])[i] == a && (q + [j])[k] == b;
  }

  lemma ResumeKeepsOrder(l: Limits, s: Runner, j: JobId, a: JobId, b: JobId)
    requires forall i, k :: 0 <= i < k < |s.queue| ==> s.queue[i] != s.queue[k]
    requires Enabled(l, s, Resume(j)) && Ahead(s.queue, a, b) && a in Resumed(l, s, j).queue
    ensures Ahead(Resumed(l, s, j).queue, a, b)
  {
    WakeAllFront(if s.jobs[j].phase.Granted? then s else GaveBack(s, j), a, b);
  }

  lemma FirstStepKeepsOrder(l: Limits, s: Runner, a: JobId, b: JobId)
    requires Enabled(l, s, RunReady) && Ahead(s.queue, a, b) && a in RanReady(l, s).queue
    ensures Ahead(RanReady(l, s).queue, a, b)
  {
    if s.ready[0].FirstStep? { AppendKeepsOrder(s.queue, s.ready[0].job, a, b); }
  }

  /** A waiter is never overtaken: while it stays in line, whoever is behind it stays behind or gives up. */
  lemma NoOvertaking(l: Limits, s: Runner, e: Event, a: JobId, b: JobId)
    requires Inv(l, s) && Enabled(l, s, e) && Ahead(s.queue, a, b)
    requires a in Apply(l, s, e).queue
    ensures Ahead(Apply(l, s, e).queue, a, b) || e == WaitExpires(b)
  {
    match e
    case WaitExpires(j) => ExpiryKeepsOrder(s, j, a, b);
    case Resume(j) => ResumeKeepsOrder(l, s, j, a, b);
    case FnEnds(j, r) => FnEndKeepsOrder(s, j, r, a, b);
    case RunReady => FirstStepKeepsOrder(l, s, a, b);
    case _ => QueueUntouched(l, s, e);
  }

  lemma FnEndKeepsOrder(s: Runner, j: JobId, r: FnResult, a: JobId, b: JobId)
    requires QueueOk(s) && j in s.jobs && Ahead(s.queue, a, b) && a in FnEnded(s, j, r).queue
    ensures Ahead(FnEnded(s, j, r).queue, a, b)
  {
    FnEndedIs(s, j, r);
    WakeNextFront(Left(s, j, r), a, b);
  }

  lemma ExpiryKeepsOrder(s: Runner, j: JobId, a: JobId, b: JobId)
    requires QueueOk(s) && j in s.jobs && Ahead(s.queue, a, b) && a in WaitExpired(s, j).queue
    ensures Ahead(WaitExpired(s, j).queue, a, b) || j == b
  {
    WithoutMeans(s.queue, j);
    if j != b { WithoutKeepsOrder(s.queue, j, a, b); }
  }

  lemma QueueUntouched(l: Limits, s: Runner, e: Event)
    requires Enabled(l, s, e) && !e.WaitExpires? && !e.Resume? && !e.FnEnds? && !e.RunReady?
    ensures Apply(l, s, e).queue == s.queue
  {}

  // ---- ... over whole runs -------------------------------------------------

  /** The job waits for its slot in every state of the run. */
  ghost predicate StaysInLine(l: Limits, s: Runner, es: seq<Event>, a: JobId)
    requires Possible(l, s, es)
    decreases |es|
  {
    a in s.queue && (es == [] || StaysInLine(l, Apply(l, s, es[0]), es[1..], a))
  }

  /** Its wait timed out, and it has no slot to come. */
  predicate GaveUp(job: Job) {
    !job.entered && (job.phase == Unwinding(false) || job.phase.Marking? || job.phase.Done?)
  }

  ghost predicate Behind(s: Runner, a: JobId, b: JobId) {
    b in s.jobs && (Ahead(s.queue, a, b) || GaveUp(s.jobs[b]))
  }

  lemma GivesUpForGood(l: Limits, s: Runner, e: Event, b: JobId)
    requires Inv(l, s) && Enabled(l, s, e) && b in s.jobs && GaveUp(s.jobs[b])
    ensures b in Apply(l, s, e).jobs && GaveUp(Apply(l, s, e).jobs[b])
  {
    StepTakes(l, s, e, b);
    if e.RunReady? { assert s.ready[0] in s.ready; }
    GaveUpTakes(l, s, e, b, Apply(l, s, e).jobs[b]);
  }

  lemma GaveUpTakes(l: Limits, s: Runner, e: Event, b: JobId, job: Job)
    requires Enabled(l, s, e) && b in s.jobs && GaveUp(s.jobs[b]) && Took(l, s, e, b, s.jobs[b], job)
    requires e.RunReady? && s.ready[0] == FirstStep(b) ==> s.jobs[b].phase.Created?
    ensures GaveUp(job)
  {}

  lemma StaysBehind(l: Limits, s: Runner, e: Event, a: JobId, b: JobId)
    requires Inv(l, s) && Enabled(l, s, e) && Behind(s, a, b) && a in Apply(l, s, e).queue
    ensures Behind(Apply(l, s, e), a, b)
  {
    StepTakes(l, s, e, b);
    if Ahead(s.queue, a, b) {
      NoOvertaking(l, s, e, a, b);
      assert HistoryOk(s.jobs[b]);
    } else {
      GivesUpForGood(l, s, e, b);
    }
  }

  lemma {:induction false} RunStaysBehind(l: Limits, s: Runner, es: seq<Event>, a: JobId, b: JobId)
    requires Inv(l, s) && Possible(l, s, es) && Behind(s, a, b) && StaysInLine(l, s, es, a)
    ensures Inv(l, After(l, s, es)) && Behind(After(l, s, es), a, b)
    decreases |es|
  {
    if es != [] {
      StepKeeps(l, s, es[0]);
      StaysBehind(l, s, es[0], a, b);
      RunStaysBehind(l, Apply(l, s, es[0]), es[1..], a, b);
    }
  }

  /**
    First come, first served: along any run in which a waits, whoever was behind it is given no slot
    and does not enter fn.
   */
  lemma FirstComeFirstServed(l: Limits, s: Runner, es: seq<Event>, a: JobId, b: JobId)
    requires Reachable(l, s) && Possible(l, s, es) && Ahead(s.queue, a, b) && StaysInLine(l, s, es, a)
    ensures var t := After(l, s, es);
      b in t.jobs && !t.jobs[b].entered && !Holds(t.jobs[b].phase) && (b in t.queue ==> Ahead(t.queue, a, b))
  {
    ReachableInv(l, s);
    assert b in s.queue;
    RunStaysBehind(l, s, es, a, b);
    assert HistoryOk(After(l, s, es).jobs[b]);
  }
}
