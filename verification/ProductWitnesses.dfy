/**
  Concrete runs that show where the promises end: a threshold that is too small, a cancellation
  inside the unshielded failure write, and one that lands after the row was completed.
 */
module ProductWitnesses {
  import opened Messages
  import opened Scheduler
  import opened SchedulerInvariant
  import opened Rows
  import opened Product
  import opened ProductClocks
  import opened ProductRuns
  import opened ProductClaims

  /** Settings under which a job can be admitted and run. */
  predicate Admits(p: Params) {
    && Sane(p.limits) && Calm(p) && p.limits.maxConcurrent >= 1 && p.limits.maxQueued >= 1
    && p.limits.timeout > 0.0
  }

  const REVIEW := RowId(Reviews, 0)

  /** Some run from an empty store ends in w; the threshold may be anything. */
  ghost predicate Arises(p: Params, w: World) {
    exists acts :: Possible(p, Start(p, map[], 0.0), acts) && After(p, Start(p, map[], 0.0), acts) == w
  }

  lemma ArisesThen(p: Params, w: World, a: Action)
    requires Arises(p, w) && CanDo(p, w, a)
    ensures Arises(p, Do(p, w, a))
  {
    var acts :| Possible(p, Start(p, map[], 0.0), acts) && After(p, Start(p, map[], 0.0), acts) == w;
    RunThen(p, Start(p, map[], 0.0), acts, a);
    assert Possible(p, Start(p, map[], 0.0), acts + [a]);
  }

  lemma ArisesAtStart(p: Params)
    ensures Arises(p, Start(p, map[], 0.0))
  {
    assert Possible(p, Start(p, map[], 0.0), []);
    assert After(p, Start(p, map[], 0.0), []) == Start(p, map[], 0.0);
  }

  // ---- One review, up to its task function ---------------------------------

  /** The row was inserted at 0; its request has not submitted the job yet. */
  function Inserted(p: Params, now: real): World {
    World(Init(p.limits, now), map[REVIEW := Pending(7, 0.0)], map[REVIEW := Submitting],
          map[], map[], map[], map[], map[], {})
  }

  lemma InsertedArises(p: Params)
    ensures Arises(p, Inserted(p, 0.0))
  {
    var w := Start(p, map[], 0.0);
    ArisesAtStart(p);
    assert Siblings(w.rows, REVIEW, 7) == {};
    assert CanDo(p, w, Enqueue(REVIEW, 7));
    ArisesThen(p, w, Enqueue(REVIEW, 7));
    assert Do(p, w, Enqueue(REVIEW, 7)) == Inserted(p, 0.0);
  }

  lemma InsertedWaits(p: Params, d: real)
    requires Arises(p, Inserted(p, 0.0)) && 0.0 <= d <= p.gap
    ensures Arises(p, Inserted(p, d))
  {
    if d > 0.0 {
      assert CanDo(p, Inserted(p, 0.0), Loop(Tick(d)));
      ArisesThen(p, Inserted(p, 0.0), Loop(Tick(d)));
      assert Do(p, Inserted(p, 0.0), Loop(Tick(d))) == Inserted(p, d);
    }
  }

  /** The job, submitted and entered at `at`. */
  function TheJob(p: Params, at: real): Job {
    NewJob(at).(giveUpAt := at + p.limits.maxWait, phase := Running, entered := true,
                runUntil := Max(at, at + p.limits.timeout))
  }

  /** A world with that one job inside fn. */
  function Alone(p: Params, now: real, job: Job, row: Row, f: FnPhase, writes: map<JobId, Write>,
                 told: map<JobId, Message>, stranded: set<RowId>): World
    requires p.limits.maxConcurrent >= 1
  {
    World(
      Runner(now, p.limits.maxConcurrent - 1, [], 0, {0}, {0}, false, [], Open, map[0 := job]),
      map[REVIEW := row], map[], map[0 := REVIEW], map[0 := f], writes, told, map[REVIEW := 0], stranded)
  }

  function Accepted0(p: Params, at: real): World {
    World(
      Runner(at, p.limits.maxConcurrent, [], 1, {0}, {}, false, [FirstStep(0)], Open, map[0 := NewJob(at)]),
      map[REVIEW := Pending(7, 0.0)], map[], map[0 := REVIEW], map[], map[], map[], map[REVIEW := 0], {})
  }

  lemma AcceptedArises(p: Params, at: real)
    requires Admits(p) && Arises(p, Inserted(p, at))
    ensures Arises(p, Accepted0(p, at))
  {
    ArisesThen(p, Inserted(p, at), SubmitRow(REVIEW, 0));
    assert Do(p, Inserted(p, at), SubmitRow(REVIEW, 0)) == Accepted0(p, at);
  }

  function Entered0(p: Params, at: real): World
    requires p.limits.maxConcurrent >= 1
  {
    Alone(p, at, TheJob(p, at), Pending(7, 0.0), Working, map[], map[], {})
  }

  lemma EnteredArises(p: Params, at: real)
    requires Admits(p) && Arises(p, Accepted0(p, at))
    ensures Arises(p, Entered0(p, at))
  {
    var w := Accepted0(p, at);
    EntersAtOnce(p, at);
    ArisesThen(p, w, Loop(RunReady));
    assert Do(p, w, Loop(RunReady)) == Entered0(p, at);
  }

  lemma EntersAtOnce(p: Params, at: real)
    requires Admits(p)
    ensures Enabled(p.limits, Accepted0(p, at).r, RunReady)
    ensures RanReady(p.limits, Accepted0(p, at).r) == Entered0(p, at).r
  {
    assert Accepted0(p, at).r.ready[1..] == [];
    assert map[0 := NewJob(at)][0 := TheJob(p, at)] == map[0 := TheJob(p, at)];
  }

  lemma EntersAfter(p: Params, gap: real)
    requires Admits(p) && 0.0 <= gap <= p.gap
    ensures Arises(p, Entered0(p, gap))
  {
    InsertedArises(p);
    InsertedWaits(p, gap);
    AcceptedArises(p, gap);
    EnteredArises(p, gap);
  }

  // ---- Its deadline --------------------------------------------------------

  /** The clock moves on while the job is inside fn and no write is in flight. */
  lemma AloneWaits(p: Params, now: real, to: real, job: Job, row: Row, f: FnPhase, told: map<JobId, Message>)
    requires Admits(p) && job.phase.Running? && !job.cancelPending && !job.timedOut && now <= to <= job.runUntil
    requires Arises(p, Alone(p, now, job, row, f, map[], told, {}))
    ensures Arises(p, Alone(p, to, job, row, f, map[], told, {}))
  {
    var w := Alone(p, now, job, row, f, map[], told, {});
    if now < to {
      AloneTicks(p, now, to, job, row, f, told);
      ArisesThen(p, w, Loop(Tick(to)));
    }
  }

  lemma AloneTicks(p: Params, now: real, to: real, job: Job, row: Row, f: FnPhase, told: map<JobId, Message>)
    requires Admits(p) && job.phase.Running? && !job.cancelPending && !job.timedOut && now < to <= job.runUntil
    ensures var w := Alone(p, now, job, row, f, map[], told, {});
      CanLoop(p, w, Tick(to)) && Looping(p, w, Tick(to)) == Alone(p, to, job, row, f, map[], told, {})
  {}

  function Overdue(job: Job): Job { job.(timedOut := true, cancelPending := true) }

  lemma AloneTimesOut(p: Params, job: Job, row: Row, f: FnPhase, told: map<JobId, Message>)
    requires Admits(p) && job.phase.Running? && !job.timedOut
    requires Arises(p, Alone(p, job.runUntil, job, row, f, map[], told, {}))
    ensures Arises(p, Alone(p, job.runUntil, Overdue(job), row, f, map[], told, {}))
  {
    DeadlineIs(p, job, row, f, told);
    ArisesThen(p, Alone(p, job.runUntil, job, row, f, map[], told, {}), Loop(DeadlineFires(0)));
  }

  lemma DeadlineIs(p: Params, job: Job, row: Row, f: FnPhase, told: map<JobId, Message>)
    requires Admits(p) && job.phase.Running? && !job.timedOut
    ensures var w := Alone(p, job.runUntil, job, row, f, map[], told, {});
      && CanLoop(p, w, DeadlineFires(0))
      && Looping(p, w, DeadlineFires(0)) == Alone(p, job.runUntil, Overdue(job), row, f, map[], told, {})
  {
    var w := Alone(p, job.runUntil, job, row, f, map[], told, {});
    assert DeadlineFired(w.r, 0).jobs == map[0 := Overdue(job)];
  }

  /** The deadline fires while the task function is at f. */
  lemma ReachesDeadline(p: Params, now: real, job: Job, row: Row, f: FnPhase, told: map<JobId, Message>)
    requires Admits(p) && job.phase.Running? && !job.cancelPending && !job.timedOut && now <= job.runUntil
    requires Arises(p, Alone(p, now, job, row, f, map[], told, {}))
    ensures Arises(p, Alone(p, job.runUntil, Overdue(job), row, f, map[], told, {}))
  {
    AloneWaits(p, now, job.runUntil, job, row, f, told);
    AloneTimesOut(p, job, row, f, told);
  }

  function Cancelled(job: Job): Job { job.(timedOut := true, cancelPending := false) }

  // ---- A lost failure write ------------------------------------------------

  lemma TaskRaises(p: Params)
    requires Admits(p)
    ensures Arises(p, Alone(p, 0.0, TheJob(p, 0.0), Pending(7, 0.0), FailureWrite(SweepMessage), map[],
                            map[0 := SweepMessage], {}))
  {
    EntersAfter(p, 0.0);
    var w := Entered0(p, 0.0);
    assert w.fn[0 := FailureWrite(SweepMessage)] == map[0 := FailureWrite(SweepMessage)];
    assert FnRaised(w, 0, Other) ==
      Alone(p, 0.0, TheJob(p, 0.0), Pending(7, 0.0), FailureWrite(SweepMessage), map[], map[0 := SweepMessage], {});
    ArisesThen(p, w, FnRaises(0, Other));
  }

  /**
    The deadline can land inside the unshielded failure write of a task: the row is left
    processing with no request and no job behind it, and the job logs that it timed out.
   */
  lemma FailureWriteCanBeLost(p: Params)
    requires Admits(p)
    ensures exists w :: Arises(p, w) && REVIEW in w.rows && w.rows[REVIEW].status == Processing
              && w.handlers == map[] && w.writes == map[] && Writers(w, REVIEW) == {}
              && 0 in w.r.jobs && w.r.jobs[0].phase.Done? && w.r.jobs[0].logged == [RunTimeout]
  {
    var job, row, told := TheJob(p, 0.0), Pending(7, 0.0), map[0 := SweepMessage];
    TaskRaises(p);
    ReachesDeadline(p, 0.0, job, row, FailureWrite(SweepMessage), told);
    WriteLost(p, job, row, told);
    JobLeaves(p, Cancelled(job), row, told);
  }

  lemma WriteLost(p: Params, job: Job, row: Row, told: map<JobId, Message>)
    requires Admits(p) && job.phase.Running?
    requires Arises(p, Alone(p, job.runUntil, Overdue(job), row, FailureWrite(SweepMessage), map[], told, {}))
    ensures Arises(p, Alone(p, job.runUntil, Cancelled(job), row, Leaving(CancelledOut), map[], told, {REVIEW}))
  {
    LostIs(p, job, row, told);
    ArisesThen(p, Alone(p, job.runUntil, Overdue(job), row, FailureWrite(SweepMessage), map[], told, {}),
               CancelReaches(0, false));
  }

  lemma LostIs(p: Params, job: Job, row: Row, told: map<JobId, Message>)
    requires Admits(p) && job.phase.Running?
    ensures var w := Alone(p, job.runUntil, Overdue(job), row, FailureWrite(SweepMessage), map[], told, {});
      && CanCancel(p, w, 0, false)
      && CancelReached(w, 0, false) ==
         Alone(p, job.runUntil, Cancelled(job), row, Leaving(CancelledOut), map[], told, {REVIEW})
  {
    var w := Alone(p, job.runUntil, Overdue(job), row, FailureWrite(SweepMessage), map[], told, {});
    assert Delivered(w.r, 0).jobs == map[0 := Cancelled(job)];
    assert w.fn[0 := Leaving(CancelledOut)] == map[0 := Leaving(CancelledOut)];
  }

  lemma JobLeaves(p: Params, job: Job, row: Row, told: map<JobId, Message>)
    requires Admits(p) && job.phase.Running? && job.timedOut && !job.interrupted && !job.cancelPending
    requires job.logged == [] && row.status == Processing
    requires Arises(p, Alone(p, job.runUntil, job, row, Leaving(CancelledOut), map[], told, {REVIEW}))
    ensures exists w :: Arises(p, w) && REVIEW in w.rows && w.rows[REVIEW].status == Processing
              && w.handlers == map[] && w.writes == map[] && Writers(w, REVIEW) == {}
              && 0 in w.r.jobs && w.r.jobs[0].phase.Done? && w.r.jobs[0].logged == [RunTimeout]
  {
    var w := Alone(p, job.runUntil, job, row, Leaving(CancelledOut), map[], told, {REVIEW});
    LeavesStranded(p, job, row, told);
    ArisesThen(p, w, FnLeaves(0));
    assert Arises(p, FnLeft(w, 0));
  }

  lemma LeavesStranded(p: Params, job: Job, row: Row, told: map<JobId, Message>)
    requires Admits(p) && job.phase.Running? && job.timedOut && !job.interrupted && !job.cancelPending
    requires job.logged == [] && row.status == Processing
    ensures var w := Alone(p, job.runUntil, job, row, Leaving(CancelledOut), map[], told, {REVIEW});
      && CanLeave(p, w, 0)
      && var v := FnLeft(w, 0);
         && v.rows == w.rows && v.handlers == map[] && v.writes == map[] && Writers(v, REVIEW) == {}
         && 0 in v.r.jobs && v.r.jobs[0].phase.Done? && v.r.jobs[0].logged == [RunTimeout]
  {
    var w := Alone(p, job.runUntil, job, row, Leaving(CancelledOut), map[], told, {REVIEW});
    assert FnLeft(w, 0).r.jobs[0].logged == [RunTimeout];
  }

  // ---- A completed row overwritten -----------------------------------------

  lemma TaskCommits(p: Params)
    requires Admits(p)
    ensures Arises(p, Alone(p, 0.0, TheJob(p, 0.0), Completing(Pending(7, 0.0)), Committed, map[], map[], {}))
  {
    EntersAfter(p, 0.0);
    var w := Entered0(p, 0.0);
    ArisesThen(p, w, FnCommits(0));
    assert w.fn[0 := Committed] == map[0 := Committed];
    assert w.rows[REVIEW := Completing(Pending(7, 0.0))] == map[REVIEW := Completing(Pending(7, 0.0))];
    assert Do(p, w, FnCommits(0)) ==
      Alone(p, 0.0, TheJob(p, 0.0), Completing(Pending(7, 0.0)), Committed, map[], map[], {});
  }

  /** A deadline that lands after `mark_completed` committed, before the task returned, fails the completed row. */
  lemma CompletedCanBeOverwritten(p: Params)
    requires Admits(p)
    ensures exists w, a :: Arises(p, w) && CanDo(p, w, a) && a.WriteCommits?
              && REVIEW in w.rows && w.rows[REVIEW].status == Completed
              && REVIEW in Do(p, w, a).rows && Do(p, w, a).rows[REVIEW] == Failing(w.rows[REVIEW], TimeoutMessage)
  {
    var job, row := TheJob(p, 0.0), Completing(Pending(7, 0.0));
    TaskCommits(p);
    ReachesDeadline(p, 0.0, job, row, Committed, map[]);
    ShieldedWriteBegins(p, job, row, Committed, true);
    var w := Alone(p, job.runUntil, Cancelled(job), row, Cancelling,
                   map[0 := Write(TimeoutMessage, job.runUntil, true)], map[0 := TimeoutMessage], {});
    assert CanDo(p, w, WriteCommits(0));
  }

  lemma ShieldedWriteBegins(p: Params, job: Job, row: Row, f: FnPhase, late: bool)
    requires Admits(p) && job.phase.Running? && f == if late then Committed else Working
    requires Arises(p, Alone(p, job.runUntil, Overdue(job), row, f, map[], map[], {}))
    ensures Arises(p, Alone(p, job.runUntil, Cancelled(job), row, Cancelling,
                            map[0 := Write(TimeoutMessage, job.runUntil, late)], map[0 := TimeoutMessage], {}))
  {
    CaughtIs(p, job, row, f, late);
    ArisesThen(p, Alone(p, job.runUntil, Overdue(job), row, f, map[], map[], {}), CancelReaches(0, false));
  }

  lemma CaughtIs(p: Params, job: Job, row: Row, f: FnPhase, late: bool)
    requires Admits(p) && job.phase.Running? && f == if late then Committed else Working
    ensures var w := Alone(p, job.runUntil, Overdue(job), row, f, map[], map[], {});
      && CanCancel(p, w, 0, false)
      && CancelReached(w, 0, false) ==
         Alone(p, job.runUntil, Cancelled(job), row, Cancelling,
               map[0 := Write(TimeoutMessage, job.runUntil, late)], map[0 := TimeoutMessage], {})
  {
    var w := Alone(p, job.runUntil, Overdue(job), row, f, map[], map[], {});
    assert Delivered(w.r, 0).jobs == map[0 := Cancelled(job)];
    assert w.fn[0 := Cancelling] == map[0 := Cancelling];
  }

  // ---- The threshold -------------------------------------------------------

  /** A row with somebody behind it is old enough for one of the two checks to fail it. */
  predicate LiveRowFails(p: Params, w: World, id: RowId) {
    && id in w.rows && Claims(w, id) > 0
    && (SweepMatches(w.rows[id], w.r.now, p.threshold) || StaleAge(w.rows[id], w.r.now, p.threshold).Some?)
  }

  /** The slowest job there can be: a late request, a full run, and a slow failure write. */
  lemma SlowestJob(p: Params)
    requires Admits(p)
    ensures Arises(p, Slowest(p, p.gap + p.limits.timeout + p.cleanup))
  {
    EntersAfter(p, p.gap);
    var job, row := TheJob(p, p.gap), Pending(7, 0.0);
    ReachesDeadline(p, p.gap, job, row, Working, map[]);
    ShieldedWriteBegins(p, job, row, Working, false);
    WriteTakesLong(p);
  }

  function Slowest(p: Params, now: real): World
    requires p.limits.maxConcurrent >= 1
  {
    var job := TheJob(p, p.gap);
    Alone(p, now, Cancelled(job), Pending(7, 0.0), Cancelling,
          map[0 := Write(TimeoutMessage, job.runUntil, false)], map[0 := TimeoutMessage], {})
  }

  lemma WriteTakesLong(p: Params)
    requires Admits(p) && Arises(p, Slowest(p, TheJob(p, p.gap).runUntil))
    ensures Arises(p, Slowest(p, p.gap + p.limits.timeout + p.cleanup))
  {
    var now, to := TheJob(p, p.gap).runUntil, p.gap + p.limits.timeout + p.cleanup;
    if now < to {
      SlowTicks(p);
      ArisesThen(p, Slowest(p, now), Loop(Tick(to)));
    }
  }

  lemma SlowTicks(p: Params)
    requires Admits(p) && p.cleanup > 0.0
    ensures var w, to := Slowest(p, TheJob(p, p.gap).runUntil), p.gap + p.limits.timeout + p.cleanup;
      CanLoop(p, w, Tick(to)) && Looping(p, w, Tick(to)) == Slowest(p, to)
  {}

  /**
    The two checks spare every live row in every run if and only if the threshold leaves room for the
    insert-to-submit gap, the job timeout and one failure write.
   */
  lemma ThresholdIsTight(p: Params)
    requires Admits(p)
    ensures (forall w, id :: Arises(p, w) ==> !LiveRowFails(p, w, id)) <==> Roomy(p)
  {
    if Roomy(p) {
      forall w, id | Arises(p, w) ensures !LiveRowFails(p, w, id) {
        if id in w.rows { NeverFails(p, w, id); }
      }
    } else {
      SlowestJob(p);
      var w := Slowest(p, p.gap + p.limits.timeout + p.cleanup);
      assert 0 in Writers(w, REVIEW);
      assert LiveRowFails(p, w, REVIEW);
    }
  }

  lemma NeverFails(p: Params, w: World, id: RowId)
    requires Admits(p) && Roomy(p) && Arises(p, w) && id in w.rows
    ensures !LiveRowFails(p, w, id)
  {
    assert Reachable(p, map[], w);
    ChecksFailExactlyTheStranded(p, map[], w, id);
    RowHeldByOne(p, map[], w, id);
  }
}
