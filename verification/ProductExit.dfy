/**
  The end of a process after `close()`: whose writes it cuts off, and which rows that leaves
  processing with nobody behind them.
 */
module ProductExit {
  import opened Wrappers
  import opened Scheduler
  import opened SchedulerInvariant
  import opened SchedulerFates
  import opened Rows
  import opened Product
  import opened ProductInvariant
  import opened ProductSteps
  import opened ProductClocks
  import opened ProductRuns
  import opened ProductDetached

  /** The job will start no write any more: it is out of the line, and its row is decided if it is inside fn. */
  predicate QuietJob(w: World, j: JobId) {
    j in w.r.jobs ==>
      && !InLine(w.r.jobs[j].phase)
      && (w.r.jobs[j].phase.Running? && j in w.fn ==> !Undecided(w.fn[j]))
  }

  ghost predicate Quiet(w: World) { forall j :: QuietJob(w, j) }

  /** What an action does to the quiet of job j and to its write. */
  ghost predicate QuietStep(w: World, v: World, j: JobId) {
    && (j in w.r.jobs && QuietJob(w, j) ==> QuietJob(v, j))
    && (j in v.writes ==>
          || (j in w.writes && v.writes[j] == w.writes[j])
          || (j in w.r.jobs && !QuietJob(w, j) && v.writes[j].since == v.r.now))
  }

  // ---- Every action --------------------------------------------------------

  lemma LoopQuiet(p: Params, w: World, e: Event, j: JobId)
    requires Linked(p, w) && CanLoop(p, w, e)
    ensures QuietStep(w, Looping(p, w, e), j)
  {
    LoopFate(p, w, e, j);
    if j in w.r.jobs { LoopedQuiet(p.limits, w, e, Looping(p, w, e), j); }
  }

  lemma LoopedQuiet(l: Limits, w: World, e: Event, v: World, j: JobId)
    requires LoopedAt(l, w, e, v, j)
    ensures QuietStep(w, v, j)
  {}

  lemma CancelQuiet(w: World, k: JobId, committed: bool, j: JobId)
    requires InFn(w, k) && (w.fn[k].FailureWrite? && committed ==> HasRow(w, k))
    ensures QuietStep(w, CancelReached(w, k, committed), j)
  {}

  lemma LeavingQuiet(p: Params, w: World, k: JobId, j: JobId)
    requires Linked(p, w) && CanLeave(p, w, k)
    ensures QuietStep(w, FnLeft(w, k), j)
  {
    FnLeavesShape(p, w, k);
    LeftQuiet(w, FnLeft(w, k), k, j);
  }

  lemma LeftQuiet(w: World, v: World, k: JobId, j: JobId)
    requires LeftFn(w, v, k)
    ensures QuietStep(w, v, j)
  {}

  lemma RestQuiet(p: Params, w: World, a: Action, j: JobId)
    requires CanDo(p, w, a) && !EndsProcess(a) && !RunnerAction(a)
    ensures QuietStep(w, Do(p, w, a), j)
  {
    if a.SubmitRow? { SubmitQuiet(p, w, a.row, a.job, j); }
  }

  lemma SubmitQuiet(p: Params, w: World, row: RowId, k: JobId, j: JobId)
    requires k !in w.r.jobs
    ensures QuietStep(w, SubmittedRow(p, w, row, k), j)
  {}

  lemma ActionQuiet(p: Params, w: World, a: Action, j: JobId)
    requires Linked(p, w) && CanDo(p, w, a) && !EndsProcess(a)
    ensures QuietStep(w, Do(p, w, a), j)
  {
    if a.Loop? {
      LoopQuiet(p, w, a.e, j);
    } else if a.CancelReaches? {
      CancelQuiet(w, a.job, a.committed, j);
    } else if a.FnLeaves? {
      LeavingQuiet(p, w, a.job, j);
    } else {
      RestQuiet(p, w, a, j);
    }
  }

  // ---- While close() waits -------------------------------------------------

  /** No write in flight began after t. */
  predicate NoneSince(writes: map<JobId, Write>, t: real) { forall j :: j in writes ==> writes[j].since <= t }

  /** Nobody is left but jobs whose writes are in flight; when writes are quick, these jobs are done. */
  ghost predicate ClosingOk(p: Params, w: World) {
    && CoverOk(w.r)
    && match w.r.closer
       case Finishing(_, _, _) =>
         (WaitBegan(w.r.closer) < w.r.now ==> Quiet(w)) && NoneSince(w.writes, WaitBegan(w.r.closer))
       case Returned(_, _) =>
         Quiet(w) && (p.cleanup < CANCEL_DRAIN_SEC ==>
                        forall j :: j in w.writes && j in w.r.jobs ==> !Live(w.r.jobs[j].phase))
       case _ => true
  }

  /** The runner's part of an action: its events, or nothing. */
  function RunnerEvent(w: World, a: Action): Option<Event> {
    match a
    case Loop(e) => Some(e)
    case SubmitRow(_, j) => Some(Submit(j))
    case CancelReaches(j, _) => Some(Deliver(j))
    case FnLeaves(j) => if j in w.fn && w.fn[j].Leaving? then Some(FnEnds(j, w.fn[j].result)) else None
    case _ => None
  }

  lemma RunnerSteps(p: Params, w: World, a: Action)
    requires CanDo(p, w, a) && !EndsProcess(a)
    ensures var e, v := RunnerEvent(w, a), Do(p, w, a);
      if e.Some? then Enabled(p.limits, w.r, e.value) && v.r == Apply(p.limits, w.r, e.value) else v.r == w.r
  {
    match a
    case Loop(e) => CoupledKeeps(w, e, Apply(p.limits, w.r, e));
    case SubmitRow(id, j) => SubmitRowRest(p, w, id, j);
    case CancelReaches(j, committed) => CancelDelivers(w, j, committed);
    case _ =>
  }

  lemma CancelDelivers(w: World, j: JobId, committed: bool)
    requires InFn(w, j) && (w.fn[j].FailureWrite? && committed ==> HasRow(w, j))
    ensures CancelReached(w, j, committed).r == Delivered(w.r, j)
  {}

  lemma ActionKeepsCover(p: Params, w: World, a: Action)
    requires Inv(p.limits, w.r) && CoverOk(w.r) && CanDo(p, w, a) && !EndsProcess(a)
    ensures CoverOk(Do(p, w, a).r)
  {
    RunnerSteps(p, w, a);
    var e := RunnerEvent(w, a);
    if e.Some? { StepKeepsCover(p.limits, w.r, e.value); }
  }

  /** close() stays where it is, and so does the clock. */
  predicate Stands(w: World, a: Action) {
    var e := RunnerEvent(w, a);
    e.Some? ==> !MovesCloser(w.r, e.value) && !e.value.Tick?
  }

  lemma StandsStill(p: Params, w: World, a: Action)
    requires Inv(p.limits, w.r) && CanDo(p, w, a) && !EndsProcess(a) && Stands(w, a)
    ensures Do(p, w, a).r.closer == w.r.closer && Do(p, w, a).r.now == w.r.now
  {
    RunnerSteps(p, w, a);
    var e := RunnerEvent(w, a);
    if e.Some? { CloserKept(p.limits, w.r, e.value); }
  }

  /** Once closing, no job is new; and a job that is done stays so. */
  lemma JobsStay(p: Params, w: World, a: Action)
    requires Inv(p.limits, w.r) && CanDo(p, w, a) && !EndsProcess(a) && PassDone(w.r.closer)
    ensures Do(p, w, a).r.jobs.Keys == w.r.jobs.Keys
    ensures forall j :: j in w.r.jobs && !Live(w.r.jobs[j].phase) ==> !Live(Do(p, w, a).r.jobs[j].phase)
  {
    RunnerSteps(p, w, a);
    var e := RunnerEvent(w, a);
    if e.Some? { RunnerJobsStay(p.limits, w.r, e.value); }
  }

  lemma RunnerJobsStay(l: Limits, s: Runner, e: Event)
    requires Inv(l, s) && Enabled(l, s, e) && PassDone(s.closer)
    ensures var t := Apply(l, s, e);
      t.jobs.Keys == s.jobs.Keys && forall j :: j in s.jobs && !Live(s.jobs[j].phase) ==> !Live(t.jobs[j].phase)
  {
    SchedulerMoves.StepEvolves(l, s, e);
    forall j | j in s.jobs && !Live(s.jobs[j].phase) ensures !Live(Apply(l, s, e).jobs[j].phase) {
      assert SchedulerMoves.Moved(s.jobs[j], Apply(l, s, e).jobs[j]);
    }
  }

  lemma StandingKeeps(p: Params, w: World, a: Action)
    requires Linked(p, w) && ClosingOk(p, w) && CanDo(p, w, a) && !EndsProcess(a) && Stands(w, a)
    ensures ClosingOk(p, Do(p, w, a))
  {
    var v := Do(p, w, a);
    ActionKeepsCover(p, w, a);
    StandsStill(p, w, a);
    forall j ensures QuietStep(w, v, j) { ActionQuiet(p, w, a, j); }
    if PassDone(w.r.closer) {
      JobsStay(p, w, a);
      QuietOn(p, w, v);
    }
  }

  lemma QuietOn(p: Params, w: World, v: World)
    requires ClosingOk(p, w) && CoverOk(v.r) && v.r.closer == w.r.closer && v.r.now == w.r.now
    requires v.r.jobs.Keys == w.r.jobs.Keys
    requires forall j :: j in w.r.jobs && !Live(w.r.jobs[j].phase) ==> !Live(v.r.jobs[j].phase)
    requires forall j :: QuietStep(w, v, j)
    ensures ClosingOk(p, v)
  {
    if Quiet(w) {
      forall j ensures QuietJob(v, j) { assert QuietStep(w, v, j) && QuietJob(w, j); }
      forall j | j in v.writes ensures j in w.writes && v.writes[j] == w.writes[j] {
        assert QuietStep(w, v, j) && QuietJob(w, j);
      }
    } else {
      forall j | j in v.writes && v.r.closer.Finishing? ensures v.writes[j].since <= WaitBegan(v.r.closer) {
        assert QuietStep(w, v, j);
      }
    }
  }

  // ---- When the clock moves, or close() does -------------------------------

  lemma TickCloses(p: Params, w: World, to: real)
    requires Linked(p, w) && ClosingOk(p, w) && CanLoop(p, w, Tick(to))
    ensures ClosingOk(p, Looping(p, w, Tick(to)))
  {
    TickIs(p, w, to);
    TickKeepsCover(p.limits, w.r, to);
    if w.r.closer.Finishing? { TickQuiets(p, w, to); }
    if w.r.closer.Returned? { assert forall j :: QuietJob(w, j) ==> QuietJob(Ticked(w, to), j); }
  }

  /** The clock waits until every cancellation has landed. */
  lemma TickQuiets(p: Params, w: World, to: real)
    requires Linked(p, w) && w.r.closer.Finishing? && Idle(w.r)
    ensures Quiet(Ticked(w, to))
  {
    forall j ensures QuietJob(Ticked(w, to), j) {
      if j in w.r.jobs {
        assert SealedJob(w.r.jobs[j]) && !Urgent(w.r.jobs[j]) && PhaseAt(w, j);
        CalmJob(w, to, j);
      }
    }
  }

  lemma CalmJob(w: World, to: real, j: JobId)
    requires PhaseAt(w, j) && SealedJob(w.r.jobs[j]) && !Urgent(w.r.jobs[j])
    requires w.r.jobs[j].phase.Running? ==> w.r.jobs[j].interrupted
    ensures QuietJob(Ticked(w, to), j)
  {}

  lemma WritesAreOld(p: Params, w: World)
    requires ClockOk(p, w)
    ensures NoneSince(w.writes, w.r.now)
    ensures forall j :: j in w.writes ==> w.r.now <= w.writes[j].since + p.cleanup
  {
    forall j | j in w.writes ensures w.writes[j].since <= w.r.now <= w.writes[j].since + p.cleanup {
      assert MayWrite(w, j) && ClockAt(p, w, j);
    }
  }

  /** A step of close() resumes nobody. */
  lemma CloserCouples(p: Params, w: World, e: Event)
    requires CanLoop(p, w, e) && MovesCloser(w.r, e)
    ensures var v := Looping(p, w, e);
      v.r == Apply(p.limits, w.r, e) && v.writes == w.writes && v.fn == w.fn && v.r.now == w.r.now
  {
    CloserInstant(p.limits, w.r, e);
  }

  lemma CloserInstant(l: Limits, s: Runner, e: Event)
    requires Enabled(l, s, e) && MovesCloser(s, e)
    ensures Apply(l, s, e).now == s.now
    ensures Apply(l, s, e).closer.Finishing? ==> WaitBegan(Apply(l, s, e).closer) == s.now
  {}

  lemma CloserCloses(p: Params, w: World, e: Event)
    requires Linked(p, w) && ClockOk(p, w) && ClosingOk(p, w) && CanLoop(p, w, e) && MovesCloser(w.r, e)
    ensures ClosingOk(p, Looping(p, w, e))
  {
    var v := Looping(p, w, e);
    CloserCouples(p, w, e);
    CloserInstant(p.limits, w.r, e);
    StepKeepsCover(p.limits, w.r, e);
    WritesAreOld(p, w);
    if v.r.closer.Returned? { CloseReturned(p, w, e); }
  }

  lemma CloseReturned(p: Params, w: World, e: Event)
    requires Linked(p, w) && ClockOk(p, w) && ClosingOk(p, w) && CanLoop(p, w, e) && MovesCloser(w.r, e)
    requires Looping(p, w, e).r.closer.Returned?
    ensures ClosingOk(p, Looping(p, w, e))
  {
    var v := Looping(p, w, e);
    CloserCouples(p, w, e);
    NotYetReturned(p.limits, w.r, e);
    StepKeepsCover(p.limits, w.r, e);
    ReturnsWhenDone(p.limits, w.r, e);
    if AllDone(v.r.jobs) {
      AllQuiet(p, v);
    } else {
      WritesAreOld(p, w);
      TimedOut(p, w, v);
    }
  }

  lemma AllQuiet(p: Params, w: World)
    requires w.r.closer.Returned? && CoverOk(w.r) && AllDone(w.r.jobs)
    ensures ClosingOk(p, w)
  {
    forall j ensures QuietJob(w, j) {}
  }

  lemma NotYetReturned(l: Limits, s: Runner, e: Event)
    requires Inv(l, s) && Enabled(l, s, e) && MovesCloser(s, e)
    ensures !s.closer.Returned?
  {}

  /** The last wait timed out: only jobs with writes in flight are left, and a quick write is over by then. */
  lemma TimedOut(p: Params, w: World, v: World)
    requires ClosingOk(p, w) && w.r.closer.Finishing? && w.r.now >= w.r.closer.until
    requires forall j :: j in w.writes ==> w.r.now <= w.writes[j].since + p.cleanup
    requires v.writes == w.writes && v.fn == w.fn && v.r == DrainEnded(w.r) && CoverOk(v.r)
    ensures ClosingOk(p, v)
  {
    forall j ensures QuietJob(v, j) { assert QuietJob(w, j); }
  }

  // ---- Every state ---------------------------------------------------------

  lemma ActionCloses(p: Params, w: World, a: Action)
    requires Linked(p, w) && ClockOk(p, w) && ClosingOk(p, w) && CanDo(p, w, a)
    ensures ClosingOk(p, Do(p, w, a))
  {
    if EndsProcess(a) {
      EndOpens(p, w, a);
    } else if Stands(w, a) {
      StandingKeeps(p, w, a);
    } else {
      OnlyLoopMoves(w, a);
      LoopCloses(p, w, a.e);
    }
  }

  lemma OnlyLoopMoves(w: World, a: Action)
    requires !Stands(w, a)
    ensures a.Loop? && (a.e.Tick? || MovesCloser(w.r, a.e))
  {}

  lemma LoopCloses(p: Params, w: World, e: Event)
    requires Linked(p, w) && ClockOk(p, w) && ClosingOk(p, w) && CanLoop(p, w, e) && (e.Tick? || MovesCloser(w.r, e))
    ensures ClosingOk(p, Looping(p, w, e))
  {
    if e.Tick? { TickCloses(p, w, e.to); } else { CloserCloses(p, w, e); }
  }

  lemma EndOpens(p: Params, w: World, a: Action)
    requires CanDo(p, w, a) && EndsProcess(a)
    ensures ClosingOk(p, Do(p, w, a))
  {}

  lemma {:induction false} RunCloses(p: Params, w: World, acts: seq<Action>)
    requires Roomy(p) && Good(p, w) && ClosingOk(p, w) && Possible(p, w, acts)
    ensures ClosingOk(p, After(p, w, acts))
    decreases |acts|
  {
    if acts != [] {
      ActionKeeps(p, w, acts[0]);
      ActionCloses(p, w, acts[0]);
      RunCloses(p, Do(p, w, acts[0]), acts[1..]);
    }
  }

  lemma ReachableCloses(p: Params, rows: Store, w: World)
    requires Reachable(p, rows, w)
    ensures Good(p, w) && CutOk(w) && ClosingOk(p, w)
  {
    var now: real, acts :|
      Possible(p, Start(p, rows, now), acts) && After(p, Start(p, rows, now), acts) == w;
    StartLinked(p, rows, now);
    RunCloses(p, Start(p, rows, now), acts);
    ReachableCut(p, rows, w);
  }

  // ---- The exit ------------------------------------------------------------

  /** A failure write of the row is in flight. */
  ghost predicate InFlight(w: World, id: RowId) {
    exists j :: j in w.writes && !w.writes[j].late && j in w.rowOf && w.rowOf[j] == id
  }

  lemma OnlyWritesAreLeft(w: World, j: JobId)
    requires Quiet(w) && MayWrite(w, j)
    ensures j in w.writes
  {
    assert QuietJob(w, j);
  }

  lemma LeftAtExit(w: World, id: RowId)
    requires LinkOk(w) && Quiet(w) && id in w.rows
    ensures w.rows[id].status == Processing <==> id in w.stranded || id in w.handlers || InFlight(w, id)
  {
    if w.rows[id].status == Processing && id !in w.stranded && id !in w.handlers {
      var j := w.lastJob[id];
      OnlyWritesAreLeft(w, j);
      assert WriterOk(w, j);
    }
    if j :| j in w.writes && !w.writes[j].late && j in w.rowOf && w.rowOf[j] == id {
      assert MayWrite(w, j) && WriterOk(w, j);
    }
  }

  /**
    The exit of a process leaves processing, with nobody behind them, exactly the rows that were so
    before, those a request holds, and those whose failure write is still in flight.
   */
  lemma ExitStrands(p: Params, rows: Store, w: World, id: RowId)
    requires Reachable(p, rows, w) && w.r.closer.Returned? && id in w.rows
    ensures id in Do(p, w, Exit).stranded <==> id in w.stranded || id in w.handlers || InFlight(w, id)
    ensures Do(p, w, Exit).rows == w.rows && Claims(Do(p, w, Exit), id) == 0
  {
    ReachableCloses(p, rows, w);
    ExitIs(p, w);
    LeftAtExit(w, id);
    StartClaims(p, w, id);
  }

  lemma ExitIs(p: Params, w: World)
    requires w.r.closer.Returned?
    ensures Do(p, w, Exit) == Start(p, w.rows, w.r.now)
  {}

  lemma StartClaims(p: Params, w: World, id: RowId)
    ensures Claims(Start(p, w.rows, w.r.now), id) == 0
  {
    assert Writers(Start(p, w.rows, w.r.now), id) == {};
  }

  /**
    When a failure write takes less than CANCEL_DRAIN_SEC, the writes that close() leaves in flight are
    the detached ones alone: each belongs to a job that is done and that the shutdown cancelled.
   */
  lemma QuickWritesAreDetached(p: Params, rows: Store, w: World, j: JobId)
    requires Reachable(p, rows, w) && w.r.closer.Returned? && p.cleanup < CANCEL_DRAIN_SEC && j in w.writes
    ensures Detached(w, j) && j in w.r.jobs && w.r.jobs[j].phase.Done? && w.r.jobs[j].interrupted
  {
    ReachableCloses(p, rows, w);
    QuickWriteDetached(p, w, j);
  }

  lemma QuickWriteDetached(p: Params, w: World, j: JobId)
    requires PhaseOk(w) && CutOk(w) && ClosingOk(p, w) && w.r.closer.Returned?
    requires p.cleanup < CANCEL_DRAIN_SEC && j in w.writes
    ensures Detached(w, j) && j in w.r.jobs && w.r.jobs[j].phase.Done? && w.r.jobs[j].interrupted
  {
    assert PhaseAt(w, j) && CutAt(w, j);
  }
}
