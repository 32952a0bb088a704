/** How long a row can stay processing with somebody behind it, in every state. */
module ProductClocks {
  import opened Wrappers
  import opened Messages
  import opened Scheduler
  import opened SchedulerInvariant
  import opened SchedulerSteps
  import opened Rows
  import opened Product
  import opened ProductInvariant
  import opened ProductSteps

  /** What the startup validators and the operators promise. */
  predicate Calm(p: Params) {
    p.gap >= 0.0 && p.cleanup >= 0.0 && p.limits.maxWait <= p.limits.timeout
  }

  /** The threshold leaves room for the slowest job that is still alive. */
  predicate Roomy(p: Params) { p.gap + p.limits.timeout + p.cleanup <= p.threshold }

  /** The timers a job with an open row is held by. */
  ghost predicate ClockAt(p: Params, w: World, j: JobId) {
    MayWrite(w, j) ==>
      && j in w.r.jobs && HasRow(w, j) && w.rows[w.rowOf[j]].startedAt.Some?
      && var job, started := w.r.jobs[j], w.rows[w.rowOf[j]].startedAt.value;
         && started <= job.submittedAt <= started + p.gap
         && (j in w.writes ==>
               && w.writes[j].since <= w.r.now <= w.writes[j].since + p.cleanup
               && w.writes[j].since <= job.submittedAt + p.limits.timeout)
         && (j !in w.writes && job.phase.Running? ==> w.r.now <= job.runUntil)
  }

  ghost predicate HandlerAt(p: Params, w: World, id: RowId) {
    id in w.handlers ==>
      && id in w.rows && w.rows[id].startedAt.Some?
      && var started := w.rows[id].startedAt.value;
         && started <= w.r.now
         && match w.handlers[id]
            case Submitting => w.r.now <= started + p.gap
            case Rejecting(_, since) => since <= started + p.gap && since <= w.r.now <= since + p.cleanup
  }

  ghost predicate ClockOk(p: Params, w: World) {
    Calm(p) && (forall j :: ClockAt(p, w, j)) && (forall id :: HandlerAt(p, w, id))
  }

  // ---- The bound -----------------------------------------------------------

  lemma WriterYoung(p: Params, w: World, j: JobId)
    requires Calm(p) && Inv(p.limits, w.r) && PhaseOk(w) && ClockAt(p, w, j) && MayWrite(w, j)
    ensures HasRow(w, j) && w.rows[w.rowOf[j]].startedAt.Some?
    ensures w.r.now - w.rows[w.rowOf[j]].startedAt.value <= p.gap + p.limits.timeout + p.cleanup
  {
    assert HistoryOk(w.r.jobs[j]) && TimesOk(p.limits, w.r, w.r.jobs[j]) && PhaseAt(w, j);
  }

  /** Every processing row that is not stranded is younger than the threshold. */
  lemma LiveRowsAreYoung(p: Params, w: World, id: RowId)
    requires Linked(p, w) && ClockOk(p, w)
    requires id in w.rows && w.rows[id].status == Processing && id !in w.stranded
    ensures w.rows[id].startedAt.Some?
    ensures w.r.now - w.rows[id].startedAt.value <= p.gap + p.limits.timeout + p.cleanup
  {
    if id in w.handlers {
      assert HandlerAt(p, w, id);
    } else {
      var j := w.lastJob[id];
      assert MayWrite(w, j) && ClockAt(p, w, j) && w.rowOf[j] == id;
      WriterYoung(p, w, j);
    }
  }

  lemma ChecksSpare(p: Params, w: World)
    requires Linked(p, w) && ClockOk(p, w) && Roomy(p)
    ensures ChecksSpareTheLive(p, w)
  {
    forall id | id in w.rows && w.rows[id].status == Processing && id !in w.stranded
      ensures StaleAge(w.rows[id], w.r.now, p.threshold).None? && !SweepMatches(w.rows[id], w.r.now, p.threshold)
    {
      LiveRowsAreYoung(p, w, id);
    }
  }

  // ---- Keeping the clocks --------------------------------------------------

  /** Rows that stay keep their start time. */
  ghost predicate StartsKept(w: World, v: World) {
    forall id :: id in w.rows && id in v.rows ==> v.rows[id].startedAt == w.rows[id].startedAt
  }

  lemma HandlersStay(p: Params, w: World, v: World)
    requires forall id :: HandlerAt(p, w, id)
    requires v.r.now == w.r.now && StartsKept(w, v)
    requires forall id :: id in v.handlers ==>
      id in w.handlers && v.handlers[id] == w.handlers[id] && (id in w.rows ==> id in v.rows)
    ensures forall id :: HandlerAt(p, v, id)
  {
    forall id ensures HandlerAt(p, v, id) { assert HandlerAt(p, w, id); }
  }

  /** Job j moved or settled; the clocks of the others are untouched. */
  lemma OthersStay(p: Params, w: World, v: World, j: JobId)
    requires ClockOk(p, w) && OnlyJob(w, v, j) && v.r.now == w.r.now && StartsKept(w, v)
    requires v.rows.Keys == w.rows.Keys && ClockAt(p, v, j)
    ensures ClockOk(p, v)
  {
    OnlyJobWriters(w, v, j);
    forall k ensures ClockAt(p, v, k) { assert ClockAt(p, w, k); }
    HandlersStay(p, w, v);
  }

  // ---- Runner steps --------------------------------------------------------

  lemma LoopClock(p: Params, w: World, e: Event, t: Runner, j: JobId)
    requires Calm(p) && Inv(p.limits, w.r) && Inv(p.limits, t) && PhaseOk(w) && LoopFacts(w, e, t)
    requires ClockAt(p, w, j) && t.now == w.r.now
    ensures ClockAt(p, Coupled(w, t, e), j)
  {
    var v := Coupled(w, t, e);
    LoopAtAny(w, e, t, j);
    CoupledLoops(w, e, t, j);
    if MayWrite(v, j) && j in w.r.jobs {
      assert LoopAt(w, e, t, j);
      LoopClockOne(p, w, e, v, j);
    }
  }

  lemma LoopClockOne(p: Params, w: World, e: Event, v: World, j: JobId)
    requires Sane(p.limits) && Calm(p) && ClockAt(p, w, j) && v.r.now == w.r.now && MayWrite(w, j)
    requires LoopAt(w, e, v.r, j) && Looped(w, e, v, j) && PhaseAt(w, j)
    requires HistoryOk(w.r.jobs[j]) && TimesOk(p.limits, w.r, w.r.jobs[j]) && TimesOk(p.limits, v.r, v.r.jobs[j])
    ensures ClockAt(p, v, j)
  {}

  lemma LoopClocks(p: Params, w: World, e: Event)
    requires Linked(p, w) && ClockOk(p, w) && CanLoop(p, w, e) && !e.Tick?
    ensures ClockOk(p, Looping(p, w, e))
  {
    LoopHasFacts(p, w, e);
    LoopInstant(p, w, e);
    CoupledClocks(p, w, e, Apply(p.limits, w.r, e));
  }

  lemma CoupledClocks(p: Params, w: World, e: Event, t: Runner)
    requires ClockOk(p, w) && t.now == w.r.now
    requires Inv(p.limits, w.r) && Inv(p.limits, t) && PhaseOk(w) && LoopFacts(w, e, t)
    ensures ClockOk(p, Coupled(w, t, e))
  {
    forall j { LoopClock(p, w, e, t, j); }
    CoupledKeeps(w, e, t);
    HandlersStay(p, w, Coupled(w, t, e));
  }

  lemma LoopInstant(p: Params, w: World, e: Event)
    requires Inv(p.limits, w.r) && CanLoop(p, w, e) && !e.Tick?
    ensures Apply(p.limits, w.r, e).now == w.r.now
  {
    if e.Resume? && w.r.jobs[e.job].phase.Unwinding? { GaveBackKeeps(p.limits, w.r, e.job); }
    SameInstant(p.limits, w.r, e);
  }

  lemma SameInstant(l: Limits, s: Runner, e: Event)
    requires Enabled(l, s, e) && !e.Tick? && QueueOk(s)
    requires e.Resume? && s.jobs[e.job].phase.Unwinding? ==> QueueOk(GaveBack(s, e.job))
    ensures Apply(l, s, e).now == s.now
  {
    match e
    case Resume(j) => WakeAllGrants(if s.jobs[j].phase.Granted? then s else GaveBack(s, j));
    case _ =>
  }

  /** The clock moves, held back by every timer and write. */
  lemma TickClocks(p: Params, w: World, to: real)
    requires Linked(p, w) && ClockOk(p, w) && CanLoop(p, w, Tick(to))
    ensures ClockOk(p, Looping(p, w, Tick(to)))
  {
    TickIs(p, w, to);
    forall j ensures ClockAt(p, Ticked(w, to), j) { TickClock(p, w, to, j); }
    forall id ensures HandlerAt(p, Ticked(w, to), id) { assert HandlerAt(p, w, id); }
  }

  function Ticked(w: World, to: real): World { w.(r := w.r.(now := to)) }

  lemma TickIs(p: Params, w: World, to: real)
    requires CanLoop(p, w, Tick(to))
    ensures Looping(p, w, Tick(to)) == Ticked(w, to)
    ensures w.r.now < to && Idle(w.r) && WorldAllows(p, w, to)
    ensures forall j :: j in w.r.jobs ==> TimerAllows(w.r.jobs[j], to)
  {}

  lemma TickClock(p: Params, w: World, to: real, j: JobId)
    requires PhaseOk(w) && ClockOk(p, w) && w.r.now < to && Idle(w.r) && WorldAllows(p, w, to)
    requires forall k :: k in w.r.jobs ==> TimerAllows(w.r.jobs[k], to)
    ensures ClockAt(p, Ticked(w, to), j)
  {
    assert ClockAt(p, w, j);
    if MayWrite(w, j) {
      assert PhaseAt(w, j) && TimerAllows(w.r.jobs[j], to) && !Urgent(w.r.jobs[j]);
      TickOne(p, w, to, j);
    }
  }

  lemma TickOne(p: Params, w: World, to: real, j: JobId)
    requires PhaseAt(w, j) && ClockAt(p, w, j) && w.r.now < to && MayWrite(w, j)
    requires TimerAllows(w.r.jobs[j], to) && !Urgent(w.r.jobs[j])
    requires j in w.writes ==> WriteAllows(p, w.writes[j], to)
    ensures ClockAt(p, Ticked(w, to), j)
  {}

  // ---- Task functions ------------------------------------------------------

  lemma MoveClocks(p: Params, w: World, v: World, j: JobId)
    requires ClockOk(p, w) && Move(w, v, j) && v.r == w.r && v.writes == w.writes
    ensures ClockOk(p, v)
  {
    assert ClockAt(p, w, j);
    OthersStay(p, w, v, j);
  }

  lemma SettleClocks(p: Params, w: World, v: World, j: JobId, row: Row)
    requires ClockOk(p, w) && Settle(w, v, j, row) && v.r.now == w.r.now
    requires row.startedAt == w.rows[w.rowOf[j]].startedAt
    requires MayWrite(v, j) ==> v.r == w.r && v.writes == w.writes
    ensures ClockOk(p, v)
  {
    assert ClockAt(p, w, j);
    OthersStay(p, w, v, j);
  }

  lemma WriteClocks(p: Params, w: World, j: JobId)
    requires ClockOk(p, w) && PhaseAt(w, j) && j in w.writes && HasRow(w, j)
    ensures ClockOk(p, WriteCommitted(w, j))
  {
    WriteShape(w, j);
    SettleClocks(p, w, WriteCommitted(w, j), j, Failing(w.rows[w.rowOf[j]], w.writes[j].message));
  }

  lemma CommitClocks(p: Params, w: World, j: JobId)
    requires ClockOk(p, w) && PhaseAt(w, j) && InFn(w, j) && HasRow(w, j) && w.fn[j].Working?
    ensures ClockOk(p, FnCommitted(w, j))
  {
    CommitShape(w, j);
    SettleClocks(p, w, FnCommitted(w, j), j, Completing(w.rows[w.rowOf[j]]));
  }

  lemma RaiseClocks(p: Params, w: World, j: JobId, e: TaskError)
    requires ClockOk(p, w) && PhaseAt(w, j) && InFn(w, j) && w.fn[j].Working?
    ensures ClockOk(p, FnRaised(w, j, e))
  {
    RaiseShape(w, j, e);
    MoveClocks(p, w, FnRaised(w, j, e), j);
  }

  lemma FailureClocks(p: Params, w: World, j: JobId)
    requires ClockOk(p, w) && PhaseAt(w, j) && InFn(w, j) && HasRow(w, j) && w.fn[j].FailureWrite?
    ensures ClockOk(p, FailureCommitted(w, j))
  {
    FailureShape(w, j);
    SettleClocks(p, w, FailureCommitted(w, j), j, Failing(w.rows[w.rowOf[j]], w.fn[j].message));
  }

  lemma SettledClocks(p: Params, w: World, j: JobId)
    requires ClockOk(p, w) && PhaseAt(w, j) && CanSettle(w, j)
    ensures ClockOk(p, FnSettled(w, j))
  {
    SettledShape(w, j);
    MoveClocks(p, w, FnSettled(w, j), j);
  }

  lemma CancelClocks(p: Params, w: World, j: JobId, committed: bool)
    requires Linked(p, w) && ClockOk(p, w) && CanCancel(p, w, j, committed)
    ensures ClockOk(p, CancelReached(w, j, committed))
  {
    var v := CancelReached(w, j, committed);
    assert PhaseAt(w, j) && HistoryOk(w.r.jobs[j]) && TimesOk(p.limits, w.r, w.r.jobs[j]);
    assert ClockAt(p, w, j);
    if !w.fn[j].FailureWrite? {
      CancelMoveClocks(p, w, j, committed);
    } else if committed {
      CancelledFailureShape(w, j);
      SettleClocks(p, w, v, j, Failing(w.rows[w.rowOf[j]], w.fn[j].message));
    } else {
      LostWriteClocks(p, w, j);
    }
  }

  lemma LostWriteClocks(p: Params, w: World, j: JobId)
    requires ClockOk(p, w) && PhaseAt(w, j) && InFn(w, j) && w.fn[j].FailureWrite?
    ensures ClockOk(p, CancelReached(w, j, false))
  {
    assert !MayWrite(CancelReached(w, j, false), j);
    OthersStay(p, w, CancelReached(w, j, false), j);
  }

  lemma CancelMoveClocks(p: Params, w: World, j: JobId, committed: bool)
    requires ClockOk(p, w) && PhaseAt(w, j) && InFn(w, j) && !w.fn[j].FailureWrite?
    requires HistoryOk(w.r.jobs[j]) && TimesOk(p.limits, w.r, w.r.jobs[j]) && ClockAt(p, w, j)
    requires w.r.jobs[j].timedOut || w.r.jobs[j].interrupted
    ensures ClockOk(p, CancelReached(w, j, committed))
  {
    CancelMoves(w, j, committed);
    CancelClock(p, w, j, committed);
    OthersStay(p, w, CancelReached(w, j, committed), j);
  }

  lemma CancelClock(p: Params, w: World, j: JobId, committed: bool)
    requires Calm(p) && PhaseAt(w, j) && InFn(w, j) && !w.fn[j].FailureWrite?
    requires HistoryOk(w.r.jobs[j]) && TimesOk(p.limits, w.r, w.r.jobs[j]) && ClockAt(p, w, j)
    ensures ClockAt(p, CancelReached(w, j, committed), j)
  {
    if w.fn[j].Cancelling? || w.fn[j].Leaving? {
      assert MayWrite(CancelReached(w, j, committed), j) ==> MayWrite(w, j);
    } else {
      assert MayWrite(w, j);
      assert CancelReached(w, j, committed).writes[j].since == w.r.now;
    }
  }

  lemma FnLeavesClocks(p: Params, w: World, j: JobId)
    requires Linked(p, w) && ClockOk(p, w) && CanLeave(p, w, j)
    ensures ClockOk(p, FnLeft(w, j))
  {
    var v := FnLeft(w, j);
    FnLeavesShape(p, w, j);
    forall k ensures ClockAt(p, v, k) {
      assert k in w.r.jobs ==> PhaseAt(w, k);
      FnLeavesClock(p, w, v, j, k);
    }
    HandlersStay(p, w, v);
  }

  lemma FnLeavesClock(p: Params, w: World, v: World, j: JobId, k: JobId)
    requires LeftFn(w, v, j)
    requires k in w.r.jobs ==> PhaseAt(w, k)
    requires ClockAt(p, w, k)
    ensures ClockAt(p, v, k)
  {
    FnLeavesOne(w, v, j, k);
  }

  // ---- Requests ------------------------------------------------------------

  lemma SubmitRowClocks(p: Params, w: World, id: RowId, j: JobId)
    requires Linked(p, w) && ClockOk(p, w) && CanSubmit(p, w, id, j)
    ensures ClockOk(p, SubmittedRow(p, w, id, j))
  {
    var v := SubmittedRow(p, w, id, j);
    assert HandlerAt(p, w, id);
    forall k ensures ClockAt(p, v, k) {
      assert ClockAt(p, w, k);
      SubmitRowClock(p, w, id, j, k);
    }
    forall i ensures HandlerAt(p, v, i) {
      assert HandlerAt(p, w, i);
      SubmitRowHandler(p, w, id, j, i);
    }
  }

  lemma SubmitRowClock(p: Params, w: World, id: RowId, j: JobId, k: JobId)
    requires Calm(p) && PhaseOk(w) && j !in w.r.jobs
    requires id in w.handlers && w.handlers[id].Submitting? && HandlerAt(p, w, id) && ClockAt(p, w, k)
    ensures ClockAt(p, SubmittedRow(p, w, id, j), k)
  {
    SubmitRowWriters(p, w, id, j, k);
  }

  lemma SubmitRowHandler(p: Params, w: World, id: RowId, j: JobId, i: RowId)
    requires Calm(p) && id in w.handlers && w.handlers[id].Submitting? && HandlerAt(p, w, id) && HandlerAt(p, w, i)
    ensures HandlerAt(p, SubmittedRow(p, w, id, j), i)
  {}

  lemma RetryClocks(p: Params, w: World, id: RowId)
    requires Linked(p, w) && ClockOk(p, w) && CanRetry(w, id)
    ensures ClockOk(p, Retried(w, id))
  {
    var v := Retried(w, id);
    NoWriters(w, id);
    forall k ensures ClockAt(p, v, k) { RetryClock(p, w, id, k); }
    forall i ensures HandlerAt(p, v, i) { assert HandlerAt(p, w, i); }
  }

  lemma RetryClock(p: Params, w: World, id: RowId, k: JobId)
    requires ClockOk(p, w) && CanRetry(w, id)
    requires forall j :: MayWrite(w, j) && j in w.rowOf ==> w.rowOf[j] != id
    ensures ClockAt(p, Retried(w, id), k)
  {
    assert ClockAt(p, w, k);
  }

  lemma RejectionClocks(p: Params, w: World, id: RowId)
    requires Linked(p, w) && ClockOk(p, w) && CanReject(w, id)
    ensures ClockOk(p, RejectionCommitted(w, id))
  {
    var v := RejectionCommitted(w, id);
    forall k ensures ClockAt(p, v, k) { assert ClockAt(p, w, k); }
    HandlersStay(p, w, v);
  }

  lemma EnqueueClocks(p: Params, w: World, id: RowId, parent: nat)
    requires Linked(p, w) && ClockOk(p, w) && CanEnqueue(w, id, parent)
    ensures ClockOk(p, Enqueued(w, id, parent))
  {
    var v := Enqueued(w, id, parent);
    forall k ensures ClockAt(p, v, k) { EnqueueClock(p, w, id, parent, k); }
    forall i ensures HandlerAt(p, v, i) { EnqueueHandler(p, w, id, parent, i); }
  }

  lemma EnqueueClock(p: Params, w: World, id: RowId, parent: nat, k: JobId)
    requires LinkOk(w) && ClockAt(p, w, k) && CanEnqueue(w, id, parent)
    ensures ClockAt(p, Enqueued(w, id, parent), k)
  {
    if MayWrite(w, k) { assert WriterOk(w, k) && w.rowOf[k] !in Siblings(w.rows, id, parent); }
  }

  lemma EnqueueHandler(p: Params, w: World, id: RowId, parent: nat, i: RowId)
    requires Calm(p) && LinkOk(w) && HandlerAt(p, w, i) && CanEnqueue(w, id, parent)
    ensures HandlerAt(p, Enqueued(w, id, parent), i)
  {
    if i in w.handlers { assert i !in Siblings(w.rows, id, parent); }
  }

  // ---- Checks and crashes --------------------------------------------------

  lemma ReadCheckClocks(p: Params, w: World, id: RowId)
    requires ClockOk(p, w) && id in w.rows
    ensures ClockOk(p, ReadChecked(p, w, id))
  {
    var v := ReadChecked(p, w, id);
    forall k ensures ClockAt(p, v, k) { assert ClockAt(p, w, k); }
    HandlersStay(p, w, v);
  }

  lemma SweepClocks(p: Params, w: World)
    requires ClockOk(p, w)
    ensures ClockOk(p, SweptWorld(p, w))
  {
    var v := SweptWorld(p, w);
    forall k ensures ClockAt(p, v, k) { assert ClockAt(p, w, k); }
    HandlersStay(p, w, v);
  }
}
