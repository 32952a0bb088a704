/** Time in joint runs: no row is held for longer than it may be, and nothing can hold back the clock. */
module ProductTimes {
  import opened Wrappers
  import opened Scheduler
  import R = SchedulerRuns
  import opened Rows
  import opened Product
  import opened ProductInvariant
  import opened ProductSteps
  import opened ProductClocks
  import opened ProductRuns

  // ---- No row is held for ever ---------------------------------------------

  /**
    A row that is processing and not stranded is younger than the request's gap, the job timeout and
    one failure write together: by then its own path has settled it, with no help from the checks.
   */
  lemma SettledInTime(p: Params, rows: Store, w: World, id: RowId)
    requires Reachable(p, rows, w) && id in w.rows && id !in w.stranded && w.rows[id].status == Processing
    ensures w.rows[id].startedAt.Some?
    ensures w.r.now <= w.rows[id].startedAt.value + p.gap + p.limits.timeout + p.cleanup
  {
    ReachableGood(p, rows, w);
    LiveRowsAreYoung(p, w, id);
  }

  // ---- What the clock waits for --------------------------------------------

  predicate WriteDue(p: Params, w: World, j: JobId) { j in w.writes && w.r.now >= w.writes[j].since + p.cleanup }

  predicate HandlerDue(p: Params, h: Handler, row: Row, now: real) {
    match h
    case Submitting => row.startedAt.Some? && now >= row.startedAt.value + p.gap
    case Rejecting(_, since) => now >= since + p.cleanup
  }

  predicate RequestDue(p: Params, w: World, id: RowId) {
    id in w.handlers && id in w.rows && HandlerDue(p, w.handlers[id], w.rows[id], w.r.now)
  }

  /** A failure write that a cancellation interrupts has committed. */
  predicate LosesNothing(w: World, j: JobId, committed: bool) { j in w.fn && (w.fn[j].FailureWrite? ==> committed) }

  /** Actions the clock waits for, taken so that no failure write is lost. */
  predicate Due(p: Params, w: World, a: Action) {
    match a
    case Loop(e) => R.Awaited(w.r, e)
    case CancelReaches(j, committed) => LosesNothing(w, j, committed)
    case WriteCommits(j) => WriteDue(p, w, j)
    case RejectionCommits(id) => RequestDue(p, w, id)
    case SubmitRow(id, _) => RequestDue(p, w, id)
    case _ => false
  }

  ghost predicate ActionDue(p: Params, w: World) { exists a :: Due(p, w, a) && CanDo(p, w, a) }

  lemma {:induction false} UnusedId(used: set<JobId>) returns (j: JobId)
    ensures j !in used && forall k :: k in used ==> k < j
    decreases |used|
  {
    if used == {} {
      j := 0;
    } else {
      var k :| k in used;
      var above := UnusedId(used - {k});
      j := if k < above then above else k + 1;
      assert forall i :: i in used ==> i == k || i in used - {k};
    }
  }

  lemma WriteCanCommit(p: Params, w: World, j: JobId)
    requires LinkOk(w) && j in w.writes
    ensures CanDo(p, w, WriteCommits(j))
  {
    assert MayWrite(w, j) && WriterOk(w, j);
  }

  lemma RequestCanGoOn(p: Params, w: World, id: RowId) returns (a: Action)
    requires LinkOk(w) && id in w.handlers
    ensures CanDo(p, w, a)
    ensures if w.handlers[id].Rejecting? then a == RejectionCommits(id) else a.SubmitRow? && a.row == id
  {
    var j := UnusedId(w.r.jobs.Keys);
    a := if w.handlers[id].Rejecting? then RejectionCommits(id) else SubmitRow(id, j);
  }

  lemma CancellationCanLand(p: Params, w: World, j: JobId)
    requires PhaseOk(w) && Enabled(p.limits, w.r, Deliver(j))
    ensures CanDo(p, w, CancelReaches(j, false))
  {
    assert PhaseAt(w, j);
  }

  /** Every write, refusal, submission and cancellation under way can take its next step, whatever else goes on. */
  lemma NothingHeldUp(p: Params, rows: Store, w: World)
    requires Reachable(p, rows, w)
    ensures forall j :: j in w.writes ==> CanDo(p, w, WriteCommits(j))
    ensures forall id :: id in w.handlers && w.handlers[id].Rejecting? ==> CanDo(p, w, RejectionCommits(id))
    ensures forall id :: id in w.handlers && w.handlers[id].Submitting? ==> exists j :: CanDo(p, w, SubmitRow(id, j))
    ensures forall j :: Enabled(p.limits, w.r, Deliver(j)) ==> CanDo(p, w, CancelReaches(j, false))
  {
    ReachableGood(p, rows, w);
    forall j | j in w.writes ensures CanDo(p, w, WriteCommits(j)) { WriteCanCommit(p, w, j); }
    forall id | id in w.handlers
      ensures w.handlers[id].Rejecting? ==> CanDo(p, w, RejectionCommits(id))
      ensures w.handlers[id].Submitting? ==> exists j :: CanDo(p, w, SubmitRow(id, j))
    {
      var a := RequestCanGoOn(p, w, id);
    }
    forall j | Enabled(p.limits, w.r, Deliver(j)) ensures CanDo(p, w, CancelReaches(j, false)) {
      CancellationCanLand(p, w, j);
    }
  }

  lemma RunnerCanGoOn(p: Params, w: World)
    requires LinkOk(w) && PhaseOk(w) && R.StepDue(p.limits, w.r)
    ensures ActionDue(p, w)
  {
    var e :| R.Awaited(w.r, e) && Enabled(p.limits, w.r, e);
    if e.Deliver? {
      CancellationLandsWell(p, w, e.job);
    } else {
      assert Due(p, w, Loop(e)) && CanDo(p, w, Loop(e));
    }
  }

  lemma CancellationLandsWell(p: Params, w: World, j: JobId)
    requires LinkOk(w) && PhaseOk(w) && Enabled(p.limits, w.r, Deliver(j))
    ensures ActionDue(p, w)
  {
    assert PhaseAt(w, j);
    if w.fn[j].FailureWrite? { assert MayWrite(w, j) && WriterOk(w, j); }
    assert Due(p, w, CancelReaches(j, true)) && CanDo(p, w, CancelReaches(j, true));
  }

  // ---- How far it can move -------------------------------------------------

  lemma {:induction false} WritesClear(p: Params, writes: map<JobId, Write>, now: real, to: real) returns (cap: real)
    requires now < to && forall j :: j in writes ==> now < writes[j].since + p.cleanup
    ensures now < cap <= to && forall j :: j in writes ==> WriteAllows(p, writes[j], cap)
    ensures cap == to || exists j :: j in writes && cap >= writes[j].since + p.cleanup
    decreases |writes|
  {
    if writes == map[] {
      cap := to;
    } else {
      var j :| j in writes;
      var rest := writes - {j};
      assert |rest| < |writes| by { assert rest.Keys == writes.Keys - {j}; }
      var at := writes[j].since + p.cleanup;
      cap := WritesClear(p, rest, now, if at < to then at else to);
      assert forall k :: k in writes ==> k == j || k in rest;
      if cap < to { var k :| k in writes && (k == j || k in rest) && cap >= writes[k].since + p.cleanup; }
    }
  }

  lemma {:induction false} RequestsClear(p: Params, handlers: map<RowId, Handler>, rows: Store, now: real, to: real)
    returns (cap: real)
    requires now < to && forall id :: id in handlers && id in rows ==> !HandlerDue(p, handlers[id], rows[id], now)
    ensures now < cap <= to
    ensures forall id :: id in handlers && id in rows ==> HandlerAllows(p, handlers[id], rows[id], cap)
    ensures cap == to || exists id :: id in handlers && id in rows && HandlerDue(p, handlers[id], rows[id], cap)
    decreases |handlers|
  {
    if handlers == map[] {
      cap := to;
    } else {
      var id :| id in handlers;
      var rest := handlers - {id};
      assert |rest| < |handlers| by { assert rest.Keys == handlers.Keys - {id}; }
      var at := if id in rows then Bound(p, handlers[id], rows[id], to) else to;
      cap := RequestsClear(p, rest, rows, now, if at < to then at else to);
      assert forall k :: k in handlers ==> k == id || k in rest;
      if cap < to {
        var k :| k in handlers && k in rows && (k == id || k in rest) && HandlerDue(p, handlers[k], rows[k], cap);
      }
    }
  }

  /** Until when the request may be held. */
  function Bound(p: Params, h: Handler, row: Row, otherwise: real): real {
    match h
    case Submitting => if row.startedAt.Some? then row.startedAt.value + p.gap else otherwise
    case Rejecting(_, since) => since + p.cleanup
  }

  lemma HeldUntil(p: Params, w: World, to: real) returns (cap: real)
    requires w.r.now < to
    requires forall j :: !WriteDue(p, w, j)
    requires forall id :: !RequestDue(p, w, id)
    ensures w.r.now < cap <= to && forall t :: t <= cap ==> WorldAllows(p, w, t)
    ensures || cap == to || (exists j :: WriteDue(p, Ticked(w, cap), j))
            || (exists id :: RequestDue(p, Ticked(w, cap), id))
  {
    assert forall j :: j in w.writes ==> !WriteDue(p, w, j);
    var a := WritesClear(p, w.writes, w.r.now, to);
    assert forall id :: id in w.handlers && id in w.rows ==> !RequestDue(p, w, id);
    cap := RequestsClear(p, w.handlers, w.rows, w.r.now, a);
    if cap == a && a < to {
      var j :| j in w.writes && cap >= w.writes[j].since + p.cleanup;
      assert WriteDue(p, Ticked(w, cap), j);
    } else if cap < to {
      var id :| id in w.handlers && id in w.rows && HandlerDue(p, w.handlers[id], w.rows[id], cap);
      assert RequestDue(p, Ticked(w, cap), id);
    }
  }

  /** The clock can move, as far as `to` or until something is due. */
  ghost predicate TicksOn(p: Params, w: World, to: real) {
    exists t :: t <= to && CanDo(p, w, Loop(Tick(t))) && (t == to || ActionDue(p, Ticked(w, t)))
  }

  lemma ClockCanMove(p: Params, w: World, to: real)
    requires Linked(p, w) && w.r.now < to
    requires forall j :: !WriteDue(p, w, j)
    requires forall id :: !RequestDue(p, w, id)
    ensures ActionDue(p, w) || TicksOn(p, w, to)
  {
    var cap := HeldUntil(p, w, to);
    R.ClockMoves(p.limits, w.r, cap);
    if R.StepDue(p.limits, w.r) {
      RunnerCanGoOn(p, w);
    } else {
      var t :| t <= cap && Enabled(p.limits, w.r, Tick(t)) && (t == cap || R.StepDue(p.limits, w.r.(now := t)));
      assert CanDo(p, w, Loop(Tick(t)));
      if t != to { DueThen(p, w, t); }
    }
  }

  lemma TickedLinks(w: World, t: real)
    requires LinkOk(w) && PhaseOk(w)
    ensures LinkOk(Ticked(w, t)) && PhaseOk(Ticked(w, t))
  {
    var v := Ticked(w, t);
    assert forall j :: MayWrite(v, j) == MayWrite(w, j) && Late(v, j) == Late(w, j);
    LinkShrinks(w, v);
    forall j | j in v.r.jobs ensures PhaseAt(v, j) { assert PhaseAt(w, j); }
  }

  lemma DueThen(p: Params, w: World, t: real)
    requires LinkOk(w) && PhaseOk(w)
    requires || R.StepDue(p.limits, w.r.(now := t))
             || (exists j :: WriteDue(p, Ticked(w, t), j)) || (exists id :: RequestDue(p, Ticked(w, t), id))
    ensures ActionDue(p, Ticked(w, t))
  {
    var v := Ticked(w, t);
    TickedLinks(w, t);
    if R.StepDue(p.limits, v.r) {
      RunnerCanGoOn(p, v);
    } else if j :| WriteDue(p, v, j) {
      WriteGoesOn(p, v, j);
    } else {
      var id :| RequestDue(p, v, id);
      RequestGoesOn(p, v, id);
    }
  }

  lemma WriteGoesOn(p: Params, w: World, j: JobId)
    requires LinkOk(w) && WriteDue(p, w, j)
    ensures ActionDue(p, w)
  {
    WriteCanCommit(p, w, j);
    assert Due(p, w, WriteCommits(j)) && CanDo(p, w, WriteCommits(j));
  }

  lemma RequestGoesOn(p: Params, w: World, id: RowId)
    requires LinkOk(w) && RequestDue(p, w, id)
    ensures ActionDue(p, w)
  {
    var a := RequestCanGoOn(p, w, id);
    assert Due(p, w, a) && CanDo(p, w, a);
  }

  /** Something is due, or the clock moves on. */
  lemma GoesOn(p: Params, w: World, to: real)
    requires Linked(p, w) && w.r.now < to
    ensures ActionDue(p, w) || TicksOn(p, w, to)
  {
    if j :| WriteDue(p, w, j) {
      WriteGoesOn(p, w, j);
    } else if id :| RequestDue(p, w, id) {
      RequestGoesOn(p, w, id);
    } else {
      ClockCanMove(p, w, to);
    }
  }

  /**
    No joint run is locked in time: either some action that the clock waits for can be taken (a due
    runner step, a cancellation on its way, a write or a request that has used up its time), or the
    clock can move.
   */
  lemma TimeNeverStuck(p: Params, rows: Store, w: World)
    requires Reachable(p, rows, w)
    ensures (exists a :: Due(p, w, a) && CanDo(p, w, a)) || (exists t :: CanDo(p, w, Loop(Tick(t))))
  {
    ReachableGood(p, rows, w);
    GoesOn(p, w, w.r.now + 1.0);
  }
}
