/** Every action keeps the link between rows and jobs. */
module ProductSteps {
  import opened Wrappers
  import opened Messages
  import opened Scheduler
  import opened SchedulerInvariant
  import opened SchedulerSteps
  import opened SchedulerMoves
  import opened Rows
  import opened Product
  import opened ProductInvariant

  ghost predicate Linked(p: Params, w: World) {
    Inv(p.limits, w.r) && LinkOk(w) && PhaseOk(w) && OnePerParent(w.rows)
  }

  // ---- Runner steps --------------------------------------------------------

  /** The facts about a runner step the product needs. */
  ghost predicate LoopFacts(w: World, e: Event, t: Runner) {
    && AllFlagsKept(w.r, t) && OnlyResumedLeaves(w.r, e, t)
    && (forall j :: j in w.r.jobs ==> Moved(w.r.jobs[j], t.jobs[j]))
    && (forall j :: j in w.r.running <==> j in w.r.jobs && w.r.jobs[j].phase.Running?)
    && (forall j :: j in t.running <==> j in t.jobs && t.jobs[j].phase.Running?)
    && (forall j :: j in t.jobs ==> HistoryOk(t.jobs[j]))
  }

  lemma LoopHasFacts(p: Params, w: World, e: Event)
    requires Inv(p.limits, w.r) && CanLoop(p, w, e)
    ensures LoopFacts(w, e, Apply(p.limits, w.r, e)) && Inv(p.limits, Apply(p.limits, w.r, e))
  {
    StepKeeps(p.limits, w.r, e);
    StepEvolves(p.limits, w.r, e);
    StepFlags(p.limits, w.r, e);
    StepLeaves(p.limits, w.r, e);
  }

  /** What a runner step does to one job of the product. */
  ghost predicate LoopAt(w: World, e: Event, t: Runner, j: JobId) {
    && j in w.r.jobs && j in t.jobs
    && Moved(w.r.jobs[j], t.jobs[j]) && FlagsKept(w.r.jobs[j], t.jobs[j]) && HistoryOk(t.jobs[j])
    && (w.r.jobs[j].phase.Running? ==> t.jobs[j].phase.Running?)
    && (j in w.r.running <==> w.r.jobs[j].phase.Running?)
    && (j in t.running <==> t.jobs[j].phase.Running?)
    && (Leaves(w.r.jobs[j].phase, t.jobs[j].phase) ==> Resumes(w.r, e) == Some(j))
    && (Resumes(w.r, e) == Some(j) ==> InLine(w.r.jobs[j].phase))
  }

  predicate SameAt(w: World, v: World, j: JobId) {
    && (j in v.fn <==> j in w.fn) && (j in w.fn ==> v.fn[j] == w.fn[j])
    && (j in v.writes <==> j in w.writes) && (j in w.writes ==> v.writes[j] == w.writes[j])
    && (j in v.told <==> j in w.told) && (j in w.told ==> v.told[j] == w.told[j])
  }

  predicate SameRows(w: World, v: World) {
    && v.rows == w.rows && v.handlers == w.handlers && v.rowOf == w.rowOf
    && v.lastJob == w.lastJob && v.stranded == w.stranded
  }

  /** A runner step, and what it starts, as seen from job j. */
  predicate Looped(w: World, e: Event, v: World, j: JobId) {
    && SameRows(w, v)
    && if Resumes(w.r, e) != Some(j) || j !in v.r.jobs || InLine(v.r.jobs[j].phase) then SameAt(w, v, j)
       else if v.r.jobs[j].phase.Running? then SameAt(w.(fn := w.fn[j := Working]), v, j)
       else LeftUnstarted(w, v, j)
  }

  predicate LeftUnstarted(w: World, v: World, j: JobId)
    requires j in v.r.jobs
  {
    var job := v.r.jobs[j];
    job.phase.Marking? && |job.failures| > 0 ==>
      && j in v.writes && v.writes[j] == Write(job.failures[0], v.r.now, false)
      && j in v.told && v.told[j] == job.failures[0]
      && (j in v.fn <==> j in w.fn) && (j in w.fn ==> v.fn[j] == w.fn[j])
  }

  lemma CoupledLoops(w: World, e: Event, t: Runner, j: JobId)
    ensures Coupled(w, t, e).r == t && Looped(w, e, Coupled(w, t, e), j)
  {
    if Resumes(w.r, e).Some? { BegunAt(w.(r := t), t, Resumes(w.r, e).value, j); }
  }

  lemma BegunAt(w: World, t: Runner, k: JobId, j: JobId)
    requires w.r == t
    ensures var v := Begun(w, t, k);
      && v.r == t && SameRows(w, v) && (k != j || j !in t.jobs || InLine(t.jobs[j].phase) ==> SameAt(w, v, j))
      && (k == j && j in t.jobs ==>
           if t.jobs[j].phase.Running? then SameAt(w.(fn := w.fn[j := Working]), v, j) else LeftUnstarted(w, v, j))
  {}

  lemma LoopOne(w: World, e: Event, v: World, j: JobId)
    requires LoopAt(w, e, v.r, j) && PhaseAt(w, j) && Looped(w, e, v, j)
    ensures
      && MayWrite(v, j) == MayWrite(w, j) && Late(v, j) == Late(w, j) && PhaseAt(v, j)
      && (v.r.jobs[j].phase.Rejected? == w.r.jobs[j].phase.Rejected?)
  {}

  lemma LoopAtAny(w: World, e: Event, t: Runner, j: JobId)
    requires PhaseOk(w) && LoopFacts(w, e, t)
    ensures var v := Coupled(w, t, e);
      && MayWrite(v, j) == MayWrite(w, j) && Late(v, j) == Late(w, j)
      && (j in t.jobs ==> PhaseAt(v, j))
      && (j in v.rowOf <==> j in t.jobs && !t.jobs[j].phase.Rejected?)
      && (j in v.writes ==> j in t.jobs)
  {
    CoupledLoops(w, e, t, j);
    if j in w.r.jobs {
      assert LoopAt(w, e, t, j);
      LoopOne(w, e, Coupled(w, t, e), j);
    }
  }

  lemma LoopWriters(w: World, e: Event, t: Runner)
    requires PhaseOk(w) && LoopFacts(w, e, t)
    ensures var v := Coupled(w, t, e);
      forall j :: MayWrite(v, j) == MayWrite(w, j) && Late(v, j) == Late(w, j)
  {
    var v := Coupled(w, t, e);
    forall j ensures MayWrite(v, j) == MayWrite(w, j) && Late(v, j) == Late(w, j) { LoopAtAny(w, e, t, j); }
  }

  lemma LoopPhases(w: World, e: Event, t: Runner)
    requires PhaseOk(w) && LoopFacts(w, e, t)
    ensures PhaseOk(Coupled(w, t, e))
  {
    var v := Coupled(w, t, e);
    CoupledKeeps(w, e, t);
    forall j ensures (j in v.rowOf <==> j in t.jobs && !t.jobs[j].phase.Rejected?) && (j in v.writes ==> j in t.jobs) {
      LoopAtAny(w, e, t, j);
    }
    forall j | j in t.jobs ensures PhaseAt(v, j) { LoopAtAny(w, e, t, j); }
  }

  /** A runner step leaves the rows and who is behind them alone. */
  lemma CoupledKeeps(w: World, e: Event, t: Runner)
    ensures Coupled(w, t, e).r == t && SameRows(w, Coupled(w, t, e))
  {
    CoupledLoops(w, e, t, 0);
  }

  lemma LoopLinked(w: World, e: Event, t: Runner)
    requires LinkOk(w) && PhaseOk(w) && LoopFacts(w, e, t)
    ensures var v := Coupled(w, t, e);
      LinkOk(v) && PhaseOk(v) && v.r == t && SameRows(w, v)
  {
    LoopWriters(w, e, t);
    LoopPhases(w, e, t);
    CoupledKeeps(w, e, t);
    LinkShrinks(w, Coupled(w, t, e));
  }

  lemma LoopKeeps(p: Params, w: World, e: Event)
    requires Linked(p, w) && CanLoop(p, w, e)
    ensures Linked(p, Looping(p, w, e))
  {
    LoopHasFacts(p, w, e);
    LoopLinked(w, e, Apply(p.limits, w.r, e));
  }

  /** Only job j, its task function and its write moved. */
  ghost predicate OnlyJob(w: World, v: World, j: JobId) {
    && v.rowOf == w.rowOf && v.handlers == w.handlers && v.lastJob == w.lastJob
    && v.r.jobs.Keys == w.r.jobs.Keys && j in w.r.jobs
    && forall k :: k != j ==>
         && (k in w.r.jobs ==> v.r.jobs[k] == w.r.jobs[k])
         && (k in v.fn <==> k in w.fn) && (k in w.fn ==> v.fn[k] == w.fn[k])
         && (k in v.writes <==> k in w.writes) && (k in w.writes ==> v.writes[k] == w.writes[k])
  }

  lemma OnlyJobWriters(w: World, v: World, j: JobId)
    requires OnlyJob(w, v, j)
    ensures forall k :: k != j ==> MayWrite(v, k) == MayWrite(w, k) && Late(v, k) == Late(w, k)
  {}

  lemma OnlyJobPhases(w: World, v: World, j: JobId)
    requires PhaseOk(w) && OnlyJob(w, v, j) && PhaseAt(v, j)
    requires v.r.jobs[j].phase.Rejected? == w.r.jobs[j].phase.Rejected?
    ensures PhaseOk(v)
  {
    forall k | k in v.r.jobs ensures PhaseAt(v, k) { assert k == j || PhaseAt(w, k); }
  }

  lemma SameParents(rows: Store, id: RowId, row: Row)
    requires OnePerParent(rows) && id in rows && row.parent == rows[id].parent
    ensures OnePerParent(rows[id := row])
  {}

  /** Job j settles its row. */
  ghost predicate Settle(w: World, v: World, j: JobId, row: Row) {
    && OnlyJob(w, v, j) && MayWrite(w, j) && HasRow(w, j) && row.parent == w.rows[w.rowOf[j]].parent
    && v.rows == w.rows[w.rowOf[j] := row] && v.stranded == w.stranded
    && (if MayWrite(v, j) then Late(v, j) && row.status == Completed else row.status != Processing)
    && PhaseAt(v, j) && v.r.jobs[j].phase.Rejected? == w.r.jobs[j].phase.Rejected?
  }

  lemma SettleKeeps(w: World, v: World, j: JobId, row: Row)
    requires LinkOk(w) && PhaseOk(w) && OnePerParent(w.rows) && Settle(w, v, j, row)
    ensures LinkOk(v) && PhaseOk(v) && OnePerParent(v.rows)
  {
    OnlyJobWriters(w, v, j);
    LinkSettles(w, v, j, row);
    OnlyJobPhases(w, v, j);
    SameParents(w.rows, w.rowOf[j], row);
  }

  /** A move of job j that leaves its row to be decided, or decided as it was. */
  ghost predicate Move(w: World, v: World, j: JobId) {
    && OnlyJob(w, v, j) && v.rows == w.rows && v.stranded == w.stranded
    && (MayWrite(v, j) ==> MayWrite(w, j) && Late(v, j) == Late(w, j))
    && (MayWrite(w, j) && !MayWrite(v, j) ==> Late(w, j))
    && PhaseAt(v, j) && v.r.jobs[j].phase.Rejected? == w.r.jobs[j].phase.Rejected?
  }

  /** Job j moves on without touching its row. */
  lemma MoveKeeps(w: World, v: World, j: JobId)
    requires LinkOk(w) && PhaseOk(w)
    requires Move(w, v, j)
    ensures LinkOk(v) && PhaseOk(v)
  {
    OnlyJobWriters(w, v, j);
    LinkShrinks(w, v);
    OnlyJobPhases(w, v, j);
  }

  // ---- Task functions ------------------------------------------------------

  lemma RaiseShape(w: World, j: JobId, e: TaskError)
    requires PhaseAt(w, j) && InFn(w, j) && w.fn[j].Working?
    ensures Move(w, FnRaised(w, j, e), j)
  {}

  lemma SettledShape(w: World, j: JobId)
    requires PhaseAt(w, j) && InFn(w, j) && (w.fn[j].Committed? || (w.fn[j].Cancelling? && j !in w.writes))
    ensures Move(w, FnSettled(w, j), j)
  {}

  lemma WriteShape(w: World, j: JobId)
    requires PhaseAt(w, j) && j in w.writes && HasRow(w, j)
    ensures Settle(w, WriteCommitted(w, j), j, Failing(w.rows[w.rowOf[j]], w.writes[j].message))
  {}

  lemma CommitShape(w: World, j: JobId)
    requires PhaseAt(w, j) && InFn(w, j) && HasRow(w, j) && w.fn[j].Working?
    ensures Settle(w, FnCommitted(w, j), j, Completing(w.rows[w.rowOf[j]]))
  {}

  lemma FailureShape(w: World, j: JobId)
    requires PhaseAt(w, j) && InFn(w, j) && HasRow(w, j) && w.fn[j].FailureWrite?
    ensures Settle(w, FailureCommitted(w, j), j, Failing(w.rows[w.rowOf[j]], w.fn[j].message))
  {}

  lemma CancelledFailureShape(w: World, j: JobId)
    requires PhaseAt(w, j) && InFn(w, j) && HasRow(w, j) && w.fn[j].FailureWrite?
    requires w.r.jobs[j].timedOut || w.r.jobs[j].interrupted
    ensures Settle(w, CancelReached(w, j, true), j, Failing(w.rows[w.rowOf[j]], w.fn[j].message))
  {}

  lemma CancelTouches(w: World, j: JobId, committed: bool)
    requires InFn(w, j) && !w.fn[j].FailureWrite?
    ensures var v := CancelReached(w, j, committed);
      && OnlyJob(w, v, j) && v.rows == w.rows && v.stranded == w.stranded
      && v.r.jobs[j].phase.Running? && v.r.jobs[j] == w.r.jobs[j].(cancelPending := false)
  {}

  lemma CancelWriteShape(w: World, j: JobId, committed: bool)
    requires PhaseAt(w, j) && InFn(w, j) && (w.fn[j].Working? || w.fn[j].Committed?)
    requires w.r.jobs[j].timedOut || w.r.jobs[j].interrupted
    ensures Move(w, CancelReached(w, j, committed), j)
  {
    CancelTouches(w, j, committed);
  }

  lemma CancelOutShape(w: World, j: JobId, committed: bool)
    requires PhaseAt(w, j) && InFn(w, j) && (w.fn[j].Cancelling? || w.fn[j].Leaving?)
    requires w.r.jobs[j].timedOut || w.r.jobs[j].interrupted
    ensures Move(w, CancelReached(w, j, committed), j)
  {
    CancelTouches(w, j, committed);
  }

  lemma FnRaisesKeeps(p: Params, w: World, j: JobId, e: TaskError)
    requires Linked(p, w) && InFn(w, j) && w.fn[j].Working?
    ensures Linked(p, FnRaised(w, j, e))
  {
    assert PhaseAt(w, j);
    RaiseShape(w, j, e);
    MoveKeeps(w, FnRaised(w, j, e), j);
  }

  lemma FnSettlesKeeps(p: Params, w: World, j: JobId)
    requires Linked(p, w) && CanSettle(w, j)
    ensures Linked(p, FnSettled(w, j))
  {
    assert PhaseAt(w, j);
    SettledShape(w, j);
    MoveKeeps(w, FnSettled(w, j), j);
  }

  lemma WriteCommitsKeeps(p: Params, w: World, j: JobId)
    requires Linked(p, w) && j in w.writes && HasRow(w, j)
    ensures Linked(p, WriteCommitted(w, j))
  {
    assert PhaseAt(w, j);
    WriteShape(w, j);
    SettleKeeps(w, WriteCommitted(w, j), j, Failing(w.rows[w.rowOf[j]], w.writes[j].message));
  }

  lemma FnCommitsKeeps(p: Params, w: World, j: JobId)
    requires Linked(p, w) && InFn(w, j) && HasRow(w, j) && w.fn[j].Working?
    ensures Linked(p, FnCommitted(w, j))
  {
    assert PhaseAt(w, j);
    CommitShape(w, j);
    SettleKeeps(w, FnCommitted(w, j), j, Completing(w.rows[w.rowOf[j]]));
  }

  lemma FailureCommitsKeeps(p: Params, w: World, j: JobId)
    requires Linked(p, w) && InFn(w, j) && HasRow(w, j) && w.fn[j].FailureWrite?
    ensures Linked(p, FailureCommitted(w, j))
  {
    assert PhaseAt(w, j);
    FailureShape(w, j);
    SettleKeeps(w, FailureCommitted(w, j), j, Failing(w.rows[w.rowOf[j]], w.fn[j].message));
  }

  // ---- Cancellation inside fn ----------------------------------------------

  lemma CancelReachesKeeps(p: Params, w: World, j: JobId, committed: bool)
    requires Linked(p, w) && CanCancel(p, w, j, committed)
    ensures Linked(p, CancelReached(w, j, committed))
  {
    DeliverKeeps(p.limits, w.r, j);
    assert PhaseAt(w, j) && TimesOk(p.limits, w.r, w.r.jobs[j]);
    CancelLinks(w, j, committed);
  }

  lemma CancelLinks(w: World, j: JobId, committed: bool)
    requires LinkOk(w) && PhaseOk(w) && OnePerParent(w.rows) && PhaseAt(w, j) && InFn(w, j)
    requires w.fn[j].FailureWrite? && committed ==> HasRow(w, j)
    requires w.r.jobs[j].timedOut || w.r.jobs[j].interrupted
    ensures var v := CancelReached(w, j, committed);
            LinkOk(v) && PhaseOk(v) && OnePerParent(v.rows)
  {
    if !w.fn[j].FailureWrite? {
      CancelMoves(w, j, committed);
      MoveKeeps(w, CancelReached(w, j, committed), j);
    } else if committed {
      CancelledAfterFailure(w, j);
    } else {
      CancelledBeforeFailure(w, j);
    }
  }

  lemma CancelMoves(w: World, j: JobId, committed: bool)
    requires PhaseAt(w, j) && InFn(w, j) && !w.fn[j].FailureWrite?
    requires w.r.jobs[j].timedOut || w.r.jobs[j].interrupted
    ensures Move(w, CancelReached(w, j, committed), j)
    ensures CancelReached(w, j, committed).rows == w.rows
  {
    if w.fn[j].Cancelling? || w.fn[j].Leaving? {
      CancelOutShape(w, j, committed);
    } else {
      CancelWriteShape(w, j, committed);
    }
  }

  lemma CancelledAfterFailure(w: World, j: JobId)
    requires LinkOk(w) && PhaseOk(w) && OnePerParent(w.rows) && PhaseAt(w, j) && InFn(w, j)
    requires w.fn[j].FailureWrite? && HasRow(w, j) && (w.r.jobs[j].timedOut || w.r.jobs[j].interrupted)
    ensures var v := CancelReached(w, j, true);
            LinkOk(v) && PhaseOk(v) && OnePerParent(v.rows)
  {
    CancelledFailureShape(w, j);
    SettleKeeps(w, CancelReached(w, j, true), j, Failing(w.rows[w.rowOf[j]], w.fn[j].message));
  }

  lemma CancelledBeforeFailure(w: World, j: JobId)
    requires LinkOk(w) && PhaseOk(w) && OnePerParent(w.rows) && PhaseAt(w, j) && InFn(w, j)
    requires w.fn[j].FailureWrite? && (w.r.jobs[j].timedOut || w.r.jobs[j].interrupted)
    ensures var v := CancelReached(w, j, false);
            LinkOk(v) && PhaseOk(v) && OnePerParent(v.rows)
  {
    LostWriteLinks(w, CancelReached(w, j, false), j);
    OnlyJobPhases(w, CancelReached(w, j, false), j);
  }

  /** The unshielded failure write is lost: its row is processing with nobody behind it. */
  lemma LostWriteLinks(w: World, v: World, j: JobId)
    requires LinkOk(w) && PhaseAt(w, j) && InFn(w, j) && w.fn[j].FailureWrite?
    requires v == CancelReached(w, j, false)
    ensures LinkOk(v)
  {
    assert MayWrite(w, j) && WriterOk(w, j);
    forall k | MayWrite(v, k) ensures WriterOk(v, k) {
      assert MayWrite(w, k) && WriterOk(w, k);
      if w.rowOf[k] == w.rowOf[j] { MayWriteAlone(w, j, k); }
    }
    forall id | id in v.rows && v.rows[id].status == Processing && id !in v.stranded && id !in v.handlers
      ensures id in v.lastJob && MayWrite(v, v.lastJob[id])
    {
      assert WriterOk(w, w.lastJob[id]);
    }
  }

  /** Job j is done; the others are at most granted a slot. */
  ghost predicate LeftFn(w: World, v: World, j: JobId) {
    && v == w.(r := v.r) && v.r.now == w.r.now
    && j in w.r.jobs && w.r.jobs[j].phase.Running? && j in w.fn && w.fn[j].Leaving?
    && v.r.jobs.Keys == w.r.jobs.Keys && v.r.jobs[j].phase.Done? && v.r.jobs[j].submittedAt == w.r.jobs[j].submittedAt
    && v.r.closer == w.r.closer && v.r.closed == w.r.closed
    && Grew(w.r.jobs[j], v.r.jobs[j]) && v.r.jobs[j].failures == w.r.jobs[j].failures
    && v.r.jobs[j].timedOut == w.r.jobs[j].timedOut && v.r.jobs[j].entered == w.r.jobs[j].entered
    && forall k :: k in w.r.jobs && k != j ==>
         v.r.jobs[k] == w.r.jobs[k] || (w.r.jobs[k].phase.Waiting? && v.r.jobs[k] == w.r.jobs[k].(phase := Granted))
  }

  lemma FnLeavesShape(p: Params, w: World, j: JobId)
    requires Inv(p.limits, w.r) && CanLeave(p, w, j)
    ensures LeftFn(w, FnLeft(w, j), j)
  {
    FnEndOthers(w.r, j, w.fn[j].result);
  }

  lemma FnLeavesKeeps(p: Params, w: World, j: JobId)
    requires Linked(p, w) && CanLeave(p, w, j)
    ensures Linked(p, FnLeft(w, j))
  {
    FnEndedKeeps(p.limits, w.r, j, w.fn[j].result);
    FnLeavesShape(p, w, j);
    FnLeavesLinks(w, FnLeft(w, j), j);
  }

  lemma FnLeavesOne(w: World, v: World, j: JobId, k: JobId)
    requires LeftFn(w, v, j)
    requires k in w.r.jobs ==> PhaseAt(w, k)
    ensures MayWrite(v, k) == MayWrite(w, k) && Late(v, k) == Late(w, k)
    ensures k in w.r.jobs ==> PhaseAt(v, k) && v.r.jobs[k].phase.Rejected? == w.r.jobs[k].phase.Rejected?
  {}

  lemma FnLeavesLinks(w: World, v: World, j: JobId)
    requires LinkOk(w) && PhaseOk(w)
    requires LeftFn(w, v, j)
    ensures LinkOk(v) && PhaseOk(v)
  {
    forall k { FnLeavesOne(w, v, j, k); }
    LinkShrinks(w, v);
  }

  // ---- Requests ------------------------------------------------------------

  lemma SubmitRowKeeps(p: Params, w: World, id: RowId, j: JobId)
    requires Linked(p, w) && CanSubmit(p, w, id, j)
    ensures Linked(p, SubmittedRow(p, w, id, j))
  {
    var v := SubmittedRow(p, w, id, j);
    SubmitKeeps(p.limits, w.r, j);
    SubmitRowPhases(p, w, id, j);
    SubmitRowLinks(p, w, id, j);
    SubmitRowRest(p, w, id, j);
  }

  lemma SubmitRowRest(p: Params, w: World, id: RowId, j: JobId)
    ensures SubmittedRow(p, w, id, j).r == Submitted(p.limits, w.r, j) && SubmittedRow(p, w, id, j).rows == w.rows
  {}

  lemma SubmitRowPhases(p: Params, w: World, id: RowId, j: JobId)
    requires PhaseOk(w) && j !in w.r.jobs
    ensures PhaseOk(SubmittedRow(p, w, id, j))
  {
    var v := SubmittedRow(p, w, id, j);
    forall k | k in v.r.jobs ensures PhaseAt(v, k) { assert k == j || PhaseAt(w, k); }
  }

  lemma SubmitRowWriters(p: Params, w: World, id: RowId, j: JobId, k: JobId)
    requires PhaseOk(w) && j !in w.r.jobs
    ensures var v := SubmittedRow(p, w, id, j);
      && MayWrite(v, k) == (MayWrite(w, k) || (k == j && Judge(p.limits, w.r).Accepted?))
      && Late(v, k) == Late(w, k) && !MayWrite(w, j) && !Late(w, j)
  {}

  lemma SubmitRowLinks(p: Params, w: World, id: RowId, j: JobId)
    requires LinkOk(w) && PhaseOk(w) && j !in w.r.jobs && id in w.handlers
    ensures LinkOk(SubmittedRow(p, w, id, j))
  {
    if Judge(p.limits, w.r).Accepted? { AcceptedLinks(p, w, id, j); } else { RefusedLinks(p, w, id, j); }
  }

  lemma AcceptedLinks(p: Params, w: World, id: RowId, j: JobId)
    requires LinkOk(w) && PhaseOk(w) && j !in w.r.jobs && id in w.handlers && Judge(p.limits, w.r).Accepted?
    ensures LinkOk(SubmittedRow(p, w, id, j))
  {
    forall k { SubmitRowWriters(p, w, id, j, k); }
    assert j !in w.rowOf;
    HandedOver(w, SubmittedRow(p, w, id, j), id, j);
  }

  lemma RefusedLinks(p: Params, w: World, id: RowId, j: JobId)
    requires LinkOk(w) && PhaseOk(w) && j !in w.r.jobs && id in w.handlers && !Judge(p.limits, w.r).Accepted?
    ensures LinkOk(SubmittedRow(p, w, id, j))
  {
    forall k { SubmitRowWriters(p, w, id, j, k); }
    StillHandled(w, SubmittedRow(p, w, id, j), id);
  }

  /** The handler's row becomes the new job's. */
  lemma HandedOver(w: World, v: World, id: RowId, j: JobId)
    requires LinkOk(w) && id in w.handlers && j !in w.rowOf
    requires v.rows == w.rows && v.stranded == w.stranded && v.handlers == w.handlers - {id}
    requires v.rowOf == w.rowOf[j := id] && v.lastJob == w.lastJob[id := j]
    requires forall k :: MayWrite(v, k) == (MayWrite(w, k) || k == j) && Late(v, k) == Late(w, k)
    requires !MayWrite(w, j) && !Late(w, j)
    ensures LinkOk(v)
  {
    forall k | MayWrite(v, k) ensures WriterOk(v, k) { assert k == j || WriterOk(w, k); }
    forall i | i in v.rows && v.rows[i].status == Processing && i !in v.stranded && i !in v.handlers
      ensures i in v.lastJob && MayWrite(v, v.lastJob[i])
    {
      assert i == id || MayWrite(w, w.lastJob[i]);
    }
  }

  lemma StillHandled(w: World, v: World, id: RowId)
    requires LinkOk(w) && id in w.handlers
    requires v.rows == w.rows && v.stranded == w.stranded && v.handlers.Keys == w.handlers.Keys
    requires v.rowOf == w.rowOf && v.lastJob == w.lastJob
    requires forall k :: MayWrite(v, k) == MayWrite(w, k) && Late(v, k) == Late(w, k)
    ensures LinkOk(v)
  {
    forall k | MayWrite(v, k) ensures WriterOk(v, k) { assert WriterOk(w, k); }
    forall i | i in v.rows && v.rows[i].status == Processing && i !in v.stranded && i !in v.handlers
      ensures i in v.lastJob && MayWrite(v, v.lastJob[i])
    {
      assert MayWrite(w, w.lastJob[i]);
    }
  }

  /** A row that a handler holds, or that is stranded or failed, has no writer among the jobs. */
  lemma NoWriters(w: World, id: RowId)
    requires LinkOk(w) && id in w.rows
    requires id in w.handlers || id in w.stranded || w.rows[id].status == Status.Failed
    ensures forall j :: MayWrite(w, j) && j in w.rowOf ==> w.rowOf[j] != id
  {
    forall j | MayWrite(w, j) && j in w.rowOf ensures w.rowOf[j] != id {
      assert WriterOk(w, j);
    }
  }

  lemma SameRunnerPhases(w: World, v: World)
    requires PhaseOk(w) && v.r == w.r && v.rowOf == w.rowOf && v.writes == w.writes && v.fn == w.fn
    ensures PhaseOk(v)
  {
    forall k | k in v.r.jobs ensures PhaseAt(v, k) { assert PhaseAt(w, k); }
  }

  lemma RetryKeeps(p: Params, w: World, id: RowId)
    requires Linked(p, w) && CanRetry(w, id)
    ensures Linked(p, Retried(w, id))
  {
    NoWriters(w, id);
    RetryLinks(w, id);
    SameRunnerPhases(w, Retried(w, id));
    SameParents(w.rows, id, Resetting(w.rows[id], w.r.now));
  }

  lemma RetryLinks(w: World, id: RowId)
    requires LinkOk(w) && CanRetry(w, id) && forall j :: MayWrite(w, j) && j in w.rowOf ==> w.rowOf[j] != id
    ensures LinkOk(Retried(w, id))
  {
    LinkHandled(w, Retried(w, id), id);
  }

  lemma RejectionKeeps(p: Params, w: World, id: RowId)
    requires Linked(p, w) && CanReject(w, id)
    ensures Linked(p, RejectionCommitted(w, id))
  {
    NoWriters(w, id);
    RejectionLinks(w, id);
    SameRunnerPhases(w, RejectionCommitted(w, id));
    SameParents(w.rows, id, Failing(w.rows[id], w.handlers[id].message));
  }

  lemma RejectionLinks(w: World, id: RowId)
    requires LinkOk(w) && CanReject(w, id) && forall j :: MayWrite(w, j) && j in w.rowOf ==> w.rowOf[j] != id
    ensures LinkOk(RejectionCommitted(w, id))
  {
    LinkHandled(w, RejectionCommitted(w, id), id);
  }

  lemma EnqueueKeeps(p: Params, w: World, id: RowId, parent: nat)
    requires Linked(p, w) && CanEnqueue(w, id, parent)
    ensures Linked(p, Enqueued(w, id, parent))
  {
    var v := Enqueued(w, id, parent);
    SameRunnerPhases(w, v);
    EnqueueLinks(w, id, parent);
    assert OnePerParent(v.rows) by {
      forall a, b | a in v.rows && b in v.rows && a.table == b.table && v.rows[a].parent == v.rows[b].parent
        ensures a == b
      {
        assert a in Siblings(w.rows, id, parent) || b in Siblings(w.rows, id, parent) || a == b
               || (a != id && b != id);
      }
    }
  }

  lemma EnqueueLinks(w: World, id: RowId, parent: nat)
    requires LinkOk(w) && id !in w.rows && id !in w.lastJob && id !in w.handlers
    requires forall k :: k in Siblings(w.rows, id, parent) ==> w.rows[k].status == Status.Failed
    ensures LinkOk(Enqueued(w, id, parent))
  {
    var v := Enqueued(w, id, parent);
    forall j | MayWrite(v, j) ensures WriterOk(v, j) {
      assert MayWrite(w, j) && WriterOk(w, j);
      assert w.rowOf[j] !in Siblings(w.rows, id, parent);
    }
    forall k | k in v.rows && v.rows[k].status == Processing && k !in v.stranded && k !in v.handlers
      ensures k in v.lastJob && MayWrite(v, v.lastJob[k])
    {
      assert MayWrite(w, w.lastJob[k]);
    }
    assert forall k :: k in w.handlers || k in w.stranded ==> k !in Siblings(w.rows, id, parent);
  }

  // ---- Checks and crashes --------------------------------------------------

  /** Neither check matches a processing row that has somebody behind it. */
  ghost predicate ChecksSpareTheLive(p: Params, w: World) {
    forall id :: id in w.rows && w.rows[id].status == Processing && id !in w.stranded ==>
      StaleAge(w.rows[id], w.r.now, p.threshold).None? && !SweepMatches(w.rows[id], w.r.now, p.threshold)
  }

  lemma ReadCheckKeeps(p: Params, w: World, id: RowId)
    requires Linked(p, w) && id in w.rows && ChecksSpareTheLive(p, w)
    ensures Linked(p, ReadChecked(p, w, id))
  {
    if StaleAge(w.rows[id], w.r.now, p.threshold).Some? { StaleKeeps(p, w, id); }
  }

  lemma StaleKeeps(p: Params, w: World, id: RowId)
    requires LinkOk(w) && PhaseOk(w) && OnePerParent(w.rows) && id in w.rows && id in w.stranded
    requires StaleAge(w.rows[id], w.r.now, p.threshold).Some?
    ensures var v := ReadChecked(p, w, id);
      v.r == w.r && LinkOk(v) && PhaseOk(v) && OnePerParent(v.rows)
  {
    NoWriters(w, id);
    LinkHandled(w, ReadChecked(p, w, id), id);
    SameRunnerPhases(w, ReadChecked(p, w, id));
    SameParents(w.rows, id, Failing(w.rows[id], SweepMessage));
  }

  lemma SweepKeeps(p: Params, w: World)
    requires Linked(p, w) && ChecksSpareTheLive(p, w)
    ensures Linked(p, SweptWorld(p, w))
  {
    var v := SweptWorld(p, w);
    SweptRows(p, w);
    SameRunnerPhases(w, v);
    SweepLinks(w, v);
  }

  /** A sweep settles stranded rows only. */
  ghost predicate OnlyStrandedSettled(w: World, v: World) {
    && v == w.(rows := v.rows, stranded := v.stranded) && v.rows.Keys == w.rows.Keys && v.stranded <= w.stranded
    && forall id :: id in w.rows ==>
         && (id in w.stranded && id !in v.stranded ==> v.rows[id].status == Status.Failed)
         && (id !in w.stranded || id in v.stranded ==> v.rows[id] == w.rows[id])
  }

  lemma SweptRows(p: Params, w: World)
    requires ChecksSpareTheLive(p, w)
    ensures OnlyStrandedSettled(w, SweptWorld(p, w))
    ensures OnePerParent(w.rows) ==> OnePerParent(SweptWorld(p, w).rows)
  {}

  lemma SweepLinks(w: World, v: World)
    requires LinkOk(w) && OnlyStrandedSettled(w, v)
    ensures LinkOk(v)
  {
    forall j | MayWrite(v, j) ensures WriterOk(v, j) {
      assert MayWrite(w, j) && WriterOk(w, j);
    }
    forall k | k in v.rows && v.rows[k].status == Processing && k !in v.stranded && k !in v.handlers
      ensures k in v.lastJob && MayWrite(v, v.lastJob[k])
    {
      assert MayWrite(w, w.lastJob[k]);
    }
  }

  lemma StartLinked(p: Params, rows: Store, now: real)
    requires Sane(p.limits) && OnePerParent(rows)
    ensures Linked(p, Start(p, rows, now))
  {
    InitHolds(p.limits, now);
  }
}
