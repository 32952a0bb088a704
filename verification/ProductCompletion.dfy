/** When the row a job has completed outlives the rest of the job's run. */
module ProductCompletion {
  import opened Scheduler
  import opened SchedulerInvariant
  import opened Rows
  import opened Product
  import opened ProductInvariant
  import opened ProductSteps
  import opened ProductClocks
  import opened ProductRuns

  /** The row is there and the same in every state of the run. */
  ghost predicate KeepsRow(p: Params, w: World, acts: seq<Action>, id: RowId, row: Row)
    requires Possible(p, w, acts)
    decreases |acts|
  {
    && id in w.rows && w.rows[id] == row
    && (acts == [] || KeepsRow(p, Do(p, w, acts[0]), acts[1..], id, row))
  }

  /** The action is a cancellation that reaches the job after its completing write and before its return. */
  predicate LateCancel(w: World, a: Action, j: JobId) {
    a.CancelReaches? && a.job == j && j in w.fn && w.fn[j].Committed?
  }

  ghost predicate CancelledLate(p: Params, w: World, acts: seq<Action>, j: JobId)
    requires Possible(p, w, acts)
    decreases |acts|
  {
    acts != [] && (LateCancel(w, acts[0], j) || CancelledLate(p, Do(p, w, acts[0]), acts[1..], j))
  }

  // ---- A job past its wait, from one state to the next ---------------------

  /** The job has a row and is past its wait for a slot. */
  predicate Past(w: World, j: JobId, id: RowId) {
    j in w.r.jobs && !InLine(w.r.jobs[j].phase) && j in w.rowOf && w.rowOf[j] == id
  }

  /** The action starts a shielded write of the job. */
  predicate StartsWrite(w: World, a: Action, j: JobId) {
    a.CancelReaches? && a.job == j && j in w.fn && (w.fn[j].Working? || w.fn[j].Committed?)
  }

  /** What an action may do to such a job and to its write. */
  ghost predicate PastStep(w: World, a: Action, v: World, j: JobId, id: RowId) {
    && Past(v, j, id)
    && (j in v.writes ==> j in w.writes || StartsWrite(w, a, j))
    && (j in w.writes && !(a.WriteCommits? && a.job == j) ==> j in v.writes)
    && (StartsWrite(w, a, j) ==> j in v.writes)
  }

  lemma LoopPast(p: Params, w: World, e: Event, j: JobId, id: RowId)
    requires Linked(p, w) && CanLoop(p, w, e) && Past(w, j, id)
    ensures PastStep(w, Loop(e), Looping(p, w, e), j, id)
  {
    var t := Apply(p.limits, w.r, e);
    LoopHasFacts(p, w, e);
    CoupledLoops(w, e, t, j);
    assert LoopAt(w, e, t, j);
    LoopPastOne(w, e, Looping(p, w, e), j, id);
  }

  lemma LoopPastOne(w: World, e: Event, v: World, j: JobId, id: RowId)
    requires Past(w, j, id) && LoopAt(w, e, v.r, j) && Looped(w, e, v, j)
    ensures PastStep(w, Loop(e), v, j, id)
  {}

  lemma CancelPast(w: World, k: JobId, committed: bool, j: JobId, id: RowId)
    requires InFn(w, k) && (w.fn[k].FailureWrite? && committed ==> HasRow(w, k)) && Past(w, j, id)
    ensures PastStep(w, CancelReaches(k, committed), CancelReached(w, k, committed), j, id)
  {}

  lemma LeavingPast(p: Params, w: World, k: JobId, j: JobId, id: RowId)
    requires Inv(p.limits, w.r) && CanLeave(p, w, k) && Past(w, j, id)
    ensures PastStep(w, FnLeaves(k), FnLeft(w, k), j, id)
  {
    FnLeavesShape(p, w, k);
  }

  lemma SubmitPast(p: Params, w: World, row: RowId, k: JobId, j: JobId, id: RowId)
    requires k !in w.r.jobs && Past(w, j, id)
    ensures PastStep(w, SubmitRow(row, k), SubmittedRow(p, w, row, k), j, id)
  {}

  lemma OtherPast(p: Params, w: World, a: Action, j: JobId, id: RowId)
    requires CanDo(p, w, a) && !RunnerAction(a) && !a.SubmitRow? && !EndsProcess(a) && Past(w, j, id)
    ensures PastStep(w, a, Do(p, w, a), j, id)
  {}

  lemma ActionPast(p: Params, w: World, a: Action, j: JobId, id: RowId)
    requires Linked(p, w) && CanDo(p, w, a) && !EndsProcess(a) && Past(w, j, id)
    ensures PastStep(w, a, Do(p, w, a), j, id)
  {
    if a.Loop? {
      LoopPast(p, w, a.e, j, id);
    } else if RunnerAction(a) {
      TaskPast(p, w, a, j, id);
    } else if a.SubmitRow? {
      SubmitPast(p, w, a.row, a.job, j, id);
    } else {
      OtherPast(p, w, a, j, id);
    }
  }

  lemma TaskPast(p: Params, w: World, a: Action, j: JobId, id: RowId)
    requires Inv(p.limits, w.r) && CanDo(p, w, a) && (a.CancelReaches? || a.FnLeaves?) && Past(w, j, id)
    ensures PastStep(w, a, Do(p, w, a), j, id)
  {
    match a
    case CancelReaches(k, committed) => CancelPast(w, k, committed, j, id);
    case FnLeaves(k) => LeavingPast(p, w, k, j, id);
  }

  // ---- No late cancellation: the row stays ---------------------------------

  /** The row is completed, and nobody but its job, with no write under way, could still change it. */
  ghost predicate Safe(w: World, j: JobId, id: RowId) {
    && Past(w, j, id) && j !in w.writes && id in w.rows && w.rows[id].status == Completed
    && forall k :: k in w.rowOf && w.rowOf[k] == id && MayWrite(w, k) ==> k == j
  }

  lemma SafeWriters(p: Params, w: World, a: Action, j: JobId, id: RowId)
    requires Linked(p, w) && CanDo(p, w, a) && Safe(w, j, id)
    ensures var v := Do(p, w, a); forall k :: k in v.rowOf && v.rowOf[k] == id && MayWrite(v, k) ==> k == j
  {
    var v := Do(p, w, a);
    if a.SubmitRow? {
      SubmissionElsewhere(p, w, a.row, a.job, j, id);
    } else {
      forall k | k in v.rowOf && v.rowOf[k] == id && MayWrite(v, k) ensures k == j { NoNewWriters(p, w, a, k); }
    }
  }

  lemma SubmissionElsewhere(p: Params, w: World, row: RowId, i: JobId, j: JobId, id: RowId)
    requires Linked(p, w) && CanSubmit(p, w, row, i) && Safe(w, j, id)
    ensures var v := SubmittedRow(p, w, row, i);
      forall k :: k in v.rowOf && v.rowOf[k] == id && MayWrite(v, k) ==> k == j
  {
    var v := SubmittedRow(p, w, row, i);
    forall k | k in v.rowOf && v.rowOf[k] == id && MayWrite(v, k) ensures k == j {
      SubmitRowWriters(p, w, row, i, k);
    }
  }

  lemma SafeStartsLate(p: Params, w: World, a: Action, j: JobId, id: RowId)
    requires Linked(p, w) && CanDo(p, w, a) && Safe(w, j, id) && StartsWrite(w, a, j)
    ensures LateCancel(w, a, j)
  {
    assert PhaseAt(w, j) && MayWrite(w, j) && WriterOk(w, j);
  }

  lemma SafeRowStays(p: Params, w: World, a: Action, j: JobId, id: RowId)
    requires Linked(p, w) && CanDo(p, w, a) && Safe(w, j, id)
    ensures id in Do(p, w, a).rows && Do(p, w, a).rows[id] == w.rows[id]
  {
    forall k | k in w.rowOf && w.rowOf[k] == id && MayWrite(w, k) ensures Late(w, k) { assert WriterOk(w, k); }
    assert a.WriteCommits? ==> MayWrite(w, a.job);
    CompletedRowStays(p, w, a, id);
  }

  lemma {:induction false} SafeRun(p: Params, w: World, acts: seq<Action>, j: JobId, id: RowId)
    requires Roomy(p) && Good(p, w) && Possible(p, w, acts) && Safe(w, j, id)
    requires forall a :: a in acts ==> !EndsProcess(a)
    requires !CancelledLate(p, w, acts, j)
    ensures KeepsRow(p, w, acts, id, w.rows[id])
    decreases |acts|
  {
    if acts != [] {
      var a := acts[0];
      SafeStep(p, w, a, j, id);
      ActionKeeps(p, w, a);
      SafeRun(p, Do(p, w, a), acts[1..], j, id);
    }
  }

  lemma SafeStep(p: Params, w: World, a: Action, j: JobId, id: RowId)
    requires Linked(p, w) && CanDo(p, w, a) && Safe(w, j, id) && !EndsProcess(a) && !LateCancel(w, a, j)
    ensures Safe(Do(p, w, a), j, id) && Do(p, w, a).rows[id] == w.rows[id]
  {
    SafeWriters(p, w, a, j, id);
    SafeRowStays(p, w, a, j, id);
    ActionPast(p, w, a, j, id);
    if StartsWrite(w, a, j) { SafeStartsLate(p, w, a, j, id); }
  }

  // ---- A late cancellation: the row changes or its write is still to come --

  lemma CommittedWriteFails(p: Params, w: World, j: JobId, id: RowId)
    requires CanDo(p, w, WriteCommits(j)) && w.rowOf[j] == id
    ensures id in WriteCommitted(w, j).rows && WriteCommitted(w, j).rows[id].status == Status.Failed
  {}

  lemma {:induction false} WriteOutlasts(p: Params, w: World, acts: seq<Action>, j: JobId, id: RowId, row: Row)
    requires Roomy(p) && Good(p, w) && Possible(p, w, acts) && Past(w, j, id) && j in w.writes
    requires forall a :: a in acts ==> !EndsProcess(a)
    requires KeepsRow(p, w, acts, id, row) && row.status == Completed
    ensures j in After(p, w, acts).writes
    decreases |acts|
  {
    if acts != [] {
      var a := acts[0];
      if a == WriteCommits(j) { CommittedWriteFails(p, w, j, id); }
      ActionPast(p, w, a, j, id);
      ActionKeeps(p, w, a);
      WriteOutlasts(p, Do(p, w, a), acts[1..], j, id, row);
    }
  }

  lemma {:induction false} LateCancelOutlasts(p: Params, w: World, acts: seq<Action>, j: JobId, id: RowId, row: Row)
    requires Roomy(p) && Good(p, w) && Possible(p, w, acts) && Past(w, j, id) && CancelledLate(p, w, acts, j)
    requires forall a :: a in acts ==> !EndsProcess(a)
    requires KeepsRow(p, w, acts, id, row) && row.status == Completed
    ensures j in After(p, w, acts).writes
    decreases |acts|
  {
    var a := acts[0];
    ActionPast(p, w, a, j, id);
    ActionKeeps(p, w, a);
    if LateCancel(w, a, j) {
      WriteOutlasts(p, Do(p, w, a), acts[1..], j, id, row);
    } else {
      LateCancelOutlasts(p, Do(p, w, a), acts[1..], j, id, row);
    }
  }

  // ---- The claim -----------------------------------------------------------

  lemma CommittedIsSafe(p: Params, w: World, j: JobId)
    requires Linked(p, w) && InFn(w, j) && w.fn[j].Committed?
    ensures HasRow(w, j) && Safe(w, j, w.rowOf[j])
  {
    assert PhaseAt(w, j) && MayWrite(w, j) && WriterOk(w, j);
    OneWriter(w, w.rowOf[j], j);
    assert forall k :: k in w.rowOf && w.rowOf[k] == w.rowOf[j] && MayWrite(w, k) ==> k in Writers(w, w.rowOf[j]);
  }

  /**
    From the moment its task function has committed, a completed row is the same in every state of a
    run that sees its job's writes to their end, if and only if no cancellation reaches the job
    between that commit and the function's return.
   */
  lemma CompletedSurvivesIff(p: Params, rows: Store, w: World, acts: seq<Action>, j: JobId)
    requires Reachable(p, rows, w) && Possible(p, w, acts)
    requires InFn(w, j) && w.fn[j].Committed?
    requires (forall a :: a in acts ==> !EndsProcess(a)) && j !in After(p, w, acts).writes
    ensures HasRow(w, j) && w.rows[w.rowOf[j]].status == Completed
    ensures KeepsRow(p, w, acts, w.rowOf[j], w.rows[w.rowOf[j]]) <==> !CancelledLate(p, w, acts, j)
  {
    ReachableGood(p, rows, w);
    CommittedIsSafe(p, w, j);
    var id := w.rowOf[j];
    if !CancelledLate(p, w, acts, j) {
      SafeRun(p, w, acts, j, id);
    } else if KeepsRow(p, w, acts, id, w.rows[id]) {
      LateCancelOutlasts(p, w, acts, j, id, w.rows[id]);
    }
  }
}
