/**
  Shielded writes that outlive the job that started them: when a write is cut loose, and that only
  the shutdown does it.
 */
module ProductDetached {
  import opened Scheduler
  import opened SchedulerInvariant
  import opened SchedulerMoves
  import opened SchedulerFates
  import opened Rows
  import opened Product
  import opened ProductInvariant
  import opened ProductSteps
  import opened ProductClocks
  import opened ProductRuns

  /**
    The action takes a job off the write it awaits: the cancel pass finds it in its never-started
    write, or a second cancellation reaches it in its `except CancelledError`.
   */
  predicate CutsLoose(w: World, a: Action, j: JobId) {
    j in w.writes && match a
      case Loop(e) => PassFinds(w.r, e, j)
      case CancelReaches(k, _) => k == j && j in w.fn && w.fn[j].Cancelling?
      case _ => false
  }

  /** A second cancellation is a shutdown's, or comes after one's. */
  predicate CutAt(w: World, j: JobId) {
    j in w.r.jobs && (SecondPending(w, j) || Detached(w, j)) ==> w.r.jobs[j].interrupted
  }

  predicate SecondPending(w: World, j: JobId) {
    && j in w.r.jobs && w.r.jobs[j].phase.Running? && w.r.jobs[j].cancelPending
    && j in w.fn && w.fn[j].Cancelling?
  }

  ghost predicate CutOk(w: World) { forall j :: CutAt(w, j) }

  /** What an action does to the write of job j, as far as its job is concerned. */
  ghost predicate CutStep(w: World, a: Action, v: World, j: JobId) {
    && (Detached(v, j) <==> j in v.writes && (Detached(w, j) || CutsLoose(w, a, j)))
    && (CutsLoose(w, a, j) ==> j in v.writes)
    && (CutAt(w, j) ==> CutAt(v, j))
  }

  // ---- Every action --------------------------------------------------------

  lemma LoopCut(p: Params, w: World, e: Event, j: JobId)
    requires Linked(p, w) && CanLoop(p, w, e)
    ensures CutStep(w, Loop(e), Looping(p, w, e), j)
  {
    LoopFate(p, w, e, j);
    if j in w.r.jobs { LoopedCut(p.limits, w, e, Looping(p, w, e), j); } else { NobodyCut(w, e, Looping(p, w, e), j); }
  }

  lemma LoopFate(p: Params, w: World, e: Event, j: JobId)
    requires Linked(p, w) && CanLoop(p, w, e)
    ensures var v := Looping(p, w, e);
      if j in w.r.jobs then LoopedAt(p.limits, w, e, v, j) else j !in w.writes && j !in v.r.jobs && Looped(w, e, v, j)
  {
    LoopHasFacts(p, w, e);
    CoupledLoops(w, e, Apply(p.limits, w.r, e), j);
    FactsFate(p, w, e, j);
  }

  lemma FactsFate(p: Params, w: World, e: Event, j: JobId)
    requires Inv(p.limits, w.r) && PhaseOk(w) && CanLoop(p, w, e)
    requires LoopFacts(w, e, Looping(p, w, e).r) && Looped(w, e, Looping(p, w, e), j)
    ensures var v := Looping(p, w, e);
      if j in w.r.jobs then LoopedAt(p.limits, w, e, v, j) else j !in w.writes && j !in v.r.jobs && Looped(w, e, v, j)
  {
    if j in w.r.jobs { RunnerFate(p, w, e, j); } else { Nobody(w, e, Looping(p, w, e), j); }
  }

  lemma Nobody(w: World, e: Event, v: World, j: JobId)
    requires PhaseOk(w) && AllFlagsKept(w.r, v.r) && j !in w.r.jobs
    ensures j !in w.writes && j !in v.r.jobs
  {}

  lemma RunnerFate(p: Params, w: World, e: Event, j: JobId)
    requires Inv(p.limits, w.r) && PhaseOk(w) && CanLoop(p, w, e) && j in w.r.jobs
    requires LoopFacts(w, e, Looping(p, w, e).r) && Looped(w, e, Looping(p, w, e), j)
    ensures LoopedAt(p.limits, w, e, Looping(p, w, e), j)
  {
    CoupledKeeps(w, e, Apply(p.limits, w.r, e));
    StepTakes(p.limits, w.r, e, j);
    if w.r.jobs[j].phase.Marking? { MarkingStays(p.limits, w.r, e, j); }
    FateAt(p.limits, w, e, Looping(p, w, e), j);
  }

  lemma FateAt(l: Limits, w: World, e: Event, v: World, j: JobId)
    requires JobsOk(l, w.r) && PhaseOk(w) && LoopFacts(w, e, v.r) && Looped(w, e, v, j) && j in w.r.jobs
    requires RunnerOnly(w, e) && Enabled(l, w.r, e) && Took(l, w.r, e, j, w.r.jobs[j], v.r.jobs[j])
    requires w.r.jobs[j].phase.Marking? ==> MarkingKept(w.r, e, v.r, j)
    ensures LoopedAt(l, w, e, v, j)
  {
    assert LoopAt(w, e, v.r, j) && PhaseAt(w, j) && HistoryOk(w.r.jobs[j]);
  }

  lemma NobodyCut(w: World, e: Event, v: World, j: JobId)
    requires Looped(w, e, v, j) && j !in w.r.jobs && j !in w.writes && j !in v.r.jobs
    ensures CutStep(w, Loop(e), v, j)
  {}

  lemma LoopedCut(l: Limits, w: World, e: Event, v: World, j: JobId)
    requires LoopedAt(l, w, e, v, j)
    ensures CutStep(w, Loop(e), v, j)
  {
    if j in w.writes { WriteCut(l, w, e, v, j); } else { NoWriteCut(l, w, e, v, j); }
  }

  /** The facts about one job that a runner step leaves behind. */
  ghost predicate LoopedAt(l: Limits, w: World, e: Event, v: World, j: JobId) {
    && LoopAt(w, e, v.r, j) && Looped(w, e, v, j) && PhaseAt(w, j) && HistoryOk(w.r.jobs[j])
    && RunnerOnly(w, e) && Enabled(l, w.r, e) && Took(l, w.r, e, j, w.r.jobs[j], v.r.jobs[j])
    && (w.r.jobs[j].phase.Marking? ==> MarkingKept(w.r, e, v.r, j))
  }

  lemma WriteCut(l: Limits, w: World, e: Event, v: World, j: JobId)
    requires LoopedAt(l, w, e, v, j) && j in w.writes
    ensures CutStep(w, Loop(e), v, j)
  {
    assert SameAt(w, v, j);
    SecondComesLater(l, w, e, v, j);
  }

  lemma NoWriteCut(l: Limits, w: World, e: Event, v: World, j: JobId)
    requires LoopedAt(l, w, e, v, j) && j !in w.writes
    ensures CutStep(w, Loop(e), v, j)
  {
    SecondComesLater(l, w, e, v, j);
  }

  /** A cancellation that meets the handler of another one is the grace period's, or the deadline's after it. */
  lemma SecondComesLater(l: Limits, w: World, e: Event, v: World, j: JobId)
    requires LoopedAt(l, w, e, v, j)
    ensures CutAt(w, j) && SecondPending(v, j) ==> v.r.jobs[j].interrupted
  {}

  lemma CancelCut(p: Params, w: World, k: JobId, committed: bool, j: JobId)
    requires Linked(p, w) && CanCancel(p, w, k, committed)
    ensures CutStep(w, CancelReaches(k, committed), CancelReached(w, k, committed), j)
  {
    assert PhaseAt(w, k);
    CancelCutOne(w, k, committed, j);
  }

  lemma CancelCutOne(w: World, k: JobId, committed: bool, j: JobId)
    requires PhaseAt(w, k) && InFn(w, k) && (w.fn[k].FailureWrite? && committed ==> HasRow(w, k))
    requires w.r.jobs[k].cancelPending
    ensures CutStep(w, CancelReaches(k, committed), CancelReached(w, k, committed), j)
  {}

  lemma LeavingCut(p: Params, w: World, k: JobId, j: JobId)
    requires Linked(p, w) && CanLeave(p, w, k)
    ensures CutStep(w, FnLeaves(k), FnLeft(w, k), j)
  {
    FnLeavesShape(p, w, k);
    if j in w.r.jobs {
      assert PhaseAt(w, j);
      LeavingCutOne(w, FnLeft(w, k), k, j);
    }
  }

  lemma LeavingCutOne(w: World, v: World, k: JobId, j: JobId)
    requires LeftFn(w, v, k) && PhaseAt(w, j)
    ensures CutStep(w, FnLeaves(k), v, j)
  {}

  lemma FnActionCut(p: Params, w: World, a: Action, j: JobId)
    requires PhaseOk(w) && CanDo(p, w, a) && FnAction(a)
    ensures CutStep(w, a, Do(p, w, a), j)
  {
    assert PhaseAt(w, a.job);
    FnActionOnlyJob(p, w, a);
    if j == a.job { OwnFnActionCut(p, w, a); }
  }

  lemma OwnFnActionCut(p: Params, w: World, a: Action)
    requires FnAction(a) && PhaseAt(w, a.job) && CanDo(p, w, a)
    ensures CutStep(w, a, Do(p, w, a), a.job)
  {}

  lemma SubmitCut(p: Params, w: World, row: RowId, k: JobId, j: JobId)
    requires PhaseOk(w) && k !in w.r.jobs
    ensures CutStep(w, SubmitRow(row, k), SubmittedRow(p, w, row, k), j)
  {}

  lemma RowsCut(p: Params, w: World, a: Action, j: JobId)
    requires CanDo(p, w, a) && (a.Enqueue? || a.Retry? || a.RejectionCommits? || a.Sweep? || a.ReadCheck?)
    ensures CutStep(w, a, Do(p, w, a), j)
  {}

  lemma ActionCut(p: Params, w: World, a: Action, j: JobId)
    requires Linked(p, w) && CanDo(p, w, a) && !EndsProcess(a)
    ensures CutStep(w, a, Do(p, w, a), j)
  {
    if a.Loop? {
      LoopCut(p, w, a.e, j);
    } else if a.CancelReaches? {
      CancelCut(p, w, a.job, a.committed, j);
    } else {
      CalmCut(p, w, a, j);
    }
  }

  lemma CalmCut(p: Params, w: World, a: Action, j: JobId)
    requires Linked(p, w) && CanDo(p, w, a) && !EndsProcess(a) && !a.Loop? && !a.CancelReaches?
    ensures CutStep(w, a, Do(p, w, a), j)
  {
    if a.FnLeaves? {
      LeavingCut(p, w, a.job, j);
    } else if FnAction(a) {
      FnActionCut(p, w, a, j);
    } else if a.SubmitRow? {
      SubmitCut(p, w, a.row, a.job, j);
    } else {
      RowsCut(p, w, a, j);
    }
  }

  // ---- Runs ----------------------------------------------------------------

  lemma {:induction false} RunKeepsCut(p: Params, w: World, acts: seq<Action>)
    requires Roomy(p) && Good(p, w) && CutOk(w) && Possible(p, w, acts)
    ensures CutOk(After(p, w, acts))
    decreases |acts|
  {
    if acts != [] {
      var a := acts[0];
      ActionKeeps(p, w, a);
      ActionKeepsCut(p, w, a);
      RunKeepsCut(p, Do(p, w, a), acts[1..]);
    }
  }

  lemma ActionKeepsCut(p: Params, w: World, a: Action)
    requires Linked(p, w) && CutOk(w) && CanDo(p, w, a)
    ensures CutOk(Do(p, w, a))
  {
    if EndsProcess(a) { EndCut(p, w, a); } else { StepsKeepCut(p, w, a); }
  }

  lemma EndCut(p: Params, w: World, a: Action)
    requires CanDo(p, w, a) && EndsProcess(a)
    ensures CutOk(Do(p, w, a))
  {}

  lemma StepsKeepCut(p: Params, w: World, a: Action)
    requires Linked(p, w) && CutOk(w) && CanDo(p, w, a) && !EndsProcess(a)
    ensures CutOk(Do(p, w, a))
  {
    forall j ensures CutAt(Do(p, w, a), j) { ActionKeepsCutAt(p, w, a, j); }
  }

  lemma ActionKeepsCutAt(p: Params, w: World, a: Action, j: JobId)
    requires Linked(p, w) && CutAt(w, j) && CanDo(p, w, a) && !EndsProcess(a)
    ensures CutAt(Do(p, w, a), j)
  {
    ActionCut(p, w, a, j);
  }

  lemma ReachableCut(p: Params, rows: Store, w: World)
    requires Reachable(p, rows, w)
    ensures Good(p, w) && CutOk(w)
  {
    var now: real, acts :|
      Possible(p, Start(p, rows, now), acts) && After(p, Start(p, rows, now), acts) == w;
    StartLinked(p, rows, now);
    RunKeepsCut(p, Start(p, rows, now), acts);
    ReachableGood(p, rows, w);
  }

  // ---- Whom a processing row belongs to ------------------------------------

  /**
    The row is its newest job's alone, and the job is unfinished; or it is done, the shutdown cancelled
    it, and its failure write is still under way.
   */
  ghost predicate HasJob(w: World, id: RowId) {
    && id in w.lastJob
    && var j := w.lastJob[id];
       && j in w.r.jobs && j in w.rowOf && w.rowOf[j] == id && Writers(w, id) == {j}
       && (Live(w.r.jobs[j].phase)
           || (w.r.jobs[j].phase.Done? && Detached(w, j) && w.r.jobs[j].interrupted && PassDone(w.r.closer)))
  }

  /**
    A processing row that nothing stranded has a request or a job; and before the cancel pass of a
    shutdown the job is an unfinished one.
   */
  lemma HeldByAnUnfinishedJob(p: Params, rows: Store, w: World, id: RowId)
    requires Reachable(p, rows, w) && id in w.rows && w.rows[id].status == Processing
    requires id !in w.stranded
    ensures id in w.handlers || HasJob(w, id)
    ensures id !in w.handlers && !PassDone(w.r.closer) ==> Live(w.r.jobs[w.lastJob[id]].phase)
  {
    ReachableCut(p, rows, w);
    if id !in w.handlers { JobOfRow(p, w, id); }
  }

  lemma JobOfRow(p: Params, w: World, id: RowId)
    requires Linked(p, w) && CutOk(w) && id in w.rows && w.rows[id].status == Processing
    requires id !in w.stranded && id !in w.handlers
    ensures HasJob(w, id)
  {
    var j := w.lastJob[id];
    assert MayWrite(w, j) && WriterOk(w, j);
    OneWriter(w, id, j);
    WriterBehind(w, j);
    assert CutAt(w, j) && PhaseAt(w, j);
  }

  // ---- Which writes are detached -------------------------------------------

  ghost predicate CutLoose(p: Params, w: World, acts: seq<Action>, j: JobId)
    requires Possible(p, w, acts)
    decreases |acts|
  {
    acts != [] && (CutsLoose(w, acts[0], j) || CutLoose(p, Do(p, w, acts[0]), acts[1..], j))
  }

  /** Past the point where the job could start a write. */
  predicate Spent(w: World, j: JobId) {
    j in w.r.jobs && (
      || w.r.jobs[j].phase == Marking(true) || w.r.jobs[j].phase.Done?
      || (w.r.jobs[j].phase.Running? && j in w.fn && w.fn[j].Leaving?))
  }

  ghost predicate SpentStep(w: World, v: World, j: JobId) {
    Spent(w, j) && j !in w.writes ==> Spent(v, j) && j !in v.writes
  }

  lemma LoopSpent(p: Params, w: World, e: Event, j: JobId)
    requires Linked(p, w) && CanLoop(p, w, e)
    ensures SpentStep(w, Looping(p, w, e), j)
  {
    LoopFate(p, w, e, j);
    if j in w.r.jobs { LoopedSpent(p.limits, w, e, Looping(p, w, e), j); }
  }

  lemma LoopedSpent(l: Limits, w: World, e: Event, v: World, j: JobId)
    requires LoopedAt(l, w, e, v, j)
    ensures SpentStep(w, v, j)
  {}

  lemma CancelSpent(w: World, k: JobId, committed: bool, j: JobId)
    requires InFn(w, k) && (w.fn[k].FailureWrite? && committed ==> HasRow(w, k))
    ensures SpentStep(w, CancelReached(w, k, committed), j)
  {}

  lemma LeavingSpent(p: Params, w: World, k: JobId, j: JobId)
    requires Linked(p, w) && CanLeave(p, w, k)
    ensures SpentStep(w, FnLeft(w, k), j)
  {
    FnLeavesShape(p, w, k);
    LeftSpent(w, FnLeft(w, k), k, j);
  }

  lemma LeftSpent(w: World, v: World, k: JobId, j: JobId)
    requires LeftFn(w, v, k)
    ensures SpentStep(w, v, j)
  {}

  lemma RestSpent(p: Params, w: World, a: Action, j: JobId)
    requires CanDo(p, w, a) && !EndsProcess(a) && !RunnerAction(a)
    ensures SpentStep(w, Do(p, w, a), j)
  {}

  lemma ActionSpent(p: Params, w: World, a: Action, j: JobId)
    requires Linked(p, w) && CanDo(p, w, a) && !EndsProcess(a)
    ensures SpentStep(w, Do(p, w, a), j)
  {
    if a.Loop? {
      LoopSpent(p, w, a.e, j);
    } else if a.CancelReaches? {
      CancelSpent(w, a.job, a.committed, j);
    } else if a.FnLeaves? {
      LeavingSpent(p, w, a.job, j);
    } else {
      RestSpent(p, w, a, j);
    }
  }

  lemma {:induction false} NeverAgain(p: Params, w: World, acts: seq<Action>, j: JobId)
    requires Roomy(p) && Good(p, w) && Possible(p, w, acts) && Spent(w, j) && j !in w.writes
    requires forall a :: a in acts ==> !EndsProcess(a)
    ensures j !in After(p, w, acts).writes
    decreases |acts|
  {
    if acts != [] {
      var a := acts[0];
      ActionSpent(p, w, a, j);
      ActionKeeps(p, w, a);
      NeverAgain(p, Do(p, w, a), acts[1..], j);
    }
  }

  /** When the write of a job that no longer awaits it has committed, the job never starts another. */
  lemma CommittedForGood(p: Params, w: World, a: Action, rest: seq<Action>, j: JobId)
    requires Roomy(p) && Good(p, w) && CanDo(p, w, a) && Possible(p, Do(p, w, a), rest)
    requires !EndsProcess(a) && forall b :: b in rest ==> !EndsProcess(b)
    requires Detached(w, j) && j !in Do(p, w, a).writes
    ensures j !in After(p, Do(p, w, a), rest).writes
  {
    assert PhaseAt(w, j) && HistoryOk(w.r.jobs[j]);
    ActionKeeps(p, w, a);
    if a == WriteCommits(j) {
      NeverAgain(p, Do(p, w, a), rest, j);
    } else {
      WriteStays(p, w, a, j);
    }
  }

  lemma WriteStays(p: Params, w: World, a: Action, j: JobId)
    requires Linked(p, w) && CanDo(p, w, a) && !EndsProcess(a) && a != WriteCommits(j) && j in w.writes
    ensures j in Do(p, w, a).writes
  {
    if a.Loop? {
      LoopWrites(p, w, a.e, j);
    } else if a.CancelReaches? {
      CancelWrites(w, a.job, a.committed, j);
    } else {
      RestWrites(p, w, a, j);
    }
  }

  lemma CancelWrites(w: World, k: JobId, committed: bool, j: JobId)
    requires InFn(w, k) && (w.fn[k].FailureWrite? && committed ==> HasRow(w, k)) && j in w.writes
    ensures j in CancelReached(w, k, committed).writes
  {}

  lemma RestWrites(p: Params, w: World, a: Action, j: JobId)
    requires CanDo(p, w, a) && !EndsProcess(a) && !a.Loop? && !a.CancelReaches? && a != WriteCommits(j) && j in w.writes
    ensures j in Do(p, w, a).writes
  {
    if a.SubmitRow? { SubmitPutsNothing(p, w, a.row, a.job); }
  }

  lemma SubmitPutsNothing(p: Params, w: World, row: RowId, k: JobId)
    ensures SubmittedRow(p, w, row, k).writes == w.writes
  {}

  lemma LoopWrites(p: Params, w: World, e: Event, j: JobId)
    requires Linked(p, w) && CanLoop(p, w, e) && j in w.writes
    ensures j in Looping(p, w, e).writes
  {
    LoopFate(p, w, e, j);
  }

  lemma {:induction false} RunCut(p: Params, w: World, acts: seq<Action>, j: JobId)
    requires Roomy(p) && Good(p, w) && Possible(p, w, acts)
    requires forall a :: a in acts ==> !EndsProcess(a)
    ensures var v := After(p, w, acts);
      Detached(v, j) <==> j in v.writes && (Detached(w, j) || CutLoose(p, w, acts, j))
    decreases |acts|
  {
    if acts != [] {
      var a := acts[0];
      ActionCut(p, w, a, j);
      ActionKeeps(p, w, a);
      RunCut(p, Do(p, w, a), acts[1..], j);
      if Detached(w, j) && j !in Do(p, w, a).writes { CommittedForGood(p, w, a, acts[1..], j); }
    }
  }

  /**
    Over any run of one process: a write in flight is detached from its job if and only if the cancel
    pass found the job in its never-started write, or a second cancellation reached the job's handler
    of the first.
   */
  lemma DetachedIff(p: Params, rows: Store, now: real, acts: seq<Action>, j: JobId)
    requires Sane(p.limits) && Calm(p) && Roomy(p) && OnePerParent(rows)
    requires Possible(p, Start(p, rows, now), acts) && forall a :: a in acts ==> !EndsProcess(a)
    ensures var w := After(p, Start(p, rows, now), acts);
      Detached(w, j) <==> j in w.writes && CutLoose(p, Start(p, rows, now), acts, j)
  {
    StartLinked(p, rows, now);
    RunCut(p, Start(p, rows, now), acts, j);
  }
}
