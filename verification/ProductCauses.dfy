/** Why a row failed with the message it carries, over whole runs. */
module ProductCauses {
  import opened Wrappers
  import opened Messages
  import opened Scheduler
  import opened SchedulerInvariant
  import opened SchedulerMoves
  import opened SchedulerFates
  import opened Rows
  import opened Product
  import opened ProductSteps
  import opened ProductClocks
  import opened ProductMessages
  import opened ProductRuns
  import opened ProductClaims

  // ---- What a job is told, and why -----------------------------------------

  /** A cancellation reaches the job while it works on its row. */
  predicate Interrupts(w: World, a: Action, j: JobId) {
    a.CancelReaches? && a.job == j && j in w.fn && (w.fn[j].Working? || w.fn[j].Committed?)
  }

  /** The job gives up its place in line: fn will never run. */
  predicate GivesUp(w: World, a: Action, j: JobId) {
    a == Loop(Resume(j)) && j in w.r.jobs && w.r.jobs[j].phase.Unwinding?
  }

  /**
    The action is what the message says: its own text for an error the task knows; the sweep's for any
    other error and for a shutdown; a timeout for the run deadline; busy for the wait cap.
   */
  predicate Tells(w: World, a: Action, j: JobId, m: Message) {
    match m
    case ErrorMessage(error) => a == FnRaises(j, Known(error))
    case SweepMessage =>
      a == FnRaises(j, Other) || (Interrupts(w, a, j) && w.r.closed) || (GivesUp(w, a, j) && w.r.jobs[j].interrupted)
    case TimeoutMessage => Interrupts(w, a, j) && !w.r.closed
    case BusyMessage => GivesUp(w, a, j) && !w.r.jobs[j].interrupted
    case EnqueueFailedMessage => false
  }

  /** After the action, what job j has been told is what the action tells it, if it tells it anything. */
  ghost predicate RightlyTold(w: World, a: Action, j: JobId, told: map<JobId, Message>) {
    && (j in told ==> Tells(w, a, j, told[j]))
    && (forall m :: Tells(w, a, j, m) ==> j in told && told[j] == m)
  }

  lemma SilentStep(w: World, t: Runner, e: Event)
    requires Resumes(w.r, e).Some? ==> !LeavesUnstarted(t, Resumes(w.r, e).value)
    ensures Coupled(w, t, e).told == w.told
  {}

  lemma UnstartedIsTold(w: World, t: Runner, j: JobId)
    requires LeavesUnstarted(t, j)
    ensures Coupled(w, t, Resume(j)).told == w.told[j := t.jobs[j].failures[0]]
  {}

  lemma StartingIsNoFailure(l: Limits, s: Runner)
    requires Inv(l, s) && Enabled(l, s, RunReady) && s.ready[0].FirstStep?
    ensures !LeavesUnstarted(RanReady(l, s), s.ready[0].job)
  {
    StepTakes(l, s, RunReady, s.ready[0].job);
  }

  lemma EnteringIsNoFailure(l: Limits, s: Runner, j: JobId)
    requires Inv(l, s) && Enabled(l, s, Resume(j)) && s.jobs[j].phase.Granted?
    ensures !LeavesUnstarted(Resumed(l, s, j), j)
  {
    StepTakes(l, s, Resume(j), j);
  }

  lemma GivingUpIsFailure(l: Limits, s: Runner, j: JobId)
    requires Inv(l, s) && Enabled(l, s, Resume(j)) && s.jobs[j].phase.Unwinding?
    ensures var t := Resumed(l, s, j);
      LeavesUnstarted(t, j) && t.jobs[j].failures[0] == if s.jobs[j].interrupted then SweepMessage else BusyMessage
  {
    assert HistoryOk(s.jobs[j]);
    StepTakes(l, s, Resume(j), j);
  }

  /** Only a waiter that gives up is told something by a step of the runner. */
  lemma LoopTellsOnly(p: Params, w: World, e: Event)
    requires Linked(p, w) && Enabled(p.limits, w.r, e)
    ensures Coupled(w, Apply(p.limits, w.r, e), e).told ==
            if e.Resume? && w.r.jobs[e.job].phase.Unwinding?
            then w.told[e.job := if w.r.jobs[e.job].interrupted then SweepMessage else BusyMessage] else w.told
  {
    var t := Apply(p.limits, w.r, e);
    if e.Resume? && w.r.jobs[e.job].phase.Unwinding? {
      GivingUpIsFailure(p.limits, w.r, e.job);
      UnstartedIsTold(w, t, e.job);
    } else {
      if e.Resume? { EnteringIsNoFailure(p.limits, w.r, e.job); }
      if e.RunReady? && w.r.ready[0].FirstStep? { StartingIsNoFailure(p.limits, w.r); }
      SilentStep(w, t, e);
    }
  }

  lemma LoopTells(p: Params, w: World, e: Event, j: JobId)
    requires Linked(p, w) && CanLoop(p, w, e) && j !in w.told
    ensures RightlyTold(w, Loop(e), j, Looping(p, w, e).told)
  {
    LoopTellsOnly(p, w, e);
    StepTells(w, e, j, Looping(p, w, e).told);
  }

  lemma StepTells(w: World, e: Event, j: JobId, told: map<JobId, Message>)
    requires e.Resume? ==> e.job in w.r.jobs
    requires j !in w.told
    requires told == if e.Resume? && w.r.jobs[e.job].phase.Unwinding?
                     then w.told[e.job := if w.r.jobs[e.job].interrupted then SweepMessage else BusyMessage] else w.told
    ensures RightlyTold(w, Loop(e), j, told)
  {}

  lemma CancelTells(w: World, k: JobId, committed: bool, j: JobId)
    requires InFn(w, k) && (w.fn[k].FailureWrite? && committed ==> HasRow(w, k)) && j !in w.told
    ensures RightlyTold(w, CancelReaches(k, committed), j, CancelReached(w, k, committed).told)
  {}

  lemma RaiseTells(w: World, k: JobId, e: TaskError, j: JobId)
    requires j !in w.told
    ensures RightlyTold(w, FnRaises(k, e), j, FnRaised(w, k, e).told)
  {}

  lemma OthersTell(w: World, a: Action, j: JobId)
    requires !a.Loop? && !a.CancelReaches? && !a.FnRaises? && j !in w.told
    ensures RightlyTold(w, a, j, w.told)
  {}

  /** Who is told something new is told it for the reason that goes with it, and whoever has the reason is told. */
  lemma ToldForAReason(p: Params, w: World, a: Action, j: JobId)
    requires Linked(p, w) && CanDo(p, w, a) && !EndsProcess(a) && j !in w.told
    ensures RightlyTold(w, a, j, Do(p, w, a).told)
  {
    if a.Loop? {
      LoopTells(p, w, a.e, j);
    } else if a.CancelReaches? {
      CancelTells(w, a.job, a.committed, j);
    } else if a.FnRaises? {
      RaiseTells(w, a.job, a.error, j);
    } else {
      TellsNobody(p, w, a);
      OthersTell(w, a, j);
    }
  }

  /** Nobody who has been told is given a reason again. */
  lemma ToldHaveNoReason(p: Params, w: World, a: Action, j: JobId, m: Message)
    requires ToldAt(w, j) && CanDo(p, w, a) && j in w.told
    ensures !Tells(w, a, j, m)
  {}

  // ---- Over runs -----------------------------------------------------------

  predicate SameProcess(acts: seq<Action>) { forall k :: 0 <= k < |acts| ==> !EndsProcess(acts[k]) }

  /** In the run, and in the process it ends in, some action tells job j the message. */
  ghost predicate ToldIn(p: Params, w: World, acts: seq<Action>, j: JobId, m: Message)
    requires Possible(p, w, acts)
    decreases |acts|
  {
    && acts != []
    && ((Tells(w, acts[0], j, m) && SameProcess(acts)) || ToldIn(p, Do(p, w, acts[0]), acts[1..], j, m))
  }

  lemma {:induction false} ToldStays(p: Params, w: World, acts: seq<Action>, j: JobId)
    requires Roomy(p) && Good(p, w) && Possible(p, w, acts) && SameProcess(acts) && j in w.told
    ensures j in After(p, w, acts).told && After(p, w, acts).told[j] == w.told[j]
    decreases |acts|
  {
    if acts != [] {
      ActionKeeps(p, w, acts[0]);
      ToldOnce(p, w, acts[0], j);
      ToldStays(p, Do(p, w, acts[0]), acts[1..], j);
    }
  }

  lemma ReasonTells(p: Params, w: World, a: Action, j: JobId, m: Message)
    requires Good(p, w) && CanDo(p, w, a) && !EndsProcess(a) && Tells(w, a, j, m)
    ensures j in Do(p, w, a).told && Do(p, w, a).told[j] == m
  {
    if j in w.told {
      assert ToldAt(w, j);
      ToldHaveNoReason(p, w, a, j, m);
    }
    ToldForAReason(p, w, a, j);
  }

  lemma {:induction false} ReasonsAreTold(p: Params, w: World, acts: seq<Action>, j: JobId, m: Message)
    requires Roomy(p) && Good(p, w) && Possible(p, w, acts) && ToldIn(p, w, acts, j, m)
    ensures j in After(p, w, acts).told && After(p, w, acts).told[j] == m
    decreases |acts|
  {
    var v := Do(p, w, acts[0]);
    ActionKeeps(p, w, acts[0]);
    if Tells(w, acts[0], j, m) && SameProcess(acts) {
      ReasonTells(p, w, acts[0], j, m);
      ToldStays(p, v, acts[1..], j);
    } else {
      ReasonsAreTold(p, v, acts[1..], j, m);
    }
  }

  lemma FreshProcess(p: Params, w: World, a: Action)
    requires CanDo(p, w, a) && EndsProcess(a)
    ensures Do(p, w, a).told == map[]
  {}

  lemma NewlyTold(p: Params, w: World, a: Action, j: JobId)
    requires Linked(p, w) && CanDo(p, w, a) && j in Do(p, w, a).told
    ensures !EndsProcess(a) && (j in w.told || Tells(w, a, j, Do(p, w, a).told[j]))
  {
    if EndsProcess(a) { FreshProcess(p, w, a); } else if j !in w.told { ToldForAReason(p, w, a, j); }
  }

  lemma SameProcessFrom(acts: seq<Action>)
    requires acts != [] && !EndsProcess(acts[0]) && SameProcess(acts[1..])
    ensures SameProcess(acts)
  {
    assert acts == [acts[0]] + acts[1..];
  }

  lemma {:induction false} ToldHaveReasons(p: Params, w: World, acts: seq<Action>, j: JobId)
    requires Roomy(p) && Good(p, w) && Possible(p, w, acts) && j in After(p, w, acts).told
    ensures (j in w.told && SameProcess(acts)) || ToldIn(p, w, acts, j, After(p, w, acts).told[j])
    decreases |acts|
  {
    if acts != [] {
      var v := Do(p, w, acts[0]);
      ActionKeeps(p, w, acts[0]);
      ToldHaveReasons(p, v, acts[1..], j);
      if j in v.told && SameProcess(acts[1..]) {
        ToldStays(p, v, acts[1..], j);
        NewlyTold(p, w, acts[0], j);
        SameProcessFrom(acts);
      }
    }
  }

  /** In every state of every run, a job has been told a message exactly when the run gave the reason for it. */
  lemma ToldExactlyWithReason(p: Params, rows: Store, now: real, acts: seq<Action>, j: JobId, m: Message)
    requires Sane(p.limits) && Calm(p) && Roomy(p) && OnePerParent(rows) && Possible(p, Start(p, rows, now), acts)
    ensures var w := After(p, Start(p, rows, now), acts);
      j in w.told && w.told[j] == m <==> ToldIn(p, Start(p, rows, now), acts, j, m)
  {
    var s := Start(p, rows, now);
    StartLinked(p, rows, now);
    if ToldIn(p, s, acts, j, m) { ReasonsAreTold(p, s, acts, j, m); }
    if j in After(p, s, acts).told { ToldHaveReasons(p, s, acts, j); }
  }

  // ---- Refusals ------------------------------------------------------------

  /** A refused request fails its row as busy, or, once close() has begun, as not enqueued. */
  ghost predicate RefusalsOk(w: World) {
    forall id :: id in w.handlers && w.handlers[id].Rejecting? ==>
      w.handlers[id].message == BusyMessage || (w.handlers[id].message == EnqueueFailedMessage && w.r.closed)
  }

  lemma LoopKeepsRefusals(p: Params, w: World, e: Event)
    requires Linked(p, w) && CanLoop(p, w, e) && RefusalsOk(w)
    ensures RefusalsOk(Looping(p, w, e))
  {
    StepEvolves(p.limits, w.r, e);
    CoupledKeeps(w, e, Apply(p.limits, w.r, e));
  }

  lemma SubmitKeepsRefusals(p: Params, w: World, id: RowId, j: JobId)
    requires RefusalsOk(w)
    ensures RefusalsOk(SubmittedRow(p, w, id, j))
  {}

  lemma RequestKeepsRefusals(p: Params, w: World, a: Action)
    requires CanDo(p, w, a) && RequestAction(a) && RefusalsOk(w)
    ensures RefusalsOk(Do(p, w, a))
  {
    if a.SubmitRow? { SubmitKeepsRefusals(p, w, a.row, a.job); }
  }

  lemma TaskKeepsRefusals(p: Params, w: World, a: Action)
    requires CanDo(p, w, a) && (FnAction(a) || CheckAction(a)) && RefusalsOk(w)
    ensures RefusalsOk(Do(p, w, a))
  {}

  lemma RunnerKeepsRefusals(p: Params, w: World, a: Action)
    requires Linked(p, w) && CanDo(p, w, a) && RunnerAction(a) && RefusalsOk(w)
    ensures RefusalsOk(Do(p, w, a))
  {
    if a.Loop? { LoopKeepsRefusals(p, w, a.e); }
  }

  lemma ActionKeepsRefusals(p: Params, w: World, a: Action)
    requires Linked(p, w) && CanDo(p, w, a) && RefusalsOk(w)
    ensures RefusalsOk(Do(p, w, a))
  {
    if RequestAction(a) {
      RequestKeepsRefusals(p, w, a);
    } else if RunnerAction(a) {
      RunnerKeepsRefusals(p, w, a);
    } else {
      TaskKeepsRefusals(p, w, a);
    }
  }

  // ---- Rows ----------------------------------------------------------------

  /** A row carries a message exactly while it is failed. */
  ghost predicate MessagesFit(rows: Store) {
    forall id :: id in rows ==> (rows[id].message.Some? <==> rows[id].status == Status.Failed)
  }

  lemma RequestKeepsMessages(p: Params, w: World, a: Action)
    requires CanDo(p, w, a) && RequestAction(a) && MessagesFit(w.rows)
    ensures MessagesFit(Do(p, w, a).rows)
  {
    if a.SubmitRow? { SubmitRowRest(p, w, a.row, a.job); }
  }

  lemma TaskKeepsMessages(p: Params, w: World, a: Action)
    requires CanDo(p, w, a) && FnAction(a) && MessagesFit(w.rows)
    ensures MessagesFit(Do(p, w, a).rows)
  {}

  lemma RunnerKeepsMessages(p: Params, w: World, a: Action)
    requires CanDo(p, w, a) && RunnerAction(a) && MessagesFit(w.rows)
    ensures MessagesFit(Do(p, w, a).rows)
  {
    if a.Loop? { CoupledKeeps(w, a.e, Apply(p.limits, w.r, a.e)); }
  }

  lemma CheckKeepsMessages(p: Params, w: World, a: Action)
    requires CanDo(p, w, a) && CheckAction(a) && MessagesFit(w.rows)
    ensures MessagesFit(Do(p, w, a).rows)
  {}

  lemma ActionKeepsMessages(p: Params, w: World, a: Action)
    requires CanDo(p, w, a) && MessagesFit(w.rows)
    ensures MessagesFit(Do(p, w, a).rows)
  {
    if RequestAction(a) {
      RequestKeepsMessages(p, w, a);
    } else if FnAction(a) {
      TaskKeepsMessages(p, w, a);
    } else if RunnerAction(a) {
      RunnerKeepsMessages(p, w, a);
    } else {
      CheckKeepsMessages(p, w, a);
    }
  }

  lemma {:induction false} RunKeepsStory(p: Params, w: World, acts: seq<Action>)
    requires Roomy(p) && Good(p, w) && Possible(p, w, acts) && RefusalsOk(w)
    ensures RefusalsOk(After(p, w, acts))
    ensures MessagesFit(w.rows) ==> MessagesFit(After(p, w, acts).rows)
    decreases |acts|
  {
    if acts != [] {
      ActionKeeps(p, w, acts[0]);
      ActionKeepsRefusals(p, w, acts[0]);
      if MessagesFit(w.rows) { ActionKeepsMessages(p, w, acts[0]); }
      RunKeepsStory(p, Do(p, w, acts[0]), acts[1..]);
    }
  }

  /** In every state a row shows an error message exactly while it is failed, if that held when the process started. */
  lemma MessageOnlyWhileFailed(p: Params, rows: Store, w: World)
    requires Reachable(p, rows, w) && MessagesFit(rows)
    ensures MessagesFit(w.rows)
  {
    var now: real, acts :| Possible(p, Start(p, rows, now), acts) && After(p, Start(p, rows, now), acts) == w;
    StartLinked(p, rows, now);
    RunKeepsStory(p, Start(p, rows, now), acts);
  }

  /** The run told a job of the row the message, for the reason that goes with it. */
  ghost predicate ItsJobsReason(p: Params, s: World, acts: seq<Action>, id: RowId, m: Message)
    requires Possible(p, s, acts)
  {
    var w := After(p, s, acts);
    exists j :: j in w.rowOf && w.rowOf[j] == id && ToldIn(p, s, acts, j, m)
  }

  /**
    Why the action puts the message on the row after the run: an action of the run told the row's own job
    so, for the reason of that message; or its request was refused, as busy, or because close() had begun;
    or a check found the row stranded.
   */
  ghost predicate HasCause(p: Params, s: World, acts: seq<Action>, a: Action, id: RowId, m: Message)
    requires Possible(p, s, acts)
  {
    var w := After(p, s, acts);
    || ItsJobsReason(p, s, acts, id, m)
    || (a == RejectionCommits(id) && (m == BusyMessage || (m == EnqueueFailedMessage && w.r.closed)))
    || ((a == Sweep || a == ReadCheck(id)) && id in w.stranded && m == SweepMessage)
  }

  lemma CauseFound(p: Params, s: World, acts: seq<Action>, a: Action, id: RowId, m: Message)
    requires Possible(p, s, acts) && RefusalsOk(After(p, s, acts))
    requires var w := After(p, s, acts);
      ToldItsRow(w, a, id, m) || RefusedItsRow(w, a, id, m) || FoundStranded(w, a, id, m)
    requires ToldItsRow(After(p, s, acts), a, id, m) ==> ToldIn(p, s, acts, a.job, m)
    ensures HasCause(p, s, acts, a, id, m)
  {
    if ToldItsRow(After(p, s, acts), a, id, m) { assert ItsJobsReason(p, s, acts, id, m); }
  }

  lemma RunsAreReachable(p: Params, rows: Store, now: real, acts: seq<Action>)
    requires Sane(p.limits) && Calm(p) && Roomy(p) && OnePerParent(rows) && Possible(p, Start(p, rows, now), acts)
    ensures Reachable(p, rows, After(p, Start(p, rows, now), acts))
    ensures RefusalsOk(After(p, Start(p, rows, now), acts))
  {
    StartLinked(p, rows, now);
    RunKeepsStory(p, Start(p, rows, now), acts);
  }

  /** Whatever action fails a row in whatever run, the row's message says why. */
  lemma FailureHasItsCause(p: Params, rows: Store, now: real, acts: seq<Action>, a: Action, id: RowId)
    requires Sane(p.limits) && Calm(p) && Roomy(p) && OnePerParent(rows) && Possible(p, Start(p, rows, now), acts)
    requires var w := After(p, Start(p, rows, now), acts); CanDo(p, w, a) && Fails(p, w, a, id)
    ensures var row := Do(p, After(p, Start(p, rows, now), acts), a).rows[id];
      row.message.Some? && HasCause(p, Start(p, rows, now), acts, a, id, row.message.value)
  {
    var s := Start(p, rows, now);
    var w := After(p, s, acts);
    RunsAreReachable(p, rows, now, acts);
    FailedRowsAreTold(p, rows, w, a, id);
    var m := Do(p, w, a).rows[id].message.value;
    if ToldItsRow(w, a, id, m) { ToldExactlyWithReason(p, rows, now, acts, a.job, m); }
    CauseFound(p, s, acts, a, id, m);
  }

  /** And the text of an error the task knows reaches its row: the failure write that follows puts exactly it there. */
  lemma KnownErrorsReachTheRow(p: Params, rows: Store, now: real, acts: seq<Action>, j: JobId, error: KnownError)
    requires Sane(p.limits) && Calm(p) && Roomy(p) && OnePerParent(rows) && Possible(p, Start(p, rows, now), acts)
    requires ToldIn(p, Start(p, rows, now), acts, j, ErrorMessage(error))
    requires CanDo(p, After(p, Start(p, rows, now), acts), FailureCommits(j))
    ensures var w := After(p, Start(p, rows, now), acts);
      var row := Do(p, w, FailureCommits(j)).rows[w.rowOf[j]];
      row.status == Status.Failed && row.message == Some(ErrorMessage(error))
  {
    var w := After(p, Start(p, rows, now), acts);
    StartLinked(p, rows, now);
    RunKeeps(p, Start(p, rows, now), acts);
    ToldExactlyWithReason(p, rows, now, acts, j, ErrorMessage(error));
    assert ToldAt(w, j);
  }
}
