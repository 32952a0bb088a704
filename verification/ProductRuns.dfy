/** Claims about rows and jobs together, over every run. */
module ProductRuns {
  import opened Scheduler
  import opened SchedulerInvariant
  import opened Rows
  import opened Product
  import opened ProductInvariant
  import opened ProductSteps
  import opened ProductClocks
  import opened ProductMessages

  ghost predicate Good(p: Params, w: World) { Linked(p, w) && ClockOk(p, w) && ToldOk(w) }

  // ---- Every action --------------------------------------------------------

  /** Steps of a task function or a shielded write that leave the runner alone. */
  predicate FnAction(a: Action) {
    a.WriteCommits? || a.FnCommits? || a.FnRaises? || a.FailureCommits? || a.FnSettles?
  }

  /** Steps of a request handler. */
  predicate RequestAction(a: Action) { a.Enqueue? || a.Retry? || a.SubmitRow? || a.RejectionCommits? }

  /** Steps the runner takes, or takes part in. */
  predicate RunnerAction(a: Action) { a.Loop? || a.CancelReaches? || a.FnLeaves? }

  predicate CheckAction(a: Action) { a.Sweep? || a.ReadCheck? || EndsProcess(a) }

  lemma RequestKeepsLink(p: Params, w: World, a: Action)
    requires Linked(p, w) && CanDo(p, w, a) && RequestAction(a)
    ensures Linked(p, Do(p, w, a))
  {
    match a
    case Enqueue(id, parent) => EnqueueKeeps(p, w, id, parent);
    case Retry(id) => RetryKeeps(p, w, id);
    case SubmitRow(id, j) => SubmitRowKeeps(p, w, id, j);
    case RejectionCommits(id) => RejectionKeeps(p, w, id);
  }

  lemma FnActionKeepsLink(p: Params, w: World, a: Action)
    requires Linked(p, w) && CanDo(p, w, a) && FnAction(a)
    ensures Linked(p, Do(p, w, a))
  {
    if a.FnRaises? {
      FnRaisesKeeps(p, w, a.job, a.error);
    } else if a.FnSettles? {
      FnSettlesKeeps(p, w, a.job);
    } else {
      RowWriteKeepsLink(p, w, a);
    }
  }

  lemma RowWriteKeepsLink(p: Params, w: World, a: Action)
    requires Linked(p, w) && CanDo(p, w, a) && (a.WriteCommits? || a.FnCommits? || a.FailureCommits?)
    ensures Linked(p, Do(p, w, a))
  {
    match a
    case WriteCommits(j) => WriteCommitsKeeps(p, w, j);
    case FnCommits(j) => FnCommitsKeeps(p, w, j);
    case FailureCommits(j) => FailureCommitsKeeps(p, w, j);
  }

  lemma RunnerKeepsLink(p: Params, w: World, a: Action)
    requires Linked(p, w) && CanDo(p, w, a) && RunnerAction(a)
    ensures Linked(p, Do(p, w, a))
  {
    match a
    case Loop(e) => LoopKeeps(p, w, e);
    case CancelReaches(j, committed) => CancelReachesKeeps(p, w, j, committed);
    case FnLeaves(j) => FnLeavesKeeps(p, w, j);
  }

  lemma CheckKeepsLink(p: Params, w: World, a: Action)
    requires Linked(p, w) && CanDo(p, w, a) && CheckAction(a) && ChecksSpareTheLive(p, w)
    ensures Linked(p, Do(p, w, a))
  {
    if EndsProcess(a) {
      EndKeepsLink(p, w, a);
    } else if a.Sweep? {
      SweepKeeps(p, w);
    } else {
      ReadCheckKeeps(p, w, a.row);
    }
  }

  lemma EndKeepsLink(p: Params, w: World, a: Action)
    requires Sane(p.limits) && OnePerParent(w.rows) && CanDo(p, w, a) && EndsProcess(a)
    ensures Linked(p, Do(p, w, a))
  {
    StartLinked(p, w.rows, w.r.now);
  }

  lemma ActionKeepsLink(p: Params, w: World, a: Action)
    requires Linked(p, w) && CanDo(p, w, a) && ChecksSpareTheLive(p, w)
    ensures Linked(p, Do(p, w, a))
  {
    if RequestAction(a) {
      RequestKeepsLink(p, w, a);
    } else if FnAction(a) {
      FnActionKeepsLink(p, w, a);
    } else if RunnerAction(a) {
      RunnerKeepsLink(p, w, a);
    } else {
      CheckKeepsLink(p, w, a);
    }
  }

  lemma FnActionClocks(p: Params, w: World, a: Action)
    requires FnAction(a) && PhaseAt(w, a.job) && ClockOk(p, w) && CanDo(p, w, a)
    ensures ClockOk(p, Do(p, w, a))
  {
    match a
    case WriteCommits(j) => WriteClocks(p, w, j);
    case FnCommits(j) => CommitClocks(p, w, j);
    case FnRaises(j, e) => RaiseClocks(p, w, j, e);
    case FailureCommits(j) => FailureClocks(p, w, j);
    case FnSettles(j) => SettledClocks(p, w, j);
  }

  lemma ActionKeepsClocks(p: Params, w: World, a: Action)
    requires Linked(p, w) && ClockOk(p, w) && CanDo(p, w, a)
    ensures ClockOk(p, Do(p, w, a))
  {
    if FnAction(a) {
      assert PhaseAt(w, a.job);
      FnActionClocks(p, w, a);
    } else if RunnerAction(a) {
      RunnerActionClocks(p, w, a);
    } else if RequestAction(a) {
      RequestClocks(p, w, a);
    } else {
      CheckClocks(p, w, a);
    }
  }

  lemma RunnerActionClocks(p: Params, w: World, a: Action)
    requires Linked(p, w) && ClockOk(p, w) && CanDo(p, w, a) && RunnerAction(a)
    ensures ClockOk(p, Do(p, w, a))
  {
    match a
    case Loop(e) => if e.Tick? { TickClocks(p, w, e.to); } else { LoopClocks(p, w, e); }
    case CancelReaches(j, committed) => CancelClocks(p, w, j, committed);
    case FnLeaves(j) => FnLeavesClocks(p, w, j);
  }

  lemma RequestClocks(p: Params, w: World, a: Action)
    requires Linked(p, w) && ClockOk(p, w) && CanDo(p, w, a) && RequestAction(a)
    ensures ClockOk(p, Do(p, w, a))
  {
    match a
    case Enqueue(id, parent) => EnqueueClocks(p, w, id, parent);
    case Retry(id) => RetryClocks(p, w, id);
    case SubmitRow(id, j) => SubmitRowClocks(p, w, id, j);
    case RejectionCommits(id) => RejectionClocks(p, w, id);
  }

  lemma CheckClocks(p: Params, w: World, a: Action)
    requires ClockOk(p, w) && CanDo(p, w, a) && CheckAction(a)
    ensures ClockOk(p, Do(p, w, a))
  {
    match a
    case Sweep => SweepClocks(p, w);
    case ReadCheck(id) => ReadCheckClocks(p, w, id);
    case _ =>
  }

  lemma FnActionTold(p: Params, w: World, a: Action)
    requires FnAction(a) && !a.FnRaises? && PhaseAt(w, a.job) && ToldOk(w) && CanDo(p, w, a)
    ensures ToldOk(Do(p, w, a))
  {
    FnActionOnlyJob(p, w, a);
    QuietTold(w, Do(p, w, a), a.job);
  }

  lemma FnActionOnlyJob(p: Params, w: World, a: Action)
    requires FnAction(a) && PhaseAt(w, a.job) && CanDo(p, w, a)
    ensures OnlyJob(w, Do(p, w, a), a.job)
    ensures MayWrite(Do(p, w, a), a.job) ==> MayWrite(w, a.job)
  {
    match a
    case WriteCommits(j) => WriteShape(w, j);
    case FnCommits(j) => CommitShape(w, j);
    case FnRaises(j, e) => RaiseShape(w, j, e);
    case FailureCommits(j) => FailureShape(w, j);
    case FnSettles(j) => SettledShape(w, j);
  }

  lemma RunnerActionTold(p: Params, w: World, a: Action)
    requires Linked(p, w) && ToldOk(w) && CanDo(p, w, a) && RunnerAction(a)
    ensures ToldOk(Do(p, w, a))
  {
    match a
    case Loop(e) => LoopTolds(p, w, e);
    case CancelReaches(j, committed) => CancelTold(p, w, j, committed);
    case FnLeaves(j) => FnLeavesTold(p, w, j);
  }

  lemma ActionKeepsTold(p: Params, w: World, a: Action)
    requires Linked(p, w) && ToldOk(w) && CanDo(p, w, a)
    ensures ToldOk(Do(p, w, a))
  {
    if RunnerAction(a) {
      RunnerActionTold(p, w, a);
    } else if FnAction(a) {
      FnActionsTold(p, w, a);
    } else if RequestAction(a) {
      RequestTold(p, w, a);
    } else {
      CheckTold(p, w, a);
    }
  }

  lemma FnActionsTold(p: Params, w: World, a: Action)
    requires Linked(p, w) && ToldOk(w) && CanDo(p, w, a) && FnAction(a)
    ensures ToldOk(Do(p, w, a))
  {
    assert PhaseAt(w, a.job);
    if a.FnRaises? { RaiseTold(p, w, a.job, a.error); } else { FnActionTold(p, w, a); }
  }

  lemma RequestTold(p: Params, w: World, a: Action)
    requires Linked(p, w) && ToldOk(w) && CanDo(p, w, a) && RequestAction(a)
    ensures ToldOk(Do(p, w, a))
  {
    if a.SubmitRow? { SubmitRowTold(p, w, a.row, a.job); } else { SameJobsTold(w, Do(p, w, a)); }
  }

  lemma NobodyTold(p: Params, w: World, a: Action)
    requires CanDo(p, w, a) && EndsProcess(a)
    ensures ToldOk(Do(p, w, a))
  {}

  lemma CheckTold(p: Params, w: World, a: Action)
    requires ToldOk(w) && CanDo(p, w, a) && CheckAction(a)
    ensures ToldOk(Do(p, w, a))
  {
    if EndsProcess(a) { NobodyTold(p, w, a); } else { SameJobsTold(w, Do(p, w, a)); }
  }

  lemma ActionKeeps(p: Params, w: World, a: Action)
    requires Roomy(p) && Good(p, w) && CanDo(p, w, a)
    ensures Good(p, Do(p, w, a))
  {
    ChecksSpare(p, w);
    ActionKeepsLink(p, w, a);
    ActionKeepsClocks(p, w, a);
    ActionKeepsTold(p, w, a);
  }

  // ---- Runs ----------------------------------------------------------------

  ghost predicate Possible(p: Params, w: World, acts: seq<Action>)
    decreases |acts|
  {
    acts == [] || (CanDo(p, w, acts[0]) && Possible(p, Do(p, w, acts[0]), acts[1..]))
  }

  ghost function After(p: Params, w: World, acts: seq<Action>): World
    requires Possible(p, w, acts)
    decreases |acts|
  {
    if acts == [] then w else After(p, Do(p, w, acts[0]), acts[1..])
  }

  lemma {:induction false} RunKeeps(p: Params, w: World, acts: seq<Action>)
    requires Roomy(p) && Good(p, w) && Possible(p, w, acts)
    ensures Good(p, After(p, w, acts))
    decreases |acts|
  {
    if acts != [] {
      ActionKeeps(p, w, acts[0]);
      RunKeeps(p, Do(p, w, acts[0]), acts[1..]);
    }
  }

  /** A process starts on whatever rows there are, one per parent. */
  ghost predicate Reachable(p: Params, rows: Store, w: World) {
    && Sane(p.limits) && Calm(p) && Roomy(p) && OnePerParent(rows)
    && exists now: real, acts :: Possible(p, Start(p, rows, now), acts) && After(p, Start(p, rows, now), acts) == w
  }

  lemma ReachableGood(p: Params, rows: Store, w: World)
    requires Reachable(p, rows, w)
    ensures Good(p, w)
  {
    var now: real, acts :|
      Possible(p, Start(p, rows, now), acts) && After(p, Start(p, rows, now), acts) == w;
    StartLinked(p, rows, now);
    RunKeeps(p, Start(p, rows, now), acts);
  }

  lemma {:induction false} RunThen(p: Params, w: World, acts: seq<Action>, a: Action)
    requires Possible(p, w, acts) && CanDo(p, After(p, w, acts), a)
    ensures Possible(p, w, acts + [a]) && After(p, w, acts + [a]) == Do(p, After(p, w, acts), a)
    decreases |acts|
  {
    if acts == [] {
      assert acts + [a] == [a];
      assert Possible(p, Do(p, w, a), [a][1..]);
    } else {
      RunThen(p, Do(p, w, acts[0]), acts[1..], a);
      assert (acts + [a])[1..] == acts[1..] + [a];
    }
  }

  // ---- Rows and jobs -------------------------------------------------------

  /** The jobs that can still write a row. */
  function Writers(w: World, id: RowId): set<JobId> {
    set j | j in w.rowOf && w.rowOf[j] == id && MayWrite(w, j)
  }

  /** How many hold a row: its writers, and a request between its write and its return. */
  function Claims(w: World, id: RowId): nat {
    |Writers(w, id)| + if id in w.handlers then 1 else 0
  }

  lemma OneWriter(w: World, id: RowId, j: JobId)
    requires LinkOk(w) && MayWrite(w, j) && j in w.rowOf && w.rowOf[j] == id
    ensures Writers(w, id) == {j}
  {
    forall k | k in Writers(w, id) ensures k == j { MayWriteAlone(w, j, k); }
  }

  lemma NoWriterAtAll(w: World, id: RowId)
    requires LinkOk(w) && id in w.rows
    requires id in w.handlers || id in w.stranded || w.rows[id].status == Status.Failed
    ensures Writers(w, id) == {}
  {
    NoWriters(w, id);
  }

  /** The job is unfinished, or it is done and has left a write behind. */
  predicate Behind(w: World, j: JobId) { j in w.r.jobs && (Live(w.r.jobs[j].phase) || Detached(w, j)) }

  /**
    A row is processing exactly when one holder is behind it, unless it was stranded: a request, or
    an unfinished job, or the detached write of a job that is done. A failed row is held by nobody,
    and a completed one at most by its own job, which would write it again only if a cancellation
    landed before it has returned.
   */
  lemma RowHeldByOne(p: Params, rows: Store, w: World, id: RowId)
    requires Reachable(p, rows, w) && id in w.rows
    ensures id in w.stranded ==> w.rows[id].status == Processing && Claims(w, id) == 0
    ensures id !in w.stranded && w.rows[id].status == Processing ==> Claims(w, id) == 1
    ensures w.rows[id].status == Status.Failed ==> Claims(w, id) == 0
    ensures w.rows[id].status == Completed ==>
              id !in w.handlers && |Writers(w, id)| <= 1 && forall j :: j in Writers(w, id) ==> Late(w, j)
    ensures w.rows[id].status == Processing <==>
              id in w.stranded || id in w.handlers || exists j :: j in Writers(w, id) && !Late(w, j)
    ensures forall j :: j in Writers(w, id) ==> Behind(w, j)
    ensures OnePerParent(w.rows)
  {
    ReachableGood(p, rows, w);
    forall j | j in Writers(w, id) ensures Behind(w, j) { WriterBehind(w, j); }
    if w.rows[id].status == Processing {
      ProcessingHeld(w, id);
    } else {
      SettledHeld(w, id);
    }
  }

  lemma WriterBehind(w: World, j: JobId)
    requires PhaseOk(w) && MayWrite(w, j)
    ensures Behind(w, j)
  {
    assert PhaseAt(w, j);
  }

  lemma ProcessingHeld(w: World, id: RowId)
    requires LinkOk(w) && id in w.rows && w.rows[id].status == Processing
    ensures Claims(w, id) == if id in w.stranded then 0 else 1
    ensures id in w.stranded || id in w.handlers || exists j :: j in Writers(w, id) && !Late(w, j)
  {
    if id in w.handlers || id in w.stranded {
      NoWriterAtAll(w, id);
    } else {
      var j := w.lastJob[id];
      OneWriter(w, id, j);
      assert WriterOk(w, j) && j in Writers(w, id);
    }
  }

  lemma SettledHeld(w: World, id: RowId)
    requires LinkOk(w) && id in w.rows && w.rows[id].status != Processing
    ensures id !in w.stranded && id !in w.handlers && |Writers(w, id)| <= 1
    ensures w.rows[id].status == Status.Failed ==> Claims(w, id) == 0
    ensures forall j :: j in Writers(w, id) ==> Late(w, j)
  {
    if w.rows[id].status == Status.Failed {
      NoWriterAtAll(w, id);
    } else if j :| j in Writers(w, id) {
      OneWriter(w, id, j);
      assert WriterOk(w, j);
    }
  }

  /** Only a submission makes a writer. */
  lemma NoNewWriters(p: Params, w: World, a: Action, j: JobId)
    requires Linked(p, w) && CanDo(p, w, a) && !a.SubmitRow?
    ensures MayWrite(Do(p, w, a), j) ==> MayWrite(w, j) && Do(p, w, a).rowOf == w.rowOf
  {
    if FnAction(a) {
      FnActionWriters(p, w, a, j);
    } else if a.Loop? {
      LoopActionWriters(p, w, a.e, j);
    } else if a.FnLeaves? {
      LeavingWriters(p, w, a.job, j);
    } else if a.CancelReaches? {
      CancelWriters(p, w, a.job, a.committed, j);
    } else {
      RowActionWriters(p, w, a, j);
    }
  }

  lemma FnActionWriters(p: Params, w: World, a: Action, j: JobId)
    requires PhaseOk(w) && CanDo(p, w, a) && FnAction(a)
    ensures MayWrite(Do(p, w, a), j) ==> MayWrite(w, j) && Do(p, w, a).rowOf == w.rowOf
  {
    assert PhaseAt(w, a.job);
    FnActionOnlyJob(p, w, a);
    OnlyJobWriters(w, Do(p, w, a), a.job);
  }

  lemma LoopActionWriters(p: Params, w: World, e: Event, j: JobId)
    requires Linked(p, w) && CanLoop(p, w, e)
    ensures MayWrite(Looping(p, w, e), j) ==> MayWrite(w, j) && Looping(p, w, e).rowOf == w.rowOf
  {
    LoopHasFacts(p, w, e);
    LoopWriters(w, e, Apply(p.limits, w.r, e));
    CoupledKeeps(w, e, Apply(p.limits, w.r, e));
  }

  lemma LeavingWriters(p: Params, w: World, k: JobId, j: JobId)
    requires Inv(p.limits, w.r) && PhaseOk(w) && CanLeave(p, w, k)
    ensures MayWrite(FnLeft(w, k), j) ==> MayWrite(w, j) && FnLeft(w, k).rowOf == w.rowOf
  {
    FnLeavesShape(p, w, k);
    assert j in w.r.jobs ==> PhaseAt(w, j);
    FnLeavesOne(w, FnLeft(w, k), k, j);
  }

  lemma CancelWriters(p: Params, w: World, k: JobId, committed: bool, j: JobId)
    requires JobsOk(p.limits, w.r) && PhaseOk(w) && CanCancel(p, w, k, committed)
    ensures var v := CancelReached(w, k, committed);
      MayWrite(v, j) ==> MayWrite(w, j) && v.rowOf == w.rowOf
  {
    assert PhaseAt(w, k) && TimesOk(p.limits, w.r, w.r.jobs[k]);
    CancelNoNewWriters(w, k, committed, j);
  }

  lemma RowActionWriters(p: Params, w: World, a: Action, j: JobId)
    requires CanDo(p, w, a)
    requires a.Enqueue? || a.Retry? || a.RejectionCommits? || CheckAction(a)
    ensures MayWrite(Do(p, w, a), j) ==> MayWrite(w, j) && Do(p, w, a).rowOf == w.rowOf
  {}

  lemma CancelNoNewWriters(w: World, j: JobId, committed: bool, k: JobId)
    requires PhaseAt(w, j) && InFn(w, j) && (w.fn[j].FailureWrite? && committed ==> HasRow(w, j))
    requires w.r.jobs[j].timedOut || w.r.jobs[j].interrupted
    ensures MayWrite(CancelReached(w, j, committed), k) ==> MayWrite(w, k)
    ensures CancelReached(w, j, committed).rowOf == w.rowOf
  {
    CancelOnlyJob(w, j, committed);
    OnlyJobWriters(w, CancelReached(w, j, committed), j);
    if !w.fn[j].FailureWrite? { CancelMoves(w, j, committed); }
  }

  /** A completed row nobody may write is left as it is by every action, a kill included. */
  lemma CompletedStays(p: Params, w: World, a: Action, id: RowId)
    requires Linked(p, w) && CanDo(p, w, a)
    requires id in w.rows && w.rows[id].status == Completed && Writers(w, id) == {}
    ensures var v := Do(p, w, a);
      id in v.rows && v.rows[id] == w.rows[id] && Writers(v, id) == {}
  {
    assert forall j :: j in w.rowOf && w.rowOf[j] == id ==> j !in Writers(w, id);
    assert a.WriteCommits? ==> MayWrite(w, a.job);
    CompletedRowStays(p, w, a, id);
    NobodyBegins(p, w, a, id);
  }

  lemma NobodyBegins(p: Params, w: World, a: Action, id: RowId)
    requires Linked(p, w) && CanDo(p, w, a) && id in w.rows && w.rows[id].status == Completed
    requires forall j :: j in w.rowOf && w.rowOf[j] == id ==> !MayWrite(w, j)
    ensures Writers(Do(p, w, a), id) == {}
  {
    if a.SubmitRow? { StillNoWriters(p, w, a.row, a.job, id); } else { StaysUnwritten(p, w, a, id); }
  }

  lemma StaysUnwritten(p: Params, w: World, a: Action, id: RowId)
    requires Linked(p, w) && CanDo(p, w, a) && !a.SubmitRow?
    requires forall j :: j in w.rowOf && w.rowOf[j] == id ==> !MayWrite(w, j)
    ensures Writers(Do(p, w, a), id) == {}
  {
    var v := Do(p, w, a);
    forall j | j in v.rowOf && v.rowOf[j] == id ensures !MayWrite(v, j) { NoNewWriters(p, w, a, j); }
  }

  lemma StillNoWriters(p: Params, w: World, row: RowId, j: JobId, id: RowId)
    requires PhaseOk(w) && j !in w.r.jobs && row != id
    requires forall k :: k in w.rowOf && w.rowOf[k] == id ==> !MayWrite(w, k)
    ensures Writers(SubmittedRow(p, w, row, j), id) == {}
  {
    var v := SubmittedRow(p, w, row, j);
    forall k | k in v.rowOf && v.rowOf[k] == id ensures !MayWrite(v, k) { SubmitRowWriters(p, w, row, j, k); }
  }

  /** Nobody but a late writer is behind the row. */
  ghost predicate OnlyLateWriters(w: World, id: RowId) {
    && id in w.rows && w.rows[id].status == Completed
    && (forall k :: k in w.handlers && k in w.rows ==> w.rows[k].status == Processing)
    && (forall j :: j in w.rowOf && w.rowOf[j] == id && MayWrite(w, j) ==> Late(w, j))
  }

  /** Only a late write changes a completed row. */
  lemma CompletedRowStays(p: Params, w: World, a: Action, id: RowId)
    requires CanDo(p, w, a) && PhaseOk(w) && OnlyLateWriters(w, id)
    requires !(a.WriteCommits? && w.rowOf[a.job] == id)
    ensures id in Do(p, w, a).rows && Do(p, w, a).rows[id] == w.rows[id]
  {
    if RequestAction(a) {
      RequestLeavesCompleted(p, w, a, id);
    } else if FnAction(a) {
      FnActionLeavesCompleted(p, w, a, id);
    } else if RunnerAction(a) {
      RunnerLeavesCompleted(p, w, a, id);
    }
  }

  lemma RequestLeavesCompleted(p: Params, w: World, a: Action, id: RowId)
    requires CanDo(p, w, a) && OnlyLateWriters(w, id) && RequestAction(a)
    ensures id in Do(p, w, a).rows && Do(p, w, a).rows[id] == w.rows[id]
  {
    if a.SubmitRow? { SubmitRowRest(p, w, a.row, a.job); }
  }

  lemma FnActionLeavesCompleted(p: Params, w: World, a: Action, id: RowId)
    requires CanDo(p, w, a) && PhaseOk(w) && OnlyLateWriters(w, id) && FnAction(a)
    requires !(a.WriteCommits? && w.rowOf[a.job] == id)
    ensures id in Do(p, w, a).rows && Do(p, w, a).rows[id] == w.rows[id]
  {
    if a.FnCommits? || a.FailureCommits? { NotLate(w, a.job); }
  }

  lemma RunnerLeavesCompleted(p: Params, w: World, a: Action, id: RowId)
    requires CanDo(p, w, a) && PhaseOk(w) && OnlyLateWriters(w, id) && RunnerAction(a)
    ensures id in Do(p, w, a).rows && Do(p, w, a).rows[id] == w.rows[id]
  {
    match a
    case Loop(e) => CoupledKeeps(w, e, Apply(p.limits, w.r, e));
    case CancelReaches(j, committed) =>
      if w.fn[j].FailureWrite? { NotLate(w, j); }
      CancelRowStays(w, j, committed, id);
    case FnLeaves(j) =>
  }

  lemma NotLate(w: World, j: JobId)
    requires PhaseOk(w) && InFn(w, j) && (w.fn[j].Working? || w.fn[j].FailureWrite?)
    ensures MayWrite(w, j) && !Late(w, j)
  {
    assert PhaseAt(w, j);
  }

  lemma CancelRowStays(w: World, j: JobId, committed: bool, id: RowId)
    requires InFn(w, j) && (w.fn[j].FailureWrite? && committed ==> HasRow(w, j) && w.rowOf[j] != id)
    requires id in w.rows
    ensures id in CancelReached(w, j, committed).rows && CancelReached(w, j, committed).rows[id] == w.rows[id]
  {}
}
