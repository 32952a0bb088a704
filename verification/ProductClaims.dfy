/** What the runs of `ProductRuns` mean for a client that polls a row. */
module ProductClaims {
  import opened Wrappers
  import opened Messages
  import opened Scheduler
  import opened SchedulerInvariant
  import opened Rows
  import opened Product
  import opened ProductInvariant
  import opened ProductSteps
  import opened ProductClocks
  import opened ProductMessages
  import opened ProductRuns
  import opened ProductDetached
  import opened ProductExit

  // ---- Left behind ---------------------------------------------------------

  /** The process ends while a request is between its write and its return, or a failure write is in flight. */
  ghost predicate CutsOff(w: World, a: Action) {
    a.Exit? && (w.handlers != map[] || exists j :: j in w.writes && !w.writes[j].late)
  }

  /** A cancellation lands inside the unshielded failure write before it commits. */
  predicate LosesWrite(w: World, a: Action) {
    a.CancelReaches? && !a.committed && a.job in w.fn && w.fn[a.job].FailureWrite?
  }

  /** What leaves a row processing with nobody behind it: a hard kill, a lost write, or an exit that cuts one off. */
  ghost predicate Strands(w: World, a: Action) { a.Kill? || LosesWrite(w, a) || CutsOff(w, a) }

  ghost predicate NothingStrands(p: Params, w: World, acts: seq<Action>)
    requires Possible(p, w, acts)
    decreases |acts|
  {
    acts == [] || (!Strands(w, acts[0]) && NothingStrands(p, Do(p, w, acts[0]), acts[1..]))
  }

  lemma ActionStrandsNothing(p: Params, w: World, a: Action)
    requires LinkOk(w) && ClosingOk(p, w) && CanDo(p, w, a) && !Strands(w, a)
    ensures Do(p, w, a).stranded <= w.stranded
  {
    if a.Loop? {
      CoupledKeeps(w, a.e, Apply(p.limits, w.r, a.e));
    } else if a.CancelReaches? {
      CancelStrandsNothing(w, a.job, a.committed);
    } else if a.Exit? {
      ExitStrandsNothing(p, w);
    } else {
      RestStrandsNothing(p, w, a);
    }
  }

  lemma RestStrandsNothing(p: Params, w: World, a: Action)
    requires CanDo(p, w, a) && !EndsProcess(a) && !a.Loop? && !a.CancelReaches?
    ensures Do(p, w, a).stranded <= w.stranded
  {
    if a.SubmitRow? { SubmitStrandsNothing(p, w, a.row, a.job); }
  }

  lemma ExitStrandsNothing(p: Params, w: World)
    requires LinkOk(w) && ClosingOk(p, w) && w.r.closer.Returned? && !CutsOff(w, Exit)
    ensures Do(p, w, Exit).stranded <= w.stranded
  {
    ExitIs(p, w);
    forall id | id in w.rows && w.rows[id].status == Processing ensures id in w.stranded { LeftAtExit(w, id); }
  }

  lemma CancelStrandsNothing(w: World, j: JobId, committed: bool)
    requires InFn(w, j) && (w.fn[j].FailureWrite? ==> committed && HasRow(w, j))
    ensures CancelReached(w, j, committed).stranded == w.stranded
  {}

  lemma SubmitStrandsNothing(p: Params, w: World, id: RowId, j: JobId)
    ensures SubmittedRow(p, w, id, j).stranded == w.stranded
  {}

  /** Nothing else adds to the stranded rows. */
  lemma StrandedOnlyBy(p: Params, rows: Store, w: World, a: Action)
    requires Reachable(p, rows, w) && CanDo(p, w, a) && !Strands(w, a)
    ensures Do(p, w, a).stranded <= w.stranded
  {
    ReachableCloses(p, rows, w);
    ActionStrandsNothing(p, w, a);
  }

  lemma {:induction false} RunStrandsNothing(p: Params, w: World, acts: seq<Action>)
    requires Roomy(p) && Good(p, w) && ClosingOk(p, w) && Possible(p, w, acts) && NothingStrands(p, w, acts)
    ensures After(p, w, acts).stranded <= w.stranded
    decreases |acts|
  {
    if acts != [] {
      ActionStrandsNothing(p, w, acts[0]);
      ActionKeeps(p, w, acts[0]);
      ActionCloses(p, w, acts[0]);
      RunStrandsNothing(p, Do(p, w, acts[0]), acts[1..]);
    }
  }

  /** A kill can come at any time: it leaves the rows as they are, and those that are processing to nobody. */
  lemma KillStrands(p: Params, rows: Store, w: World, id: RowId)
    requires Reachable(p, rows, w) && id in w.rows
    ensures CanDo(p, w, Kill) && Do(p, w, Kill).rows == w.rows
    ensures var v := Do(p, w, Kill);
      (id in v.stranded <==> w.rows[id].status == Processing) && Claims(v, id) == 0
  {
    assert Writers(Do(p, w, Kill), id) == {};
  }

  /** A lost failure write strands its row at once: processing, and nobody holds it. */
  lemma LostWriteStrands(p: Params, rows: Store, w: World, j: JobId)
    requires Reachable(p, rows, w) && CanDo(p, w, CancelReaches(j, false)) && w.fn[j].FailureWrite?
    ensures var v, id := Do(p, w, CancelReaches(j, false)), w.rowOf[j];
      id in v.rows && v.rows[id].status == Processing && id in v.stranded && Claims(v, id) == 0
  {
    ReachableGood(p, rows, w);
    assert MayWrite(w, j) && WriterOk(w, j);
    ActionKeeps(p, w, CancelReaches(j, false));
    NoWriterAtAll(Do(p, w, CancelReaches(j, false)), w.rowOf[j]);
  }

  /**
    On a run in which no process is killed, none ends with a request or a failure write under way, and
    no cancellation lands inside an unshielded failure write, a processing row always has exactly one
    request or job behind it, the job being unfinished or its failure write being on its way.
   */
  lemma NeverLeftBehind(p: Params, rows: Store, now: real, acts: seq<Action>, id: RowId)
    requires Sane(p.limits) && Calm(p) && Roomy(p) && OnePerParent(rows)
    requires forall k :: k in rows ==> rows[k].status != Processing
    requires Possible(p, Start(p, rows, now), acts) && NothingStrands(p, Start(p, rows, now), acts)
    ensures var w := After(p, Start(p, rows, now), acts);
      id in w.rows && w.rows[id].status == Processing ==> Claims(w, id) == 1 && (id in w.handlers || HasJob(w, id))
  {
    var w := After(p, Start(p, rows, now), acts);
    StartStrandsNothing(p, rows, now, acts);
    if id in w.rows && w.rows[id].status == Processing { HeldByOneJob(p, rows, w, id); }
  }

  lemma StartStrandsNothing(p: Params, rows: Store, now: real, acts: seq<Action>)
    requires Sane(p.limits) && Calm(p) && Roomy(p) && OnePerParent(rows)
    requires forall k :: k in rows ==> rows[k].status != Processing
    requires Possible(p, Start(p, rows, now), acts) && NothingStrands(p, Start(p, rows, now), acts)
    ensures var w := After(p, Start(p, rows, now), acts); Reachable(p, rows, w) && w.stranded == {}
  {
    StartLinked(p, rows, now);
    RunStrandsNothing(p, Start(p, rows, now), acts);
  }

  lemma HeldByOneJob(p: Params, rows: Store, w: World, id: RowId)
    requires Reachable(p, rows, w) && id in w.rows && w.rows[id].status == Processing && id !in w.stranded
    ensures Claims(w, id) == 1 && (id in w.handlers || HasJob(w, id))
  {
    RowHeldByOne(p, rows, w, id);
    HeldByAnUnfinishedJob(p, rows, w, id);
  }

  /** Once every request has returned and every job and write is over, no row is left processing. */
  lemma NothingLeftProcessing(p: Params, rows: Store, w: World, id: RowId)
    requires Reachable(p, rows, w) && w.stranded == {} && w.handlers == map[] && w.writes == map[]
    requires forall j :: j in w.r.jobs ==> !Live(w.r.jobs[j].phase)
    requires id in w.rows
    ensures w.rows[id].status != Processing
  {
    RowHeldByOne(p, rows, w, id);
  }

  /**
    A completed row is changed by exactly one thing: the failure write of a cancellation that landed
    after the completing write had committed and before its task returned.
   */
  lemma CompletedChangesIff(p: Params, rows: Store, w: World, a: Action, id: RowId)
    requires Reachable(p, rows, w) && CanDo(p, w, a) && id in w.rows && w.rows[id].status == Completed
    ensures (id in Do(p, w, a).rows && Do(p, w, a).rows[id] == w.rows[id]) <==>
            !(a.WriteCommits? && w.rowOf[a.job] == id)
    ensures a.WriteCommits? && w.rowOf[a.job] == id ==> w.writes[a.job].late
  {
    ReachableGood(p, rows, w);
    forall j | j in w.rowOf && w.rowOf[j] == id && MayWrite(w, j) ensures Late(w, j) { assert WriterOk(w, j); }
    LateWriteOrNothing(p, w, a, id);
  }

  lemma LateWriteOrNothing(p: Params, w: World, a: Action, id: RowId)
    requires CanDo(p, w, a) && PhaseOk(w) && OnlyLateWriters(w, id)
    ensures (id in Do(p, w, a).rows && Do(p, w, a).rows[id] == w.rows[id]) <==>
            !(a.WriteCommits? && w.rowOf[a.job] == id)
    ensures a.WriteCommits? && w.rowOf[a.job] == id ==> w.writes[a.job].late
  {
    if a.WriteCommits? && w.rowOf[a.job] == id {
      LateWriteFails(w, a.job);
    } else {
      CompletedRowStays(p, w, a, id);
    }
  }

  lemma LateWriteFails(w: World, j: JobId)
    requires j in w.writes && HasRow(w, j)
    ensures MayWrite(w, j) && WriteCommitted(w, j).rows[w.rowOf[j]].status == Status.Failed
  {}

  // ---- Staleness -----------------------------------------------------------

  /** Neither check ever matches a row with somebody behind it, and both fail a stranded one past the threshold. */
  lemma ChecksFailExactlyTheStranded(p: Params, rows: Store, w: World, id: RowId)
    requires Reachable(p, rows, w) && id in w.rows
    ensures SweepMatches(w.rows[id], w.r.now, p.threshold) || StaleAge(w.rows[id], w.r.now, p.threshold).Some? ==>
              id in w.stranded
    ensures CanDo(p, w, Sweep) && CanDo(p, w, ReadCheck(id))
    ensures id in w.stranded && w.rows[id].startedAt.Some? && w.r.now > w.rows[id].startedAt.value + p.threshold ==>
              && SweptWorld(p, w).rows[id] == Failing(w.rows[id], SweepMessage)
              && ReadChecked(p, w, id).rows[id] == Failing(w.rows[id], SweepMessage)
              && id !in SweptWorld(p, w).stranded && id !in ReadChecked(p, w, id).stranded
  {
    ReachableGood(p, rows, w);
    ChecksSpare(p, w);
    if id in w.stranded && w.rows[id].startedAt.Some? && w.r.now > w.rows[id].startedAt.value + p.threshold {
      StrandedIsFailed(p, w, id);
    }
  }

  lemma StrandedIsFailed(p: Params, w: World, id: RowId)
    requires LinkOk(w) && id in w.stranded
    requires w.rows[id].startedAt.Some? && w.r.now > w.rows[id].startedAt.value + p.threshold
    ensures && SweptWorld(p, w).rows[id] == Failing(w.rows[id], SweepMessage)
            && ReadChecked(p, w, id).rows[id] == Failing(w.rows[id], SweepMessage)
            && id !in SweptWorld(p, w).stranded && id !in ReadChecked(p, w, id).stranded
  {
    FirstCheckFails(w.rows[id], w.r.now, p.threshold);
    ChecksAgree(w.rows[id], w.r.now, p.threshold);
  }

  // ---- Messages ------------------------------------------------------------

  /**
    "Busy" is told only to jobs that never entered fn, "took too long" only to jobs inside fn whose
    deadline fired before close() began; a job that never entered was told what on_failure recorded.
   */
  lemma MessagesAreTruthful(p: Params, rows: Store, w: World, j: JobId)
    requires Reachable(p, rows, w) && j in w.told
    ensures j in w.r.jobs && var job := w.r.jobs[j];
      && (w.told[j] == BusyMessage ==> !job.entered)
      && (w.told[j] == TimeoutMessage ==>
            && job.entered && job.timedOut && job.runUntil >= job.submittedAt + p.limits.timeout
            && (!w.r.closer.Open? ==> job.runUntil <= w.r.closer.since))
      && (!job.entered ==> job.failures == [w.told[j]])
      && (j in w.writes ==> w.writes[j].message == w.told[j])
  {
    ReachableGood(p, rows, w);
    assert ToldAt(w, j) && TimesOk(p.limits, w.r, w.r.jobs[j]);
  }

  lemma LoopKeepsTold(w: World, e: Event, v: World, j: JobId)
    requires LoopFacts(w, e, v.r) && Looped(w, e, v, j) && ToldAt(w, j) && j in w.told
    ensures j in v.told && v.told[j] == w.told[j]
  {}

  lemma LoopToldOnce(p: Params, w: World, e: Event, j: JobId)
    requires Inv(p.limits, w.r) && CanLoop(p, w, e) && ToldAt(w, j) && j in w.told
    ensures j in Looping(p, w, e).told && Looping(p, w, e).told[j] == w.told[j]
  {
    LoopHasFacts(p, w, e);
    CoupledLoops(w, e, Apply(p.limits, w.r, e), j);
    LoopKeepsTold(w, e, Looping(p, w, e), j);
  }

  /** Nobody is told twice, or told something else later. */
  lemma ToldOnce(p: Params, w: World, a: Action, j: JobId)
    requires Good(p, w) && CanDo(p, w, a) && !EndsProcess(a) && j in w.told
    ensures j in Do(p, w, a).told && Do(p, w, a).told[j] == w.told[j]
  {
    assert ToldAt(w, j);
    if a.Loop? { LoopToldOnce(p, w, a.e, j); } else { OtherwiseToldOnce(p, w, a, j); }
  }

  lemma OtherwiseToldOnce(p: Params, w: World, a: Action, j: JobId)
    requires ToldAt(w, j) && CanDo(p, w, a) && !EndsProcess(a) && !a.Loop? && j in w.told
    ensures j in Do(p, w, a).told && Do(p, w, a).told[j] == w.told[j]
  {
    if a.CancelReaches? {
      CancelToldOnce(w, a.job, a.committed, j);
    } else if a.FnRaises? {
      RaiseToldOnce(w, a.job, a.error, j);
    } else {
      TellsNobody(p, w, a);
    }
  }

  lemma TellsNobody(p: Params, w: World, a: Action)
    requires CanDo(p, w, a) && !EndsProcess(a) && !a.Loop? && !a.CancelReaches? && !a.FnRaises?
    ensures Do(p, w, a).told == w.told
  {
    if a.SubmitRow? { SubmitTellsNobody(p, w, a.row, a.job); }
  }

  lemma CancelToldOnce(w: World, k: JobId, committed: bool, j: JobId)
    requires InFn(w, k) && (w.fn[k].FailureWrite? && committed ==> HasRow(w, k)) && ToldAt(w, j) && j in w.told
    ensures j in CancelReached(w, k, committed).told && CancelReached(w, k, committed).told[j] == w.told[j]
  {}

  lemma RaiseToldOnce(w: World, k: JobId, e: TaskError, j: JobId)
    requires InFn(w, k) && w.fn[k].Working? && ToldAt(w, j) && j in w.told
    ensures j in FnRaised(w, k, e).told && FnRaised(w, k, e).told[j] == w.told[j]
  {}

  lemma SubmitTellsNobody(p: Params, w: World, id: RowId, j: JobId)
    ensures SubmittedRow(p, w, id, j).told == w.told
  {}

  // ---- The message of a failed row -----------------------------------------

  /** The task function or write of a job puts the message its job was told into the job's row. */
  predicate ToldItsRow(w: World, a: Action, id: RowId, m: Message) {
    && (a.WriteCommits? || a.FailureCommits? || a.CancelReaches?)
    && a.job in w.rowOf && w.rowOf[a.job] == id && a.job in w.told && w.told[a.job] == m
  }

  /** A request that was refused puts the reason into its own row. */
  predicate RefusedItsRow(w: World, a: Action, id: RowId, m: Message) {
    a.RejectionCommits? && a.row == id && id in w.handlers && w.handlers[id].Rejecting? && w.handlers[id].message == m
  }

  /** A check finds a stranded row. */
  predicate FoundStranded(w: World, a: Action, id: RowId, m: Message) {
    (a.Sweep? || (a.ReadCheck? && a.row == id)) && id in w.stranded && m == SweepMessage
  }

  /** The row failed just now, in one of the three ways. */
  predicate FailedProperly(w: World, a: Action, id: RowId, row: Row) {
    && id in w.rows && row.message.Some? && row == Failing(w.rows[id], row.message.value)
    && var m := row.message.value;
       ToldItsRow(w, a, id, m) || RefusedItsRow(w, a, id, m) || FoundStranded(w, a, id, m)
  }

  /** The action fails the row, or puts another failed row in its place. */
  ghost predicate Fails(p: Params, w: World, a: Action, id: RowId)
    requires CanDo(p, w, a)
  {
    var v := Do(p, w, a);
    id in v.rows && v.rows[id].status == Status.Failed && (id in w.rows ==> v.rows[id] != w.rows[id])
  }

  lemma RequestFailure(p: Params, w: World, a: Action, id: RowId)
    requires CanDo(p, w, a) && RequestAction(a) && Fails(p, w, a, id)
    ensures FailedProperly(w, a, id, Do(p, w, a).rows[id])
  {
    if a.SubmitRow? { SubmitRowRest(p, w, a.row, a.job); }
  }

  lemma FnFailure(p: Params, w: World, a: Action, id: RowId)
    requires CanDo(p, w, a) && FnAction(a) && ToldAt(w, a.job) && Fails(p, w, a, id)
    ensures FailedProperly(w, a, id, Do(p, w, a).rows[id])
  {}

  lemma RunnerFailure(p: Params, w: World, a: Action, id: RowId)
    requires CanDo(p, w, a) && RunnerAction(a) && Fails(p, w, a, id)
    requires a.CancelReaches? ==> ToldAt(w, a.job)
    ensures FailedProperly(w, a, id, Do(p, w, a).rows[id])
  {
    match a
    case Loop(e) => CoupledKeeps(w, e, Apply(p.limits, w.r, e));
    case CancelReaches(j, committed) => CancelFails(w, j, committed, id);
    case FnLeaves(j) =>
  }

  lemma CancelFails(w: World, j: JobId, committed: bool, id: RowId)
    requires InFn(w, j) && (w.fn[j].FailureWrite? && committed ==> HasRow(w, j)) && ToldAt(w, j)
    ensures var v := CancelReached(w, j, committed);
      v.rows.Keys == w.rows.Keys && (id in w.rows && v.rows[id] != w.rows[id] ==>
        FailedProperly(w, CancelReaches(j, committed), id, v.rows[id]))
  {}

  lemma CheckFailure(p: Params, w: World, a: Action, id: RowId)
    requires CanDo(p, w, a) && (a.Sweep? || a.ReadCheck?) && ChecksSpareTheLive(p, w) && Fails(p, w, a, id)
    ensures FailedProperly(w, a, id, Do(p, w, a).rows[id])
  {}

  lemma EndFailure(p: Params, w: World, a: Action, id: RowId)
    requires CanDo(p, w, a) && EndsProcess(a)
    ensures Fails(p, w, a, id) ==> FailedProperly(w, a, id, Do(p, w, a).rows[id])
  {}

  /**
    Whatever action fails a row, the row gets the message its own job was told, or the reason its own
    request was refused with, or the sweep's message, and the last only when it was stranded.
   */
  lemma FailedRowsAreTold(p: Params, rows: Store, w: World, a: Action, id: RowId)
    requires Reachable(p, rows, w) && CanDo(p, w, a) && Fails(p, w, a, id)
    ensures FailedProperly(w, a, id, Do(p, w, a).rows[id])
  {
    ReachableGood(p, rows, w);
    ChecksSpare(p, w);
    if RequestAction(a) {
      RequestFailure(p, w, a, id);
    } else if FnAction(a) {
      FnFailure(p, w, a, id);
    } else if RunnerAction(a) {
      RunnerFailure(p, w, a, id);
    } else if EndsProcess(a) {
      EndFailure(p, w, a, id);
    } else {
      CheckFailure(p, w, a, id);
    }
  }
}
