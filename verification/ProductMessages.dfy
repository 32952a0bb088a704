/** Which failure message a job's own path chooses, and when. */
module ProductMessages {
  import opened Messages
  import opened Scheduler
  import opened SchedulerInvariant
  import opened SchedulerSteps
  import opened SchedulerMoves
  import opened Rows
  import opened Product
  import opened ProductInvariant
  import opened ProductSteps

  /** The fired deadline came before shutdown began. */
  predicate BeforeClose(c: Closer, t: real) { !c.Open? ==> t <= c.since }

  /** What a job was told fits what happened to it. */
  predicate Fits(c: Closer, job: Job, m: Message) {
    && !InLine(job.phase) && !job.phase.Rejected?
    && m != EnqueueFailedMessage
    && (m == BusyMessage ==> !job.entered)
    && (m == TimeoutMessage ==> job.entered && job.timedOut && BeforeClose(c, job.runUntil))
    && (!job.entered ==> job.failures == [m])
  }

  ghost predicate ToldAt(w: World, j: JobId) {
    && (j in w.told ==> j in w.r.jobs && Fits(w.r.closer, w.r.jobs[j], w.told[j]))
    && (j in w.r.jobs && !w.r.jobs[j].entered && (w.r.jobs[j].phase.Marking? || w.r.jobs[j].phase.Done?) ==>
          j in w.told)
    && (j in w.writes ==> j in w.told && w.writes[j].message == w.told[j])
    && (j in w.r.jobs && w.r.jobs[j].phase.Running? && j in w.fn ==>
          match w.fn[j]
          case Working => j !in w.told
          case Committed => j !in w.told
          case FailureWrite(m) => j in w.told && w.told[j] == m
          case Cancelling => j in w.told
          case Leaving(_) => true)
  }

  ghost predicate ToldOk(w: World) { forall j :: ToldAt(w, j) }

  // ---- Runner steps --------------------------------------------------------

  lemma CloserMoves(l: Limits, s: Runner, e: Event, t: real)
    requires Inv(l, s) && Enabled(l, s, e) && t <= s.now && BeforeClose(s.closer, t)
    ensures BeforeClose(Apply(l, s, e).closer, t)
  {
    match e
    case Resume(j) =>
      if s.jobs[j].phase.Unwinding? { GaveBackKeeps(l, s, j); }
      WakeAllGrants(if s.jobs[j].phase.Granted? then s else GaveBack(s, j));
    case FnEnds(j, r) => FnEndOthers(s, j, r);
    case _ => if CloserStep(e) { CloserMovesOn(l, s, e, t); } else { CloserStays(l, s, e); }
  }

  lemma CloserMovesOn(l: Limits, s: Runner, e: Event, t: real)
    requires Enabled(l, s, e) && CloserStep(e) && t <= s.now && BeforeClose(s.closer, t)
    ensures BeforeClose(Apply(l, s, e).closer, t)
  {}

  /** The steps that can move `close()` on. */
  predicate CloserStep(e: Event) { e.RunReady? || e.Close? || e.GraceEnds? || e.DrainEnds? }

  lemma CloserStays(l: Limits, s: Runner, e: Event)
    requires Enabled(l, s, e) && !CloserStep(e) && !e.Resume? && !e.FnEnds?
    ensures Apply(l, s, e).closer == s.closer
  {}

  lemma LoopTold(w: World, e: Event, v: World, j: JobId)
    requires LoopAt(w, e, v.r, j) && Looped(w, e, v, j) && PhaseAt(w, j) && ToldAt(w, j) && HistoryOk(w.r.jobs[j])
    requires w.r.jobs[j].timedOut && BeforeClose(w.r.closer, w.r.jobs[j].runUntil) ==>
      BeforeClose(v.r.closer, w.r.jobs[j].runUntil)
    ensures ToldAt(v, j)
  {}

  lemma LoopTolds(p: Params, w: World, e: Event)
    requires Linked(p, w) && ToldOk(w) && CanLoop(p, w, e)
    ensures ToldOk(Looping(p, w, e))
  {
    var t := Apply(p.limits, w.r, e);
    LoopHasFacts(p, w, e);
    forall j ensures ToldAt(Coupled(w, t, e), j) {
      CoupledLoops(w, e, t, j);
      if j in w.r.jobs {
        StillBeforeClose(p.limits, w.r, e, j);
        LoopToldAt(w, e, Coupled(w, t, e), j);
      } else {
        LoopNobodyTold(w, e, Coupled(w, t, e), j);
      }
    }
  }

  lemma StillBeforeClose(l: Limits, s: Runner, e: Event, j: JobId)
    requires Inv(l, s) && Enabled(l, s, e) && j in s.jobs
    ensures HistoryOk(s.jobs[j])
    ensures s.jobs[j].timedOut && BeforeClose(s.closer, s.jobs[j].runUntil) ==>
      BeforeClose(Apply(l, s, e).closer, s.jobs[j].runUntil)
  {
    assert HistoryOk(s.jobs[j]) && TimesOk(l, s, s.jobs[j]);
    if s.jobs[j].timedOut && BeforeClose(s.closer, s.jobs[j].runUntil) { CloserMoves(l, s, e, s.jobs[j].runUntil); }
  }

  lemma LoopToldAt(w: World, e: Event, v: World, j: JobId)
    requires PhaseOk(w) && ToldOk(w) && LoopFacts(w, e, v.r) && Looped(w, e, v, j)
    requires j in w.r.jobs && HistoryOk(w.r.jobs[j])
    requires w.r.jobs[j].timedOut && BeforeClose(w.r.closer, w.r.jobs[j].runUntil) ==>
      BeforeClose(v.r.closer, w.r.jobs[j].runUntil)
    ensures ToldAt(v, j)
  {
    assert LoopAt(w, e, v.r, j) && PhaseAt(w, j) && ToldAt(w, j);
    LoopTold(w, e, v, j);
  }

  lemma LoopNobodyTold(w: World, e: Event, v: World, j: JobId)
    requires PhaseOk(w) && ToldOk(w) && LoopFacts(w, e, v.r) && Looped(w, e, v, j) && j !in w.r.jobs
    ensures ToldAt(v, j)
  {
    assert ToldAt(w, j);
  }

  // ---- The other actions ---------------------------------------------------

  /** Only job j's story went on. */
  lemma OthersTold(w: World, v: World, j: JobId)
    requires ToldOk(w) && OnlyJob(w, v, j) && v.r.closer == w.r.closer
    requires forall k :: k != j ==> (k in v.told <==> k in w.told) && (k in w.told ==> v.told[k] == w.told[k])
    requires ToldAt(v, j)
    ensures ToldOk(v)
  {
    forall k ensures ToldAt(v, k) { assert ToldAt(w, k); }
  }

  lemma CancelTold(p: Params, w: World, j: JobId, committed: bool)
    requires Linked(p, w) && ToldOk(w) && CanCancel(p, w, j, committed)
    ensures ToldOk(CancelReached(w, j, committed))
  {
    assert PhaseAt(w, j) && HistoryOk(w.r.jobs[j]) && TimesOk(p.limits, w.r, w.r.jobs[j]) && ToldAt(w, j);
    CancelToldAt(w, j, committed);
    CancelOnlyTold(w, j, committed);
    CancelOnlyJob(w, j, committed);
    OthersTold(w, CancelReached(w, j, committed), j);
  }

  lemma CancelOnlyTold(w: World, j: JobId, committed: bool)
    requires InFn(w, j) && (w.fn[j].FailureWrite? && committed ==> HasRow(w, j))
    ensures var v := CancelReached(w, j, committed);
      forall k :: k != j ==> (k in v.told <==> k in w.told) && (k in w.told ==> v.told[k] == w.told[k])
  {}

  lemma CancelOnlyJob(w: World, j: JobId, committed: bool)
    requires PhaseAt(w, j) && InFn(w, j) && (w.fn[j].FailureWrite? && committed ==> HasRow(w, j))
    requires w.r.jobs[j].timedOut || w.r.jobs[j].interrupted
    ensures OnlyJob(w, CancelReached(w, j, committed), j) && CancelReached(w, j, committed).r.closer == w.r.closer
  {
    if !w.fn[j].FailureWrite? {
      CancelMoves(w, j, committed);
    } else if committed {
      CancelledFailureShape(w, j);
    }
  }

  lemma CancelToldAt(w: World, j: JobId, committed: bool)
    requires InFn(w, j) && (w.fn[j].FailureWrite? && committed ==> HasRow(w, j))
    requires ToldAt(w, j) && HistoryOk(w.r.jobs[j])
    requires w.r.jobs[j].cancelPending && (w.r.jobs[j].timedOut || w.r.jobs[j].interrupted)
    requires w.r.jobs[j].interrupted ==> w.r.closed
    requires w.r.closed <==> !w.r.closer.Open?
    ensures ToldAt(CancelReached(w, j, committed), j)
  {
    if w.fn[j].Working? || w.fn[j].Committed? {
      CancelTellsNow(w, j, committed);
    } else {
      CancelTellsNothing(w, j, committed);
    }
  }

  lemma CancelTellsNow(w: World, j: JobId, committed: bool)
    requires InFn(w, j) && (w.fn[j].Working? || w.fn[j].Committed?)
    requires ToldAt(w, j) && HistoryOk(w.r.jobs[j])
    requires w.r.jobs[j].timedOut || w.r.jobs[j].interrupted
    requires w.r.jobs[j].interrupted ==> w.r.closed
    requires w.r.closed <==> !w.r.closer.Open?
    ensures ToldAt(CancelReached(w, j, committed), j)
  {}

  lemma CancelTellsNothing(w: World, j: JobId, committed: bool)
    requires InFn(w, j) && !w.fn[j].Working? && !w.fn[j].Committed?
    requires w.fn[j].FailureWrite? && committed ==> HasRow(w, j)
    requires ToldAt(w, j) && HistoryOk(w.r.jobs[j])
    ensures ToldAt(CancelReached(w, j, committed), j)
  {}

  lemma RaiseTold(p: Params, w: World, j: JobId, e: TaskError)
    requires Linked(p, w) && ToldOk(w) && InFn(w, j) && w.fn[j].Working?
    ensures ToldOk(FnRaised(w, j, e))
  {
    assert PhaseAt(w, j) && HistoryOk(w.r.jobs[j]) && ToldAt(w, j);
    RaiseToldAt(w, j, e);
  }

  lemma RaiseToldAt(w: World, j: JobId, e: TaskError)
    requires ToldOk(w) && ToldAt(w, j) && InFn(w, j) && w.fn[j].Working?
    requires HistoryOk(w.r.jobs[j]) && PhaseAt(w, j)
    ensures ToldOk(FnRaised(w, j, e))
  {
    OthersTold(w, FnRaised(w, j, e), j);
  }

  predicate FnGoesOn(a: FnPhase, b: FnPhase) { b == a || b.Leaving? || (a.Working? && b.Committed?) }

  /** Actions that tell nobody anything and leave the runner's jobs and closer alone. */
  lemma QuietTold(w: World, v: World, j: JobId)
    requires ToldOk(w) && OnlyJob(w, v, j) && v.r.closer == w.r.closer && v.told == w.told
    requires v.r.jobs == w.r.jobs
    requires j in v.writes ==> j in w.writes && v.writes[j] == w.writes[j]
    requires j in v.fn ==> j in w.fn && FnGoesOn(w.fn[j], v.fn[j])
    ensures ToldOk(v)
  {
    assert ToldAt(w, j);
    OthersTold(w, v, j);
  }

  lemma FnLeavesTold(p: Params, w: World, j: JobId)
    requires Linked(p, w) && ToldOk(w) && CanLeave(p, w, j)
    ensures ToldOk(FnLeft(w, j))
  {
    var v := FnLeft(w, j);
    FnLeavesShape(p, w, j);
    assert HistoryOk(w.r.jobs[j]);
    forall k ensures ToldAt(v, k) {
      assert ToldAt(w, k);
      FnLeavesToldAt(w, v, j, k);
    }
  }

  lemma FnLeavesToldAt(w: World, v: World, j: JobId, k: JobId)
    requires LeftFn(w, v, j) && HistoryOk(w.r.jobs[j]) && ToldAt(w, k)
    ensures ToldAt(v, k)
  {}

  lemma SubmitRowTold(p: Params, w: World, id: RowId, j: JobId)
    requires ToldOk(w) && j !in w.r.jobs && j !in w.writes
    ensures ToldOk(SubmittedRow(p, w, id, j))
  {
    forall k ensures ToldAt(SubmittedRow(p, w, id, j), k) {
      assert ToldAt(w, k);
      if k == j { SubmittedToldAt(p, w, id, j); } else { SubmitRowToldAt(p, w, id, j, k); }
    }
  }

  lemma SubmitRowToldAt(p: Params, w: World, id: RowId, j: JobId, k: JobId)
    requires ToldAt(w, k) && k != j
    ensures ToldAt(SubmittedRow(p, w, id, j), k)
  {
    var v := SubmittedRow(p, w, id, j);
    assert v.r.closer == w.r.closer && v.told == w.told && v.fn == w.fn && v.writes == w.writes;
  }

  lemma SubmittedToldAt(p: Params, w: World, id: RowId, j: JobId)
    requires ToldAt(w, j) && j !in w.r.jobs && j !in w.writes
    ensures ToldAt(SubmittedRow(p, w, id, j), j)
  {
    var v := SubmittedRow(p, w, id, j);
    assert v.r.closer == w.r.closer && v.told == w.told && v.fn == w.fn && v.writes == w.writes;
  }

  lemma SameJobsTold(w: World, v: World)
    requires ToldOk(w) && v.r == w.r && v.fn == w.fn && v.writes == w.writes && v.told == w.told
    ensures ToldOk(v)
  {
    forall k ensures ToldAt(v, k) { assert ToldAt(w, k); }
  }
}
