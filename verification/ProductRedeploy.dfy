/**
  A run in which an orderly shutdown leaves a row processing: `close()` is back, every task is done,
  and a failure write is still in flight when the process exits.
 */
module ProductRedeploy {
  import opened Wrappers
  import opened Scheduler
  import opened SchedulerInvariant
  import opened SchedulerSteps
  import opened SchedulerWitnesses
  import opened Rows
  import opened Product
  import opened ProductClocks
  import opened ProductRuns
  import opened ProductExit
  import opened ProductWitnesses

  // ---- The runner's invariant, under any threshold -------------------------

  lemma ActionKeepsRunner(p: Params, w: World, a: Action)
    requires Inv(p.limits, w.r) && CanDo(p, w, a)
    ensures Inv(p.limits, Do(p, w, a).r)
  {
    if EndsProcess(a) {
      EndKeepsRunner(p, w, a);
    } else {
      RunnerSteps(p, w, a);
      var e := RunnerEvent(w, a);
      if e.Some? { StepKeeps(p.limits, w.r, e.value); }
    }
  }

  lemma EndKeepsRunner(p: Params, w: World, a: Action)
    requires Sane(p.limits) && CanDo(p, w, a) && EndsProcess(a)
    ensures Inv(p.limits, Do(p, w, a).r)
  {
    InitHolds(p.limits, w.r.now);
  }

  lemma {:induction false} RunKeepsRunner(p: Params, w: World, acts: seq<Action>)
    requires Inv(p.limits, w.r) && Possible(p, w, acts)
    ensures Inv(p.limits, After(p, w, acts).r)
    decreases |acts|
  {
    if acts != [] {
      ActionKeepsRunner(p, w, acts[0]);
      RunKeepsRunner(p, Do(p, w, acts[0]), acts[1..]);
    }
  }

  lemma ArisesRunner(p: Params, w: World)
    requires Sane(p.limits) && Arises(p, w)
    ensures Inv(p.limits, w.r)
  {
    var acts :| Possible(p, Start(p, map[], 0.0), acts) && After(p, Start(p, map[], 0.0), acts) == w;
    InitHolds(p.limits, 0.0);
    RunKeepsRunner(p, Start(p, map[], 0.0), acts);
  }

  // ---- Every slot is taken -------------------------------------------------

  function RowFor(j: JobId): RowId { RowId(Reviews, j) }

  /** Job j is inside fn, its row untouched. */
  predicate AtWork(w: World, j: JobId) {
    InFn(w, j) && w.fn[j].Working? && w.rowOf[j] == RowFor(j) && RowFor(j) in w.rows && !w.r.jobs[j].cancelPending
  }

  /** Nothing but jobs. */
  predicate Plain(w: World) { w.handlers == map[] && w.writes == map[] && w.stranded == {} }

  /** The first n rows are there, each of its own parent. */
  ghost predicate RowsUpTo(w: World, n: nat) {
    && (forall id :: id in w.rows ==> id.uuid < n && w.rows[id].parent == id.uuid)
    && (forall id :: id in w.lastJob ==> id.uuid < n)
  }

  ghost predicate Crowded(p: Params, w: World, n: nat) {
    && Crowd(p.limits, w.r, n) && Plain(w) && RowsUpTo(w, n)
    && forall j: nat :: j < n ==> AtWork(w, j)
  }

  /** The row of the next job, inserted and submitted. */
  function Admitted(p: Params, w: World, n: nat): World {
    SubmittedRow(p, Enqueued(w, RowFor(n), n), RowFor(n), n)
  }

  lemma AdmittedArises(p: Params, w: World, n: nat)
    requires Admits(p) && Arises(p, w) && Crowded(p, w, n)
    ensures Arises(p, Admitted(p, w, n))
    ensures var v := Admitted(p, w, n);
      && v.r == Submitted(p.limits, w.r, n) && v.fn == w.fn && Plain(v) && v.rowOf == w.rowOf[n := RowFor(n)]
      && v.rows == w.rows[RowFor(n) := Rows.Pending(n, 0.0)] && v.lastJob == w.lastJob[RowFor(n) := n]
  {
    InsertedIs(p, w, n);
    ArisesThen(p, w, Enqueue(RowFor(n), n));
    ArisesThen(p, Enqueued(w, RowFor(n), n), SubmitRow(RowFor(n), n));
    AdmittedIs(p, w, n);
  }

  lemma InsertedIs(p: Params, w: World, n: nat)
    requires Crowded(p, w, n)
    ensures var id, m := RowFor(n), Enqueued(w, RowFor(n), n);
      && CanDo(p, w, Enqueue(id, n)) && Do(p, w, Enqueue(id, n)) == m
      && CanDo(p, m, SubmitRow(id, n)) && Do(p, m, SubmitRow(id, n)) == Admitted(p, w, n)
      && m == w.(rows := w.rows[id := Rows.Pending(n, 0.0)], handlers := map[id := Submitting])
  {
    assert Siblings(w.rows, RowFor(n), n) == {};
  }

  lemma AdmittedIs(p: Params, w: World, n: nat)
    requires Crowded(p, w, n) && p.limits.maxQueued >= 1
    requires Enqueued(w, RowFor(n), n) ==
             w.(rows := w.rows[RowFor(n) := Rows.Pending(n, 0.0)], handlers := map[RowFor(n) := Submitting])
    ensures var v := Admitted(p, w, n);
      && v.r == Submitted(p.limits, w.r, n) && v.fn == w.fn && Plain(v) && v.rowOf == w.rowOf[n := RowFor(n)]
      && v.rows == w.rows[RowFor(n) := Rows.Pending(n, 0.0)] && v.lastJob == w.lastJob[RowFor(n) := n]
  {}

  lemma CrowdedContinues(p: Params, w: World, n: nat)
    requires Admits(p) && Arises(p, w) && Crowded(p, w, n) && n < p.limits.maxConcurrent
    ensures exists v :: Arises(p, v) && Crowded(p, v, n + 1)
  {
    var m := Admitted(p, w, n);
    AdmittedArises(p, w, n);
    CrowdGrows(p.limits, w.r, n);
    ArisesThen(p, m, Loop(RunReady));
    EntersNext(p, w, m, n);
    assert Crowded(p, Looping(p, m, RunReady), n + 1);
  }

  lemma EntersNext(p: Params, w: World, m: World, n: nat)
    requires Crowded(p, w, n) && CanLoop(p, m, RunReady) && Crowd(p.limits, RanReady(p.limits, m.r), n + 1)
    requires m.r == Submitted(p.limits, w.r, n) && Judge(p.limits, w.r).Accepted? && m.fn == w.fn && Plain(m)
    requires m.rowOf == w.rowOf[n := RowFor(n)] && m.lastJob == w.lastJob[RowFor(n) := n]
    requires m.rows == w.rows[RowFor(n) := Rows.Pending(n, 0.0)]
    ensures Crowded(p, Looping(p, m, RunReady), n + 1)
  {
    var v := Looping(p, m, RunReady);
    assert m.r.ready == [FirstStep(n)];
    assert v == Begun(m.(r := RanReady(p.limits, m.r)), RanReady(p.limits, m.r), n);
    forall j: nat | j < n + 1 ensures AtWork(v, j) { assert j < n ==> AtWork(w, j); }
  }

  lemma NobodyYet(p: Params)
    ensures Crowded(p, Start(p, map[], 0.0), 0)
  {}

  lemma {:induction false} CrowdedArises(p: Params, n: nat)
    requires Admits(p) && n <= p.limits.maxConcurrent
    ensures exists w :: Arises(p, w) && Crowded(p, w, n)
    decreases n
  {
    if n == 0 {
      ArisesAtStart(p);
      NobodyYet(p);
    } else {
      CrowdedArises(p, n - 1);
      var w :| Arises(p, w) && Crowded(p, w, n - 1);
      CrowdedContinues(p, w, n - 1);
    }
  }

  // ---- One job waits in vain -----------------------------------------------

  ghost predicate InVain(p: Params, w: World, now: real, n: nat) {
    && LastInLine(p.limits, w.r, now, n) && Plain(w)
    && (forall j: nat :: j in w.r.jobs <==> j <= n)
    && (forall j: nat :: j < n ==> AtWork(w, j))
    && n in w.rowOf && w.rowOf[n] == RowFor(n) && RowFor(n) in w.rows && w.rows[RowFor(n)].status == Processing
  }

  lemma QueuesUp(p: Params, w: World, n: nat)
    requires Admits(p) && Arises(p, w) && Crowded(p, w, n) && n == p.limits.maxConcurrent
    ensures exists v :: Arises(p, v) && InVain(p, v, 0.0, n)
  {
    var m := Admitted(p, w, n);
    AdmittedArises(p, w, n);
    SubmittedInVain(p, w, n);
    ArisesThen(p, m, Loop(RunReady));
    QueuesNext(p, w, m, n);
  }

  lemma SubmittedInVain(p: Params, w: World, n: nat)
    requires Admits(p) && Crowded(p, w, n) && n == p.limits.maxConcurrent
    ensures var s := Submitted(p.limits, w.r, n);
      s.ready == [FirstStep(n)] && Locked(s) && Enabled(p.limits, s, RunReady) && Judge(p.limits, w.r).Accepted?
  {}

  lemma QueuesNext(p: Params, w: World, m: World, n: nat)
    requires Crowded(p, w, n) && CanLoop(p, m, RunReady) && m.r.ready == [FirstStep(n)] && Locked(m.r)
    requires m.r == Submitted(p.limits, w.r, n) && Judge(p.limits, w.r).Accepted? && m.fn == w.fn && Plain(m)
    requires m.rowOf == w.rowOf[n := RowFor(n)] && m.rows == w.rows[RowFor(n) := Rows.Pending(n, 0.0)]
    ensures InVain(p, Looping(p, m, RunReady), 0.0, n)
  {
    var v := Looping(p, m, RunReady);
    assert m.r.ready[1..] == [];
    forall j: nat | j < n ensures AtWork(v, j) { assert AtWork(w, j); }
  }

  lemma WaitsInVain(p: Params, w: World, n: nat)
    requires Admits(p) && Arises(p, w) && InVain(p, w, 0.0, n)
    ensures exists v :: Arises(p, v) && InVain(p, v, p.limits.maxWait, n)
  {
    if p.limits.maxWait > 0.0 {
      var v := Ticked(w, p.limits.maxWait);
      assert CanLoop(p, w, Tick(p.limits.maxWait));
      TickIs(p, w, p.limits.maxWait);
      ArisesThen(p, w, Loop(Tick(p.limits.maxWait)));
      forall j: nat | j < n ensures AtWork(v, j) { assert AtWork(w, j); }
      assert InVain(p, v, p.limits.maxWait, n);
    }
  }

  // ---- The others finish while its failure is written ----------------------

  /** The last job's failure write is in flight; the first k of the others are done. */
  ghost predicate Writing(p: Params, w: World, n: nat, k: nat) {
    && w.r.ready == [] && w.r.queue == [] && w.r.closer.Open? && !w.r.closed
    && (forall j: nat :: j in w.r.jobs <==> j <= n)
    && w.r.jobs[n].phase == Marking(false)
    && (forall j: nat :: j < k <= n ==> !Live(w.r.jobs[j].phase))
    && (forall j: nat :: k <= j < n ==> AtWork(w, j))
    && w.handlers == map[] && w.stranded == {} && Owed(w, n)
  }

  /** The row of job n is processing, and the write that will fail it is in flight. */
  predicate Owed(w: World, n: nat) {
    && n in w.writes && !w.writes[n].late && n in w.rowOf && w.rowOf[n] == RowFor(n)
    && RowFor(n) in w.rows && w.rows[RowFor(n)].status == Processing
  }

  lemma GivesUpInVain(p: Params, w: World, n: nat)
    requires Admits(p) && Arises(p, w) && InVain(p, w, p.limits.maxWait, n)
    ensures exists v :: Arises(p, v) && Writing(p, v, n, 0)
  {
    var m := Looping(p, w, WaitExpires(n));
    ArisesThen(p, w, Loop(WaitExpires(n)));
    ExpiresIs(p, w, n);
    ArisesThen(p, m, Loop(Resume(n)));
    UnwindsTo(p, m, n);
  }

  /** It has given up, and its coroutine is about to resume. */
  ghost predicate GivingUp(w: World, n: nat) {
    && w.r.ready == [] && w.r.queue == [] && w.r.closer.Open? && !w.r.closed && Plain(w)
    && (forall j: nat :: j in w.r.jobs <==> j <= n)
    && w.r.jobs[n].phase == Unwinding(false)
    && (forall j: nat :: j < n ==> AtWork(w, j))
    && n in w.rowOf && w.rowOf[n] == RowFor(n) && RowFor(n) in w.rows && w.rows[RowFor(n)].status == Processing
  }

  lemma ExpiresIs(p: Params, w: World, n: nat)
    requires InVain(p, w, p.limits.maxWait, n) && CanLoop(p, w, WaitExpires(n))
    ensures GivingUp(Looping(p, w, WaitExpires(n)), n)
    ensures CanLoop(p, Looping(p, w, WaitExpires(n)), Resume(n))
  {
    var v := Looping(p, w, WaitExpires(n));
    assert w.r.queue[1..] == [] && Without([], n) == [];
    forall j: nat | j < n ensures AtWork(v, j) { assert AtWork(w, j); }
  }

  lemma UnwindsTo(p: Params, w: World, n: nat)
    requires GivingUp(w, n) && CanLoop(p, w, Resume(n))
    ensures Writing(p, Looping(p, w, Resume(n)), n, 0)
  {
    var t := ResumedUnwinding(w.r, n);
    var v := Looping(p, w, Resume(n));
    assert t.jobs[n] == Unwound(w.r.jobs[n]) && |t.jobs[n].failures| > 0;
    assert v == Begun(w.(r := t), t, n);
    forall j: nat | j < n ensures AtWork(v, j) { assert AtWork(w, j); }
  }

  /** One of the others completes its row and returns. */
  function Finished(w: World, k: JobId): World
    requires AtWork(w, k)
  {
    FnLeft(FnSettled(FnCommitted(w, k), k), k)
  }

  lemma OneFinishes(p: Params, w: World, n: nat, k: nat)
    requires Arises(p, w) && Writing(p, w, n, k) && k < n
    ensures Arises(p, Finished(w, k)) && Writing(p, Finished(w, k), n, k + 1)
  {
    assert AtWork(w, k);
    CanFinish(p, w, k);
    ArisesThen(p, w, FnCommits(k));
    ArisesThen(p, FnCommitted(w, k), FnSettles(k));
    ArisesThen(p, FnSettled(FnCommitted(w, k), k), FnLeaves(k));
    FinishedIs(p, w, n, k);
  }

  lemma CanFinish(p: Params, w: World, k: JobId)
    requires AtWork(w, k)
    ensures CanDo(p, w, FnCommits(k)) && Do(p, w, FnCommits(k)) == FnCommitted(w, k)
    ensures var a := FnCommitted(w, k);
      CanDo(p, a, FnSettles(k)) && Do(p, a, FnSettles(k)) == FnSettled(a, k)
    ensures var b := FnSettled(FnCommitted(w, k), k);
      CanDo(p, b, FnLeaves(k)) && Do(p, b, FnLeaves(k)) == FnLeft(b, k)
  {
    CanReturn(p, FnCommitted(w, k), k);
  }

  lemma CanReturn(p: Params, w: World, k: JobId)
    requires InFn(w, k) && w.fn[k].Committed? && !w.r.jobs[k].cancelPending
    ensures CanDo(p, w, FnSettles(k)) && Do(p, w, FnSettles(k)) == FnSettled(w, k)
    ensures var b := FnSettled(w, k);
      CanDo(p, b, FnLeaves(k)) && Do(p, b, FnLeaves(k)) == FnLeft(b, k)
  {}

  lemma FinishedIs(p: Params, w: World, n: nat, k: nat)
    requires Writing(p, w, n, k) && k < n && AtWork(w, k)
    ensures Writing(p, Finished(w, k), n, k + 1)
  {
    var v := Finished(w, k);
    assert v.r.jobs == w.r.jobs[k := v.r.jobs[k]];
    forall j: nat | k + 1 <= j < n ensures AtWork(v, j) { assert AtWork(w, j); }
  }

  lemma {:induction false} AllFinish(p: Params, w: World, n: nat, k: nat)
    requires Arises(p, w) && Writing(p, w, n, k) && k <= n
    ensures exists v :: Arises(p, v) && Writing(p, v, n, n)
    decreases n - k
  {
    if k < n {
      OneFinishes(p, w, n, k);
      AllFinish(p, Finished(w, k), n, k + 1);
    }
  }

  // ---- The shutdown --------------------------------------------------------

  /** close() is past its pass and waits for job n alone, which no longer awaits its write. */
  ghost predicate Waited(w: World, n: nat) {
    && w.r.closer.Finishing? && n in w.r.jobs && w.r.jobs[n].phase == Marking(true)
    && (forall j :: j in w.r.jobs && j != n ==> !Live(w.r.jobs[j].phase))
    && w.handlers == map[] && w.stranded == {} && Owed(w, n)
  }

  lemma Closes(p: Params, w: World, n: nat)
    requires Admits(p) && Arises(p, w) && Writing(p, w, n, n)
    ensures exists v :: Arises(p, v) && Waited(v, n)
  {
    ArisesRunner(p, w);
    ArisesThen(p, w, Loop(Close));
    CloseIs(p, w, n);
    var closing := w.(r := CloseBegun(w.r));
    PassIs(p.limits, w.r, closing.r, n);
    CoupledPass(p, closing);
    ArisesThen(p, closing, Loop(RunReady));
    assert Waited(closing.(r := RanReady(p.limits, closing.r)), n);
  }

  lemma CloseIs(p: Params, w: World, n: nat)
    requires TasksOk(w.r) && Writing(p, w, n, n)
    ensures CanLoop(p, w, Close) && Looping(p, w, Close) == w.(r := CloseBegun(w.r))
    ensures CloseBegun(w.r).ready == [CloseWakes]
  {
    assert n in w.r.tasks;
  }

  lemma CoupledPass(p: Params, w: World)
    requires Enabled(p.limits, w.r, RunReady) && w.r.ready[0].CloseWakes?
    ensures CanLoop(p, w, RunReady) && Looping(p, w, RunReady) == w.(r := RanReady(p.limits, w.r))
  {}

  lemma PassIs(l: Limits, s: Runner, closing: Runner, n: nat)
    requires Inv(l, s) && closing == CloseBegun(s) && closing.ready == [CloseWakes] && s.closer.Open?
    requires n in s.jobs && s.jobs[n].phase == Marking(false)
    requires forall j :: j in s.jobs && j != n ==> !Live(s.jobs[j].phase)
    ensures Enabled(l, closing, RunReady)
    ensures var t := RanReady(l, closing);
      && t.closer.Finishing? && t.jobs.Keys == s.jobs.Keys && t.jobs[n].phase == Marking(true)
      && (forall j :: j in t.jobs && j != n ==> !Live(t.jobs[j].phase))
  {
    assert n in s.tasks && n !in s.running;
    assert Victims(closing) == {} by { assert forall j :: j in s.running ==> Live(s.jobs[j].phase); }
    PassWaits(l, closing, n);
  }

  lemma PassWaits(l: Limits, s: Runner, n: nat)
    requires s.ready == [CloseWakes] && s.closer.Yielding? && Victims(s) == {}
    requires n in s.jobs && n in s.tasks && n !in s.running && s.jobs[n].phase == Marking(false)
    requires forall j :: j in s.jobs && j != n ==> !Live(s.jobs[j].phase)
    ensures Enabled(l, s, RunReady)
    ensures var t := RanReady(l, s);
      && t.closer.Finishing? && t.jobs.Keys == s.jobs.Keys && t.jobs[n].phase == Marking(true)
      && (forall j :: j in t.jobs && j != n ==> !Live(t.jobs[j].phase))
  {
    SchedulerMoves.PassShape(l, s);
    var t := RanReady(l, s);
    forall j | j in t.jobs && j != n ensures !Live(t.jobs[j].phase) { assert !Live(s.jobs[j].phase); }
    PassAwaits(l, s, n);
  }

  lemma PassAwaits(l: Limits, s: Runner, n: nat)
    requires s.ready == [CloseWakes] && s.closer.Yielding? && Victims(s) == {}
    requires n in s.jobs && n in s.tasks && n !in s.running && s.jobs[n].phase == Marking(false)
    ensures RanReady(l, s).closer.Finishing?
  {
    var passed := s.(ready := [], queue := [], jobs := PassJobs(s));
    PassResult(l, s, passed, {});
    assert n in Unfinished(passed, s.tasks);
  }

  lemma Returns(p: Params, w: World, n: nat)
    requires Admits(p) && Arises(p, w) && Waited(w, n)
    ensures exists v :: Arises(p, v) && v.r.closer.Returned? && Left(v, n)
  {
    var ended := Looping(p, w, MarkEnds(n));
    ArisesThen(p, w, Loop(MarkEnds(n)));
    EndedIs(p, w, n);
    ArisesThen(p, ended, Loop(DrainEnds));
    assert Left(Looping(p, ended, DrainEnds), n);
  }

  /** Every job is done, nothing was stranded, and the write of job n is in flight. */
  ghost predicate Left(w: World, n: nat) {
    && (forall j :: j in w.r.jobs ==> !Live(w.r.jobs[j].phase))
    && w.handlers == map[] && w.stranded == {} && Owed(w, n)
  }

  lemma EndedIs(p: Params, w: World, n: nat)
    requires Waited(w, n) && CanLoop(p, w, MarkEnds(n))
    ensures var v := Looping(p, w, MarkEnds(n));
      Left(v, n) && CanLoop(p, v, DrainEnds)
  {}

  /** The shutdown is over in good order, and yet the exit leaves the row processing with nobody behind it. */
  ghost predicate LostAtExit(p: Params, w: World, id: RowId) {
    && w.r.closer.Returned? && w.handlers == map[] && w.stranded == {}
    && (forall j :: j in w.r.jobs ==> !Live(w.r.jobs[j].phase))
    && id in w.rows && w.rows[id].status == Processing
    && CanDo(p, w, Exit) && id in Do(p, w, Exit).stranded && Claims(Do(p, w, Exit), id) == 0
  }

  /**
    Under any settings that admit a job, some run ends with `close()` back in time, every task done, no
    request open and nothing stranded before, and the exit of the process leaves a row processing with
    nobody behind it: the pass had cut the job off its never-started write.
   */
  lemma OrderlyExitCanStrand(p: Params)
    requires Admits(p)
    ensures exists w, id :: Arises(p, w) && LostAtExit(p, w, id)
  {
    var n := p.limits.maxConcurrent;
    CrowdedArises(p, n);
    var crowded :| Arises(p, crowded) && Crowded(p, crowded, n);
    QueuesUp(p, crowded, n);
    var queued :| Arises(p, queued) && InVain(p, queued, 0.0, n);
    WaitsInVain(p, queued, n);
    var waiting :| Arises(p, waiting) && InVain(p, waiting, p.limits.maxWait, n);
    GivesUpInVain(p, waiting, n);
    var writing :| Arises(p, writing) && Writing(p, writing, n, 0);
    AllFinish(p, writing, n, 0);
    var alone :| Arises(p, alone) && Writing(p, alone, n, n);
    ShutsDown(p, alone, n);
  }

  lemma ShutsDown(p: Params, w: World, n: nat)
    requires Admits(p) && Arises(p, w) && Writing(p, w, n, n)
    ensures exists w, id :: Arises(p, w) && LostAtExit(p, w, id)
  {
    Closes(p, w, n);
    var waited :| Arises(p, waited) && Waited(waited, n);
    Returns(p, waited, n);
    var left :| Arises(p, left) && left.r.closer.Returned? && Left(left, n);
    LostIs(p, left, n);
  }

  lemma LostIs(p: Params, w: World, n: nat)
    requires w.r.closer.Returned? && Left(w, n)
    ensures LostAtExit(p, w, RowFor(n))
  {
    ExitIs(p, w);
    StartClaims(p, w, RowFor(n));
  }
}
