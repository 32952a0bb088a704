/**
  Joint runs get on: from any state some run, in which the environment does no more than it must,
  reaches any later time, and every row that has somebody behind it is settled on the way.
 */
module ProductProgress {
  import opened Wrappers
  import opened Scheduler
  import opened SchedulerInvariant
  import R = SchedulerRuns
  import opened SchedulerProgress
  import opened Rows
  import opened Product
  import opened ProductSteps
  import opened ProductClocks
  import opened ProductRuns
  import opened ProductExit
  import opened ProductClaims
  import opened ProductTimes

  // ---- A measure -----------------------------------------------------------

  /** Two for a request that has yet to submit, one for a refusal to write. */
  function Requests(handlers: map<RowId, Handler>): nat {
    |handlers| + |SubmittingIn(handlers)|
  }

  function SubmittingIn(handlers: map<RowId, Handler>): set<RowId> {
    set id | id in handlers && handlers[id].Submitting?
  }

  /** w, with the jobs below n, is nearer to standing still than v with those below m. */
  predicate Nearer(w: World, n: nat, v: World, m: nat) {
    || CloserRank(w.r.closer) < CloserRank(v.r.closer)
    || (CloserRank(w.r.closer) == CloserRank(v.r.closer) && (
          || Requests(w.handlers) < Requests(v.handlers)
          || (Requests(w.handlers) == Requests(v.handlers) && (
                || Load(w.r.jobs, n) < Load(v.r.jobs, m)
                || (Load(w.r.jobs, n) == Load(v.r.jobs, m) && |w.writes| < |v.writes|)))))
  }

  // ---- Due actions descend -------------------------------------------------

  lemma LoopDescends(p: Params, w: World, e: Event, n: nat)
    requires Inv(p.limits, w.r) && CanLoop(p, w, e) && R.Awaited(w.r, e) && Below(w.r.jobs, n)
    ensures var v := Looping(p, w, e); Below(v.r.jobs, n) && Nearer(v, n, w, n)
  {
    AwaitedDescends(p.limits, w.r, e, n);
    CoupledKeeps(w, e, Apply(p.limits, w.r, e));
  }

  lemma CancelDescends(p: Params, w: World, j: JobId, committed: bool, n: nat)
    requires Inv(p.limits, w.r) && CanCancel(p, w, j, committed) && Below(w.r.jobs, n)
    ensures var v := CancelReached(w, j, committed); Below(v.r.jobs, n) && Nearer(v, n, w, n)
  {
    AwaitedDescends(p.limits, w.r, Deliver(j), n);
    CancelDelivers(w, j, committed);
    CancelHandlesNothing(w, j, committed);
  }

  lemma CancelHandlesNothing(w: World, j: JobId, committed: bool)
    requires InFn(w, j) && (w.fn[j].FailureWrite? && committed ==> HasRow(w, j))
    ensures CancelReached(w, j, committed).handlers == w.handlers
  {}

  lemma WriteDescends(w: World, j: JobId, n: nat)
    requires j in w.writes && HasRow(w, j) && Below(w.r.jobs, n)
    ensures var v := WriteCommitted(w, j); Below(v.r.jobs, n) && Nearer(v, n, w, n)
  {
    var v := WriteCommitted(w, j);
    assert v.writes.Keys == w.writes.Keys - {j};
  }

  lemma FewerSubmitting(a: map<RowId, Handler>, b: map<RowId, Handler>, id: RowId)
    requires id in a && (b == a - {id} || (a[id].Submitting? && id in b && b == a[id := b[id]] && !b[id].Submitting?))
    ensures Requests(b) < Requests(a)
  {
    if b == a - {id} {
      assert b.Keys == a.Keys - {id};
      assert SubmittingIn(b) == SubmittingIn(a) - {id};
    } else {
      assert b.Keys == a.Keys;
      assert SubmittingIn(b) == SubmittingIn(a) - {id};
    }
  }

  lemma RejectionDescends(w: World, id: RowId, n: nat)
    requires CanReject(w, id) && Below(w.r.jobs, n)
    ensures var v := RejectionCommitted(w, id); Below(v.r.jobs, n) && Nearer(v, n, w, n)
  {
    FewerSubmitting(w.handlers, RejectionCommitted(w, id).handlers, id);
  }

  lemma SubmitDescends(p: Params, w: World, id: RowId, j: JobId, n: nat)
    requires Inv(p.limits, w.r) && CanSubmit(p, w, id, j) && Below(w.r.jobs, n)
    ensures var v, m := SubmittedRow(p, w, id, j), n + j + 1; Below(v.r.jobs, m) && Nearer(v, m, w, n)
  {
    var v := SubmittedRow(p, w, id, j);
    SubmitRowRest(p, w, id, j);
    SubmitMovesNobody(p, w, id, j);
    FewerSubmitting(w.handlers, v.handlers, id);
  }

  lemma SubmitMovesNobody(p: Params, w: World, id: RowId, j: JobId)
    requires id in w.handlers && w.handlers[id].Submitting?
    ensures var v := SubmittedRow(p, w, id, j);
      && v.r.closer == w.r.closer && v.r.jobs.Keys <= w.r.jobs.Keys + {j}
      && (v.handlers == w.handlers - {id}
          || (id in v.handlers && v.handlers == w.handlers[id := v.handlers[id]] && !v.handlers[id].Submitting?))
  {}

  lemma DueDescends(p: Params, w: World, a: Action, n: nat) returns (m: nat)
    requires Inv(p.limits, w.r) && CanDo(p, w, a) && Due(p, w, a) && Below(w.r.jobs, n)
    ensures Below(Do(p, w, a).r.jobs, m) && Nearer(Do(p, w, a), m, w, n)
  {
    if a.SubmitRow? {
      m := n + a.job + 1;
      SubmitActionDescends(p, w, a, n);
    } else {
      m := n;
      OtherDescends(p, w, a, n);
    }
  }

  lemma SubmitActionDescends(p: Params, w: World, a: Action, n: nat)
    requires Inv(p.limits, w.r) && CanDo(p, w, a) && a.SubmitRow? && Below(w.r.jobs, n)
    ensures var m := n + a.job + 1; Below(Do(p, w, a).r.jobs, m) && Nearer(Do(p, w, a), m, w, n)
  {
    SubmitIs(p, w, a);
    SubmitDescends(p, w, a.row, a.job, n);
  }

  lemma SubmitIs(p: Params, w: World, a: Action)
    requires CanDo(p, w, a) && a.SubmitRow?
    ensures CanSubmit(p, w, a.row, a.job) && Do(p, w, a) == SubmittedRow(p, w, a.row, a.job)
  {}

  lemma OtherDescends(p: Params, w: World, a: Action, n: nat)
    requires Inv(p.limits, w.r) && CanDo(p, w, a) && Due(p, w, a) && !a.SubmitRow? && Below(w.r.jobs, n)
    ensures Below(Do(p, w, a).r.jobs, n) && Nearer(Do(p, w, a), n, w, n)
  {
    if a.Loop? || a.CancelReaches? {
      RunnerActionDescends(p, w, a, n);
    } else {
      WriteActionDescends(p, w, a, n);
    }
  }

  lemma RunnerActionDescends(p: Params, w: World, a: Action, n: nat)
    requires Inv(p.limits, w.r) && CanDo(p, w, a) && Due(p, w, a) && (a.Loop? || a.CancelReaches?) && Below(w.r.jobs, n)
    ensures Below(Do(p, w, a).r.jobs, n) && Nearer(Do(p, w, a), n, w, n)
  {
    match a
    case Loop(e) => LoopDescends(p, w, e, n);
    case CancelReaches(j, committed) => CancelDescends(p, w, j, committed, n);
  }

  lemma WriteActionDescends(p: Params, w: World, a: Action, n: nat)
    requires CanDo(p, w, a) && (a.WriteCommits? || a.RejectionCommits?) && Below(w.r.jobs, n)
    ensures Below(Do(p, w, a).r.jobs, n) && Nearer(Do(p, w, a), n, w, n)
  {
    if a.WriteCommits? { WriteDescends(w, a.job, n); } else { RejectionDescends(w, a.row, n); }
  }

  // ---- Runs ----------------------------------------------------------------

  /** Nothing happens but what is due, and the clock. */
  ghost predicate Patient(p: Params, w: World, acts: seq<Action>)
    requires Possible(p, w, acts)
    decreases |acts|
  {
    acts == [] || (
      (Due(p, w, acts[0]) || (acts[0].Loop? && acts[0].e.Tick?)) && Patient(p, Do(p, w, acts[0]), acts[1..]))
  }

  /** Some such run gets to time `to`. */
  ghost predicate LastsTo(p: Params, w: World, to: real) {
    exists acts :: Possible(p, w, acts) && Patient(p, w, acts) && After(p, w, acts).r.now >= to
  }

  lemma LastsAfter(p: Params, w: World, a: Action, to: real)
    requires CanDo(p, w, a) && (Due(p, w, a) || (a.Loop? && a.e.Tick?)) && LastsTo(p, Do(p, w, a), to)
    ensures LastsTo(p, w, to)
  {
    var acts :| Possible(p, Do(p, w, a), acts) && Patient(p, Do(p, w, a), acts)
                && After(p, Do(p, w, a), acts).r.now >= to;
    var longer := [a] + acts;
    assert longer[0] == a && longer[1..] == acts;
    assert Possible(p, w, longer) && Patient(p, w, longer) && After(p, w, longer).r.now >= to;
  }

  lemma Arrives(p: Params, w: World, to: real)
    requires w.r.now >= to
    ensures LastsTo(p, w, to)
  {
    assert Possible(p, w, []) && Patient(p, w, []) && After(p, w, []) == w;
  }

  lemma {:induction false} WorldLasts(p: Params, w: World, to: real, n: nat)
    requires Roomy(p) && Good(p, w) && Below(w.r.jobs, n)
    ensures LastsTo(p, w, to)
    decreases CloserRank(w.r.closer), Requests(w.handlers), Load(w.r.jobs, n), |w.writes|, !ActionDue(p, w), 1
  {
    if w.r.now >= to {
      Arrives(p, w, to);
    } else if ActionDue(p, w) {
      LastsByAction(p, w, to, n);
    } else {
      LastsByTick(p, w, to, n);
    }
  }

  lemma {:induction false} LastsByAction(p: Params, w: World, to: real, n: nat)
    requires Roomy(p) && Good(p, w) && Below(w.r.jobs, n) && ActionDue(p, w)
    ensures LastsTo(p, w, to)
    decreases CloserRank(w.r.closer), Requests(w.handlers), Load(w.r.jobs, n), |w.writes|, !ActionDue(p, w), 0
  {
    var a, m := NextDue(p, w, n);
    WorldLasts(p, Do(p, w, a), to, m);
    LastsAfter(p, w, a, to);
  }

  lemma {:induction false} LastsByTick(p: Params, w: World, to: real, n: nat)
    requires Roomy(p) && Good(p, w) && Below(w.r.jobs, n) && !ActionDue(p, w) && w.r.now < to
    ensures LastsTo(p, w, to)
    decreases CloserRank(w.r.closer), Requests(w.handlers), Load(w.r.jobs, n), |w.writes|, !ActionDue(p, w), 0
  {
    var t := NextTick(p, w, to);
    if t == to { Arrives(p, Ticked(w, t), to); } else { WorldLasts(p, Ticked(w, t), to, n); }
    LastsAfter(p, w, Loop(Tick(t)), to);
  }

  lemma NextDue(p: Params, w: World, n: nat) returns (a: Action, m: nat)
    requires Roomy(p) && Good(p, w) && ActionDue(p, w) && Below(w.r.jobs, n)
    ensures Due(p, w, a) && CanDo(p, w, a) && Good(p, Do(p, w, a))
    ensures Below(Do(p, w, a).r.jobs, m) && Nearer(Do(p, w, a), m, w, n)
  {
    a :| Due(p, w, a) && CanDo(p, w, a);
    m := DueDescends(p, w, a, n);
    ActionKeeps(p, w, a);
  }

  lemma NextTick(p: Params, w: World, to: real) returns (t: real)
    requires Roomy(p) && Good(p, w) && w.r.now < to && !ActionDue(p, w)
    ensures CanDo(p, w, Loop(Tick(t))) && Do(p, w, Loop(Tick(t))) == Ticked(w, t)
    ensures Good(p, Ticked(w, t)) && t <= to && (t == to || ActionDue(p, Ticked(w, t)))
  {
    GoesOn(p, w, to);
    t :| t <= to && CanDo(p, w, Loop(Tick(t))) && (t == to || ActionDue(p, Ticked(w, t)));
    TickIs(p, w, t);
    ActionKeeps(p, w, Loop(Tick(t)));
  }

  /**
    From every reachable state of rows and jobs together some run gets to any later time, in which
    nothing happens but the clock and what it waits for.
   */
  lemma JointTimePasses(p: Params, rows: Store, w: World, to: real)
    requires Reachable(p, rows, w)
    ensures exists acts :: Possible(p, w, acts) && Patient(p, w, acts) && After(p, w, acts).r.now >= to
  {
    ReachableGood(p, rows, w);
    var n := SomeBound(w.r.jobs);
    WorldLasts(p, w, to, n);
  }

  // ---- Every row gets there ------------------------------------------------

  /** The row is there and has the start time it had. */
  predicate SameStart(w: World, v: World, id: RowId) {
    id in w.rows ==> id in v.rows && v.rows[id].startedAt == w.rows[id].startedAt
  }

  lemma DueKeepsStart(p: Params, w: World, a: Action, id: RowId)
    requires CanDo(p, w, a) && (Due(p, w, a) || (a.Loop? && a.e.Tick?))
    ensures SameStart(w, Do(p, w, a), id) && !Strands(w, a)
  {
    if a.Loop? {
      CoupledKeeps(w, a.e, Apply(p.limits, w.r, a.e));
    } else if a.CancelReaches? {
      CancelKeepsRows(w, a.job, a.committed, id);
    } else {
      OutsideKeepsStart(p, w, a, id);
    }
  }

  lemma CancelKeepsRows(w: World, j: JobId, committed: bool, id: RowId)
    requires InFn(w, j) && (w.fn[j].FailureWrite? && committed ==> HasRow(w, j))
    ensures SameStart(w, CancelReached(w, j, committed), id)
  {}

  lemma OutsideKeepsStart(p: Params, w: World, a: Action, id: RowId)
    requires CanDo(p, w, a) && (a.WriteCommits? || a.RejectionCommits? || a.SubmitRow?)
    ensures SameStart(w, Do(p, w, a), id)
  {
    if a.SubmitRow? { SubmitRowRest(p, w, a.row, a.job); }
  }

  lemma {:induction false} PatientKeepsStart(p: Params, w: World, acts: seq<Action>, id: RowId)
    requires Possible(p, w, acts) && Patient(p, w, acts)
    ensures SameStart(w, After(p, w, acts), id) && NothingStrands(p, w, acts)
    decreases |acts|
  {
    if acts != [] {
      DueKeepsStart(p, w, acts[0], id);
      PatientKeepsStart(p, Do(p, w, acts[0]), acts[1..], id);
    }
  }

  lemma {:induction false} RunsOn(p: Params, w: World, acts: seq<Action>, more: seq<Action>)
    requires Possible(p, w, acts) && Possible(p, After(p, w, acts), more)
    ensures Possible(p, w, acts + more) && After(p, w, acts + more) == After(p, After(p, w, acts), more)
    decreases |acts|
  {
    if acts == [] {
      assert acts + more == more;
    } else {
      var all := acts + more;
      assert all[0] == acts[0] && all[1..] == acts[1..] + more;
      RunsOn(p, Do(p, w, acts[0]), acts[1..], more);
      assert Possible(p, w, all);
    }
  }

  lemma ReachableOn(p: Params, rows: Store, w: World, more: seq<Action>)
    requires Reachable(p, rows, w) && Possible(p, w, more)
    ensures Reachable(p, rows, After(p, w, more))
  {
    var now: real, acts :|
      Possible(p, Start(p, rows, now), acts) && After(p, Start(p, rows, now), acts) == w;
    RunsOn(p, Start(p, rows, now), acts, more);
    assert Possible(p, Start(p, rows, now), acts + more);
  }

  /**
    Every processing row with somebody behind it can be brought to its end with nothing but the clock
    and what the clock waits for, so nothing else is needed for it: some such run settles it.
   */
  lemma EveryRowSettles(p: Params, rows: Store, w: World, id: RowId)
    requires Reachable(p, rows, w) && id in w.rows && w.rows[id].status == Processing && id !in w.stranded
    ensures exists acts :: Possible(p, w, acts) && Patient(p, w, acts)
              && id in After(p, w, acts).rows && After(p, w, acts).rows[id].status != Processing
  {
    SettledInTime(p, rows, w, id);
    var to := w.rows[id].startedAt.value + p.gap + p.limits.timeout + p.cleanup + 1.0;
    JointTimePasses(p, rows, w, to);
    var acts :| Possible(p, w, acts) && Patient(p, w, acts) && After(p, w, acts).r.now >= to;
    SettledByThen(p, rows, w, acts, id);
  }

  lemma SettledByThen(p: Params, rows: Store, w: World, acts: seq<Action>, id: RowId)
    requires Reachable(p, rows, w) && id in w.rows && id !in w.stranded && w.rows[id].startedAt.Some?
    requires Possible(p, w, acts) && Patient(p, w, acts)
    requires After(p, w, acts).r.now > w.rows[id].startedAt.value + p.gap + p.limits.timeout + p.cleanup
    ensures id in After(p, w, acts).rows && After(p, w, acts).rows[id].status != Processing
  {
    var v := After(p, w, acts);
    PatientKeepsStart(p, w, acts, id);
    ReachableCloses(p, rows, w);
    RunStrandsNothing(p, w, acts);
    ReachableOn(p, rows, w, acts);
    if v.rows[id].status == Processing { SettledInTime(p, rows, v, id); }
  }
}
