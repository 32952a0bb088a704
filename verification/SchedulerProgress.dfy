/**
  Time always passes: the steps the clock waits for come to an end, so any state can be continued, by
  such steps and the clock alone, to any later time.
 */
module SchedulerProgress {
  import opened Scheduler
  import opened SchedulerInvariant
  import opened SchedulerSteps
  import opened SchedulerMoves
  import opened SchedulerFates
  import opened SchedulerRuns

  // ---- A measure -----------------------------------------------------------

  /** How many awaited steps a job can still take, with no new cancellation from outside. */
  function Rank(job: Job): nat {
    match job.phase
    case Created => 8
    case Waiting => 7
    case Granted => 6
    case Unwinding(_) => 5
    case Marking(_) => 1
    case Running => 1 + (if job.timedOut then 0 else 2) + (if job.cancelPending then 1 else 0)
    case _ => 0
  }

  function CloserRank(c: Closer): nat {
    match c
    case Open => 4
    case Yielding(_) => 3
    case Draining(_, _, _, _) => 2
    case Finishing(_, _, _) => 1
    case Returned(_, _) => 0
  }

  /** The ranks of the jobs below n together. */
  function Load(jobs: map<JobId, Job>, n: nat): nat {
    if n == 0 then 0 else Load(jobs, n - 1) + if n - 1 in jobs then Rank(jobs[n - 1]) else 0
  }

  predicate Below(jobs: map<JobId, Job>, n: nat) { forall j :: j in jobs ==> j < n }

  ghost predicate NoneRises(a: map<JobId, Job>, b: map<JobId, Job>) {
    b.Keys == a.Keys && forall j :: j in a ==> Rank(b[j]) <= Rank(a[j])
  }

  lemma {:induction false} LoadFalls(a: map<JobId, Job>, b: map<JobId, Job>, n: nat, j: JobId)
    requires NoneRises(a, b)
    ensures Load(b, n) <= Load(a, n)
    ensures j in a && j < n && Rank(b[j]) < Rank(a[j]) ==> Load(b, n) < Load(a, n)
  {
    if n > 0 { LoadFalls(a, b, n - 1, j); }
  }

  // ---- Awaited steps descend -----------------------------------------------

  /** The job an awaited step is about, when it is about one. */
  function Mover(s: Runner, e: Event): JobId
    requires Awaited(s, e) && !MovesCloser(s, e) && (e.RunReady? ==> s.ready != [])
  {
    match e
    case RunReady => s.ready[0].job
    case Resume(j) => j
    case WaitExpires(j) => j
    case MarkEnds(j) => j
    case DeadlineFires(j) => j
    case Deliver(j) => j
  }

  lemma RankFalls(l: Limits, s: Runner, e: Event, j: JobId, b: Job)
    requires Enabled(l, s, e) && Awaited(s, e) && !MovesCloser(s, e)
    requires j in s.jobs && HistoryOk(s.jobs[j]) && TimesOk(l, s, s.jobs[j]) && Took(l, s, e, j, s.jobs[j], b)
    requires e.RunReady? && s.ready[0] == FirstStep(j) ==> s.jobs[j].phase.Created?
    ensures if j == Mover(s, e) then Rank(b) < Rank(s.jobs[j]) else Rank(b) <= Rank(s.jobs[j])
  {}

  lemma AwaitedDescends(l: Limits, s: Runner, e: Event, n: nat)
    requires Inv(l, s) && Enabled(l, s, e) && Awaited(s, e) && Below(s.jobs, n)
    ensures var t := Apply(l, s, e);
      && t.jobs.Keys == s.jobs.Keys
      && (CloserRank(t.closer) < CloserRank(s.closer)
          || (t.closer == s.closer && Load(t.jobs, n) < Load(s.jobs, n)))
  {
    var t := Apply(l, s, e);
    AwaitedSubmitsNobody(l, s, e);
    if MovesCloser(s, e) {
      CloserDescends(l, s, e);
    } else {
      CloserKept(l, s, e);
      JobsDescend(l, s, e, n);
    }
  }

  lemma AwaitedSubmitsNobody(l: Limits, s: Runner, e: Event)
    requires Inv(l, s) && Enabled(l, s, e) && Awaited(s, e)
    ensures Apply(l, s, e).jobs.Keys == s.jobs.Keys
  {
    if !e.Deliver? { StepFlags(l, s, e); }
  }

  lemma CloserDescends(l: Limits, s: Runner, e: Event)
    requires Enabled(l, s, e) && Awaited(s, e) && MovesCloser(s, e)
    ensures CloserRank(Apply(l, s, e).closer) < CloserRank(s.closer)
  {}

  lemma JobsDescend(l: Limits, s: Runner, e: Event, n: nat)
    requires Inv(l, s) && Enabled(l, s, e) && Awaited(s, e) && !MovesCloser(s, e) && Below(s.jobs, n)
    requires Apply(l, s, e).jobs.Keys == s.jobs.Keys
    ensures Load(Apply(l, s, e).jobs, n) < Load(s.jobs, n)
  {
    var t := Apply(l, s, e);
    if e.RunReady? { assert s.ready[0] in s.ready; }
    forall j | j in s.jobs
      ensures if j == Mover(s, e) then Rank(t.jobs[j]) < Rank(s.jobs[j]) else Rank(t.jobs[j]) <= Rank(s.jobs[j])
    {
      StepTakes(l, s, e, j);
      assert HistoryOk(s.jobs[j]) && TimesOk(l, s, s.jobs[j]);
      RankFalls(l, s, e, j, t.jobs[j]);
    }
    LoadFalls(s.jobs, t.jobs, n, Mover(s, e));
  }

  // ---- Runs ----------------------------------------------------------------

  /** Nothing happens but what the clock waits for, and the clock itself. */
  ghost predicate OnlyAwaited(l: Limits, s: Runner, es: seq<Event>)
    requires Possible(l, s, es)
    decreases |es|
  {
    es == [] || ((Awaited(s, es[0]) || es[0].Tick?) && OnlyAwaited(l, Apply(l, s, es[0]), es[1..]))
  }

  /** Some such run gets to time `to`. */
  ghost predicate GetsTo(l: Limits, s: Runner, to: real) {
    exists es :: Possible(l, s, es) && OnlyAwaited(l, s, es) && After(l, s, es).now >= to
  }

  lemma GetsToAfter(l: Limits, s: Runner, e: Event, to: real)
    requires Enabled(l, s, e) && (Awaited(s, e) || e.Tick?) && GetsTo(l, Apply(l, s, e), to)
    ensures GetsTo(l, s, to)
  {
    var es :| Possible(l, Apply(l, s, e), es) && OnlyAwaited(l, Apply(l, s, e), es)
              && After(l, Apply(l, s, e), es).now >= to;
    var longer := [e] + es;
    assert longer[0] == e && longer[1..] == es;
    assert Possible(l, s, longer) && OnlyAwaited(l, s, longer) && After(l, s, longer).now >= to;
  }

  lemma {:induction false} TimeCanPass(l: Limits, s: Runner, to: real, n: nat)
    requires Inv(l, s) && Below(s.jobs, n)
    ensures GetsTo(l, s, to)
    decreases CloserRank(s.closer), Load(s.jobs, n), !StepDue(l, s), 1
  {
    if s.now >= to {
      Arrived(l, s, to);
    } else if StepDue(l, s) {
      GetsByStep(l, s, to, n);
    } else {
      GetsByTick(l, s, to, n);
    }
  }

  lemma {:induction false} GetsByStep(l: Limits, s: Runner, to: real, n: nat)
    requires Inv(l, s) && Below(s.jobs, n) && StepDue(l, s)
    ensures GetsTo(l, s, to)
    decreases CloserRank(s.closer), Load(s.jobs, n), !StepDue(l, s), 0
  {
    var e :| Awaited(s, e) && Enabled(l, s, e);
    AwaitedDescends(l, s, e, n);
    StepKeeps(l, s, e);
    TimeCanPass(l, Apply(l, s, e), to, n);
    GetsToAfter(l, s, e, to);
  }

  lemma {:induction false} GetsByTick(l: Limits, s: Runner, to: real, n: nat)
    requires Inv(l, s) && Below(s.jobs, n) && !StepDue(l, s) && s.now < to
    ensures GetsTo(l, s, to)
    decreases CloserRank(s.closer), Load(s.jobs, n), !StepDue(l, s), 0
  {
    ClockMoves(l, s, to);
    var t :| t <= to && Enabled(l, s, Tick(t)) && (t == to || StepDue(l, s.(now := t)));
    StepKeeps(l, s, Tick(t));
    if t == to { Arrived(l, s.(now := t), to); } else { TimeCanPass(l, s.(now := t), to, n); }
    GetsToAfter(l, s, Tick(t), to);
  }

  lemma Arrived(l: Limits, s: Runner, to: real)
    requires s.now >= to
    ensures GetsTo(l, s, to)
  {
    assert Possible(l, s, []) && OnlyAwaited(l, s, []) && After(l, s, []) == s;
  }

  lemma {:induction false} SomeBound(jobs: map<JobId, Job>) returns (n: nat)
    ensures Below(jobs, n)
    decreases |jobs|
  {
    if jobs == map[] {
      n := 0;
    } else {
      var j :| j in jobs;
      var rest := jobs - {j};
      assert |rest| < |jobs| by { assert rest.Keys == jobs.Keys - {j}; }
      n := SomeBound(rest);
      n := if j < n then n else j + 1;
      assert forall k :: k in jobs ==> k == j || k in rest;
    }
  }

  /**
    From every reachable state some run gets to any later time with nothing but awaited steps and the
    clock: no submission, no return of fn, no end of a write is needed for time to pass.
   */
  lemma TimeAlwaysPasses(l: Limits, s: Runner, to: real)
    requires Reachable(l, s)
    ensures exists es :: Possible(l, s, es) && OnlyAwaited(l, s, es) && After(l, s, es).now >= to
  {
    ReachableInv(l, s);
    var n := SomeBound(s.jobs);
    TimeCanPass(l, s, to, n);
  }

  // ---- close() gets there --------------------------------------------------

  function Since(c: Closer): real
    requires !c.Open?
  {
    c.since
  }

  lemma StepKeepsSince(l: Limits, s: Runner, e: Event)
    requires Inv(l, s) && Enabled(l, s, e) && !s.closer.Open?
    ensures var t := Apply(l, s, e); !t.closer.Open? && Since(t.closer) == Since(s.closer)
  {
    if MovesCloser(s, e) { CloserMoveKeepsSince(l, s, e); } else { CloserKept(l, s, e); }
  }

  lemma CloserMoveKeepsSince(l: Limits, s: Runner, e: Event)
    requires Enabled(l, s, e) && MovesCloser(s, e) && !s.closer.Open?
    ensures var t := Apply(l, s, e); !t.closer.Open? && Since(t.closer) == Since(s.closer)
  {}

  lemma {:induction false} RunKeepsSince(l: Limits, s: Runner, es: seq<Event>)
    requires Inv(l, s) && Possible(l, s, es) && !s.closer.Open?
    ensures var t := After(l, s, es); Inv(l, t) && !t.closer.Open? && Since(t.closer) == Since(s.closer)
    decreases |es|
  {
    if es != [] {
      StepKeeps(l, s, es[0]);
      StepKeepsSince(l, s, es[0]);
      RunKeepsSince(l, Apply(l, s, es[0]), es[1..]);
    }
  }

  /** Once begun, close() returns: awaited steps and the clock are all it takes. */
  lemma CloseReturns(l: Limits, s: Runner)
    requires Reachable(l, s) && s.closed
    ensures exists es :: Possible(l, s, es) && OnlyAwaited(l, s, es) && After(l, s, es).closer.Returned?
  {
    ReachableInv(l, s);
    var to := Since(s.closer) + l.grace + CANCEL_DRAIN_SEC + 1.0;
    TimeAlwaysPasses(l, s, to);
    var es :| Possible(l, s, es) && OnlyAwaited(l, s, es) && After(l, s, es).now >= to;
    RunKeepsSince(l, s, es);
    ByThenReturned(l, After(l, s, es));
  }

  lemma ByThenReturned(l: Limits, s: Runner)
    requires Inv(l, s) && !s.closer.Open? && s.now > Since(s.closer) + l.grace + CANCEL_DRAIN_SEC
    ensures s.closer.Returned?
  {}
}
