/** A concrete run in which a finished job logs nothing. */
module SchedulerWitnesses {
  import opened Messages
  import opened Scheduler
  import opened SchedulerInvariant
  import opened SchedulerMoves
  import opened SchedulerRuns

  lemma {:induction false} RunThen(l: Limits, s: Runner, es: seq<Event>, e: Event)
    requires Possible(l, s, es) && Enabled(l, After(l, s, es), e)
    ensures Possible(l, s, es + [e]) && After(l, s, es + [e]) == Apply(l, After(l, s, es), e)
    decreases |es|
  {
    if es == [] {
      assert es + [e] == [e];
      assert Possible(l, Apply(l, s, e), [e][1..]);
    } else {
      RunThen(l, Apply(l, s, es[0]), es[1..], e);
      assert (es + [e])[1..] == es[1..] + [e];
    }
  }

  lemma ReachableThen(l: Limits, s: Runner, e: Event)
    requires Reachable(l, s) && Enabled(l, s, e)
    ensures Reachable(l, Apply(l, s, e))
  {
    var start: real, es :| Possible(l, Init(l, start), es) && After(l, Init(l, start), es) == s;
    RunThen(l, Init(l, start), es, e);
    assert Possible(l, Init(l, start), es + [e]);
  }

  // ---- Every slot is taken -------------------------------------------------

  /** Inside fn, with a deadline no earlier than the first wait timeout. */
  predicate Inside(l: Limits, job: Job) {
    job.phase.Running? && !job.timedOut && !job.cancelPending && l.maxWait <= job.runUntil
  }

  /** The first n jobs are inside fn and nothing else has happened. */
  ghost predicate Crowd(l: Limits, s: Runner, n: nat) {
    && s.now == 0.0 && s.ready == [] && s.queue == [] && s.closer.Open? && !s.closed && s.waiting == 0
    && s.free == l.maxConcurrent - n
    && (forall j: nat :: j in s.jobs <==> j < n)
    && (forall j :: j in s.jobs ==> Inside(l, s.jobs[j]))
  }

  lemma {:induction false} CrowdArises(l: Limits, n: nat)
    requires Sane(l) && n <= l.maxConcurrent && l.maxQueued >= 1 && l.maxWait <= l.timeout
    ensures exists s :: Reachable(l, s) && Crowd(l, s, n)
    decreases n
  {
    if n == 0 {
      var s := Init(l, 0.0);
      assert Possible(l, s, []) && After(l, s, []) == s;
      assert Reachable(l, s) && Crowd(l, s, 0);
    } else {
      CrowdArises(l, n - 1);
      var s :| Reachable(l, s) && Crowd(l, s, n - 1);
      CrowdContinues(l, s, n - 1);
    }
  }

  lemma CrowdContinues(l: Limits, s: Runner, n: nat)
    requires Reachable(l, s) && Crowd(l, s, n)
    requires n < l.maxConcurrent && l.maxQueued >= 1 && l.maxWait <= l.timeout
    ensures exists t :: Reachable(l, t) && Crowd(l, t, n + 1)
  {
    CrowdGrows(l, s, n);
    ReachableThen(l, s, Submit(n));
    ReachableThen(l, Submitted(l, s, n), RunReady);
    assert Reachable(l, RanReady(l, Submitted(l, s, n)));
  }

  lemma CrowdGrows(l: Limits, s: Runner, n: nat)
    requires Crowd(l, s, n) && n < l.maxConcurrent && l.maxQueued >= 1 && l.maxWait <= l.timeout
    ensures Enabled(l, s, Submit(n)) && Enabled(l, Submitted(l, s, n), RunReady)
    ensures Crowd(l, RanReady(l, Submitted(l, s, n)), n + 1)
  {
    var t := Submitted(l, s, n);
    assert t.ready == [FirstStep(n)] && t.ready[1..] == [];
    assert !Locked(t);
  }

  // ---- One job too many ----------------------------------------------------

  /** The job in line alone, and everybody else inside fn. */
  ghost predicate LastInLine(l: Limits, s: Runner, now: real, n: nat) {
    && s.now == now && s.ready == [] && s.queue == [n] && s.closer.Open? && !s.closed
    && n in s.jobs && s.jobs[n].phase.Waiting? && s.jobs[n].giveUpAt == l.maxWait && !s.jobs[n].cancelPending
    && (forall j :: j in s.jobs && j != n ==> Inside(l, s.jobs[j]))
  }

  lemma OneTooMany(l: Limits, s: Runner, n: nat)
    requires Reachable(l, s) && Crowd(l, s, n) && n == l.maxConcurrent && l.maxQueued >= 1
    ensures exists t :: Reachable(l, t) && LastInLine(l, t, 0.0, n)
  {
    var m := Submitted(l, s, n);
    ReachableThen(l, s, Submit(n));
    assert m.ready == [FirstStep(n)] && m.ready[1..] == [] && Locked(m);
    ReachableThen(l, m, RunReady);
    assert LastInLine(l, RanReady(l, m), 0.0, n);
  }

  lemma WaitsItsTime(l: Limits, s: Runner, n: nat)
    requires Reachable(l, s) && LastInLine(l, s, 0.0, n)
    ensures exists t :: Reachable(l, t) && LastInLine(l, t, l.maxWait, n)
  {
    if l.maxWait > 0.0 {
      assert Enabled(l, s, Tick(l.maxWait));
      ReachableThen(l, s, Tick(l.maxWait));
      assert LastInLine(l, s.(now := l.maxWait), l.maxWait, n);
    }
  }

  /** Its failure is being written, and nothing is due. */
  ghost predicate Recording(s: Runner, j: JobId) {
    s.ready == [] && s.closer.Open? && !s.closed && j in s.jobs && s.jobs[j].phase == Marking(false)
  }

  lemma GivesUp(l: Limits, s: Runner, n: nat)
    requires Reachable(l, s) && LastInLine(l, s, l.maxWait, n)
    ensures exists t :: Reachable(l, t) && Recording(t, n)
  {
    var m := WaitExpired(s, n);
    ReachableThen(l, s, WaitExpires(n));
    assert s.queue[1..] == [] && Without([], n) == [];
    assert m.queue == [] && m.jobs[n].phase == Unwinding(false);
    ReachableThen(l, m, Resume(n));
    assert Recording(ResumedUnwinding(m, n), n);
  }

  /** From any such state, close() makes the job end without an event. */
  lemma ClosedOver(l: Limits, s: Runner, j: JobId)
    requires Reachable(l, s) && Recording(s, j)
    ensures exists t :: Reachable(l, t) && j in t.jobs && t.jobs[j].phase.Done? && t.jobs[j].logged == []
              && t.jobs[j].failures == [BusyMessage]
  {
    ReachableInv(l, s);
    assert HistoryOk(s.jobs[j]);
    var closing := CloseBegun(s);
    ReachableThen(l, s, Close);
    assert closing.ready == [CloseWakes];
    PassShape(l, closing);
    var passed := RanReady(l, closing);
    ReachableThen(l, closing, RunReady);
    assert passed.jobs[j] == CancelInLine(s.jobs[j]);
    ReachableThen(l, passed, MarkEnds(j));
    assert Apply(l, passed, MarkEnds(j)).jobs[j].logged == [];
  }

  /** A finished job need not have logged anything: under any settings that let a job wait, one run ends so. */
  lemma AJobCanLogNothing(l: Limits)
    requires Sane(l) && l.maxQueued >= 1 && l.maxWait <= l.timeout
    ensures exists s, j :: Reachable(l, s) && j in s.jobs && s.jobs[j].phase.Done? && s.jobs[j].logged == []
              && s.jobs[j].failures == [BusyMessage]
  {
    var n := l.maxConcurrent;
    CrowdArises(l, n);
    var crowd :| Reachable(l, crowd) && Crowd(l, crowd, n);
    OneTooMany(l, crowd, n);
    var line :| Reachable(l, line) && LastInLine(l, line, 0.0, n);
    WaitsItsTime(l, line, n);
    var late :| Reachable(l, late) && LastInLine(l, late, l.maxWait, n);
    GivesUp(l, late, n);
    var recording :| Reachable(l, recording) && Recording(recording, n);
    ClosedOver(l, recording, n);
  }
}
