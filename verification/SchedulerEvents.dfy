/** What the one event of a job says: how its fn ended, over whole runs. */
module SchedulerEvents {
  import opened Messages
  import opened Scheduler
  import opened SchedulerInvariant
  import opened SchedulerSteps
  import opened SchedulerMoves
  import opened SchedulerFates
  import opened SchedulerRuns

  /**
    What each outcome tells of how fn ended, given whether close() had cancelled the job: it returned
    (True or False), it raised (a TimeoutError or another error), or a cancellation came out of it.
   */
  predicate Tells(outcome: Outcome, result: FnResult, cancelled: bool) {
    && (outcome == Succeeded <==> result == FnResult.Returned(true))
    && (outcome == Failed <==> result == FnResult.Returned(false) || result == Raised(false))
    && (outcome == RunTimeout <==> result == Raised(true) || (result.CancelledOut? && !cancelled))
    && (outcome == CancelledRunning <==> result.CancelledOut? && cancelled)
  }

  /** In the run, fn of job j ends with the result; cancelled: close() has cancelled the job by then. */
  ghost predicate FnEndsIn(l: Limits, s: Runner, es: seq<Event>, j: JobId, result: FnResult, cancelled: bool)
    requires Possible(l, s, es)
    decreases |es|
  {
    && es != []
    && (|| (es[0] == FnEnds(j, result) && cancelled == s.jobs[j].interrupted)
        || FnEndsIn(l, Apply(l, s, es[0]), es[1..], j, result, cancelled))
  }

  /** One event, which tells how fn ended. */
  predicate Logged(job: Job, result: FnResult, cancelled: bool) {
    && job.entered && job.phase.Done? && |job.logged| == 1 && Tells(job.logged[0], result, cancelled)
    && (result.CancelledOut? && !cancelled ==> job.timedOut)
  }

  lemma FnEndLogs(l: Limits, s: Runner, j: JobId, result: FnResult)
    requires Inv(l, s) && Enabled(l, s, FnEnds(j, result))
    ensures j in FnEnded(s, j, result).jobs
    ensures Logged(FnEnded(s, j, result).jobs[j], result, s.jobs[j].interrupted)
  {
    assert HistoryOk(s.jobs[j]);
    FnEndOthers(s, j, result);
  }

  /** What a job has logged once it is done stays. */
  lemma DoneStays(l: Limits, s: Runner, es: seq<Event>, j: JobId)
    requires Inv(l, s) && Possible(l, s, es) && j in s.jobs && s.jobs[j].phase.Done?
    ensures j in After(l, s, es).jobs && After(l, s, es).jobs[j] == s.jobs[j]
  {
    RunEvolves(l, s, es);
    assert Grew(s.jobs[j], After(l, s, es).jobs[j]);
  }

  lemma {:induction false} EndIsLogged(l: Limits, s: Runner, es: seq<Event>, j: JobId, result: FnResult,
                                       cancelled: bool)
    requires Inv(l, s) && Possible(l, s, es) && FnEndsIn(l, s, es, j, result, cancelled)
    ensures j in After(l, s, es).jobs && Logged(After(l, s, es).jobs[j], result, cancelled)
    decreases |es|
  {
    var t := Apply(l, s, es[0]);
    StepKeeps(l, s, es[0]);
    if es[0] == FnEnds(j, result) && cancelled == s.jobs[j].interrupted {
      FnEndLogs(l, s, j, result);
      DoneStays(l, t, es[1..], j);
    } else {
      EndIsLogged(l, t, es[1..], j, result, cancelled);
    }
  }

  /** A job that is in fn, or may still get there. */
  predicate Unended(s: Runner, j: JobId) { j in s.jobs ==> !(s.jobs[j].entered && s.jobs[j].phase.Done?) }

  lemma OnlyFnEndsEnd(l: Limits, s: Runner, e: Event, j: JobId)
    requires Inv(l, s) && Enabled(l, s, e) && Unended(s, j) && !Unended(Apply(l, s, e), j)
    ensures e.FnEnds? && e.job == j
  {
    if j in s.jobs {
      StepTakes(l, s, e, j);
      assert HistoryOk(s.jobs[j]);
    } else {
      NewcomersWait(l, s, e, j);
    }
  }

  lemma NewcomersWait(l: Limits, s: Runner, e: Event, j: JobId)
    requires Inv(l, s) && Enabled(l, s, e) && j !in s.jobs && j in Apply(l, s, e).jobs
    ensures e == Submit(j) && !Apply(l, s, e).jobs[j].entered
  {
    if e.Submit? { SubmitAddsOne(l, s, e.job); } else { StepFlags(l, s, e); }
  }

  lemma SubmitAddsOne(l: Limits, s: Runner, j: JobId)
    requires j !in s.jobs
    ensures Submitted(l, s, j).jobs.Keys <= s.jobs.Keys + {j}
    ensures j in Submitted(l, s, j).jobs ==>
              !Submitted(l, s, j).jobs[j].entered
              && (Submitted(l, s, j).jobs[j].phase.Rejected? <==> !Judge(l, s).Accepted?)
  {}

  lemma {:induction false} SomeEnd(l: Limits, s: Runner, es: seq<Event>, j: JobId)
    requires Inv(l, s) && Possible(l, s, es) && Unended(s, j) && !Unended(After(l, s, es), j)
    ensures exists result: FnResult, cancelled :: FnEndsIn(l, s, es, j, result, cancelled)
    decreases |es|
  {
    var t := Apply(l, s, es[0]);
    StepKeeps(l, s, es[0]);
    if Unended(t, j) {
      SomeEnd(l, t, es[1..], j);
      var result: FnResult, cancelled :| FnEndsIn(l, t, es[1..], j, result, cancelled);
      assert FnEndsIn(l, s, es, j, result, cancelled);
    } else {
      OnlyFnEndsEnd(l, s, es[0], j);
      assert FnEndsIn(l, s, es, j, es[0].result, s.jobs[j].interrupted);
    }
  }

  /**
    In every run: however the fn of a job ends, the job is then done with exactly one event, which tells
    how it ended, and a timeout that was not raised by fn itself means that the deadline fired; and
    every job that entered fn and is done got there by an end of its fn.
   */
  lemma EventTellsHowFnEnded(l: Limits, start: real, es: seq<Event>, j: JobId)
    requires Sane(l) && Possible(l, Init(l, start), es)
    ensures var t := After(l, Init(l, start), es);
      && (forall result: FnResult, cancelled :: FnEndsIn(l, Init(l, start), es, j, result, cancelled) ==>
            j in t.jobs && Logged(t.jobs[j], result, cancelled))
      && (j in t.jobs && t.jobs[j].entered && t.jobs[j].phase.Done? ==>
            exists result: FnResult, cancelled :: FnEndsIn(l, Init(l, start), es, j, result, cancelled))
  {
    var s := Init(l, start);
    InitHolds(l, start);
    forall result: FnResult, cancelled | FnEndsIn(l, s, es, j, result, cancelled)
      ensures j in After(l, s, es).jobs && Logged(After(l, s, es).jobs[j], result, cancelled)
    {
      EndIsLogged(l, s, es, j, result, cancelled);
    }
    if !Unended(After(l, s, es), j) { SomeEnd(l, s, es, j); }
  }

  // ---- The tasks the runner holds ------------------------------------------

  /** The set gains an accepted job, loses a discarded one, and is otherwise left alone. */
  function TasksAfter(l: Limits, s: Runner, e: Event): set<JobId> {
    if e.Submit? && Judge(l, s).Accepted? then s.tasks + {e.job}
    else if e.Discard? then s.tasks - {e.job}
    else s.tasks
  }

  lemma ResumeKeepsTasks(l: Limits, s: Runner, j: JobId)
    requires Inv(l, s) && Enabled(l, s, Resume(j))
    ensures Resumed(l, s, j).tasks == s.tasks
  {
    if s.jobs[j].phase.Unwinding? { GaveBackKeeps(l, s, j); }
    WakeAllGrants(if s.jobs[j].phase.Granted? then s else GaveBack(s, j));
  }

  lemma ReadyKeepsTasks(l: Limits, s: Runner)
    requires Enabled(l, s, RunReady)
    ensures RanReady(l, s).tasks == s.tasks
  {}

  lemma PlainKeepsTasks(l: Limits, s: Runner, e: Event)
    requires Enabled(l, s, e) && !e.Resume? && !e.FnEnds? && !e.RunReady?
    ensures Apply(l, s, e).tasks == TasksAfter(l, s, e)
  {}

  lemma TasksMove(l: Limits, s: Runner, e: Event)
    requires Inv(l, s) && Enabled(l, s, e)
    ensures Apply(l, s, e).tasks == TasksAfter(l, s, e)
  {
    if e.Resume? {
      ResumeKeepsTasks(l, s, e.job);
    } else if e.FnEnds? {
      FnEndOthers(s, e.job, e.result);
    } else if e.RunReady? {
      ReadyKeepsTasks(l, s);
    } else {
      PlainKeepsTasks(l, s, e);
    }
  }

  /** A task that has been dropped does not come back. */
  lemma {:induction false} StaysDropped(l: Limits, s: Runner, es: seq<Event>, j: JobId)
    requires Inv(l, s) && Possible(l, s, es) && j in s.jobs && j !in s.tasks
    ensures j !in After(l, s, es).tasks
    decreases |es|
  {
    if es != [] {
      StepKeeps(l, s, es[0]);
      StepEvolves(l, s, es[0]);
      TasksMove(l, s, es[0]);
      StaysDropped(l, Apply(l, s, es[0]), es[1..], j);
    }
  }

  /** If the runner holds the job's task, or will take the job yet. */
  predicate HeldOrNew(s: Runner, j: JobId) { j in s.jobs && !s.jobs[j].phase.Rejected? ==> j in s.tasks }

  lemma StaysHeldOrNew(l: Limits, s: Runner, e: Event, j: JobId)
    requires Inv(l, s) && Enabled(l, s, e) && HeldOrNew(s, j) && e != Discard(j)
    ensures HeldOrNew(Apply(l, s, e), j)
  {
    var t := Apply(l, s, e);
    TasksMove(l, s, e);
    if j in s.jobs {
      StepTakes(l, s, e, j);
      StepEvolves(l, s, e);
      assert Grew(s.jobs[j], t.jobs[j]);
    } else if j in t.jobs {
      NewcomersWait(l, s, e, j);
      SubmitAddsOne(l, s, j);
    }
  }

  lemma {:induction false} HeldFrom(l: Limits, s: Runner, es: seq<Event>, j: JobId)
    requires Inv(l, s) && Possible(l, s, es) && HeldOrNew(s, j)
    ensures Discard(j) in es ==> j !in After(l, s, es).tasks
    ensures Discard(j) !in es ==> HeldOrNew(After(l, s, es), j)
    decreases |es|
  {
    if es != [] {
      var t := Apply(l, s, es[0]);
      assert es == [es[0]] + es[1..];
      StepKeeps(l, s, es[0]);
      if es[0] == Discard(j) {
        TasksMove(l, s, es[0]);
        StaysDropped(l, t, es[1..], j);
      } else {
        StaysHeldOrNew(l, s, es[0], j);
        HeldFrom(l, t, es[1..], j);
      }
    }
  }

  /** In every run `_tasks` is exactly the accepted jobs whose done callback has not run. */
  lemma TasksAreTheUndiscarded(l: Limits, start: real, es: seq<Event>, j: JobId)
    requires Sane(l) && Possible(l, Init(l, start), es)
    ensures var t := After(l, Init(l, start), es);
      j in t.tasks <==> j in t.jobs && !t.jobs[j].phase.Rejected? && Discard(j) !in es
  {
    InitHolds(l, start);
    RunKeeps(l, Init(l, start), es);
    HeldFrom(l, Init(l, start), es, j);
  }
}
