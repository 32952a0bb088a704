/**
  `JobRunner` as an object: the fields `submit`, `_run` and `close` update, each method being
  the code between two awaits, proved against the step functions of `Scheduler`.
 */
module JobRunners {
  import opened Messages
  import opened Scheduler
  import opened SchedulerInvariant
  import opened SchedulerSteps
  import opened SchedulerMoves

  /** The jobs the loop of the cancel pass has visited are cancelled, the others untouched. */
  ghost predicate PassProgress(before: Runner, todo: set<JobId>, queue: seq<JobId>, jobs: map<JobId, Job>) {
    && jobs.Keys == before.jobs.Keys
    && (forall k :: k in before.jobs ==>
          jobs[k] == if k in before.tasks - todo && k !in before.running
                     then CancelInLine(before.jobs[k]) else before.jobs[k])
    && (forall k :: k in queue <==> k in before.queue && k in todo)
    && (forall i, k :: 0 <= i < k < |queue| ==> queue[i] != queue[k])
  }

  lemma PassStep(before: Runner, todo: set<JobId>, queue: seq<JobId>, jobs: map<JobId, Job>, j: JobId)
    requires PassProgress(before, todo, queue, jobs) && todo <= before.tasks && j in todo && j in jobs
    requires forall k :: k in before.queue ==> k !in before.running
    ensures if j in before.running then PassProgress(before, todo - {j}, queue, jobs)
            else PassProgress(before, todo - {j}, Without(queue, j), jobs[j := CancelInLine(jobs[j])])
  {
    WithoutMeans(queue, j);
  }

  lemma PassComplete(before: Runner, queue: seq<JobId>, jobs: map<JobId, Job>)
    requires PassProgress(before, {}, queue, jobs)
    ensures queue == [] && jobs == PassJobs(before)
  {
    EmptyOrSome(queue);
  }

  lemma FirstStepRuns(l: Limits, s: Runner, j: JobId)
    requires Enabled(l, s, RunReady) && s.ready[0] == FirstStep(j)
    ensures RanReady(l, s) == Started(l, s.(ready := s.ready[1..]), j)
  {}

  /** What the outcome of a job tells about how its fn ended. */
  lemma OutcomeMeans(l: Limits, s: Runner, j: JobId, result: FnResult)
    requires Enabled(l, s, FnEnds(j, result))
    ensures var outcome := RunOutcome(s.jobs[j], result);
      && (outcome == Succeeded <==> result == FnResult.Returned(true))
      && (outcome == Failed <==> result == FnResult.Returned(false) || result == Raised(false))
      && (outcome == RunTimeout <==> result == Raised(true) || (result.CancelledOut? && !s.jobs[j].interrupted))
      && (outcome == CancelledRunning <==> result.CancelledOut? && s.jobs[j].interrupted)
      && (outcome == RunTimeout && result.CancelledOut? ==> s.jobs[j].timedOut)
  {}

  lemma OutcomeIsLogged(l: Limits, s: Runner, j: JobId, result: FnResult)
    requires Inv(l, s) && Enabled(l, s, FnEnds(j, result))
    ensures var t := FnEnded(s, j, result);
      j in t.jobs && t.jobs[j].phase.Done? && t.jobs[j].logged == [RunOutcome(s.jobs[j], result)]
  {
    assert HistoryOk(s.jobs[j]);
    FnEndOthers(s, j, result);
  }

  /** One more victim of the grace period. */
  lemma GraceStep(before: Runner, done: set<JobId>, j: JobId)
    requires j !in done
    ensures var jobs := GraceJobs(before, done);
      GraceJobs(before, done + {j}) == if j in jobs then jobs[j := CancelRunning(jobs[j])] else jobs
  {
    assert forall k :: k in before.jobs && k != j ==> GraceJobs(before, done + {j})[k] == GraceJobs(before, done)[k];
  }

  class JobRunner {
    const limits: Limits

    // The object's own fields; the semaphore is its value and its pending waiters.
    var free: nat
    var queue: seq<JobId>
    var waiting: int
    var tasks: set<JobId>
    var runningTasks: set<JobId>
    var closed: bool

    // Where the event loop has got to: its clock, its ready list and each suspended coroutine.
    var now: real
    var ready: seq<Callback>
    var closer: Closer
    var jobs: map<JobId, Job>

    ghost function State(): Runner
      reads this
    {
      Runner(now, free, queue, waiting, tasks, runningTasks, closed, ready, closer, jobs)
    }

    ghost predicate Valid()
      reads this
    {
      Inv(limits, State())
    }

    constructor (limits: Limits, now: real)
      requires Sane(limits)
      ensures Valid() && this.limits == limits && State() == Init(limits, now)
    {
      this.limits := limits;
      free, queue := limits.maxConcurrent, [];
      waiting, tasks, runningTasks, closed := 0, {}, {}, false;
      this.now, ready, closer, jobs := now, [], Open, map[];
      new;
      InitHolds(limits, now);
    }

    method Submit(j: JobId) returns (verdict: Verdict)
      requires Valid() && j !in jobs
      modifies this
      ensures Valid() && State() == Submitted(limits, old(State()), j)
      ensures verdict == Judge(limits, old(State()))
      ensures verdict.Busy? ==> old(waiting) == limits.maxQueued
      ensures verdict.Accepted? <==> !old(closed) && old(waiting) < limits.maxQueued
    {
      SubmitKeeps(limits, State(), j);
      if closed { return Closed; }
      if waiting >= limits.maxQueued {
        jobs := jobs[j := NewJob(now).(phase := Rejected, logged := [RejectedBusy])];
        return Busy;
      }
      waiting := waiting + 1;
      jobs := jobs[j := NewJob(now)];
      ready := ready + [FirstStep(j)];
      tasks := tasks + {j};
      return Accepted;
    }

    // ---- The semaphore -----------------------------------------------------

    method WakeUpNext()
      modifies this`free, this`queue, this`jobs
      ensures State() == WakeNext(old(State()))
    {
      if free > 0 && queue != [] {
        free := free - 1;
        jobs := WithPhase(jobs, queue[0], Granted);
        queue := queue[1..];
      }
    }

    method WakeWhileFree()
      modifies this`free, this`queue, this`jobs
      ensures State() == WakeAll(old(State()))
    {
      while free > 0 && queue != []
        invariant WakeAll(State()) == WakeAll(old(State()))
        decreases |queue|
      {
        WakeUpNext();
      }
    }

    // ---- Phase 1 -----------------------------------------------------------

    /** The slot is in hand: `_waiting -= 1`, `_running_tasks.add(task)`, and fn is called. */
    method Enter(j: JobId)
      requires j in jobs
      modifies this`waiting, this`runningTasks, this`jobs
      ensures State() == Entered(limits, old(State()), j)
    {
      waiting := waiting - 1;
      runningTasks := runningTasks + {j};
      var job := jobs[j];
      jobs := jobs[j := job.(phase := Running, entered := true, enteredAt := now,
                             runUntil := Max(now, job.submittedAt + limits.timeout))];
    }

    /** Take a slot, or queue for one when the semaphore is locked. */
    method AcquireOrQueue(j: JobId)
      requires j in jobs
      modifies this`free, this`queue, this`waiting, this`runningTasks, this`jobs
      ensures State() == Started(limits, old(State()), j)
    {
      var locked := Locked(Runner(now, free, queue, waiting, tasks, runningTasks, closed, ready, closer, jobs));
      jobs := jobs[j := jobs[j].(giveUpAt := now + limits.maxWait)];
      if locked {
        queue := queue + [j];
        jobs := WithPhase(jobs, j, Waiting);
      } else {
        free := free - 1;
        Enter(j);
      }
    }

    /** The first step of `_run`. */
    method Start(j: JobId)
      requires Valid() && ready != [] && ready[0] == FirstStep(j) && j in jobs
      modifies this
      ensures Valid() && State() == RanReady(limits, old(State()))
    {
      FirstStepKeeps(limits, State(), j);
      FirstStepRuns(limits, State(), j);
      ready := ready[1..];
      AcquireOrQueue(j);
    }

    /** A waiter whose future was resolved leaves acquire(). */
    method ResumeGranted(j: JobId)
      requires Valid() && j in jobs && jobs[j].phase.Granted?
      modifies this
      ensures Valid() && State() == ResumedGranted(limits, old(State()), j)
      ensures j in jobs && jobs[j].entered && jobs[j].failures == []
    {
      ResumedGrantedKeeps(limits, State(), j);
      WakeWhileFree();
      Enter(j);
      assert HistoryOk(jobs[j]);
    }

    method LeaveLine(j: JobId) returns (message: Message)
      requires j in jobs && jobs[j].phase.Unwinding?
      modifies this`free, this`queue, this`waiting, this`jobs
      ensures State() == ResumedUnwinding(old(State()), j)
      ensures message == if old(jobs[j].interrupted) then SweepMessage else BusyMessage
    {
      var job := jobs[j];
      if job.phase.slot { free := free + 1; }
      jobs := WithPhase(jobs, j, Unwinding(false));
      WakeWhileFree();
      waiting := waiting - 1;
      message := if job.interrupted then SweepMessage else BusyMessage;
      jobs := jobs[j := job.(phase := Marking(false), failures := job.failures + [message])];
    }

    /** A cancelled waiter leaves acquire() and has its row failed: fn will never run. */
    method ResumeUnwinding(j: JobId) returns (message: Message)
      requires Valid() && j in jobs && jobs[j].phase.Unwinding?
      modifies this
      ensures Valid() && State() == ResumedUnwinding(old(State()), j)
      ensures j in jobs && !jobs[j].entered && jobs[j].failures == [message]
      ensures message == SweepMessage <==> old(jobs[j].interrupted)
      ensures message == BusyMessage <==> !old(jobs[j].interrupted)
    {
      ResumedUnwindingKeeps(limits, State(), j);
      assert HistoryOk(jobs[j]);
      message := LeaveLine(j);
    }

    method WaitTimeoutFires(j: JobId)
      requires Valid() && Enabled(limits, State(), WaitExpires(j))
      modifies this
      ensures Valid() && State() == WaitExpired(old(State()), j)
    {
      WaitExpiredKeeps(limits, State(), j);
      queue := Without(queue, j);
      jobs := WithPhase(jobs, j, Unwinding(jobs[j].phase.Granted?));
    }

    method NeverStartedMarked(j: JobId)
      requires Valid() && j in jobs && jobs[j].phase.Marking?
      modifies this
      ensures Valid() && State() == MarkEnded(old(State()), j)
      ensures j in jobs && (jobs[j].logged == [] <==> old(jobs[j].phase.aborted))
    {
      MarkEndedKeeps(limits, State(), j);
      var job := jobs[j];
      assert HistoryOk(job);
      if !job.phase.aborted {
        var outcome := if job.failures == [SweepMessage] then CancelledWaiting else WaitTimeout;
        job := job.(logged := job.logged + [outcome]);
      }
      jobs := jobs[j := job.(phase := Done)];
    }

    // ---- Phase 2 -----------------------------------------------------------

    method RunTimeoutFires(j: JobId)
      requires Valid() && Enabled(limits, State(), DeadlineFires(j))
      modifies this
      ensures Valid() && State() == DeadlineFired(old(State()), j)
    {
      DeadlineKeeps(limits, State(), j);
      jobs := jobs[j := jobs[j].(timedOut := true, cancelPending := true)];
    }

    method CancellationReachesFn(j: JobId)
      requires Valid() && Enabled(limits, State(), Deliver(j))
      modifies this
      ensures Valid() && State() == Delivered(old(State()), j)
    {
      DeliverKeeps(limits, State(), j);
      jobs := jobs[j := jobs[j].(cancelPending := false)];
    }

    /** The `finally` of phase 2. */
    method LeaveFn(j: JobId, result: FnResult) returns (outcome: Outcome)
      requires j in jobs
      modifies this`free, this`queue, this`runningTasks, this`jobs
      ensures State() == FnEnded(old(State()), j, result)
      ensures outcome == RunOutcome(old(jobs[j]), result)
    {
      outcome := RunOutcome(jobs[j], result);
      runningTasks := runningTasks - {j};
      jobs := jobs[j := jobs[j].(phase := Done, logged := jobs[j].logged + [outcome])];
      free := free + 1;
      WakeUpNext();
    }

    /** fn is over, one way or another. */
    method Finish(j: JobId, result: FnResult) returns (outcome: Outcome)
      requires Valid() && Enabled(limits, State(), FnEnds(j, result))
      modifies this
      ensures Valid() && State() == FnEnded(old(State()), j, result)
      ensures j in jobs && jobs[j].phase.Done? && jobs[j].logged == [outcome]
      ensures outcome == Succeeded <==> result == FnResult.Returned(true)
      ensures outcome == Failed <==> result == FnResult.Returned(false) || result == Raised(false)
      ensures outcome == RunTimeout <==> result == Raised(true) || (result.CancelledOut? && !old(jobs[j].interrupted))
      ensures outcome == CancelledRunning <==> result.CancelledOut? && old(jobs[j].interrupted)
      ensures outcome == RunTimeout && result.CancelledOut? ==> old(jobs[j].timedOut)
    {
      FnEndedKeeps(limits, State(), j, result);
      OutcomeMeans(limits, State(), j, result);
      OutcomeIsLogged(limits, State(), j, result);
      outcome := LeaveFn(j, result);
    }

    /** The done callback of a task. */
    method DiscardTask(j: JobId)
      requires Valid() && Enabled(limits, State(), Discard(j))
      modifies this
      ensures Valid() && State() == Discarded(old(State()), j) && tasks == old(tasks) - {j}
    {
      DiscardKeeps(limits, State(), j);
      tasks := tasks - {j};
    }

    // ---- close() -----------------------------------------------------------

    method BeginClose()
      requires Valid() && closer.Open?
      modifies this
      ensures Valid() && State() == CloseBegun(old(State()))
    {
      CloseKeeps(limits, State());
      closed := true;
      if tasks == {} {
        closer := Closer.Returned(now, now);
      } else {
        closer := Yielding(now);
        ready := ready + [CloseWakes];
      }
    }

    /** The loop of the cancel pass over the tasks not in `_running_tasks`. */
    method CancelUnstarted(snapshot: set<JobId>)
      requires snapshot == tasks && QueueOk(State())
      requires forall j :: j in snapshot ==> j in jobs
      requires forall j :: j in queue ==> j in snapshot && j !in runningTasks
      modifies this`queue, this`jobs
      ensures queue == [] && jobs == PassJobs(old(State()))
    {
      ghost var before := State();
      var todo := snapshot;
      while todo != {}
        invariant todo <= snapshot && PassProgress(before, todo, queue, jobs)
        decreases |todo|
      {
        var j :| j in todo;
        PassStep(before, todo, queue, jobs, j);
        todo := todo - {j};
        if j !in runningTasks {
          queue := Without(queue, j);
          jobs := jobs[j := CancelInLine(jobs[j])];
        }
      }
      PassComplete(before, queue, jobs);
    }

    /** `task.cancel()` for each victim of the grace period that is still running. */
    method CancelVictims(victims: set<JobId>)
      modifies this`jobs
      ensures jobs == GraceJobs(old(State()), victims)
    {
      ghost var before := State();
      var todo := victims;
      while todo != {}
        invariant todo <= victims
        invariant jobs == GraceJobs(before, victims - todo)
        decreases |todo|
      {
        var j :| j in todo;
        GraceStep(before, victims - todo, j);
        assert victims - (todo - {j}) == (victims - todo) + {j};
        todo := todo - {j};
        if j in jobs { jobs := jobs[j := CancelRunning(jobs[j])]; }
      }
      assert victims - todo == victims;
    }

    method WaitForPending(since: real, snapshot: set<JobId>)
      modifies this`closer
      ensures State() == FinalWait(old(State()), since, snapshot)
    {
      var pending := set j | j in snapshot && j in jobs && Live(jobs[j].phase);
      if pending == {} {
        closer := Closer.Returned(since, now);
      } else {
        closer := Finishing(since, now + CANCEL_DRAIN_SEC, pending);
      }
    }

    method CancelThenWait()
      requires closer.Yielding? && QueueOk(State())
      requires forall j :: j in tasks ==> j in jobs
      requires forall j :: j in queue ==> j in tasks && j !in runningTasks
      modifies this`queue, this`jobs, this`closer
      ensures State() == CancelPass(limits, old(State()))
    {
      var since, snapshot := closer.since, tasks;
      CancelUnstarted(snapshot);
      var victims := snapshot * runningTasks;
      if victims != {} {
        closer := Draining(since, now + limits.grace, snapshot, victims);
      } else {
        WaitForPending(since, snapshot);
      }
    }

    /** `close()` wakes from its sleep(0): cancel what has not started, then wait for the rest. */
    method RunCancelPass()
      requires Valid() && ready != [] && ready[0] == CloseWakes && closer.Yielding?
      modifies this
      ensures Valid() && State() == RanReady(limits, old(State()))
    {
      CancelPassKeeps(limits, State());
      assert forall j :: j in queue ==> Live(jobs[j].phase);
      ready := ready[1..];
      CancelThenWait();
    }

    /** The grace period is over: cancel the victims that are still running. */
    method EndGrace()
      requires Valid() && Enabled(limits, State(), GraceEnds)
      modifies this
      ensures Valid() && State() == GraceEnded(old(State()))
      ensures forall j :: j in jobs && jobs[j].phase.Running? ==> jobs[j].interrupted
    {
      GraceKeeps(limits, State());
      var since, snapshot := closer.since, closer.tasks;
      CancelVictims(closer.victims);
      WaitForPending(since, snapshot);
    }

    method EndDrain()
      requires Valid() && Enabled(limits, State(), DrainEnds)
      modifies this
      ensures Valid() && State() == DrainEnded(old(State()))
      ensures closer.Returned? && closer.at <= closer.since + limits.grace + CANCEL_DRAIN_SEC
    {
      DrainKeeps(limits, State());
      closer := Closer.Returned(closer.since, now);
    }
  }
}
