/** The handlers and the tasks, as methods of objects, against the actions of the joint step relation. */
module Replays {
  import opened Messages
  import opened Scheduler
  import opened Rows
  import opened Product
  import opened ProductRuns
  import opened Repositories
  import opened Requests

  // ---- Handlers ------------------------------------------------------------

  /** The actions of a submission: the refused row's failure write runs to its end. */
  function Submission(p: Params, r: Runner, id: RowId, j: JobId): seq<Action> {
    if Judge(p.limits, r).Accepted? then [SubmitRow(id, j)] else [SubmitRow(id, j), RejectionCommits(id)]
  }

  lemma OneAction(p: Params, w: World, a: Action)
    requires CanDo(p, w, a)
    ensures Possible(p, w, [a]) && After(p, w, [a]) == Do(p, w, a)
  {
    assert Possible(p, Do(p, w, a), [a][1..]);
  }

  lemma AndThen(p: Params, w: World, a: Action, rest: seq<Action>)
    requires CanDo(p, w, a) && Possible(p, Do(p, w, a), rest)
    ensures Possible(p, w, [a] + rest) && After(p, w, [a] + rest) == After(p, Do(p, w, a), rest)
  {
    assert ([a] + rest)[1..] == rest;
  }

  /** `SubmitJob` is a submission of the product. */
  lemma SubmissionReplayed(p: Params, w: World, id: RowId, j: JobId)
    requires id in w.rows && CanSubmit(p, w, id, j)
    ensures Possible(p, w, Submission(p, w.r, id, j))
    ensures var v := After(p, w, Submission(p, w.r, id, j));
      && v.r == Submitted(p.limits, w.r, j) && id !in v.handlers
      && v.rows == w.rows[id := SubmittedAs(p.limits, w.r, w.rows[id])]
  {
    var m := SubmittedRow(p, w, id, j);
    SubmissionIs(p, w, id, j);
    if Judge(p.limits, w.r).Accepted? {
      OneAction(p, w, SubmitRow(id, j));
    } else {
      OneAction(p, m, RejectionCommits(id));
      AndThen(p, w, SubmitRow(id, j), [RejectionCommits(id)]);
    }
  }

  lemma SubmissionIs(p: Params, w: World, id: RowId, j: JobId)
    requires id in w.rows && id in w.handlers
    ensures var v, verdict := SubmittedRow(p, w, id, j), Judge(p.limits, w.r);
      && v.r == Submitted(p.limits, w.r, j) && v.rows == w.rows
      && (verdict.Accepted? ==> w.rows == w.rows[id := w.rows[id]] && id !in v.handlers)
      && (!verdict.Accepted? ==>
            && id in v.handlers && v.handlers[id].Rejecting?
            && RejectionCommitted(v, id).rows == w.rows[id := Failing(w.rows[id], RefusalMessage(verdict))]
            && RejectionCommitted(v, id).r == v.r && id !in RejectionCommitted(v, id).handlers)
  {}

  /** `Create`, where it succeeds, is a run of the product: same rows, same runner. */
  lemma CreateReplayed(p: Params, w: World, id: RowId, parent: nat, j: JobId)
    requires CanEnqueue(w, id, parent) && j !in w.r.jobs
    ensures var acts := [Enqueue(id, parent)] + Submission(p, w.r, id, j);
      Possible(p, w, acts) && var v := After(p, w, acts);
        && v.r == Submitted(p.limits, w.r, j) && id !in v.handlers
        && v.rows == (w.rows - Siblings(w.rows, id, parent))
                     [id := SubmittedAs(p.limits, w.r, Rows.Pending(parent, w.r.now))]
  {
    var m := Enqueued(w, id, parent);
    SubmissionReplayed(p, m, id, j);
    AndThen(p, w, Enqueue(id, parent), Submission(p, w.r, id, j));
    Overwritten(w.rows - Siblings(w.rows, id, parent), id, m.rows[id], SubmittedAs(p.limits, w.r, m.rows[id]));
  }

  lemma Overwritten(rows: Store, id: RowId, first: Row, last: Row)
    ensures rows[id := first][id := last] == rows[id := last]
  {}

  /** `RetryRow`, where it succeeds, is a run of the product. */
  lemma RetryReplayed(p: Params, w: World, id: RowId, j: JobId)
    requires CanRetry(w, id) && j !in w.r.jobs
    ensures var acts := [Retry(id)] + Submission(p, w.r, id, j);
      Possible(p, w, acts) && var v := After(p, w, acts);
        && v.r == Submitted(p.limits, w.r, j) && id !in v.handlers
        && v.rows == w.rows[id := SubmittedAs(p.limits, w.r, Resetting(w.rows[id], w.r.now))]
  {
    var m := Retried(w, id);
    SubmissionReplayed(p, m, id, j);
    AndThen(p, w, Retry(id), Submission(p, w.r, id, j));
    Overwritten(w.rows, id, m.rows[id], SubmittedAs(p.limits, w.r, m.rows[id]));
  }

  // ---- Tasks ---------------------------------------------------------------

  /** The actions of a task function that ends so, with no cancellation inside its own writes. */
  function TaskActions(j: JobId, end: TaskEnd): seq<Action> {
    match end
    case Completes => [FnCommits(j), FnSettles(j)]
    case Raises(error) => [FnRaises(j, error), FailureCommits(j)]
    case Cancelled(_) => [CancelReaches(j, false), WriteCommits(j), FnSettles(j)]
  }

  /** A cancellation is on its way exactly when one is to end the task. */
  predicate EndsSo(w: World, j: JobId, end: TaskEnd)
    requires j in w.r.jobs
  {
    end.Cancelled? ==> w.r.jobs[j].cancelPending && end.shuttingDown == w.r.closed
  }

  /** `ProcessTask` is a run of the product: the same row in the end, and the same answer to the runner. */
  lemma TaskReplayed(p: Params, w: World, j: JobId, end: TaskEnd)
    requires InFn(w, j) && HasRow(w, j) && w.fn[j].Working? && j !in w.writes && EndsSo(w, j, end)
    ensures Possible(p, w, TaskActions(j, end))
    ensures var v := After(p, w, TaskActions(j, end));
      && v.rows == w.rows[w.rowOf[j] := Ended(w.rows[w.rowOf[j]], end)]
      && j in v.fn && v.fn[j] == Leaving(Answer(end)) && v.writes == w.writes
  {
    match end
    case Completes => CompletionReplayed(p, w, j);
    case Raises(error) => FailureReplayed(p, w, j, error);
    case Cancelled(_) => CancellationReplayed(p, w, j);
  }

  lemma CompletionReplayed(p: Params, w: World, j: JobId)
    requires InFn(w, j) && HasRow(w, j) && w.fn[j].Working?
    ensures var acts := [FnCommits(j), FnSettles(j)];
      Possible(p, w, acts) && After(p, w, acts) == FnSettled(FnCommitted(w, j), j)
  {
    OneAction(p, FnCommitted(w, j), FnSettles(j));
    AndThen(p, w, FnCommits(j), [FnSettles(j)]);
  }

  lemma FailureReplayed(p: Params, w: World, j: JobId, e: TaskError)
    requires InFn(w, j) && HasRow(w, j) && w.fn[j].Working?
    ensures var acts := [FnRaises(j, e), FailureCommits(j)];
      Possible(p, w, acts) && After(p, w, acts) == FailureCommitted(FnRaised(w, j, e), j)
  {
    OneAction(p, FnRaised(w, j, e), FailureCommits(j));
    AndThen(p, w, FnRaises(j, e), [FailureCommits(j)]);
  }

  lemma CancellationReplayed(p: Params, w: World, j: JobId)
    requires InFn(w, j) && HasRow(w, j) && w.fn[j].Working? && j !in w.writes && w.r.jobs[j].cancelPending
    ensures var acts := [CancelReaches(j, false), WriteCommits(j), FnSettles(j)];
      Possible(p, w, acts) && var v := After(p, w, acts);
        && v.rows == w.rows[w.rowOf[j] := Failing(w.rows[w.rowOf[j]], CancellationMessage(w.r.closed))]
        && j in v.fn && v.fn[j] == Leaving(CancelledOut) && v.writes == w.writes
  {
    var a := CancelReached(w, j, false);
    var b := WriteCommitted(a, j);
    CancelledTask(w, j);
    OneAction(p, b, FnSettles(j));
    AndThen(p, a, WriteCommits(j), [FnSettles(j)]);
    AndThen(p, w, CancelReaches(j, false), [WriteCommits(j)] + [FnSettles(j)]);
    assert [CancelReaches(j, false)] + ([WriteCommits(j)] + [FnSettles(j)]) ==
           [CancelReaches(j, false), WriteCommits(j), FnSettles(j)];
  }

  lemma CancelledTask(w: World, j: JobId)
    requires InFn(w, j) && HasRow(w, j) && w.fn[j].Working? && j !in w.writes
    ensures var a := CancelReached(w, j, false);
      && j in a.writes && HasRow(a, j)
      && var b := WriteCommitted(a, j);
         && CanSettle(b, j) && b.writes == w.writes
         && b.rows == w.rows[w.rowOf[j] := Failing(w.rows[w.rowOf[j]], CancellationMessage(w.r.closed))]
         && FnSettled(b, j).fn[j] == Leaving(CancelledOut)
  {}
}
