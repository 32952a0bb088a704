/** The request handlers that write a row and hand its job to the runner. */
module Requests {
  import opened Wrappers
  import opened Messages
  import opened Scheduler
  import opened SchedulerInvariant
  import opened JobRunners
  import opened Rows
  import opened Product
  import opened Repositories

  /** What a refused job's row is told. */
  function RefusalMessage(v: Verdict): Message { if v.Busy? then BusyMessage else EnqueueFailedMessage }

  /** What submission makes of a pending row. */
  function SubmittedAs(l: Limits, s: Runner, row: Row): Row {
    var verdict := Judge(l, s);
    if verdict.Accepted? then row else Failing(row, RefusalMessage(verdict))
  }

  /**
    `_submit_review_job`, `_submit_plan_job`: the row is processing afterwards exactly when the runner
    took the job, and otherwise failed with the reason.
   */
  method SubmitJob(runner: JobRunner, repo: Repository, id: RowId, j: JobId) returns (row: Row)
    requires runner.Valid() && repo.Valid() && j !in runner.jobs
    requires id in repo.rows && repo.rows[id].status == Processing
    modifies runner, repo
    ensures runner.Valid() && repo.Valid()
    ensures runner.State() == Submitted(runner.limits, old(runner.State()), j)
    ensures row == SubmittedAs(runner.limits, old(runner.State()), old(repo.rows)[id])
    ensures repo.rows == old(repo.rows)[id := row]
    ensures row.status == Processing <==> j in runner.tasks && j in runner.jobs && Live(runner.jobs[j].phase)
    ensures row.status == Processing <==> !old(runner.closed) && old(runner.waiting) < runner.limits.maxQueued
    ensures row.status == Processing ==> row == old(repo.rows)[id]
    ensures row.status != Processing ==>
      && row.status == Status.Failed && SameOwner(old(repo.rows)[id], row)
      && row.message == Some(if old(runner.closed) then EnqueueFailedMessage else BusyMessage)
  {
    ghost var before := runner.State();
    row := repo.rows[id];
    var verdict := runner.Submit(j);
    NotATask(runner.limits, before, j);
    match verdict
    case Accepted => assert repo.rows == repo.rows[id := row];
    case Busy =>
      var marked := repo.MarkFailed(id, BusyMessage);
      row := marked.value;
    case Closed =>
      var marked := repo.MarkFailed(id, EnqueueFailedMessage);
      row := marked.value;
  }

  lemma NotATask(l: Limits, s: Runner, j: JobId)
    requires TasksOk(s) && j !in s.jobs
    ensures j !in s.tasks
  {}

  /** `create_review`, `generate_training_plan`: insert, then submit. */
  method Create(runner: JobRunner, repo: Repository, id: RowId, parent: nat, seen: Lookup, j: JobId)
    returns (r: Result<Row, RowError>)
    requires runner.Valid() && repo.Valid() && j !in runner.jobs && id !in repo.rows
    modifies runner, repo
    ensures runner.Valid() && repo.Valid()
    ensures r.Ok? <==>
      seen.owner == Some(seen.user) && OnlyFailed(old(repo.rows), id, parent) && (id.table.Reviews? ==> seen.hasMedia)
    ensures r.Ok? ==>
      && runner.State() == Submitted(runner.limits, old(runner.State()), j)
      && r.value == SubmittedAs(runner.limits, old(runner.State()), Pending(parent, old(runner.now)))
      && repo.rows == (old(repo.rows) - Siblings(old(repo.rows), id, parent))[id := r.value]
      && (r.value.status == Processing <==> j in runner.tasks && j in runner.jobs && Live(runner.jobs[j].phase))
    ensures r.Err? ==> repo.rows == old(repo.rows) && runner.State() == old(runner.State())
  {
    ghost var others := repo.rows - Siblings(repo.rows, id, parent);
    var pending := repo.Enqueue(id, parent, seen, runner.now);
    if pending.Err? { return pending; }
    var row := SubmitJob(runner, repo, id, j);
    assert others[id := pending.value][id := row] == others[id := row];
    r := Ok(row);
  }

  /** `retry_review`, `retry_training_plan`: reset, then submit. */
  method RetryRow(runner: JobRunner, repo: Repository, id: RowId, owner: nat, user: nat, j: JobId)
    returns (r: Result<Row, RowError>)
    requires runner.Valid() && repo.Valid() && j !in runner.jobs
    modifies runner, repo
    ensures runner.Valid() && repo.Valid()
    ensures r.Ok? <==> id in old(repo.rows) && owner == user && old(repo.rows)[id].status == Status.Failed
    ensures r.Ok? ==>
      && runner.State() == Submitted(runner.limits, old(runner.State()), j)
      && r.value == SubmittedAs(runner.limits, old(runner.State()), Resetting(old(repo.rows)[id], old(runner.now)))
      && repo.rows == old(repo.rows)[id := r.value]
      && (r.value.status == Processing <==> j in runner.tasks && j in runner.jobs && Live(runner.jobs[j].phase))
    ensures r.Err? ==> repo.rows == old(repo.rows) && runner.State() == old(runner.State())
  {
    var reset := repo.Retry(id, owner, user, runner.now);
    if reset.Err? { return reset; }
    var row := SubmitJob(runner, repo, id, j);
    r := Ok(row);
  }
}
