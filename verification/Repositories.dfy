/**
  The review and training-plan repositories as one object over both tables, and the code that moves
  rows through them: enqueue, retry, the read-path check, the startup sweep and the two job tasks.
 */
module Repositories {
  import opened Wrappers
  import opened Messages
  import opened Scheduler
  import opened Rows
  import opened Product

  datatype RowError =
    | NoSuchRow         // `assert row is not None`
    | UniqueViolation   // UNIQUE(session_id), UNIQUE(review_id)
    | AlreadyExists     // enqueue over a completed or processing row
    | NotRetryable      // retry of a row that has not failed
    | NotFound
    | Forbidden         // of another profile
    | NoMedia           // a review of a session without media

  /** How `process_review` or `process_training_plan` ends inside a task. */
  datatype TaskEnd = Completes | Raises(error: TaskError) | Cancelled(shuttingDown: bool)

  /** What a task makes of its row. */
  function Ended(row: Row, end: TaskEnd): Row {
    match end
    case Completes => Completing(row)
    case Raises(error) => Failing(row, FriendlyMessage(error))
    case Cancelled(shuttingDown) => Failing(row, CancellationMessage(shuttingDown))
  }

  /** What it tells the runner. */
  function Answer(end: TaskEnd): FnResult {
    match end
    case Completes => FnResult.Returned(true)
    case Raises(_) => FnResult.Returned(false)
    case Cancelled(_) => CancelledOut
  }

  /** What an enqueue looks up: who owns the parent, if there is one, who asks, and whether the session has media. */
  datatype Lookup = Lookup(owner: Option<nat>, user: nat, hasMedia: bool)

  /** No row of the parent is completed or processing. */
  ghost predicate OnlyFailed(rows: Store, id: RowId, parent: nat) {
    forall k :: k in Siblings(rows, id, parent) ==> rows[k].status == Status.Failed
  }

  /** One table after the other is one pass over both. */
  lemma BothTables(before: Store, halfway: Store, after: Store, now: real, threshold: real)
    requires before.Keys == halfway.Keys == after.Keys
    requires forall id :: id in before ==>
      halfway[id] == if id.table == Reviews then SweptRow(before[id], now, threshold) else before[id]
    requires forall id :: id in before ==>
      after[id] == if id.table == TrainingPlans then SweptRow(halfway[id], now, threshold) else halfway[id]
    ensures after == Swept(before, now, threshold)
  {
    forall id | id in before ensures after[id] == Swept(before, now, threshold)[id] {}
  }

  class Repository {
    var rows: Store

    ghost predicate Valid()
      reads this
    {
      OnePerParent(rows)
    }

    constructor (rows: Store)
      requires OnePerParent(rows)
      ensures Valid() && this.rows == rows
    {
      this.rows := rows;
    }

    /** `get_for_session`, `get_by_review_id`. */
    method GetForParent(table: Table, parent: nat) returns (id: Option<RowId>)
      ensures id.Some? ==> id.value in rows && id.value.table == table && rows[id.value].parent == parent
      ensures id.None? ==> forall k :: k in rows && k.table == table ==> rows[k].parent != parent
    {
      if k :| k in rows && k.table == table && rows[k].parent == parent { return Some(k); }
      return None;
    }

    method CreatePending(id: RowId, parent: nat, now: real) returns (r: Result<Row, RowError>)
      requires Valid() && id !in rows
      modifies this
      ensures Valid()
      ensures r.Ok? <==> Siblings(old(rows), id, parent) == {}
      ensures r.Ok? ==> r.value == Pending(parent, now) && rows == old(rows)[id := r.value]
      ensures r.Ok? ==> r.value == Row(parent, Processing, None, Some(now), Some(now))
      ensures r.Err? ==> r.error == UniqueViolation && rows == old(rows)
    {
      var existing := GetForParent(id.table, parent);
      if existing.Some? {
        assert existing.value in Siblings(rows, id, parent);
        return Err(UniqueViolation);
      }
      rows := rows[id := Pending(parent, now)];
      return Ok(rows[id]);
    }

    /** Assign some fields of one row and commit. */
    method Write(id: RowId, row: Row) returns (r: Result<Row, RowError>)
      requires Valid() && (id in rows ==> row.parent == rows[id].parent)
      modifies this
      ensures Valid()
      ensures id in old(rows) ==> r == Ok(row) && rows == old(rows)[id := row]
      ensures id !in old(rows) ==> r == Err(NoSuchRow) && rows == old(rows)
    {
      if id !in rows { return Err(NoSuchRow); }
      rows := rows[id := row];
      return Ok(row);
    }

    method MarkCompleted(id: RowId) returns (r: Result<Row, RowError>)
      requires Valid()
      modifies this
      ensures Valid()
      ensures id in old(rows) ==> r == Ok(Completing(old(rows)[id])) && rows == old(rows)[id := r.value]
      ensures id in old(rows) ==>
        && r.value.status == Completed && r.value.message.None?
        && r.value.startedAt == old(rows)[id].startedAt && SameOwner(old(rows)[id], r.value)
      ensures id !in old(rows) ==> r == Err(NoSuchRow) && rows == old(rows)
    {
      if id !in rows { return Err(NoSuchRow); }
      r := Write(id, rows[id].(status := Completed, message := None));
    }

    method MarkFailed(id: RowId, message: Message) returns (r: Result<Row, RowError>)
      requires Valid()
      modifies this
      ensures Valid()
      ensures id in old(rows) ==> r == Ok(Failing(old(rows)[id], message)) && rows == old(rows)[id := r.value]
      ensures id in old(rows) ==>
        && r.value.status == Status.Failed && r.value.message == Some(message)
        && r.value.startedAt == old(rows)[id].startedAt && SameOwner(old(rows)[id], r.value)
      ensures id !in old(rows) ==> r == Err(NoSuchRow) && rows == old(rows)
    {
      if id !in rows { return Err(NoSuchRow); }
      r := Write(id, rows[id].(status := Status.Failed, message := Some(message)));
    }

    method ResetForRetry(id: RowId, now: real) returns (r: Result<Row, RowError>)
      requires Valid()
      modifies this
      ensures Valid()
      ensures id in old(rows) ==> r == Ok(Resetting(old(rows)[id], now)) && rows == old(rows)[id := r.value]
      ensures id in old(rows) ==>
        && r.value.status == Processing && r.value.message.None?
        && r.value.startedAt == Some(now) && SameOwner(old(rows)[id], r.value)
      ensures id !in old(rows) ==> r == Err(NoSuchRow) && rows == old(rows)
    {
      if id !in rows { return Err(NoSuchRow); }
      r := Write(id, rows[id].(status := Processing, message := None, startedAt := Some(now)));
    }

    method Delete(id: RowId)
      requires Valid()
      modifies this
      ensures Valid() && rows == old(rows) - {id}
    {
      rows := rows - {id};
    }

    // ---- The services ------------------------------------------------------

    /**
      `enqueue_review`, `enqueue_training_plan`: refused to strangers, over a row that is completed or
      processing, and for a session without media; otherwise a fresh pending row in place of the failed one.
     */
    method Enqueue(id: RowId, parent: nat, seen: Lookup, now: real) returns (r: Result<Row, RowError>)
      requires Valid() && id !in rows
      modifies this
      ensures Valid()
      ensures r.Ok? <==>
        seen.owner == Some(seen.user) && OnlyFailed(old(rows), id, parent) && (id.table.Reviews? ==> seen.hasMedia)
      ensures r.Ok? ==>
        r.value == Pending(parent, now) && rows == (old(rows) - Siblings(old(rows), id, parent))[id := r.value]
      ensures r.Err? ==> rows == old(rows)
      ensures r.Err? ==>
        r.error == (if seen.owner.None? then NotFound
                    else if seen.owner.value != seen.user then Forbidden
                    else if !OnlyFailed(old(rows), id, parent) then AlreadyExists
                    else NoMedia)
    {
      if seen.owner.None? { return Err(NotFound); }
      if seen.owner.value != seen.user { return Err(Forbidden); }
      ghost var before := rows;
      var existing := GetForParent(id.table, parent);
      if existing.Some? { OnlySibling(rows, id, parent, existing.value); }
      if existing.Some? && rows[existing.value].status != Status.Failed { return Err(AlreadyExists); }
      if id.table.Reviews? && !seen.hasMedia { return Err(NoMedia); }
      if existing.Some? { Delete(existing.value); }
      assert rows == before - Siblings(before, id, parent);
      r := CreatePending(id, parent, now);
    }

    /** `retry_review`, `retry_training_plan`; owner is the profile the row belongs to. */
    method Retry(id: RowId, owner: nat, user: nat, now: real) returns (r: Result<Row, RowError>)
      requires Valid()
      modifies this
      ensures Valid()
      ensures r.Ok? <==> id in old(rows) && owner == user && old(rows)[id].status == Status.Failed
      ensures r.Ok? ==> r.value == Resetting(old(rows)[id], now) && rows == old(rows)[id := r.value]
      ensures r.Err? ==> rows == old(rows)
      ensures r.Err? ==>
        r.error == (if id !in old(rows) then NotFound else if owner != user then Forbidden else NotRetryable)
    {
      if id !in rows { return Err(NotFound); }
      if owner != user { return Err(Forbidden); }
      if rows[id].status != Status.Failed { return Err(NotRetryable); }
      r := ResetForRetry(id, now);
    }

    /** The read path: a stale row is failed before it is shown. */
    method FailIfStale(id: RowId, now: real, threshold: real) returns (row: Row)
      requires Valid() && id in rows
      modifies this
      ensures Valid() && row == Checked(old(rows)[id], now, threshold) && rows == old(rows)[id := row]
      ensures if StaleAge(old(rows)[id], now, threshold).Some?
              then row.status == Status.Failed && row.message == Some(SweepMessage) && SameOwner(old(rows)[id], row)
              else row == old(rows)[id]
    {
      row := rows[id];
      if StaleAge(row, now, threshold).None? {
        assert rows == rows[id := row];
        return;
      }
      var marked := MarkFailed(id, SweepMessage);
      row := marked.value;
    }

    /** One UPDATE of the sweep: the rows of one table that match, and how many there were. */
    method SweepTable(table: Table, now: real, threshold: real) returns (count: nat)
      requires Valid()
      modifies this
      ensures Valid() && rows.Keys == old(rows).Keys
      ensures forall id :: id in rows ==>
        rows[id] == if id.table == table then SweptRow(old(rows)[id], now, threshold) else old(rows)[id]
      ensures count == |Matching(old(rows), table, now, threshold)|
    {
      ghost var before := rows;
      var matching := Matching(rows, table, now, threshold);
      var todo := matching;
      while todo != {}
        invariant Valid() && rows.Keys == before.Keys && todo <= matching
        invariant forall id :: id in rows ==>
          rows[id] == if id in matching && id !in todo then Failing(before[id], SweepMessage) else before[id]
        decreases |todo|
      {
        var id :| id in todo;
        var _ := MarkFailed(id, SweepMessage);
        todo := todo - {id};
      }
      count := |matching|;
    }

    /** `sweep_stuck_jobs`: both tables, one after the other. */
    method SweepStuckJobs(now: real, threshold: real)
      requires Valid()
      modifies this
      ensures Valid() && rows == Swept(old(rows), now, threshold)
    {
      ghost var before := rows;
      var _ := SweepTable(Reviews, now, threshold);
      ghost var halfway := rows;
      var _ := SweepTable(TrainingPlans, now, threshold);
      BothTables(before, halfway, rows, now, threshold);
    }

    // ---- The tasks ---------------------------------------------------------

    /**
      `process_review_task`, `process_training_plan_task` without the cancellations that land in their
      own writes: the row ends completed, or failed with the message of what stopped the job, and the
      runner learns which.
     */
    method ProcessTask(id: RowId, end: TaskEnd) returns (result: FnResult)
      requires Valid() && id in rows
      modifies this
      ensures Valid()
      ensures rows == old(rows)[id := Ended(old(rows)[id], end)] && result == Answer(end)
      ensures SameOwner(old(rows)[id], rows[id]) && rows[id].startedAt == old(rows)[id].startedAt
      ensures end.Completes? ==>
        rows[id].status == Completed && rows[id].message.None? && result == FnResult.Returned(true)
      ensures end.Raises? ==> rows[id].status == Status.Failed && result == FnResult.Returned(false)
      ensures end.Raises? && end.error.Known? ==> rows[id].message == Some(ErrorMessage(end.error.error))
      ensures end.Raises? && end.error.Other? ==> rows[id].message == Some(SweepMessage)
      ensures end.Cancelled? ==>
        && rows[id].status == Status.Failed && result == CancelledOut
        && rows[id].message == Some(if end.shuttingDown then SweepMessage else TimeoutMessage)
    {
      match end
      case Completes =>
        var _ := MarkCompleted(id);
        result := FnResult.Returned(true);
      case Cancelled(shuttingDown) =>
        var _ := MarkFailed(id, CancellationMessage(shuttingDown));
        result := CancelledOut;
      case Raises(error) =>
        var _ := MarkFailed(id, FriendlyMessage(error));
        result := FnResult.Returned(false);
    }
  }

  /** The rows of one table the sweep's WHERE clause matches. */
  function Matching(rows: Store, table: Table, now: real, threshold: real): set<RowId> {
    set id | id in rows && id.table == table && SweepMatches(rows[id], now, threshold)
  }

  lemma OnlySibling(rows: Store, id: RowId, parent: nat, k: RowId)
    requires OnePerParent(rows) && k in rows && k.table == id.table && rows[k].parent == parent
    ensures Siblings(rows, id, parent) == {k}
  {}
}
