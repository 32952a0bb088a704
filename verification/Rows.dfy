/**
  Review and training-plan rows, the writes the repositories make, and the staleness checks.
  Both tables behave alike, so one model serves both; a row id says which table it is in.
 */
module Rows {
  import opened Wrappers
  import opened Messages

  datatype Table = Reviews | TrainingPlans

  datatype RowId = RowId(table: Table, uuid: nat)

  datatype Status = Processing | Completed | Failed

  /** parent: the session of a review, the review of a plan; unique within its table. */
  datatype Row = Row(
    parent: nat,
    status: Status,
    message: Option<Message>,
    startedAt: Option<real>,     // processing_started_at
    createdAt: Option<real>)

  type Store = map<RowId, Row>

  // ---- Repository writes ---------------------------------------------------

  function Pending(parent: nat, now: real): Row { Row(parent, Processing, None, Some(now), Some(now)) }

  function Completing(row: Row): Row { row.(status := Completed, message := None) }

  function Failing(row: Row, m: Message): Row { row.(status := Status.Failed, message := Some(m)) }

  function Resetting(row: Row, now: real): Row {
    row.(status := Processing, message := None, startedAt := Some(now))
  }

  // ---- Staleness -----------------------------------------------------------

  /** `_stale_processing_age_sec`: the age of a processing row past the threshold. */
  function StaleAge(row: Row, now: real, threshold: real): Option<real> {
    if row.status != Processing then None
    else
      var started := if row.startedAt.Some? then row.startedAt else row.createdAt;
      if started.None? then None
      else if now - started.value > threshold then Some(now - started.value)
      else None
  }

  /** The WHERE clause of the startup sweep; a NULL start time matches nothing. */
  predicate SweepMatches(row: Row, now: real, threshold: real) {
    row.status == Processing && row.startedAt.Some? && row.startedAt.value < now - threshold
  }

  function SweptRow(row: Row, now: real, threshold: real): Row {
    if SweepMatches(row, now, threshold) then Failing(row, SweepMessage) else row
  }

  /** One pass of the sweep over both tables. */
  ghost function Swept(rows: Store, now: real, threshold: real): (swept: Store)
    ensures swept.Keys == rows.Keys
    ensures forall id :: id in rows ==> swept[id] == SweptRow(rows[id], now, threshold)
  {
    Updated(rows, rows.Keys, row => SweptRow(row, now, threshold))
  }

  /** `_fail_if_stale`. */
  function Checked(row: Row, now: real, threshold: real): Row {
    if StaleAge(row, now, threshold).Some? then Failing(row, SweepMessage) else row
  }

  /** The two fields that no write changes. */
  predicate SameOwner(a: Row, b: Row) { b.parent == a.parent && b.createdAt == a.createdAt }

  /**
    A read finds a row stale exactly when it is processing and its start, or its creation where it has no
    start, is more than the threshold ago; the age is the time since then.
   */
  lemma StaleIff(row: Row, now: real, threshold: real, age: real)
    ensures StaleAge(row, now, threshold) == Some(age) <==>
      && row.status == Processing && age > threshold
      && (row.startedAt == Some(now - age) || (row.startedAt.None? && row.createdAt == Some(now - age)))
  {}

  /** The two checks agree on rows with a start time; only the read path looks at the others. */
  lemma ChecksAgree(row: Row, now: real, threshold: real)
    ensures SweepMatches(row, now, threshold) <==>
            StaleAge(row, now, threshold).Some? && row.startedAt.Some?
    ensures StaleAge(row, now, threshold).Some? && row.startedAt.None? ==>
            row.createdAt.Some? && row.createdAt.value < now - threshold
    ensures SweepMatches(row, now, threshold) ==>
            Checked(row, now, threshold) == Failing(row, SweepMessage)
    ensures SweptRow(row, now, threshold) == if row.startedAt.Some? then Checked(row, now, threshold) else row
    ensures Checked(row, now, threshold) != row <==>
            row.status == Processing && StaleAge(row, now, threshold).Some?
  {}

  /** No check matches a row that was started less than a threshold ago. */
  lemma YoungIsSpared(row: Row, now: real, threshold: real)
    requires row.startedAt.Some? && now <= row.startedAt.value + threshold
    ensures !SweepMatches(row, now, threshold) && StaleAge(row, now, threshold).None?
    ensures Checked(row, now, threshold) == row
  {}

  /** A processing row is failed by the first check after the threshold, whichever check it is. */
  lemma FirstCheckFails(row: Row, now: real, threshold: real)
    requires row.status == Processing && row.startedAt.Some? && now > row.startedAt.value + threshold
    ensures SweepMatches(row, now, threshold)
    ensures Checked(row, now, threshold).status == Status.Failed
    ensures Checked(row, now, threshold).message == Some(SweepMessage)
  {}

  /** UNIQUE(session_id) on reviews, UNIQUE(review_id) on training plans. */
  ghost predicate OnePerParent(rows: Store) {
    forall a, b :: a in rows && b in rows && a.table == b.table && rows[a].parent == rows[b].parent ==> a == b
  }
}
