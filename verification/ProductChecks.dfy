/** The two staleness checks over runs. */
module ProductChecks {
  import opened Wrappers
  import opened Scheduler
  import opened Rows
  import opened Product
  import opened ProductSteps
  import opened ProductClocks
  import opened ProductRuns

  // ---- Retry restarts the clock --------------------------------------------

  /** The row, as long as there is one, was started at t or later. */
  predicate StartedSince(w: World, id: RowId, t: real) {
    && t <= w.r.now
    && (id in w.rows ==> w.rows[id].startedAt.Some? && t <= w.rows[id].startedAt.value)
  }

  lemma LoopKeepsStart(p: Params, w: World, e: Event, id: RowId, t: real)
    requires Linked(p, w) && CanLoop(p, w, e) && StartedSince(w, id, t)
    ensures StartedSince(Looping(p, w, e), id, t)
  {
    CoupledKeeps(w, e, Apply(p.limits, w.r, e));
    if !e.Tick? { LoopInstant(p, w, e); }
  }

  lemma CancelKeepsStart(w: World, j: JobId, committed: bool, id: RowId, t: real)
    requires InFn(w, j) && (w.fn[j].FailureWrite? && committed ==> HasRow(w, j)) && StartedSince(w, id, t)
    ensures StartedSince(CancelReached(w, j, committed), id, t)
  {}

  lemma LeavingKeepsStart(p: Params, w: World, j: JobId, id: RowId, t: real)
    requires Linked(p, w) && CanLeave(p, w, j) && StartedSince(w, id, t)
    ensures StartedSince(FnLeft(w, j), id, t)
  {
    FnLeavesShape(p, w, j);
  }

  lemma RestKeepsStart(p: Params, w: World, a: Action, id: RowId, t: real)
    requires CanDo(p, w, a) && !RunnerAction(a) && StartedSince(w, id, t)
    ensures StartedSince(Do(p, w, a), id, t)
  {
    if a.SubmitRow? { SubmitRowRest(p, w, a.row, a.job); }
  }

  lemma ActionKeepsStart(p: Params, w: World, a: Action, id: RowId, t: real)
    requires Linked(p, w) && CanDo(p, w, a) && StartedSince(w, id, t)
    ensures StartedSince(Do(p, w, a), id, t)
  {
    if a.Loop? {
      LoopKeepsStart(p, w, a.e, id, t);
    } else if a.CancelReaches? {
      CancelKeepsStart(w, a.job, a.committed, id, t);
    } else if a.FnLeaves? {
      LeavingKeepsStart(p, w, a.job, id, t);
    } else {
      RestKeepsStart(p, w, a, id, t);
    }
  }

  lemma {:induction false} RunKeepsStart(p: Params, w: World, acts: seq<Action>, id: RowId, t: real)
    requires Roomy(p) && Good(p, w) && Possible(p, w, acts) && StartedSince(w, id, t)
    ensures StartedSince(After(p, w, acts), id, t)
    decreases |acts|
  {
    if acts != [] {
      ActionKeepsStart(p, w, acts[0], id, t);
      ActionKeeps(p, w, acts[0]);
      RunKeepsStart(p, Do(p, w, acts[0]), acts[1..], id, t);
    }
  }

  /**
    A retried row is safe from both checks for a whole threshold, however old it was and whatever
    happens next, the end of its process included.
   */
  lemma RetriedRowIsSpared(p: Params, rows: Store, w: World, id: RowId, acts: seq<Action>)
    requires Reachable(p, rows, w) && CanRetry(w, id) && Possible(p, Do(p, w, Retry(id)), acts)
    ensures var v := After(p, Do(p, w, Retry(id)), acts);
      id in v.rows && v.r.now <= w.r.now + p.threshold ==>
        !SweepMatches(v.rows[id], v.r.now, p.threshold) && StaleAge(v.rows[id], v.r.now, p.threshold).None?
  {
    var m := Do(p, w, Retry(id));
    ReachableGood(p, rows, w);
    ActionKeeps(p, w, Retry(id));
    RunKeepsStart(p, m, acts, id, w.r.now);
    var v := After(p, m, acts);
    if id in v.rows && v.r.now <= w.r.now + p.threshold { YoungIsSpared(v.rows[id], v.r.now, p.threshold); }
  }

  // ---- The checks together -------------------------------------------------

  /** Clients poll these rows, one after the other. */
  function Reads(ids: seq<RowId>): (acts: seq<Action>)
    ensures |acts| == |ids| && forall i :: 0 <= i < |ids| ==> acts[i] == ReadCheck(ids[i])
  {
    seq(|ids|, i requires 0 <= i < |ids| => ReadCheck(ids[i]))
  }

  /** The rows are there, and started at a known time. */
  predicate Started(rows: Store, ids: seq<RowId>) {
    forall i :: 0 <= i < |ids| ==> ids[i] in rows && rows[ids[i]].startedAt.Some?
  }

  /** What a sweep makes of the rows, whatever else is going on. */
  ghost function SweptRows(p: Params, w: World): Store { Swept(w.rows, w.r.now, p.threshold) }

  /** A read does to a row with a start time what a sweep would do, and nothing to the others. */
  lemma ReadThenSweep(p: Params, w: World, id: RowId)
    requires id in w.rows && w.rows[id].startedAt.Some?
    ensures var v := ReadChecked(p, w, id);
      && v.r.now == w.r.now && SweptRows(p, v) == SweptRows(p, w)
      && (w.rows == SweptRows(p, w) ==> v.rows == w.rows)
      && forall k :: k in w.rows ==> k in v.rows && v.rows[k].startedAt == w.rows[k].startedAt
  {
    ReadIs(p, w, id);
    CheckedThenSwept(w.rows, id, w.r.now, p.threshold);
  }

  lemma ReadIs(p: Params, w: World, id: RowId)
    requires id in w.rows
    ensures var v := ReadChecked(p, w, id);
      v.r == w.r && v.rows == w.rows[id := Checked(w.rows[id], w.r.now, p.threshold)]
  {}

  lemma CheckedThenSwept(rows: Store, id: RowId, now: real, threshold: real)
    requires id in rows && rows[id].startedAt.Some?
    ensures var read := rows[id := Checked(rows[id], now, threshold)];
      && Swept(read, now, threshold) == Swept(rows, now, threshold)
      && (rows == Swept(rows, now, threshold) ==> read == rows)
  {
    var row, read := rows[id], rows[id := Checked(rows[id], now, threshold)];
    ChecksAgree(row, now, threshold);
    assert SweptRow(Checked(row, now, threshold), now, threshold) == SweptRow(row, now, threshold);
    assert Swept(rows, now, threshold)[id] == SweptRow(row, now, threshold);
    assert Swept(read, now, threshold) == Swept(rows, now, threshold);
  }

  lemma FirstRead(p: Params, w: World, ids: seq<RowId>)
    requires ids != [] && ids[0] in w.rows && Possible(p, ReadChecked(p, w, ids[0]), Reads(ids[1..]))
    ensures Possible(p, w, Reads(ids))
    ensures After(p, w, Reads(ids)) == After(p, ReadChecked(p, w, ids[0]), Reads(ids[1..]))
  {
    assert Reads(ids)[0] == ReadCheck(ids[0]) && Reads(ids)[1..] == Reads(ids[1..]);
  }

  /**
    One check is enough: however many reads come before a sweep it leaves the same rows, and however
    many come after it they change none with a start time.
   */
  lemma {:induction false} ReadsAddNothing(p: Params, w: World, ids: seq<RowId>)
    requires Started(w.rows, ids)
    ensures Possible(p, w, Reads(ids)) && SweptRows(p, After(p, w, Reads(ids))) == SweptRows(p, w)
    ensures w.rows == SweptRows(p, w) ==> After(p, w, Reads(ids)).rows == w.rows
    decreases |ids|
  {
    if ids != [] {
      var v := ReadChecked(p, w, ids[0]);
      ReadThenSweep(p, w, ids[0]);
      assert Started(v.rows, ids[1..]);
      ReadsAddNothing(p, v, ids[1..]);
      FirstRead(p, w, ids);
    }
  }
}
