/** Which job may still write a row, and what ties rows to jobs in every state. */
module ProductInvariant {
  import opened Scheduler
  import opened Rows
  import opened Product

  /** fn's outcome on the row is still open. */
  predicate Undecided(f: FnPhase) { f.Working? || f.Committed? || f.FailureWrite? }

  /** The job, or a write it started, can still change its row. */
  predicate MayWrite(w: World, j: JobId) {
    || j in w.writes
    || (j in w.r.jobs && InLine(w.r.jobs[j].phase))
    || (j in w.r.jobs && w.r.jobs[j].phase.Running? && j in w.fn && Undecided(w.fn[j]))
  }

  /** It already completed the row: only a cancellation landing now would write it again. */
  predicate Late(w: World, j: JobId) {
    if j in w.writes then w.writes[j].late
    else j in w.r.jobs && w.r.jobs[j].phase.Running? && j in w.fn && w.fn[j].Committed?
  }

  /** The job still waits for the shielded write it started. */
  predicate Awaits(w: World, j: JobId) {
    j in w.r.jobs
    && (w.r.jobs[j].phase == Marking(false) || (w.r.jobs[j].phase.Running? && j in w.fn && w.fn[j].Cancelling?))
  }

  /** The write goes on without its job: the shield outlived the await. */
  predicate Detached(w: World, j: JobId) { j in w.writes && !Awaits(w, j) }

  /** A job that may write has its row, alone, and the row is in the status that goes with it. */
  ghost predicate WriterOk(w: World, j: JobId) {
    && HasRow(w, j)
    && var id := w.rowOf[j];
       && id in w.lastJob && w.lastJob[id] == j
       && id !in w.handlers && id !in w.stranded
       && w.rows[id].status == (if Late(w, j) then Completed else Processing)
  }

  ghost predicate LinkOk(w: World) {
    && (forall j :: MayWrite(w, j) ==> WriterOk(w, j))
    && (forall id :: id in w.handlers ==> id in w.rows && w.rows[id].status == Processing && id !in w.stranded)
    && (forall id :: id in w.stranded ==> id in w.rows && w.rows[id].status == Processing)
    && (forall id :: id in w.rows && w.rows[id].status == Processing && id !in w.stranded && id !in w.handlers
          ==> id in w.lastJob && MayWrite(w, w.lastJob[id]))
    && (forall id :: id in w.lastJob ==> w.lastJob[id] in w.rowOf && w.rowOf[w.lastJob[id]] == id)
  }

  /** The task function of a job inside fn, against the cancellations the runner sent. */
  predicate FnOk(job: Job, f: FnPhase) {
    && (Undecided(f) && (job.timedOut || job.interrupted) ==> job.cancelPending)
    && (f.Cancelling? || f == Leaving(CancelledOut) ==> job.timedOut || job.interrupted)
    && (f.Leaving? ==> !f.result.Raised?)
  }

  /** fn and the shielded write of one job, against its phase in the runner. */
  predicate PhaseAt(w: World, j: JobId) {
    && j in w.r.jobs
    && (w.r.jobs[j].phase.Running? ==> j in w.fn && FnOk(w.r.jobs[j], w.fn[j]))
    && (j in w.writes ==>
          && !InLine(w.r.jobs[j].phase) && !w.r.jobs[j].phase.Rejected?
          && (w.r.jobs[j].phase.Running? ==> w.fn[j].Cancelling? || w.fn[j] == Leaving(CancelledOut)))
  }

  ghost predicate PhaseOk(w: World) {
    && (forall j :: j in w.rowOf <==> j in w.r.jobs && !w.r.jobs[j].phase.Rejected?)
    && (forall j :: j in w.r.jobs ==> PhaseAt(w, j))
    && w.writes.Keys <= w.r.jobs.Keys
  }

  lemma MayWriteAlone(w: World, j: JobId, k: JobId)
    requires LinkOk(w) && MayWrite(w, j) && MayWrite(w, k) && w.rowOf[j] == w.rowOf[k]
    ensures j == k
  {
    assert WriterOk(w, j) && WriterOk(w, k);
  }

  // ---- Keeping the link: three shapes of change ----------------------------

  /** No row changes; a job may stop being able to write a row that is not processing. */
  lemma LinkShrinks(w: World, v: World)
    requires LinkOk(w)
    requires v.rows == w.rows && v.handlers == w.handlers && v.rowOf == w.rowOf
    requires v.lastJob == w.lastJob && v.stranded == w.stranded
    requires forall j :: MayWrite(v, j) ==> MayWrite(w, j) && Late(v, j) == Late(w, j)
    requires forall j :: MayWrite(w, j) && !MayWrite(v, j) ==> Late(w, j)
    ensures LinkOk(v)
  {
    forall j | MayWrite(v, j) ensures WriterOk(v, j) { assert WriterOk(w, j); }
    forall id | id in v.rows && v.rows[id].status == Processing && id !in v.stranded && id !in v.handlers
      ensures id in v.lastJob && MayWrite(v, v.lastJob[id])
    {
      assert WriterOk(w, w.lastJob[id]);
    }
  }

  /** The writer j of a row settles it: nobody else is affected. */
  lemma LinkSettles(w: World, v: World, j: JobId, row: Row)
    requires LinkOk(w) && MayWrite(w, j) && HasRow(w, j)
    requires v.rows == w.rows[w.rowOf[j] := row]
    requires v.handlers == w.handlers && v.rowOf == w.rowOf && v.lastJob == w.lastJob && v.stranded == w.stranded
    requires forall k :: k != j ==> MayWrite(v, k) == MayWrite(w, k) && Late(v, k) == Late(w, k)
    requires if MayWrite(v, j) then Late(v, j) && row.status == Completed else row.status != Processing
    ensures LinkOk(v)
  {
    assert WriterOk(w, j);
    forall k | MayWrite(v, k) ensures WriterOk(v, k) {
      assert WriterOk(w, k);
      if k != j && w.rowOf[k] == w.rowOf[j] { MayWriteAlone(w, j, k); }
    }
  }

  /** A row that no job may write changes hands between the rows' own readers and a handler. */
  lemma LinkHandled(w: World, v: World, id: RowId)
    requires LinkOk(w) && id in w.rows
    requires forall j :: MayWrite(w, j) && j in w.rowOf ==> w.rowOf[j] != id
    requires v.rows.Keys == w.rows.Keys && v.rowOf == w.rowOf && v.lastJob == w.lastJob
    requires forall k :: k in w.rows && k != id ==>
      v.rows[k] == w.rows[k] && (k in v.handlers <==> k in w.handlers) && (k in v.stranded <==> k in w.stranded)
    requires forall k :: k in v.handlers || k in v.stranded ==> k in v.rows
    requires if v.rows[id].status == Processing
             then (id in v.handlers) != (id in v.stranded)
             else id !in v.handlers && id !in v.stranded
    requires v.r == w.r && v.fn == w.fn && v.writes == w.writes
    ensures LinkOk(v)
  {
    forall j | MayWrite(v, j) ensures WriterOk(v, j) {
      assert MayWrite(w, j) && WriterOk(w, j);
    }
    forall k | k in v.rows && v.rows[k].status == Processing && k !in v.stranded && k !in v.handlers
      ensures k in v.lastJob && MayWrite(v, v.lastJob[k])
    {
      assert k != id;
      assert MayWrite(w, w.lastJob[k]);
    }
  }
}
