/**
  The job runner and the rows its jobs own, as one transition system: request handlers that
  insert or reset a row and submit a job, the task functions inside the jobs, the shielded
  failure writes, and the two staleness checks.

  Assumed: a handler's check-then-write is one step; row writes succeed; building a task's
  service does not raise. A cancellation may land anywhere, also inside the unshielded failure
  write of a task and after the completing write has committed.
 */
module Product {
  import opened Wrappers
  import opened Messages
  import opened Scheduler
  import opened Rows

  /** limits of the runner, and how long the code outside it may take. */
  datatype Params = Params(
    limits: Limits,
    gap: real,         // from the row's write to submit, within one request
    cleanup: real,     // one mark-failed write
    threshold: real)   // STUCK_JOB_THRESHOLD_SEC

  /** Where a task function that entered is. */
  datatype FnPhase =
    | Working                        // process_review: the row is untouched
    | Committed                      // mark_completed has committed, process_review not returned
    | FailureWrite(message: Message) // except Exception: the unshielded mark-failed write
    | Cancelling                     // except CancelledError: awaiting the shielded write
    | Leaving(result: FnResult)      // row settled; in `finally`

  /** A shielded mark-failed write in flight. late: the row was completed before. */
  datatype Write = Write(message: Message, since: real, late: bool)

  datatype Handler = Submitting | Rejecting(message: Message, since: real)

  datatype World = World(
    r: Runner,
    rows: Store,
    handlers: map<RowId, Handler>,   // requests between writing a row and returning
    rowOf: map<JobId, RowId>,        // the id each accepted job was submitted with
    fn: map<JobId, FnPhase>,
    writes: map<JobId, Write>,
    told: map<JobId, Message>,       // the failure message a job's own path chose
    lastJob: map<RowId, JobId>,      // the newest job submitted for a row
    stranded: set<RowId>)            // rows a kill or a lost write left processing

  datatype Action =
    | Enqueue(row: RowId, parent: nat)
    | Retry(row: RowId)
    | SubmitRow(row: RowId, job: JobId)
    | RejectionCommits(row: RowId)
    | Loop(e: Event)
    | WriteCommits(job: JobId)
    | FnCommits(job: JobId)
    | FnRaises(job: JobId, error: TaskError)
    | FailureCommits(job: JobId)
    | CancelReaches(job: JobId, committed: bool)
    | FnSettles(job: JobId)
    | FnLeaves(job: JobId)
    | Sweep
    | ReadCheck(row: RowId)
    | Exit                         // close() has returned: the process ends, and with it every write in flight
    | Kill

  /** Actions after which the next process starts on the rows that are left. */
  predicate EndsProcess(a: Action) { a.Exit? || a.Kill? }

  function Start(p: Params, rows: Store, now: real): World {
    World(Init(p.limits, now), rows, map[], map[], map[], map[], map[], map[],
          set id | id in rows && rows[id].status == Processing)
  }

  // ---- Requests ------------------------------------------------------------

  /** The rows of the same parent, if any; the services look this up before inserting. */
  function Siblings(rows: Store, id: RowId, parent: nat): set<RowId> {
    set k | k in rows && k.table == id.table && rows[k].parent == parent
  }

  /** `enqueue_review`, `enqueue_training_plan`: replace a failed row, or insert the first one. */
  function Enqueued(w: World, id: RowId, parent: nat): World {
    w.(rows := (w.rows - Siblings(w.rows, id, parent))[id := Pending(parent, w.r.now)],
       handlers := w.handlers[id := Submitting])
  }

  function Retried(w: World, id: RowId): World
    requires id in w.rows
  {
    w.(rows := w.rows[id := Resetting(w.rows[id], w.r.now)], handlers := w.handlers[id := Submitting])
  }

  /** `_submit_review_job`, `_submit_plan_job`, up to the failure write of a refused job. */
  function SubmittedRow(p: Params, w: World, id: RowId, j: JobId): World {
    var verdict := Judge(p.limits, w.r);
    w.(r := Submitted(p.limits, w.r, j),
       handlers := (match verdict
                    case Accepted => w.handlers - {id}
                    case Busy => w.handlers[id := Rejecting(BusyMessage, w.r.now)]
                    case Closed => w.handlers[id := Rejecting(EnqueueFailedMessage, w.r.now)]),
       rowOf := if verdict.Accepted? then w.rowOf[j := id] else w.rowOf,
       lastJob := if verdict.Accepted? then w.lastJob[id := j] else w.lastJob)
  }

  function RejectionCommitted(w: World, id: RowId): World
    requires id in w.rows && id in w.handlers && w.handlers[id].Rejecting?
  {
    w.(rows := w.rows[id := Failing(w.rows[id], w.handlers[id].message)], handlers := w.handlers - {id})
  }

  // ---- Runner steps and what they start ------------------------------------

  predicate EntersFn(t: Runner, j: JobId) { j in t.jobs && t.jobs[j].phase.Running? }

  predicate LeavesUnstarted(t: Runner, j: JobId) {
    j in t.jobs && t.jobs[j].phase.Marking? && |t.jobs[j].failures| > 0
  }

  /** The resumed job entered: its task function begins. Or it leaves unstarted: on_failure does, shielded. */
  function Begun(w: World, t: Runner, j: JobId): World {
    w.(fn := if EntersFn(t, j) then w.fn[j := Working] else w.fn,
       writes := if LeavesUnstarted(t, j) then w.writes[j := Write(t.jobs[j].failures[0], t.now, false)] else w.writes,
       told := if LeavesUnstarted(t, j) then w.told[j := t.jobs[j].failures[0]] else w.told)
  }

  /** A runner step, and what it starts. */
  function Coupled(w: World, t: Runner, e: Event): World {
    var v := w.(r := t);
    match Resumes(w.r, e)
    case None => v
    case Some(j) => Begun(v, t, j)
  }

  // ---- The task functions --------------------------------------------------

  function WithRow(w: World, j: JobId, row: Row): World
    requires j in w.rowOf
  {
    w.(rows := w.rows[w.rowOf[j] := row])
  }

  predicate InFn(w: World, j: JobId) {
    j in w.r.jobs && w.r.jobs[j].phase.Running? && j in w.fn && j in w.rowOf
  }

  predicate HasRow(w: World, j: JobId) { j in w.rowOf && w.rowOf[j] in w.rows }

  function WriteCommitted(w: World, j: JobId): World
    requires j in w.writes && HasRow(w, j)
  {
    WithRow(w, j, Failing(w.rows[w.rowOf[j]], w.writes[j].message)).(writes := w.writes - {j})
  }

  function FnCommitted(w: World, j: JobId): World
    requires InFn(w, j) && HasRow(w, j)
  {
    WithRow(w, j, Completing(w.rows[w.rowOf[j]])).(fn := w.fn[j := Committed])
  }

  function FnRaised(w: World, j: JobId, e: TaskError): World {
    w.(fn := w.fn[j := FailureWrite(FriendlyMessage(e))], told := w.told[j := FriendlyMessage(e)])
  }

  function FailureCommitted(w: World, j: JobId): World
    requires InFn(w, j) && HasRow(w, j) && w.fn[j].FailureWrite?
  {
    WithRow(w, j, Failing(w.rows[w.rowOf[j]], w.fn[j].message)).(fn := w.fn[j := Leaving(FnResult.Returned(false))])
  }

  /**
    A CancelledError is raised at the task's current await: inside process_review the handler starts
    the shielded write; inside the unshielded failure write it is lost unless it has committed.
   */
  function CancelReached(w: World, j: JobId, committed: bool): World
    requires InFn(w, j) && (w.fn[j].FailureWrite? && committed ==> HasRow(w, j))
  {
    var f, message := w.fn[j], CancellationMessage(w.r.closed);
    var caught := f.Working? || f.Committed?;
    w.(r := Delivered(w.r, j),
       fn := w.fn[j := if caught then Cancelling else Leaving(CancelledOut)],
       writes := if caught then w.writes[j := Write(message, w.r.now, f.Committed?)] else w.writes,
       told := if caught then w.told[j := message] else w.told,
       rows := if f.FailureWrite? && committed
               then w.rows[w.rowOf[j] := Failing(w.rows[w.rowOf[j]], f.message)] else w.rows,
       stranded := if f.FailureWrite? && !committed then w.stranded + {w.rowOf[j]} else w.stranded)
  }

  function FnSettled(w: World, j: JobId): World
    requires j in w.fn
  {
    w.(fn := w.fn[j := Leaving(if w.fn[j].Committed? then FnResult.Returned(true) else CancelledOut)])
  }

  // ---- Checks and crashes --------------------------------------------------

  ghost function SweptWorld(p: Params, w: World): World {
    w.(rows := Swept(w.rows, w.r.now, p.threshold),
       stranded := set id | id in w.stranded && (id in w.rows ==> !SweepMatches(w.rows[id], w.r.now, p.threshold)))
  }

  function ReadChecked(p: Params, w: World, id: RowId): World
    requires id in w.rows
  {
    if StaleAge(w.rows[id], w.r.now, p.threshold).Some?
    then w.(rows := w.rows[id := Failing(w.rows[id], SweepMessage)], stranded := w.stranded - {id})
    else w
  }

  // ---- The step relation ---------------------------------------------------

  predicate WriteAllows(p: Params, x: Write, t: real) { t <= x.since + p.cleanup }

  predicate HandlerAllows(p: Params, h: Handler, row: Row, t: real) {
    match h
    case Submitting => row.startedAt.Some? ==> t <= row.startedAt.value + p.gap
    case Rejecting(_, since) => t <= since + p.cleanup
  }

  /** Steps of the runner that involve no more of the world than `Coupled` says. */
  predicate RunnerOnly(w: World, e: Event) {
    match e
    case Submit(_) => false
    case Deliver(_) => false
    case FnEnds(_, _) => false
    case MarkEnds(j) => j in w.r.jobs && (w.r.jobs[j].phase == Marking(false) ==> j !in w.writes)
    case _ => true
  }

  predicate CanEnqueue(w: World, id: RowId, parent: nat) {
    && id !in w.rows && id !in w.lastJob && id !in w.handlers
    && forall k :: k in Siblings(w.rows, id, parent) ==> w.rows[k].status == Status.Failed
  }

  predicate CanRetry(w: World, id: RowId) { id in w.rows && w.rows[id].status == Status.Failed }

  predicate CanSubmit(p: Params, w: World, id: RowId, j: JobId) {
    id in w.handlers && w.handlers[id].Submitting? && Enabled(p.limits, w.r, Submit(j))
  }

  predicate CanReject(w: World, id: RowId) { id in w.handlers && w.handlers[id].Rejecting? && id in w.rows }

  predicate CanLoop(p: Params, w: World, e: Event) {
    && RunnerOnly(w, e) && Enabled(p.limits, w.r, e)
    && (e.Tick? ==> WorldAllows(p, w, e.to))
  }

  /** No write and no request is held past the time it may take. */
  predicate WorldAllows(p: Params, w: World, t: real) {
    && (forall j :: j in w.writes ==> WriteAllows(p, w.writes[j], t))
    && (forall id :: id in w.handlers && id in w.rows ==> HandlerAllows(p, w.handlers[id], w.rows[id], t))
  }

  predicate CanCancel(p: Params, w: World, j: JobId, committed: bool) {
    InFn(w, j) && Enabled(p.limits, w.r, Deliver(j)) && (w.fn[j].FailureWrite? && committed ==> HasRow(w, j))
  }

  predicate CanSettle(w: World, j: JobId) {
    InFn(w, j) && (w.fn[j].Committed? || (w.fn[j].Cancelling? && j !in w.writes))
  }

  predicate CanLeave(p: Params, w: World, j: JobId) {
    InFn(w, j) && w.fn[j].Leaving? && Enabled(p.limits, w.r, FnEnds(j, w.fn[j].result))
  }

  predicate CanDo(p: Params, w: World, a: Action) {
    match a
    case Enqueue(id, parent) => CanEnqueue(w, id, parent)
    case Retry(id) => CanRetry(w, id)
    case SubmitRow(id, j) => CanSubmit(p, w, id, j)
    case RejectionCommits(id) => CanReject(w, id)
    case Loop(e) => CanLoop(p, w, e)
    case WriteCommits(j) => j in w.writes && HasRow(w, j)
    case FnCommits(j) => InFn(w, j) && HasRow(w, j) && w.fn[j].Working?
    case FnRaises(j, _) => InFn(w, j) && w.fn[j].Working?
    case FailureCommits(j) => InFn(w, j) && HasRow(w, j) && w.fn[j].FailureWrite?
    case CancelReaches(j, committed) => CanCancel(p, w, j, committed)
    case FnSettles(j) => CanSettle(w, j)
    case FnLeaves(j) => CanLeave(p, w, j)
    case Sweep => true
    case ReadCheck(id) => id in w.rows
    case Exit => w.r.closer.Returned?
    case Kill => true
  }

  ghost function Do(p: Params, w: World, a: Action): World
    requires CanDo(p, w, a)
  {
    match a
    case Enqueue(id, parent) => Enqueued(w, id, parent)
    case Retry(id) => Retried(w, id)
    case SubmitRow(id, j) => SubmittedRow(p, w, id, j)
    case RejectionCommits(id) => RejectionCommitted(w, id)
    case Loop(e) => Looping(p, w, e)
    case WriteCommits(j) => WriteCommitted(w, j)
    case FnCommits(j) => FnCommitted(w, j)
    case FnRaises(j, e) => FnRaised(w, j, e)
    case FailureCommits(j) => FailureCommitted(w, j)
    case CancelReaches(j, committed) => CancelReached(w, j, committed)
    case FnSettles(j) => FnSettled(w, j)
    case FnLeaves(j) => FnLeft(w, j)
    case Sweep => SweptWorld(p, w)
    case ReadCheck(id) => ReadChecked(p, w, id)
    case Exit => Start(p, w.rows, w.r.now)
    case Kill => Start(p, w.rows, w.r.now)
  }

  /** A step of the runner. */
  ghost function Looping(p: Params, w: World, e: Event): World
    requires CanLoop(p, w, e)
  {
    Coupled(w, Apply(p.limits, w.r, e), e)
  }

  /** The task function returns to the runner. */
  function FnLeft(w: World, j: JobId): World
    requires InFn(w, j) && w.fn[j].Leaving?
  {
    w.(r := FnEnded(w.r, j, w.fn[j].result))
  }
}
