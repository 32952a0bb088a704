/**
  The background job runner as a timed transition system.

  Everything a coroutine does between two awaits is one step. The event loop is
  ideal: callbacks that are ready run before the clock moves, and the clock never
  passes an armed timer. `asyncio.Semaphore` is the FIFO one of CPython 3.12,
  which hands a released slot to the oldest waiter, takes it back when that waiter
  is cancelled before it resumes, and makes a newcomer queue behind any waiter.
 */
module Scheduler {
  import opened Wrappers
  import opened Messages

  type JobId = nat

  /** The arguments of `JobRunner.__init__`. */
  datatype Limits = Limits(maxConcurrent: nat, maxQueued: nat, maxWait: real, timeout: real, grace: real)

  const CANCEL_DRAIN_SEC := 5.0

  /** Where the coroutine `_run` of one job is suspended. */
  datatype Phase =
    | Created                  // task scheduled, no step taken yet
    | Waiting                  // in acquire(), future pending
    | Granted                  // in acquire(), future resolved: a slot is on its way
    | Unwinding(slot: bool)    // in acquire(), cancelled; slot: it had been granted one
    | Marking(aborted: bool)   // awaiting the shielded never-started write
    | Running                  // inside fn
    | Done
    | Rejected                 // refused as busy: no task was made

  /** One submitted job: its timers, its phase, and the history the claims speak of. */
  datatype Job = Job(
    submittedAt: real,
    giveUpAt: real,            // when the wait for a slot times out
    enteredAt: real,
    runUntil: real,            // when the run timeout fires
    phase: Phase,
    entered: bool,             // fn was called
    timedOut: bool,            // the run timeout fired
    interrupted: bool,         // close() cancelled it
    cancelPending: bool,       // a CancelledError is on its way into fn
    failures: seq<Message>,    // on_failure calls
    logged: seq<Outcome>)      // "job.finished" events

  /** Entries of the loop's ready list whose order matters. */
  datatype Callback = FirstStep(job: JobId) | CloseWakes

  /** Where `close()` is suspended. */
  datatype Closer =
    | Open
    | Yielding(since: real)
    | Draining(since: real, until: real, tasks: set<JobId>, victims: set<JobId>)
    | Finishing(since: real, until: real, pending: set<JobId>)
    | Returned(since: real, at: real)

  datatype Runner = Runner(
    now: real,
    free: nat,                 // Semaphore._value
    queue: seq<JobId>,         // pending futures of Semaphore._waiters, oldest first
    waiting: int,              // _waiting
    tasks: set<JobId>,         // _tasks
    running: set<JobId>,       // _running_tasks
    closed: bool,              // _closed
    ready: seq<Callback>,
    closer: Closer,
    jobs: map<JobId, Job>)

  /** How fn ended. */
  datatype FnResult = Returned(ok: bool) | Raised(timeoutError: bool) | CancelledOut

  datatype Event =
    | Submit(job: JobId)
    | RunReady
    | Resume(job: JobId)
    | WaitExpires(job: JobId)
    | MarkEnds(job: JobId)
    | DeadlineFires(job: JobId)
    | Deliver(job: JobId)
    | FnEnds(job: JobId, result: FnResult)
    | Discard(job: JobId)
    | Close
    | GraceEnds
    | DrainEnds
    | Tick(to: real)

  function Max(a: real, b: real): real { if a < b then b else a }

  function Init(l: Limits, now: real): Runner {
    Runner(now, l.maxConcurrent, [], 0, {}, {}, false, [], Open, map[])
  }

  // ---- Kinds of phase ------------------------------------------------------

  /** Phase 1 of `_run`: counted in `_waiting`. */
  predicate InLine(p: Phase) { p.Created? || p.Waiting? || p.Granted? || p.Unwinding? }

  /** A slot is held by, or on its way to, the job. */
  predicate Holds(p: Phase) { p.Granted? || (p.Unwinding? && p.slot) || p.Running? }

  predicate Live(p: Phase) { !p.Done? && !p.Rejected? }

  function InLineJobs(jobs: map<JobId, Job>): set<JobId> { set j | j in jobs && InLine(jobs[j].phase) }
  function Holders(jobs: map<JobId, Job>): set<JobId> { set j | j in jobs && Holds(jobs[j].phase) }

  // ---- The semaphore -------------------------------------------------------

  /** `Semaphore.locked()`: no value left, or a waiter that has not been cancelled. */
  predicate Locked(s: Runner) {
    s.free == 0 || s.queue != [] || exists j :: j in s.jobs && OwedSlot(s.jobs[j].phase)
  }

  /** A waiter whose future is resolved but which has not resumed. */
  predicate OwedSlot(p: Phase) { p.Granted? || (p.Unwinding? && p.slot) }

  function WithPhase(jobs: map<JobId, Job>, j: JobId, p: Phase): map<JobId, Job> {
    if j in jobs then jobs[j := jobs[j].(phase := p)] else jobs
  }

  /** `_wake_up_next()`: hand one slot to the oldest pending waiter. */
  function WakeNext(s: Runner): Runner {
    if s.free == 0 || s.queue == [] then s
    else s.(free := s.free - 1, queue := s.queue[1..], jobs := WithPhase(s.jobs, s.queue[0], Granted))
  }

  /** The `finally` loop of `acquire()`: wake while there is value and a waiter. */
  function WakeAll(s: Runner): (w: Runner)
    ensures w.jobs.Keys == s.jobs.Keys
    decreases |s.queue|
  {
    if s.free == 0 || s.queue == [] then s else WakeAll(WakeNext(s))
  }

  /** `Semaphore.release()`. */
  function Release(s: Runner): Runner { WakeNext(s.(free := s.free + 1)) }

  function Without(q: seq<JobId>, j: JobId): seq<JobId> {
    if q == [] then [] else if q[0] == j then Without(q[1..], j) else [q[0]] + Without(q[1..], j)
  }

  // ---- submit --------------------------------------------------------------

  datatype Verdict = Accepted | Busy | Closed

  function Judge(l: Limits, s: Runner): Verdict {
    if s.closed then Closed else if s.waiting >= l.maxQueued then Busy else Accepted
  }

  function NewJob(now: real): Job {
    Job(now, now, now, now, Created, false, false, false, false, [], [])
  }

  function Submitted(l: Limits, s: Runner, j: JobId): Runner {
    match Judge(l, s)
    case Closed => s
    case Busy => s.(jobs := s.jobs[j := NewJob(s.now).(phase := Rejected, logged := [RejectedBusy])])
    case Accepted =>
      s.(waiting := s.waiting + 1,
         tasks := s.tasks + {j},
         ready := s.ready + [FirstStep(j)],
         jobs := s.jobs[j := NewJob(s.now)])
  }

  // ---- phase 1 -------------------------------------------------------------

  /** The slot is acquired: phase 2 begins and fn is called. */
  function Entered(l: Limits, s: Runner, j: JobId): Runner
    requires j in s.jobs
  {
    var job := s.jobs[j];
    s.(waiting := s.waiting - 1,
       running := s.running + {j},
       jobs := s.jobs[j := job.(phase := Running, entered := true, enteredAt := s.now,
                                runUntil := Max(s.now, job.submittedAt + l.timeout))])
  }

  /** First step of the coroutine: arm the wait timeout, then acquire() or queue. */
  function Started(l: Limits, s: Runner, j: JobId): Runner
    requires j in s.jobs
  {
    var armed := s.(jobs := s.jobs[j := s.jobs[j].(giveUpAt := s.now + l.maxWait)]);
    if Locked(s) then armed.(queue := s.queue + [j], jobs := WithPhase(armed.jobs, j, Waiting))
    else Entered(l, armed.(free := s.free - 1), j)
  }

  /** A granted waiter leaves acquire() and enters fn. */
  function ResumedGranted(l: Limits, s: Runner, j: JobId): Runner
    requires j in s.jobs
  {
    Entered(l, WakeAll(s), j)
  }

  /** A cancelled waiter leaves acquire(), giving back a granted slot, and calls on_failure. */
  function ResumedUnwinding(s: Runner, j: JobId): Runner
    requires j in s.jobs && s.jobs[j].phase.Unwinding?
  {
    var woken := WakeAll(GaveBack(s, j));
    woken.(waiting := s.waiting - 1, jobs := woken.jobs[j := Unwound(s.jobs[j])])
  }

  /** It has put its granted slot back and not yet woken anyone. */
  function GaveBack(s: Runner, j: JobId): Runner
    requires j in s.jobs && s.jobs[j].phase.Unwinding?
  {
    s.(free := s.free + if s.jobs[j].phase.slot then 1 else 0,
       jobs := s.jobs[j := s.jobs[j].(phase := Unwinding(false))])
  }

  /** Its failure is being recorded. */
  function Unwound(job: Job): Job {
    job.(phase := Marking(false), failures := job.failures + [if job.interrupted then SweepMessage else BusyMessage])
  }

  /** The wait timeout fires: the pending future, or the resumption, is cancelled. */
  function WaitExpired(s: Runner, j: JobId): Runner
    requires j in s.jobs
  {
    s.(queue := Without(s.queue, j), jobs := WithPhase(s.jobs, j, Unwinding(s.jobs[j].phase.Granted?)))
  }

  /** The never-started write is over, or its await was cancelled: the task ends. */
  function MarkEnded(s: Runner, j: JobId): Runner
    requires j in s.jobs && s.jobs[j].phase.Marking?
  {
    var job := s.jobs[j];
    var outcome := if job.failures == [SweepMessage] then CancelledWaiting else WaitTimeout;
    var logged := if job.phase.aborted then job.logged else job.logged + [outcome];
    s.(jobs := s.jobs[j := job.(phase := Done, logged := logged)])
  }

  // ---- phase 2 -------------------------------------------------------------

  function DeadlineFired(s: Runner, j: JobId): Runner
    requires j in s.jobs
  {
    s.(jobs := s.jobs[j := s.jobs[j].(timedOut := true, cancelPending := true)])
  }

  function Delivered(s: Runner, j: JobId): Runner
    requires j in s.jobs
  {
    s.(jobs := s.jobs[j := s.jobs[j].(cancelPending := false)])
  }

  /** What `_run` logs. `asyncio.timeout` turns only its own, sole cancellation into TimeoutError. */
  function RunOutcome(job: Job, r: FnResult): Outcome {
    match r
    case Returned(ok) => if ok then Succeeded else Failed
    case Raised(timeoutError) => if timeoutError then RunTimeout else Failed
    case CancelledOut => if job.interrupted then CancelledRunning else RunTimeout
  }

  function FnEnded(s: Runner, j: JobId, r: FnResult): Runner
    requires j in s.jobs
  {
    var job := s.jobs[j];
    Release(s.(running := s.running - {j},
               jobs := s.jobs[j := job.(phase := Done, logged := job.logged + [RunOutcome(job, r)])]))
  }

  function Discarded(s: Runner, j: JobId): Runner { s.(tasks := s.tasks - {j}) }

  // ---- close ---------------------------------------------------------------

  function CloseBegun(s: Runner): Runner {
    if s.tasks == {} then s.(closed := true, closer := Closer.Returned(s.now, s.now))
    else s.(closed := true, closer := Yielding(s.now), ready := s.ready + [CloseWakes])
  }

  /** `task.cancel()` on a job that is not in `_running_tasks`. */
  function CancelInLine(job: Job): Job {
    match job.phase
    case Created => job.(phase := Done, interrupted := true)   // would record nothing
    case Waiting => job.(phase := Unwinding(false), interrupted := true)
    case Granted => job.(phase := Unwinding(true), interrupted := true)
    case Unwinding(_) => job.(interrupted := true)
    case Marking(_) => job.(phase := Marking(true), interrupted := true)
    case _ => job
  }

  /** `task.cancel()` on a job inside fn. */
  function CancelRunning(job: Job): Job {
    if job.phase.Running? then job.(interrupted := true, cancelPending := true) else job
  }

  ghost function PassJobs(s: Runner): (jobs: map<JobId, Job>)
    ensures jobs.Keys == s.jobs.Keys
    ensures forall j :: j in s.jobs ==>
      jobs[j] == if j in s.tasks && j !in s.running then CancelInLine(s.jobs[j]) else s.jobs[j]
  {
    Updated(s.jobs, s.tasks - s.running, CancelInLine)
  }

  /** `running = [t for t in tasks if t in self._running_tasks]`. */
  function Victims(s: Runner): set<JobId> { s.tasks * s.running }

  /** The cancel pass of `close()`, then either wait for the running jobs or go on. */
  ghost function CancelPass(l: Limits, s: Runner): Runner
    requires s.closer.Yielding?
  {
    var passed := s.(queue := [], jobs := PassJobs(s));
    var victims := Victims(s);
    if victims != {} then
      passed.(closer := Draining(s.closer.since, s.now + l.grace, s.tasks, victims))
    else FinalWait(passed, s.closer.since, s.tasks)
  }

  /** `pending = [t for t in tasks if not t.done()]`. */
  function Unfinished(s: Runner, tasks: set<JobId>): set<JobId> {
    set j | j in tasks && j in s.jobs && Live(s.jobs[j].phase)
  }

  /** The unfinished tasks are waited for, if there are any. */
  function FinalWait(s: Runner, since: real, tasks: set<JobId>): Runner {
    var pending := Unfinished(s, tasks);
    if pending == {} then s.(closer := Closer.Returned(since, s.now))
    else s.(closer := Finishing(since, s.now + CANCEL_DRAIN_SEC, pending))
  }

  ghost function GraceJobs(s: Runner, victims: set<JobId>): (jobs: map<JobId, Job>)
    ensures jobs.Keys == s.jobs.Keys
    ensures forall j :: j in s.jobs ==> jobs[j] == if j in victims then CancelRunning(s.jobs[j]) else s.jobs[j]
  {
    Updated(s.jobs, victims, CancelRunning)
  }

  /** Grace is over: cancel the running jobs that are left, then the last wait. */
  ghost function GraceEnded(s: Runner): Runner
    requires s.closer.Draining?
  {
    FinalWait(s.(jobs := GraceJobs(s, s.closer.victims)), s.closer.since, s.closer.tasks)
  }

  function DrainEnded(s: Runner): Runner
    requires s.closer.Finishing?
  {
    s.(closer := Closer.Returned(s.closer.since, s.now))
  }

  // ---- The step relation ---------------------------------------------------

  /** asyncio.wait() returns when every task is done or its timeout is up. */
  predicate WaitOver(s: Runner, awaited: set<JobId>, until: real) {
    s.now >= until || forall j :: j in awaited && j in s.jobs ==> !Live(s.jobs[j].phase)
  }

  /** No callback is pending that would run before the clock moves. */
  predicate Idle(s: Runner) {
    s.ready == [] && forall j :: j in s.jobs ==> !Urgent(s.jobs[j])
  }

  predicate Urgent(job: Job) {
    job.phase.Granted? || job.phase.Unwinding? || job.phase == Marking(true) || job.cancelPending
  }

  /** The clock may move to t without passing an armed timer of the job. */
  predicate TimerAllows(job: Job, t: real) {
    && (job.phase.Waiting? ==> t <= job.giveUpAt)
    && (job.phase.Running? && !job.timedOut ==> t <= job.runUntil)
  }

  predicate CloserAllows(c: Closer, t: real) {
    (c.Draining? || c.Finishing?) ==> t <= c.until
  }

  predicate Enabled(l: Limits, s: Runner, e: Event) {
    match e
    case Submit(j) => j !in s.jobs
    case RunReady =>
      s.ready != [] && (s.ready[0].FirstStep? ==> s.ready[0].job in s.jobs)
      && (s.ready[0].CloseWakes? ==> s.closer.Yielding?)
    case Resume(j) => j in s.jobs && (s.jobs[j].phase.Granted? || s.jobs[j].phase.Unwinding?)
    case WaitExpires(j) =>
      j in s.jobs && (s.jobs[j].phase.Waiting? || s.jobs[j].phase.Granted?) && s.now >= s.jobs[j].giveUpAt
    case MarkEnds(j) => j in s.jobs && s.jobs[j].phase.Marking?
    case DeadlineFires(j) =>
      j in s.jobs && s.jobs[j].phase.Running? && !s.jobs[j].timedOut && s.now >= s.jobs[j].runUntil
    case Deliver(j) => j in s.jobs && s.jobs[j].phase.Running? && s.jobs[j].cancelPending
    case FnEnds(j, r) =>
      j in s.jobs && s.jobs[j].phase.Running? && !s.jobs[j].cancelPending
      && (r.CancelledOut? ==> s.jobs[j].timedOut || s.jobs[j].interrupted)
    case Discard(j) => j in s.tasks && j in s.jobs && s.jobs[j].phase.Done?
    case Close => s.closer.Open?
    case GraceEnds => s.closer.Draining? && WaitOver(s, s.closer.victims, s.closer.until)
    case DrainEnds => s.closer.Finishing? && WaitOver(s, s.closer.pending, s.closer.until)
    case Tick(t) =>
      s.now < t && Idle(s) && CloserAllows(s.closer, t)
      && forall j :: j in s.jobs ==> TimerAllows(s.jobs[j], t)
  }

  ghost function RanReady(l: Limits, s: Runner): Runner
    requires Enabled(l, s, RunReady)
  {
    var rest := s.(ready := s.ready[1..]);
    match s.ready[0]
    case FirstStep(j) => Started(l, rest, j)
    case CloseWakes => CancelPass(l, rest)
  }

  function Resumed(l: Limits, s: Runner, j: JobId): Runner
    requires Enabled(l, s, Resume(j))
  {
    if s.jobs[j].phase.Granted? then ResumedGranted(l, s, j) else ResumedUnwinding(s, j)
  }

  ghost function Apply(l: Limits, s: Runner, e: Event): Runner
    requires Enabled(l, s, e)
  {
    match e
    case Submit(j) => Submitted(l, s, j)
    case RunReady => RanReady(l, s)
    case Resume(j) => Resumed(l, s, j)
    case WaitExpires(j) => WaitExpired(s, j)
    case MarkEnds(j) => MarkEnded(s, j)
    case DeadlineFires(j) => DeadlineFired(s, j)
    case Deliver(j) => Delivered(s, j)
    case FnEnds(j, r) => FnEnded(s, j, r)
    case Discard(j) => Discarded(s, j)
    case Close => CloseBegun(s)
    case GraceEnds => GraceEnded(s)
    case DrainEnds => DrainEnded(s)
    case Tick(t) => s.(now := t)
  }

  /** The job whose coroutine the event resumes in phase 1, if any. */
  function Resumes(s: Runner, e: Event): Option<JobId> {
    match e
    case RunReady => if s.ready != [] && s.ready[0].FirstStep? then Some(s.ready[0].job) else None
    case Resume(j) => Some(j)
    case _ => None
  }
}
