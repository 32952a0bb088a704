/**
  `upload_batch` and its single-file wrapper: validate every file, store them concurrently under a
  semaphore, then partition the results in order and insert the rows of the stored ones. Validation,
  each storage PUT, each best-effort delete and the bulk insert are oracles; what a PUT does not
  depend on the schedule.
 */
module BatchUpload {
  import opened Wrappers

  /** One validated file. Keys end in a fresh UUID, so no two files share one. */
  datatype File = File(name: string, key: string)

  /** What `_store_object` comes to; a failed PUT may leave a half-written object. */
  datatype StoreResult = Stored | StorageFailed(halfWritten: bool) | Unexpected(error: string)

  datatype MediaRow = MediaRow(name: string, key: string)

  datatype Batch = Batch(succeeded: seq<MediaRow>, failed: seq<string>)

  datatype UploadError =
    | SessionNotFound
    | Forbidden
    | Invalid(index: nat, reason: string)  // phase 0 rejected a file
    | BadConcurrency                       // asyncio.Semaphore refuses a negative value
    | NeverReturns                         // a semaphore of 0: no store ever starts
    | StoreBroke(error: string)
    | StorageUploadFailed
    | InsertFailed

  // ---- The pure partition --------------------------------------------------

  function Prepared(files: seq<File>, results: seq<StoreResult>): (rows: seq<MediaRow>)
    requires |files| == |results|
    ensures |rows| <= |files|
  {
    if files == [] then []
    else
      var n := |files| - 1;
      Prepared(files[..n], results[..n]) + if results[n].Stored? then [MediaRow(files[n].name, files[n].key)] else []
  }

  function Failures(files: seq<File>, results: seq<StoreResult>): (names: seq<string>)
    requires |files| == |results|
    ensures |names| <= |files|
  {
    if files == [] then []
    else
      var n := |files| - 1;
      Failures(files[..n], results[..n]) + if results[n].StorageFailed? then [files[n].name] else []
  }

  /** The first unexpected error, in upload order. */
  function FirstUnexpected(results: seq<StoreResult>): (at: nat)
    ensures at <= |results|
    ensures at < |results| ==> results[at].Unexpected?
    ensures forall i :: 0 <= i < at ==> !results[i].Unexpected?
  {
    if results == [] || results[0].Unexpected? then 0 else 1 + FirstUnexpected(results[1..])
  }

  /** Without an unexpected error every file is in exactly one of the two lists. */
  lemma {:induction false} NothingLost(files: seq<File>, results: seq<StoreResult>)
    requires |files| == |results| && forall i :: 0 <= i < |results| ==> !results[i].Unexpected?
    ensures |Prepared(files, results)| + |Failures(files, results)| == |files|
    ensures Prepared(files, results) == [] <==> forall i :: 0 <= i < |files| ==> results[i].StorageFailed?
  {
    if files != [] { NothingLost(files[..|files| - 1], results[..|files| - 1]); }
  }

  /** The rows are those of the stored files. */
  lemma {:induction false} RowsAreTheStoredFiles(files: seq<File>, results: seq<StoreResult>, row: MediaRow)
    requires |files| == |results|
    ensures row in Prepared(files, results) <==>
            exists i :: 0 <= i < |files| && results[i].Stored? && row == MediaRow(files[i].name, files[i].key)
  {
    if files != [] { RowsAreTheStoredFiles(files[..|files| - 1], results[..|files| - 1], row); }
  }

  predicate Chosen(r: StoreResult, stored: bool) { if stored then r.Stored? else r.StorageFailed? }

  /** The picks are the indices of the stored files, or of the failed ones, in upload order. */
  ghost predicate Picks(results: seq<StoreResult>, stored: bool, picks: seq<nat>) {
    && (forall a, b :: 0 <= a < b < |picks| ==> picks[a] < picks[b])
    && forall i: nat :: i in picks <==> i < |results| && Chosen(results[i], stored)
  }

  /** Row k is that of the k-th pick. */
  ghost predicate RowsAt(files: seq<File>, picks: seq<nat>, rows: seq<MediaRow>) {
    |picks| == |rows| && forall k :: 0 <= k < |picks| ==>
      picks[k] < |files| && rows[k] == MediaRow(files[picks[k]].name, files[picks[k]].key)
  }

  /** Name k is that of the k-th pick. */
  ghost predicate NamesAt(files: seq<File>, picks: seq<nat>, names: seq<string>) {
    |picks| == |names| && forall k :: 0 <= k < |picks| ==> picks[k] < |files| && names[k] == files[picks[k]].name
  }

  function Indices(results: seq<StoreResult>, stored: bool): (picks: seq<nat>)
    ensures forall k :: 0 <= k < |picks| ==> picks[k] < |results|
    ensures forall a, b :: 0 <= a < b < |picks| ==> picks[a] < picks[b]
  {
    if results == [] then []
    else
      var n := |results| - 1;
      Indices(results[..n], stored) + if Chosen(results[n], stored) then [n] else []
  }

  lemma {:induction false} IndicesAreChosen(results: seq<StoreResult>, stored: bool, i: nat)
    ensures i in Indices(results, stored) <==> i < |results| && Chosen(results[i], stored)
  {
    if results != [] { IndicesAreChosen(results[..|results| - 1], stored, i); }
  }

  lemma IndicesArePicks(results: seq<StoreResult>, stored: bool)
    ensures Picks(results, stored, Indices(results, stored))
  {
    forall i: nat ensures i in Indices(results, stored) <==> i < |results| && Chosen(results[i], stored) {
      IndicesAreChosen(results, stored, i);
    }
  }

  lemma {:induction false} RowOfIndex(files: seq<File>, results: seq<StoreResult>, k: nat)
    requires |files| == |results|
    ensures |Prepared(files, results)| == |Indices(results, true)|
    ensures k < |Prepared(files, results)| ==>
      var i := Indices(results, true)[k]; Prepared(files, results)[k] == MediaRow(files[i].name, files[i].key)
  {
    if files != [] { RowOfIndex(files[..|files| - 1], results[..|files| - 1], k); }
  }

  lemma {:induction false} NameOfIndex(files: seq<File>, results: seq<StoreResult>, k: nat)
    requires |files| == |results|
    ensures |Failures(files, results)| == |Indices(results, false)|
    ensures k < |Failures(files, results)| ==>
      Failures(files, results)[k] == files[Indices(results, false)[k]].name
  {
    if files != [] { NameOfIndex(files[..|files| - 1], results[..|files| - 1], k); }
  }

  /** The rows are those of the stored files, one each, in upload order. */
  lemma RowsKeepOrder(files: seq<File>, results: seq<StoreResult>)
    requires |files| == |results|
    ensures exists picks :: Picks(results, true, picks) && RowsAt(files, picks, Prepared(files, results))
  {
    var picks := Indices(results, true);
    IndicesArePicks(results, true);
    assert RowsAt(files, picks, Prepared(files, results)) by {
      RowOfIndex(files, results, 0);
      forall k: nat | k < |picks|
        ensures Prepared(files, results)[k] == MediaRow(files[picks[k]].name, files[picks[k]].key)
      {
        RowOfIndex(files, results, k);
      }
    }
  }

  /** The failures are the names of the files that failed to store, one each, in upload order. */
  lemma FailuresKeepOrder(files: seq<File>, results: seq<StoreResult>)
    requires |files| == |results|
    ensures exists picks :: Picks(results, false, picks) && NamesAt(files, picks, Failures(files, results))
  {
    var picks := Indices(results, false);
    IndicesArePicks(results, false);
    assert NamesAt(files, picks, Failures(files, results)) by {
      NameOfIndex(files, results, 0);
      forall k: nat | k < |picks| ensures Failures(files, results)[k] == files[picks[k]].name {
        NameOfIndex(files, results, k);
      }
    }
  }

  // ---- Every schedule of the stores ----------------------------------------

  /** The gather in progress: which stores hold a slot, which are over, their results, the objects written. */
  datatype Gather = Gather(
    slots: nat, inFlight: set<nat>, done: set<nat>, results: map<nat, StoreResult>, written: set<string>)

  datatype Move = Start(index: nat) | Finish(index: nat)

  function Begin(slots: nat): Gather { Gather(slots, {}, {}, map[], {}) }

  predicate LeavesObject(r: StoreResult) { r.Stored? || (r.StorageFailed? && r.halfWritten) }

  predicate CanMove(n: nat, g: Gather, m: Move) {
    match m
    case Start(i) => i < n && i !in g.inFlight && i !in g.done && g.slots > 0
    case Finish(i) => i < n && i in g.inFlight
  }

  function Moved(files: seq<File>, outcomes: seq<StoreResult>, g: Gather, m: Move): Gather
    requires |files| == |outcomes| && CanMove(|files|, g, m)
  {
    match m
    case Start(i) => g.(slots := g.slots - 1, inFlight := g.inFlight + {i})
    case Finish(i) =>
      Gather(g.slots + 1, g.inFlight - {i}, g.done + {i}, g.results[i := outcomes[i]],
             g.written + Leaves(files[i], outcomes[i]))
  }

  /** The object one finished store leaves. */
  function Leaves(file: File, result: StoreResult): set<string> {
    if LeavesObject(result) then {file.key} else {}
  }

  /** Each move is counted once: a start in flight, a finish in done. */
  lemma Counts(n: nat, g: Gather, m: Move)
    requires CanMove(n, g, m) && g.inFlight !! g.done
    ensures m.Start? ==> |g.inFlight + {m.index}| == |g.inFlight| + 1
    ensures m.Finish? ==> |g.inFlight - {m.index}| == |g.inFlight| - 1 && |g.done + {m.index}| == |g.done| + 1
  {}

  ghost predicate SlotsOk(concurrency: nat, files: seq<File>, outcomes: seq<StoreResult>, g: Gather)
    requires |files| == |outcomes|
  {
    && g.slots + |g.inFlight| == concurrency
    && g.inFlight !! g.done
    && (forall i :: i in g.inFlight || i in g.done ==> i < |files|)
    && g.results.Keys == g.done && (forall i :: i in g.done ==> i < |files| && g.results[i] == outcomes[i])
  }

  ghost predicate GatherOk(concurrency: nat, files: seq<File>, outcomes: seq<StoreResult>, g: Gather)
    requires |files| == |outcomes|
  {
    && SlotsOk(concurrency, files, outcomes, g)
    && (forall key :: key in g.written <==> Wrote(files, outcomes, g.done, key))
  }

  /** One of the finished stores left an object under the key. */
  ghost predicate Wrote(files: seq<File>, outcomes: seq<StoreResult>, done: set<nat>, key: string)
    requires |files| == |outcomes|
  {
    exists i :: i in done && i < |files| && LeavesObject(outcomes[i]) && files[i].key == key
  }

  lemma WroteAll(files: seq<File>, outcomes: seq<StoreResult>, done: set<nat>, key: string)
    requires |files| == |outcomes| && forall i: nat :: i < |files| ==> i in done
    ensures Wrote(files, outcomes, done, key) <==>
            exists i :: 0 <= i < |files| && LeavesObject(outcomes[i]) && files[i].key == key
  {}

  lemma WroteMore(files: seq<File>, outcomes: seq<StoreResult>, done: set<nat>, i: nat, key: string)
    requires |files| == |outcomes| && i < |files|
    ensures Wrote(files, outcomes, done + {i}, key) <==>
            Wrote(files, outcomes, done, key) || (LeavesObject(outcomes[i]) && files[i].key == key)
  {
    assert i in done + {i};
    if k :| k in done && k < |files| && LeavesObject(outcomes[k]) && files[k].key == key { assert k in done + {i}; }
  }

  lemma StartKeeps(concurrency: nat, files: seq<File>, outcomes: seq<StoreResult>, g: Gather, i: nat)
    requires |files| == |outcomes| && GatherOk(concurrency, files, outcomes, g) && CanMove(|files|, g, Start(i))
    ensures GatherOk(concurrency, files, outcomes, Moved(files, outcomes, g, Start(i)))
  {}

  lemma FinishKeepsSlots(concurrency: nat, files: seq<File>, outcomes: seq<StoreResult>, g: Gather, i: nat)
    requires |files| == |outcomes| && CanMove(|files|, g, Finish(i)) && SlotsOk(concurrency, files, outcomes, g)
    ensures SlotsOk(concurrency, files, outcomes, Moved(files, outcomes, g, Finish(i)))
  {
    Counts(|files|, g, Finish(i));
  }

  lemma FinishKeeps(concurrency: nat, files: seq<File>, outcomes: seq<StoreResult>, g: Gather, i: nat)
    requires |files| == |outcomes| && GatherOk(concurrency, files, outcomes, g) && CanMove(|files|, g, Finish(i))
    ensures GatherOk(concurrency, files, outcomes, Moved(files, outcomes, g, Finish(i)))
  {
    FinishKeepsSlots(concurrency, files, outcomes, g, i);
    var h := Moved(files, outcomes, g, Finish(i));
    forall key ensures key in h.written <==> Wrote(files, outcomes, h.done, key) {
      FinishWrote(files, outcomes, g, i, key);
    }
  }

  lemma FinishWrote(files: seq<File>, outcomes: seq<StoreResult>, g: Gather, i: nat, key: string)
    requires |files| == |outcomes| && i < |files| && CanMove(|files|, g, Finish(i))
    requires key in g.written <==> Wrote(files, outcomes, g.done, key)
    ensures var h := Moved(files, outcomes, g, Finish(i)); key in h.written <==> Wrote(files, outcomes, h.done, key)
  {
    WroteMore(files, outcomes, g.done, i, key);
  }

  lemma MoveKeeps(concurrency: nat, files: seq<File>, outcomes: seq<StoreResult>, g: Gather, m: Move)
    requires |files| == |outcomes| && GatherOk(concurrency, files, outcomes, g) && CanMove(|files|, g, m)
    ensures GatherOk(concurrency, files, outcomes, Moved(files, outcomes, g, m))
  {
    match m
    case Start(i) => StartKeeps(concurrency, files, outcomes, g, i);
    case Finish(i) => FinishKeeps(concurrency, files, outcomes, g, i);
  }

  ghost predicate Schedules(files: seq<File>, outcomes: seq<StoreResult>, g: Gather, moves: seq<Move>)
    requires |files| == |outcomes|
    decreases |moves|
  {
    moves == [] || (
      CanMove(|files|, g, moves[0]) && Schedules(files, outcomes, Moved(files, outcomes, g, moves[0]), moves[1..]))
  }

  ghost function Ran(files: seq<File>, outcomes: seq<StoreResult>, g: Gather, moves: seq<Move>): Gather
    requires |files| == |outcomes| && Schedules(files, outcomes, g, moves)
    decreases |moves|
  {
    if moves == [] then g else Ran(files, outcomes, Moved(files, outcomes, g, moves[0]), moves[1..])
  }

  /** How far a gather has got: two moves per file. */
  function Progress(g: Gather): nat { 2 * |g.done| + |g.inFlight| }

  lemma Nearer(n: nat, files: seq<File>, outcomes: seq<StoreResult>, g: Gather, m: Move)
    requires n == |files| == |outcomes| && CanMove(n, g, m) && g.inFlight !! g.done
    ensures Progress(Moved(files, outcomes, g, m)) == Progress(g) + 1
  {
    Counts(n, g, m);
  }

  lemma {:induction false} ScheduleKeeps(concurrency: nat, files: seq<File>, outcomes: seq<StoreResult>, g: Gather,
                                         moves: seq<Move>)
    requires |files| == |outcomes| && GatherOk(concurrency, files, outcomes, g) && Schedules(files, outcomes, g, moves)
    ensures GatherOk(concurrency, files, outcomes, Ran(files, outcomes, g, moves))
    ensures Progress(Ran(files, outcomes, g, moves)) == Progress(g) + |moves|
    decreases |moves|
  {
    if moves != [] {
      MoveKeeps(concurrency, files, outcomes, g, moves[0]);
      Nearer(|files|, files, outcomes, g, moves[0]);
      ScheduleKeeps(concurrency, files, outcomes, Moved(files, outcomes, g, moves[0]), moves[1..]);
    }
  }

  /** While a store is unfinished and the semaphore is above zero, some coroutine can move. */
  lemma NeverStuck(concurrency: nat, files: seq<File>, outcomes: seq<StoreResult>, g: Gather, i: nat)
    requires |files| == |outcomes| && GatherOk(concurrency, files, outcomes, g)
    requires i < |files| && i !in g.done && concurrency >= 1
    ensures exists m :: CanMove(|files|, g, m)
  {
    if g.inFlight != {} {
      var k :| k in g.inFlight;
      assert CanMove(|files|, g, Finish(k));
    } else {
      assert CanMove(|files|, g, Start(i));
    }
  }

  lemma {:induction false} Bounded(s: set<nat>, n: nat)
    requires forall i :: i in s ==> i < n
    ensures |s| <= n
    ensures |s| == n ==> forall i: nat :: i < n ==> i in s
  {
    if n > 0 {
      Bounded(s - {n - 1}, n - 1);
    } else {
      assert s == {};
    }
  }

  /**
    Whatever the interleaving: never more than `concurrency` stores are in flight; each result is
    its own file's outcome; the batch is over after exactly two moves per file; and until then some
    store can move, so it always gets there.
   */
  lemma EverySchedule(concurrency: nat, files: seq<File>, outcomes: seq<StoreResult>, moves: seq<Move>)
    requires |files| == |outcomes| && concurrency >= 1 && Schedules(files, outcomes, Begin(concurrency), moves)
    ensures var g := Ran(files, outcomes, Begin(concurrency), moves);
      && |g.inFlight| <= concurrency
      && (forall i :: i in g.results ==> i < |files| && g.results[i] == outcomes[i])
      && |moves| <= 2 * |files|
      && (|moves| == 2 * |files| <==> forall i: nat :: i < |files| ==> i in g.results)
      && (|moves| < 2 * |files| ==> exists m :: CanMove(|files|, g, m))
  {
    ScheduleKeeps(concurrency, files, outcomes, Begin(concurrency), moves);
    var g := Ran(files, outcomes, Begin(concurrency), moves);
    Bounded(g.done + g.inFlight, |files|);
    Bounded(g.done, |files|);
    assert |g.done + g.inFlight| == |g.done| + |g.inFlight|;
    if |moves| < 2 * |files| { NotOver(concurrency, files, outcomes, g); }
    if forall i: nat :: i < |files| ==> i in g.results { Full(g.done, |files|); }
  }

  lemma {:induction false} Full(s: set<nat>, n: nat)
    requires forall i: nat :: i < n ==> i in s
    ensures |s| >= n
  {
    if n > 0 {
      Full(s - {n - 1}, n - 1);
    }
  }

  /** Short of two moves per file, some store can move. */
  lemma NotOver(concurrency: nat, files: seq<File>, outcomes: seq<StoreResult>, g: Gather)
    requires |files| == |outcomes| && concurrency >= 1 && GatherOk(concurrency, files, outcomes, g)
    requires Progress(g) < 2 * |files|
    ensures exists m :: CanMove(|files|, g, m)
  {
    Bounded(g.done + g.inFlight, |files|);
    Bounded(g.done, |files|);
    assert |g.done + g.inFlight| == |g.done| + |g.inFlight|;
    if forall i: nat :: i < |files| ==> i in g.done { Full(g.done, |files|); }
    var i: nat :| i < |files| && i !in g.done;
    NeverStuck(concurrency, files, outcomes, g, i);
  }

  /** After two moves per file every result is there, and every object that was left. */
  lemma Over(concurrency: nat, files: seq<File>, outcomes: seq<StoreResult>, g: Gather)
    requires |files| == |outcomes| && GatherOk(concurrency, files, outcomes, g) && Progress(g) == 2 * |files|
    ensures Gathered(|files|, g) && Collected(|files|, g) == outcomes
    ensures forall key :: key in g.written <==>
      exists i :: 0 <= i < |files| && LeavesObject(outcomes[i]) && files[i].key == key
  {
    Bounded(g.done + g.inFlight, |files|);
    Bounded(g.done, |files|);
    assert |g.done + g.inFlight| == |g.done| + |g.inFlight|;
    CollectedAll(files, outcomes, g);
    forall key { WroteAll(files, outcomes, g.done, key); }
  }

  predicate Gathered(n: nat, g: Gather) { forall i: nat :: i < n ==> i in g.results }

  /** What `gather` returns: the results in order. */
  function Collected(n: nat, g: Gather): seq<StoreResult>
    requires Gathered(n, g)
  {
    seq(n, i requires 0 <= i < n => g.results[i])
  }

  lemma CollectedAll(files: seq<File>, outcomes: seq<StoreResult>, g: Gather)
    requires |files| == |outcomes| && Gathered(|files|, g)
    requires forall i :: i in g.results ==> i < |files| && g.results[i] == outcomes[i]
    ensures Collected(|files|, g) == outcomes
  {}

  /** A semaphore of 0 lets no store begin, ever. */
  lemma ZeroNeverBegins(files: seq<File>, outcomes: seq<StoreResult>, moves: seq<Move>)
    requires |files| == |outcomes| && Schedules(files, outcomes, Begin(0), moves)
    ensures moves == [] && forall m :: !CanMove(|files|, Begin(0), m)
  {}

  // ---- The service ---------------------------------------------------------

  /**
    One call of `upload_batch` and what it meets: the session's owner if there is one, the per-file
    verdicts of phase 0, what each store comes to, which deletes work, and whether the insert does.
   */
  datatype Call = Call(
    owner: Option<nat>, user: nat, concurrency: int, files: seq<File>, checks: seq<Option<string>>,
    outcomes: seq<StoreResult>, deletes: seq<bool>, inserts: bool)

  predicate WellFormed(c: Call) {
    |c.files| == |c.checks| == |c.outcomes| == |c.deletes| && DistinctKeys(c.files)
  }

  predicate DistinctKeys(files: seq<File>) {
    forall i, j :: 0 <= i < j < |files| ==> files[i].key != files[j].key
  }

  function FirstFailing(checks: seq<Option<string>>): (at: nat)
    ensures at <= |checks|
    ensures at < |checks| ==> checks[at].Some?
    ensures forall i :: 0 <= i < at ==> checks[i].None?
  {
    if checks == [] || checks[0].Some? then 0 else 1 + FirstFailing(checks[1..])
  }

  /** Authorization and phase 0. */
  function Rejected(c: Call): Option<UploadError> {
    var failing := FirstFailing(c.checks);
    if c.owner.None? then Some(SessionNotFound)
    else if c.owner.value != c.user then Some(Forbidden)
    else if failing < |c.checks| then Some(Invalid(failing, c.checks[failing].value))
    else None
  }

  /** What a batch comes to, from the per-file outcomes alone. */
  function Judged(c: Call): Result<Batch, UploadError>
    requires WellFormed(c)
  {
    if Rejected(c).Some? then Err(Rejected(c).value)
    else if c.concurrency < 0 then Err(BadConcurrency)
    else if c.concurrency == 0 && c.files != [] then Err(NeverReturns)
    else Settled(c.files, c.outcomes, c.inserts)
  }

  /** The same from the results on; an empty insert does not touch the database. */
  function Settled(files: seq<File>, results: seq<StoreResult>, inserts: bool): Result<Batch, UploadError>
    requires |files| == |results|
  {
    var broken := FirstUnexpected(results);
    if broken < |results| then Err(StoreBroke(results[broken].error))
    else if files != [] && Prepared(files, results) == [] then Err(StorageUploadFailed)
    else if Prepared(files, results) != [] && !inserts then Err(InsertFailed)
    else Ok(Batch(Prepared(files, results), Failures(files, results)))
  }

  /** The stores ran: nothing before them rejected the batch. */
  predicate Stores(c: Call) { Rejected(c).None? && c.concurrency >= 1 }

  /** Some file was stored. */
  predicate SomeStored(results: seq<StoreResult>) { exists i :: 0 <= i < |results| && results[i].Stored? }

  predicate SomeBroke(results: seq<StoreResult>) { exists i :: 0 <= i < |results| && results[i].Unexpected? }

  /**
    A batch that reached the stores succeeds when none broke, one stored (or there was none to store)
    and the insert went through; its rows and failures then account for every file. Whatever was
    stored stays without a row exactly when a store broke or the insert failed.
   */
  lemma BatchSucceedsIff(c: Call)
    requires WellFormed(c) && Stores(c)
    ensures var r := Judged(c);
      && (r.Ok? <==> !SomeBroke(c.outcomes) && (c.files == [] || (SomeStored(c.outcomes) && c.inserts)))
      && (r.Ok? ==> |r.value.succeeded| + |r.value.failed| == |c.files|)
      && (r.Err? && SomeStored(c.outcomes) <==> SomeStored(c.outcomes) && (!c.inserts || SomeBroke(c.outcomes)))
  {
    if FirstUnexpected(c.outcomes) == |c.outcomes| {
      NothingLost(c.files, c.outcomes);
      assert forall i :: 0 <= i < |c.outcomes| ==> c.outcomes[i].Stored? || c.outcomes[i].StorageFailed?;
    } else {
      assert c.outcomes[FirstUnexpected(c.outcomes)].Unexpected?;
    }
  }

  /** Authorization comes first, then the first file that is refused, then the semaphore. */
  lemma RefusedBeforeTheStores(c: Call, at: nat)
    requires WellFormed(c)
    ensures var r, known := Judged(c), c.owner == Some(c.user);
      && (r == Err(SessionNotFound) <==> c.owner.None?)
      && (r == Err(Forbidden) <==> c.owner.Some? && c.owner.value != c.user)
      && (known && at < |c.checks| && c.checks[at].Some? && (forall i :: 0 <= i < at ==> c.checks[i].None?) ==>
            r == Err(Invalid(at, c.checks[at].value)))
      && (r.Err? && r.error.Invalid? <==> known && exists i :: 0 <= i < |c.checks| && c.checks[i].Some?)
  {
    var failing := FirstFailing(c.checks);
    if failing < |c.checks| { assert c.checks[failing].Some?; }
  }

  /** A file that passed does not pass again: once nothing is refused, the semaphore and the results decide. */
  lemma RefusedByTheStores(c: Call)
    requires WellFormed(c) && c.owner == Some(c.user) && forall i :: 0 <= i < |c.checks| ==> c.checks[i].None?
    ensures var r, runs := Judged(c), c.concurrency >= 1 || (c.concurrency == 0 && c.files == []);
      && (r == Err(BadConcurrency) <==> c.concurrency < 0)
      && (r == Err(NeverReturns) <==> c.concurrency == 0 && c.files != [])
      && (r.Err? && r.error.StoreBroke? <==> runs && SomeBroke(c.outcomes))
      && (r.Err? && r.error.StoreBroke? ==>
            exists i :: 0 <= i < |c.outcomes| && c.outcomes[i] == Unexpected(r.error.error)
                        && forall k :: 0 <= k < i ==> !c.outcomes[k].Unexpected?)
      && (r == Err(StorageUploadFailed) <==>
            runs && c.files != [] && !SomeBroke(c.outcomes) && !SomeStored(c.outcomes))
      && (r == Err(InsertFailed) <==> runs && !SomeBroke(c.outcomes) && SomeStored(c.outcomes) && !c.inserts)
  {
    var broken := FirstUnexpected(c.outcomes);
    if broken < |c.outcomes| {
      assert c.outcomes[broken].Unexpected?;
    } else {
      NothingLost(c.files, c.outcomes);
    }
  }

  /** Rows point at objects that are there when every stored file's object is. */
  lemma RowsPoint(files: seq<File>, results: seq<StoreResult>, objects: set<string>)
    requires |files| == |results|
    requires forall i :: 0 <= i < |files| && results[i].Stored? ==> files[i].key in objects
    ensures forall row :: row in Prepared(files, results) ==> row.key in objects
  {
    forall row | row in Prepared(files, results) ensures row.key in objects {
      RowsAreTheStoredFiles(files, results, row);
    }
  }

  /** A store was to leave an object under the key. */
  ghost predicate LeftBehind(files: seq<File>, results: seq<StoreResult>, key: string)
    requires |files| == |results|
  {
    exists i :: 0 <= i < |files| && LeavesObject(results[i]) && files[i].key == key
  }

  /** A failed store before the first unexpected error is cleaned up after, if the delete works. */
  ghost predicate CleanedUp(files: seq<File>, results: seq<StoreResult>, deletes: seq<bool>, key: string)
    requires |files| == |results| == |deletes|
  {
    exists i :: 0 <= i < FirstUnexpected(results) && results[i].StorageFailed? && deletes[i] && files[i].key == key
  }

  class MediaService {
    var objects: set<string>      // the bucket
    var rows: seq<MediaRow>       // the session's media rows

    /** One turn of the loop: any coroutine that can move may be the one that does. */
    method Turn(ghost concurrency: nat, files: seq<File>, outcomes: seq<StoreResult>, g: Gather) returns (h: Gather)
      requires |files| == |outcomes| && GatherOk(concurrency, files, outcomes, g)
      requires exists m :: CanMove(|files|, g, m)
      modifies this`objects
      ensures GatherOk(concurrency, files, outcomes, h)
      ensures Progress(g) < Progress(h) <= 2 * |files|
      ensures g.written <= h.written && objects == old(objects) + (h.written - g.written)
    {
      var m :| m in Moves(|files|) && CanMove(|files|, g, m);
      MoveKeeps(concurrency, files, outcomes, g, m);
      Nearer(|files|, files, outcomes, g, m);
      h := Moved(files, outcomes, g, m);
      Room(concurrency, files, outcomes, h);
      objects := objects + (h.written - g.written);
    }

    /** `gather` over the store coroutines. */
    method StoreAll(concurrency: nat, files: seq<File>, outcomes: seq<StoreResult>) returns (results: seq<StoreResult>)
      requires concurrency >= 1 && |outcomes| == |files|
      modifies this`objects
      ensures results == outcomes
      ensures forall key :: key in objects <==>
        key in old(objects) || LeftBehind(files, outcomes, key)
    {
      var n := |files|;
      var g := Begin(concurrency);
      while Progress(g) < 2 * n
        invariant GatherOk(concurrency, files, outcomes, g) && Progress(g) <= 2 * n
        invariant objects == old(objects) + g.written
        decreases 2 * n - Progress(g)
      {
        NotOver(concurrency, files, outcomes, g);
        g := Turn(concurrency, files, outcomes, g);
      }
      Over(concurrency, files, outcomes, g);
      results := Collected(n, g);
    }

    /** Partition in order, deleting what a failed store may have left; an unexpected error stops it. */
    method Partition(files: seq<File>, results: seq<StoreResult>, deletes: seq<bool>)
      returns (batch: Batch, broke: Option<string>)
      requires |files| == |results| == |deletes|
      modifies this`objects
      ensures var at := FirstUnexpected(results);
        && (broke == if at < |results| then Some(results[at].error) else None)
        && batch == Batch(Prepared(files[..at], results[..at]), Failures(files[..at], results[..at]))
      ensures forall key :: key in objects <==> key in old(objects) && !CleanedUp(files, results, deletes, key)
    {
      batch, broke := Batch([], []), None;
      for i := 0 to |files|
        invariant FirstUnexpected(results) >= i
        invariant batch == Batch(Prepared(files[..i], results[..i]), Failures(files[..i], results[..i]))
        invariant forall key :: key in objects <==>
          && key in old(objects)
          && !exists k :: 0 <= k < i && results[k].StorageFailed? && deletes[k] && files[k].key == key
      {
        assert files[..i + 1][..i] == files[..i] && results[..i + 1][..i] == results[..i];
        match results[i] {
          case Stored =>
            batch := batch.(succeeded := batch.succeeded + [MediaRow(files[i].name, files[i].key)]);
          case StorageFailed(_) =>
            batch := batch.(failed := batch.failed + [files[i].name]);
            if deletes[i] { objects := objects - {files[i].key}; }
          case Unexpected(error) =>
            return batch, Some(error);
        }
      }
    }

    /** `create_many`: one bulk insert and commit, or nothing for an empty list. */
    method CreateMany(items: seq<MediaRow>, inserts: bool) returns (ok: bool)
      modifies this`rows
      ensures ok <==> items == [] || inserts
      ensures rows == old(rows) + if ok then items else []
    {
      if items == [] { return true; }
      if !inserts { return false; }
      rows := rows + items;
      return true;
    }

    /** Steps (1) and (2): authorize once, then validate every file. */
    method Authorize(c: Call) returns (rejected: Option<UploadError>)
      ensures rejected == Rejected(c)
    {
      if c.owner.None? { return Some(SessionNotFound); }
      if c.owner.value != c.user { return Some(Forbidden); }
      for i := 0 to |c.checks|
        invariant FirstFailing(c.checks) >= i
      {
        if c.checks[i].Some? { return Some(Invalid(i, c.checks[i].value)); }
      }
      return None;
    }

    /** Steps (4) to (6), on the results of the stores. */
    method Settle(files: seq<File>, results: seq<StoreResult>, deletes: seq<bool>, inserts: bool)
      returns (r: Result<Batch, UploadError>)
      requires |files| == |results| == |deletes| && DistinctKeys(files)
      requires forall i :: 0 <= i < |files| && results[i].Stored? ==> files[i].key in objects
      modifies this
      ensures r == Settled(files, results, inserts)
      ensures rows == old(rows) + if r.Ok? then r.value.succeeded else []
      ensures forall key :: key in objects <==> key in old(objects) && !CleanedUp(files, results, deletes, key)
      ensures forall i :: 0 <= i < |files| && results[i].Stored? ==> files[i].key in objects
      ensures r.Ok? ==> forall row :: row in r.value.succeeded ==> row.key in objects
    {
      var batch, broke := Partition(files, results, deletes);
      if broke.Some? { return Err(StoreBroke(broke.value)); }
      assert files[..|files|] == files && results[..|results|] == results;
      if files != [] && batch.succeeded == [] { return Err(StorageUploadFailed); }
      RowsPoint(files, results, objects);
      var ok := CreateMany(batch.succeeded, inserts);
      return if ok then Ok(batch) else Err(InsertFailed);
    }

    /**
      `upload_batch`. Its result depends on the per-file outcomes alone; an error adds no row; on
      success the new rows are those of the stored files, in upload order, and each points at an
      object that is there. A stored object is never deleted, so one that gets no row stays behind.
     */
    method UploadBatch(c: Call) returns (r: Result<Batch, UploadError>)
      requires WellFormed(c)
      modifies this
      ensures r == Judged(c)
      ensures rows == old(rows) + if r.Ok? then r.value.succeeded else []
      ensures !Stores(c) ==> objects == old(objects)
      ensures Stores(c) ==> forall key :: key in objects <==>
        && (key in old(objects) || LeftBehind(c.files, c.outcomes, key))
        && !CleanedUp(c.files, c.outcomes, c.deletes, key)
      ensures Stores(c) ==> forall i :: 0 <= i < |c.files| && c.outcomes[i].Stored? ==> c.files[i].key in objects
      ensures r.Ok? ==> forall row :: row in r.value.succeeded ==> row.key in objects
      ensures r.Ok? ==> exists picks :: Picks(c.outcomes, true, picks) && RowsAt(c.files, picks, r.value.succeeded)
      ensures r.Ok? ==> exists picks :: Picks(c.outcomes, false, picks) && NamesAt(c.files, picks, r.value.failed)
    {
      RowsKeepOrder(c.files, c.outcomes);
      FailuresKeepOrder(c.files, c.outcomes);
      var rejected := Authorize(c);
      if rejected.Some? { return Err(rejected.value); }
      if c.concurrency < 0 { return Err(BadConcurrency); }
      if c.concurrency == 0 {
        return if c.files == [] then Ok(Batch([], [])) else Err(NeverReturns);
      }
      var results := StoreAll(c.concurrency, c.files, c.outcomes);
      r := Settle(c.files, results, c.deletes, c.inserts);
    }

    /** `upload`: a batch of one, whose row is always there when the batch succeeds. */
    method Upload(c: Call) returns (r: Result<MediaRow, UploadError>)
      requires WellFormed(c) && |c.files| == 1
      modifies this
      ensures var file, outcome := c.files[0], c.outcomes[0];
        && (r.Ok? <==> Stores(c) && outcome.Stored? && c.inserts)
        && (r.Ok? ==>
              r.value == MediaRow(file.name, file.key) && rows == old(rows) + [r.value] && file.key in objects)
        && (r.Err? ==> rows == old(rows))
        && (Stores(c) && outcome.StorageFailed? ==> r == Err(StorageUploadFailed))
    {
      BatchOfOne(c);
      var batch := UploadBatch(c);
      if batch.Err? { return Err(batch.error); }
      return Ok(batch.value.succeeded[0]);
    }
  }

  lemma BatchOfOne(c: Call)
    requires WellFormed(c) && |c.files| == 1
    ensures Judged(c).Ok? <==> Stores(c) && c.outcomes[0].Stored? && c.inserts
    ensures Judged(c).Ok? ==> Judged(c).value.succeeded == [MediaRow(c.files[0].name, c.files[0].key)]
    ensures Stores(c) && c.outcomes[0].StorageFailed? ==> Judged(c) == Err(StorageUploadFailed)
  {
    assert c.files[..0] == [] && c.outcomes[..0] == [];
  }

  function Moves(n: nat): (moves: set<Move>)
    ensures forall m :: m in moves <==> m.index < n
  {
    if n == 0 then {} else Moves(n - 1) + {Start(n - 1), Finish(n - 1)}
  }

  lemma Room(concurrency: nat, files: seq<File>, outcomes: seq<StoreResult>, g: Gather)
    requires |files| == |outcomes| && GatherOk(concurrency, files, outcomes, g)
    ensures Progress(g) <= 2 * |files|
  {
    Bounded(g.done + g.inFlight, |files|);
    Bounded(g.done, |files|);
    assert |g.done + g.inFlight| == |g.done| + |g.inFlight|;
  }
}
