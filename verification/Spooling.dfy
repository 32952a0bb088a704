/** Spooling multipart parts to disk, and the upload route that must leave none of them behind. */
module Spooling {
  import opened Wrappers
  import opened Settings
  import opened UploadCounts
  import opened BatchUpload
  import opened BodyLimit

  const CHUNK_SIZE := 1024 * 1024

  type Path = nat

  datatype Spooled = Spooled(path: Path, size: nat, fileName: string)

  /** A part: its name, its bytes, and which read or write of it raises, if any does. */
  datatype Part = Part(fileName: Option<string>, content: seq<byte>, breaksAt: Option<nat>)

  datatype SpoolError = FileTooLarge | Interrupted

  /** How much has been taken after so many reads. */
  function Taken(part: Part, times: nat): nat {
    if times * 1048576 < |part.content| then times * 1048576 else |part.content|
  }

  /** The read that raises is made: the one before it was not the last, and left the part within the cap. */
  predicate Breaks(part: Part, maxBytes: int) {
    && part.breaksAt.Some?
    && (part.breaksAt.value == 0
        || ((part.breaksAt.value - 1) * 1048576 < |part.content| && Taken(part, part.breaksAt.value) <= maxBytes))
  }

  /** Why a part is not spooled, if it is not. */
  function SpoolFailure(part: Part, maxBytes: int): Option<SpoolError> {
    if Breaks(part, maxBytes) then Some(Interrupted)
    else if part.content != [] && |part.content| > maxBytes then Some(FileTooLarge)
    else None
  }

  /** The temporary files there are; `next` is what `mkstemp` would name a new one. */
  class Disk {
    var files: map<Path, seq<byte>>
    var next: Path

    ghost predicate Valid()
      reads this
    {
      forall path :: path in files ==> path < next
    }

    constructor ()
      ensures Valid() && files == map[]
    {
      files, next := map[], 0;
    }

    method MakeTemp() returns (path: Path)
      requires Valid()
      modifies this
      ensures Valid() && path !in old(files) && path < next && files == old(files)[path := []]
    {
      path := next;
      files, next := files[path := []], next + 1;
    }

    /** `os.remove`; `SpooledUpload.close` ignores a file that is already gone. */
    method Remove(path: Path)
      requires Valid()
      modifies this`files
      ensures Valid() && files == old(files) - {path}
    {
      files := files - {path};
    }

    /**
      `spool_upload`. An accepted part is on disk in full and within the cap; a refused or broken one
      leaves no file, and at most the cap and one chunk of it were read.
     */
    method SpoolUpload(part: Part, maxBytes: int) returns (r: Result<Spooled, SpoolError>, read: nat)
      requires Valid()
      modifies this
      ensures Valid()
      ensures r.Ok? ==>
        && r.value.path !in old(files) && files == old(files)[r.value.path := part.content]
        && r.value.size == |part.content| && (part.content != [] ==> r.value.size <= maxBytes)
      ensures r.Err? ==> files == old(files)
      ensures read <= |part.content| && read <= (if maxBytes > 0 then maxBytes else 0) + CHUNK_SIZE
      ensures SpoolFailure(part, maxBytes) == if r.Ok? then None else Some(r.error)
      ensures part.breaksAt.None? ==> (r.Ok? <==> part.content == [] || |part.content| <= maxBytes)
      ensures r.Ok? ==>
        && (part.fileName.Some? && part.fileName.value != [] ==> r.value.fileName == part.fileName.value)
        && (part.fileName.None? || part.fileName.value == [] ==> r.value.fileName == "upload")
    {
      var path := MakeTemp();
      ghost var before := old(files);
      var size, k, written := 0, 0, [];
      read := 0;
      while true
        invariant Valid() && path < next && path !in before && files == before[path := written]
        invariant size == read <= |part.content| && written == part.content[..read]
        invariant read > 0 ==> read <= maxBytes
        invariant k >= 0 && read == Taken(part, k) && (k > 0 ==> (k - 1) * 1048576 < |part.content|)
        invariant part.breaksAt.Some? ==> part.breaksAt.value >= k
        decreases |part.content| - read
      {
        if part.breaksAt == Some(k) {
          Remove(path);
          Removed(before, path, written);
          return Err(Interrupted), read;
        }
        var upTo := if read + CHUNK_SIZE < |part.content| then read + CHUNK_SIZE else |part.content|;
        var chunk := part.content[read..upTo];
        if chunk == [] { break; }
        read, size, k := upTo, size + |chunk|, k + 1;
        if size > maxBytes {
          Remove(path);
          Removed(before, path, written);
          return Err(FileTooLarge), read;
        }
        written := written + chunk;
        files := files[path := written];
      }
      assert part.content[..read] == part.content;
      var name := if part.fileName.Some? && part.fileName.value != "" then part.fileName.value else "upload";
      return Ok(Spooled(path, size, name)), read;
    }
  }

  lemma Removed(before: map<Path, seq<byte>>, path: Path, content: seq<byte>)
    requires path !in before
    ensures before[path := content] - {path} == before
  {}

  // ---- The route -----------------------------------------------------------

  datatype Response = Created(rows: seq<MediaRow>) | MultiStatus(rows: seq<MediaRow>, failed: seq<string>)

  datatype RouteError = Miscounted(counts: CountError) | Unspooled(spool: SpoolError) | Unstored(batch: UploadError)

  /** What the rest of one upload meets: the sniffed kinds, and what the batch call does. */
  datatype Fate = Fate(kinds: seq<MediaKind>, call: Call)

  function Paths(uploads: seq<Spooled>): set<Path> { set i | 0 <= i < |uploads| :: uploads[i].path }

  lemma PathsGrow(uploads: seq<Spooled>, upload: Spooled)
    ensures Paths(uploads + [upload]) == Paths(uploads) + {upload.path}
  {
    var more := uploads + [upload];
    assert more[|uploads|] == upload;
    forall path | path in Paths(uploads) ensures path in Paths(more) {
      var i :| 0 <= i < |uploads| && uploads[i].path == path;
      assert more[i].path == path;
    }
  }

  method CloseAll(disk: Disk, uploads: seq<Spooled>)
    requires disk.Valid()
    modifies disk`files
    ensures disk.Valid() && disk.files == old(disk.files) - Paths(uploads)
  {
    for i := 0 to |uploads|
      invariant disk.Valid() && disk.files == old(disk.files) - Paths(uploads[..i])
    {
      disk.Remove(uploads[i].path);
      PathsGrow(uploads[..i], uploads[i]);
      assert uploads[..i] + [uploads[i]] == uploads[..i + 1];
    }
    assert uploads[..|uploads|] == uploads;
  }

  /** The request hangs: its stores wait for a semaphore of 0. */
  predicate Hangs(s: Settings, fate: Fate) {
    && ValidateUploadCounts(s, fate.kinds).None? && Rejected(fate.call).None?
    && fate.call.concurrency == 0 && fate.call.files != []
  }

  /** Every part is spooled, to a file that was not there before. */
  ghost predicate AllSpooled(before: map<Path, seq<byte>>, after: map<Path, seq<byte>>, parts: nat) {
    exists spools: seq<Spooled> ::
      && |spools| == parts && Paths(spools) !! before.Keys
      && Paths(spools) <= after.Keys && after - Paths(spools) == before
  }

  /**
    `upload_media`: whichever way it ends, the disk is as it was, and a request that errs adds no row.
    It does not end, with its spools on disk, exactly when an upload that passes every check meets a
    concurrency of 0; the result says so.
   */
  method UploadMedia(disk: Disk, service: MediaService, s: Settings, parts: seq<Part>, fate: Fate)
    returns (r: Result<Response, RouteError>)
    requires disk.Valid()
    requires WellFormed(fate.call) && |fate.call.files| == |fate.kinds| == |parts|
    requires fate.call.concurrency == s.uploadConcurrency
    modifies disk, service
    ensures disk.Valid()
    ensures r != Err(Unstored(NeverReturns)) ==> disk.files == old(disk.files)
    ensures r == Err(Unstored(NeverReturns)) ==> Hangs(s, fate) && AllSpooled(old(disk.files), disk.files, |parts|)
    ensures Hangs(s, fate) ==>
      r.Err? && (r.error.Miscounted? || r.error.Unspooled? || r.error == Unstored(NeverReturns))
    ensures r.Err? ==> service.rows == old(service.rows)
    ensures r.Ok? ==>
      && |parts| <= s.maxUploadFiles && ValidateUploadCounts(s, fate.kinds) == None
      && service.rows == old(service.rows) + r.value.rows
      && (forall row :: row in r.value.rows ==> row.key in service.objects)
      && |r.value.rows| + (if r.value.MultiStatus? then |r.value.failed| else 0) == |parts|
      && (r.value.MultiStatus? ==> r.value.failed != [])
    ensures r.Ok? ==> forall i :: 0 <= i < |parts| && parts[i].content != [] ==>
      |parts[i].content| <= s.maxUploadSizeMb * 1024 * 1024
    ensures r.Ok? <==>
      && |parts| <= s.maxUploadFiles
      && (forall i :: 0 <= i < |parts| ==> SpoolFailure(parts[i], s.maxUploadSizeMb * 1048576).None?)
      && ValidateUploadCounts(s, fate.kinds).None? && Judged(fate.call).Ok?
    ensures r == Err(Miscounted(TooManyFiles)) <==> |parts| > s.maxUploadFiles
    ensures r.Err? && r.error.Unspooled? ==> |parts| <= s.maxUploadFiles && exists i ::
      && 0 <= i < |parts| && SpoolFailure(parts[i], s.maxUploadSizeMb * 1048576) == Some(r.error.spool)
      && forall k :: 0 <= k < i ==> SpoolFailure(parts[k], s.maxUploadSizeMb * 1048576).None?
    ensures r.Err? && !r.error.Unspooled? && |parts| <= s.maxUploadFiles ==>
      && (forall i :: 0 <= i < |parts| ==> SpoolFailure(parts[i], s.maxUploadSizeMb * 1048576).None?)
      && r.error == match ValidateUploadCounts(s, fate.kinds)
                    case Some(counts) => Miscounted(counts)
                    case None => Unstored(if Judged(fate.call).Err? then Judged(fate.call).error else NeverReturns)
    ensures r.Ok? ==> r.value == var batch := Judged(fate.call).value;
      if batch.failed == [] then Created(batch.succeeded) else MultiStatus(batch.succeeded, batch.failed)
  {
    var refused := ValidateFileCount(s, |parts|);
    if refused.Some? { return Err(Miscounted(refused.value)); }
    var maxBytes := s.maxUploadSizeMb * 1024 * 1024;
    var uploads: seq<Spooled> := [];
    for i := 0 to |parts|
      modifies disk
      invariant disk.Valid() && |uploads| == i
      invariant Paths(uploads) !! old(disk.files).Keys && Paths(uploads) <= disk.files.Keys
      invariant disk.files - Paths(uploads) == old(disk.files)
      invariant forall k :: 0 <= k < i ==> SpoolFailure(parts[k], maxBytes).None?
    {
      var upload, _ := disk.SpoolUpload(parts[i], maxBytes);
      if upload.Err? {
        CloseAll(disk, uploads);
        return Err(Unspooled(upload.error));
      }
      PathsGrow(uploads, upload.value);
      uploads := uploads + [upload.value];
    }
    r := Handle(service, s, fate);
    if r != Err(Unstored(NeverReturns)) { CloseAll(disk, uploads); }
  }

  /** The part of the route between spooling and closing. */
  method Handle(service: MediaService, s: Settings, fate: Fate) returns (r: Result<Response, RouteError>)
    requires WellFormed(fate.call)
    modifies service
    ensures r == Err(Unstored(NeverReturns)) <==> Hangs(s, fate)
    ensures r == match ValidateUploadCounts(s, fate.kinds)
                 case Some(counts) => Err(Miscounted(counts))
                 case None =>
                   match Judged(fate.call)
                   case Err(error) => Err(Unstored(error))
                   case Ok(batch) =>
                     Ok(if batch.failed == [] then Created(batch.succeeded)
                        else MultiStatus(batch.succeeded, batch.failed))
    ensures r.Err? ==> service.rows == old(service.rows)
    ensures r.Ok? ==>
      && ValidateUploadCounts(s, fate.kinds) == None
      && service.rows == old(service.rows) + r.value.rows
      && (forall row :: row in r.value.rows ==> row.key in service.objects)
      && |r.value.rows| + (if r.value.MultiStatus? then |r.value.failed| else 0) == |fate.call.files|
      && (r.value.MultiStatus? ==> r.value.failed != [])
  {
    var miscounted := ValidateUploadCounts(s, fate.kinds);
    if miscounted.Some? { return Err(Miscounted(miscounted.value)); }
    var batch := service.UploadBatch(fate.call);
    if batch.Err? { return Err(Unstored(batch.error)); }
    if Stores(fate.call) { BatchSucceedsIff(fate.call); }
    if batch.value.failed == [] { return Ok(Created(batch.value.succeeded)); }
    return Ok(MultiStatus(batch.value.succeeded, batch.value.failed));
  }

  // ---- The caps together ---------------------------------------------------

  function Total(sizes: seq<nat>): nat { if sizes == [] then 0 else sizes[0] + Total(sizes[1..]) }

  lemma {:induction false} TotalBounded(sizes: seq<nat>, cap: nat)
    requires forall i :: 0 <= i < |sizes| ==> sizes[i] <= cap
    ensures Total(sizes) <= |sizes| * cap
  {
    if sizes != [] { TotalBounded(sizes[1..], cap); }
  }

  lemma Scaled(a: nat, b: nat, c: nat)
    requires a <= b
    ensures a * c <= b * c
  {}

  /** The body cap trips exactly the bodies of more than all files at their cap and a mebibyte of framing. */
  lemma TripsIff<M>(s: Settings, limit: nat, events: seq<Event<M>>)
    requires limit == MaxRequestBodyBytes(s)
    ensures Run(limit, Fresh(), events).exceeded <==>
            |Bytes(Arrivals(events))| > (s.maxUploadFiles * s.maxUploadSizeMb + 1) * 1048576
  {
    RunFair(limit, events);
    RunRecords(limit, events);
    BodyCapInMebibytes(s);
  }

  /**
    A batch within the file count and the per-file cap, with its multipart framing within the slack,
    never trips the body cap: the application is given all of it, and the client all of its answer.
   */
  lemma WithinTheCapsNeverTrips<M>(s: Settings, sizes: seq<nat>, framing: nat, limit: nat, events: seq<Event<M>>)
    requires |sizes| <= s.maxUploadFiles && s.maxUploadSizeMb >= 0 && limit == MaxRequestBodyBytes(s)
    requires forall i :: 0 <= i < |sizes| ==> sizes[i] <= s.maxUploadSizeMb * 1024 * 1024
    requires framing <= 1048576
    requires |Bytes(Run(limit, Fresh(), events).taken)| <= Total(sizes) + framing
    ensures var x := Run(limit, Fresh(), events);
      !x.exceeded && x.given == x.taken && Finished(x, false).client == FromApps(x.offered)
  {
    var cap := s.maxUploadSizeMb * 1024 * 1024;
    TotalBounded(sizes, cap);
    Scaled(|sizes|, s.maxUploadFiles, cap);
    Associates(s.maxUploadFiles, s.maxUploadSizeMb);
    RunFair(limit, events);
  }

  lemma Associates(a: int, b: int)
    ensures a * (b * 1024 * 1024) == a * b * 1024 * 1024
  {}
}
