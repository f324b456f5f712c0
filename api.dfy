/** The production HTTP API: admission of an uploaded video, the job record
    it enqueues for the COLMAP stage, the status lookup, and the registry of
    progress websockets. Redis is a list and a map; the job id, the clock and
    the outcome of writing the file are parameters. */
module Api {
  import opened Common

  const VideoExtensions: seq<string> := [".mp4", ".mov", ".avi", ".mkv"]

  /** `MAX_UPLOAD_SIZE` when the environment does not set it: 2 GiB. */
  const DefaultMaxUploadSize: nat := 2147483648

  const InputDir: string := "/app/input_videos"

  /** ASCII lower-casing of one character. */
  function LowerChar(c: char): (r: char)
    ensures 'A' <= c <= 'Z' ==> 'a' <= r <= 'z' && r as int - c as int == 'a' as int - 'A' as int
    ensures !('A' <= c <= 'Z') ==> r == c
  {
    if 'A' <= c <= 'Z' then (c as int - 'A' as int + 'a' as int) as char else c
  }

  function Lower(s: string): (r: string)
    ensures |r| == |s|
    ensures forall i :: 0 <= i < |s| ==> r[i] == LowerChar(s[i])
  {
    seq(|s|, i requires 0 <= i < |s| => LowerChar(s[i]))
  }

  /** Lower-casing twice is lower-casing once. */
  lemma LowerIdempotent(s: string)
    ensures Lower(Lower(s)) == Lower(s)
  {
    forall i | 0 <= i < |s| ensures Lower(Lower(s))[i] == Lower(s)[i] {
      assert !('A' <= Lower(s)[i] <= 'Z');
    }
  }

  /** The extension check of `upload_video`, on the lower-cased name. */
  predicate HasVideoExtension(filename: string) {
    exists e :: e in VideoExtensions && EndsWith(Lower(filename), e)
  }

  /** The check ignores case: a name and its lower-cased form are accepted
      or rejected together. */
  lemma ExtensionIgnoresCase(filename: string)
    ensures HasVideoExtension(filename) <==> HasVideoExtension(Lower(filename))
  {
    LowerIdempotent(filename);
  }

  /** An uploaded file: its name and its size, `None` when the client did
      not report one. */
  datatype UploadFile = UploadFile(filename: string, size: Option<nat>)

  /** An `HTTPException` as the client receives it. */
  datatype HttpError = HttpError(status: nat, detail: string)

  /** What the generic `except` turns an `HTTPException` into: status 500,
      whose detail is the exception's string form `"<status>: <detail>"`. */
  function Wrap500(e: HttpError): (r: HttpError)
    ensures r.status == 500
    ensures EndsWith(r.detail, ": " + e.detail)
  {
    var prefix := DecimalString(e.status);
    assert (prefix + ": " + e.detail)[|prefix|..] == ": " + e.detail;
    HttpError(500, prefix + ": " + e.detail)
  }

  /** The string form of the two exceptions the handlers raise. */
  lemma StatusText(status: nat, detail: string)
    requires status == 400 || status == 404
    ensures Wrap500(HttpError(status, detail)).detail
         == (if status == 400 then "400: " else "404: ") + detail
  {
    assert DecimalString(4) == "4";
    assert DecimalString(40) == DecimalString(4) + [DigitChar(0)] == "40";
    assert DecimalString(status) == DecimalString(40) + [DigitChar(status % 10)];
  }

  /** What Python says when `file.size` is `None` and is compared with an
      int. */
  const SizeUnknownMessage: string := "'>' not supported between instances of 'NoneType' and 'int'"

  /** The checks made before anything is written, in their order; `None`
      when the upload is admitted. */
  function Validate(file: UploadFile, maxUploadSize: int): (r: Option<HttpError>)
    ensures r.None? <==> HasVideoExtension(file.filename) && file.size.Some? && file.size.value <= maxUploadSize
    ensures r.Some? ==> r.value.status == 500
    ensures !HasVideoExtension(file.filename) ==> r == Some(Wrap500(HttpError(400, "Invalid file format")))
    ensures HasVideoExtension(file.filename) && file.size.Some? && file.size.value > maxUploadSize ==>
      r == Some(Wrap500(HttpError(400, "File too large")))
  {
    if !HasVideoExtension(file.filename) then Some(Wrap500(HttpError(400, "Invalid file format")))
    else if file.size.None? then Some(HttpError(500, SizeUnknownMessage))
    else if file.size.value > maxUploadSize then Some(Wrap500(HttpError(400, "File too large")))
    else None
  }

  /** Admission at the size limit: a file exactly as large as the limit is
      accepted, one byte more is refused. */
  lemma SizeLimitBoundary(filename: string, maxUploadSize: nat)
    requires HasVideoExtension(filename)
    ensures Validate(UploadFile(filename, Some(maxUploadSize)), maxUploadSize).None?
    ensures Validate(UploadFile(filename, Some(maxUploadSize + 1)), maxUploadSize)
         == Some(HttpError(500, "400: File too large"))
  {
    StatusText(400, "File too large");
    assert "400: " + "File too large" == "400: File too large";
  }

  /** With the limit left at its default, a file of exactly 2 GiB is
      admitted and one byte more is refused. */
  lemma DefaultSizeLimit(filename: string)
    requires HasVideoExtension(filename)
    ensures Validate(UploadFile(filename, Some(2147483648)), DefaultMaxUploadSize).None?
    ensures Validate(UploadFile(filename, Some(2147483649)), DefaultMaxUploadSize)
         == Some(HttpError(500, "400: File too large"))
  {
    SizeLimitBoundary(filename, DefaultMaxUploadSize);
  }

  /** `os.path.join` of a directory and a name: an absolute name replaces
      the directory, and a slash is put between the two only when the
      directory is non-empty and does not already end in one. */
  function PathJoin(dir: string, name: string): (r: string)
    ensures EndsWith(r, name)
    ensures StartsWith(name, "/") ==> r == name
    ensures !StartsWith(name, "/") ==> StartsWith(r, dir)
    ensures !StartsWith(name, "/") ==>
      |r| == |dir| + |name| + (if dir == [] || EndsWith(dir, "/") then 0 else 1)
    ensures !StartsWith(name, "/") && dir != [] ==> EndsWith(r[..|r| - |name|], "/")
  {
    if StartsWith(name, "/") then name
    else if dir == [] || EndsWith(dir, "/") then dir + name
    else dir + "/" + name
  }

  /** The record enqueued for a new upload, as the dict built in
      `upload_video`. */
  datatype UploadJob = UploadJob(
    jobId: string,
    filename: string,
    filepath: string,
    status: string,
    createdAt: int,
    retries: nat,
    maxRetries: nat)

  /** The record of a new job; the stored name keeps the original name
      after the job id and an underscore. */
  function NewJob(jobId: string, original: string, createdAt: int): (r: UploadJob)
    ensures r.status == "queued" && r.retries == 0 && r.maxRetries == 3 && r.createdAt == createdAt
    ensures r.jobId == jobId
    ensures StartsWith(r.filename, jobId + "_") && r.filename[|jobId| + 1..] == original
    ensures r.filepath == PathJoin(InputDir, r.filename)
  {
    var filename := jobId + "_" + original;
    assert filename[..|jobId| + 1] == jobId + "_";
    UploadJob(jobId, filename, PathJoin(InputDir, filename), "queued", createdAt, 0, 3)
  }

  /** Job ids are never absolute paths (they are UUIDs), so the file lands
      in the input directory under its stored name. */
  lemma NewJobInInputDir(jobId: string, original: string, createdAt: int)
    requires !StartsWith(jobId, "/")
    ensures NewJob(jobId, original, createdAt).filepath == "/app/input_videos/" + jobId + "_" + original
  {
    var filename := jobId + "_" + original;
    assert filename[..1] == if |jobId| == 0 then "_" else jobId[..1];
    assert InputDir + "/" + filename == "/app/input_videos/" + jobId + "_" + original;
  }

  /** The upload as a whole: admitted files whose write succeeds yield the
      new record; every failure, including the 400s raised by validation,
      reaches the client as a 500. `writeError` is the text of whatever
      saving the file raised. */
  function UploadOutcome(file: UploadFile, jobId: string, maxUploadSize: int, createdAt: int,
                         writeError: Option<string>): (r: Result<UploadJob, HttpError>)
    ensures r.Success? <==> Validate(file, maxUploadSize).None? && writeError.None?
    ensures r.Failure? ==> r.error.status == 500
    ensures r.Success? ==> r.value == NewJob(jobId, file.filename, createdAt)
    ensures Validate(file, maxUploadSize).Some? ==> r == Failure(Validate(file, maxUploadSize).value)
  {
    match Validate(file, maxUploadSize)
    case Some(e) => Failure(e)
    case None =>
      match writeError
      case Some(msg) => Failure(HttpError(500, msg))
      case None => Success(NewJob(jobId, file.filename, createdAt))
  }

  /** `get_job_status`: the stored record, or a 404 that the generic
      `except` delivers as a 500. */
  function GetJobStatus<V>(store: map<string, V>, jobId: string): (r: Result<V, HttpError>)
    ensures r.Success? <==> StatusKey(jobId) in store
    ensures r.Success? ==> r.value == store[StatusKey(jobId)]
    ensures r.Failure? ==> r.error == Wrap500(HttpError(404, "Job not found"))
  {
    if StatusKey(jobId) in store then Success(store[StatusKey(jobId)])
    else Failure(Wrap500(HttpError(404, "Job not found")))
  }

  /** A missing job is reported with status 500 and the detail
      `"404: Job not found"`. */
  lemma MissingJobIs500<V>(store: map<string, V>, jobId: string)
    requires StatusKey(jobId) !in store
    ensures GetJobStatus(store, jobId) == Failure(HttpError(500, "404: Job not found"))
  {
    StatusText(404, "Job not found");
    assert "404: " + "Job not found" == "404: Job not found";
  }

  /** The API's view of Redis: the `colmap_jobs` list (head first) and the
      status records. */
  class ApiServer {
    var colmapJobs: seq<UploadJob>
    var store: map<string, UploadJob>

    constructor ()
      ensures colmapJobs == [] && store == map[]
    {
      colmapJobs := [];
      store := map[];
    }

    /** `upload_video`: on success the new record is pushed at the head of
        `colmap_jobs` and stored under its status key, and the job id is
        returned; on failure Redis is untouched. */
    method UploadVideo(file: UploadFile, jobId: string, maxUploadSize: int, createdAt: int, writeError: Option<string>)
      returns (r: Result<string, HttpError>)
      modifies this
      ensures r.Success? <==> UploadOutcome(file, jobId, maxUploadSize, createdAt, writeError).Success?
      ensures r.Success? ==> r.value == jobId
      ensures r.Failure? ==> r.error == UploadOutcome(file, jobId, maxUploadSize, createdAt, writeError).error
      ensures r.Success? ==>
        var job := NewJob(jobId, file.filename, createdAt);
        && colmapJobs == [job] + old(colmapJobs)
        && store == old(store)[StatusKey(jobId) := job]
      ensures r.Failure? ==> colmapJobs == old(colmapJobs) && store == old(store)
    {
      var outcome := UploadOutcome(file, jobId, maxUploadSize, createdAt, writeError);
      match outcome {
        case Failure(e) =>
          return Failure(e);
        case Success(job) =>
          colmapJobs := [job] + colmapJobs;
          store := store[StatusKey(jobId) := job];
          return Success(jobId);
      }
    }
  }

  /** The API's own registry of progress websockets. */
  class ConnectionManager {
    var activeConnections: map<string, Conn>

    constructor ()
      ensures activeConnections == map[]
    {
      activeConnections := map[];
    }

    /** `connect`: stores the connection, replacing any under the same id. */
    method Connect(ws: Conn, clientId: string)
      modifies this
      ensures activeConnections == old(activeConnections)[clientId := ws]
    {
      activeConnections := activeConnections[clientId := ws];
    }

    /** `disconnect`: removes the id if present, does nothing otherwise. */
    method Disconnect(clientId: string)
      modifies this
      ensures activeConnections == old(activeConnections) - {clientId}
      ensures clientId !in old(activeConnections) ==> activeConnections == old(activeConnections)
    {
      if clientId in activeConnections {
        activeConnections := activeConnections - {clientId};
      }
    }

    /** `send_progress`: a send that raises, whatever the exception,
        disconnects that client; an unknown id is ignored. */
    method SendProgress(clientId: string, net: Network)
      modifies this
      ensures activeConnections ==
        if clientId in old(activeConnections) && Outcome(net, old(activeConnections)[clientId]) != Delivered
        then old(activeConnections) - {clientId}
        else old(activeConnections)
    {
      if clientId in activeConnections && Outcome(net, activeConnections[clientId]) != Delivered {
        Disconnect(clientId);
      }
    }

    /** `websocket_endpoint`: the connection is registered until its receive
        loop raises, and then its id is removed. */
    method WebsocketEndpoint(ws: Conn, clientId: string)
      modifies this
      ensures activeConnections == old(activeConnections) - {clientId}
    {
      Connect(ws, clientId);
      Disconnect(clientId);
    }
  }
}
