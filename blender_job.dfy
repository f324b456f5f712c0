/** One attempt of the Blender stage on one job record: the status record it
    writes, the progress it reports and whether it succeeds. Blender itself,
    the filesystem and the clock are summarised by an `Env` value. */
module BlenderJob {
  import opened Common
  import opened Progress

  datatype Status = Queued | QueuedNextStage | ProcessingBlender | RetryBlender | FailedBlender | Completed

  /** The job record as it travels through `blender_jobs` and is stored under
      `job:<id>`. Timestamps are opaque numbers. */
  datatype Job = Job(
    jobId: string,
    scenePath: string,
    outputPath: string,
    status: Status,
    blenderRetries: Option<int>,
    error: Option<string>,
    outputFile: Option<string>,
    fileSize: Option<nat>,
    blenderStartedAt: Option<int>,
    completedAt: Option<int>,
    failedAt: Option<int>)

  /** `job_data.get('blender_retries', 0)`. */
  function RetriesOf(job: Job): int {
    job.blenderRetries.GetOr(0)
  }

  /** Everything one attempt observes of the outside world: the paths that
      exist, whether Blender could be reset with the COLMAP add-on enabled,
      whether one of the two import operators succeeded, what `os.makedirs`
      and the save raised, the size of the output file afterwards (`None`:
      it does not exist) and the clock at the start and at the end. */
  datatype Env = Env(
    fs: set<string>,
    blenderReady: bool,
    importOk: bool,
    makedirsError: Option<string>,
    saveError: Option<string>,
    outputSize: Option<nat>,
    startedAt: int,
    finishedAt: int)

  const RequiredFiles: seq<string> := ["cameras.bin", "images.bin", "points3D.bin"]

  function Join(dir: string, name: string): string {
    dir + "/" + name
  }

  function SparsePath(scenePath: string): string {
    Join(Join(scenePath, "sparse"), "0")
  }

  /** The sparse COLMAP model the import needs: `sparse/0` and its three
      binary files. */
  predicate HasSparseModel(fs: set<string>, scenePath: string) {
    && SparsePath(scenePath) in fs
    && forall f :: f in RequiredFiles ==> Join(SparsePath(scenePath), f) in fs
  }

  datatype ImportResult = ImportResult(ok: bool, events: seq<ProgressEvent>)

  function ImportEvent(jobId: string, progress: int, message: string): ProgressEvent {
    ProgressEvent(jobId, "blender_import", progress, message)
  }

  /** `import_colmap_scene`: every failure inside it is caught and reported
      as `False`, after whatever progress was already reported. */
  function ImportScene(scenePath: string, jobId: string, env: Env): (r: ImportResult)
    ensures r.ok <==> env.blenderReady && HasSparseModel(env.fs, scenePath) && env.importOk
    ensures r.ok ==> Progresses(r.events) == [10, 30, 60, 80]
    ensures !r.ok ==> Progresses(r.events) <= [10, 30]
    ensures forall i :: 0 <= i < |r.events| ==> r.events[i].jobId == jobId && r.events[i].stage == "blender_import"
  {
    var e10 := ImportEvent(jobId, 10, "Preparing Blender scene");
    var e30 := ImportEvent(jobId, 30, "Loading COLMAP data");
    var e60 := ImportEvent(jobId, 60, "Optimizing scene");
    var e80 := ImportEvent(jobId, 80, "Setting up materials and lighting");
    if !env.blenderReady then ImportResult(false, [])
    else if !HasSparseModel(env.fs, scenePath) then ImportResult(false, [e10])
    else if !env.importOk then ImportResult(false, [e10, e30])
    else ImportResult(true, [e10, e30, e60, e80])
  }

  /** `os.path.basename`: the part after the last slash, so either the
      whole path or what follows a slash. */
  function Basename(path: string): (r: string)
    ensures '/' !in r
    ensures |r| <= |path| && path[|path| - |r|..] == r
    ensures |r| == |path| || path[|path| - |r| - 1] == '/'
  {
    if path == [] || Last(path) == '/' then []
    else Basename(AllButLast(path)) + [Last(path)]
  }

  /** Whether an attempt on a job whose scene is at `scenePath` succeeds. */
  predicate AttemptSucceeds(scenePath: string, env: Env) {
    && scenePath in env.fs
    && env.makedirsError.None?
    && ImportScene(scenePath, "", env).ok
    && env.saveError.None?
    && env.outputSize.Some?
  }

  datatype AttemptResult = AttemptResult(ok: bool, started: Job, record: Job, events: seq<ProgressEvent>)

  /** The fields an attempt never rewrites. */
  predicate SameJob(a: Job, b: Job) {
    && a.jobId == b.jobId
    && a.scenePath == b.scenePath
    && a.outputPath == b.outputPath
    && a.blenderRetries == b.blenderRetries
  }

  function SavingEvent(jobId: string): ProgressEvent {
    ProgressEvent(jobId, "blender_save", 90, "Saving Blender file")
  }

  function CompletedEvent(job: Job): ProgressEvent {
    ProgressEvent(job.jobId, "completed", 100, "Processing completed. File saved: " + Basename(job.outputPath))
  }

  function FailedEvent(jobId: string, reason: string): ProgressEvent {
    ProgressEvent(jobId, "failed", 0, "Blender processing failed: " + reason)
  }

  /** Why an attempt fails, in the order the steps are taken; `None` when it
      succeeds. */
  function FailureReason(job: Job, env: Env): (r: Option<string>)
    ensures r.None? <==> AttemptSucceeds(job.scenePath, env)
  {
    assert ImportScene(job.scenePath, job.jobId, env).ok == ImportScene(job.scenePath, "", env).ok;
    if job.scenePath !in env.fs then Some("Scene path does not exist: " + job.scenePath)
    else if env.makedirsError.Some? then env.makedirsError
    else if !ImportScene(job.scenePath, job.jobId, env).ok then Some("Failed to import COLMAP scene")
    else if env.saveError.Some? then env.saveError
    else if env.outputSize.None? then Some("Failed to save blend file")
    else None
  }

  /** The error text of each failing step, the first failing step deciding. */
  lemma FailureTexts(job: Job, env: Env)
    ensures job.scenePath !in env.fs ==>
      FailureReason(job, env) == Some("Scene path does not exist: " + job.scenePath)
    ensures job.scenePath in env.fs && env.makedirsError.Some? ==>
      FailureReason(job, env) == env.makedirsError
    ensures job.scenePath in env.fs && env.makedirsError.None? && !ImportScene(job.scenePath, job.jobId, env).ok ==>
      FailureReason(job, env) == Some("Failed to import COLMAP scene")
    ensures job.scenePath in env.fs && env.makedirsError.None? && ImportScene(job.scenePath, job.jobId, env).ok ==>
      FailureReason(job, env) ==
        if env.saveError.Some? then env.saveError
        else if env.outputSize.None? then Some("Failed to save blend file")
        else None
  {
  }

  /** The progress reported before the outcome is known. */
  function ReportedBeforeOutcome(job: Job, env: Env): (r: seq<ProgressEvent>)
    ensures forall i :: 0 <= i < |r| ==> r[i].jobId == job.jobId
    ensures Progresses(r) <= [10, 30, 60, 80, 90]
    ensures FailureReason(job, env).None? ==> Progresses(r) == [10, 30, 60, 80, 90]
  {
    if job.scenePath !in env.fs || env.makedirsError.Some? then []
    else
      var imported := ImportScene(job.scenePath, job.jobId, env);
      if imported.ok then imported.events + [SavingEvent(job.jobId)] else imported.events
  }

  /** `process_blender_job`: the record is first written with status
      `processing_blender`, then rewritten as `completed` (with the output
      file and its size) or as `failed_blender` (with the error text). */
  function Attempt(job: Job, env: Env): (r: AttemptResult)
    ensures r.ok <==> AttemptSucceeds(job.scenePath, env)
    ensures r.started.status == ProcessingBlender && r.started.blenderStartedAt == Some(env.startedAt)
    ensures r.started.(status := job.status, blenderStartedAt := job.blenderStartedAt) == job
    ensures r.ok ==> r.record.(status := r.started.status, completedAt := r.started.completedAt,
                               outputFile := r.started.outputFile, fileSize := r.started.fileSize) == r.started
    ensures !r.ok ==> r.record.(status := r.started.status, error := r.started.error,
                                failedAt := r.started.failedAt) == r.started
    ensures SameJob(r.started, job) && SameJob(r.record, job)
    ensures r.record.blenderStartedAt == Some(env.startedAt)
    ensures r.ok ==>
      && r.record.status == Completed
      && r.record.outputFile == Some(job.outputPath)
      && r.record.fileSize == env.outputSize
      && r.record.completedAt == Some(env.finishedAt)
      && r.record.error == job.error
    ensures !r.ok ==>
      && r.record.status == FailedBlender
      && r.record.error == FailureReason(job, env)
      && r.record.error.Some?
      && r.record.failedAt == Some(env.finishedAt)
      && r.record.outputFile == job.outputFile
    ensures r.events == ReportedBeforeOutcome(job, env) +
      [if r.ok then CompletedEvent(job) else FailedEvent(job.jobId, r.record.error.value)]
  {
    var started := job.(status := ProcessingBlender, blenderStartedAt := Some(env.startedAt));
    var reported := ReportedBeforeOutcome(job, env);
    match FailureReason(job, env)
    case None =>
      var record := started.(status := Completed, completedAt := Some(env.finishedAt),
                             outputFile := Some(job.outputPath), fileSize := env.outputSize);
      AttemptResult(true, started, record, reported + [CompletedEvent(job)])
    case Some(reason) =>
      var record := started.(status := FailedBlender, error := Some(reason), failedAt := Some(env.finishedAt));
      AttemptResult(false, started, record, reported + [FailedEvent(job.jobId, reason)])
  }

  /** The progress an attempt reports: all of it for the job, 10, 30, 60,
      80, 90 and 100 on success, and on failure a prefix of 10, 30, 60, 80,
      90 followed by a report of 0 carrying the error. */
  lemma AttemptReports(job: Job, env: Env)
    ensures var r := Attempt(job, env);
      && (forall i :: 0 <= i < |r.events| ==> r.events[i].jobId == job.jobId)
      && (r.ok ==> Progresses(r.events) == [10, 30, 60, 80, 90, 100])
      && (!r.ok ==>
        && r.events != []
        && Last(r.events) == FailedEvent(job.jobId, r.record.error.value)
        && Progresses(AllButLast(r.events)) <= [10, 30, 60, 80, 90])
  {
    var r := Attempt(job, env);
    var reported := ReportedBeforeOutcome(job, env);
    if r.ok {
      assert Progresses(reported + [CompletedEvent(job)]) == Progresses(reported) + [100];
    } else {
      assert AllButLast(reported + [Last(r.events)]) == reported;
    }
  }
}
