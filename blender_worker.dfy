/** The Blender worker loop: pop a payload from the tail of `blender_jobs`,
    run one attempt, and on failure push the record back at the head with
    one more retry or, once `MAX_RETRIES` is spent, onto
    `failed_blender_jobs`. `WorkerState`/`Step` are the specification; the
    class `Worker` is the loop itself, proved against them. */
module BlenderWorker {
  import opened Common
  import opened Progress
  import opened BlenderJob

  /** A list entry: a record `json.loads` accepts, or one it rejects. */
  datatype Payload = Record(job: Job) | Malformed

  /** The Redis state the worker touches and the progress it has published.
      Lists are written head first: `lpush` adds at index 0, `brpop` takes
      the last element. */
  datatype WorkerState = WorkerState(
    blenderJobs: seq<Payload>,
    failedBlenderJobs: seq<Job>,
    store: map<string, Job>,
    published: seq<ProgressEvent>)

  /** What happens to a failed record: `retries` is the counter read before
      the attempt. */
  datatype Disposition = Requeue(job: Job) | DeadLetter(job: Job)

  function Dispose(failed: Job, retries: int, maxRetries: int): (d: Disposition)
    ensures d.Requeue? <==> retries < maxRetries
    ensures d.Requeue? ==>
      && d.job.status == RetryBlender
      && RetriesOf(d.job) == retries + 1
      && d.job.(status := failed.status, blenderRetries := failed.blenderRetries) == failed
    ensures d.DeadLetter? ==> d.job == failed
  {
    if retries < maxRetries then Requeue(failed.(blenderRetries := Some(retries + 1), status := RetryBlender))
    else DeadLetter(failed)
  }

  /** One iteration of `main_worker_loop`. */
  function Step(s: WorkerState, maxRetries: int, env: Env): WorkerState {
    if s.blenderJobs == [] then s  // brpop timed out
    else
      var rest := AllButLast(s.blenderJobs);
      match Last(s.blenderJobs)
      case Malformed => s.(blenderJobs := rest)  // dropped by the catch-all
      case Record(job) =>
        var a := Attempt(job, env);
        var s1 := s.(blenderJobs := rest,
                     store := s.store[StatusKey(job.jobId) := a.started][StatusKey(job.jobId) := a.record],
                     published := s.published + a.events);
        if a.ok then s1
        else
          match Dispose(a.record, RetriesOf(job), maxRetries)
          case Requeue(r) => s1.(blenderJobs := [Record(r)] + rest)
          case DeadLetter(r) => s1.(failedBlenderJobs := [r] + s.failedBlenderJobs)
  }

  /** What can happen to the worker's state: one iteration of its loop, or
      another producer pushing onto `blender_jobs`. */
  datatype Action = Poll(env: Env) | Push(payload: Payload)

  function Apply(s: WorkerState, maxRetries: int, a: Action): WorkerState {
    match a
    case Poll(env) => Step(s, maxRetries, env)
    case Push(p) => s.(blenderJobs := [p] + s.blenderJobs)
  }

  function Run(s: WorkerState, maxRetries: int, trace: seq<Action>): WorkerState
    decreases |trace|
  {
    if trace == [] then s else Run(Apply(s, maxRetries, trace[0]), maxRetries, trace[1..])
  }

  function PollAll(envs: seq<Env>): (t: seq<Action>)
    ensures |t| == |envs|
    ensures forall i :: 0 <= i < |envs| ==> t[i] == Poll(envs[i])
  {
    seq(|envs|, i requires 0 <= i < |envs| => Poll(envs[i]))
  }

  /** The number of loop iterations in a trace. */
  function Polls(trace: seq<Action>): (n: nat)
    ensures n <= |trace|
  {
    if trace == [] then 0 else (if trace[0].Poll? then 1 else 0) + Polls(trace[1..])
  }

  // ---------------------------------------------------------------------
  // One iteration

  /** One iteration on a parsable record, before the failed record is
      disposed of: the record is consumed, its key reads the final record
      and the attempt's events are published. */
  lemma RecordStep(s: WorkerState, maxRetries: int, env: Env)
    requires s.blenderJobs != [] && Last(s.blenderJobs).Record?
    ensures
      var job := Last(s.blenderJobs).job;
      var a := Attempt(job, env);
      var s1 := s.(blenderJobs := AllButLast(s.blenderJobs),
                   store := s.store[StatusKey(job.jobId) := a.record],
                   published := s.published + a.events);
      Step(s, maxRetries, env) ==
        if a.ok then s1
        else match Dispose(a.record, RetriesOf(job), maxRetries)
             case Requeue(r) => s1.(blenderJobs := [Record(r)] + AllButLast(s.blenderJobs))
             case DeadLetter(r) => s1.(failedBlenderJobs := [r] + s.failedBlenderJobs)
  {
    var job := Last(s.blenderJobs).job;
    var a := Attempt(job, env);
    var k := StatusKey(job.jobId);
    assert s.store[k := a.started][k := a.record] == s.store[k := a.record];
  }

  /** A failed attempt with retries left pushes the same record back at the
      head of `blender_jobs`, with the counter one higher and status
      `retry_blender`; the status key keeps reading `failed_blender`. */
  lemma FailedAttemptRequeues(s: WorkerState, maxRetries: int, env: Env)
    requires s.blenderJobs != [] && Last(s.blenderJobs).Record?
    requires !AttemptSucceeds(Last(s.blenderJobs).job.scenePath, env)
    requires RetriesOf(Last(s.blenderJobs).job) < maxRetries
    ensures
      var job := Last(s.blenderJobs).job;
      var failed := Attempt(job, env).record;
      var s' := Step(s, maxRetries, env);
      && s'.blenderJobs == [Record(failed.(blenderRetries := Some(RetriesOf(job) + 1), status := RetryBlender))]
                           + AllButLast(s.blenderJobs)
      && RetriesOf(s'.blenderJobs[0].job) == RetriesOf(job) + 1
      && s'.failedBlenderJobs == s.failedBlenderJobs
      && s'.store == s.store[StatusKey(job.jobId) := failed]
      && s'.published == s.published + Attempt(job, env).events
      && failed.status == FailedBlender
  {
    var job := Last(s.blenderJobs).job;
    var a := Attempt(job, env);
    assert !a.ok;
    assert Dispose(a.record, RetriesOf(job), maxRetries).Requeue?;
    RecordStep(s, maxRetries, env);
  }

  /** A failed attempt without retries left pushes the failed record, error
      text included, onto `failed_blender_jobs` and not back onto
      `blender_jobs`. */
  lemma FailedAttemptDeadLetters(s: WorkerState, maxRetries: int, env: Env)
    requires s.blenderJobs != [] && Last(s.blenderJobs).Record?
    requires !AttemptSucceeds(Last(s.blenderJobs).job.scenePath, env)
    requires RetriesOf(Last(s.blenderJobs).job) >= maxRetries
    ensures
      var job := Last(s.blenderJobs).job;
      var failed := Attempt(job, env).record;
      var s' := Step(s, maxRetries, env);
      && s'.blenderJobs == AllButLast(s.blenderJobs)
      && s'.failedBlenderJobs == [failed] + s.failedBlenderJobs
      && failed.status == FailedBlender && failed.error == FailureReason(job, env)
      && s'.store == s.store[StatusKey(job.jobId) := failed]
      && s'.published == s.published + Attempt(job, env).events
  {
    var job := Last(s.blenderJobs).job;
    var a := Attempt(job, env);
    assert !a.ok;
    assert Dispose(a.record, RetriesOf(job), maxRetries) == DeadLetter(a.record);
    RecordStep(s, maxRetries, env);
  }

  /** A successful attempt pushes nothing anywhere and leaves the record
      `completed` with its output file under the status key. */
  lemma SuccessfulAttempt(s: WorkerState, maxRetries: int, env: Env)
    requires s.blenderJobs != [] && Last(s.blenderJobs).Record?
    requires AttemptSucceeds(Last(s.blenderJobs).job.scenePath, env)
    ensures
      var job := Last(s.blenderJobs).job;
      var s' := Step(s, maxRetries, env);
      && s'.blenderJobs == AllButLast(s.blenderJobs)
      && s'.failedBlenderJobs == s.failedBlenderJobs
      && StatusKey(job.jobId) in s'.store
      && s'.store[StatusKey(job.jobId)].status == Completed
      && s'.store[StatusKey(job.jobId)].outputFile == Some(job.outputPath)
      && s'.store[StatusKey(job.jobId)].fileSize == env.outputSize
      && env.outputSize.Some?
      && s'.store == s.store[StatusKey(job.jobId) := Attempt(job, env).record]
      && s'.published == s.published + Attempt(job, env).events
      && Progresses(s'.published[|s.published|..]) == [10, 30, 60, 80, 90, 100]
  {
    var a := Attempt(Last(s.blenderJobs).job, env);
    AttemptReports(Last(s.blenderJobs).job, env);
    RecordStep(s, maxRetries, env);
    assert Step(s, maxRetries, env).published[|s.published|..] == a.events;
  }

  /** A payload that does not parse is dropped: nothing is re-queued,
      dead-lettered, stored or published. */
  lemma MalformedPayloadDropped(s: WorkerState, maxRetries: int, env: Env)
    requires s.blenderJobs != [] && Last(s.blenderJobs) == Malformed
    ensures Step(s, maxRetries, env) == s.(blenderJobs := AllButLast(s.blenderJobs))
  {
  }

  /** Whatever happens, `blender_jobs` loses its last entry and gains at most
      one at its head. */
  lemma StepQueueShape(s: WorkerState, maxRetries: int, env: Env)
    requires s.blenderJobs != []
    ensures
      var q := Step(s, maxRetries, env).blenderJobs;
      q == AllButLast(s.blenderJobs) || (q != [] && q == [q[0]] + AllButLast(s.blenderJobs))
  {
    var last := Last(s.blenderJobs);
    if last.Malformed? {
      MalformedPayloadDropped(s, maxRetries, env);
    } else if AttemptSucceeds(last.job.scenePath, env) {
      SuccessfulAttempt(s, maxRetries, env);
    } else if RetriesOf(last.job) < maxRetries {
      FailedAttemptRequeues(s, maxRetries, env);
    } else {
      FailedAttemptDeadLetters(s, maxRetries, env);
    }
  }

  // ---------------------------------------------------------------------
  // Traces

  lemma {:induction false} RunAppend(s: WorkerState, maxRetries: int, t1: seq<Action>, t2: seq<Action>)
    ensures Run(s, maxRetries, t1 + t2) == Run(Run(s, maxRetries, t1), maxRetries, t2)
    decreases |t1|
  {
    if t1 != [] {
      assert (t1 + t2)[0] == t1[0];
      assert (t1 + t2)[1..] == t1[1..] + t2;
      RunAppend(Apply(s, maxRetries, t1[0]), maxRetries, t1[1..], t2);
    } else {
      assert t1 + t2 == t2;
    }
  }

  /** `n + 1` iterations are `n` iterations and then one more. */
  lemma RunPollsSnoc(s: WorkerState, maxRetries: int, envs: seq<Env>, n: nat)
    requires n < |envs|
    ensures Run(s, maxRetries, PollAll(envs[..n + 1])) == Step(Run(s, maxRetries, PollAll(envs[..n])), maxRetries, envs[n])
  {
    var t := PollAll(envs[..n]);
    assert PollAll(envs[..n + 1]) == t + [Poll(envs[n])];
    RunAppend(s, maxRetries, t, [Poll(envs[n])]);
  }

  lemma PollAllSplit(envs: seq<Env>, m: nat)
    requires m <= |envs|
    ensures PollAll(envs) == PollAll(envs[..m]) + PollAll(envs[m..])
  {
  }

  lemma {:induction false} RunIdle(s: WorkerState, maxRetries: int, envs: seq<Env>)
    requires s.blenderJobs == []
    ensures Run(s, maxRetries, PollAll(envs)) == s
    decreases |envs|
  {
    if envs != [] {
      assert PollAll(envs)[1..] == PollAll(envs[1..]);
      RunIdle(s, maxRetries, envs[1..]);
    }
  }

  /** While every attempt fails, a job alone in the queue is pushed back once
      per attempt with its counter one higher, as long as retries are left. */
  lemma {:induction false} FailingJobRounds(s: WorkerState, maxRetries: int, envs: seq<Env>)
    requires |s.blenderJobs| == 1 && s.blenderJobs[0].Record?
    requires RetriesOf(s.blenderJobs[0].job) + |envs| <= maxRetries
    requires forall i :: 0 <= i < |envs| ==> !AttemptSucceeds(s.blenderJobs[0].job.scenePath, envs[i])
    ensures
      var j := s.blenderJobs[0].job;
      var s' := Run(s, maxRetries, PollAll(envs));
      && |s'.blenderJobs| == 1 && s'.blenderJobs[0].Record?
      && s'.blenderJobs[0].job.jobId == j.jobId
      && s'.blenderJobs[0].job.scenePath == j.scenePath
      && RetriesOf(s'.blenderJobs[0].job) == RetriesOf(j) + |envs|
      && (envs != [] ==> s'.blenderJobs[0].job.status == RetryBlender)
      && s'.failedBlenderJobs == s.failedBlenderJobs
    decreases |envs|
  {
    if envs != [] {
      var s1 := Step(s, maxRetries, envs[0]);
      FailedAttemptRequeues(s, maxRetries, envs[0]);
      assert PollAll(envs)[0] == Poll(envs[0]);
      assert PollAll(envs)[1..] == PollAll(envs[1..]);
      assert forall i :: 0 <= i < |envs[1..]| ==> envs[1..][i] == envs[i + 1];
      FailingJobRounds(s1, maxRetries, envs[1..]);
    }
  }

  /** With `maxRetries` = N >= 0 and every attempt failing, a fresh job (a
      missing counter counts as 0) is still waiting after N attempts, and is
      gone after attempt N + 1: then it is in `failed_blender_jobs` exactly
      once, carrying the counter N, status `failed_blender` and its error,
      which is also what its status key reads. Further iterations change
      nothing. */
  lemma AlwaysFailingJob(s: WorkerState, maxRetries: int, envs: seq<Env>)
    requires |s.blenderJobs| == 1 && s.blenderJobs[0].Record? && RetriesOf(s.blenderJobs[0].job) == 0
    requires 0 <= maxRetries < |envs|
    requires forall i :: 0 <= i < |envs| ==> !AttemptSucceeds(s.blenderJobs[0].job.scenePath, envs[i])
    ensures
      var j := s.blenderJobs[0].job;
      var mid := Run(s, maxRetries, PollAll(envs[..maxRetries]));
      && |mid.blenderJobs| == 1 && mid.blenderJobs[0].Record?
      && mid.blenderJobs[0].job.jobId == j.jobId
      && RetriesOf(mid.blenderJobs[0].job) == maxRetries
      && mid.failedBlenderJobs == s.failedBlenderJobs
    ensures
      var j := s.blenderJobs[0].job;
      var end := Run(s, maxRetries, PollAll(envs));
      && end.blenderJobs == []
      && |end.failedBlenderJobs| == |s.failedBlenderJobs| + 1
      && end.failedBlenderJobs[1..] == s.failedBlenderJobs
      && end.failedBlenderJobs[0].jobId == j.jobId
      && end.failedBlenderJobs[0].status == FailedBlender
      && end.failedBlenderJobs[0].error.Some?
      && RetriesOf(end.failedBlenderJobs[0]) == maxRetries
      && StatusKey(j.jobId) in end.store
      && end.store[StatusKey(j.jobId)] == end.failedBlenderJobs[0]
  {
    var j := s.blenderJobs[0].job;
    FailingJobRounds(s, maxRetries, envs[..maxRetries]);
    var mid := Run(s, maxRetries, PollAll(envs[..maxRetries]));
    FailedAttemptDeadLetters(mid, maxRetries, envs[maxRetries]);
    var last := Step(mid, maxRetries, envs[maxRetries]);
    PollAllSplit(envs, maxRetries);
    RunAppend(s, maxRetries, PollAll(envs[..maxRetries]), PollAll(envs[maxRetries..]));
    assert PollAll(envs[maxRetries..])[0] == Poll(envs[maxRetries]);
    assert PollAll(envs[maxRetries..])[1..] == PollAll(envs[maxRetries + 1..]);
    RunIdle(last, maxRetries, envs[maxRetries + 1..]);
  }

  /** `u` is what `t` ends with. */
  predicate IsSuffix<T(==)>(u: seq<T>, t: seq<T>) {
    |u| <= |t| && t[|t| - |u|..] == u
  }

  lemma SuffixShrinks<T>(x: T, u: seq<T>, t: seq<T>)
    requires IsSuffix([x] + u, t)
    ensures IsSuffix(u, t)
  {
    assert t[|t| - |u|..] == t[|t| - |u| - 1..][1..];
  }

  /** The first `|w| + 1 - k` entries of `[x] + w` are `x` and then the
      first `|w| - k` entries of `w`. */
  lemma TakeCons<T>(x: T, w: seq<T>, k: nat)
    requires k <= |w|
    ensures ([x] + w)[..|w| + 1 - k] == [x] + w[..|w| - k]
  {
  }

  /** Removing the tail entry of `q` and adding at most one at its head
      keeps the first `|q| - (k + 1)` entries of `q` ahead of what `k`
      further iterations can serve. */
  lemma WaitingAfterStep(q: seq<Payload>, q1: seq<Payload>, fin: seq<Payload>, k: nat)
    requires k + 1 <= |q|
    requires q1 == AllButLast(q) || (q1 != [] && q1 == [q1[0]] + AllButLast(q))
    ensures k <= |q1|
    ensures IsSuffix(q1[..|q1| - k], fin) ==> IsSuffix(q[..|q| - (k + 1)], fin)
  {
    var n := |q| - (k + 1);
    if q1 == AllButLast(q) {
      assert q1[..|q1| - k] == q[..n];
    } else {
      TakeCons(q1[0], AllButLast(q), k);
      assert AllButLast(q)[..|q| - 1 - k] == q[..n];
      if IsSuffix(q1[..|q1| - k], fin) {
        SuffixShrinks(q1[0], q[..n], fin);
      }
    }
  }

  /** The number of entries one action serves from `blender_jobs`. */
  function Served(a: Action): (n: nat)
    ensures n == Polls([a])
  {
    if a.Poll? then 1 else 0
  }

  /** One action serves at most its last entry, and only an iteration
      serves one; entries ahead of it are not served. */
  lemma ApplyKeepsWaiting(s: WorkerState, maxRetries: int, a: Action, fin: seq<Payload>, k: nat)
    requires k + Served(a) <= |s.blenderJobs|
    ensures k <= |Apply(s, maxRetries, a).blenderJobs|
    ensures
      var q1 := Apply(s, maxRetries, a).blenderJobs;
      IsSuffix(q1[..|q1| - k], fin) ==> IsSuffix(s.blenderJobs[..|s.blenderJobs| - (k + Served(a))], fin)
  {
    var q := s.blenderJobs;
    if a.Push? {
      TakeCons(a.payload, q, k);
      if IsSuffix(([a.payload] + q)[..|q| + 1 - k], fin) {
        SuffixShrinks(a.payload, q[..|q| - k], fin);
      }
    } else {
      StepQueueShape(s, maxRetries, a.env);
      WaitingAfterStep(q, Step(s, maxRetries, a.env).blenderJobs, fin, k);
    }
  }

  /** FIFO: after any interleaving of loop iterations and pushes by other
      producers, the entries of `blender_jobs` that have not been served
      (all but the last one per iteration) are still at its tail, in the
      same order. So an entry is only served after every entry that was
      waiting behind it at the tail. */
  lemma {:induction false} RunKeepsWaitingInOrder(s: WorkerState, maxRetries: int, trace: seq<Action>)
    requires Polls(trace) <= |s.blenderJobs|
    ensures IsSuffix(s.blenderJobs[..|s.blenderJobs| - Polls(trace)], Run(s, maxRetries, trace).blenderJobs)
    decreases |trace|
  {
    var q := s.blenderJobs;
    if trace == [] {
      assert q[..|q|] == q;
    } else {
      var s1 := Apply(s, maxRetries, trace[0]);
      var k := Polls(trace[1..]);
      assert Polls(trace) == k + Served(trace[0]);
      ApplyKeepsWaiting(s, maxRetries, trace[0], Run(s1, maxRetries, trace[1..]).blenderJobs, k);
      RunKeepsWaitingInOrder(s1, maxRetries, trace[1..]);
    }
  }

  /** A re-queued job is served only after every job already waiting: while
      no more iterations have run than there were jobs ahead of it, it is
      still in `blender_jobs`, behind the ones not yet served. */
  lemma RequeuedJobWaitsForBacklog(s: WorkerState, maxRetries: int, env: Env, trace: seq<Action>)
    requires s.blenderJobs != [] && Last(s.blenderJobs).Record?
    requires !AttemptSucceeds(Last(s.blenderJobs).job.scenePath, env)
    requires RetriesOf(Last(s.blenderJobs).job) < maxRetries
    requires Polls(trace) <= |s.blenderJobs| - 1
    ensures
      var s1 := Step(s, maxRetries, env);
      var waiting := AllButLast(s.blenderJobs);
      IsSuffix([s1.blenderJobs[0]] + waiting[..|waiting| - Polls(trace)], Run(s1, maxRetries, trace).blenderJobs)
  {
    var s1 := Step(s, maxRetries, env);
    var waiting := AllButLast(s.blenderJobs);
    FailedAttemptRequeues(s, maxRetries, env);
    RunKeepsWaitingInOrder(s1, maxRetries, trace);
    TakeCons(s1.blenderJobs[0], waiting, Polls(trace));
  }

  // ---------------------------------------------------------------------
  // The retry bound

  /** Every parsable entry of a queue has a counter in `0..maxRetries`. */
  predicate RetriesWithin(q: seq<Payload>, maxRetries: int) {
    forall i :: 0 <= i < |q| && q[i].Record? ==> 0 <= RetriesOf(q[i].job) <= maxRetries
  }

  /** Entries added at the head of `failed_blender_jobs` since `before`, each
      of which has spent exactly `maxRetries` retries. */
  predicate DeadLettersSpent(failed: seq<Job>, before: seq<Job>, maxRetries: int) {
    && |before| <= |failed|
    && failed[|failed| - |before|..] == before
    && forall i :: 0 <= i < |failed| - |before| ==> RetriesOf(failed[i]) == maxRetries
  }

  /** Pushes by other producers that respect the bound. */
  predicate PushesWithin(trace: seq<Action>, maxRetries: int) {
    forall i :: 0 <= i < |trace| && trace[i].Push? ==> RetriesWithin([trace[i].payload], maxRetries)
  }

  lemma DeadLettersSpentTrans(f2: seq<Job>, f1: seq<Job>, f0: seq<Job>, maxRetries: int)
    requires DeadLettersSpent(f2, f1, maxRetries) && DeadLettersSpent(f1, f0, maxRetries)
    ensures DeadLettersSpent(f2, f0, maxRetries)
  {
    var d := |f2| - |f1|;
    assert f2[|f2| - |f0|..] == f2[d..][|f1| - |f0|..];
    forall i | 0 <= i < |f2| - |f0|
      ensures RetriesOf(f2[i]) == maxRetries
    {
      if i >= d {
        assert f2[i] == f2[d..][i - d] == f1[i - d];
      }
    }
  }

  lemma RestWithin(q: seq<Payload>, maxRetries: int)
    requires q != [] && RetriesWithin(q, maxRetries)
    ensures RetriesWithin(AllButLast(q), maxRetries)
  {
    var rest := AllButLast(q);
    forall i | 0 <= i < |rest| && rest[i].Record?
      ensures 0 <= RetriesOf(rest[i].job) <= maxRetries
    {
      assert rest[i] == q[i];
    }
  }

  lemma QuietStepBound(s: WorkerState, maxRetries: int, env: Env)
    requires s.blenderJobs != [] && RetriesWithin(s.blenderJobs, maxRetries)
    requires Last(s.blenderJobs).Malformed? || AttemptSucceeds(Last(s.blenderJobs).job.scenePath, env)
    ensures RetriesWithin(Step(s, maxRetries, env).blenderJobs, maxRetries)
    ensures DeadLettersSpent(Step(s, maxRetries, env).failedBlenderJobs, s.failedBlenderJobs, maxRetries)
  {
    var f := s.failedBlenderJobs;
    RestWithin(s.blenderJobs, maxRetries);
    if Last(s.blenderJobs).Malformed? {
      MalformedPayloadDropped(s, maxRetries, env);
    } else {
      SuccessfulAttempt(s, maxRetries, env);
    }
    assert f[|f| - |f|..] == f;
  }

  lemma RequeueStepBound(s: WorkerState, maxRetries: int, env: Env)
    requires s.blenderJobs != [] && RetriesWithin(s.blenderJobs, maxRetries)
    requires Last(s.blenderJobs).Record? && !AttemptSucceeds(Last(s.blenderJobs).job.scenePath, env)
    requires RetriesOf(Last(s.blenderJobs).job) < maxRetries
    ensures RetriesWithin(Step(s, maxRetries, env).blenderJobs, maxRetries)
    ensures DeadLettersSpent(Step(s, maxRetries, env).failedBlenderJobs, s.failedBlenderJobs, maxRetries)
  {
    var f := s.failedBlenderJobs;
    var q := s.blenderJobs;
    assert 0 <= RetriesOf(Last(q).job) by { assert Last(q) == q[|q| - 1]; }
    RestWithin(q, maxRetries);
    FailedAttemptRequeues(s, maxRetries, env);
    var r := Step(s, maxRetries, env).blenderJobs;
    forall i | 0 <= i < |r| && r[i].Record?
      ensures 0 <= RetriesOf(r[i].job) <= maxRetries
    {
      if i > 0 {
        assert r[i] == AllButLast(q)[i - 1];
      }
    }
    assert f[|f| - |f|..] == f;
  }

  lemma DeadLetterStepBound(s: WorkerState, maxRetries: int, env: Env)
    requires s.blenderJobs != [] && RetriesWithin(s.blenderJobs, maxRetries)
    requires Last(s.blenderJobs).Record? && !AttemptSucceeds(Last(s.blenderJobs).job.scenePath, env)
    requires RetriesOf(Last(s.blenderJobs).job) >= maxRetries
    ensures RetriesWithin(Step(s, maxRetries, env).blenderJobs, maxRetries)
    ensures DeadLettersSpent(Step(s, maxRetries, env).failedBlenderJobs, s.failedBlenderJobs, maxRetries)
  {
    var q := s.blenderJobs;
    var job := Last(q).job;
    assert RetriesOf(job) <= maxRetries by { assert Last(q) == q[|q| - 1]; }
    RestWithin(q, maxRetries);
    FailedAttemptDeadLetters(s, maxRetries, env);
    assert RetriesOf(Attempt(job, env).record) == RetriesOf(job);
    assert Step(s, maxRetries, env).failedBlenderJobs[1..] == s.failedBlenderJobs;
  }

  /** One iteration keeps every waiting counter within the bound; a record
      it dead-letters has spent exactly `maxRetries` retries. */
  lemma StepRetryBound(s: WorkerState, maxRetries: int, env: Env)
    requires RetriesWithin(s.blenderJobs, maxRetries)
    ensures RetriesWithin(Step(s, maxRetries, env).blenderJobs, maxRetries)
    ensures DeadLettersSpent(Step(s, maxRetries, env).failedBlenderJobs, s.failedBlenderJobs, maxRetries)
  {
    var f := s.failedBlenderJobs;
    if s.blenderJobs == [] {
      assert f[|f| - |f|..] == f;
    } else if Last(s.blenderJobs).Malformed? || AttemptSucceeds(Last(s.blenderJobs).job.scenePath, env) {
      QuietStepBound(s, maxRetries, env);
    } else if RetriesOf(Last(s.blenderJobs).job) < maxRetries {
      RequeueStepBound(s, maxRetries, env);
    } else {
      DeadLetterStepBound(s, maxRetries, env);
    }
  }

  /** The counter never leaves `0..maxRetries` while a job waits in
      `blender_jobs`, and every record dead-lettered along the way has spent
      exactly `maxRetries` retries. */
  lemma {:induction false} RetryBound(s: WorkerState, maxRetries: int, trace: seq<Action>)
    requires RetriesWithin(s.blenderJobs, maxRetries)
    requires PushesWithin(trace, maxRetries)
    ensures RetriesWithin(Run(s, maxRetries, trace).blenderJobs, maxRetries)
    ensures DeadLettersSpent(Run(s, maxRetries, trace).failedBlenderJobs, s.failedBlenderJobs, maxRetries)
    decreases |trace|
  {
    var f := s.failedBlenderJobs;
    if trace == [] {
      assert f[|f| - |f|..] == f;
    } else {
      var s1 := Apply(s, maxRetries, trace[0]);
      if trace[0].Poll? {
        StepRetryBound(s, maxRetries, trace[0].env);
      } else {
        assert RetriesWithin([trace[0].payload], maxRetries);
        assert forall i :: 1 <= i < |s1.blenderJobs| ==> s1.blenderJobs[i] == s.blenderJobs[i - 1];
        assert s1.failedBlenderJobs == f;
        assert f[|f| - |f|..] == f;
      }
      assert forall i :: 0 <= i < |trace[1..]| ==> trace[1..][i] == trace[i + 1];
      RetryBound(s1, maxRetries, trace[1..]);
      DeadLettersSpentTrans(Run(s, maxRetries, trace).failedBlenderJobs, s1.failedBlenderJobs, f, maxRetries);
    }
  }

  lemma AppendAssoc<T>(a: seq<T>, b: seq<T>, c: seq<T>)
    ensures (a + b) + c == a + (b + c)
  {
  }

  // ---------------------------------------------------------------------
  // The worker itself

  class Worker {
    var blenderJobs: seq<Payload>
    var failedBlenderJobs: seq<Job>
    var store: map<string, Job>
    var published: seq<ProgressEvent>
    /** `MAX_RETRIES` from the environment. */
    const maxRetries: int

    function State(): WorkerState
      reads this
    {
      WorkerState(blenderJobs, failedBlenderJobs, store, published)
    }

    constructor (maxRetries: int)
      ensures State() == WorkerState([], [], map[], [])
      ensures this.maxRetries == maxRetries
    {
      this.maxRetries := maxRetries;
      blenderJobs := [];
      failedBlenderJobs := [];
      store := map[];
      published := [];
    }

    /** Another producer's `lpush` onto `blender_jobs`. */
    method Submit(p: Payload)
      modifies this
      ensures State() == Apply(old(State()), maxRetries, Push(p))
    {
      blenderJobs := [p] + blenderJobs;
    }

    /** `report_progress`: best effort, publishing never fails the job. */
    method ReportProgress(event: ProgressEvent)
      modifies this
      ensures published == old(published) + [event]
      ensures blenderJobs == old(blenderJobs) && failedBlenderJobs == old(failedBlenderJobs) && store == old(store)
    {
      published := published + [event];
    }

    method ImportColmapScene(scenePath: string, jobId: string, env: Env) returns (ok: bool)
      modifies this
      ensures ok == ImportScene(scenePath, jobId, env).ok
      ensures published == old(published) + ImportScene(scenePath, jobId, env).events
      ensures blenderJobs == old(blenderJobs) && failedBlenderJobs == old(failedBlenderJobs) && store == old(store)
    {
      if !env.blenderReady {
        return false;
      }
      ReportProgress(ImportEvent(jobId, 10, "Preparing Blender scene"));
      if SparsePath(scenePath) !in env.fs {
        return false;
      }
      var i := 0;
      while i < |RequiredFiles|
        invariant 0 <= i <= |RequiredFiles|
        invariant forall j :: 0 <= j < i ==> Join(SparsePath(scenePath), RequiredFiles[j]) in env.fs
        invariant published == old(published) + [ImportEvent(jobId, 10, "Preparing Blender scene")]
        invariant blenderJobs == old(blenderJobs) && failedBlenderJobs == old(failedBlenderJobs) && store == old(store)
      {
        if Join(SparsePath(scenePath), RequiredFiles[i]) !in env.fs {
          return false;
        }
        i := i + 1;
      }
      ReportProgress(ImportEvent(jobId, 30, "Loading COLMAP data"));
      if !env.importOk {
        return false;
      }
      ReportProgress(ImportEvent(jobId, 60, "Optimizing scene"));
      ReportProgress(ImportEvent(jobId, 80, "Setting up materials and lighting"));
      ok := true;
    }

    /** The `try` block of `process_blender_job` up to its outcome: the
        path check, the output directory, the import and the save, with the
        progress they report. */
    method AttemptSteps(job: Job, env: Env) returns (error: Option<string>)
      modifies this
      ensures error == FailureReason(job, env)
      ensures published == old(published) + ReportedBeforeOutcome(job, env)
      ensures blenderJobs == old(blenderJobs) && failedBlenderJobs == old(failedBlenderJobs) && store == old(store)
    {
      error := None;
      if job.scenePath !in env.fs {
        error := Some("Scene path does not exist: " + job.scenePath);
      } else if env.makedirsError.Some? {
        error := env.makedirsError;
      } else {
        var imported := ImportColmapScene(job.scenePath, job.jobId, env);
        if !imported {
          error := Some("Failed to import COLMAP scene");
        } else {
          ReportProgress(SavingEvent(job.jobId));
          if env.saveError.Some? {
            error := env.saveError;
          } else if env.outputSize.None? {
            error := Some("Failed to save blend file");
          }
        }
      }
    }

    /** `process_blender_job`: rewrites the status key twice and returns the
        updated record with the outcome. */
    method ProcessBlenderJob(job: Job, env: Env) returns (ok: bool, updated: Job)
      modifies this
      ensures ok == Attempt(job, env).ok && updated == Attempt(job, env).record
      ensures store == old(store)[StatusKey(job.jobId) := Attempt(job, env).started][StatusKey(job.jobId) := updated]
      ensures published == old(published) + Attempt(job, env).events
      ensures blenderJobs == old(blenderJobs) && failedBlenderJobs == old(failedBlenderJobs)
    {
      var key := StatusKey(job.jobId);
      updated := job.(status := ProcessingBlender, blenderStartedAt := Some(env.startedAt));
      store := store[key := updated];
      var error := AttemptSteps(job, env);
      ghost var reported := ReportedBeforeOutcome(job, env);
      if error.None? {
        updated := updated.(status := Completed, completedAt := Some(env.finishedAt),
                            outputFile := Some(job.outputPath), fileSize := env.outputSize);
        store := store[key := updated];
        var done := CompletedEvent(job);
        ReportProgress(done);
        AppendAssoc(old(published), reported, [done]);
        ok := true;
      } else {
        updated := updated.(status := FailedBlender, error := error, failedAt := Some(env.finishedAt));
        store := store[key := updated];
        var failed := FailedEvent(job.jobId, error.value);
        ReportProgress(failed);
        AppendAssoc(old(published), reported, [failed]);
        ok := false;
      }
    }

    /** One iteration of `main_worker_loop`. */
    method PollOnce(env: Env)
      modifies this
      ensures State() == Step(old(State()), maxRetries, env)
    {
      if blenderJobs == [] {
        return;  // brpop timed out
      }
      var payload := Last(blenderJobs);
      blenderJobs := AllButLast(blenderJobs);
      match payload
      case Malformed =>
      case Record(job) =>
        var retries := RetriesOf(job);
        var ok, updated := ProcessBlenderJob(job, env);
        if !ok {
          if retries < maxRetries {
            updated := updated.(blenderRetries := Some(retries + 1), status := RetryBlender);
            blenderJobs := [Record(updated)] + blenderJobs;
          } else {
            failedBlenderJobs := [updated] + failedBlenderJobs;
          }
        }
    }

    /** `main_worker_loop`, for as many iterations as there are environments. */
    method RunLoop(envs: seq<Env>)
      modifies this
      ensures State() == Run(old(State()), maxRetries, PollAll(envs))
    {
      var i := 0;
      while i < |envs|
        invariant 0 <= i <= |envs|
        invariant State() == Run(old(State()), maxRetries, PollAll(envs[..i]))
      {
        PollOnce(envs[i]);
        RunPollsSnoc(old(State()), maxRetries, envs, i);
        i := i + 1;
      }
      assert envs[..|envs|] == envs;
    }
  }
}
