# Job bookkeeping of the 3D reconstruction pipeline, in Dafny

The pipeline turns an uploaded video into a Blender scene in stages. The
stages are connected by Redis lists, and each job has a status record under
`job:<id>`. This project models the bookkeeping around those lists and
records. It leaves out the video, COLMAP and Blender work itself.

- **Blender worker** (`blender_job.dfy`, `blender_worker.dfy`). The worker
  pops a job record from the tail of `blender_jobs` and makes one attempt.
  An attempt rewrites the record as `processing_blender`, then as
  `completed` or `failed_blender`, and reports progress as it goes. A failed
  record is pushed back at the head with one more retry, or onto
  `failed_blender_jobs` once `MAX_RETRIES` is spent. `Step` and `Run` are
  the specification of the loop as a function on the Redis state.
  `BlenderWorker.Worker` is the loop written imperatively and proved equal
  to it. The lemmas state the retry bound, FIFO service, and
  exactly-once dead-lettering of a lone job that always fails. What an attempt observes (files present, whether the import
  and the save work, the clock) is an `Env` parameter.
- **Progress** (`progress.dfy`). Progress events, the per-job channel
  `progress:<id>` and its parse, and the HTTP URL the worker derives from
  the websocket URL.
- **Websocket server** (`ws_server.dfy`). The client registry, the
  per-connection message loop, the listener that rebroadcasts published
  progress, and the HTTP endpoints. Connections are abstract numbers. A
  `Network` value says which sends raise `ConnectionClosed`, which raise
  another error, and which succeed.
- **API** (`api.dfy`). Upload admission (extension and size), the job
  record enqueued on `colmap_jobs`, the status lookup with its error
  mapping, and the API's own websocket registry. The job id (a UUID in the
  system), the clock and the outcome of saving the file are parameters.

The model follows the code. In particular, a job whose every attempt fails
is attempted `max_retries + 1` times, although the worker's log line at
`backend/blender_worker/enhanced_blender.py:333` reports it as failed after
`max_retries` attempts (see `BlenderWorker.AlwaysFailingJob`).

## Model

| member | source | states |
|---|---|---|
| `Progress.JobIdOfChannel` | backend/websocket/server.py:117 | The result is absent exactly when the channel has no colon. Otherwise it is everything after the first colon. |
| `Progress.FirstIndexOf` | backend/websocket/server.py:117 | The index found holds the character and no earlier position does. No index is returned exactly when the character is absent. |
| `Progress.ChannelRoundTrip` | backend/websocket/server.py:117 | Parsing the channel `progress:<id>` written by the publishers gives back `<id>` exactly, even when the id contains colons. |
| `Progress.ReplaceAll` | backend/blender_worker/enhanced_blender.py:41 | `str.replace`: a leading occurrence of the pattern is replaced, and a string without the pattern is left unchanged. |
| `Progress.OccursIffMatchesAt` | backend/blender_worker/enhanced_blender.py:41 | The pattern occurs in a string exactly when it starts at some index, so the no-occurrence case of `ReplaceAll` and the first occurrence of `ReplaceAllAt` together cover every string. |
| `Progress.SkipPrefix` | backend/blender_worker/enhanced_blender.py:41 | A prefix in which the pattern starts nowhere is kept verbatim, and replacement continues on the rest. |
| `Progress.ReplaceAllAt` | backend/blender_worker/enhanced_blender.py:41 | At the first occurrence of the pattern, the text before it is kept, the occurrence becomes the replacement, and the scan resumes right after it. Repeated, this rewrites every non-overlapping occurrence from the left. |
| `Progress.ProgressUrl` | backend/blender_worker/enhanced_blender.py:39-41 | A `ws://` URL becomes an `http://` URL ending in `/progress`. Any other URL is used unchanged. |
| `Progress.ProgressUrlOfHost` | backend/blender_worker/enhanced_blender.py:39-41 | `ws://<host>` becomes `http://<host>/progress` when the host holds no further `ws://`. |
| `BlenderJob.HasSparseModel` | backend/blender_worker/enhanced_blender.py:103-110 | `sparse/0` and its three binary files exist. It has no contract of its own; `ImportScene` states that the import fails without it. |
| `BlenderJob.ImportScene` | backend/blender_worker/enhanced_blender.py:90-151 | The import succeeds exactly when Blender could be reset with the add-on, `sparse/0` holds `cameras.bin`, `images.bin` and `points3D.bin`, and an import operator worked. Success reports 10, 30, 60, 80. Failure reports a prefix of 10, 30. Every report carries the job id and stage `blender_import`. |
| `BlenderJob.Basename` | backend/blender_worker/enhanced_blender.py:276 | The result contains no slash and ends the path, and it is either the whole path or preceded by a slash, so it is everything after the last slash. |
| `BlenderJob.FailureReason` | backend/blender_worker/enhanced_blender.py:246-264 | No failure exactly when the scene exists, the output directory is made, the import works, the save works and the output file exists. |
| `BlenderJob.FailureTexts` | backend/blender_worker/enhanced_blender.py:246-264 | The error is the text of the first failing step: `Scene path does not exist: <path>`, the text `os.makedirs` raised, `Failed to import COLMAP scene`, the text the save raised, or `Failed to save blend file`. |
| `BlenderJob.ReportedBeforeOutcome` | backend/blender_worker/enhanced_blender.py:240-264 | The progress reported before the outcome is known is a prefix of 10, 30, 60, 80, 90, and all of it on success. |
| `BlenderJob.Attempt` | backend/blender_worker/enhanced_blender.py:232-292 | The record is first stored as `processing_blender` with a start time. On success it ends `completed` with the output file and its size. On failure it ends `failed_blender` with the error text of `FailureReason` and a failure time. Every other field is carried over unchanged: the started record changes only the status and start time, success then writes only status, completion time, output file and size, and failure only status, error and failure time. The reports are those made before the outcome, then the final report for success or failure. |
| `BlenderJob.AttemptReports` | backend/blender_worker/enhanced_blender.py:232-292 | Every report carries the job id. Success reports 10, 30, 60, 80, 90, 100. Failure ends with a report of 0 carrying the error, after a prefix of 10, 30, 60, 80, 90. |
| `BlenderWorker.Dispose` | backend/blender_worker/enhanced_blender.py:322-334 | A failed record is re-queued exactly when its counter is below `MAX_RETRIES`, with status `retry_blender`, the counter one higher and nothing else changed. Otherwise it is dead-lettered unchanged. |
| `BlenderWorker.Step` | backend/blender_worker/enhanced_blender.py:301-342 | One iteration of the loop on the Redis state. It has no contract of its own; its behaviour is stated by `FailedAttemptRequeues`, `FailedAttemptDeadLetters`, `SuccessfulAttempt`, `MalformedPayloadDropped` and `StepQueueShape`. |
| `BlenderWorker.Run` | backend/blender_worker/enhanced_blender.py:294-342 | Iterations and pushes by other producers, in order. It has no contract of its own; its behaviour is stated by `RunIdle`, `FailingJobRounds`, `AlwaysFailingJob`, `RunKeepsWaitingInOrder` and `RetryBound`. |
| `BlenderWorker.FailedAttemptRequeues` | backend/blender_worker/enhanced_blender.py:322-331 | With retries left, a failed record goes back at the head of `blender_jobs` with the counter one higher and status `retry_blender`. Nothing is dead-lettered. The status key keeps reading `failed_blender`, no other key changes, and the attempt's reports, ending with the report of 0, are appended. |
| `BlenderWorker.FailedAttemptDeadLetters` | backend/blender_worker/enhanced_blender.py:332-334 | Without retries left, the failed record, with status `failed_blender` and the error of `FailureReason`, goes onto `failed_blender_jobs` and not back onto `blender_jobs`. Only the job's status key changes, to that record, and the attempt's reports, ending with the report of 0, are appended. |
| `BlenderWorker.SuccessfulAttempt` | backend/blender_worker/enhanced_blender.py:318-319 | A successful attempt pushes onto neither list. Only the job's status key changes, to the `completed` record with its output file and the size of the saved file. Earlier events are kept and the new ones are 10, 30, 60, 80, 90, 100. |
| `BlenderWorker.MalformedPayloadDropped` | backend/blender_worker/enhanced_blender.py:339-342 | A payload `json.loads` rejects is consumed and nothing else changes. |
| `BlenderWorker.StepQueueShape` | backend/blender_worker/enhanced_blender.py:304-334 | One iteration removes the tail entry of `blender_jobs` and adds at most one entry at the head. |
| `BlenderWorker.RunIdle` | backend/blender_worker/enhanced_blender.py:304-307 | Iterations on an empty `blender_jobs` (`brpop` timing out) change nothing. |
| `BlenderWorker.FailingJobRounds` | backend/blender_worker/enhanced_blender.py:322-331 | While attempts fail and retries remain, a lone job is re-queued once per iteration and its counter grows by one each time. |
| `BlenderWorker.AlwaysFailingJob` | backend/blender_worker/enhanced_blender.py:313-334 | A fresh job (a missing counter reads 0) alone in `blender_jobs`, with no other producer pushing, that always fails is still waiting with counter N after N iterations. After iteration N + 1 it is in `failed_blender_jobs` exactly once, `failed_blender` with its error and counter N, and its status key reads the same record. |
| `BlenderWorker.RunKeepsWaitingInOrder` | backend/blender_worker/enhanced_blender.py:304-331 | Through any mix of iterations, each taken as atomic, and pushes by other producers, the entries not yet served stay at the tail of `blender_jobs` in their order (FIFO). |
| `BlenderWorker.RequeuedJobWaitsForBacklog` | backend/blender_worker/enhanced_blender.py:331 | A re-queued job stays queued behind every job that was already waiting until those have been served. |
| `BlenderWorker.StepRetryBound` | backend/blender_worker/enhanced_blender.py:322-334 | One iteration keeps every waiting counter within `0..MAX_RETRIES`. A record it dead-letters has spent exactly `MAX_RETRIES`. |
| `BlenderWorker.RetryBound` | backend/blender_worker/enhanced_blender.py:298-334 | Starting from a queue whose counters are within the bound, over any trace whose pushes by other producers also respect it, counters in `blender_jobs` stay within `0..MAX_RETRIES` (the environment's limit, not the record's `max_retries`). Every record dead-lettered along the way has spent exactly that many retries. |
| `BlenderWorker.Worker.Submit` | backend/blender_worker/enhanced_blender.py:331 | A push by another producer adds the payload at the head of `blender_jobs`, as `Run` does for a `Push`. |
| `BlenderWorker.Worker.ReportProgress` | backend/blender_worker/enhanced_blender.py:27-49 | A report is appended to the published events and touches nothing else. |
| `BlenderWorker.Worker.ImportColmapScene` | backend/blender_worker/enhanced_blender.py:90-151 | The required-file loop and the import give the outcome and the reports of `ImportScene`. |
| `BlenderWorker.Worker.AttemptSteps` | backend/blender_worker/enhanced_blender.py:246-264 | The steps of an attempt fail with exactly `FailureReason` and publish exactly `ReportedBeforeOutcome`. |
| `BlenderWorker.Worker.ProcessBlenderJob` | backend/blender_worker/enhanced_blender.py:232-292 | The method writes the status key twice, with the started and then the final record of `Attempt`. It returns that outcome and publishes its reports. The lists are untouched. |
| `BlenderWorker.Worker.PollOnce` | backend/blender_worker/enhanced_blender.py:301-342 | One loop iteration changes the Redis state exactly as `Step`. |
| `BlenderWorker.Worker.RunLoop` | backend/blender_worker/enhanced_blender.py:294-342 | The loop changes the Redis state exactly as `Run` over its iterations, so every lemma about `Run` holds of it. |
| `WsServer.AfterSend` | backend/websocket/server.py:35-47 | After a send, only the target can disappear, and it disappears exactly when it was registered and its connection is closed; every entry kept is unchanged. |
| `WsServer.Session` | backend/websocket/server.py:68-90 | The registry after a connection's messages and its `finally` clause. It has no contract of its own; its behaviour is stated by `SessionWithoutIdentify`, `SessionUnregistersFinalId` and `EmptyClientIdOutlivesSession`. |
| `WsServer.Surviving` | backend/websocket/server.py:49-66 | The clients kept by a broadcast are exactly those whose send succeeded, under the same connections. |
| `WsServer.Dispatch` | backend/websocket/server.py:73-82 | An unreadable message ends the loop. `identify` registers the given id, or `client_<id(ws)>` when none is given. `subscribe_job` is acted on exactly when the job id is non-empty and the connection has identified with a non-empty id. Anything else is ignored. |
| `WsServer.SessionWithoutIdentify` | backend/websocket/server.py:68-90 | A connection that never identifies, or sends no further `identify` after identifying with an empty id, leaves the registry as it found it. |
| `WsServer.SessionUnregistersFinalId` | backend/websocket/server.py:88-90 | When a connection ends, the non-empty id it last identified with is no longer registered. |
| `WsServer.EmptyClientIdOutlivesSession` | backend/websocket/server.py:77-90 | For every registry and every later sequence of messages without `identify`: a connection that identifies with an explicitly empty id, and whose greeting does not meet a closed connection, is still registered under `""` after it ends, because the empty string is falsy. |
| `WsServer.ProgressEndpoint` | backend/websocket/server.py:134-150 | A missing or empty `job_id` answers 400 and publishes nothing. An unreadable body answers 500. Otherwise the answer is 200, published on `progress:<job_id>`, which the listener's `progress:*` subscription receives and from which it reads the same job id back. |
| `WsServer.WebSocketServer.constructor` | backend/websocket/server.py:13-14 | The registry starts empty. |
| `WsServer.WebSocketServer.RegisterClient` | backend/websocket/server.py:17-27 | The connection is stored under the id, replacing any earlier one. It then stays registered unless the greeting meets a closed connection. No other id changes. |
| `WsServer.WebSocketServer.UnregisterClient` | backend/websocket/server.py:29-33 | The id is removed; an absent id leaves the registry unchanged. |
| `WsServer.WebSocketServer.SendToClient` | backend/websocket/server.py:35-47 | The result is true exactly when the id is registered and the send succeeds. `ConnectionClosed` also unregisters the client. Any other error keeps it. |
| `WsServer.WebSocketServer.Broadcast` | backend/websocket/server.py:49-66 | An empty registry is left alone. Otherwise exactly the clients whose send raised are removed and all others are kept. |
| `WsServer.WebSocketServer.SubscribeToJobProgress` | backend/websocket/server.py:92-104 | The stored status is sent only when the job's key exists, with the effect of `send_to_client`. |
| `WsServer.WebSocketServer.HandleClient` | backend/websocket/server.py:68-90 | The registry after the connection is exactly `Session` over its messages. |
| `WsServer.WebSocketServer.OnPubSubMessage` | backend/websocket/server.py:113-128 | A `pmessage` whose channel has a colon and whose data parses is broadcast under the job id after the first colon. Anything else is dropped without touching the registry. |
| `WsServer.WebSocketServer.MetricsEndpoint` | backend/websocket/server.py:152-167 | A readable body is broadcast with answer 200. Otherwise the answer is 500 and the registry is untouched. |
| `Api.LowerIdempotent` | backend/api/app_prod.py:101 | Lower-casing a lower-cased name changes nothing. |
| `Api.ExtensionIgnoresCase` | backend/api/app_prod.py:101 | A name and its lower-cased form pass or fail the extension check together. |
| `Api.Wrap500` | backend/api/app_prod.py:141-143 | The generic handler re-raises an `HTTPException` as status 500 whose detail ends with `: ` and the original detail. |
| `Api.StatusText` | backend/api/app_prod.py:143 | A wrapped 400 or 404 has detail `400: <detail>` or `404: <detail>`. |
| `Api.Validate` | backend/api/app_prod.py:100-105 | An upload is admitted exactly when its lower-cased name ends in `.mp4`, `.mov`, `.avi` or `.mkv` and its size is known and at most the limit. A bad name and an oversized file each give their own 400 message, wrapped as a 500. |
| `Api.SizeLimitBoundary` | backend/api/app_prod.py:104-105 | A file exactly at the limit is admitted. One byte more is refused with status 500 and detail `400: File too large`. |
| `Api.DefaultSizeLimit` | backend/api/app_prod.py:104-105 | With the default limit, a file of exactly 2147483648 bytes is admitted and one of 2147483649 bytes is refused as `400: File too large` inside a 500. |
| `Api.PathJoin` | backend/api/app_prod.py:110 | `os.path.join`: the name always ends the result. An absolute name is the result on its own. Otherwise the result starts with the directory, and a slash is inserted only when the directory is non-empty and does not already end in one. |
| `Api.NewJob` | backend/api/app_prod.py:107-125 | A new record is `queued` with `retries` 0 and `max_retries` 3. Its stored name is the job id, an underscore and the original name, from which the original name can be read back. Its path joins the input directory with that name. |
| `Api.NewJobInInputDir` | backend/api/app_prod.py:110 | For a job id that is not an absolute path, the file is `/app/input_videos/<id>_<name>`. |
| `Api.UploadOutcome` | backend/api/app_prod.py:94-146 | The upload succeeds exactly when validation passes and the file is saved, yielding the new record. Every failure, validation ones included, reaches the client as a 500. |
| `Api.GetJobStatus` | backend/api/app_prod.py:148-160 | The stored record is returned exactly when the key `job:<id>` exists. Otherwise the 404 is re-raised as a 500. |
| `Api.MissingJobIs500` | backend/api/app_prod.py:152-160 | A missing job is reported as status 500 with detail `404: Job not found`. |
| `Api.ApiServer.UploadVideo` | backend/api/app_prod.py:94-146 | On success the new record is pushed at the head of `colmap_jobs` and stored under `job:<id>`, and the job id is returned. On failure Redis is untouched and the error of `UploadOutcome` is raised. |
| `Api.ConnectionManager.constructor` | backend/api/app_prod.py:70-71 | The registry starts empty. |
| `Api.ConnectionManager.Connect` | backend/api/app_prod.py:73-76 | The connection is stored under the id, replacing any earlier one. |
| `Api.ConnectionManager.Disconnect` | backend/api/app_prod.py:78-81 | The id is removed; an absent id leaves the registry unchanged. |
| `Api.ConnectionManager.SendProgress` | backend/api/app_prod.py:83-89 | A send that raises, whatever the exception, disconnects that client. A successful send or an unknown id changes nothing. |
| `Api.ConnectionManager.WebsocketEndpoint` | backend/api/app_prod.py:163-172 | When a connection's receive loop ends, its id is gone from the registry. |

## Left out

- Blender's own work: installing and enabling the COLMAP add-on, resetting the scene, the import operators, decimation, materials, lighting and camera keyframes. Each is summarised as one outcome in `Env`.
- Redis as a server. The lists are sequences and the status store is a map. The blocking `brpop` is modelled as an empty list meaning a timeout. Pub/sub delivery between processes is not modelled, and Redis commands never fail.
- Sending progress: `published` records the calls of `report_progress`, one event per call, not what reaches the channel `progress:<id>`. In the worker, the HTTP post and the Redis publish sit in one `try`, so a post that raises (refused, or over its 5-second time-out) also skips the publish and the event never reaches the channel. A post that succeeds makes the event reach the channel twice: once republished by the progress endpoint and once by the worker's own publish. The report's timestamp is left out.
- Timestamps are opaque integers taken from `Env` or a parameter. `time.sleep` takes no time in the model.
- `BlenderWorker.Step`: an iteration is atomic. In the worker, the 30-second back-off at `backend/blender_worker/enhanced_blender.py:330` sits between writing the failed status and re-queueing the job, so another producer's push during the back-off lands ahead of the re-queued record. In the model, pushes happen only between iterations, so the re-queued record is served before such a push. `RunKeepsWaitingInOrder` and `RequeuedJobWaitsForBacklog` are about this atomic model.
- HTTP and websocket transport, the `asyncio` event loop and the interleaving of coroutines. For example, the registry can change while `broadcast` iterates it; that is not modelled.
- `main`, Prometheus metrics, Sentry, logging, `/health` and the API's `/metrics`.
- Parsing `MAX_RETRIES` and `MAX_UPLOAD_SIZE` from the environment: both are integer parameters. A value that does not parse is not modelled.
- JSON values of unexpected types: a `null` or non-string `client_id` or `job_id`, a record without `job_id`, a non-integer counter. A payload that is not a JSON object is `Unparseable` in the websocket dispatch, `Malformed` in the Blender worker's queue and `BadJson` at the progress endpoint.
- The contents of the messages sent to websocket clients and of the published payloads: only delivery, and the channel it goes on, are modelled.
- `Path` and `os.path` normalisation: the worker's joins are `/` concatenations. The API's `os.path.join` follows the two-argument rule (an absolute name replaces the directory; no slash is added after an empty directory or one ending in `/`), but `..` and repeated slashes are not collapsed.
- Saving the uploaded file, `os.makedirs` and the blend-file save are represented only by the error text they raise.
- `BlenderWorker.AlwaysFailingJob`: the count of `max_retries + 1` attempts and the single dead-letter are proved only for a job alone in `blender_jobs` with no other producer pushing. With other jobs waiting, only the general bounds of `RetryBound` and the order of `RunKeepsWaitingInOrder` are proved.
- `Api.Lower`: lower-cases ASCII letters only, whereas Python's `str.lower` also folds other Unicode letters.
- `Api.GetJobStatus`: treats any stored value as a hit. A stored empty string, which is falsy, never arises because records are JSON objects.
- `Progress.ProgressUrl`: for a URL with more than one `ws://`, states only the scheme and the `/progress` suffix. The exact form is proved when the host holds no further `ws://` (`Progress.ProgressUrlOfHost`).
- The failure log line of the worker says the job failed "after `max_retries` attempts"; it has in fact been attempted `max_retries + 1` times. Log text is not modelled.
- The payload that reaches the websocket server's listener is assumed to be readable as UTF-8.
