# Job lifecycle of the video-to-audio backend, in Dafny

This project models the in-memory job lifecycle of the TypeScript backend of a
video-to-MP3 converter, and proves properties of that model. It covers these
parts:

- **Upload admission.** A POST creates a job. A simulated progress timer then
  fills in its upload progress, and when the upload finishes the job is
  queued.
- **The queue and its worker.** The conversion queue is first-in first-out.
  A single worker guards it with a re-entrancy flag. Each conversion ends in
  success or failure.
- **The completed registry.** Finished jobs go here. A retention sweep runs
  after every finished job.
- **Snapshots and lookup.** These are the `queue_update` broadcast, the polled
  status, `getJobById` and `removeJobFromCompleted`.
- **The download endpoint.** It decides between not found, not ready, output
  missing and send. After a successful send it cleans up.
- **The ffmpeg wrapper's pure parts.** These are the trim plan, the output
  file name and the progress filter.
- **The front end's trim-window hook.** This is how it clamps start and end
  times.

## Structure

| file | module | contents |
|---|---|---|
| `common.dfy` | `Common` | `Option`, the JavaScript number `parseFloat` yields (`NaN` or finite), truthiness of an optional string, `Basename` |
| `converter.dfy` | `Converter` | trim options, the trim plan, the output file name, the progress filter |
| `queue_service.dfy` | `QueueService` | the job record, broadcast events, the service state and every queue operation |
| `queue_invariants.dfy` | `QueueInvariants` | the shape the service keeps between events, job-id accounting, and preservation by each operation |
| `upload_route.dfy` | `UploadRoute` | the POST handler, the upload timer as a `Tick` step, option capture |
| `download_route.dfy` | `DownloadRoute` | the GET handler's decision table and clean-up |
| `lifecycle.dfy` | `Lifecycle` | the whole backend as a state machine, its invariant, runs, and the consequences |
| `trimming.dfy` | `Trimming` | the trim-window hook's handlers as pure functions |

## How the system is modelled

- **State.** The service state is an immutable value with these fields:
  - `queue` and `completed`, the two job lists;
  - the flag `isProcessing`;
  - `files`, the set of paths that exist on disk;
  - `events`, the log of every broadcast message.

  `Backend` adds the upload timers that are running. Every operation is a
  pure function from state to state.
- **Broadcasts** append to `events`: a `QueueUpdate` carrying the snapshot,
  `JobComplete`, or `JobError`.
- **The awaited conversion is split into events.** `ProcessQueue` runs up to
  the moment ffmpeg is started. After that the engine delivers one of three
  events:
  - `OnProgress(percent)`;
  - `OnConverted(mp3Path, now)`;
  - `OnConversionError(message, now)`.

  Each event requires that a conversion is running. The two finishing events
  end with `FinishJob`, which is the worker's `finally` block.
- **Clock.** `Date.now()` is the parameter `now`.
- **File system.** `existsSync` is membership in `files`, and `unlink` is
  removal from it. Three things add or remove files outside the server's
  own clean-up:
  - the upload middleware stores the uploaded file before the POST handler
    runs (`PostUpload`);
  - ffmpeg writes the output file before the worker resumes
    (`Lifecycle.Written`, in the `Converted` step);
  - any file may disappear by other means (the `Lost` action). That is how
    a finished job's output can go missing before its download.
- **`parseFloat`.** Its result is a `JsNumber`, either `NaN` or
  `Finite(real)`. `NaN` is kept as a value because the upload route stores
  whatever `parseFloat` returns, with no check.
- **Uploading jobs.** While a job uploads it lives only in its timer's
  `Ticker`. It is in neither list, because the route adds it to the queue
  only when the upload is finished.
- **The invariant (`Lifecycle.Inv`).**
  - The worker is busy exactly while the queue is non-empty.
  - The queue head is the one `processing` job, and every job behind it is
    `uploaded`.
  - Registry entries are `complete` (with an output path) or `error`. Each
    has a completion time, and they are sorted by it.
  - Every uploading job is `uploading`, with a counter below 100.
  - No job id occurs twice. This is tracked as a multiset of ids.
- **Issued ids.** `Backend.issued` records every job id handed out so far.
  The invariant says every job held carries an issued id.
- **What the environment guarantees** (`Lifecycle.Admissible`):
  - a generated id was never handed out before;
  - ffmpeg names a non-empty output file;
  - the clock does not run backwards.

### Behaviour of the code worth knowing

- **Trim windows are not validated.** An end at or before the start is
  accepted at upload. ffmpeg then gets a seek and no duration, so it keeps
  everything after the start (`UploadRoute.InvertedWindowIsAccepted`,
  `Converter.PlanCutsRequestedWindow`).
- **Uploading jobs are invisible.** An uploading job is in neither list.
  The `queue_update` each upload tick sends therefore does not show it
  (`Lifecycle.UploadingJobIsNotShown`). When the worker is idle, a job is
  first seen already `processing`.
- **The polled status has no progress.** `getQueueStatus` reports only id,
  file name and status (`QueueService.GetQueueStatus`).
- **Progress has no event of its own.** Conversion and upload progress
  travel only in `queue_update` messages.
- **The start-time handler.** A negative start stores 0, except when
  `endTime < x < 0`, where it stores `endTime`
  (`Trimming.HandleStartTimeChange`).
- **An empty output path drops the job.** After a successful conversion
  with an empty output path, the `finally` block's retention test is
  false, so the job vanishes from both lists. The model keeps this branch.
  ffmpeg's output name is never empty, so the invariant proofs assume a
  non-empty path.

## Model

| member | source | states |
|---|---|---|
| Common.BasenameIsLastSegment | backend/src/services/queueService.ts:121 | the file name sent in `job_complete` (and offered by the download) is the part of the path after its last '/', with no '/' inside |
| Converter.PlanTrim | backend/src/converter.ts:37-53 | a defined start is the seek; with both bounds the duration exists exactly when end minus start is positive and then equals it; with no start the end alone is the duration; no bounds, no trimming |
| Converter.PlanCutsRequestedWindow | backend/src/converter.ts:37-53 | in terms of the cut: a proper window is cut exactly, an end alone cuts from 0, an end at or before the start keeps everything after the start, no options keep the whole input |
| Converter.BoundTag | backend/src/converter.ts:28-29 | an undefined bound gives the literal word `start` / `end`, a defined one its formatted number |
| Converter.OutputFileName | backend/src/converter.ts:31 | the name consists of the input base, `_`, the start tag, `-`, the end tag, and `.mp3` |
| Converter.DistinctTagsDistinctNames | backend/src/converter.ts:28-31 | the tags can be read back from the name when the start tag holds no '-', so different tags give different names for one input |
| Converter.ForwardedPercent | backend/src/converter.ts:61-64 | a report is forwarded exactly when a callback exists and its percent is truthy (present, non-zero, not NaN), and then unchanged |
| QueueService.Entry | backend/src/services/queueService.ts:28-41 | a snapshot entry carries id, file name and status, with a missing progress value reported as 0 |
| QueueService.EntriesAt | backend/src/services/queueService.ts:28-41 | the mapped list has one entry per job, in list order |
| QueueService.SnapshotLists | backend/src/services/queueService.ts:27-43 | a `queue_update` lists the queue entries first and then the completed entries, each in list order |
| QueueService.GetQueueStatus | backend/src/services/queueService.ts:177-189 | the polled status lists queue then completed jobs, with id, file name and status only |
| QueueService.PollAgreesWithBroadcast | backend/src/services/queueService.ts:177-189 | at every state the polled status is the broadcast snapshot with the progress columns dropped |
| QueueService.FirstIndex | backend/src/services/queueService.ts:198 | the index found holds the id and no earlier index does; no index means no job has the id |
| QueueService.FirstIndexConcat | backend/src/services/queueService.ts:193 | searching a concatenation finds the first part's match if there is one, else the second part's shifted by the first part's length |
| QueueService.GetJobById | backend/src/services/queueService.ts:192-194 | the first match in the queue, else the first match in the completed list, else none |
| QueueService.RemoveJobFromCompleted | backend/src/services/queueService.ts:197-203 | an absent id changes nothing and broadcasts nothing; otherwise only the first match is spliced out and one snapshot of the new state is broadcast |
| QueueService.EvictCount | backend/src/services/queueService.ts:50 | the number of entries evicted is the longest expired prefix: all before it are expired and the next is not |
| QueueService.ReleasedBy | backend/src/services/queueService.ts:53-66 | the files released are exactly the files the evicted jobs own: every one of them, and nothing else |
| QueueService.SweepStep | backend/src/services/queueService.ts:50-51 | evicting an expired front entry, then sweeping the rest, evicts one more and releases that entry's files |
| QueueService.CleanupCompletedJobs | backend/src/services/queueService.ts:46-68 | the registry keeps exactly the suffix after the expired prefix; the files of the evicted jobs (output, and the original for failed jobs) are deleted; nothing else changes |
| QueueService.LeadingAnomalies | backend/src/services/queueService.ts:86-94 | the heads skipped are exactly the leading entries that are not `uploaded` |
| QueueService.ProcessQueue | backend/src/services/queueService.ts:71-98 | a busy worker changes nothing; anomalous heads are dropped without a broadcast; the first `uploaded` head becomes `processing`, the flag is raised and one snapshot of the new state is broadcast; registry and files untouched |
| QueueService.AddJobToQueue | backend/src/services/queueService.ts:171-174 | while busy, the queue is exactly the old queue plus the job at its tail; in any case a waiting job ends up last in the queue, the registry and files are untouched and the log only grows |
| QueueService.OnProgress | backend/src/services/queueService.ts:102-106 | a forwarded report sets only the head's conversion progress to the reported percent and broadcasts; a dropped one changes nothing |
| QueueService.Retire | backend/src/services/queueService.ts:143-154 | the head is shifted off; a complete job with an output path, or a failed job, is appended with `completedAt = now`; the flag is lowered; exactly one snapshot of the new state is broadcast |
| QueueService.FinishJob | backend/src/services/queueService.ts:140-167 | the registry is what the sweep leaves of it with the retained head appended, and exactly the files of the entries the sweep evicts (the expired prefix, up to the first entry still within retention) are released; the log grows |
| QueueService.FinishJobKeepsNewest | backend/src/services/queueService.ts:143-158 | a retained job is never swept by the sweep that follows it: it is the newest registry entry |
| QueueService.FinishJobAdvancesQueue | backend/src/services/queueService.ts:160-166 | after a finish the next `uploaded` job (past any anomalous heads) is started, or the worker is idle with an empty queue |
| QueueService.ReportSuccess | backend/src/services/queueService.ts:111-130 | the head becomes `complete` with its output path; a snapshot showing it complete while still in the queue, then `job_complete` with the output's base name, are broadcast; the original upload is deleted |
| QueueService.OnConverted | backend/src/services/queueService.ts:109-167 | after success the original upload is gone; the registry is what the sweep leaves of the old one with the job appended as `complete` with `completedAt = now`, and the job is its newest entry; the first event is the snapshot showing the job complete in the queue, the second `job_complete` |
| QueueService.ErrorMessage | backend/src/services/queueService.ts:135 | the recorded message is the engine's message when it has one and `Unknown conversion error` when it has none, so never empty |
| QueueService.ReportFailure | backend/src/services/queueService.ts:132-139 | the head becomes `error` with the message; a snapshot showing it failed while still in the queue, then `job_error`, are broadcast |
| QueueService.OnConversionError | backend/src/services/queueService.ts:132-167 | after failure the registry is what the sweep leaves of the old one with the job appended as `error` with the message and `completedAt = now`, and the job is its newest entry; the first event is the snapshot showing the job failed in the queue, the second `job_error` |
| QueueInvariants.StartHead | backend/src/services/queueService.ts:71-98 | from an idle queue of waiting jobs the worker starts exactly the head, skips nothing and keeps the order |
| QueueInvariants.SubmitPreserves | backend/src/services/queueService.ts:171-174 | submission keeps the shape, appends the job's id at the tail, leaves the existing entries as they were while busy, and starts the job at once when idle |
| QueueInvariants.ProgressPreserves | backend/src/services/queueService.ts:102-106 | a progress report keeps the shape, the queue's ids and the registry |
| QueueInvariants.AppendKeepsRegistry | backend/src/services/queueService.ts:144-152 | under a clock that does not run backwards, appending the finished job keeps the registry sorted by completion time |
| QueueInvariants.SuffixKeepsRegistry | backend/src/services/queueService.ts:50-51 | what the sweep keeps of a sorted registry is sorted |
| QueueInvariants.FinishRegistry | backend/src/services/queueService.ts:143-158 | after a finish the registry keeps its shape and order and holds the finished job, and no other id appears in it |
| QueueInvariants.FinishRegistryShape | backend/src/services/queueService.ts:143-158 | after a finish the registry's entries are finished, carry completion times no later than now, and stay sorted |
| QueueInvariants.FinishRegistryIds | backend/src/services/queueService.ts:143-158 | after a finish the registry holds the finished job's id and no id that was not there before |
| QueueInvariants.StartedQueue | backend/src/services/queueService.ts:160-166 | after a finish the waiting jobs behind the head form a well-shaped queue, in order: the worker is idle with none, or has started the first |
| QueueInvariants.FinishQueue | backend/src/services/queueService.ts:160-166 | after a finish the queue keeps its shape and holds exactly the ids that were behind the head |
| QueueInvariants.FinishPreserves | backend/src/services/queueService.ts:140-167 | the `finally` block restores the shape, moves the head's id to the registry and starts the next job |
| QueueInvariants.ConvertedPreserves | backend/src/services/queueService.ts:109-167 | a success keeps the shape; the head's id leaves the queue for the registry; the rest of the queue keeps its order |
| QueueInvariants.ConversionErrorPreserves | backend/src/services/queueService.ts:132-167 | a failure keeps the shape in the same way |
| QueueInvariants.SweepEvictsExactlyExpired | backend/src/services/queueService.ts:46-51 | on a registry in completion order the sweep evicts exactly the entries older than 600000 ms; one exactly at the limit is kept |
| QueueInvariants.SweptJobIsGone | backend/src/services/queueService.ts:50-51 | with unique ids, right after the sweep an evicted job can no longer be found by `getJobById` |
| QueueInvariants.ExpiredEntryIsSwept | backend/src/services/queueService.ts:46-51 | on a registry in completion order with unique ids, any entry expired at `now` is gone after the sweep that follows the next finished job |
| UploadRoute.PostUpload | backend/src/routes/upload.ts:9-48 | no file: 400 and nothing created or stored; otherwise the uploaded file is on disk, the id is handed out, 202 with the id is answered at once, the queue is untouched, and a new upload with status `uploading`, both progress values 0, empty options and the request's file is started |
| UploadRoute.NextProgress | backend/src/routes/upload.ts:28-29 | a tick adds 10 and caps at 100, so the counter never decreases and never exceeds 100 |
| UploadRoute.TicksAdvanceByTen | backend/src/routes/upload.ts:27-30 | below the cap, `n` ticks add exactly `10 * n` |
| UploadRoute.TenthTickFinishes | backend/src/routes/upload.ts:27-32 | from 0 the counter stays below 100 for nine ticks and reaches it on exactly the tenth |
| UploadRoute.CaptureOptions | backend/src/routes/upload.ts:36-42 | each bound is set from its field only when the field is present and non-empty, and otherwise kept |
| UploadRoute.InvertedWindowIsAccepted | backend/src/routes/upload.ts:36-42 | for any present fields whose end is at or before the start, both are captured unchanged (no ordering check) and the plan seeks to the start with no duration |
| UploadRoute.Tick | backend/src/routes/upload.ts:27-46 | before 100 only this upload's counter moves; at 100 the timer is gone and the job, now `uploaded` with its options, has been submitted; the log grows |
| UploadRoute.ProcessQueueIgnoresLog | backend/src/routes/upload.ts:35-43 | the broadcasts before the submission do not change what the worker does to the queue |
| DownloadRoute.MarkOutputMissing | backend/src/routes/download.ts:22-27 | the found job becomes `error` with `Output file missing from server.` in place, and nothing else changes |
| DownloadRoute.Download | backend/src/routes/download.ts:8-51 | unknown id: 404, no change; not complete or no output path: 400, no change; file gone: 500 and the job marked failed in place; send failed: no change; delivered: the first registry match is removed and its file deleted |
| Lifecycle.StartInv | backend/src/services/queueService.ts:22-24 | the backend as the server starts it, with nothing handed out, satisfies the invariant |
| Lifecycle.PostUploadPreserves | backend/src/routes/upload.ts:14-23 | creating an upload with an id never handed out keeps the invariant and adds exactly that id |
| Lifecycle.UploadsGrow | backend/src/routes/upload.ts:14-23 | a new timer for an id never handed out, recorded as handed out, keeps the invariant |
| Lifecycle.TickPreserves | backend/src/routes/upload.ts:27-46 | a tick keeps the invariant and the set of ids; a finishing tick puts the job's id at the tail of the queue |
| Lifecycle.TickCounts | backend/src/routes/upload.ts:28-31 | a non-finishing tick keeps the invariant and moves no id |
| Lifecycle.TickSubmits | backend/src/routes/upload.ts:32-43 | a finishing tick keeps the invariant; the id moves from the uploads to the tail of the queue |
| Lifecycle.SubmittedQueue | backend/src/routes/upload.ts:43 | after the finishing tick the queue is well shaped and holds the old ids followed by the job's |
| Lifecycle.RemainingUploads | backend/src/routes/upload.ts:33 | stopping one timer leaves the others well shaped |
| Lifecycle.ProgressStep | backend/src/services/queueService.ts:102-106 | a progress report keeps the backend invariant |
| Lifecycle.ServiceStep | backend/src/services/queueService.ts:140-167 | a service step that keeps the shape and only forgets ids keeps the backend invariant |
| Lifecycle.ConvertedStep | backend/src/services/queueService.ts:109-167 | a success, after ffmpeg wrote its output, keeps the backend invariant and drops the head from the queue's ids |
| Lifecycle.ConversionErrorStep | backend/src/services/queueService.ts:132-167 | a failure keeps the backend invariant and drops the head from the queue's ids |
| Lifecycle.DownloadableIsFinished | backend/src/routes/download.ts:11-19 | a downloadable job is found in the registry, never in the queue |
| Lifecycle.FirstIndexSameIds | backend/src/services/queueService.ts:193 | the search depends only on the ids, in order |
| Lifecycle.RemoveKeepsRegistry | backend/src/services/queueService.ts:197-203 | removing one entry keeps the registry's shape and order |
| Lifecycle.MarkKeepsRegistry | backend/src/routes/download.ts:22-27 | marking a registry entry failed keeps the registry's shape, order and ids |
| Lifecycle.DeliverKeepsRegistry | backend/src/routes/download.ts:38-48 | removing a delivered job keeps the shape and only forgets ids |
| Lifecycle.DownloadPreserves | backend/src/routes/download.ts:8-51 | every download outcome keeps the shape, leaves the queue alone and adds no id |
| Lifecycle.DownloadSucceedsOnce | backend/src/routes/download.ts:38-48 | right after a delivered download the backend holds the id nowhere, so the job is not found and a request for it gets 404 |
| Lifecycle.MissingOutputStaysDiscoverable | backend/src/routes/download.ts:22-27 | a job whose file vanished stays findable as the same job, now failed, and the next request gets 400 rather than 404 |
| Lifecycle.NextPreservesInv | backend/src/services/queueService.ts:71-174 | every admissible step keeps the invariant, and the queue's ids change exactly as the FIFO reference `QueueIdsAfter` says: a finished upload joins at the tail, a finished conversion leaves from the head, nothing else moves |
| Lifecycle.NextIssues | backend/src/routes/upload.ts:14-23 | an id is handed out only by an upload with a file, and no step but an upload brings an id into the backend |
| Lifecycle.StepIsOk | backend/src/services/queueService.ts:71-174 | every admissible step keeps the invariant, moves queue ids first-in first-out, and hands out or brings in ids only on upload |
| Lifecycle.RunPreservesInv | backend/src/services/queueService.ts:71-174 | every state reached by admissible steps satisfies the invariant |
| Lifecycle.NextKeepsGone | backend/src/routes/upload.ts:14 | an id handed out and no longer held stays so after any admissible step, because it is never handed out again |
| Lifecycle.GoneStaysGone | backend/src/routes/upload.ts:14 | an id handed out and no longer held stays so after any admissible run |
| Lifecycle.NotHeldIsNotFound | backend/src/routes/download.ts:11-15 | an id the backend does not hold is not found, and its download is answered 404 |
| Lifecycle.LeftForGood | backend/src/services/queueService.ts:192-194 | a job that leaves the backend in some step is never found again, and every later download of it gets 404, after any run of events |
| Lifecycle.DeliveredNeverReturns | backend/src/routes/download.ts:8-51 | after a delivered download, every later request for that id, after any run of events, gets 404 |
| Lifecycle.SweptFromRegistry | backend/src/services/queueService.ts:46-51 | a registry entry expired when a conversion finishes is no longer in the registry after that step |
| Lifecycle.EvictedIdLeaves | backend/src/services/queueService.ts:46-51 | a registry entry expired when a conversion finishes leaves the backend entirely in that step |
| Lifecycle.EvictedNeverReturns | backend/src/services/queueService.ts:46-68 | a job evicted by the retention sweep is never found again, and every later download of it gets 404, after any run of events |
| Lifecycle.PositionShape | backend/src/services/queueService.ts:72-97 | the status of a job is fixed by where it is: uploading, the processing head, waiting, or finished |
| Lifecycle.AtMostOneProcessing | backend/src/services/queueService.ts:72-97 | at most one job is `processing`: the queue head, while the flag is raised |
| Lifecycle.CompletionTimeMarksRegistry | backend/src/services/queueService.ts:144-150 | a job has a completion time exactly when it is in the registry |
| Lifecycle.ExactlyOnePlace | backend/src/services/queueService.ts:22-23 | a known id is held by exactly one job in exactly one place |
| Lifecycle.FinishedUploadQueuedOnce | backend/src/routes/upload.ts:32-43 | a finished upload is in the queue exactly once, at the tail, and no longer among the uploads or in the registry |
| Lifecycle.StepFlows | backend/src/services/queueService.ts:143-152 | in one step ids only flow forward: into uploads from outside, into the queue from uploads, into the registry from the queue |
| Lifecycle.TickFlows | backend/src/routes/upload.ts:27-46 | a tick moves ids only from the uploads to the queue |
| Lifecycle.ConvertedFlows | backend/src/services/queueService.ts:143-152 | a finish moves at most the head's id, from the queue to the registry |
| Lifecycle.NoStepBackward | backend/src/services/queueService.ts:143-152 | statuses never move backward: a finished job never returns to the queue or to uploading, and a queued job never returns to uploading |
| Lifecycle.UploadingJobIsNotShown | backend/src/routes/upload.ts:27-31 | the snapshot a non-finishing tick broadcasts does not list the uploading job |
| Lifecycle.SnapshotOmits | backend/src/services/queueService.ts:27-43 | a snapshot lists no job whose id is in neither list |
| Trimming.ResetTrimState | frontend/src/hooks/useTrimming.ts:12-16 | reset sets duration, start and end to 0 |
| Trimming.HandleMetadataLoaded | frontend/src/hooks/useTrimming.ts:19-34 | no video element: nothing changes; otherwise duration := d, end := d exactly when it was 0 or beyond d, start := 0 exactly when it was not before d |
| Trimming.HandleStartTimeChange | frontend/src/hooks/useTrimming.ts:37-49 | a start in `[0, end]` is stored; above the end, the end is stored; below 0 and not above the end, 0 is stored; NaN changes nothing |
| Trimming.HandleEndTimeChange | frontend/src/hooks/useTrimming.ts:51-63 | an end in `[start, duration]` is stored; below the start, the start is stored; above the duration and not below the start, the duration is stored; NaN changes nothing |
| Trimming.StartIsClamped | frontend/src/hooks/useTrimming.ts:40-46 | with a non-negative end, a typed start is clamped into `[0, end]` |
| Trimming.EndIsClamped | frontend/src/hooks/useTrimming.ts:54-60 | with start not beyond duration, a typed end is clamped into `[start, duration]` |
| Trimming.HandlersKeepWindowValid | frontend/src/hooks/useTrimming.ts:12-63 | every handler keeps `0 <= start <= end <= duration`, given a non-negative video duration |

## Left out

- **Running ffmpeg.** The command, its codec and bitrate settings, and the
  promise around it are not modelled. The engine's outcome arrives as
  `OnProgress`, `OnConverted` or `OnConversionError`, and a progress report's
  percent is a parameter.
- **The WebSocket server and its client set.** A broadcast is an entry
  appended to the event log. The `ws` field of the job record is omitted.
- **Timers.** `setInterval` becomes the `Tick` step. The 500 ms period and
  the interleaving of ticks with other events are not modelled: any
  interleaving is a sequence of `Lifecycle.Action`s.
- **The two clock reads of the `finally` block** (`completedAt` and the
  sweep's `now`) are merged into one `now` per finish.
- **Asynchronous `unlink`.** It is modelled as immediate removal from
  `files`. A failed deletion is not modelled.
- **Logging.** No `console.log`, `console.warn` or `console.error` call is
  modelled. Examples are the warning for a discarded queue head
  (backend/src/services/queueService.ts:88), the warnings about trim bounds
  (backend/src/converter.ts:47, 51) and the messages around
  `unlink`. None of them changes state or a reply.
- **Upload storage.** How the upload middleware writes to disk is outside
  the model. Its result arrives as `UploadedFile`, and its path is added to
  `files` when the handler runs. A failed write is not modelled.
- **Other file removals.** The `Lost` action removes any file at any time.
  It stands for a deletion by an operator or another process; no other
  writer is modelled.
- **Download timing.** The download is modelled as one atomic step.
  `res.download` runs asynchronously, so in the code other events can happen
  between the checks and the completion callback. That window is not
  modelled. The send's outcome, including `res.headersSent`, is a parameter.
  As a consequence, two requests that both pass the checks before the
  first send completes can both deliver the file.
  `Lifecycle.DownloadSucceedsOnce` and `Lifecycle.DeliveredNeverReturns`
  cover only requests that start after the delivery has completed.
- **Output directory.** The input's base name (`path.basename` minus the
  extension) and the `path.join` with the output directory are not
  modelled. `OutputFileName` takes the base as a parameter.
- **Trailing separators.** `Basename` does not strip a trailing '/' as
  `path.basename` does. Output paths never end in '/'.
- **Number formatting.** `toFixed(2)` and the `.`-to-`_` replacement are the
  uninterpreted `format` parameter.
- **Infinite numbers.** `parseFloat` can yield ±Infinity, but `JsNumber`
  has only NaN and finite values.
- Trimming.HandleMetadataLoaded: the video's duration is a finite `real`
  (`None` stands for a missing video element). The element's `duration`
  can also be NaN (no media yet) or +Infinity (a live stream), and those
  values are not modelled.
- **Floating-point rounding.** Arithmetic on trim bounds and trim times is
  exact `real` arithmetic.
- **The `!job` guard** in the worker is omitted. It cannot fire, because
  the queue is checked to be non-empty just before.
- **Events while no conversion runs.** `OnProgress`, `OnConverted` and
  `OnConversionError` require a running conversion, because ffmpeg reports
  only while the worker awaits it.
- Lifecycle.NextPreservesInv: assumes ids never handed out before, a
  non-empty output path and a clock that does not run backwards, because
  these are what uuid, the ffmpeg wrapper and the system clock provide.
- **The Python/FastAPI and Redis backend** is a separate, divergent
  implementation and is not part of this model.
- **Out-of-scope code.** The front end other than the trim-window hook, the
  status route (which only forwards `getQueueStatus`) and the server wiring
  are not part of this model.
