/** The in-memory job queue and completed-job registry of the backend.

    The whole service state is one immutable value: the pending queue, the
    completed registry, the re-entrancy flag of the worker, the set of paths
    that exist on disk, and the log of every message broadcast to observers.
    Each operation is a pure function from state to state. The awaited
    conversion splits the worker into separate events: `ProcessQueue` runs up
    to the moment the engine is started, `OnProgress` relays one progress
    report, and `OnConverted` / `OnConversionError` run the rest of the
    worker once the engine has finished. */
module QueueService {
  import opened Common
  import opened Converter

  datatype Status = Uploading | Uploaded | Processing | Complete | Error

  /** One conversion job. Optional fields are `None` while unset. */
  datatype Job = Job(
    id: string,
    originalPath: Path,
    originalFilename: string,
    options: ConversionOptions,
    status: Status,
    mp3Path: Option<Path>,
    error: Option<string>,
    completedAt: Option<int>,
    uploadProgress: Option<int>,
    conversionProgress: Option<real>)

  /** One line of a `queue_update` broadcast. */
  datatype StatusEntry = StatusEntry(
    id: string, filename: string, status: Status, uploadProgress: int, conversionProgress: real)

  /** One line of the polled queue status. */
  datatype StatusLine = StatusLine(id: string, filename: string, status: Status)

  /** A message broadcast to every connected observer. */
  datatype Event =
    | QueueUpdate(queue: seq<StatusEntry>)
    | JobComplete(jobId: string, filename: string, mp3Filename: string)
    | JobError(jobId: string, filename: string, error: string)

  datatype QueueState = QueueState(
    queue: seq<Job>,
    completed: seq<Job>,
    isProcessing: bool,
    files: set<Path>,
    events: seq<Event>)

  /** How long a finished job is kept, in milliseconds (10 minutes). */
  const RetentionPeriod: int := 10 * 60 * 1000

  const UnknownConversionError: string := "Unknown conversion error"

  // ---------------------------------------------------------------------
  // Snapshots

  function Entry(j: Job): (e: StatusEntry)
    ensures e.id == j.id && e.filename == j.originalFilename && e.status == j.status
    // a missing progress value is reported as 0
    ensures e.uploadProgress == (if j.uploadProgress.Some? then j.uploadProgress.value else 0)
    ensures e.conversionProgress == (if j.conversionProgress.Some? then j.conversionProgress.value else 0.0)
  {
    StatusEntry(j.id, j.originalFilename, j.status, j.uploadProgress.GetOr(0), j.conversionProgress.GetOr(0.0))
  }

  function Entries(js: seq<Job>): seq<StatusEntry> {
    if js == [] then [] else [Entry(js[0])] + Entries(js[1..])
  }

  lemma {:induction false} EntriesAt(js: seq<Job>)
    ensures |Entries(js)| == |js|
    ensures forall i :: 0 <= i < |js| ==> Entries(js)[i] == Entry(js[i])
  {
    if js != [] {
      EntriesAt(js[1..]);
      assert forall i :: 1 <= i < |js| ==> Entries(js)[i] == Entries(js[1..])[i - 1];
    }
  }

  /** The list carried by a `queue_update` message. */
  function Snapshot(s: QueueState): seq<StatusEntry> {
    Entries(s.queue) + Entries(s.completed)
  }

  /** A snapshot lists the queue entries, then the completed entries, each
      in list order. */
  lemma SnapshotLists(s: QueueState)
    ensures |Snapshot(s)| == |s.queue| + |s.completed|
    ensures forall i :: 0 <= i < |s.queue| ==> Snapshot(s)[i] == Entry(s.queue[i])
    ensures forall i :: 0 <= i < |s.completed| ==> Snapshot(s)[|s.queue| + i] == Entry(s.completed[i])
  {
    EntriesAt(s.queue);
    EntriesAt(s.completed);
  }

  function Broadcast(s: QueueState, e: Event): QueueState {
    s.(events := s.events + [e])
  }

  function BroadcastQueueStatus(s: QueueState): QueueState {
    Broadcast(s, QueueUpdate(Snapshot(s)))
  }

  function Line(j: Job): StatusLine {
    StatusLine(j.id, j.originalFilename, j.status)
  }

  function Lines(js: seq<Job>): (r: seq<StatusLine>)
    ensures |r| == |js|
    ensures forall i :: 0 <= i < |js| ==> r[i] == Line(js[i])
  {
    if js == [] then [] else [Line(js[0])] + Lines(js[1..])
  }

  /** The polled status: the same jobs as a broadcast, without progress. */
  function GetQueueStatus(s: QueueState): (r: seq<StatusLine>)
    ensures |r| == |s.queue| + |s.completed|
    ensures forall i :: 0 <= i < |s.queue| ==> r[i] == Line(s.queue[i])
    ensures forall i :: 0 <= i < |s.completed| ==> r[|s.queue| + i] == Line(s.completed[i])
  {
    Lines(s.queue) + Lines(s.completed)
  }

  function Summary(e: StatusEntry): StatusLine {
    StatusLine(e.id, e.filename, e.status)
  }

  /** Push and poll observers never disagree: the polled status is the
      broadcast snapshot of the same state with the progress columns dropped. */
  lemma PollAgreesWithBroadcast(s: QueueState)
    ensures |GetQueueStatus(s)| == |Snapshot(s)|
    ensures forall i :: 0 <= i < |Snapshot(s)| ==> GetQueueStatus(s)[i] == Summary(Snapshot(s)[i])
  {
    var p, b := GetQueueStatus(s), Snapshot(s);
    SnapshotLists(s);
    forall i | 0 <= i < |b|
      ensures p[i] == Summary(b[i])
    {
      if i < |s.queue| {
        assert p[i] == Line(s.queue[i]);
        assert b[i] == Entry(s.queue[i]);
      } else {
        var j := i - |s.queue|;
        assert p[|s.queue| + j] == Line(s.completed[j]);
        assert b[|s.queue| + j] == Entry(s.completed[j]);
      }
    }
  }

  // ---------------------------------------------------------------------
  // Lookup and removal

  /** Index of the first job with the given id, as `findIndex` finds it. */
  function FirstIndex(js: seq<Job>, id: string): (r: Option<nat>)
    ensures r.Some? ==> r.value < |js| && js[r.value].id == id
    ensures r.Some? ==> forall k :: 0 <= k < r.value ==> js[k].id != id
    ensures r.None? ==> forall k :: 0 <= k < |js| ==> js[k].id != id
  {
    if js == [] then None
    else if js[0].id == id then Some(0)
    else match FirstIndex(js[1..], id)
      case None => None
      case Some(k) => Some(k + 1)
  }

  /** Searching a concatenation finds the first match of the first part if
      there is one, and otherwise the first match of the second part. */
  lemma {:induction false} FirstIndexConcat(a: seq<Job>, b: seq<Job>, id: string)
    ensures FirstIndex(a + b, id) ==
      match FirstIndex(a, id)
      case Some(i) => Some(i)
      case None => match FirstIndex(b, id) case Some(j) => Some(|a| + j) case None => None
    decreases |a|
  {
    if a == [] {
      assert a + b == b;
    } else {
      assert (a + b)[1..] == a[1..] + b;
      if a[0].id != id {
        FirstIndexConcat(a[1..], b, id);
      }
    }
  }

  /** Position of the job `getJobById` finds, counted over the queue followed
      by the completed list. */
  function Locate(s: QueueState, id: string): Option<nat> {
    FirstIndex(s.queue + s.completed, id)
  }

  function JobAt(s: QueueState, i: nat): Job
    requires i < |s.queue| + |s.completed|
  {
    (s.queue + s.completed)[i]
  }

  /** The job with the given id: the first match in the queue, or failing
      that the first match in the completed list. */
  function GetJobById(s: QueueState, id: string): (r: Option<Job>)
    ensures r == match FirstIndex(s.queue, id)
      case Some(i) => Some(s.queue[i])
      case None => match FirstIndex(s.completed, id)
        case Some(j) => Some(s.completed[j])
        case None => None
    ensures r.Some? ==> r.value.id == id
  {
    FirstIndexConcat(s.queue, s.completed, id);
    match Locate(s, id)
    case Some(i) => Some(JobAt(s, i))
    case None => None
  }

  /** Removes the first completed job with the given id and broadcasts;
      does nothing at all (no broadcast either) when there is none. */
  function RemoveJobFromCompleted(s: QueueState, id: string): (r: QueueState)
    ensures FirstIndex(s.completed, id).None? ==> r == s
    ensures FirstIndex(s.completed, id).Some? ==>
      var i := FirstIndex(s.completed, id).value;
      && r.completed == s.completed[..i] + s.completed[i + 1..]
      && r.queue == s.queue && r.isProcessing == s.isProcessing && r.files == s.files
      && r.events == s.events + [QueueUpdate(Snapshot(r))]
  {
    match FirstIndex(s.completed, id)
    case None => s
    case Some(i) => BroadcastQueueStatus(s.(completed := s.completed[..i] + s.completed[i + 1..]))
  }

  // ---------------------------------------------------------------------
  // Retention sweep

  /** A finished job is expired once more than the retention period has
      passed since it finished; a missing timestamp counts as 0. */
  predicate Expired(j: Job, now: int) {
    now - j.completedAt.GetOr(0) > RetentionPeriod
  }

  /** How many entries at the front of the registry the sweep evicts: the
      length of the longest expired prefix. */
  function EvictCount(c: seq<Job>, now: int): (k: nat)
    ensures k <= |c|
    ensures forall i :: 0 <= i < k ==> Expired(c[i], now)
    ensures k < |c| ==> !Expired(c[k], now)
  {
    if |c| > 0 && Expired(c[0], now) then 1 + EvictCount(c[1..], now) else 0
  }

  /** The files the sweep deletes for one evicted job: its output file, and
      for a failed job also its original upload. */
  function Releasable(j: Job): set<Path> {
    (if Truthy(j.mp3Path) then {j.mp3Path.value} else {})
    + (if j.status == Error && j.originalPath != "" then {j.originalPath} else {})
  }

  function ReleasedBy(js: seq<Job>): (r: set<Path>)
    ensures forall i :: 0 <= i < |js| ==> Releasable(js[i]) <= r
    // and nothing else
    ensures forall p :: p in r ==> exists i :: 0 <= i < |js| && p in Releasable(js[i])
  {
    if js == [] then {} else Releasable(js[0]) + ReleasedBy(js[1..])
  }

  lemma {:induction false} ReleasedByCons(j: Job, js: seq<Job>)
    ensures ReleasedBy([j] + js) == Releasable(j) + ReleasedBy(js)
  {
  }

  /** Evicting an expired front entry, then the rest. */
  lemma SweepStep(c: seq<Job>, now: int)
    requires |c| > 0 && Expired(c[0], now)
    ensures var k := EvictCount(c[1..], now);
      && EvictCount(c, now) == k + 1
      && c[k + 1..] == c[1..][k..]
      && ReleasedBy(c[..k + 1]) == Releasable(c[0]) + ReleasedBy(c[1..][..k])
  {
    var k := EvictCount(c[1..], now);
    assert c[..k + 1] == [c[0]] + c[1..][..k];
    ReleasedByCons(c[0], c[1..][..k]);
  }

  /** The sweep run after every finished job: evicts from the front of the
      registry while the front entry is expired, deleting its files (a path
      that does not exist is left alone, which on a set is the same thing). */
  function CleanupCompletedJobs(s: QueueState, now: int): (r: QueueState)
    ensures var k := EvictCount(s.completed, now);
      && r.completed == s.completed[k..]
      && r.files == s.files - ReleasedBy(s.completed[..k])
    ensures r.queue == s.queue && r.isProcessing == s.isProcessing && r.events == s.events
    decreases |s.completed|
  {
    if |s.completed| > 0 && Expired(s.completed[0], now) then
      var c := s.completed;
      SweepStep(c, now);
      CleanupCompletedJobs(s.(completed := c[1..], files := s.files - Releasable(c[0])), now)
    else s
  }

  // ---------------------------------------------------------------------
  // Submission and the worker

  /** Number of entries at the front of the queue whose status is not
      `uploaded`: the anomalous heads the worker discards. */
  function LeadingAnomalies(q: seq<Job>): (k: nat)
    ensures k <= |q|
    ensures forall i :: 0 <= i < k ==> q[i].status != Uploaded
    ensures k < |q| ==> q[k].status == Uploaded
  {
    if q == [] || q[0].status == Uploaded then 0 else 1 + LeadingAnomalies(q[1..])
  }

  /** The worker step up to the awaited conversion: does nothing while a job
      is active or the queue is empty; discards (without broadcasting) every
      head that is not `uploaded`; marks the first `uploaded` head as
      `processing`, raises the flag and broadcasts. */
  function ProcessQueue(s: QueueState): (r: QueueState)
    ensures s.isProcessing ==> r == s
    ensures r.completed == s.completed && r.files == s.files
    // the event log is only ever appended to
    ensures s.events <= r.events
    ensures !s.isProcessing ==>
      var k := LeadingAnomalies(s.queue);
      && (k == |s.queue| ==> r == s.(queue := []))
      && (k < |s.queue| ==>
            && r.isProcessing
            && r.queue == [s.queue[k].(status := Processing)] + s.queue[k + 1..]
            && r.events == s.events + [QueueUpdate(Snapshot(r))])
    decreases |s.queue|
  {
    if s.isProcessing || |s.queue| == 0 then s
    else if s.queue[0].status != Uploaded then
      // the flag is raised and lowered again around the discard
      var r := ProcessQueue(s.(queue := s.queue[1..]));
      ghost var k := LeadingAnomalies(s.queue[1..]);
      assert k < |s.queue| - 1 ==> s.queue[1..][k + 1..] == s.queue[k + 2..];
      r
    else
      BroadcastQueueStatus(s.(queue := [s.queue[0].(status := Processing)] + s.queue[1..], isProcessing := true))
  }

  /** `addJobToQueue`: appends the job and triggers the worker. */
  function AddJobToQueue(s: QueueState, job: Job): (r: QueueState)
    ensures r.completed == s.completed && r.files == s.files && s.events <= r.events
    // while a job is active, the submission is only appended
    ensures s.isProcessing ==> r == s.(queue := s.queue + [job])
    // a waiting job ends up at the tail, whether or not the worker starts
    ensures job.status == Uploaded ==> |r.queue| > 0 && r.queue[|r.queue| - 1].id == job.id
  {
    var q := s.queue + [job];
    // the worker stops at the latest at the new job, which is waiting
    assert job.status == Uploaded ==> q[|q| - 1].status == Uploaded && LeadingAnomalies(q) < |q|;
    ProcessQueue(s.(queue := q))
  }

  /** The engine is running for the job at the head of the queue. */
  predicate Converting(s: QueueState) {
    s.isProcessing && |s.queue| > 0
  }

  /** One ffmpeg progress report: forwarded (only when truthy) to the
      handler, which records it on the active job and broadcasts. */
  function OnProgress(s: QueueState, percent: Option<JsNumber>): (r: QueueState)
    requires Converting(s)
    ensures ForwardedPercent(true, percent).None? ==> r == s
    ensures ForwardedPercent(true, percent).Some? ==>
      && |r.queue| == |s.queue|
      && r.queue[0] == s.queue[0].(conversionProgress := Some(percent.value.value))
      && (forall i :: 1 <= i < |s.queue| ==> r.queue[i] == s.queue[i])
      && r.completed == s.completed && r.isProcessing && r.files == s.files
      && r.events == s.events + [QueueUpdate(Snapshot(r))]
  {
    match ForwardedPercent(true, percent)
    case None => s
    case Some(p) => BroadcastQueueStatus(s.(queue := s.queue[0 := s.queue[0].(conversionProgress := Some(p))]))
  }

  /** The job after the engine has finished with it, as the `finally` block
      appends it to the registry, if it does. */
  function Finished(j: Job, now: int): Job {
    j.(completedAt := Some(now))
  }

  /** Whether the `finally` block moves the finished head into the registry:
      a complete job with a (truthy) output path, or a failed job. */
  predicate Retained(j: Job) {
    (j.status == Complete && Truthy(j.mp3Path)) || j.status == Error
  }

  /** The first half of the `finally` block: shifts the head off the queue,
      appends it to the registry with `completedAt = now` when it is
      retained, lowers the flag and broadcasts. */
  function Retire(s: QueueState, now: int): (r: QueueState)
    requires |s.queue| > 0
    ensures r.queue == s.queue[1..] && !r.isProcessing && r.files == s.files
    ensures Retained(s.queue[0]) ==> r.completed == s.completed + [Finished(s.queue[0], now)]
    ensures !Retained(s.queue[0]) ==> r.completed == s.completed
    // one snapshot, already without the head
    ensures r.events == s.events + [QueueUpdate(Snapshot(r))]
  {
    var c := if Retained(s.queue[0]) then s.completed + [Finished(s.queue[0], now)] else s.completed;
    BroadcastQueueStatus(s.(queue := s.queue[1..], completed := c, isProcessing := false))
  }

  /** The `finally` block of the worker: retires the head, sweeps the
      registry, and triggers the worker again when jobs are waiting. The
      registry is what the sweep leaves of it with the retained head
      appended; what happens to the queue is `FinishJobAdvancesQueue`. */
  function FinishJob(s: QueueState, now: int): (r: QueueState)
    requires |s.queue| > 0
    ensures var c := if Retained(s.queue[0]) then s.completed + [Finished(s.queue[0], now)] else s.completed;
      var k := EvictCount(c, now);
      && r.completed == c[k..]
      && r.files == s.files - ReleasedBy(c[..k])
    ensures s.events < r.events
  {
    var s1 := Retire(s, now);
    var s2 := CleanupCompletedJobs(s1, now);
    if |s2.queue| > 0 then ProcessQueue(s2) else s2
  }

  /** The job just finished is never swept: when retained it is the newest
      registry entry. */
  lemma FinishJobKeepsNewest(s: QueueState, now: int)
    requires |s.queue| > 0 && Retained(s.queue[0])
    ensures var r := FinishJob(s, now);
      |r.completed| > 0 && r.completed[|r.completed| - 1] == Finished(s.queue[0], now)
  {
    var c := s.completed + [Finished(s.queue[0], now)];
    assert !Expired(c[|c| - 1], now);
    assert EvictCount(c, now) < |c|;
  }

  /** After a job finishes the worker moves on to the next waiting job,
      skipping anomalous heads, and is idle when there is none. */
  lemma FinishJobAdvancesQueue(s: QueueState, now: int)
    requires |s.queue| > 0
    ensures var r := FinishJob(s, now);
      var q := s.queue[1..]; var k := LeadingAnomalies(q);
      && (k == |q| ==> r.queue == [] && !r.isProcessing)
      && (k < |q| ==> r.isProcessing && r.queue == [q[k].(status := Processing)] + q[k + 1..])
  {
    var s2 := CleanupCompletedJobs(Retire(s, now), now);
    assert s2.queue == s.queue[1..] && !s2.isProcessing;
  }

  /** The success path of the worker before its `finally` block: the head
      is marked complete with its output path, the state is broadcast,
      `job_complete` is sent and the original upload is deleted. */
  function ReportSuccess(s: QueueState, mp3Path: Path): (r: QueueState)
    requires Converting(s)
    ensures r.queue == s.queue[0 := s.queue[0].(status := Complete, mp3Path := Some(mp3Path))]
    ensures r.completed == s.completed && r.isProcessing
    ensures r.files == s.files - {s.queue[0].originalPath}
    ensures |r.events| == |s.events| + 2 && s.events <= r.events
    // the snapshot shows the job complete while it is still in the queue
    ensures r.events[|s.events|] == QueueUpdate(Snapshot(s.(queue := r.queue)))
    ensures r.events[|s.events| + 1] == JobComplete(s.queue[0].id, s.queue[0].originalFilename, Basename(mp3Path))
  {
    var job := s.queue[0].(status := Complete, mp3Path := Some(mp3Path));
    var s1 := BroadcastQueueStatus(s.(queue := s.queue[0 := job]));
    var e := JobComplete(job.id, job.originalFilename, Basename(mp3Path));
    Broadcast(s1, e).(files := s1.files - {job.originalPath})
  }

  /** The engine finished successfully with the given output path. */
  function OnConverted(s: QueueState, mp3Path: Path, now: int): (r: QueueState)
    requires Converting(s)
    // the original upload is deleted
    ensures s.queue[0].originalPath !in r.files
    // the job reaches the registry, complete, and is its newest entry
    ensures mp3Path != "" ==>
      |r.completed| > 0
      && r.completed[|r.completed| - 1]
         == Finished(s.queue[0].(status := Complete, mp3Path := Some(mp3Path)), now)
    // the rest of the registry is what the sweep leaves of it
    ensures mp3Path != "" ==>
      var c := s.completed + [Finished(s.queue[0].(status := Complete, mp3Path := Some(mp3Path)), now)];
      r.completed == c[EvictCount(c, now)..]
    // queue_update, then job_complete, then at least the queue_update after the move
    ensures |r.events| >= |s.events| + 3 && s.events <= r.events
    ensures r.events[|s.events|]
         == QueueUpdate(Snapshot(s.(queue := s.queue[0 := s.queue[0].(status := Complete, mp3Path := Some(mp3Path))])))
    ensures r.events[|s.events| + 1]
         == JobComplete(s.queue[0].id, s.queue[0].originalFilename, Basename(mp3Path))
  {
    var s1 := ReportSuccess(s, mp3Path);
    if mp3Path != "" then FinishJobKeepsNewest(s1, now); FinishJob(s1, now) else FinishJob(s1, now)
  }

  /** The message recorded for a failed conversion. */
  function ErrorMessage(message: string): (m: string)
    ensures m != ""
    ensures message != "" ==> m == message
    ensures message == "" ==> m == UnknownConversionError
  {
    if message != "" then message else UnknownConversionError
  }

  /** The failure path of the worker before its `finally` block: the head
      is marked failed with the message, the state is broadcast and
      `job_error` is sent. */
  function ReportFailure(s: QueueState, message: string): (r: QueueState)
    requires Converting(s)
    ensures r.queue == s.queue[0 := s.queue[0].(status := Error, error := Some(ErrorMessage(message)))]
    ensures r.completed == s.completed && r.isProcessing && r.files == s.files
    ensures |r.events| == |s.events| + 2 && s.events <= r.events
    // the snapshot shows the job failed while it is still in the queue
    ensures r.events[|s.events|] == QueueUpdate(Snapshot(s.(queue := r.queue)))
    ensures r.events[|s.events| + 1] == JobError(s.queue[0].id, s.queue[0].originalFilename, ErrorMessage(message))
  {
    var msg := ErrorMessage(message);
    var job := s.queue[0].(status := Error, error := Some(msg));
    var s1 := BroadcastQueueStatus(s.(queue := s.queue[0 := job]));
    Broadcast(s1, JobError(job.id, job.originalFilename, msg))
  }

  /** The engine failed with the given message (`""` when it had none). */
  function OnConversionError(s: QueueState, message: string, now: int): (r: QueueState)
    requires Converting(s)
    // the job reaches the registry as failed and is its newest entry
    ensures |r.completed| > 0
    ensures r.completed[|r.completed| - 1]
         == Finished(s.queue[0].(status := Error, error := Some(ErrorMessage(message))), now)
    // the rest of the registry is what the sweep leaves of it
    ensures var c := s.completed + [Finished(s.queue[0].(status := Error, error := Some(ErrorMessage(message))), now)];
      r.completed == c[EvictCount(c, now)..]
    // queue_update, then job_error, then at least the queue_update after the move
    ensures |r.events| >= |s.events| + 3 && s.events <= r.events
    ensures r.events[|s.events|]
         == QueueUpdate(Snapshot(s.(queue := s.queue[0 := s.queue[0].(status := Error, error := Some(ErrorMessage(message)))])))
    ensures r.events[|s.events| + 1]
         == JobError(s.queue[0].id, s.queue[0].originalFilename, ErrorMessage(message))
  {
    var s1 := ReportFailure(s, message);
    FinishJobKeepsNewest(s1, now);
    FinishJob(s1, now)
  }
}
