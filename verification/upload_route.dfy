/** The upload endpoint: creating a job for an uploaded file, the simulated
    upload progress driven by an interval timer, and the hand-over of the
    finished upload to the queue.

    A running timer is a `Ticker`; each firing of the timer is one `Tick`.
    The uploading job lives only in its ticker until the upload finishes, so
    it is in neither the queue nor the registry while it uploads. */
module UploadRoute {
  import opened Common
  import opened Converter
  import opened QueueService

  /** A text field of the multipart request: its raw text and the value
      `parseFloat` reads from it. */
  datatype FormField = FormField(text: string, parsed: JsNumber)

  /** The file the upload middleware stored. */
  datatype UploadedFile = UploadedFile(path: Path, originalname: string)

  datatype UploadRequest = UploadRequest(
    file: Option<UploadedFile>, startTime: Option<FormField>, endTime: Option<FormField>)

  datatype UploadReply = Rejected(code: int, message: string) | Accepted(code: int, jobId: string)

  /** A running upload timer: the job it fills in, its progress counter and
      the request's trim fields, read when the upload finishes. */
  datatype Ticker = Ticker(job: Job, progress: int, startTime: Option<FormField>, endTime: Option<FormField>)

  /** The whole backend: the queue service, the running upload timers, and
      every job id handed out so far (a uuid is never handed out twice). */
  datatype Backend = Backend(svc: QueueState, uploads: seq<Ticker>, issued: set<string>)

  const NoFileMessage: string := "No file uploaded"

  /** The POST route up to its response. The upload middleware has stored
      the file, if there is one, before the handler runs. A request without
      a file is refused and creates nothing; otherwise a new id is handed
      out, a new job is created and its timer started, and 202 with the job
      id is answered at once, before any tick and before the job is queued. */
  function PostUpload(b: Backend, req: UploadRequest, jobId: string): (r: (Backend, UploadReply))
    ensures req.file.None? ==> r == (b, Rejected(400, NoFileMessage))
    ensures req.file.Some? ==>
      && r.1 == Accepted(202, jobId)
      && r.0.svc == b.svc.(files := b.svc.files + {req.file.value.path})
      && r.0.issued == b.issued + {jobId}
      && |r.0.uploads| == |b.uploads| + 1 && r.0.uploads[..|b.uploads|] == b.uploads
      && var t := r.0.uploads[|b.uploads|];
         && t.progress == 0 && t.startTime == req.startTime && t.endTime == req.endTime
         && t.job.id == jobId
         && t.job.originalPath == req.file.value.path
         && t.job.originalFilename == req.file.value.originalname
         && t.job.status == Uploading
         && t.job.uploadProgress == Some(0) && t.job.conversionProgress == Some(0.0)
         && t.job.options == NoOptions
         && t.job.mp3Path.None? && t.job.error.None? && t.job.completedAt.None?
  {
    match req.file
    case None => (b, Rejected(400, NoFileMessage))
    case Some(f) =>
      var job := Job(jobId, f.path, f.originalname, NoOptions, Uploading, None, None, None, Some(0), Some(0.0));
      var t := Ticker(job, 0, req.startTime, req.endTime);
      (b.(svc := b.svc.(files := b.svc.files + {f.path}), uploads := b.uploads + [t], issued := b.issued + {jobId}),
       Accepted(202, jobId))
  }

  /** One step of the simulated upload counter: 10 more, capped at 100. */
  function NextProgress(p: int): (q: int)
    ensures q <= 100
    ensures p <= 100 ==> p <= q
    ensures p <= 90 ==> q == p + 10
    ensures p >= 90 ==> q == 100
  {
    if p + 10 > 100 then 100 else p + 10
  }

  /** The counter after `n` ticks. */
  function Ticks(p: int, n: nat): int
    decreases n
  {
    if n == 0 then p else Ticks(NextProgress(p), n - 1)
  }

  lemma {:induction false} TicksAdvanceByTen(p: int, n: nat)
    requires 0 <= p && p + 10 * n <= 100
    ensures Ticks(p, n) == p + 10 * n
    decreases n
  {
    if n > 0 {
      TicksAdvanceByTen(p + 10, n - 1);
    }
  }

  /** From 0, the counter reads 10 per tick, stays below 100 for the first
      nine ticks, and reaches 100 exactly on the tenth: the tick numbered
      `n + 1` finishes the upload exactly when `n == 9`. */
  lemma TenthTickFinishes(n: nat)
    requires n < 10
    ensures Ticks(0, n) == 10 * n && Ticks(0, n) < 100
    ensures NextProgress(Ticks(0, n)) >= 100 <==> n == 9
  {
    TicksAdvanceByTen(0, n);
  }

  /** A form field counts when it is present and its text is non-empty. */
  predicate Present(f: Option<FormField>) {
    f.Some? && f.value.text != ""
  }

  /** The trim options read from the request when the upload finishes: each
      bound is set from its field only when the field is present, and the
      two are not checked against each other. */
  function CaptureOptions(o: ConversionOptions, startField: Option<FormField>, endField: Option<FormField>)
    : (r: ConversionOptions)
    ensures r.startTime == if Present(startField) then Some(startField.value.parsed) else o.startTime
    ensures r.endTime == if Present(endField) then Some(endField.value.parsed) else o.endTime
  {
    var withStart := if Present(startField) then o.(startTime := Some(startField.value.parsed)) else o;
    if Present(endField) then withStart.(endTime := Some(endField.value.parsed)) else withStart
  }

  /** An inverted window is captured as it is: nothing at upload rejects
      an end time before the start time. */
  lemma InvertedWindowIsAccepted(startField: Option<FormField>, endField: Option<FormField>)
    requires Present(startField) && Present(endField)
    requires startField.value.parsed.Finite? && endField.value.parsed.Finite?
    requires endField.value.parsed.value <= startField.value.parsed.value
    ensures var o := CaptureOptions(NoOptions, startField, endField);
      && o.startTime == Some(startField.value.parsed) && o.endTime == Some(endField.value.parsed)
      && PlanTrim(o) == TrimPlan(Some(startField.value.parsed), None)
  {
  }

  /** The job as the finishing tick hands it to the queue. */
  function QueuedJob(t: Ticker, p: int): Job {
    t.job.(uploadProgress := Some(p), status := Uploaded, options := CaptureOptions(t.job.options, t.startTime, t.endTime))
  }

  /** One firing of the timer of upload `i`. The counter advances and is
      broadcast; when it reaches 100 the job becomes `uploaded`, its trim
      options are read, the timer stops and the job is queued (which may
      start it at once). */
  function Tick(b: Backend, i: nat): (r: Backend)
    requires i < |b.uploads|
    // still uploading: only this upload's counter moves
    ensures NextProgress(b.uploads[i].progress) < 100 ==>
      && r.svc.queue == b.svc.queue && r.svc.completed == b.svc.completed
      && r.svc.isProcessing == b.svc.isProcessing && r.svc.files == b.svc.files
      && |r.uploads| == |b.uploads|
      && (forall j :: 0 <= j < |b.uploads| && j != i ==> r.uploads[j] == b.uploads[j])
      && r.uploads[i].progress == NextProgress(b.uploads[i].progress)
      && r.uploads[i].job == b.uploads[i].job.(uploadProgress := Some(NextProgress(b.uploads[i].progress)))
    // finished: the timer is gone and the job has been submitted, once
    ensures NextProgress(b.uploads[i].progress) >= 100 ==>
      && r.uploads == b.uploads[..i] + b.uploads[i + 1..]
      && var ready := QueuedJob(b.uploads[i], 100);
         && r.svc.queue == AddJobToQueue(b.svc, ready).queue
         && r.svc.isProcessing == AddJobToQueue(b.svc, ready).isProcessing
         && r.svc.completed == b.svc.completed && r.svc.files == b.svc.files
    ensures b.svc.events < r.svc.events && r.issued == b.issued
  {
    var t := b.uploads[i];
    var p := NextProgress(t.progress);
    var job := t.job.(uploadProgress := Some(p));
    var svc1 := BroadcastQueueStatus(b.svc);
    if p >= 100 then
      // the job is not in the queue yet, so this broadcast does not show it
      var svc2 := BroadcastQueueStatus(svc1);
      var ready := job.(status := Uploaded, options := CaptureOptions(job.options, t.startTime, t.endTime));
      var svc3 := AddJobToQueue(svc2, ready);
      ProcessQueueIgnoresLog(b.svc.(queue := b.svc.queue + [ready]), svc2.(queue := svc2.queue + [ready]));
      b.(svc := BroadcastQueueStatus(svc3), uploads := b.uploads[..i] + b.uploads[i + 1..])
    else
      b.(svc := svc1, uploads := b.uploads[i := t.(job := job, progress := p)])
  }

  /** What the worker does to the queue does not depend on the event log. */
  lemma ProcessQueueIgnoresLog(s: QueueState, t: QueueState)
    requires s.queue == t.queue && s.isProcessing == t.isProcessing && s.completed == t.completed
    requires s.files == t.files
    ensures ProcessQueue(s).queue == ProcessQueue(t).queue
    ensures ProcessQueue(s).isProcessing == ProcessQueue(t).isProcessing
  {
  }
}
