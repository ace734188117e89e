/** The whole backend as a state machine: uploads in flight, the queue, the
    registry and the files, driven by requests, timer ticks and the outcome
    of each conversion. Its invariant says that every job is in exactly one
    place in a status that fits that place, and that ids are unique; every
    step keeps it, and so does every run of steps. */
module Lifecycle {
  import opened Common
  import opened Converter
  import opened QueueService
  import opened QueueInvariants
  import opened UploadRoute
  import opened DownloadRoute

  /** The jobs of the running uploads, in order. */
  function UploadJobs(ts: seq<Ticker>): (r: seq<Job>)
    ensures |r| == |ts| && forall i :: 0 <= i < |ts| ==> r[i] == ts[i].job
  {
    seq(|ts|, i requires 0 <= i < |ts| => ts[i].job)
  }

  /** Every job the backend knows of: uploading, queued, then finished. */
  function AllJobs(b: Backend): seq<Job> {
    UploadJobs(b.uploads) + b.svc.queue + b.svc.completed
  }

  function AllIds(b: Backend): multiset<string> {
    Ids(UploadJobs(b.uploads)) + Ids(b.svc.queue) + Ids(b.svc.completed)
  }

  /** A running upload: its job is `uploading`, unfinished, and shows the
      counter of its timer, which has not reached 100. */
  predicate UploadShape(t: Ticker) {
    && t.job.status == Uploading && t.job.completedAt.None?
    && 0 <= t.progress < 100 && t.job.uploadProgress == Some(t.progress)
  }

  predicate UploadsShape(u: seq<Ticker>) {
    forall i :: 0 <= i < |u| ==> UploadShape(u[i])
  }

  /** Every job the backend holds carries an id it has handed out. */
  predicate IdsIssued(b: Backend) {
    AllIds(b) <= multiset(b.issued)
  }

  ghost predicate Inv(b: Backend) {
    && ServiceInv(b.svc)
    && UploadsShape(b.uploads)
    && AtMostOnce(AllIds(b))
    && IdsIssued(b)
  }

  /** The backend as the server starts it: nothing uploading, queued or
      finished; `files` is what is on disk. */
  function Start(files: set<Path>): Backend {
    Backend(QueueState([], [], false, files, []), [], {})
  }

  lemma StartInv(files: set<Path>)
    ensures Inv(Start(files))
  {
  }

  // ---------------------------------------------------------------------
  // One step per kind of event

  /** A request with a file and an id never handed out before adds exactly
      that id. */
  lemma PostUploadPreserves(b: Backend, req: UploadRequest, jobId: string)
    requires Inv(b) && jobId !in b.issued
    ensures var r := PostUpload(b, req, jobId).0;
      && Inv(r)
      && AllIds(r) == AllIds(b) + (if req.file.Some? then multiset{jobId} else multiset{})
      && Ids(UploadJobs(r.uploads)) <= Ids(UploadJobs(b.uploads)) + multiset{jobId}
  {
    var r := PostUpload(b, req, jobId).0;
    if req.file.Some? {
      var t := r.uploads[|b.uploads|];
      var b0 := b.(svc := r.svc);
      assert r.uploads == b.uploads + [t];
      assert ServiceInv(b0.svc) && AllIds(b0) == AllIds(b);
      UploadsGrow(b0, t);
      assert r == b0.(uploads := b.uploads + [t], issued := b.issued + {jobId});
    }
  }

  /** Starting one more upload timer, for an id never handed out before. */
  lemma UploadsGrow(b: Backend, t: Ticker)
    requires Inv(b) && UploadShape(t) && t.job.id !in b.issued
    ensures var r := b.(uploads := b.uploads + [t], issued := b.issued + {t.job.id});
      && Inv(r) && AllIds(r) == AllIds(b) + multiset{t.job.id}
      && Ids(UploadJobs(r.uploads)) == Ids(UploadJobs(b.uploads)) + multiset{t.job.id}
  {
    var r := b.(uploads := b.uploads + [t], issued := b.issued + {t.job.id});
    assert UploadJobs(r.uploads) == UploadJobs(b.uploads) + [t.job];
    IdsConcat(UploadJobs(b.uploads), [t.job]);
    assert IdsOf([t.job]) == [t.job.id];
    assert AllIds(r) == AllIds(b) + multiset{t.job.id};
    IssueFresh(AllIds(b), b.issued, t.job.id);
  }

  /** Handing out an id never handed out before: the id occurs once, and
      the ids held stay among those handed out. */
  lemma IssueFresh(m: multiset<string>, issued: set<string>, x: string)
    requires AtMostOnce(m) && m <= multiset(issued) && x !in issued
    ensures AtMostOnce(m + multiset{x}) && m + multiset{x} <= multiset(issued + {x})
  {
  }

  lemma UploadJobsRemove(u: seq<Ticker>, i: nat)
    requires i < |u|
    ensures Ids(UploadJobs(u)) == Ids(UploadJobs(u[..i] + u[i + 1..])) + multiset{u[i].job.id}
  {
    var js := UploadJobs(u);
    assert UploadJobs(u[..i] + u[i + 1..]) == js[..i] + js[i + 1..];
    IdsRemove(js, i);
  }

  /** A tick keeps the invariant and the set of ids: either only the
      counter moves, or the upload turns into a queued job with the same id,
      appended at the tail of the queue. */
  lemma TickPreserves(b: Backend, i: nat)
    requires Inv(b) && i < |b.uploads|
    ensures var r := Tick(b, i);
      && Inv(r) && AllIds(r) == AllIds(b)
      && IdsOf(r.svc.queue)
         == IdsOf(b.svc.queue) + (if NextProgress(b.uploads[i].progress) >= 100 then [b.uploads[i].job.id] else [])
  {
    if NextProgress(b.uploads[i].progress) >= 100 {
      TickSubmits(b, i);
    } else {
      TickCounts(b, i);
    }
  }

  lemma TickCounts(b: Backend, i: nat)
    requires Inv(b) && i < |b.uploads| && NextProgress(b.uploads[i].progress) < 100
    ensures var r := Tick(b, i);
      && Inv(r) && AllIds(r) == AllIds(b)
      && r.svc.queue == b.svc.queue && r.svc.completed == b.svc.completed
      && Ids(UploadJobs(r.uploads)) == Ids(UploadJobs(b.uploads))
  {
    var r := Tick(b, i);
    IdsSame(UploadJobs(b.uploads), UploadJobs(r.uploads));
    assert ServiceInv(r.svc);
    assert AllIds(r) == AllIds(b);
  }

  lemma TickSubmits(b: Backend, i: nat)
    requires Inv(b) && i < |b.uploads| && NextProgress(b.uploads[i].progress) >= 100
    ensures var r := Tick(b, i);
      && Inv(r) && AllIds(r) == AllIds(b)
      && IdsOf(r.svc.queue) == IdsOf(b.svc.queue) + [b.uploads[i].job.id]
  {
    var r := Tick(b, i);
    var t := b.uploads[i];
    SubmittedQueue(b, i);
    UploadJobsRemove(b.uploads, i);
    RemainingUploads(b.uploads, i);
    assert AllIds(r) == AllIds(b);
  }

  /** The queue after the finishing tick. */
  lemma SubmittedQueue(b: Backend, i: nat)
    requires Inv(b) && i < |b.uploads| && NextProgress(b.uploads[i].progress) >= 100
    ensures var r := Tick(b, i);
      && ServiceInv(r.svc) && r.svc.completed == b.svc.completed
      && r.uploads == b.uploads[..i] + b.uploads[i + 1..]
      && IdsOf(r.svc.queue) == IdsOf(b.svc.queue) + [b.uploads[i].job.id]
      && Ids(r.svc.queue) == Ids(b.svc.queue) + multiset{b.uploads[i].job.id}
  {
  }

  /** The other timers keep their shape when one of them stops. */
  lemma RemainingUploads(u: seq<Ticker>, i: nat)
    requires i < |u| && UploadsShape(u)
    ensures UploadsShape(u[..i] + u[i + 1..])
  {
  }

  /** Unique ids survive any step that only forgets ids. */
  lemma FewerIds(m: multiset<string>, n: multiset<string>)
    requires AtMostOnce(m) && n <= m
    ensures AtMostOnce(n)
  {
  }

  lemma ProgressStep(b: Backend, percent: Option<JsNumber>)
    requires Inv(b) && Converting(b.svc)
    ensures var r := b.(svc := OnProgress(b.svc, percent));
      Inv(r) && AllIds(r) == AllIds(b) && IdsOf(r.svc.queue) == IdsOf(b.svc.queue)
  {
    ProgressPreserves(b.svc, percent);
  }

  /** A step of the service alone that keeps its shape and forgets ids
      keeps the invariant of the backend. */
  lemma ServiceStep(b: Backend, svc: QueueState)
    requires Inv(b) && ServiceInv(svc)
    requires Ids(svc.queue) + Ids(svc.completed) <= Ids(b.svc.queue) + Ids(b.svc.completed)
    ensures Inv(b.(svc := svc)) && AllIds(b.(svc := svc)) <= AllIds(b)
  {
    var r := b.(svc := svc);
    var u := Ids(UploadJobs(b.uploads));
    assert AllIds(r) == u + (Ids(svc.queue) + Ids(svc.completed));
    assert AllIds(b) == u + (Ids(b.svc.queue) + Ids(b.svc.completed));
    FewerIds(AllIds(b), AllIds(r));
  }

  /** The engine has written its output file before the worker resumes. */
  function Written(s: QueueState, p: Path): (r: QueueState)
    ensures r.files == s.files + {p}
    ensures r.queue == s.queue && r.completed == s.completed && r.isProcessing == s.isProcessing
  {
    s.(files := s.files + {p})
  }

  lemma ConvertedStep(b: Backend, mp3Path: Path, now: int)
    requires Inv(b) && Converting(b.svc) && mp3Path != "" && ClockAfter(b.svc, now)
    ensures var r := b.(svc := OnConverted(Written(b.svc, mp3Path), mp3Path, now));
      && Inv(r) && AllIds(r) <= AllIds(b) && IdsOf(r.svc.queue) == IdsOf(b.svc.queue)[1..]
      && ClockAfter(r.svc, now)
  {
    var r := OnConverted(Written(b.svc, mp3Path), mp3Path, now);
    ConvertedPreserves(Written(b.svc, mp3Path), mp3Path, now);
    assert Ids(r.queue) + Ids(r.completed) <= Ids(b.svc.queue) + Ids(b.svc.completed);
    ServiceStep(b, r);
  }

  lemma ConversionErrorStep(b: Backend, message: string, now: int)
    requires Inv(b) && Converting(b.svc) && ClockAfter(b.svc, now)
    ensures var r := b.(svc := OnConversionError(b.svc, message, now));
      && Inv(r) && AllIds(r) <= AllIds(b) && IdsOf(r.svc.queue) == IdsOf(b.svc.queue)[1..]
      && ClockAfter(r.svc, now)
  {
    var r := OnConversionError(b.svc, message, now);
    ConversionErrorPreserves(b.svc, message, now);
    assert Ids(r.queue) + Ids(r.completed) <= Ids(b.svc.queue) + Ids(b.svc.completed);
    ServiceStep(b, r);
  }

  // ---------------------------------------------------------------------
  // Downloads

  /** Under the shape invariant a downloadable job is found in the
      registry, never in the queue. */
  lemma DownloadableIsFinished(s: QueueState, id: string)
    requires ServiceInv(s) && Downloadable(s, id)
    ensures FirstIndex(s.queue, id).None? && FirstIndex(s.completed, id).Some?
    ensures Locate(s, id) == Some(|s.queue| + FirstIndex(s.completed, id).value)
  {
    FirstIndexConcat(s.queue, s.completed, id);
  }

  /** Searching two lists with the same ids in the same order finds the
      same position. */
  lemma {:induction false} FirstIndexSameIds(a: seq<Job>, b: seq<Job>, id: string)
    requires IdsOf(a) == IdsOf(b)
    ensures FirstIndex(a, id) == FirstIndex(b, id)
    decreases |a|
  {
  }

  lemma RemoveKeepsRegistry(c: seq<Job>, j: nat)
    requires j < |c|
    requires forall i :: 0 <= i < |c| ==> RegistryEntry(c[i])
    requires SortedByCompletion(c)
    ensures var d := c[..j] + c[j + 1..];
      (forall i :: 0 <= i < |d| ==> RegistryEntry(d[i])) && SortedByCompletion(d)
  {
  }

  /** Every outcome of a download keeps the shape and forgets at most the
      id of the downloaded job. */
  lemma DownloadPreserves(s: QueueState, id: string, send: SendOutcome)
    requires ServiceInv(s)
    ensures var r := Download(s, id, send).0;
      && ServiceInv(r) && r.queue == s.queue
      && Ids(r.completed) <= Ids(s.completed)
  {
    var r := Download(s, id, send).0;
    if Downloadable(s, id) {
      DownloadableIsFinished(s, id);
      var j := FirstIndex(s.completed, id).value;
      if OutputOf(s, id) !in s.files {
        assert r == MarkOutputMissing(s, |s.queue| + j);
        MarkKeepsRegistry(s, j);
      } else if send == Delivered {
        DeliverKeepsRegistry(s, id);
      }
    }
  }

  /** Removing a delivered job keeps the registry's shape and forgets its id. */
  lemma DeliverKeepsRegistry(s: QueueState, id: string)
    requires ServiceInv(s) && FirstIndex(s.completed, id).Some?
    ensures var r := RemoveJobFromCompleted(s, id);
      ServiceInv(r) && r.queue == s.queue && Ids(r.completed) <= Ids(s.completed)
  {
    var j := FirstIndex(s.completed, id).value;
    RemoveKeepsRegistry(s.completed, j);
    IdsRemove(s.completed, j);
  }

  /** Marking a registry entry as failed keeps the registry's shape and
      its ids. */
  lemma MarkKeepsRegistry(s: QueueState, j: nat)
    requires ServiceInv(s) && j < |s.completed|
    ensures var r := MarkOutputMissing(s, |s.queue| + j);
      ServiceInv(r) && r.queue == s.queue && Ids(r.completed) == Ids(s.completed)
  {
    var r := MarkOutputMissing(s, |s.queue| + j);
    assert forall i :: 0 <= i < |s.completed| ==> CompletedAt(r.completed[i]) == CompletedAt(s.completed[i]);
    IdsSame(s.completed, r.completed);
  }

  /** With unique ids, a delivered file cannot be fetched a second time:
      the job is gone and every further request for it is answered 404. */
  lemma DownloadSucceedsOnce(b: Backend, id: string)
    requires Inv(b) && Downloadable(b.svc, id) && OutputOf(b.svc, id) in b.svc.files
    ensures var s1 := Download(b.svc, id, Delivered).0;
      && GetJobById(s1, id).None?
      && forall send :: Download(s1, id, send).1 == Text(404, NotFoundMessage)
    // the backend no longer holds the id at all
    ensures id in AllIds(b) && id !in AllIds(b.(svc := Download(b.svc, id, Delivered).0))
  {
    var s := b.svc;
    var s1 := Download(s, id, Delivered).0;
    DownloadableIsFinished(s, id);
    var j := FirstIndex(s.completed, id).value;
    IdsRemove(s.completed, j);
    assert AllIds(b)[id] <= 1;
    IdsAbsent(s.queue, id);
    IdsAbsent(s1.completed, id);
  }

  /** A job whose output file vanished stays in place as a failed job:
      the next request finds it and is answered 400, not 404. */
  lemma MissingOutputStaysDiscoverable(b: Backend, id: string, send: SendOutcome)
    requires Inv(b) && Downloadable(b.svc, id) && OutputOf(b.svc, id) !in b.svc.files
    ensures var s1 := Download(b.svc, id, send).0;
      && GetJobById(s1, id) == Some(GetJobById(b.svc, id).value.(status := Error, error := Some(MissingError)))
      && forall again :: Download(s1, id, again).1 == Text(400, NotReadyMessage)
  {
    var s := b.svc;
    var s1 := Download(s, id, send).0;
    DownloadableIsFinished(s, id);
    var j := FirstIndex(s.completed, id).value;
    assert s1 == MarkOutputMissing(s, |s.queue| + j);
    assert IdsOf(s1.completed) == IdsOf(s.completed);
    FirstIndexSameIds(s1.completed, s.completed, id);
  }

  // ---------------------------------------------------------------------
  // The state machine

  datatype Action =
    | Upload(req: UploadRequest, jobId: string)
    | UploadTick(i: nat)
    | Progress(percent: Option<JsNumber>)
    | Converted(mp3Path: Path, now: int)
    | ConversionFailed(message: string, now: int)
    | Get(id: string, send: SendOutcome)
    /** A file disappears from the disk by other means than the server's. */
    | Lost(path: Path)

  /** Whether the event can occur: a tick needs its timer, and the engine
      reports only while it runs. */
  predicate Enabled(b: Backend, a: Action) {
    match a
    case UploadTick(i) => i < |b.uploads|
    case Progress(_) => Converting(b.svc)
    case Converted(_, _) => Converting(b.svc)
    case ConversionFailed(_, _) => Converting(b.svc)
    case _ => true
  }

  /** What the environment guarantees: a generated id was never handed out
      before, the engine names a non-empty output file, and the clock does
      not run backwards. */
  predicate Admissible(b: Backend, a: Action) {
    match a
    case Upload(_, jobId) => jobId !in b.issued
    case Converted(mp3Path, now) => mp3Path != "" && ClockAfter(b.svc, now)
    case ConversionFailed(_, now) => ClockAfter(b.svc, now)
    case _ => true
  }

  function Next(b: Backend, a: Action): Backend
    requires Enabled(b, a)
  {
    match a
    case Upload(req, jobId) => PostUpload(b, req, jobId).0
    case UploadTick(i) => Tick(b, i)
    case Progress(percent) => b.(svc := OnProgress(b.svc, percent))
    case Converted(mp3Path, now) => b.(svc := OnConverted(Written(b.svc, mp3Path), mp3Path, now))
    case ConversionFailed(message, now) => b.(svc := OnConversionError(b.svc, message, now))
    case Get(id, send) => b.(svc := Download(b.svc, id, send).0)
    case Lost(path) => b.(svc := b.svc.(files := b.svc.files - {path}))
  }

  /** The ids in the queue after a step, as a first-in first-out queue
      would have them: a finished upload joins at the tail, a finished
      conversion leaves from the head, nothing else moves. */
  function QueueIdsAfter(b: Backend, a: Action): seq<string>
    requires Enabled(b, a) && QueueShape(b.svc)
  {
    var q := IdsOf(b.svc.queue);
    match a
    case UploadTick(i) => if NextProgress(b.uploads[i].progress) >= 100 then q + [b.uploads[i].job.id] else q
    case Converted(_, _) => q[1..]
    case ConversionFailed(_, _) => q[1..]
    case _ => q
  }

  /** What one admissible step guarantees: the invariant holds after it,
      the queue's ids move as a first-in first-out queue's would, ids are
      handed out only by an upload, and only an upload brings an id in. */
  ghost predicate StepOk(b: Backend, a: Action)
    requires Enabled(b, a) && QueueShape(b.svc)
  {
    var r := Next(b, a);
    && Inv(r)
    && IdsOf(r.svc.queue) == QueueIdsAfter(b, a)
    && r.issued == b.issued + (if a.Upload? && a.req.file.Some? then {a.jobId} else {})
    && AllIds(r) <= AllIds(b) + Incoming(a)
  }

  /** `StepOk` from its four parts, with the successor given by name so the
      proofs below need not unfold `Next` and `StepOk` together. */
  lemma StepOkFrom(b: Backend, a: Action, r: Backend)
    requires Enabled(b, a) && QueueShape(b.svc) && Next(b, a) == r
    requires Inv(r) && IdsOf(r.svc.queue) == QueueIdsAfter(b, a)
    requires r.issued == b.issued + (if a.Upload? && a.req.file.Some? then {a.jobId} else {})
    requires AllIds(r) <= AllIds(b) + Incoming(a)
    ensures StepOk(b, a)
  {
  }

  lemma UploadStepOk(b: Backend, a: Action)
    requires Inv(b) && a.Upload? && Admissible(b, a)
    ensures StepOk(b, a)
  {
    PostUploadPreserves(b, a.req, a.jobId);
  }

  lemma TickStepOk(b: Backend, a: Action)
    requires Inv(b) && a.UploadTick? && Enabled(b, a)
    ensures StepOk(b, a)
  {
    TickPreserves(b, a.i);
  }

  lemma ProgressStepOk(b: Backend, a: Action)
    requires Inv(b) && a.Progress? && Enabled(b, a)
    ensures StepOk(b, a)
  {
    ProgressStep(b, a.percent);
  }

  lemma ConvertedStepOk(b: Backend, a: Action)
    requires Inv(b) && a.Converted? && Enabled(b, a) && Admissible(b, a)
    ensures StepOk(b, a)
  {
    var r := b.(svc := OnConverted(Written(b.svc, a.mp3Path), a.mp3Path, a.now));
    ConvertedStep(b, a.mp3Path, a.now);
    assert Next(b, a) == r;
    assert QueueIdsAfter(b, a) == IdsOf(b.svc.queue)[1..];
    StepOkFrom(b, a, r);
  }

  lemma ConversionFailedStepOk(b: Backend, a: Action)
    requires Inv(b) && a.ConversionFailed? && Enabled(b, a) && Admissible(b, a)
    ensures StepOk(b, a)
  {
    var r := b.(svc := OnConversionError(b.svc, a.message, a.now));
    ConversionErrorStep(b, a.message, a.now);
    assert Next(b, a) == r;
    assert QueueIdsAfter(b, a) == IdsOf(b.svc.queue)[1..];
    StepOkFrom(b, a, r);
  }

  lemma GetStepOk(b: Backend, a: Action)
    requires Inv(b) && a.Get?
    ensures StepOk(b, a)
  {
    var r := Next(b, a);
    DownloadPreserves(b.svc, a.id, a.send);
    FewerIds(AllIds(b), AllIds(r));
  }

  lemma LostStepOk(b: Backend, a: Action)
    requires Inv(b) && a.Lost?
    ensures StepOk(b, a)
  {
  }

  lemma StepIsOk(b: Backend, a: Action)
    requires Inv(b) && Enabled(b, a) && Admissible(b, a)
    ensures StepOk(b, a)
  {
    match a
    case Upload(_, _) => UploadStepOk(b, a);
    case UploadTick(_) => TickStepOk(b, a);
    case Progress(_) => ProgressStepOk(b, a);
    case Converted(_, _) => ConvertedStepOk(b, a);
    case ConversionFailed(_, _) => ConversionFailedStepOk(b, a);
    case Get(_, _) => GetStepOk(b, a);
    case Lost(_) => LostStepOk(b, a);
  }

  /** Every admissible step keeps the invariant, and the queue behaves as
      a first-in first-out queue of ids. */
  lemma NextPreservesInv(b: Backend, a: Action)
    requires Inv(b) && Enabled(b, a) && Admissible(b, a)
    ensures Inv(Next(b, a))
    ensures IdsOf(Next(b, a).svc.queue) == QueueIdsAfter(b, a)
  {
    StepIsOk(b, a);
  }

  /** Ids are handed out only by an upload, and only an upload brings an
      id into the backend; every other step keeps or forgets ids. */
  lemma NextIssues(b: Backend, a: Action)
    requires Inv(b) && Enabled(b, a) && Admissible(b, a)
    ensures Next(b, a).issued == b.issued + (if a.Upload? && a.req.file.Some? then {a.jobId} else {})
    ensures AllIds(Next(b, a)) <= AllIds(b) + Incoming(a)
  {
    StepIsOk(b, a);
  }

  /** A sequence of actions each of which is enabled and admissible in the
      state the previous ones leave. */
  ghost predicate ValidRun(b: Backend, acts: seq<Action>)
    decreases |acts|
  {
    acts == [] || (Enabled(b, acts[0]) && Admissible(b, acts[0]) && ValidRun(Next(b, acts[0]), acts[1..]))
  }

  ghost function Run(b: Backend, acts: seq<Action>): Backend
    requires ValidRun(b, acts)
    decreases |acts|
  {
    if acts == [] then b else Run(Next(b, acts[0]), acts[1..])
  }

  /** Every reachable state satisfies the invariant. */
  lemma {:induction false} RunPreservesInv(b: Backend, acts: seq<Action>)
    requires Inv(b) && ValidRun(b, acts)
    ensures Inv(Run(b, acts))
    decreases |acts|
  {
    if acts != [] {
      NextPreservesInv(b, acts[0]);
      RunPreservesInv(Next(b, acts[0]), acts[1..]);
    }
  }

  // ---------------------------------------------------------------------
  // Once gone, gone for good

  /** An id the backend handed out and no longer holds. */
  predicate Gone(b: Backend, x: string) {
    x in b.issued && x !in AllIds(b)
  }

  lemma NextKeepsGone(b: Backend, a: Action, x: string)
    requires Inv(b) && Enabled(b, a) && Admissible(b, a) && Gone(b, x)
    ensures Gone(Next(b, a), x)
  {
    NextIssues(b, a);
    assert Incoming(a)[x] == 0;
  }

  lemma {:induction false} GoneStaysGone(b: Backend, acts: seq<Action>, x: string)
    requires Inv(b) && ValidRun(b, acts) && Gone(b, x)
    ensures Gone(Run(b, acts), x)
    decreases |acts|
  {
    if acts != [] {
      NextPreservesInv(b, acts[0]);
      NextKeepsGone(b, acts[0], x);
      GoneStaysGone(Next(b, acts[0]), acts[1..], x);
    }
  }

  /** An id the backend does not hold is not found, and its download is
      answered 404. */
  lemma NotHeldIsNotFound(b: Backend, x: string)
    requires x !in AllIds(b)
    ensures GetJobById(b.svc, x).None?
    ensures forall send :: Download(b.svc, x, send).1 == Text(404, NotFoundMessage)
  {
  }

  /** A job that leaves the backend in some step is never found again,
      whatever happens afterwards: its id is never handed out again. */
  lemma LeftForGood(b: Backend, a: Action, x: string, acts: seq<Action>)
    requires Inv(b) && Enabled(b, a) && Admissible(b, a)
    requires x in AllIds(b) && x !in AllIds(Next(b, a))
    requires ValidRun(Next(b, a), acts)
    ensures var r := Run(Next(b, a), acts);
      && GetJobById(r.svc, x).None?
      && forall send :: Download(r.svc, x, send).1 == Text(404, NotFoundMessage)
  {
    NextPreservesInv(b, a);
    NextIssues(b, a);
    assert x in multiset(b.issued);
    GoneStaysGone(Next(b, a), acts, x);
    NotHeldIsNotFound(Run(Next(b, a), acts), x);
  }

  /** A delivered file cannot be fetched again, ever: after any run of
      later events the id is still unknown and answered 404. */
  lemma DeliveredNeverReturns(b: Backend, id: string, acts: seq<Action>)
    requires Inv(b) && Downloadable(b.svc, id) && OutputOf(b.svc, id) in b.svc.files
    requires ValidRun(Next(b, Get(id, Delivered)), acts)
    ensures var r := Run(Next(b, Get(id, Delivered)), acts);
      && GetJobById(r.svc, id).None?
      && forall send :: Download(r.svc, id, send).1 == Text(404, NotFoundMessage)
  {
    DownloadSucceedsOnce(b, id);
    LeftForGood(b, Get(id, Delivered), id, acts);
  }

  /** The registry entry a finished conversion's sweep finds expired leaves
      the backend in that step. */
  lemma EvictedIdLeaves(b: Backend, a: Action, j: nat)
    requires Inv(b) && Enabled(b, a) && Admissible(b, a) && (a.Converted? || a.ConversionFailed?)
    requires j < |b.svc.completed| && Expired(b.svc.completed[j], a.now)
    ensures b.svc.completed[j].id in AllIds(b) && b.svc.completed[j].id !in AllIds(Next(b, a))
  {
    var s := b.svc;
    var x := s.completed[j].id;
    var r := Next(b, a);
    IdsHas(s.completed, j);
    assert AllIds(b)[x] <= 1;
    SweptFromRegistry(b, a, j);
    StepIsOk(b, a);
    IdsOfAfterHead(s.queue, r.svc.queue);
    assert r.uploads == b.uploads;
  }

  lemma SweptFromRegistry(b: Backend, a: Action, j: nat)
    requires Inv(b) && Enabled(b, a) && Admissible(b, a) && (a.Converted? || a.ConversionFailed?)
    requires j < |b.svc.completed| && Expired(b.svc.completed[j], a.now)
    ensures b.svc.completed[j].id !in Ids(Next(b, a).svc.completed)
  {
    var s := b.svc;
    var head := if a.Converted? then s.queue[0].(status := Complete, mp3Path := Some(a.mp3Path))
                else s.queue[0].(status := Error, error := Some(ErrorMessage(a.message)));
    var h := Finished(head, a.now);
    assert Next(b, a).svc.completed == (s.completed + [h])[EvictCount(s.completed + [h], a.now)..];
    IdsHas(s.queue, 0);
    assert AllIds(b) == Ids(UploadJobs(b.uploads)) + Ids(s.queue) + Ids(s.completed);
    FewerIds(AllIds(b), Ids(s.completed) + multiset{h.id});
    ExpiredEntryIsSwept(s.completed, h, a.now, j);
  }

  /** A job the retention sweep evicted is never found again, whatever
      happens afterwards. */
  lemma EvictedNeverReturns(b: Backend, a: Action, j: nat, acts: seq<Action>)
    requires Inv(b) && Enabled(b, a) && Admissible(b, a) && (a.Converted? || a.ConversionFailed?)
    requires j < |b.svc.completed| && Expired(b.svc.completed[j], a.now)
    requires ValidRun(Next(b, a), acts)
    ensures var r := Run(Next(b, a), acts);
      && GetJobById(r.svc, b.svc.completed[j].id).None?
      && forall send :: Download(r.svc, b.svc.completed[j].id, send).1 == Text(404, NotFoundMessage)
  {
    EvictedIdLeaves(b, a, j);
    LeftForGood(b, a, b.svc.completed[j].id, acts);
  }

  // ---------------------------------------------------------------------
  // Consequences of the invariant

  /** What the shape says about the job at one position of `AllJobs`:
      uploading first, then the processing head and the waiting jobs, then
      the finished ones. */
  lemma PositionShape(b: Backend, i: nat)
    requires ServiceInv(b.svc) && UploadsShape(b.uploads) && i < |AllJobs(b)|
    ensures var j, u, q := AllJobs(b)[i], |b.uploads|, |b.svc.queue|;
      && (i < u ==> j.status == Uploading && j.completedAt.None?)
      && (u <= i < u + q ==> j.status == (if i == u then Processing else Uploaded) && j.completedAt.None?)
      && (u + q <= i ==> Terminal(j.status) && j.completedAt.Some?)
  {
  }

  /** At most one job is `processing`: the head of the queue, while the
      worker is busy. */
  lemma AtMostOneProcessing(b: Backend)
    requires ServiceInv(b.svc) && UploadsShape(b.uploads)
    ensures forall i :: 0 <= i < |AllJobs(b)| && AllJobs(b)[i].status == Processing ==>
      i == |b.uploads| && b.svc.isProcessing
  {
  }

  /** A job carries a completion time exactly when it is in the registry. */
  lemma CompletionTimeMarksRegistry(b: Backend)
    requires ServiceInv(b.svc) && UploadsShape(b.uploads)
    ensures forall i :: 0 <= i < |AllJobs(b)| ==>
      (AllJobs(b)[i].completedAt.Some? <==> i >= |b.uploads| + |b.svc.queue|)
  {
  }

  /** A known id is held by exactly one job, in exactly one of the three
      places. */
  lemma ExactlyOnePlace(b: Backend, id: string)
    requires Inv(b) && id in AllIds(b)
    ensures Ids(UploadJobs(b.uploads))[id] + Ids(b.svc.queue)[id] + Ids(b.svc.completed)[id] == 1
  {
  }

  /** A finished upload is in the queue exactly once, at its tail. */
  lemma FinishedUploadQueuedOnce(b: Backend, i: nat)
    requires Inv(b) && i < |b.uploads| && NextProgress(b.uploads[i].progress) >= 100
    ensures var r := Tick(b, i);
      && |r.svc.queue| > 0 && r.svc.queue[|r.svc.queue| - 1].id == b.uploads[i].job.id
      && Ids(r.svc.queue)[b.uploads[i].job.id] == 1
      && b.uploads[i].job.id !in Ids(UploadJobs(r.uploads)) + Ids(r.svc.completed)
  {
    var r := Tick(b, i);
    var x := b.uploads[i].job.id;
    TickPreserves(b, i);
    IdsHas(UploadJobs(b.uploads), i);
    assert IdsOf(r.svc.queue)[|r.svc.queue| - 1] == x;
    IdsHas(r.svc.queue, |r.svc.queue| - 1);
    assert AllIds(r)[x] <= 1;
  }

  // ---------------------------------------------------------------------
  // No job moves backward

  /** The id a step brings in from outside: only a new upload does. */
  function Incoming(a: Action): multiset<string> {
    if a.Upload? then multiset{a.jobId} else multiset{}
  }

  /** Where the ids of each place may have come from in one step: uploads
      from uploads or outside, the queue from the queue or uploads, the
      registry from the registry or the queue. */
  predicate Flowed(b: Backend, r: Backend, incoming: multiset<string>) {
    && Ids(UploadJobs(r.uploads)) <= Ids(UploadJobs(b.uploads)) + incoming
    && Ids(r.svc.queue) <= Ids(b.svc.queue) + Ids(UploadJobs(b.uploads))
    && Ids(r.svc.completed) <= Ids(b.svc.completed) + Ids(b.svc.queue)
  }

  lemma StepFlows(b: Backend, a: Action)
    requires Inv(b) && Enabled(b, a) && Admissible(b, a)
    ensures Flowed(b, Next(b, a), Incoming(a))
  {
    match a
    case Upload(req, jobId) =>
      PostUploadPreserves(b, req, jobId);
    case UploadTick(i) =>
      TickFlows(b, i);
    case Progress(percent) =>
      ProgressPreserves(b.svc, percent);
      IdsSame(b.svc.queue, OnProgress(b.svc, percent).queue);
    case Converted(mp3Path, now) =>
      ConvertedPreserves(Written(b.svc, mp3Path), mp3Path, now);
      ConvertedFlows(b, OnConverted(Written(b.svc, mp3Path), mp3Path, now));
    case ConversionFailed(message, now) =>
      ConversionErrorPreserves(b.svc, message, now);
      ConvertedFlows(b, OnConversionError(b.svc, message, now));
    case Get(id, send) =>
      DownloadPreserves(b.svc, id, send);
    case Lost(_) =>
  }

  lemma TickFlows(b: Backend, i: nat)
    requires Inv(b) && i < |b.uploads|
    ensures Flowed(b, Tick(b, i), multiset{})
  {
    if NextProgress(b.uploads[i].progress) >= 100 {
      SubmittedQueue(b, i);
      UploadJobsRemove(b.uploads, i);
      IdsHas(UploadJobs(b.uploads), i);
    } else {
      TickCounts(b, i);
    }
  }

  /** The flow of a finished conversion: the head leaves the queue and at
      most it enters the registry. */
  lemma ConvertedFlows(b: Backend, svc: QueueState)
    requires |b.svc.queue| > 0
    requires Ids(svc.queue) + multiset{b.svc.queue[0].id} == Ids(b.svc.queue)
    requires Ids(svc.completed) <= Ids(b.svc.completed) + multiset{b.svc.queue[0].id}
    ensures Flowed(b, b.(svc := svc), multiset{})
  {
  }

  /** Statuses only move forward: a finished job never returns to the
      queue or to uploading, and a queued job never returns to uploading. */
  lemma NoStepBackward(b: Backend, a: Action)
    requires Inv(b) && Enabled(b, a) && Admissible(b, a)
    ensures var r := Next(b, a);
      forall x :: x in Ids(b.svc.completed) ==> x !in Ids(UploadJobs(r.uploads)) + Ids(r.svc.queue)
    ensures var r := Next(b, a);
      forall x :: x in Ids(b.svc.queue) ==> x !in Ids(UploadJobs(r.uploads))
  {
    var r := Next(b, a);
    StepFlows(b, a);
    forall x | x in Ids(b.svc.completed) || x in Ids(b.svc.queue)
      ensures Ids(UploadJobs(r.uploads))[x] == 0
      ensures x in Ids(b.svc.completed) ==> Ids(r.svc.queue)[x] == 0
    {
      assert AllIds(b)[x] <= 1;
      assert Incoming(a)[x] == 0;
    }
  }

  /** An upload in progress is in neither list, so the snapshot its tick
      broadcasts does not show it. */
  lemma UploadingJobIsNotShown(b: Backend, i: nat)
    requires Inv(b) && i < |b.uploads| && NextProgress(b.uploads[i].progress) < 100
    ensures Tick(b, i).svc.events == b.svc.events + [QueueUpdate(Snapshot(b.svc))]
    ensures forall k :: 0 <= k < |Snapshot(b.svc)| ==> Snapshot(b.svc)[k].id != b.uploads[i].job.id
  {
    var x := b.uploads[i].job.id;
    IdsHas(UploadJobs(b.uploads), i);
    assert AllIds(b)[x] <= 1;
    SnapshotOmits(b.svc, x);
  }

  /** A snapshot lists only the ids held in the two lists. */
  lemma SnapshotOmits(s: QueueState, x: string)
    requires x !in Ids(s.queue) && x !in Ids(s.completed)
    ensures forall k :: 0 <= k < |Snapshot(s)| ==> Snapshot(s)[k].id != x
  {
    SnapshotLists(s);
    IdsAbsent(s.queue, x);
    IdsAbsent(s.completed, x);
    forall k | 0 <= k < |Snapshot(s)|
      ensures Snapshot(s)[k].id != x
    {
      if k >= |s.queue| {
        assert Snapshot(s)[|s.queue| + (k - |s.queue|)] == Entry(s.completed[k - |s.queue|]);
      }
    }
  }
}
