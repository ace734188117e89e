/** The download endpoint: the decision between not found, not ready,
    output missing and sending the file, and the clean-up after a send.
    The send itself is an outcome given as a parameter. */
module DownloadRoute {
  import opened Common
  import opened QueueService

  /** How the transfer of the file to the client ended. */
  datatype SendOutcome = Delivered | SendFailed(headersSent: bool)

  datatype DownloadReply =
    | Text(code: int, message: string)
    | File(path: Path, filename: string)
    /** The transfer broke off after the headers went out: nothing more is sent. */
    | Interrupted(path: Path)

  const NotFoundMessage: string := "Job not found or server restarted."
  const NotReadyMessage: string := "Job is not complete or output file is missing."
  const MissingMessage: string := "Output file not found on server."
  const MissingError: string := "Output file missing from server."
  const SendErrorMessage: string := "Error occurred during file download."

  /** The job `getJobById` found, after the handler recorded on it that its
      output file is gone: it becomes `error` where it is. */
  function MarkOutputMissing(s: QueueState, i: nat): (r: QueueState)
    requires i < |s.queue| + |s.completed|
    ensures i < |s.queue| ==>
      r == s.(queue := s.queue[i := s.queue[i].(status := Error, error := Some(MissingError))])
    ensures i >= |s.queue| ==>
      var c := s.completed[i - |s.queue|];
      r == s.(completed := s.completed[i - |s.queue| := c.(status := Error, error := Some(MissingError))])
  {
    var j := JobAt(s, i).(status := Error, error := Some(MissingError));
    if i < |s.queue| then s.(queue := s.queue[i := j])
    else s.(completed := s.completed[i - |s.queue| := j])
  }

  /** The job exists and is ready for download. */
  predicate Downloadable(s: QueueState, id: string) {
    GetJobById(s, id).Some? && Ready(GetJobById(s, id).value)
  }

  /** The output path of a downloadable job. */
  function OutputOf(s: QueueState, id: string): Path
    requires Downloadable(s, id)
  {
    GetJobById(s, id).value.mp3Path.value
  }

  /** GET `/:jobId`. */
  function Download(s: QueueState, id: string, send: SendOutcome): (r: (QueueState, DownloadReply))
    // unknown id: 404, nothing changes
    ensures GetJobById(s, id).None? ==> r == (s, Text(404, NotFoundMessage))
    // not complete, or no output path: 400, nothing changes
    ensures GetJobById(s, id).Some? && !Downloadable(s, id) ==> r == (s, Text(400, NotReadyMessage))
    // complete but its file is gone: 500, and the job turns into a failed job where it is
    ensures Downloadable(s, id) && OutputOf(s, id) !in s.files ==>
      r == (MarkOutputMissing(s, Locate(s, id).value), Text(500, MissingMessage))
    // the file exists and the transfer failed: nothing changes
    ensures Downloadable(s, id) && OutputOf(s, id) in s.files && send.SendFailed? ==>
      r.0 == s
      && r.1 == if send.headersSent then Interrupted(OutputOf(s, id)) else Text(500, SendErrorMessage)
    // delivered: the job leaves the registry and its output file is deleted
    ensures Downloadable(s, id) && OutputOf(s, id) in s.files && send == Delivered ==>
      r == (RemoveJobFromCompleted(s, id).(files := s.files - {OutputOf(s, id)}),
            File(OutputOf(s, id), Basename(OutputOf(s, id))))
  {
    match GetJobById(s, id)
    case None => (s, Text(404, NotFoundMessage))
    case Some(job) =>
      if !Ready(job) then (s, Text(400, NotReadyMessage))
      else
        var path := job.mp3Path.value;
        if path !in s.files then
          (MarkOutputMissing(s, Locate(s, id).value), Text(500, MissingMessage))
        else match send
          case SendFailed(headersSent) =>
            (s, if headersSent then Interrupted(path) else Text(500, SendErrorMessage))
          case Delivered =>
            var s1 := RemoveJobFromCompleted(s, id);
            (s1.(files := s1.files - {path}), File(path, Basename(path)))
  }

  /** A job can be downloaded when it is complete and has an output path. */
  predicate Ready(j: Job) {
    j.status == Complete && Truthy(j.mp3Path)
  }
}
