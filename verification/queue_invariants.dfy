/** The shape the queue service keeps between events, and its preservation
    by every operation of the service.

    Between events the worker is busy exactly while the queue is non-empty;
    the head of the queue is then the one `processing` job and every job
    behind it is `uploaded`. The registry holds only finished jobs, each with
    its completion time, in the order they finished. Job identities are
    tracked as a multiset so that "no id occurs twice" can be carried
    across every step. */
module QueueInvariants {
  import opened Common
  import opened Converter
  import opened QueueService

  predicate Terminal(st: Status) {
    st == Complete || st == Error
  }

  predicate QueueShape(s: QueueState) {
    && (s.isProcessing <==> |s.queue| > 0)
    && (forall i :: 0 <= i < |s.queue| ==> s.queue[i].status == if i == 0 then Processing else Uploaded)
    && (forall i :: 0 <= i < |s.queue| ==> s.queue[i].completedAt.None?)
  }

  /** The completion time the sweep reads (0 when missing). */
  function CompletedAt(j: Job): int {
    j.completedAt.GetOr(0)
  }

  predicate SortedByCompletion(c: seq<Job>) {
    forall i, j :: 0 <= i < j < |c| ==> CompletedAt(c[i]) <= CompletedAt(c[j])
  }

  /** A registry entry: finished, with its completion time, and with an
      output path when it finished successfully. */
  predicate RegistryEntry(j: Job) {
    Terminal(j.status) && j.completedAt.Some? && (j.status == Complete ==> Truthy(j.mp3Path))
  }

  predicate RegistryShape(s: QueueState) {
    && (forall i :: 0 <= i < |s.completed| ==> RegistryEntry(s.completed[i]))
    && SortedByCompletion(s.completed)
  }

  predicate ServiceInv(s: QueueState) {
    QueueShape(s) && RegistryShape(s)
  }

  /** Every completion time in `c` is at most `now`. */
  predicate NoneLater(c: seq<Job>, now: int) {
    forall i :: 0 <= i < |c| ==> CompletedAt(c[i]) <= now
  }

  /** The clock reading `now` is not earlier than any recorded completion. */
  predicate ClockAfter(s: QueueState, now: int) {
    NoneLater(s.completed, now)
  }

  // ---------------------------------------------------------------------
  // Job identities

  function IdsOf(js: seq<Job>): (r: seq<string>)
    ensures |r| == |js| && forall i :: 0 <= i < |js| ==> r[i] == js[i].id
  {
    seq(|js|, i requires 0 <= i < |js| => js[i].id)
  }

  function Ids(js: seq<Job>): multiset<string> {
    multiset(IdsOf(js))
  }

  /** No id is counted more than once. */
  ghost predicate AtMostOnce(m: multiset<string>) {
    forall x :: m[x] <= 1
  }

  lemma IdsConcat(a: seq<Job>, b: seq<Job>)
    ensures Ids(a + b) == Ids(a) + Ids(b)
  {
    assert IdsOf(a + b) == IdsOf(a) + IdsOf(b);
  }

  lemma IdsSuffix(a: seq<Job>, k: nat)
    requires k <= |a|
    ensures Ids(a[k..]) <= Ids(a)
  {
    assert a == a[..k] + a[k..];
    IdsConcat(a[..k], a[k..]);
  }

  /** Changing anything but the ids leaves the identities alone. */
  lemma IdsSame(a: seq<Job>, b: seq<Job>)
    requires |a| == |b| && forall i :: 0 <= i < |a| ==> a[i].id == b[i].id
    ensures Ids(a) == Ids(b)
  {
    assert IdsOf(a) == IdsOf(b);
  }

  lemma IdsRemove(a: seq<Job>, i: nat)
    requires i < |a|
    ensures Ids(a) == Ids(a[..i] + a[i + 1..]) + multiset{a[i].id}
  {
    assert a == a[..i] + [a[i]] + a[i + 1..];
    IdsConcat(a[..i] + [a[i]], a[i + 1..]);
    IdsConcat(a[..i], [a[i]]);
    IdsConcat(a[..i], a[i + 1..]);
    assert IdsOf([a[i]]) == [a[i].id];
  }

  /** An id that is not counted is carried by no job. */
  lemma IdsAbsent(a: seq<Job>, x: string)
    requires x !in Ids(a)
    ensures forall k :: 0 <= k < |a| ==> a[k].id != x
  {
  }

  lemma IdsHas(a: seq<Job>, k: nat)
    requires k < |a|
    ensures a[k].id in Ids(a)
  {
  }

  // ---------------------------------------------------------------------
  // The worker

  /** The queue as submission and the `finally` block leave it before the
      worker is triggered: idle, every entry waiting. */
  predicate Waiting(s: QueueState) {
    && !s.isProcessing
    && (forall i :: 0 <= i < |s.queue| ==> s.queue[i].status == Uploaded)
    && (forall i :: 0 <= i < |s.queue| ==> s.queue[i].completedAt.None?)
  }

  /** From a waiting queue the worker starts exactly its head: no entry is
      skipped, the order is kept, and the shape is restored. */
  lemma StartHead(s: QueueState)
    requires Waiting(s) && RegistryShape(s)
    ensures ServiceInv(ProcessQueue(s))
    ensures |s.queue| > 0 ==> ProcessQueue(s).queue == s.queue[0 := s.queue[0].(status := Processing)]
    ensures IdsOf(ProcessQueue(s).queue) == IdsOf(s.queue)
    ensures ProcessQueue(s).completed == s.completed
  {
  }

  /** Submitting a waiting job to a well-shaped service keeps the shape and
      puts the job at the tail of the queue, behind every entry already
      there, which are left as they were; an idle service starts it. */
  lemma SubmitPreserves(s: QueueState, job: Job)
    requires ServiceInv(s)
    requires job.status == Uploaded && job.completedAt.None?
    ensures var r := AddJobToQueue(s, job);
      && ServiceInv(r)
      && r.completed == s.completed && r.files == s.files
      && IdsOf(r.queue) == IdsOf(s.queue) + [job.id]
      && (s.isProcessing ==> r.queue == s.queue + [job])
      && (!s.isProcessing ==> r.queue == [job.(status := Processing)])
  {
  }

  /** A progress report changes nothing but the head's progress. */
  lemma ProgressPreserves(s: QueueState, percent: Option<JsNumber>)
    requires ServiceInv(s) && Converting(s)
    ensures var r := OnProgress(s, percent);
      ServiceInv(r) && IdsOf(r.queue) == IdsOf(s.queue) && r.completed == s.completed && r.files == s.files
  {
  }

  /** A sorted registry with no completion after `now` stays sorted when a
      job finished at `now` is appended. */
  lemma AppendKeepsRegistry(c: seq<Job>, j: Job, now: int)
    requires forall i :: 0 <= i < |c| ==> RegistryEntry(c[i])
    requires SortedByCompletion(c) && NoneLater(c, now)
    requires RegistryEntry(Finished(j, now))
    ensures var d := c + [Finished(j, now)];
      (forall i :: 0 <= i < |d| ==> RegistryEntry(d[i])) && SortedByCompletion(d) && NoneLater(d, now)
  {
  }

  /** What the sweep keeps of a sorted registry is sorted. */
  lemma SuffixKeepsRegistry(c: seq<Job>, k: nat, now: int)
    requires k <= |c|
    requires forall i :: 0 <= i < |c| ==> RegistryEntry(c[i])
    requires SortedByCompletion(c) && NoneLater(c, now)
    ensures forall i :: 0 <= i < |c[k..]| ==> RegistryEntry(c[k..][i])
    ensures SortedByCompletion(c[k..]) && NoneLater(c[k..], now)
  {
  }

  /** The `finally` block on a state whose head has just been marked
      finished: the shape is restored, the next waiting job (if any) is
      started, and no identity is created. */
  lemma FinishPreserves(s: QueueState, now: int)
    requires |s.queue| > 0 && s.isProcessing
    requires forall i :: 1 <= i < |s.queue| ==> s.queue[i].status == Uploaded
    requires forall i :: 0 <= i < |s.queue| ==> s.queue[i].completedAt.None?
    requires Retained(s.queue[0]) && RegistryEntry(Finished(s.queue[0], now))
    requires RegistryShape(s) && ClockAfter(s, now)
    ensures var r := FinishJob(s, now);
      && ServiceInv(r) && ClockAfter(r, now)
      && IdsOf(r.queue) == IdsOf(s.queue)[1..]
      && Ids(r.completed) <= Ids(s.completed) + multiset{s.queue[0].id}
      && s.queue[0].id in Ids(r.completed)
  {
    var r := FinishJob(s, now);
    FinishRegistry(s, now);
    FinishQueue(s, now);
  }

  lemma FinishRegistry(s: QueueState, now: int)
    requires |s.queue| > 0
    requires Retained(s.queue[0]) && RegistryEntry(Finished(s.queue[0], now))
    requires RegistryShape(s) && ClockAfter(s, now)
    ensures var r := FinishJob(s, now);
      && RegistryShape(r) && ClockAfter(r, now)
      && Ids(r.completed) <= Ids(s.completed) + multiset{s.queue[0].id}
      && s.queue[0].id in Ids(r.completed)
  {
    FinishRegistryShape(s, now);
    FinishRegistryIds(s, now);
  }

  lemma FinishRegistryShape(s: QueueState, now: int)
    requires |s.queue| > 0
    requires Retained(s.queue[0]) && RegistryEntry(Finished(s.queue[0], now))
    requires RegistryShape(s) && ClockAfter(s, now)
    ensures var r := FinishJob(s, now); RegistryShape(r) && ClockAfter(r, now)
  {
    var c := s.completed + [Finished(s.queue[0], now)];
    var k := EvictCount(c, now);
    AppendKeepsRegistry(s.completed, s.queue[0], now);
    SuffixKeepsRegistry(c, k, now);
    assert FinishJob(s, now).completed == c[k..];
  }

  lemma FinishRegistryIds(s: QueueState, now: int)
    requires |s.queue| > 0 && Retained(s.queue[0])
    ensures var r := FinishJob(s, now);
      && Ids(r.completed) <= Ids(s.completed) + multiset{s.queue[0].id}
      && s.queue[0].id in Ids(r.completed)
  {
    var r := FinishJob(s, now);
    FinishJobKeepsNewest(s, now);
    var c := s.completed + [Finished(s.queue[0], now)];
    var k := EvictCount(c, now);
    assert r.completed == c[k..];
    IdsSuffix(c, k);
    IdsConcat(s.completed, [Finished(s.queue[0], now)]);
    assert IdsOf([Finished(s.queue[0], now)]) == [s.queue[0].id];
    IdsHas(r.completed, |r.completed| - 1);
  }

  lemma FinishQueue(s: QueueState, now: int)
    requires |s.queue| > 0 && s.isProcessing
    requires forall i :: 1 <= i < |s.queue| ==> s.queue[i].status == Uploaded
    requires forall i :: 0 <= i < |s.queue| ==> s.queue[i].completedAt.None?
    ensures var r := FinishJob(s, now);
      && QueueShape(r) && IdsOf(r.queue) == IdsOf(s.queue)[1..]
  {
    var q := s.queue[1..];
    FinishJobAdvancesQueue(s, now);
    assert |q| > 0 ==> q[0] == s.queue[1] && q[1..] == s.queue[2..];
    assert LeadingAnomalies(q) == 0;
    StartedQueue(s.queue, FinishJob(s, now));
  }

  /** The waiting jobs behind a finished head, after the worker looked at
      them: idle when there are none, otherwise the first of them started. */
  lemma StartedQueue(q: seq<Job>, r: QueueState)
    requires |q| > 0
    requires forall i :: 1 <= i < |q| ==> q[i].status == Uploaded
    requires forall i :: 0 <= i < |q| ==> q[i].completedAt.None?
    requires |q| == 1 ==> r.queue == [] && !r.isProcessing
    requires |q| > 1 ==> r.isProcessing && r.queue == [q[1].(status := Processing)] + q[2..]
    ensures QueueShape(r) && IdsOf(r.queue) == IdsOf(q)[1..]
  {
  }

  /** A successful conversion with a non-empty output path keeps the shape;
      the head leaves the queue for the registry and the next waiting job
      starts. */
  lemma ConvertedPreserves(s: QueueState, mp3Path: Path, now: int)
    requires ServiceInv(s) && Converting(s) && mp3Path != "" && ClockAfter(s, now)
    ensures var r := OnConverted(s, mp3Path, now);
      && ServiceInv(r) && ClockAfter(r, now)
      && IdsOf(r.queue) == IdsOf(s.queue)[1..]
      && Ids(r.queue) + multiset{s.queue[0].id} == Ids(s.queue)
      && Ids(r.completed) <= Ids(s.completed) + multiset{s.queue[0].id}
      && s.queue[0].id in Ids(r.completed)
  {
    var t := ReportSuccess(s, mp3Path);
    FinishPreserves(t, now);
    IdsOfAfterHead(s.queue, t.queue);
    IdsOfAfterHead(s.queue, OnConverted(s, mp3Path, now).queue);
  }

  /** A failed conversion keeps the shape in the same way. */
  lemma ConversionErrorPreserves(s: QueueState, message: string, now: int)
    requires ServiceInv(s) && Converting(s) && ClockAfter(s, now)
    ensures var r := OnConversionError(s, message, now);
      && ServiceInv(r) && ClockAfter(r, now)
      && IdsOf(r.queue) == IdsOf(s.queue)[1..]
      && Ids(r.queue) + multiset{s.queue[0].id} == Ids(s.queue)
      && Ids(r.completed) <= Ids(s.completed) + multiset{s.queue[0].id}
      && s.queue[0].id in Ids(r.completed)
  {
    var t := ReportFailure(s, message);
    FinishPreserves(t, now);
    IdsOfAfterHead(s.queue, t.queue);
    IdsOfAfterHead(s.queue, OnConversionError(s, message, now).queue);
  }

  /** Accounting for a queue whose head has been replaced by a job with the
      same id (`t`), and for a later queue `r` holding the ids behind it. */
  lemma IdsOfAfterHead(q: seq<Job>, r: seq<Job>)
    requires |q| > 0
    ensures IdsOf(r) == IdsOf(q)[1..] ==> Ids(r) + multiset{q[0].id} == Ids(q)
    ensures |r| == |q| && r[0].id == q[0].id && (forall i :: 1 <= i < |q| ==> r[i] == q[i]) ==> IdsOf(r) == IdsOf(q)
  {
    if IdsOf(r) == IdsOf(q)[1..] {
      assert IdsOf(q) == [q[0].id] + IdsOf(r);
    }
  }

  // ---------------------------------------------------------------------
  // The retention sweep

  /** On a registry in completion order the sweep removes exactly the
      expired entries: everything it evicts has been kept longer than the
      retention period, and everything it keeps has not (an entry exactly at
      the limit is kept). */
  lemma SweepEvictsExactlyExpired(s: QueueState, now: int)
    requires SortedByCompletion(s.completed)
    ensures var k := EvictCount(s.completed, now);
      && (forall i :: 0 <= i < k ==> now - CompletedAt(s.completed[i]) > RetentionPeriod)
      && (forall i :: k <= i < |s.completed| ==> now - CompletedAt(s.completed[i]) <= RetentionPeriod)
    ensures CleanupCompletedJobs(s, now).completed == s.completed[EvictCount(s.completed, now)..]
  {
  }

  /** With unique ids, a job the sweep evicted can no longer be found. */
  lemma SweptJobIsGone(s: QueueState, now: int, j: nat)
    requires AtMostOnce(Ids(s.queue) + Ids(s.completed))
    requires j < EvictCount(s.completed, now)
    ensures GetJobById(CleanupCompletedJobs(s, now), s.completed[j].id).None?
  {
    var c := s.completed;
    var k := EvictCount(c, now);
    var x := c[j].id;
    assert c == c[..k] + c[k..];
    IdsConcat(c[..k], c[k..]);
    IdsHas(c[..k], j);
    assert (Ids(s.queue) + Ids(c))[x] <= 1;
    IdsAbsent(s.queue, x);
    IdsAbsent(c[k..], x);
  }

  /** With unique ids, an entry that has expired by `now` is gone from the
      registry after the sweep that follows the next finished job `h`. */
  lemma ExpiredEntryIsSwept(c0: seq<Job>, h: Job, now: int, j: nat)
    requires SortedByCompletion(c0) && j < |c0| && Expired(c0[j], now)
    requires AtMostOnce(Ids(c0) + multiset{h.id})
    ensures var c := c0 + [h]; c0[j].id !in Ids(c[EvictCount(c, now)..])
  {
    var c := c0 + [h];
    var k := EvictCount(c, now);
    var x := c0[j].id;
    // everything up to the expired entry finished no later, so has expired too
    forall i | 0 <= i <= j
      ensures Expired(c[i], now)
    {
      assert CompletedAt(c0[i]) <= CompletedAt(c0[j]);
    }
    assert j < k;
    assert c == c[..k] + c[k..];
    IdsConcat(c[..k], c[k..]);
    IdsConcat(c0, [h]);
    assert IdsOf([h]) == [h.id];
    IdsHas(c[..k], j);
    assert Ids(c)[x] <= 1;
  }
}
