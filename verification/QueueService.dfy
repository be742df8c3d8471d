/** What the ingestion queue does for those who submit jobs and those who carry them out: backend/database.py, lines 717-921. */
module QueueService {
  import opened Text
  import opened JobQueue
  import opened QueueSafety

  // ----- submissions -----

  predicate IsFor(j: Job, sub: Submission) {
    sub.versionId.Some? && j.versionId == sub.versionId && j.kind == sub.kind
  }

  /** The row waits and is due at once, with the payload and the limit that were submitted and no trace of a run. */
  predicate IsFresh(j: Job, sub: Submission) {
    j.kind == sub.kind && j.versionId == sub.versionId && j.payload == sub.payload && j.status == Waiting && j.attempts == 0
    && j.maxAttempts == (if sub.maxAttempts < 1 then 1 else sub.maxAttempts) && j.lockedBy.None? && j.heartbeatAt.None?
    && j.startedAt.None? && j.finishedAt.None? && j.nextAttemptAt.None? && j.lastError.None?
  }

  predicate IsNewRow(j: Job, sub: Submission) {
    IsFresh(j, sub) && j.documentId == sub.documentId && j.priority == sub.priority && j.createdBy == Cut(sub.createdBy, 64)
  }

  /** A row submitted again starts over, but keeps its document and its priority. */
  predicate IsRenewed(j: Job, prior: Job, sub: Submission) {
    IsFresh(j, sub) && j.documentId == prior.documentId && j.priority == prior.priority
    && j.createdBy == if sub.createdBy == "" then prior.createdBy else Cut(sub.createdBy, 64)
  }

  lemma {:induction false} FindsTheRow(jobs: seq<Job>, sub: Submission, i: nat, from: nat)
    requires OneRowEach(jobs) && from <= i < |jobs| && IsFor(jobs[i], sub)
    ensures FindJob(jobs, sub.kind, sub.versionId.value, from) == Some(i)
    decreases |jobs| - from
  {
    if from < i {
      FindsTheRow(jobs, sub, i, from + 1);
    }
  }

  lemma {:induction false} FindsNone(jobs: seq<Job>, sub: Submission, from: nat)
    requires sub.versionId.Some? && forall j | j in jobs :: !IsFor(j, sub)
    ensures FindJob(jobs, sub.kind, sub.versionId.value, from).None?
    decreases |jobs| - from
  {
    if from < |jobs| {
      assert jobs[from] in jobs;
      FindsNone(jobs, sub, from + 1);
    }
  }

  /** The first submission of a version for a kind of job adds one row, at the end, and touches no other. */
  lemma NewSubmission(jobs: seq<Job>, sub: Submission)
    requires forall j | j in jobs :: !IsFor(j, sub)
    ensures Enqueue(jobs, sub).Ok?
    ensures var (after, id) := Enqueue(jobs, sub).value;
            id == |jobs| && |after| == |jobs| + 1 && after[..id] == jobs && IsNewRow(after[id], sub)
  {
    if sub.versionId.Some? {
      FindsNone(jobs, sub, 0);
    }
  }

  /** A later one is refused exactly while that row runs, and else renews the row. */
  lemma RepeatedSubmission(jobs: seq<Job>, sub: Submission, i: nat)
    requires OneRowEach(jobs) && i < |jobs| && IsFor(jobs[i], sub)
    ensures Enqueue(jobs, sub).Error? <==> jobs[i].status == Running
    ensures Enqueue(jobs, sub).Ok? ==>
              var (after, id) := Enqueue(jobs, sub).value;
              id == i && |after| == |jobs| && IsRenewed(after[i], jobs[i], sub)
              && forall k | 0 <= k < |jobs| && k != i :: after[k] == jobs[k]
  {
    FindsTheRow(jobs, sub, i, 0);
  }

  // ----- claims -----

  /** Waiting, with attempts left, and not held back by a backoff. */
  predicate IsDue(j: Job, now: int) {
    j.status == Waiting && j.attempts < j.maxAttempts && (j.nextAttemptAt == None || j.nextAttemptAt.value <= now)
  }

  /** The smaller priority number goes first, and the older row among equals. */
  ghost predicate GoesFirst(jobs: seq<Job>, id: nat, now: int) {
    id < |jobs| && IsDue(jobs[id], now)
    && forall i | 0 <= i < |jobs| && i != id && IsDue(jobs[i], now) ::
         jobs[id].priority < jobs[i].priority || (jobs[id].priority == jobs[i].priority && id < i)
  }

  /** The row now runs under this worker, and one attempt more is used. */
  predicate IsTaken(after: Job, before: Job, worker: string, now: int) {
    after == before.(status := Running, attempts := before.attempts + 1, heartbeatAt := Some(now),
                     lockedBy := Some(Cut(if worker == "" then "worker" else worker, 64)),
                     startedAt := if before.startedAt == None then Some(now) else before.startedAt)
  }

  /** A claim comes back empty exactly when nothing is due, and else takes the row that goes first and no other. */
  lemma ClaimTakesTheFirst(jobs: seq<Job>, worker: string, now: int)
    ensures Claim(jobs, worker, now).None? <==> forall j | j in jobs :: !IsDue(j, now)
    ensures Claim(jobs, worker, now).Some? ==>
              var (after, id) := Claim(jobs, worker, now).value;
              GoesFirst(jobs, id, now) && |after| == |jobs| && IsTaken(after[id], jobs[id], worker, now)
              && forall k | 0 <= k < |jobs| && k != id :: after[k] == jobs[k]
  {
    var found := Candidate(jobs, now, 0);
    assert forall j :: Claimable(j, now) == IsDue(j, now);
    if found.Some? {
      assert jobs[found.value] in jobs;
    }
  }

  // ----- holding a job -----

  /** The job runs under this owner, who last reported at `beat`. */
  predicate RunsUnder(jobs: seq<Job>, id: nat, owner: string, beat: int) {
    id < |jobs| && jobs[id].status == Running && jobs[id].lockedBy == Some(owner) && jobs[id].heartbeatAt == Some(beat)
  }

  /** A worker's name stands for the owner if it is the owner's, cut to 64, or left out. */
  predicate SpeaksFor(worker: string, owner: string) {
    worker == "" || Cut(worker, 64) == owner
  }

  /** What the owner's completion makes of the row, and nobody else's. */
  lemma CompletionFinishesIff(jobs: seq<Job>, cap: int, id: nat, owner: string, beat: int, worker: string, now: int)
    requires RunsUnder(jobs, id, owner, beat)
    ensures var after := Step(jobs, cap, JobEvent(now, OpComplete(id, worker)));
            if SpeaksFor(worker, owner) then
              after == jobs[id := jobs[id].(status := Succeeded, finishedAt := Some(now), heartbeatAt := Some(now),
                                            lockedBy := None, lastError := None)]
            else after == jobs
  {
  }

  /** A sweep at `now` takes a running job away exactly when its last beat is more than max(30, timeout) seconds old. */
  lemma SweepTakesIff(jobs: seq<Job>, cap: int, id: nat, owner: string, beat: int, timeout: int, now: int)
    requires RunsUnder(jobs, id, owner, beat)
    ensures var after := Step(jobs, cap, JobEvent(now, OpReclaim(timeout)));
            |after| == |jobs|
            && (if now - beat <= 30 || now - beat <= timeout then after[id] == jobs[id]
                else
                  var j := jobs[id].(lockedBy := None, heartbeatAt := None,
                                     lastError := if jobs[id].lastError == None then Some("job_abandoned") else jobs[id].lastError);
                  after[id] == if j.attempts < j.maxAttempts then j.(status := Waiting)
                               else j.(status := JobFailed, finishedAt := Some(now)))
  {
  }

  /**
   * Up to the end of the run the owner's last beat is never too old at a sweep, and nobody reports the job's end in the
   * owner's name or its failure in anybody's.
   */
  ghost predicate BeatsInTime(events: seq<JobEvent>, id: nat, owner: string, beat: int)
    decreases |events|
  {
    events == []
    || var now, rest := events[0].now, events[1..];
       match events[0].op
       case OpHeartbeat(i, worker) => BeatsInTime(rest, id, owner, if i == id && SpeaksFor(worker, owner) then now else beat)
       case OpReclaim(timeout) => (now - beat <= 30 || now - beat <= timeout) && BeatsInTime(rest, id, owner, beat)
       case OpComplete(i, worker) => !(i == id && SpeaksFor(worker, owner)) && BeatsInTime(rest, id, owner, beat)
       case OpFail(i, _, _) => i != id && BeatsInTime(rest, id, owner, beat)
       case _ => BeatsInTime(rest, id, owner, beat)
  }

  /** The owner still runs the same attempt of the same job. */
  ghost predicate SameAttempt(jobs: seq<Job>, after: seq<Job>, id: nat) {
    id < |jobs| && id < |after|
    && after[id] == jobs[id].(heartbeatAt := after[id].heartbeatAt)
  }

  lemma BeatStep(jobs: seq<Job>, cap: int, e: JobEvent, id: nat, owner: string, beat: int)
    requires RunsUnder(jobs, id, owner, beat)
    requires BeatsInTime([e], id, owner, beat)
    ensures var after := Step(jobs, cap, e);
            SameAttempt(jobs, after, id)
            && RunsUnder(after, id, owner,
                         if e.op.OpHeartbeat? && e.op.id == id && SpeaksFor(e.op.worker, owner) then e.now else beat)
  {
  }

  lemma BeatsSplit(events: seq<JobEvent>, id: nat, owner: string, beat: int)
    requires events != [] && BeatsInTime(events, id, owner, beat)
    ensures BeatsInTime([events[0]], id, owner, beat)
    ensures BeatsInTime(events[1..], id, owner,
                        if events[0].op.OpHeartbeat? && events[0].op.id == id && SpeaksFor(events[0].op.worker, owner)
                        then events[0].now else beat)
  {
  }

  /**
   * A worker that beats in time keeps its job: whatever other workers and operators do meanwhile - submit, claim,
   * sweep, retry, cancel, report on other jobs or in their own names - it still runs the same attempt afterwards.
   */
  lemma {:induction false} BeatingKeepsTheJob(jobs: seq<Job>, cap: int, events: seq<JobEvent>, id: nat, owner: string, beat: int)
    requires RunsUnder(jobs, id, owner, beat) && BeatsInTime(events, id, owner, beat)
    ensures SameAttempt(jobs, RunJobs(jobs, cap, events), id)
    decreases |events|
  {
    if events != [] {
      BeatsSplit(events, id, owner, beat);
      BeatStep(jobs, cap, events[0], id, owner, beat);
      BeatingKeepsTheJob(Step(jobs, cap, events[0]), cap, events[1..], id, owner,
                         if events[0].op.OpHeartbeat? && events[0].op.id == id && SpeaksFor(events[0].op.worker, owner)
                         then events[0].now else beat);
    }
  }

  // ----- failures -----

  /** The first failure waits 30 seconds, each later one twice as long as the one before, and none longer than the cap. */
  lemma DelayDoubles(cap: int, attempts: nat)
    requires cap >= 0 && attempts >= 1
    ensures Delay(cap, 1) == Min(cap, 30)
    ensures Delay(cap, attempts + 1) == Min(cap, 2 * Delay(cap, attempts))
  {
  }

  /** What a failure report writes: a retryable one with attempts left delays the job, any other ends it. */
  lemma FailureIsRecorded(jobs: seq<Job>, cap: int, id: nat, code: string, retryable: bool, now: int)
    requires id < |jobs|
    ensures var j, after := jobs[id], Step(jobs, cap, JobEvent(now, OpFail(id, code, retryable)));
            var error := Some(Cut(if code == "" then "job_failed" else code, 64));
            after == jobs[id := if retryable && j.attempts < j.maxAttempts then
                                  j.(status := Waiting, lastError := error, lockedBy := None, heartbeatAt := None,
                                     nextAttemptAt := Some(now + Delay(cap, j.attempts)))
                                else
                                  j.(status := JobFailed, lastError := error, lockedBy := None, heartbeatAt := None,
                                     finishedAt := Some(now), nextAttemptAt := None)]
  {
  }

  /** An operator may retry what has ended and cancel what waits; a retry starts over but keeps the time of the next attempt. */
  lemma OperatorsMayIff(jobs: seq<Job>, id: nat, now: int)
    ensures Retry(jobs, id).Ok? <==> id < |jobs| && jobs[id].status in {Succeeded, JobFailed, Cancelled}
    ensures Retry(jobs, id).Ok? ==>
              Retry(jobs, id).value == jobs[id := jobs[id].(status := Waiting, attempts := 0, lastError := None, lockedBy := None,
                                                            heartbeatAt := None, startedAt := None, finishedAt := None)]
    ensures Cancel(jobs, id, now).Ok? <==> id < |jobs| && jobs[id].status == Waiting
    ensures Cancel(jobs, id, now).Ok? ==>
              Cancel(jobs, id, now).value
              == jobs[id := jobs[id].(status := Cancelled, finishedAt := Some(now), lastError := Some("cancelled"))]
  {
  }
}
