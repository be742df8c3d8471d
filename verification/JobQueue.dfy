/**
 * backend/database.py, lines 717-1005: the ingestion queue. Rows live in a sequence; a row's id is its
 * position. `lockedBy` stands for the pair locked_by / locked_at, which are always written together.
 */
module JobQueue {
  import opened Text

  datatype JobKind = ImportJob | ReindexJob | WithdrawJob | EvaluateJob

  datatype JobStatus = Waiting | Running | Succeeded | JobFailed | Cancelled

  datatype Job = Job(
    kind: JobKind, status: JobStatus, priority: int, documentId: Option<nat>, versionId: Option<nat>,
    payload: map<string, string>, attempts: nat, maxAttempts: nat, lastError: Option<string>,
    lockedBy: Option<string>, heartbeatAt: Option<int>, createdBy: string, startedAt: Option<int>,
    finishedAt: Option<int>, nextAttemptAt: Option<int>)

  const NAME_LIMIT: nat := 64

  function Pow2(n: nat): (r: nat)
    ensures r >= 1
  {
    if n == 0 then 1 else 2 * Pow2(n - 1)
  }

  /** Seconds until the next attempt after `attempts` claims. */
  function Delay(cap: int, attempts: nat): int {
    Min(Max(0, cap), Pow2(if attempts == 0 then 0 else attempts - 1) * 30)
  }

  predicate Due(j: Job, now: int) {
    j.nextAttemptAt.None? || j.nextAttemptAt.value <= now
  }

  predicate Claimable(j: Job, now: int) {
    j.status == Waiting && j.attempts < j.maxAttempts && Due(j, now)
  }

  // ----- selection -----

  function FindJob(jobs: seq<Job>, kind: JobKind, versionId: nat, from: nat): (r: Option<nat>)
    ensures r.Some? ==> from <= r.value < |jobs| && jobs[r.value].kind == kind && jobs[r.value].versionId == Some(versionId)
    decreases |jobs| - from
  {
    if from >= |jobs| then None
    else if jobs[from].kind == kind && jobs[from].versionId == Some(versionId) then Some(from)
    else FindJob(jobs, kind, versionId, from + 1)
  }

  /** `ORDER BY priority, id LIMIT 1` over the claimable rows from `from` on. */
  function Candidate(jobs: seq<Job>, now: int, from: nat): (r: Option<nat>)
    ensures r.Some? ==> from <= r.value < |jobs| && Claimable(jobs[r.value], now)
    ensures r.None? ==> forall i | from <= i < |jobs| :: !Claimable(jobs[i], now)
    ensures r.Some? ==> forall i | from <= i < |jobs| && Claimable(jobs[i], now) ::
              jobs[r.value].priority < jobs[i].priority || (jobs[r.value].priority == jobs[i].priority && r.value <= i)
    decreases |jobs| - from
  {
    if from >= |jobs| then None
    else
      var rest := Candidate(jobs, now, from + 1);
      if Claimable(jobs[from], now) && (rest.None? || jobs[from].priority <= jobs[rest.value].priority)
      then Some(from) else rest
  }

  // ----- operations -----

  function Requeued(j: Job): Job {
    j.(status := Waiting, attempts := 0, lastError := None, lockedBy := None, heartbeatAt := None,
       startedAt := None, finishedAt := None)
  }

  datatype Submission = Submission(
    kind: JobKind, documentId: Option<nat>, versionId: Option<nat>, payload: map<string, string>, createdBy: string,
    maxAttempts: int, priority: int)

  /** enqueue_ingestion_job: one row per kind and version; a row that is not running is reset. */
  function Enqueue(jobs: seq<Job>, sub: Submission): Result<(seq<Job>, nat)> {
    var limit := Max(1, sub.maxAttempts);
    var existing := if sub.versionId.Some? then FindJob(jobs, sub.kind, sub.versionId.value, 0) else None;
    if existing.Some? then
      var j := jobs[existing.value];
      if j.status == Running then Error("job_already_running")
      else Ok((jobs[existing.value := Requeued(j).(
                 maxAttempts := limit, nextAttemptAt := None, payload := sub.payload,
                 createdBy := if sub.createdBy == "" then j.createdBy else Cut(sub.createdBy, NAME_LIMIT))],
               existing.value))
    else
      Ok((jobs + [Job(sub.kind, Waiting, sub.priority, sub.documentId, sub.versionId, sub.payload, 0, limit, None, None,
                      None, Cut(sub.createdBy, NAME_LIMIT), None, None, None)], |jobs|))
  }

  function WorkerName(worker: string): string {
    Cut(if worker == "" then "worker" else worker, NAME_LIMIT)
  }

  /** The conditional update of a claim: it rechecks the status and nothing else. */
  function ClaimRow(jobs: seq<Job>, id: nat, worker: string, now: int): Option<seq<Job>> {
    if id >= |jobs| || jobs[id].status != Waiting then None
    else
      var j := jobs[id];
      Some(jobs[id := j.(status := Running, attempts := j.attempts + 1, lockedBy := Some(WorkerName(worker)),
                         heartbeatAt := Some(now), startedAt := if j.startedAt.Some? then j.startedAt else Some(now))])
  }

  /** The PostgreSQL claim: selection and update are one statement. */
  function Claim(jobs: seq<Job>, worker: string, now: int): Option<(seq<Job>, nat)> {
    match Candidate(jobs, now, 0)
    case None => None
    case Some(id) =>
      match ClaimRow(jobs, id, worker, now)
      case None => None
      case Some(after) => Some((after, id))
  }

  predicate HeldBy(j: Job, worker: string) {
    j.status == Running && (worker == "" || j.lockedBy == Some(Cut(worker, NAME_LIMIT)))
  }

  function Heartbeat(jobs: seq<Job>, id: nat, worker: string, now: int): seq<Job> {
    if id < |jobs| && HeldBy(jobs[id], worker) then jobs[id := jobs[id].(heartbeatAt := Some(now))] else jobs
  }

  function Complete(jobs: seq<Job>, id: nat, worker: string, now: int): seq<Job> {
    if id < |jobs| && HeldBy(jobs[id], worker) then
      jobs[id := jobs[id].(status := Succeeded, finishedAt := Some(now), lockedBy := None, heartbeatAt := Some(now),
                           lastError := None)]
    else jobs
  }

  /** fail_ingestion_job: neither the owner nor the status is checked. */
  function Fail(jobs: seq<Job>, id: nat, code: string, retryable: bool, cap: int, now: int): Result<seq<Job>> {
    if id >= |jobs| then Error("job_not_found")
    else
      var j := jobs[id].(lastError := Some(Cut(if code == "" then "job_failed" else code, NAME_LIMIT)),
                         lockedBy := None, heartbeatAt := None);
      if retryable && j.attempts < j.maxAttempts then
        Ok(jobs[id := j.(status := Waiting, nextAttemptAt := Some(now + Delay(cap, j.attempts)))])
      else Ok(jobs[id := j.(status := JobFailed, finishedAt := Some(now), nextAttemptAt := None)])
  }

  predicate Stale(j: Job, now: int, timeout: int) {
    j.status == Running && j.heartbeatAt.Some? && j.heartbeatAt.value < now - Max(30, timeout)
  }

  function ReclaimOne(j: Job, now: int, timeout: int): Job {
    if !Stale(j, now, timeout) then j
    else
      var freed := j.(lastError := if j.lastError.Some? then j.lastError else Some("job_abandoned"),
                      lockedBy := None, heartbeatAt := None);
      if j.attempts < j.maxAttempts then freed.(status := Waiting)
      else freed.(status := JobFailed, finishedAt := Some(now))
  }

  function Reclaim(jobs: seq<Job>, now: int, timeout: int): (after: seq<Job>)
    ensures |after| == |jobs|
    ensures forall i | 0 <= i < |jobs| :: after[i] == ReclaimOne(jobs[i], now, timeout)
  {
    seq(|jobs|, i requires 0 <= i < |jobs| => ReclaimOne(jobs[i], now, timeout))
  }

  /** retry_ingestion_job: note that next_attempt_at is kept. */
  function Retry(jobs: seq<Job>, id: nat): Result<seq<Job>> {
    if id >= |jobs| then Error("job_not_found")
    else if jobs[id].status == Waiting || jobs[id].status == Running then Error("job_already_active")
    else Ok(jobs[id := Requeued(jobs[id])])
  }

  function Cancel(jobs: seq<Job>, id: nat, now: int): Result<seq<Job>> {
    if id >= |jobs| then Error("job_not_found")
    else if jobs[id].status != Waiting then Error("job_not_cancellable")
    else Ok(jobs[id := jobs[id].(status := Cancelled, finishedAt := Some(now), lastError := Some("cancelled"))])
  }

  // ----- the queue as a transition system -----

  /** `OpClaimRow` is the second half of the SQLite claim, on a candidate selected at any earlier time. */
  datatype JobOp =
    | OpEnqueue(sub: Submission)
    | OpClaim(worker: string)
    | OpClaimRow(worker: string, id: nat)
    | OpHeartbeat(id: nat, worker: string)
    | OpComplete(id: nat, worker: string)
    | OpFail(id: nat, code: string, retryable: bool)
    | OpReclaim(timeout: int)
    | OpRetry(id: nat)
    | OpCancel(id: nat)

  datatype JobEvent = JobEvent(now: int, op: JobOp)

  function Step(jobs: seq<Job>, cap: int, e: JobEvent): seq<Job> {
    match e.op
    case OpEnqueue(sub) => (match Enqueue(jobs, sub) case Ok((after, _)) => after case Error(_) => jobs)
    case OpClaim(worker) => (match Claim(jobs, worker, e.now) case Some((after, _)) => after case None => jobs)
    case OpClaimRow(worker, id) => (match ClaimRow(jobs, id, worker, e.now) case Some(after) => after case None => jobs)
    case OpHeartbeat(id, worker) => Heartbeat(jobs, id, worker, e.now)
    case OpComplete(id, worker) => Complete(jobs, id, worker, e.now)
    case OpFail(id, code, retryable) =>
      (match Fail(jobs, id, code, retryable, cap, e.now) case Ok(after) => after case Error(_) => jobs)
    case OpReclaim(timeout) => Reclaim(jobs, e.now, timeout)
    case OpRetry(id) => (match Retry(jobs, id) case Ok(after) => after case Error(_) => jobs)
    case OpCancel(id) => (match Cancel(jobs, id, e.now) case Ok(after) => after case Error(_) => jobs)
  }

  function RunJobs(jobs: seq<Job>, cap: int, events: seq<JobEvent>): seq<Job>
    decreases |events|
  {
    if events == [] then jobs else RunJobs(Step(jobs, cap, events[0]), cap, events[1..])
  }

  /** Which job, if any, this event claims. */
  function ClaimedBy(jobs: seq<Job>, e: JobEvent): Option<nat> {
    match e.op
    case OpClaim(worker) => Candidate(jobs, e.now, 0)
    case OpClaimRow(worker, id) => if id < |jobs| && jobs[id].status == Waiting then Some(id) else None
    case _ => None
  }

  function Claims(jobs: seq<Job>, cap: int, events: seq<JobEvent>): nat
    decreases |events|
  {
    if events == [] then 0
    else (if ClaimedBy(jobs, events[0]).Some? then 1 else 0) + Claims(Step(jobs, cap, events[0]), cap, events[1..])
  }
}
