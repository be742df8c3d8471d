/** What the ingestion queue keeps over every interleaving of workers and operators. */
module QueueSafety {
  import opened Text
  import opened JobQueue

  ghost predicate JobOk(j: Job) {
    j.attempts <= j.maxAttempts && j.maxAttempts >= 1
    && (j.status == Waiting ==> j.attempts < j.maxAttempts)
    && (j.status == Running <==> j.lockedBy.Some?)
    && (j.status == Running ==> j.heartbeatAt.Some? && j.attempts >= 1)
  }

  ghost predicate QueueOk(jobs: seq<Job>) {
    forall i | 0 <= i < |jobs| :: JobOk(jobs[i])
  }

  /** What one step may do to one row: ownership is only taken by a claim and only given up, never passed on. */
  ghost predicate RowStep(before: Job, after: Job, claimed: bool) {
    after.kind == before.kind && after.versionId == before.versionId && after.priority == before.priority
    && (claimed ==> before.lockedBy.None? && after.lockedBy.Some? && after.attempts == before.attempts + 1
                    && after.maxAttempts == before.maxAttempts)
    && (!claimed ==> after.lockedBy == before.lockedBy || after.lockedBy.None?)
  }

  ghost predicate GoodStep(before: seq<Job>, after: seq<Job>, claimed: Option<nat>) {
    QueueOk(after) && |before| <= |after|
    && forall i | 0 <= i < |before| :: RowStep(before[i], after[i], claimed == Some(i))
  }

  lemma RowUpdate(jobs: seq<Job>, id: nat, j: Job, claimed: bool)
    requires QueueOk(jobs) && id < |jobs| && JobOk(j) && RowStep(jobs[id], j, claimed)
    ensures GoodStep(jobs, jobs[id := j], if claimed then Some(id) else None)
  {
  }

  lemma NoChange(jobs: seq<Job>)
    requires QueueOk(jobs)
    ensures GoodStep(jobs, jobs, None)
  {
  }

  lemma ClaimStep(jobs: seq<Job>, id: nat, worker: string, now: int)
    requires QueueOk(jobs) && id < |jobs| && jobs[id].status == Waiting
    ensures ClaimRow(jobs, id, worker, now).Some?
    ensures GoodStep(jobs, ClaimRow(jobs, id, worker, now).value, Some(id))
  {
  }

  lemma ReclaimStep(jobs: seq<Job>, now: int, timeout: int)
    requires QueueOk(jobs)
    ensures GoodStep(jobs, Reclaim(jobs, now, timeout), None)
  {
  }

  lemma EnqueueStep(jobs: seq<Job>, sub: Submission)
    requires QueueOk(jobs) && Enqueue(jobs, sub).Ok?
    ensures GoodStep(jobs, Enqueue(jobs, sub).value.0, None)
  {
  }

  lemma SingleRowStep(jobs: seq<Job>, cap: int, e: JobEvent)
    requires QueueOk(jobs)
    requires e.op.OpHeartbeat? || e.op.OpComplete? || e.op.OpFail? || e.op.OpRetry? || e.op.OpCancel?
    ensures GoodStep(jobs, Step(jobs, cap, e), None)
  {
    var after := Step(jobs, cap, e);
    NoChange(jobs);
    if e.op.id < |jobs| {
      assert JobOk(jobs[e.op.id]);
      RowUpdate(jobs, e.op.id, after[e.op.id], false);
      assert after == jobs[e.op.id := after[e.op.id]];
    }
  }

  lemma StepKeepsQueue(jobs: seq<Job>, cap: int, e: JobEvent)
    requires QueueOk(jobs)
    ensures GoodStep(jobs, Step(jobs, cap, e), ClaimedBy(jobs, e))
  {
    NoChange(jobs);
    match e.op
    case OpEnqueue(sub) => if Enqueue(jobs, sub).Ok? { EnqueueStep(jobs, sub); }
    case OpClaim(worker) =>
      var c := Candidate(jobs, e.now, 0);
      if c.Some? { ClaimStep(jobs, c.value, worker, e.now); }
    case OpClaimRow(worker, id) => if id < |jobs| && jobs[id].status == Waiting { ClaimStep(jobs, id, worker, e.now); }
    case OpReclaim(timeout) => ReclaimStep(jobs, e.now, timeout);
    case _ => SingleRowStep(jobs, cap, e);
  }

  /**
   * In every reachable state: a waiting job has attempts left, a running job is exactly one with an
   * owner and always has a heartbeat (so it can be reclaimed), and attempts never exceed the limit.
   */
  lemma {:induction false} RunsKeepQueue(jobs: seq<Job>, cap: int, events: seq<JobEvent>)
    requires QueueOk(jobs)
    ensures QueueOk(RunJobs(jobs, cap, events))
    decreases |events|
  {
    if events != [] {
      StepKeepsQueue(jobs, cap, events[0]);
      RunsKeepQueue(Step(jobs, cap, events[0]), cap, events[1..]);
    }
  }

  /** Of two workers that selected the same candidate, the second conditional update finds nothing to change. */
  lemma OneWinnerPerCandidate(jobs: seq<Job>, id: nat, first: string, second: string, t1: int, t2: int)
    requires ClaimRow(jobs, id, first, t1).Some?
    ensures ClaimRow(ClaimRow(jobs, id, first, t1).value, id, second, t2).None?
    ensures ClaimRow(jobs, id, first, t1).value[id].lockedBy == Some(WorkerName(first))
  {
  }

  /** No two rows have the same kind and version. */
  ghost predicate OneRowEach(jobs: seq<Job>) {
    forall i, j | 0 <= i < j < |jobs| && jobs[i].versionId.Some? ::
      !(jobs[j].versionId == jobs[i].versionId && jobs[j].kind == jobs[i].kind)
  }

  lemma {:induction false} NotFound(jobs: seq<Job>, kind: JobKind, versionId: nat, from: nat)
    requires FindJob(jobs, kind, versionId, from).None?
    ensures forall i | from <= i < |jobs| :: !(jobs[i].versionId == Some(versionId) && jobs[i].kind == kind)
    decreases |jobs| - from
  {
    if from < |jobs| {
      NotFound(jobs, kind, versionId, from + 1);
    }
  }

  lemma StepKeepsOneRow(jobs: seq<Job>, cap: int, e: JobEvent)
    requires QueueOk(jobs) && OneRowEach(jobs)
    ensures OneRowEach(Step(jobs, cap, e))
  {
    var after := Step(jobs, cap, e);
    StepKeepsQueue(jobs, cap, e);
    StepAddsOne(jobs, cap, e);
    assert forall i | 0 <= i < |jobs| :: RowStep(jobs[i], after[i], ClaimedBy(jobs, e) == Some(i));
    SameRowsKeep(jobs, after[..|jobs|]);
    if |after| > |jobs| {
      assert after == after[..|jobs|] + [after[|jobs|]];
      NewRowKeeps(after[..|jobs|], after[|jobs|]);
    }
  }

  lemma SameRowsKeep(before: seq<Job>, after: seq<Job>)
    requires OneRowEach(before) && |after| == |before|
    requires forall i | 0 <= i < |before| :: after[i].kind == before[i].kind && after[i].versionId == before[i].versionId
    ensures OneRowEach(after)
  {
  }

  lemma NewRowKeeps(jobs: seq<Job>, j: Job)
    requires OneRowEach(jobs)
    requires j.versionId.Some? ==> forall i | 0 <= i < |jobs| :: !(jobs[i].versionId == j.versionId && jobs[i].kind == j.kind)
    ensures OneRowEach(jobs + [j])
  {
  }

  /** Only a submission adds a row, one that no row has the kind and version of. */
  lemma StepAddsOne(jobs: seq<Job>, cap: int, e: JobEvent)
    ensures var after := Step(jobs, cap, e);
            |jobs| <= |after| <= |jobs| + 1
            && (|after| > |jobs| && after[|jobs|].versionId.Some? ==>
                  forall i | 0 <= i < |jobs| ::
                    !(jobs[i].versionId == after[|jobs|].versionId && jobs[i].kind == after[|jobs|].kind))
  {
    if e.op.OpEnqueue? && e.op.sub.versionId.Some? && FindJob(jobs, e.op.sub.kind, e.op.sub.versionId.value, 0).None? {
      NotFound(jobs, e.op.sub.kind, e.op.sub.versionId.value, 0);
    }
  }

  /** However often a version is submitted, by whomever and in whatever interleaving: one row for each kind of job. */
  lemma {:induction false} RunsKeepOneRow(jobs: seq<Job>, cap: int, events: seq<JobEvent>)
    requires QueueOk(jobs) && OneRowEach(jobs)
    ensures OneRowEach(RunJobs(jobs, cap, events))
    decreases |events|
  {
    if events != [] {
      StepKeepsQueue(jobs, cap, events[0]);
      StepKeepsOneRow(jobs, cap, events[0]);
      RunsKeepOneRow(Step(jobs, cap, events[0]), cap, events[1..]);
    }
  }

  /** An operator's retry keeps the waiting time of the failure before it; a new submission is due at once. */
  lemma RetriedIsClaimableIff(jobs: seq<Job>, sub: Submission, id: nat, now: int)
    requires QueueOk(jobs) && Retry(jobs, id).Ok?
    ensures Claimable(Retry(jobs, id).value[id], now) <==> Due(jobs[id], now)
    ensures Enqueue(jobs, sub).Ok? ==> Claimable(Enqueue(jobs, sub).value.0[Enqueue(jobs, sub).value.1], now)
  {
    assert JobOk(jobs[id]);
  }

  // ----- moves, and late reports -----

  /** The moves between different statuses. A failure report moves a job out of any status. */
  predicate MayMove(s: JobStatus, t: JobStatus) {
    match t
    case Waiting => true
    case JobFailed => true
    case Running => s == Waiting
    case Succeeded => s == Running
    case Cancelled => s == Waiting
  }

  predicate MovesInto(op: JobOp, t: JobStatus) {
    match t
    case Waiting => op.OpEnqueue? || op.OpFail? || op.OpReclaim? || op.OpRetry?
    case JobFailed => op.OpFail? || op.OpReclaim?
    case Running => op.OpClaim? || op.OpClaimRow?
    case Succeeded => op.OpComplete?
    case Cancelled => op.OpCancel?
  }

  /** The one row an operation other than a reclaim is about. */
  function Target(jobs: seq<Job>, e: JobEvent): Option<nat> {
    match e.op
    case OpEnqueue(sub) => if sub.versionId.Some? then FindJob(jobs, sub.kind, sub.versionId.value, 0) else None
    case OpClaim(_) => Candidate(jobs, e.now, 0)
    case OpClaimRow(_, id) => Some(id)
    case OpHeartbeat(id, _) => Some(id)
    case OpComplete(id, _) => Some(id)
    case OpFail(id, _, _) => Some(id)
    case OpReclaim(_) => None
    case OpRetry(id) => Some(id)
    case OpCancel(id) => Some(id)
  }

  /** Every status change is one of the moves, by an operation that may make it, in the row the operation is about. */
  lemma StepMoves(jobs: seq<Job>, cap: int, e: JobEvent, i: nat)
    requires i < |jobs|
    ensures i < |Step(jobs, cap, e)|
    ensures var before, after := jobs[i], Step(jobs, cap, e)[i];
            (after.status != before.status ==> MayMove(before.status, after.status) && MovesInto(e.op, after.status))
            && (after != before ==> Target(jobs, e) == Some(i) || (e.op.OpReclaim? && Stale(before, e.now, e.op.timeout)))
  {
  }

  /** The job comes back to the queue, out of whatever status it had, with attempts left and a retryable failure. */
  predicate GoesBack(j: Job, retryable: bool) {
    retryable && j.attempts < j.maxAttempts
  }

  /**
   * A failure report is checked against neither owner nor status. It leaves the status of a row exactly when the row is
   * where the report would put it: failed already and not to be retried, or waiting already and to be retried.
   */
  lemma FailureReportKeepsIff(jobs: seq<Job>, id: nat, code: string, retryable: bool, cap: int, now: int)
    requires QueueOk(jobs) && id < |jobs|
    ensures var after := Step(jobs, cap, JobEvent(now, OpFail(id, code, retryable)))[id];
            after.lockedBy == None
            && (after.status == jobs[id].status <==>
                  (jobs[id].status == JobFailed && !GoesBack(jobs[id], retryable)) || (jobs[id].status == Waiting && retryable))
  {
    assert JobOk(jobs[id]);
  }

  /**
   * A worker that does not hold the job, be it running under another worker, waiting or finished: its heartbeat and its
   * completion change nothing, and its failure report moves the job unless that is where the job already is.
   */
  lemma LateReports(jobs: seq<Job>, id: nat, late: string, code: string, retryable: bool, cap: int, now: int)
    requires QueueOk(jobs) && id < |jobs| && !HeldBy(jobs[id], late)
    ensures Heartbeat(jobs, id, late, now) == jobs && Complete(jobs, id, late, now) == jobs
    ensures var after := Step(jobs, cap, JobEvent(now, OpFail(id, code, retryable)))[id];
            after.status == (if GoesBack(jobs[id], retryable) then Waiting else JobFailed) && after.lockedBy == None
            && (after.status == jobs[id].status <==>
                  (jobs[id].status == JobFailed && !GoesBack(jobs[id], retryable)) || (jobs[id].status == Waiting && retryable))
  {
    FailureReportKeepsIff(jobs, id, code, retryable, cap, now);
  }

  /**
   * A job that succeeded stays so exactly as long as nobody reports a failure of it, retries it or submits its version
   * again; workers that claim, beat, complete or reclaim cannot change it.
   */
  lemma SucceededStaysIff(jobs: seq<Job>, cap: int, e: JobEvent, id: nat)
    requires QueueOk(jobs) && id < |jobs| && jobs[id].status == Succeeded
    ensures Step(jobs, cap, e)[id].status == Succeeded <==> !(e.op.OpFail? && e.op.id == id) && !Requeues(jobs, e.op, id)
  {
    StepKeepsQueue(jobs, cap, e);
  }

  /** One import, submitted by an operator. */
  function OneImport(versionId: nat): JobOp {
    OpEnqueue(Submission(ImportJob, Some(0), Some(versionId), map[], "", 3, 100))
  }

  /** Worker a takes 700 seconds over an import and is taken for dead; worker b is given the job and completes it. */
  const SLOW_WORKER: seq<JobEvent> := [
    JobEvent(0, OneImport(0)), JobEvent(0, OpClaim("a")), JobEvent(700, OpReclaim(600)), JobEvent(700, OpClaim("b")),
    JobEvent(800, OpComplete(0, "b"))]

  lemma RunFirst(jobs: seq<Job>, cap: int, events: seq<JobEvent>, next: seq<Job>)
    requires events != [] && next == Step(jobs, cap, events[0])
    ensures RunJobs(jobs, cap, events) == RunJobs(next, cap, events[1..])
  {
  }

  /** One row, an import of version 0 that is due, with this status, owner and number of attempts. */
  ghost predicate OnlyImport(jobs: seq<Job>, status: JobStatus, owner: Option<string>, attempts: nat) {
    |jobs| == 1 && jobs[0].kind == ImportJob && jobs[0].versionId == Some(0) && jobs[0].maxAttempts == 3
    && jobs[0].status == status && jobs[0].lockedBy == owner && jobs[0].attempts == attempts && jobs[0].nextAttemptAt == None
  }

  lemma Submitted(cap: int) returns (next: seq<Job>)
    ensures next == Step([], cap, JobEvent(0, OneImport(0))) && OnlyImport(next, Waiting, None, 0)
  {
    next := Step([], cap, JobEvent(0, OneImport(0)));
  }

  lemma Claimed(jobs: seq<Job>, cap: int, now: int, worker: string) returns (next: seq<Job>)
    requires OnlyImport(jobs, Waiting, None, 0) || OnlyImport(jobs, Waiting, None, 1)
    requires WorkerName(worker) == worker
    ensures next == Step(jobs, cap, JobEvent(now, OpClaim(worker)))
    ensures OnlyImport(next, Running, Some(worker), jobs[0].attempts + 1) && next[0].heartbeatAt == Some(now)
  {
    next := Step(jobs, cap, JobEvent(now, OpClaim(worker)));
    assert Candidate(jobs, now, 0) == Some(0);
  }

  lemma Reclaimed(jobs: seq<Job>, cap: int) returns (next: seq<Job>)
    requires OnlyImport(jobs, Running, Some("a"), 1) && jobs[0].heartbeatAt == Some(0)
    ensures next == Step(jobs, cap, JobEvent(700, OpReclaim(600))) && OnlyImport(next, Waiting, None, 1)
  {
    next := Step(jobs, cap, JobEvent(700, OpReclaim(600)));
  }

  lemma Completed(jobs: seq<Job>, cap: int) returns (next: seq<Job>)
    requires OnlyImport(jobs, Running, Some("b"), 2)
    ensures next == Step(jobs, cap, JobEvent(800, OpComplete(0, "b"))) && OnlyImport(next, Succeeded, None, 2)
  {
    next := Step(jobs, cap, JobEvent(800, OpComplete(0, "b")));
  }

  lemma TakenOver(cap: int) returns (freed: seq<Job>)
    ensures RunJobs([], cap, SLOW_WORKER) == RunJobs(freed, cap, SLOW_WORKER[3..]) && OnlyImport(freed, Waiting, None, 1)
  {
    var e := SLOW_WORKER;
    var submitted := Submitted(cap);
    RunFirst([], cap, e, submitted);
    var claimed := Claimed(submitted, cap, 0, "a");
    RunFirst(submitted, cap, e[1..], claimed);
    freed := Reclaimed(claimed, cap);
    RunFirst(claimed, cap, e[2..], freed);
    assert e[1..][1..] == e[2..] && e[2..][1..] == e[3..];
  }

  lemma SlowWorkerRun(cap: int)
    ensures OnlyImport(RunJobs([], cap, SLOW_WORKER), Succeeded, None, 2)
  {
    var e := SLOW_WORKER;
    var freed := TakenOver(cap);
    var claimed := Claimed(freed, cap, 700, "b");
    RunFirst(freed, cap, e[3..], claimed);
    var done := Completed(claimed, cap);
    RunFirst(claimed, cap, e[4..], done);
    assert e[3..][1..] == e[4..] && e[4..][1..] == [];
  }

  /** What a reports at 900 then puts the finished job back in the queue. */
  lemma FinishedJobRunsAgain(cap: int)
    ensures var done := RunJobs([], cap, SLOW_WORKER);
            OnlyImport(done, Succeeded, None, 2)
            && Step(done, cap, JobEvent(900, OpFail(0, "embedding_timeout", true)))[0].status == Waiting
  {
    SlowWorkerRun(cap);
  }

  // ----- drain -----

  function Budget(jobs: seq<Job>): int {
    if jobs == [] then 0 else jobs[0].maxAttempts - jobs[0].attempts + Budget(jobs[1..])
  }

  lemma {:induction false} BudgetUpdate(jobs: seq<Job>, id: nat, j: Job)
    requires id < |jobs|
    ensures Budget(jobs[id := j]) == Budget(jobs) - (jobs[id].maxAttempts - jobs[id].attempts) + (j.maxAttempts - j.attempts)
  {
    if id > 0 {
      BudgetUpdate(jobs[1..], id - 1, j);
      assert jobs[id := j][1..] == jobs[1..][id - 1 := j];
    } else {
      assert jobs[0 := j][1..] == jobs[1..];
    }
  }

  lemma {:induction false} BudgetSame(a: seq<Job>, b: seq<Job>)
    requires |a| == |b| && forall i | 0 <= i < |a| :: a[i].attempts == b[i].attempts && a[i].maxAttempts == b[i].maxAttempts
    ensures Budget(a) == Budget(b)
  {
    if a != [] {
      BudgetSame(a[1..], b[1..]);
    }
  }

  lemma {:induction false} BudgetNonNegative(jobs: seq<Job>)
    requires QueueOk(jobs)
    ensures Budget(jobs) >= 0
  {
    if jobs != [] {
      assert JobOk(jobs[0]);
      forall i | 0 <= i < |jobs[1..]| ensures JobOk(jobs[1..][i]) { assert JobOk(jobs[i + 1]); }
      BudgetNonNegative(jobs[1..]);
    }
  }

  /** Nobody adds attempts: no enqueue and no operator retry. */
  ghost predicate WorkersOnly(op: JobOp) {
    !op.OpEnqueue? && !op.OpRetry?
  }

  lemma ClaimSpendsOne(jobs: seq<Job>, id: nat, worker: string, now: int)
    requires id < |jobs| && jobs[id].status == Waiting
    ensures var after := ClaimRow(jobs, id, worker, now);
            after.Some? && Budget(after.value) == Budget(jobs) - 1
  {
    BudgetUpdate(jobs, id, ClaimRow(jobs, id, worker, now).value[id]);
  }

  lemma OthersSpendNone(jobs: seq<Job>, cap: int, e: JobEvent)
    requires WorkersOnly(e.op) && !e.op.OpClaim? && !e.op.OpClaimRow?
    ensures var after := Step(jobs, cap, e);
            |after| == |jobs| && forall i | 0 <= i < |jobs| ::
              after[i].attempts == jobs[i].attempts && after[i].maxAttempts == jobs[i].maxAttempts
  {
  }

  /** A claim costs exactly one attempt; nothing else a worker does costs or restores any. */
  lemma StepSpendsBudget(jobs: seq<Job>, cap: int, e: JobEvent)
    requires WorkersOnly(e.op)
    ensures Budget(Step(jobs, cap, e)) == Budget(jobs) - if ClaimedBy(jobs, e).Some? then 1 else 0
  {
    match e.op
    case OpClaim(worker) =>
      if Candidate(jobs, e.now, 0).Some? {
        ClaimSpendsOne(jobs, Candidate(jobs, e.now, 0).value, worker, e.now);
      }
    case OpClaimRow(worker, id) =>
      if id < |jobs| && jobs[id].status == Waiting {
        ClaimSpendsOne(jobs, id, worker, e.now);
      }
    case _ =>
      OthersSpendNone(jobs, cap, e);
      BudgetSame(jobs, Step(jobs, cap, e));
  }

  /**
   * However workers interleave, the claims of a run are exactly the attempts it used up; so with no new
   * submissions there are never more than the sum of the attempts left at the start.
   */
  lemma {:induction false} ClaimsAreBounded(jobs: seq<Job>, cap: int, events: seq<JobEvent>)
    requires QueueOk(jobs) && forall e | e in events :: WorkersOnly(e.op)
    ensures Claims(jobs, cap, events) == Budget(jobs) - Budget(RunJobs(jobs, cap, events))
    ensures Claims(jobs, cap, events) <= Budget(jobs)
    decreases |events|
  {
    BudgetNonNegative(jobs);
    if events != [] {
      assert WorkersOnly(events[0].op);
      StepKeepsQueue(jobs, cap, events[0]);
      StepSpendsBudget(jobs, cap, events[0]);
      ClaimsAreBounded(Step(jobs, cap, events[0]), cap, events[1..]);
    }
    RunsKeepQueue(jobs, cap, events);
    BudgetNonNegative(RunJobs(jobs, cap, events));
  }

  // ----- backoff -----

  lemma {:induction false} Pow2Monotone(a: nat, b: nat)
    requires a <= b
    ensures Pow2(a) <= Pow2(b)
  {
    if a < b {
      Pow2Monotone(a, b - 1);
    }
  }

  /** Delays never decrease from one attempt to the next, and never exceed the cap. */
  lemma DelaysGrow(cap: int, a: nat, b: nat)
    requires a <= b
    ensures 0 <= Delay(cap, a) <= Delay(cap, b) <= Max(0, cap)
  {
    Pow2Monotone(if a == 0 then 0 else a - 1, if b == 0 then 0 else b - 1);
  }

  /** An operator puts job `id` back: a retry, or an enqueue of the same kind and version. */
  ghost predicate Requeues(jobs: seq<Job>, op: JobOp, id: nat) {
    (op.OpRetry? && op.id == id)
    || (op.OpEnqueue? && op.sub.versionId.Some? && FindJob(jobs, op.sub.kind, op.sub.versionId.value, 0) == Some(id))
  }

  ghost predicate NoRequeue(jobs: seq<Job>, cap: int, events: seq<JobEvent>, id: nat)
    decreases |events|
  {
    events == [] || (!Requeues(jobs, events[0].op, id) && NoRequeue(Step(jobs, cap, events[0]), cap, events[1..], id))
  }

  /** Times never go back, starting from t. */
  ghost predicate ClockFrom(t: int, events: seq<JobEvent>)
    decreases |events|
  {
    events == [] || (t <= events[0].now && ClockFrom(events[0].now, events[1..]))
  }

  /** A conditional update of the SQLite claim, if the event is one that takes effect, finds its row due. */
  ghost predicate UpdatesDueRow(jobs: seq<Job>, e: JobEvent) {
    e.op.OpClaimRow? && e.op.id < |jobs| && jobs[e.op.id].status == Waiting ==> Due(jobs[e.op.id], e.now)
  }

  /** Every conditional update of the run does. The atomic claim always does. */
  ghost predicate UpdatesDueRows(jobs: seq<Job>, cap: int, events: seq<JobEvent>)
    decreases |events|
  {
    events == [] || (UpdatesDueRow(jobs, events[0]) && UpdatesDueRows(Step(jobs, cap, events[0]), cap, events[1..]))
  }

  /** The first claim of job `id` in the run, if there is one, finds the job due. */
  ghost predicate FirstClaimIsDue(jobs: seq<Job>, cap: int, events: seq<JobEvent>, id: nat)
    decreases |events|
  {
    events == []
    || if ClaimedBy(jobs, events[0]) == Some(id) then id < |jobs| && Due(jobs[id], events[0].now)
       else FirstClaimIsDue(Step(jobs, cap, events[0]), cap, events[1..], id)
  }

  lemma {:induction false} DueUpdatesSuffice(jobs: seq<Job>, cap: int, events: seq<JobEvent>, id: nat)
    requires UpdatesDueRows(jobs, cap, events)
    ensures FirstClaimIsDue(jobs, cap, events, id)
    decreases |events|
  {
    if events != [] && ClaimedBy(jobs, events[0]) != Some(id) {
      DueUpdatesSuffice(Step(jobs, cap, events[0]), cap, events[1..], id);
    }
  }

  /** Job `id` is not running and, if it waits, waits until `until`. */
  ghost predicate Held(jobs: seq<Job>, id: nat, attempts: nat, until: int) {
    id < |jobs| && jobs[id].attempts == attempts && jobs[id].status != Running
    && (jobs[id].status == Waiting ==> jobs[id].nextAttemptAt.Some? && jobs[id].nextAttemptAt.value >= until)
  }

  /** Up to the first claim of `id` in the run; that claim, if there is one, comes no sooner than `until`. */
  ghost predicate FirstClaimNotBefore(jobs: seq<Job>, cap: int, events: seq<JobEvent>, id: nat, until: int)
    decreases |events|
  {
    events == []
    || if ClaimedBy(jobs, events[0]) == Some(id) then events[0].now >= until
       else FirstClaimNotBefore(Step(jobs, cap, events[0]), cap, events[1..], id, until)
  }

  lemma OtherStepHolds(jobs: seq<Job>, cap: int, e: JobEvent, id: nat, attempts: nat, until: int)
    requires Held(jobs, id, attempts, until) && !Requeues(jobs, e.op, id) && !(e.op.OpFail? && e.op.id == id)
    ensures ClaimedBy(jobs, e) == Some(id) && Due(jobs[id], e.now) ==> e.now >= until
    ensures ClaimedBy(jobs, e) != Some(id) ==> Held(Step(jobs, cap, e), id, attempts, until)
  {
  }

  lemma LateReportHolds(jobs: seq<Job>, cap: int, e: JobEvent, attempts: nat, until: int)
    requires e.op.OpFail? && Held(jobs, e.op.id, attempts, until) && until <= e.now + Delay(cap, attempts)
    ensures Held(Step(jobs, cap, e), e.op.id, attempts, until)
  {
  }

  /** Other steps keep a held job held; a stale worker's late failure report only postpones it further. */
  lemma HeldStep(jobs: seq<Job>, cap: int, e: JobEvent, id: nat, attempts: nat, t: int)
    requires Held(jobs, id, attempts, t + Delay(cap, attempts)) && t <= e.now && !Requeues(jobs, e.op, id)
    ensures ClaimedBy(jobs, e) == Some(id) && Due(jobs[id], e.now) ==> e.now >= t + Delay(cap, attempts)
    ensures ClaimedBy(jobs, e) != Some(id) ==> Held(Step(jobs, cap, e), id, attempts, t + Delay(cap, attempts))
  {
    if e.op.OpFail? && e.op.id == id {
      LateReportHolds(jobs, cap, e, attempts, t + Delay(cap, attempts));
    } else {
      OtherStepHolds(jobs, cap, e, id, attempts, t + Delay(cap, attempts));
    }
  }

  lemma {:induction false} HeldUntilDue(jobs: seq<Job>, cap: int, events: seq<JobEvent>, id: nat, attempts: nat, t: int, from: int)
    requires Held(jobs, id, attempts, t + Delay(cap, attempts)) && t <= from && ClockFrom(from, events)
    requires FirstClaimIsDue(jobs, cap, events, id) && NoRequeue(jobs, cap, events, id)
    ensures FirstClaimNotBefore(jobs, cap, events, id, t + Delay(cap, attempts))
    decreases |events|
  {
    if events != [] {
      HeldStep(jobs, cap, events[0], id, attempts, t);
      if ClaimedBy(jobs, events[0]) != Some(id) {
        HeldUntilDue(Step(jobs, cap, events[0]), cap, events[1..], id, attempts, t, events[0].now);
      }
    }
  }

  lemma FailureHolds(jobs: seq<Job>, cap: int, id: nat, code: string, t: int)
    requires id < |jobs| && 1 <= jobs[id].attempts < jobs[id].maxAttempts
    ensures Delay(cap, jobs[id].attempts) == Min(Max(0, cap), 30 * Pow2(jobs[id].attempts - 1))
    ensures Held(Step(jobs, cap, JobEvent(t, OpFail(id, code, true))), id, jobs[id].attempts,
                 t + Delay(cap, jobs[id].attempts))
  {
  }

  /** The jobs just after job `id` failed retryably at time t. */
  function AfterFailure(jobs: seq<Job>, cap: int, id: nat, code: string, t: int): seq<Job> {
    Step(jobs, cap, JobEvent(t, OpFail(id, code, true)))
  }

  /**
   * Backoff over whole runs: after the k-th claim of a job fails retryably at time t, whatever the other
   * workers do, its next claim comes no sooner than min(cap, 30 * 2^(k-1)) seconds later, unless an
   * operator puts the job back, provided only that the claim finds the job due.
   */
  lemma BackoffIsKept(jobs: seq<Job>, cap: int, id: nat, code: string, t: int, events: seq<JobEvent>)
    requires QueueOk(jobs) && id < |jobs| && jobs[id].status == Running && jobs[id].attempts < jobs[id].maxAttempts
    requires ClockFrom(t, events) && NoRequeue(AfterFailure(jobs, cap, id, code, t), cap, events, id)
    requires FirstClaimIsDue(AfterFailure(jobs, cap, id, code, t), cap, events, id)
    ensures FirstClaimNotBefore(AfterFailure(jobs, cap, id, code, t), cap, events, id,
                                t + Min(Max(0, cap), 30 * Pow2(jobs[id].attempts - 1)))
  {
    assert JobOk(jobs[id]);
    var after := AfterFailure(jobs, cap, id, code, t);
    FailureHolds(jobs, cap, id, code, t);
    HeldUntilDue(after, cap, events, id, jobs[id].attempts, t, t);
  }

  /** No other worker reports a failure of job `id`. */
  ghost predicate NoLateReport(events: seq<JobEvent>, id: nat) {
    forall e | e in events :: !(e.op.OpFail? && e.op.id == id)
  }

  /** Job `id` is not running and, if it waits, waits until exactly `until`. */
  ghost predicate Parked(jobs: seq<Job>, id: nat, until: int) {
    id < |jobs| && jobs[id].status != Running && (jobs[id].status == Waiting ==> jobs[id].nextAttemptAt == Some(until))
  }

  lemma ParkedStep(jobs: seq<Job>, cap: int, e: JobEvent, id: nat, until: int)
    requires Parked(jobs, id, until) && !Requeues(jobs, e.op, id) && !(e.op.OpFail? && e.op.id == id)
    ensures ClaimedBy(jobs, e) == Some(id) ==> (Due(jobs[id], e.now) <==> e.now >= until)
    ensures ClaimedBy(jobs, e) != Some(id) ==> Parked(Step(jobs, cap, e), id, until)
  {
  }

  lemma {:induction false} ParkedUntilDueIff(jobs: seq<Job>, cap: int, events: seq<JobEvent>, id: nat, until: int)
    requires Parked(jobs, id, until) && NoRequeue(jobs, cap, events, id) && NoLateReport(events, id)
    ensures FirstClaimNotBefore(jobs, cap, events, id, until) <==> FirstClaimIsDue(jobs, cap, events, id)
    decreases |events|
  {
    if events != [] {
      assert events[0] in events;
      ParkedStep(jobs, cap, events[0], id, until);
      if ClaimedBy(jobs, events[0]) != Some(id) {
        ParkedUntilDueIff(Step(jobs, cap, events[0]), cap, events[1..], id, until);
      }
    }
  }

  /**
   * The condition is exact: with no late failure report in between to postpone the job further, the backoff is kept if
   * and only if the next claim finds the job due, which is what the SQLite update does not recheck.
   */
  lemma BackoffKeptIff(jobs: seq<Job>, cap: int, id: nat, code: string, t: int, events: seq<JobEvent>)
    requires QueueOk(jobs) && id < |jobs| && jobs[id].status == Running && jobs[id].attempts < jobs[id].maxAttempts
    requires NoRequeue(AfterFailure(jobs, cap, id, code, t), cap, events, id) && NoLateReport(events, id)
    ensures FirstClaimNotBefore(AfterFailure(jobs, cap, id, code, t), cap, events, id,
                                t + Min(Max(0, cap), 30 * Pow2(jobs[id].attempts - 1)))
            <==> FirstClaimIsDue(AfterFailure(jobs, cap, id, code, t), cap, events, id)
  {
    assert JobOk(jobs[id]);
    FailureHolds(jobs, cap, id, code, t);
    ParkedUntilDueIff(AfterFailure(jobs, cap, id, code, t), cap, events, id,
                      t + Min(Max(0, cap), 30 * Pow2(jobs[id].attempts - 1)));
  }

  /** Every running job was due when it was claimed, and the clock has not gone back since. */
  ghost predicate RunningWasDue(jobs: seq<Job>, now: int) {
    forall i | 0 <= i < |jobs| && jobs[i].status == Running :: Due(jobs[i], now)
  }

  /** A row that runs after a step ran before it, or was claimed by it. */
  lemma RunningComesFromClaim(jobs: seq<Job>, cap: int, e: JobEvent, i: nat)
    requires i < |Step(jobs, cap, e)| && Step(jobs, cap, e)[i].status == Running
    ensures i < |jobs| && Step(jobs, cap, e)[i].nextAttemptAt == jobs[i].nextAttemptAt
    ensures jobs[i].status == Running || ClaimedBy(jobs, e) == Some(i)
  {
  }

  lemma ClaimedIsDue(jobs: seq<Job>, e: JobEvent, i: nat)
    requires UpdatesDueRow(jobs, e) && ClaimedBy(jobs, e) == Some(i)
    ensures i < |jobs| && Due(jobs[i], e.now)
  {
  }

  lemma StepKeepsDue(jobs: seq<Job>, cap: int, e: JobEvent, t: int)
    requires RunningWasDue(jobs, t) && t <= e.now && UpdatesDueRow(jobs, e)
    ensures RunningWasDue(Step(jobs, cap, e), e.now)
  {
    var after := Step(jobs, cap, e);
    forall i | 0 <= i < |after| && after[i].status == Running ensures Due(after[i], e.now) {
      RunningComesFromClaim(jobs, cap, e, i);
      if ClaimedBy(jobs, e) == Some(i) {
        ClaimedIsDue(jobs, e, i);
      }
    }
  }

  lemma {:induction false} RunsKeepDue(jobs: seq<Job>, cap: int, events: seq<JobEvent>, t: int)
    requires RunningWasDue(jobs, t) && ClockFrom(t, events) && UpdatesDueRows(jobs, cap, events)
    ensures RunningWasDue(RunJobs(jobs, cap, events), if events == [] then t else events[|events| - 1].now)
    decreases |events|
  {
    if events != [] {
      StepKeepsDue(jobs, cap, events[0], t);
      RunsKeepDue(Step(jobs, cap, events[0]), cap, events[1..], events[0].now);
    }
  }

  /**
   * Reclaiming does not clear next_attempt_at, and need not: whatever run led here, a job that is
   * reclaimed with attempts left can be claimed at once.
   */
  lemma ReclaimedIsDueAtOnce(cap: int, events: seq<JobEvent>, now: int, timeout: int, i: nat)
    requires events != [] && ClockFrom(events[0].now, events) && UpdatesDueRows([], cap, events)
    requires events[|events| - 1].now <= now
    requires i < |RunJobs([], cap, events)| && Stale(RunJobs([], cap, events)[i], now, timeout)
    ensures var after := Reclaim(RunJobs([], cap, events), now, timeout)[i];
            after.status == Waiting ==> Claimable(after, now)
  {
    RunsKeepDue([], cap, events, events[0].now);
  }

  /**
   * The condition is not idle: an interleaving that breaks it. Here worker a selects job 0 at time 0, worker b claims it and
   * fails, which holds it until 30, and a's conditional update then takes it at time 1.
   */
  lemma SplitClaimIgnoresBackoff()
    ensures var j := Job(ImportJob, Waiting, 100, None, None, map[], 0, 3, None, None, None, "", None, None, None);
            Candidate([j], 0, 0) == Some(0)
            && var held := RunJobs([j], 1800, [JobEvent(0, OpClaim("b")), JobEvent(0, OpFail(0, "embedding_timeout", true))]);
               held[0].nextAttemptAt == Some(30) && ClaimRow(held, 0, "a", 1).Some?
  {
  }
}
