/**
 * What becomes of a job whose worker died: reclaim (backend/database.py, lines 899-921), the next claims and their
 * executions (worker/runner.py), and an operator's retry (lines 971-989). TakeJob and RunOnce do these steps.
 */
module Recovery {
  import opened Text
  import opened Governance
  import opened GovernanceSafety
  import Queue = JobQueue
  import opened QueueSafety
  import opened Worker
  import Chunker

  // ----- reclaim -----

  /** A stale job goes back with attempts left, and fails on its last one; either way its version is not looked at. */
  lemma ReclaimGivesBackIff(jobs: seq<Queue.Job>, id: nat, now: int, timeout: int)
    requires QueueOk(jobs) && id < |jobs| && Queue.Stale(jobs[id], now, timeout)
    ensures var after := Queue.Reclaim(jobs, now, timeout)[id];
            after.attempts == jobs[id].attempts && after.kind == jobs[id].kind && after.versionId == jobs[id].versionId
            && (after.status == Queue.Waiting <==> jobs[id].attempts < jobs[id].maxAttempts)
            && (after.status == Queue.JobFailed <==> jobs[id].attempts == jobs[id].maxAttempts)
            && (after.status == Queue.JobFailed ==> forall t :: Queue.Candidate(Queue.Reclaim(jobs, now, timeout), t, 0) != Some(id))
  {
    assert JobOk(jobs[id]);
  }

  // ----- an operator's retry -----

  function GoodPiece(): Chunker.Piece {
    Chunker.Piece("", None, "text", "", false)
  }

  /** A world in which nothing goes wrong. */
  function GoodWorld(): World {
    World(SourceFound, Chunked([GoodPiece()]), Vectors([[1.0]]), EvaluationStored)
  }

  /**
   * An operator's retry re-queues the job and leaves the version. The retried import can succeed, in some world, exactly
   * when that version is queued or processing.
   */
  lemma RetriedImportCanSucceedIff(jobs: seq<Queue.Job>, versions: seq<Version>, id: nat)
    requires id < |jobs| && Queue.Retry(jobs, id).Ok? && Targets(jobs[id], versions) && jobs[id].kind == Queue.ImportJob
    ensures var job := Queue.Retry(jobs, id).value[id];
            job.status == Queue.Waiting && job.attempts == 0 && Targets(job, versions)
            && ((exists world :: IndexingVerdict(job.kind, versions[job.versionId.value].status, world).Success?)
                <==> Indexable(versions[job.versionId.value].status))
  {
    var status := versions[jobs[id].versionId.value].status;
    forall world ensures IndexingVerdict(Queue.ImportJob, status, world).Success? ==> Indexable(status) {
      ImportSucceedsIff(status, world);
    }
    if Indexable(status) {
      ImportSucceedsIff(status, GoodWorld());
    }
  }

  /** An execution that ends in failure fails the version too, so the retry of its import is in vain in every world. */
  lemma RetryAfterFailedExecution(job: Queue.Job, before: seq<Version>, after: seq<Version>, world: World, reviewMode: bool, next: World)
    requires Targets(job, before) && |after| == |before|
    requires Outcome(job, before, world, reviewMode, Queue.JobFailed, after)
    ensures after[job.versionId.value].status == Failed
    ensures IndexingVerdict(Queue.ImportJob, after[job.versionId.value].status, next).Failure?
  {
  }

  /**
   * But a worker that dies before finalize on the last attempt leaves a failed job and a version still in work: the
   * reclaim fails the job, the retry re-queues it, and the import can succeed after all.
   */
  lemma RetryAfterAbandonment(jobs: seq<Queue.Job>, versions: seq<Version>, id: nat, now: int, timeout: int, reviewMode: bool)
    requires QueueOk(jobs) && id < |jobs| && Queue.Stale(jobs[id], now, timeout) && jobs[id].attempts == jobs[id].maxAttempts
    requires Targets(jobs[id], versions) && jobs[id].kind == Queue.ImportJob
    requires Indexable(versions[jobs[id].versionId.value].status)
    ensures var reclaimed := Queue.Reclaim(jobs, now, timeout);
            reclaimed[id].status == Queue.JobFailed && Queue.Retry(reclaimed, id).Ok?
            && var job := Queue.Retry(reclaimed, id).value[id];
               job.status == Queue.Waiting && job.attempts < job.maxAttempts
               && FinalStatus(job.kind, versions[job.versionId.value].status, GoodWorld(), reviewMode, 1, job.maxAttempts)
                  == if reviewMode then Staged else Indexed
  {
    assert JobOk(jobs[id]);
  }

  // ----- a crash between finalize and completion -----

  /** One execution of the job after another, as long as it is given back and attempts are left; the version's status then. */
  function Rounds(kind: Queue.JobKind, status: Status, worlds: seq<World>, reviewMode: bool, attempts: nat, limit: nat): Status
    decreases |worlds|
  {
    if worlds == [] || attempts >= limit then status
    else
      var after := FinalStatus(kind, status, worlds[0], reviewMode, attempts + 1, limit);
      if JobOutcome(IndexingVerdict(kind, status, worlds[0]), attempts + 1, limit) == Queue.Waiting
      then Rounds(kind, after, worlds[1..], reviewMode, attempts + 1, limit)
      else after
  }

  /** The execution in worlds[k] is reached and gives a verdict that is final for the version. */
  predicate Decides(worlds: seq<World>, k: nat, attempts: nat, limit: nat) {
    k < |worlds| && attempts + k < limit && (worlds[k].source != SourceError || attempts + k + 1 == limit)
  }

  ghost predicate SomeDecides(worlds: seq<World>, attempts: nat, limit: nat) {
    exists k: nat :: Decides(worlds, k, attempts, limit)
  }

  lemma DecidesLater(worlds: seq<World>, attempts: nat, limit: nat)
    requires worlds != [] && !Decides(worlds, 0, attempts, limit)
    ensures SomeDecides(worlds, attempts, limit) <==> SomeDecides(worlds[1..], attempts + 1, limit)
  {
    var rest, spent := worlds[1..], attempts + 1;
    if SomeDecides(rest, spent, limit) {
      var k: nat :| Decides(rest, k, spent, limit);
      assert Decides(worlds, k + 1, attempts, limit);
    }
    if SomeDecides(worlds, attempts, limit) {
      var k: nat :| Decides(worlds, k, attempts, limit);
      assert rest[k - 1] == worlds[k];
      assert Decides(rest, k - 1, spent, limit);
    }
  }

  /** Rerunning a finished import: only an unreadable source with attempts left lets the version be, for one round. */
  lemma RerunImport(status: Status, world: World, reviewMode: bool, attempts: nat, limit: nat)
    requires status in {Staged, Indexed} && attempts < limit
    ensures JobOutcome(IndexingVerdict(Queue.ImportJob, status, world), attempts + 1, limit)
         == if world.source == SourceError && attempts + 1 < limit then Queue.Waiting else Queue.JobFailed
    ensures FinalStatus(Queue.ImportJob, status, world, reviewMode, attempts + 1, limit)
         == if world.source == SourceError && attempts + 1 < limit then status else Failed
  {
  }

  /**
   * A worker that dies after finalize and before completion leaves an import running on a staged or live version. The
   * reclaimed job runs again and finds nothing to index: the version is taken out of service exactly when some later
   * execution is reached that is not put off by an unreadable source, or is the last one allowed. With no attempt left
   * there is no such execution, and the version stays as it was.
   */
  lemma {:induction false} InterruptedImportFailsIff(status: Status, worlds: seq<World>, reviewMode: bool, attempts: nat, limit: nat)
    requires status in {Staged, Indexed}
    ensures Rounds(Queue.ImportJob, status, worlds, reviewMode, attempts, limit) in {status, Failed}
    ensures Rounds(Queue.ImportJob, status, worlds, reviewMode, attempts, limit) == Failed
            <==> SomeDecides(worlds, attempts, limit)
    decreases |worlds|
  {
    if worlds != [] && attempts < limit {
      RerunImport(status, worlds[0], reviewMode, attempts, limit);
      if worlds[0].source == SourceError && attempts + 1 < limit {
        InterruptedImportFailsIff(status, worlds[1..], reviewMode, attempts + 1, limit);
        DecidesLater(worlds, attempts, limit);
      } else {
        assert Decides(worlds, 0, attempts, limit);
      }
    }
  }

  /** When as many executions follow as attempts are left, at least one, the version does not survive. */
  lemma InterruptedImportFailsInTheEnd(status: Status, worlds: seq<World>, reviewMode: bool, attempts: nat, limit: nat)
    requires status in {Staged, Indexed} && attempts < limit && |worlds| >= limit - attempts
    ensures Rounds(Queue.ImportJob, status, worlds, reviewMode, attempts, limit) == Failed
  {
    InterruptedImportFailsIff(status, worlds, reviewMode, attempts, limit);
    assert Decides(worlds, limit - attempts - 1, attempts, limit);
  }

  /**
   * The whole chain in the queue: a stale import is reclaimed, is the next candidate, is claimed and carried out; that
   * it is a candidate at all means it had an attempt left. RunOnce promises this outcome.
   */
  lemma InterruptedImportIsRerun(jobs: seq<Queue.Job>, versions: seq<Version>, id: nat, world: World, reviewMode: bool,
                                 timeout: int, now: int, status: Queue.JobStatus, after: seq<Version>)
    requires QueueOk(jobs) && id < |jobs| && Queue.Stale(jobs[id], now, timeout)
    requires jobs[id].kind == Queue.ImportJob && Targets(jobs[id], versions) && |after| == |versions|
    requires versions[jobs[id].versionId.value].status in {Staged, Indexed}
    requires Queue.Candidate(Queue.Reclaim(jobs, now, timeout), now, 0) == Some(id)
    requires var job := Queue.Reclaim(jobs, now, timeout)[id];
             Outcome(job.(attempts := job.attempts + 1), versions, world, reviewMode, status, after)
    ensures jobs[id].attempts < jobs[id].maxAttempts
    ensures var v := jobs[id].versionId.value;
            after[v].status == Rounds(Queue.ImportJob, versions[v].status, [world], reviewMode, jobs[id].attempts, jobs[id].maxAttempts)
            && (after[v].status == Failed <==> world.source != SourceError || jobs[id].attempts + 1 == jobs[id].maxAttempts)
  {
    ReclaimGivesBackIff(jobs, id, now, timeout);
    RerunImport(versions[jobs[id].versionId.value].status, world, reviewMode, jobs[id].attempts, jobs[id].maxAttempts);
  }

  /** If the version was live, its document is left without a live version. */
  lemma FailingTheLiveVersion(versions: seq<Version>, id: nat, code: string)
    requires Governed(versions) && id < |versions| && versions[id].status == Indexed
    ensures var after := FailImport(versions, id, code).value;
            forall k | 0 <= k < |after| && after[k].documentId == versions[id].documentId :: after[k].status != Indexed
  {
    assert forall k | 0 <= k < |versions| && k != id ::
        versions[k].status == Indexed ==> versions[k].documentId != versions[id].documentId;
  }

  /**
   * A reindex job in the same place repairs itself: its rerun re-queues the version first, so it ends as it would have
   * ended from a waiting version, whatever the crash left, and a good world brings the version back.
   */
  lemma InterruptedReindexRepairs(status: Status, worlds: seq<World>, reviewMode: bool, attempts: nat, limit: nat)
    requires status !in {Rejected, Withdrawn} && worlds != [] && attempts < limit
    ensures Rounds(Queue.ReindexJob, status, worlds, reviewMode, attempts, limit)
         == Rounds(Queue.ReindexJob, Queued, worlds, reviewMode, attempts, limit)
    ensures worlds[0] == GoodWorld() ==>
              Rounds(Queue.ReindexJob, status, worlds, reviewMode, attempts, limit) == if reviewMode then Staged else Indexed
  {
  }

  // ----- a report that comes too late -----

  /** The job after a failure report, from whomever it comes. */
  function Reported(jobs: seq<Queue.Job>, id: nat, code: string, retryable: bool, cap: int, now: int): seq<Queue.Job> {
    Queue.Step(jobs, cap, Queue.JobEvent(now, Queue.OpFail(id, code, retryable)))
  }

  /**
   * The version's half of a failure report on an indexing job: the status of the version stays exactly when the job goes
   * back and the version is neither in work nor failed, or the job fails and the version has failed already.
   */
  lemma ReportKeepsVersionIff(job: Queue.Job, versions: seq<Version>, code: string, retryable: bool)
    requires Targets(job, versions)
    ensures var v := job.versionId.value;
            var after := RecordedVersions(job, versions, if GoesBack(job, retryable) then Queue.Waiting else Queue.JobFailed, code);
            |after| == |versions| && (forall k | 0 <= k < |versions| && k != v :: after[k] == versions[k])
            && (after[v].status == versions[v].status <==>
                  if GoesBack(job, retryable) then versions[v].status !in {Processing, Failed}
                  else versions[v].status == Failed)
  {
  }

  /**
   * A report on a job whose version is live, in whatever state the job is and whoever holds it: the version stays live
   * exactly when the failure is retryable and the job has attempts left; otherwise its document has no live version.
   */
  lemma LateReportFailsLiveVersionIff(jobs: seq<Queue.Job>, versions: seq<Version>, id: nat, code: string, retryable: bool,
                                      cap: int, now: int)
    requires QueueOk(jobs) && Governed(versions) && id < |jobs| && Targets(jobs[id], versions)
    requires versions[jobs[id].versionId.value].status == Indexed
    ensures var v := jobs[id].versionId.value;
            var after := RecordedVersions(jobs[id], versions, Reported(jobs, id, code, retryable, cap, now)[id].status, code);
            |after| == |versions|
            && (after[v].status == Indexed <==> GoesBack(jobs[id], retryable))
            && (after[v].status == Indexed || forall k | 0 <= k < |after| && after[k].documentId == versions[v].documentId ::
                  after[k].status != Indexed)
  {
    FailureReportKeepsIff(jobs, id, code, retryable, cap, now);
    FailingTheLiveVersion(versions, jobs[id].versionId.value, code);
  }

  /** One document with one version in this status. */
  ghost predicate OneVersion(store: Store, status: Status) {
    |store.documents| == 1 && |store.versions| == 1 && store.versions[0].documentId == 0 && store.versions[0].status == status
  }

  /** The version meanwhile: submitted, taken up by both workers, put live by the second. */
  const MEANWHILE: seq<Event> := [
    Event(0, OpImport(Request("manual", "x", None, None, "cli"))), Event(0, OpMarkProcessing(0)),
    Event(700, OpMarkProcessing(0)), Event(790, OpFinalize(0, 1, true, "cli"))]

  lemma RunFirst(store: Store, events: seq<Event>, next: Store)
    requires events != [] && next == Apply(store, events[0].now, events[0].op)
    ensures Run(store, events) == Run(next, events[1..])
  {
  }

  lemma PutLive()
    ensures OneVersion(Run(EMPTY, MEANWHILE), Indexed) && Governed(Run(EMPTY, MEANWHILE).versions)
  {
    var e := MEANWHILE;
    var submitted := Apply(EMPTY, 0, e[0].op);
    var taken := Apply(submitted, 0, e[1].op);
    var again := Apply(taken, 700, e[2].op);
    var live := Apply(again, 790, e[3].op);
    assert Cut("manual", KEY_LIMIT) == "manual";
    assert OneVersion(submitted, Queued) && OneVersion(taken, Processing) && OneVersion(again, Processing);
    assert OneVersion(live, Indexed);
    RunFirst(EMPTY, e, submitted);
    RunFirst(submitted, e[1..], taken);
    RunFirst(taken, e[2..], again);
    RunFirst(again, e[3..], live);
    assert e[1..][1..] == e[2..] && e[2..][1..] == e[3..] && e[3..][1..] == [];
    RunsStayGoverned(EMPTY, e);
  }

  /** The job has succeeded and its version is live; a failure that a worker is told then fails both. */
  ghost predicate FailsBoth(jobs: seq<Queue.Job>, versions: seq<Version>, verdict: Verdict, cap: int, now: int) {
    |jobs| == 1 && jobs[0].status == Queue.Succeeded && |versions| == 1 && versions[0].status == Indexed && verdict.Failure?
    && var reported := Reported(jobs, 0, verdict.code, verdict.retryable, cap, now);
       |reported| == 1 && reported[0].status == Queue.JobFailed
       && var after := RecordedVersions(jobs[0], versions, reported[0].status, verdict.code);
          |after| == 1 && after[0].status == Failed
  }

  lemma RefusedStoreFailsBoth(jobs: seq<Queue.Job>, versions: seq<Version>, cap: int, now: int)
    requires OnlyImport(jobs, Queue.Succeeded, None, 2) && |versions| == 1 && versions[0].status == Indexed
    ensures FailsBoth(jobs, versions, StoreVerdict(versions[0].status, [GoodPiece()], [[1.0]]), cap, now)
  {
  }

  /**
   * A run from nothing: worker a is slow, b is given the job, puts the version live and completes; a's chunks are then
   * refused, and its report fails both the finished job and the live version.
   */
  lemma SlowWorkerFailsLiveVersion(cap: int)
    ensures var jobs, versions := Queue.RunJobs([], cap, SLOW_WORKER), Run(EMPTY, MEANWHILE).versions;
            |versions| == 1 && FailsBoth(jobs, versions, StoreVerdict(versions[0].status, [GoodPiece()], [[1.0]]), cap, 900)
  {
    SlowWorkerRun(cap);
    PutLive();
    RefusedStoreFailsBoth(Queue.RunJobs([], cap, SLOW_WORKER), Run(EMPTY, MEANWHILE).versions, cap, 900);
  }
}
