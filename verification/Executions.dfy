/** What carrying out a job does to the rows of the version table: worker/runner.py and ingestion/service.py. */
module Executions {
  import opened Text
  import opened Governance
  import opened Database
  import opened Worker
  import opened Numbering
  import Queue = JobQueue

  /** The verdict on the job, given the status in which its version is found. */
  function VerdictOn(job: Queue.Job, versions: seq<Version>, world: World): Verdict
    requires Targets(job, versions)
  {
    IndexingVerdict(job.kind, versions[job.versionId.value].status, world)
  }

  lemma FinalizeElsewhere(versions: seq<Version>, id: nat, chunkCount: nat, publish: bool, actor: string, now: int, k: nat)
    requires id < |versions| && Indexable(versions[id].status) && k < |versions| && k != id
    ensures var after := Finalize(versions, id, chunkCount, publish, actor, now);
            after.Ok? && |after.value| == |versions|
            && after.value[k] == if publish && versions[k].documentId == versions[id].documentId && versions[k].status == Indexed
                                 then versions[k].(status := Superseded, supersededBy := Some(id)) else versions[k]
  {
  }

  /** A row that the execution of a job on row `id` may not touch, except that a new live row supersedes it. */
  predicate IsSuperseded(after: Version, before: Version, own: Version, id: nat, published: bool) {
    after == if published && before.documentId == own.documentId && before.status == Indexed
             then before.(status := Superseded, supersededBy := Some(id)) else before
  }

  lemma ProcessedElsewhere(versions: seq<Version>, id: nat, world: World, reviewMode: bool, actor: string, now: int, k: nat)
    requires id < |versions| && k < |versions| && k != id
    ensures var after := ProcessedVersions(versions, id, world, reviewMode, actor, now);
            |after| == |versions|
            && IsSuperseded(after[k], versions[k], versions[id], id,
                            IndexVerdict(versions[id].status, world).Success? && !reviewMode)
  {
    if IndexVerdict(versions[id].status, world).Success? {
      var marked := Settled(versions, MarkProcessing(versions, id));
      FinalizeElsewhere(marked, id, |world.parsed.pieces|, !reviewMode, actor, now, k);
    }
  }

  lemma BodyElsewhere(job: Queue.Job, versions: seq<Version>, world: World, reviewMode: bool, now: int, k: nat)
    requires Targets(job, versions) && k < |versions| && k != job.versionId.value
    ensures var id, body := job.versionId.value, BodyVersions(job, versions, world, reviewMode, now);
            |body| == |versions|
            && IsSuperseded(body[k], versions[k], versions[id], id, VerdictOn(job, versions, world).Success? && !reviewMode)
  {
    var id := job.versionId.value;
    if job.kind == Queue.ReindexJob && Reindex(versions, id).Ok? {
      ProcessedElsewhere(Reindex(versions, id).value, id, world, reviewMode, job.createdBy, now, k);
    } else {
      ProcessedElsewhere(versions, id, world, reviewMode, job.createdBy, now, k);
    }
  }

  lemma RecordedElsewhere(job: Queue.Job, body: seq<Version>, status: Queue.JobStatus, code: string, k: nat)
    requires Targets(job, body) && k < |body| && k != job.versionId.value
    ensures |RecordedVersions(job, body, status, code)| == |body| && RecordedVersions(job, body, status, code)[k] == body[k]
  {
  }

  /**
   * An indexing job leaves every other version as it was, with one exception: when it publishes, the document's other live
   * versions are superseded by its own.
   */
  lemma OtherVersionsAreLeft(job: Queue.Job, versions: seq<Version>, world: World, reviewMode: bool, now: int, k: nat)
    requires Targets(job, versions) && k < |versions| && k != job.versionId.value
    ensures var id, after := job.versionId.value, ExecutedVersions(job, versions, world, reviewMode, now);
            |after| == |versions|
            && IsSuperseded(after[k], versions[k], versions[id], id, VerdictOn(job, versions, world).Success? && !reviewMode)
  {
    var verdict := VerdictOn(job, versions, world);
    BodyElsewhere(job, versions, world, reviewMode, now, k);
    if verdict.Failure? {
      RecordedElsewhere(job, BodyVersions(job, versions, world, reviewMode, now),
                        JobOutcome(verdict, job.attempts, job.maxAttempts), verdict.code, k);
    }
  }

  /** Document, number, content and submitter are never changed. */
  predicate SameContent(after: Version, before: Version) {
    after.documentId == before.documentId && after.number == before.number && after.sha == before.sha
    && after.submittedBy == before.submittedBy
  }

  lemma ProcessedOwn(versions: seq<Version>, id: nat, world: World, reviewMode: bool, actor: string, now: int)
    requires id < |versions|
    ensures var own, after := versions[id], ProcessedVersions(versions, id, world, reviewMode, actor, now);
            |after| == |versions| && SameContent(after[id], own)
            && if IndexVerdict(own.status, world).Success? then
                 after[id].chunkCount == |world.parsed.pieces| && after[id].errorCode == None && after[id].indexedAt == Some(now)
                 && (reviewMode ==> after[id].status == Staged && after[id].trail == own.trail)
                 && (!reviewMode ==>
                       after[id].status == Indexed && after[id].publishedAt == Some(now) && |after[id].trail| == |own.trail| + 1
                       && after[id].trail[|own.trail|].action == Publish)
               else
                 after[id] == own.(status := after[id].status)
  {
  }

  /** The own row when the body of the job has ended. */
  predicate IsProcessed(after: Version, own: Version, verdict: Verdict, world: World, reviewMode: bool, now: int) {
    SameContent(after, own)
    && (if verdict.Success? then
          world.parsed.Chunked? && after.chunkCount == |world.parsed.pieces| && after.errorCode == None
          && after.indexedAt == Some(now) && after.status == if reviewMode then Staged else Indexed
        else after.chunkCount == own.chunkCount && after.trail == own.trail)
  }

  lemma BodyOwn(job: Queue.Job, versions: seq<Version>, world: World, reviewMode: bool, now: int)
    requires Targets(job, versions)
    ensures var id, body := job.versionId.value, BodyVersions(job, versions, world, reviewMode, now);
            |body| == |versions| && IsProcessed(body[id], versions[id], VerdictOn(job, versions, world), world, reviewMode, now)
  {
    var id := job.versionId.value;
    if job.kind == Queue.ReindexJob && Reindex(versions, id).Ok? {
      ProcessedOwn(Reindex(versions, id).value, id, world, reviewMode, job.createdBy, now);
    } else {
      ProcessedOwn(versions, id, world, reviewMode, job.createdBy, now);
    }
  }

  lemma RecordedOwn(job: Queue.Job, body: seq<Version>, status: Queue.JobStatus, code: string)
    requires Targets(job, body)
    ensures var id, after := job.versionId.value, RecordedVersions(job, body, status, code);
            |after| == |body| && SameContent(after[id], body[id])
            && after[id].chunkCount == body[id].chunkCount && after[id].trail == body[id].trail
            && (status != Queue.Waiting ==> after[id].status == Failed && after[id].errorCode == Some(Cut(code, 64)))
  {
  }

  /** The own version is stored with the number of its chunks, or keeps what it had and says why it failed. */
  lemma OwnVersionIsRecorded(job: Queue.Job, versions: seq<Version>, world: World, reviewMode: bool, now: int)
    requires Targets(job, versions)
    ensures var id, after := job.versionId.value, ExecutedVersions(job, versions, world, reviewMode, now);
            var verdict := VerdictOn(job, versions, world);
            |after| == |versions| && IsProcessed(after[id], versions[id], verdict, world, reviewMode, now)
            && (JobOutcome(verdict, job.attempts, job.maxAttempts) == Queue.JobFailed ==>
                  after[id].status == Failed && after[id].errorCode == Some(Cut(verdict.code, 64)))
  {
    var verdict := VerdictOn(job, versions, world);
    BodyOwn(job, versions, world, reviewMode, now);
    if verdict.Failure? {
      RecordedOwn(job, BodyVersions(job, versions, world, reviewMode, now),
                  JobOutcome(verdict, job.attempts, job.maxAttempts), verdict.code);
    }
  }

  // ----- jobs that do not index -----

  /** The job's payload names one of the three triggers, or leaves it out or empty, which stands for a scheduled run. */
  predicate NamesTrigger(payload: map<string, string>) {
    "trigger" !in payload || payload["trigger"] in {"", "manual", "pre_publish", "scheduled"}
  }

  /** An evaluation succeeds exactly with a version to attribute it to, a known trigger and a run that is stored. */
  lemma EvaluationSucceedsIff(job: Queue.Job, world: World)
    ensures EvaluateVerdict(job, world).Success? <==>
              job.versionId.Some? && NamesTrigger(job.payload) && world.evaluated == EvaluationStored
    ensures EvaluateVerdict(job, world).Failure? && EvaluateVerdict(job, world).retryable ==> world.evaluated == EvaluationCrash
  {
  }

  /** The reason that a withdraw job gives, and on whose behalf. */
  predicate GivesReason(job: Queue.Job, reason: string, actor: string) {
    reason == Cut(if "reason" !in job.payload || job.payload["reason"] == "" then "scheduled withdraw" else job.payload["reason"], 512)
    && actor == Cut(if job.createdBy == "" then "system:worker" else job.createdBy, 64)
  }

  /**
   * A withdraw job takes its version offline exactly when that is live and the reason given is not blank. Then the row says
   * when and why, the trail who, and no other row changes.
   */
  lemma WithdrawJobEnds(job: Queue.Job, versions: seq<Version>, now: int, reason: string, actor: string)
    requires DifferentVersions(versions) && job.versionId.Some? && job.versionId.value < |versions| && GivesReason(job, reason, actor)
    ensures var id, r := job.versionId.value, Withdrawal(job, versions, now);
            (r.Ok? <==> versions[id].status == Indexed && !IsBlank(reason))
            && (r.Ok? ==>
                  |r.value| == |versions| && (forall k | 0 <= k < |versions| && k != id :: r.value[k] == versions[k])
                  && r.value[id] == versions[id].(
                       status := Withdrawn, withdrawnAt := Some(now), withdrawnReason := Strip(reason),
                       trail := versions[id].trail
                                + [Review(Withdraw, Some(Indexed), Withdrawn, actor, false, versions[id].submittedBy)]))
  {
    FindsItself(versions, job.versionId.value);
    assert |Strip(reason)| <= 512;
    assert actor != "" && Recorded(actor) == actor;
  }
}
