/** worker/runner.py and ingestion/service.py: a worker claims jobs and carries them out. */
module Worker {
  import opened Text
  import opened Governance
  import Queue = JobQueue
  import opened QueueSafety
  import opened GovernanceSafety
  import opened Database
  import opened ChunkRows
  import Chunker

  // ----- embedding_retryable -----

  predicate IsDigit(c: char) { '0' <= c <= '9' }

  function DigitsValue(s: string): nat
    requires forall c | c in s :: IsDigit(c)
  {
    if s == "" then 0
    else
      assert IsDigit(s[|s| - 1]) by { assert s[|s| - 1] in s; }
      DigitsValue(s[..|s| - 1]) * 10 + (s[|s| - 1] as int - '0' as int)
  }

  /** `int(text)` for ASCII digits; what it would read as a negative number is no number here, and no status either. */
  function ParseInt(s: string): Option<nat> {
    var t := Unsigned(Strip(s));
    if t != "" && forall c | c in t :: IsDigit(c) then Some(DigitsValue(t)) else None
  }

  function Unsigned(s: string): string {
    if "+" <= s then s[1..] else s
  }

  function AfterLastUnderscore(s: string): string {
    if s == "" || s[|s| - 1] == '_' then "" else AfterLastUnderscore(s[..|s| - 1]) + [s[|s| - 1]]
  }

  predicate EmbeddingRetryable(code: string) {
    code == "embedding_timeout" || code == "embedding_unavailable"
    || ("embedding_http_" <= code
        && var status := ParseInt(AfterLastUnderscore(code));
           status.Some? && (status.value == 429 || status.value >= 500))
  }

  // ----- what the outside world does during one job -----

  datatype Source = SourceFound | SourceMissing | SourceError

  /** parse_and_chunk either fails or yields the pieces of the document. */
  datatype Parsed = ParseFailed | Chunked(pieces: seq<Chunker.Piece>)

  datatype Embedded = Vectors(vectors: seq<Vector>) | EmbeddingError(code: string) | EmbeddingCrash

  datatype Evaluated = EvaluationStored | EvaluationError(code: string) | EvaluationCrash

  datatype World = World(source: Source, parsed: Parsed, embedded: Embedded, evaluated: Evaluated)

  /** How the body of a job ends: normally, or with an error that is or is not worth another attempt. */
  datatype Verdict = Success | Failure(code: string, retryable: bool)

  /** process_version, once the version's status is known. */
  function IndexVerdict(status: Status, world: World): Verdict {
    match world.parsed
    case ParseFailed => Failure("parse_failed", false)
    case Chunked(pieces) =>
      if !Indexable(status) then Failure("invalid_state_transition", false)
      else
        match world.embedded
        case EmbeddingError(code) => Failure(code, EmbeddingRetryable(code))
        case EmbeddingCrash => Failure("worker_error", true)
        case Vectors(vectors) =>
          StoreVerdict(Processing, pieces, vectors)
  }

  /** finalize_document_indexing, for a version in any status. */
  function StoreVerdict(status: Status, pieces: seq<Chunker.Piece>, vectors: seq<Vector>): Verdict {
    if |pieces| != |vectors| || pieces == [] then Failure("job_target_missing", false)
    else if !Indexable(status) then Failure("invalid_state_transition", false)
    else Success
  }

  function SourceVerdict(status: Status, world: World): Verdict {
    match world.source
    case SourceMissing => Failure("source_missing", false)
    case SourceError => Failure("worker_error", true)
    case SourceFound => IndexVerdict(status, world)
  }

  /** The verdict on an import or reindex job of a version in the given status. */
  function IndexingVerdict(kind: Queue.JobKind, status: Status, world: World): Verdict {
    if kind == Queue.ReindexJob then
      if status == Rejected || status == Withdrawn then Failure("job_target_missing", false)
      else SourceVerdict(Queued, world)
    else SourceVerdict(status, world)
  }

  /** The version's status when process_version ends. */
  function ProcessStatus(status: Status, world: World, reviewMode: bool): Status {
    if world.parsed.ParseFailed? || !Indexable(status) then status
    else if IndexVerdict(status, world).Success? then if reviewMode then Staged else Indexed
    else Processing
  }

  /** The version's status when the body of an import or reindex job ends. */
  function BodyStatus(kind: Queue.JobKind, status: Status, world: World, reviewMode: bool): Status {
    if kind == Queue.ReindexJob && (status == Rejected || status == Withdrawn) then status
    else
      var from := if kind == Queue.ReindexJob then Queued else status;
      if world.source.SourceFound? then ProcessStatus(from, world, reviewMode) else from
  }

  /** The status of the job afterwards, when it was claimed for the attempts-th time. */
  function JobOutcome(verdict: Verdict, attempts: nat, maxAttempts: nat): Queue.JobStatus {
    if verdict.Success? then Queue.Succeeded
    else if verdict.retryable && attempts < maxAttempts then Queue.Waiting
    else Queue.JobFailed
  }

  /** And of its version: a retry puts a version in work back in the queue, a final failure fails it. */
  function FinalStatus(kind: Queue.JobKind, status: Status, world: World, reviewMode: bool, attempts: nat,
      maxAttempts: nat): Status
  {
    var body := BodyStatus(kind, status, world, reviewMode);
    match JobOutcome(IndexingVerdict(kind, status, world), attempts, maxAttempts)
    case Succeeded => body
    case Waiting => if body == Processing || body == Failed then Queued else body
    case _ => Failed
  }

  /** A job and the version it indexes tell the same story. */
  predicate Agree(job: Queue.JobStatus, version: Status) {
    match job
    case Succeeded => version == Indexed || version == Staged
    case Waiting => version == Queued
    case JobFailed => version == Failed
    case _ => false
  }

  /** The chunk rows that a successful run stores. */
  function StoredTable(world: World): map<nat, StoredRow> {
    if world.parsed.Chunked? && world.embedded.Vectors? && |world.parsed.pieces| == |world.embedded.vectors|
    then Keyed(SimpleRows(world.parsed.pieces, world.embedded.vectors)) else map[]
  }

  predicate Indexing(kind: Queue.JobKind) {
    kind == Queue.ImportJob || kind == Queue.ReindexJob
  }

  function TriggerOf(payload: map<string, string>): string {
    if "trigger" in payload && payload["trigger"] != "" then payload["trigger"] else "scheduled"
  }

  predicate KnownTrigger(t: string) {
    t == "manual" || t == "pre_publish" || t == "scheduled"
  }

  function ReasonOf(job: Queue.Job): string {
    Cut(if "reason" in job.payload && job.payload["reason"] != "" then job.payload["reason"] else "scheduled withdraw",
        REASON_LIMIT)
  }

  function ActorOf(job: Queue.Job): string {
    Cut(if job.createdBy == "" then "system:worker" else job.createdBy, ID_LIMIT)
  }

  /** What a withdraw job does to the versions. */
  function Withdrawal(job: Queue.Job, versions: seq<Version>, now: int): Result<seq<Version>> {
    if job.versionId.None? || job.versionId.value >= |versions| then Error("job_target_missing")
    else
      var row := versions[job.versionId.value];
      TakeDown(versions, row.documentId, row.number, ActorOf(job), ReasonOf(job), now)
  }

  lemma WithdrawalKeeps(job: Queue.Job, versions: seq<Version>, now: int)
    requires Governed(versions)
    ensures Governed(Settled(versions, Withdrawal(job, versions, now)))
  {
    if Withdrawal(job, versions, now).Ok? {
      var row := versions[job.versionId.value];
      TakeDownKeeps(versions, row.documentId, row.number, ActorOf(job), ReasonOf(job), now);
    }
  }

  /** What carrying out a job leaves in its row: no owner, the same attempts, and a retry only within them. */
  ghost predicate Released(before: Queue.Job, after: Queue.Job) {
    after.status != Queue.Running && after.lockedBy.None?
    && after.attempts == before.attempts && after.maxAttempts == before.maxAttempts
    && (after.status == Queue.Waiting ==> after.attempts < after.maxAttempts)
  }

  lemma ReleasedKeepsQueue(before: seq<Queue.Job>, after: seq<Queue.Job>, id: nat)
    requires |before| == |after| && id < |before| && Released(before[id], after[id])
    requires forall k | 0 <= k < |before| && k != id :: after[k] == before[k]
    requires QueueOk(before)
    ensures QueueOk(after) && Budget(after) == Budget(before)
  {
    BudgetSame(before, after);
    forall i | 0 <= i < |after| ensures JobOk(after[i]) { assert JobOk(before[i]); }
  }

  /** The rows ask for the same work. */
  predicate SameTask(a: Queue.Job, b: Queue.Job) {
    a.kind == b.kind && a.documentId == b.documentId && a.versionId == b.versionId && a.payload == b.payload
    && a.createdBy == b.createdBy && a.maxAttempts == b.maxAttempts
  }

  lemma ReclaimFacts(jobs: seq<Queue.Job>, now: int, timeout: int)
    requires QueueOk(jobs)
    ensures var after := Queue.Reclaim(jobs, now, timeout);
            QueueOk(after) && |after| == |jobs| && Budget(after) == Budget(jobs)
  {
    StepKeepsQueue(jobs, 0, Queue.JobEvent(now, Queue.OpReclaim(timeout)));
    StepSpendsBudget(jobs, 0, Queue.JobEvent(now, Queue.OpReclaim(timeout)));
  }

  /** A claim takes the candidate, at the cost of one attempt, and says who holds it. */
  lemma ClaimFacts(jobs: seq<Queue.Job>, worker: string, now: int)
    requires QueueOk(jobs)
    ensures match Queue.Claim(jobs, worker, now)
            case None => Queue.Candidate(jobs, now, 0) == None
            case Some((after, id)) =>
              Queue.Candidate(jobs, now, 0) == Some(id) && QueueOk(after) && |after| == |jobs| && id < |jobs|
              && Budget(after) == Budget(jobs) - 1
              && after[id].status == Queue.Running && after[id].lockedBy == Some(Queue.WorkerName(worker))
              && SameTask(after[id], jobs[id]) && after[id].attempts == jobs[id].attempts + 1
  {
    StepKeepsQueue(jobs, 0, Queue.JobEvent(now, Queue.OpClaim(worker)));
    StepSpendsBudget(jobs, 0, Queue.JobEvent(now, Queue.OpClaim(worker)));
  }

  /** What recording a failure does to the versions: only an indexing job takes its version along. */
  ghost function RecordedVersions(job: Queue.Job, versions: seq<Version>, status: Queue.JobStatus, code: string): seq<Version> {
    if job.versionId.None? || !Indexing(job.kind) then versions
    else if status == Queue.Waiting then Settled(versions, ResetForRetry(versions, job.versionId.value))
    else Settled(versions, FailImport(versions, job.versionId.value, code))
  }

  lemma RecordedKeepsGoverned(job: Queue.Job, versions: seq<Version>, status: Queue.JobStatus, code: string)
    ensures Governed(versions) ==> Governed(RecordedVersions(job, versions, status, code))
  {
    if Governed(versions) && job.versionId.Some? && Indexing(job.kind) {
      var op := if status == Queue.Waiting then OpReset(job.versionId.value) else OpFail(job.versionId.value, code);
      StepKeepsGoverned(Store([], versions), 0, op);
    }
  }

  /** The rows after process_version: marked, and finalized if nothing goes wrong. */
  ghost function ProcessedVersions(versions: seq<Version>, id: nat, world: World, reviewMode: bool, actor: string, now: int):
      seq<Version>
    requires id < |versions|
  {
    var marked := if world.parsed.ParseFailed? then versions else Settled(versions, MarkProcessing(versions, id));
    if IndexVerdict(versions[id].status, world).Success?
    then Settled(marked, Finalize(marked, id, |world.parsed.pieces|, !reviewMode, actor, now)) else marked
  }

  /** The rows after the body of an indexing job. */
  ghost function BodyVersions(job: Queue.Job, versions: seq<Version>, world: World, reviewMode: bool, now: int): seq<Version>
    requires job.versionId.Some? && job.versionId.value < |versions|
  {
    var id := job.versionId.value;
    if job.kind == Queue.ReindexJob && Reindex(versions, id).Error? then versions
    else
      var from := if job.kind == Queue.ReindexJob then Settled(versions, Reindex(versions, id)) else versions;
      if world.source.SourceFound? then ProcessedVersions(from, id, world, reviewMode, job.createdBy, now) else from
  }

  /** The rows after the whole job. */
  ghost function ExecutedVersions(job: Queue.Job, versions: seq<Version>, world: World, reviewMode: bool, now: int): seq<Version>
    requires job.versionId.Some? && job.versionId.value < |versions|
  {
    var verdict := IndexingVerdict(job.kind, versions[job.versionId.value].status, world);
    var body := BodyVersions(job, versions, world, reviewMode, now);
    if verdict.Success? then body
    else RecordedVersions(job, body, JobOutcome(verdict, job.attempts, job.maxAttempts), verdict.code)
  }

  /** The row of a job that its worker reports on. */
  function Reported(job: Queue.Job, verdict: Verdict, cap: int, now: int): Queue.Job {
    match verdict
    case Success =>
      job.(status := Queue.Succeeded, finishedAt := Some(now), lockedBy := None, heartbeatAt := Some(now), lastError := None)
    case Failure(code, retryable) =>
      var failed := job.(lastError := Some(Cut(if code == "" then "job_failed" else code, 64)), lockedBy := None,
                         heartbeatAt := None);
      if retryable && job.attempts < job.maxAttempts then
        failed.(status := Queue.Waiting, nextAttemptAt := Some(now + Queue.Delay(cap, job.attempts)))
      else failed.(status := Queue.JobFailed, finishedAt := Some(now), nextAttemptAt := None)
  }

  /** _execute_evaluate: what becomes of a measurement. */
  function EvaluateVerdict(job: Queue.Job, world: World): Verdict {
    if job.versionId.None? then Failure("job_target_missing", false)
    else if !KnownTrigger(TriggerOf(job.payload)) then Failure("job_payload_invalid", false)
    else
      match world.evaluated
      case EvaluationStored => Success
      case EvaluationError(code) => Failure(code, false)
      case EvaluationCrash => Failure("worker_error", true)
  }

  function WithdrawVerdict(job: Queue.Job, versions: seq<Version>, now: int): Verdict {
    if Withdrawal(job, versions, now).Ok? then Success else Failure("job_target_missing", false)
  }

  /** How an indexing job that was claimed with these attempts ends, together with its version. */
  ghost predicate Outcome(job: Queue.Job, before: seq<Version>, world: World, reviewMode: bool, status: Queue.JobStatus,
                          after: seq<Version>)
    requires job.versionId.Some? && job.versionId.value < |before| == |after|
  {
    var from := before[job.versionId.value].status;
    status == JobOutcome(IndexingVerdict(job.kind, from, world), job.attempts, job.maxAttempts)
    && after[job.versionId.value].status == FinalStatus(job.kind, from, world, reviewMode, job.attempts, job.maxAttempts)
  }

  /** An import or reindex job whose version exists. */
  predicate Targets(job: Queue.Job, versions: seq<Version>) {
    Indexing(job.kind) && job.documentId.Some? && job.versionId.Some? && job.versionId.value < |versions|
  }

  /** How the version table ends when this job is carried out on it. */
  ghost predicate EndsWith(job: Queue.Job, versions: seq<Version>, world: World, reviewMode: bool, now: int,
      status: Queue.JobStatus, after: seq<Version>)
  {
    Targets(job, versions) ==>
      |after| == |versions| && Outcome(job, versions, world, reviewMode, status, after)
      && after == ExecutedVersions(job, versions, world, reviewMode, now)
  }

  lemma SameTaskSameEnd(a: Queue.Job, b: Queue.Job, versions: seq<Version>, world: World, reviewMode: bool, now: int,
      status: Queue.JobStatus, after: seq<Version>)
    requires SameTask(a, b) && a.attempts == b.attempts && EndsWith(a, versions, world, reviewMode, now, status, after)
    ensures EndsWith(b, versions, world, reviewMode, now, status, after)
  {
  }

  /** _execute: what becomes of a job of any kind. */
  function JobVerdict(job: Queue.Job, versions: seq<Version>, world: World, now: int): Verdict {
    match job.kind
    case WithdrawJob => WithdrawVerdict(job, versions, now)
    case EvaluateJob => EvaluateVerdict(job, world)
    case _ =>
      if Targets(job, versions) then IndexingVerdict(job.kind, versions[job.versionId.value].status, world)
      else Failure("job_target_missing", false)
  }

  /** The version table after a job of any kind. */
  ghost function JobVersions(job: Queue.Job, versions: seq<Version>, world: World, reviewMode: bool, now: int): seq<Version> {
    match job.kind
    case WithdrawJob => Settled(versions, Withdrawal(job, versions, now))
    case EvaluateJob => versions
    case _ =>
      if Targets(job, versions) then ExecutedVersions(job, versions, world, reviewMode, now)
      else RecordedVersions(job, versions, Queue.JobFailed, "job_target_missing")
  }

  /** The chunk rows after it: only an indexing job that succeeds stores any. */
  ghost function JobChunks(job: Queue.Job, versions: seq<Version>, chunks: map<nat, map<nat, StoredRow>>, world: World, now: int):
      map<nat, map<nat, StoredRow>>
  {
    if Targets(job, versions) && JobVerdict(job, versions, world, now).Success?
    then chunks[job.versionId.value := StoredTable(world)] else chunks
  }

  /** A job of any kind was carried out: its row, the version table and the chunk rows end as they should. */
  ghost predicate IsCarriedOut(job: Queue.Job, versions: seq<Version>, chunks: map<nat, map<nat, StoredRow>>, world: World,
      reviewMode: bool, cap: int, now: int, after: Queue.Job, versionsAfter: seq<Version>,
      chunksAfter: map<nat, map<nat, StoredRow>>)
  {
    after == Reported(job, JobVerdict(job, versions, world, now), cap, now)
    && versionsAfter == JobVersions(job, versions, world, reviewMode, now)
    && chunksAfter == JobChunks(job, versions, chunks, world, now)
    && EndsWith(job, versions, world, reviewMode, now, after.status, versionsAfter)
  }

  lemma WithdrawalIsCarriedOut(job: Queue.Job, versions: seq<Version>, chunks: map<nat, map<nat, StoredRow>>, world: World,
      reviewMode: bool, cap: int, now: int, after: Queue.Job, versionsAfter: seq<Version>)
    requires job.kind == Queue.WithdrawJob && after == Reported(job, WithdrawVerdict(job, versions, now), cap, now)
    requires versionsAfter == Settled(versions, Withdrawal(job, versions, now))
    ensures IsCarriedOut(job, versions, chunks, world, reviewMode, cap, now, after, versionsAfter, chunks)
  {
    assert !Targets(job, versions);
    assert JobVerdict(job, versions, world, now) == WithdrawVerdict(job, versions, now);
  }

  lemma EvaluationIsCarriedOut(job: Queue.Job, versions: seq<Version>, chunks: map<nat, map<nat, StoredRow>>, world: World,
      reviewMode: bool, cap: int, now: int, after: Queue.Job)
    requires job.kind == Queue.EvaluateJob && after == Reported(job, EvaluateVerdict(job, world), cap, now)
    ensures IsCarriedOut(job, versions, chunks, world, reviewMode, cap, now, after, versions, chunks)
  {
  }

  /** A heartbeat does not change what is reported. */
  lemma BeatChangesNothing(job: Queue.Job, beaten: Queue.Job, verdict: Verdict, cap: int, now: int)
    requires beaten == job || beaten == job.(heartbeatAt := Some(now))
    ensures Reported(beaten, verdict, cap, now) == Reported(job, verdict, cap, now)
  {
  }

  /** Body and report together are the execution. */
  lemma IndexingEnds(job: Queue.Job, beaten: Queue.Job, versions: seq<Version>, body: seq<Version>, world: World,
      reviewMode: bool, now: int, status: Queue.JobStatus, after: seq<Version>)
    requires Targets(job, versions) && (beaten == job || beaten == job.(heartbeatAt := Some(now)))
    requires body == BodyVersions(job, versions, world, reviewMode, now) && |body| == |versions|
    requires body[job.versionId.value].status == BodyStatus(job.kind, versions[job.versionId.value].status, world, reviewMode)
    requires var verdict := IndexingVerdict(job.kind, versions[job.versionId.value].status, world);
             status == JobOutcome(verdict, job.attempts, job.maxAttempts)
             && after == if verdict.Success? then body else RecordedVersions(beaten, body, status, verdict.code)
    ensures |after| == |versions| && after == ExecutedVersions(job, versions, world, reviewMode, now)
    ensures Outcome(job, versions, world, reviewMode, status, after)
  {
  }

  class IngestionWorker {
    const database: QueryDatabase
    const name: string
    const reviewMode: bool
    const timeout: int
    const backoffCap: int

    constructor (database: QueryDatabase, name: string, reviewMode: bool, timeout: int, backoffCap: int)
      ensures this.database == database && this.name == Cut(name, Queue.NAME_LIMIT)
      ensures this.reviewMode == reviewMode && this.timeout == timeout && this.backoffCap == backoffCap
    {
      this.database, this.name := database, Cut(name, Queue.NAME_LIMIT);
      this.reviewMode, this.timeout, this.backoffCap := reviewMode, timeout, backoffCap;
    }

    /** This worker holds the job, as it does right after a claim. */
    ghost predicate Holds(id: nat)
      reads database
    {
      id < |database.jobs| && database.jobs[id].status == Queue.Running
      && database.jobs[id].lockedBy == Some(Queue.WorkerName(name))
    }

    /** Only the version of this job may have changed, along with rows it supersedes. */
    twostate predicate OnlyJobChanged(id: nat)
      requires id < |old(database.jobs)|
      reads database
    {
      |database.jobs| == |old(database.jobs)|
      && forall k | 0 <= k < |database.jobs| && k != id :: database.jobs[k] == old(database.jobs)[k]
    }

    /** process_version: mark, embed, persist the chunk rows and finalize what parse_and_chunk returned. */
    method ProcessVersion(versionId: nat, actor: string, world: World, now: int) returns (v: Verdict)
      requires versionId < |database.versions|
      modifies database`versions, database`chunks
      ensures v == IndexVerdict(old(database.versions)[versionId].status, world)
      ensures Governed(old(database.versions)) ==> Governed(database.versions)
      ensures |database.versions| == |old(database.versions)|
      ensures database.versions[versionId].status == ProcessStatus(old(database.versions)[versionId].status, world, reviewMode)
      ensures database.versions == ProcessedVersions(old(database.versions), versionId, world, reviewMode, actor, now)
      ensures v.Failure? ==> database.chunks == old(database.chunks)
      ensures v.Success? ==> database.chunks == old(database.chunks)[versionId := StoredTable(world)]
    {
      if world.parsed.ParseFailed? {
        return Failure("parse_failed", false);
      }
      ghost var rows := database.Rows();
      var marked := database.MarkDocumentVersionProcessing(versionId);
      if Governed(rows.versions) { StepKeepsGoverned(rows, now, OpMarkProcessing(versionId)); }
      if marked.Error? {
        return Failure(marked.code, false);
      }
      match world.embedded {
        case EmbeddingError(code) => return Failure(code, EmbeddingRetryable(code));
        case EmbeddingCrash => return Failure("worker_error", true);
        case Vectors(vectors) => v := Store(versionId, world.parsed.pieces, vectors, actor, now);
      }
    }

    /**
     * finalize_document_indexing: persist every chunk, then finalize the version, whatever became of it since it was
     * taken up.
     */
    method Store(versionId: nat, pieces: seq<Chunker.Piece>, vectors: seq<Vector>, actor: string, now: int)
        returns (v: Verdict)
      requires versionId < |database.versions|
      modifies database`versions, database`chunks
      ensures v == StoreVerdict(old(database.versions)[versionId].status, pieces, vectors)
      ensures Governed(old(database.versions)) ==> Governed(database.versions)
      ensures |database.versions| == |old(database.versions)|
      ensures v.Success? ==> database.versions[versionId].status == if reviewMode then Staged else Indexed
      ensures v.Success? ==>
                database.versions
                == Settled(old(database.versions), Finalize(old(database.versions), versionId, |pieces|, !reviewMode, actor, now))
      ensures v.Failure? ==> database.versions == old(database.versions) && database.chunks == old(database.chunks)
      ensures v.Success? ==> database.chunks == old(database.chunks)[versionId := Keyed(SimpleRows(pieces, vectors))]
    {
      var stored := database.PersistDocumentChunks(versionId, pieces, vectors);
      if stored.Error? {
        return if stored.code == "invalid_state_transition" then Failure(stored.code, false)
               else Failure("job_target_missing", false);
      }
      ghost var rows := database.Rows();
      var done := database.FinalizeDocumentVersion(versionId, stored.value, !reviewMode, actor, now);
      if Governed(rows.versions) {
        StepKeepsGoverned(rows, now, OpFinalize(versionId, stored.value, !reviewMode, actor));
      }
      return Success;
    }

    /** _record_failure: the job goes back or fails, and only an indexing job takes its version along. */
    method RecordFailure(id: nat, code: string, retryable: bool, now: int) returns (status: Queue.JobStatus)
      requires id < |database.jobs|
      modifies database`jobs, database`versions
      ensures OnlyJobChanged(id) && Released(old(database.jobs)[id], database.jobs[id])
      ensures Governed(old(database.versions)) ==> Governed(database.versions)
      ensures status == database.jobs[id].status
           == (if GoesBack(old(database.jobs)[id], retryable) then Queue.Waiting else Queue.JobFailed)
      ensures database.jobs[id] == Reported(old(database.jobs)[id], Failure(code, retryable), backoffCap, now)
      ensures database.versions == RecordedVersions(old(database.jobs)[id], old(database.versions), status, code)
    {
      var job := database.jobs[id];
      var outcome := database.FailIngestionJob(id, code, retryable, backoffCap, now);
      status := outcome.value;
      RecordedKeepsGoverned(job, database.versions, status, code);
      if job.versionId.Some? && Indexing(job.kind) {
        if status == Queue.Waiting {
          database.ResetDocumentVersionForRetry(job.versionId.value);
        } else {
          database.FailDocumentImport(job.versionId.value, code);
        }
      }
    }

    /** From the source file on: find it, say that the job is alive, and process the version. */
    method FromSource(id: nat, versionId: nat, world: World, now: int) returns (v: Verdict)
      requires Holds(id) && versionId < |database.versions|
      modifies database`jobs, database`versions, database`chunks
      ensures Holds(id) && OnlyJobChanged(id)
      ensures Governed(old(database.versions)) ==> Governed(database.versions)
      ensures var job := old(database.jobs)[id];
              database.jobs[id] == job || database.jobs[id] == job.(heartbeatAt := Some(now))
      ensures v == SourceVerdict(old(database.versions)[versionId].status, world)
      ensures |database.versions| == |old(database.versions)|
      ensures var status := old(database.versions)[versionId].status;
              database.versions[versionId].status == if world.source.SourceFound? then ProcessStatus(status, world, reviewMode) else status
      ensures database.versions
           == if world.source.SourceFound? then
                ProcessedVersions(old(database.versions), versionId, world, reviewMode, old(database.jobs)[id].createdBy, now)
              else old(database.versions)
      ensures v.Failure? ==> database.chunks == old(database.chunks)
      ensures v.Success? ==> database.chunks == old(database.chunks)[versionId := StoredTable(world)]
    {
      match world.source {
        case SourceMissing => return Failure("source_missing", false);
        case SourceError => return Failure("worker_error", true);
        case SourceFound =>
      }
      var beat := database.HeartbeatIngestionJob(id, name, now);
      v := ProcessVersion(versionId, database.jobs[id].createdBy, world, now);
    }

    /** A reindex puts the version back in the queue first, if it may be reindexed. */
    method Requeue(versionId: nat, now: int) returns (queued: bool)
      requires versionId < |database.versions|
      modifies database`versions
      ensures database.versions == Settled(old(database.versions), Reindex(old(database.versions), versionId))
      ensures queued == Reindex(old(database.versions), versionId).Ok?
           == (old(database.versions)[versionId].status != Rejected && old(database.versions)[versionId].status != Withdrawn)
      ensures |database.versions| == |old(database.versions)|
      ensures database.versions[versionId].status == if queued then Queued else old(database.versions)[versionId].status
      ensures Governed(old(database.versions)) ==> Governed(database.versions)
    {
      ghost var rows := database.Rows();
      var result := database.ReindexDocumentVersion(versionId);
      if Governed(rows.versions) { StepKeepsGoverned(rows, now, OpReindex(versionId)); }
      queued := result.Ok?;
    }

    /** The body of an import or reindex job, up to completion or failure. */
    method IndexBody(id: nat, versionId: nat, world: World, now: int) returns (v: Verdict)
      requires Holds(id) && versionId < |database.versions| && Indexing(database.jobs[id].kind)
      modifies database`jobs, database`versions, database`chunks
      ensures Holds(id) && OnlyJobChanged(id)
      ensures Governed(old(database.versions)) ==> Governed(database.versions)
      ensures var job := old(database.jobs)[id];
              database.jobs[id] == job || database.jobs[id] == job.(heartbeatAt := Some(now))
      ensures v == IndexingVerdict(old(database.jobs)[id].kind, old(database.versions)[versionId].status, world)
      ensures |database.versions| == |old(database.versions)|
      ensures database.versions[versionId].status
           == BodyStatus(old(database.jobs)[id].kind, old(database.versions)[versionId].status, world, reviewMode)
      ensures old(database.jobs)[id].versionId == Some(versionId) ==>
                database.versions == BodyVersions(old(database.jobs)[id], old(database.versions), world, reviewMode, now)
      ensures v.Failure? ==> database.chunks == old(database.chunks)
      ensures v.Success? ==> database.chunks == old(database.chunks)[versionId := StoredTable(world)]
    {
      var kind := database.jobs[id].kind;
      if kind == Queue.ReindexJob {
        var queued := Requeue(versionId, now);
        if !queued {
          return Failure("job_target_missing", false);
        }
      }
      v := FromSource(id, versionId, world, now);
    }

    /** The end of an execution: the job is completed, or its failure recorded. */
    method Report(id: nat, verdict: Verdict, now: int) returns (status: Queue.JobStatus)
      requires Holds(id)
      modifies database`jobs, database`versions
      ensures OnlyJobChanged(id) && Released(old(database.jobs)[id], database.jobs[id])
      ensures Governed(old(database.versions)) ==> Governed(database.versions)
      ensures database.jobs[id] == Reported(old(database.jobs)[id], verdict, backoffCap, now)
      ensures status == database.jobs[id].status
           == JobOutcome(verdict, old(database.jobs)[id].attempts, old(database.jobs)[id].maxAttempts)
      ensures database.versions
           == if verdict.Success? then old(database.versions)
              else RecordedVersions(old(database.jobs)[id], old(database.versions), status, verdict.code)
    {
      if verdict.Failure? {
        status := RecordFailure(id, verdict.code, verdict.retryable, now);
        return;
      }
      var beat := database.HeartbeatIngestionJob(id, name, now);
      var completed := database.CompleteIngestionJob(id, name, now);
      status := Queue.Succeeded;
    }

    /**
     * _execute for import and reindex jobs, engine `simple`: where job, version and chunk rows end, from every status
     * of the version and in every world.
     */
    method ExecuteIndexing(id: nat, world: World, now: int) returns (status: Queue.JobStatus)
      requires Holds(id) && Indexing(database.jobs[id].kind)
      requires database.jobs[id].versionId.Some? && database.jobs[id].documentId.Some?
      requires database.jobs[id].versionId.value < |database.versions|
      modifies database`jobs, database`versions, database`chunks
      ensures OnlyJobChanged(id) && status == database.jobs[id].status
      ensures Released(old(database.jobs)[id], database.jobs[id])
      ensures Governed(old(database.versions)) ==> Governed(database.versions)
      ensures |database.versions| == |old(database.versions)|
      ensures Outcome(old(database.jobs)[id], old(database.versions), world, reviewMode, status, database.versions)
      ensures database.versions == ExecutedVersions(old(database.jobs)[id], old(database.versions), world, reviewMode, now)
      ensures var job := old(database.jobs)[id];
              database.jobs[id]
              == Reported(job, IndexingVerdict(job.kind, old(database.versions)[job.versionId.value].status, world), backoffCap, now)
      ensures status != Queue.Succeeded ==> database.chunks == old(database.chunks)
      ensures status == Queue.Succeeded ==>
                database.chunks == old(database.chunks)[old(database.jobs)[id].versionId.value := StoredTable(world)]
    {
      var versionId := database.jobs[id].versionId.value;
      ghost var job, versions := database.jobs[id], database.versions;
      var verdict := IndexBody(id, versionId, world, now);
      ghost var beaten, body := database.jobs[id], database.versions;
      status := Report(id, verdict, now);
      BeatChangesNothing(job, beaten, verdict, backoffCap, now);
      IndexingEnds(job, beaten, versions, body, world, reviewMode, now, status, database.versions);
    }

    /** _execute_evaluate: a measurement never touches a version. */
    method ExecuteEvaluate(id: nat, world: World, now: int) returns (status: Queue.JobStatus)
      requires Holds(id) && database.jobs[id].kind == Queue.EvaluateJob
      modifies database`jobs, database`versions
      ensures OnlyJobChanged(id) && status == database.jobs[id].status
      ensures Released(old(database.jobs)[id], database.jobs[id])
      ensures Governed(old(database.versions)) ==> Governed(database.versions)
      ensures database.versions == old(database.versions)
      ensures status == Queue.Succeeded <==>
                old(database.jobs)[id].versionId.Some? && KnownTrigger(TriggerOf(old(database.jobs)[id].payload))
                && world.evaluated.EvaluationStored?
      ensures database.jobs[id]
           == Reported(old(database.jobs)[id], EvaluateVerdict(old(database.jobs)[id], world), backoffCap, now)
    {
      var job := database.jobs[id];
      if job.versionId.None? {
        status := RecordFailure(id, "job_target_missing", false, now);
        return;
      }
      if !KnownTrigger(TriggerOf(job.payload)) {
        status := RecordFailure(id, "job_payload_invalid", false, now);
        return;
      }
      var beat := database.HeartbeatIngestionJob(id, name, now);
      match world.evaluated {
        case EvaluationError(code) => status := RecordFailure(id, code, false, now);
        case EvaluationCrash => status := RecordFailure(id, "worker_error", true, now);
        case EvaluationStored =>
          var completed := database.CompleteIngestionJob(id, name, now);
          status := Queue.Succeeded;
      }
    }

    /** _execute_withdraw: the withdrawal of the job's version, or nothing. */
    method ExecuteWithdraw(id: nat, now: int) returns (status: Queue.JobStatus)
      requires Holds(id) && database.jobs[id].kind == Queue.WithdrawJob
      modifies database`jobs, database`versions
      ensures OnlyJobChanged(id) && status == database.jobs[id].status
      ensures Released(old(database.jobs)[id], database.jobs[id])
      ensures Governed(old(database.versions)) ==> Governed(database.versions)
      ensures database.versions == Settled(old(database.versions), Withdrawal(old(database.jobs)[id], old(database.versions), now))
      ensures status == Queue.Succeeded <==> Withdrawal(old(database.jobs)[id], old(database.versions), now).Ok?
      ensures database.jobs[id]
           == Reported(old(database.jobs)[id], WithdrawVerdict(old(database.jobs)[id], old(database.versions), now), backoffCap, now)
    {
      var taken := WithdrawVersion(database.jobs[id], now);
      if taken.Error? {
        status := RecordFailure(id, "job_target_missing", false, now);
        return;
      }
      var completed := database.CompleteIngestionJob(id, name, now);
      status := Queue.Succeeded;
    }

    method WithdrawVersion(job: Queue.Job, now: int) returns (taken: Result<Status>)
      modifies database`versions
      ensures database.versions == Settled(old(database.versions), Withdrawal(job, old(database.versions), now))
      ensures taken.Ok? <==> Withdrawal(job, old(database.versions), now).Ok?
      ensures Governed(old(database.versions)) ==> Governed(database.versions)
    {
      if job.versionId.None? || job.versionId.value >= |database.versions| {
        return Error("job_target_missing");
      }
      var row := database.versions[job.versionId.value];
      if Governed(database.versions) { WithdrawalKeeps(job, database.versions, now); }
      taken := database.WithdrawDocumentVersion(row.documentId, row.number, ActorOf(job), ReasonOf(job), now);
    }

    /** An import or reindex job, whether or not it names a version that exists. */
    method ExecuteTarget(id: nat, world: World, now: int) returns (status: Queue.JobStatus)
      requires Holds(id) && Indexing(database.jobs[id].kind)
      modifies database`jobs, database`versions, database`chunks
      ensures OnlyJobChanged(id) && status == database.jobs[id].status
      ensures Released(old(database.jobs)[id], database.jobs[id])
      ensures Governed(old(database.versions)) ==> Governed(database.versions)
      ensures IsCarriedOut(old(database.jobs)[id], old(database.versions), old(database.chunks), world, reviewMode, backoffCap, now,
                           database.jobs[id], database.versions, database.chunks)
    {
      var job := database.jobs[id];
      if job.versionId.None? || job.documentId.None? || job.versionId.value >= |database.versions| {
        status := RecordFailure(id, "job_target_missing", false, now);
      } else {
        status := ExecuteIndexing(id, world, now);
      }
    }

    /** _execute: whatever the job, it no longer runs afterwards and has the attempts it had. */
    method Execute(id: nat, world: World, now: int) returns (status: Queue.JobStatus)
      requires Holds(id)
      modifies database`jobs, database`versions, database`chunks
      ensures OnlyJobChanged(id) && status == database.jobs[id].status
      ensures Released(old(database.jobs)[id], database.jobs[id])
      ensures Governed(old(database.versions)) ==> Governed(database.versions)
      ensures IsCarriedOut(old(database.jobs)[id], old(database.versions), old(database.chunks), world, reviewMode, backoffCap, now,
                           database.jobs[id], database.versions, database.chunks)
    {
      ghost var job, versions, chunks := database.jobs[id], database.versions, database.chunks;
      match database.jobs[id].kind {
        case WithdrawJob =>
          status := ExecuteWithdraw(id, now);
          WithdrawalIsCarriedOut(job, versions, chunks, world, reviewMode, backoffCap, now, database.jobs[id], database.versions);
        case EvaluateJob =>
          status := ExecuteEvaluate(id, world, now);
          EvaluationIsCarriedOut(job, versions, chunks, world, reviewMode, backoffCap, now, database.jobs[id]);
        case _ => status := ExecuteTarget(id, world, now);
      }
    }

    // ----- the loop -----

    /** The job claimed out of `jobs` ended as its kind, its attempts and the world say, and so did its version. */
    ghost predicate CarriedOut(jobs: seq<Queue.Job>, versions: seq<Version>, world: World, now: int, status: Queue.JobStatus)
      reads database
    {
      var claimed := Queue.Candidate(jobs, now, 0);
      claimed.Some? && claimed.value < |database.jobs| && database.jobs[claimed.value].status == status
      && var job := jobs[claimed.value].(attempts := jobs[claimed.value].attempts + 1);
         EndsWith(job, versions, world, reviewMode, now, status, database.versions)
    }

    /** run_once: reclaim, claim at most one job, carry it out. */
    method RunOnce(world: World, now: int) returns (outcome: Option<Queue.JobStatus>)
      requires QueueOk(database.jobs)
      modifies database`jobs, database`versions, database`chunks
      ensures QueueOk(database.jobs) && |database.jobs| == |old(database.jobs)|
      ensures Governed(old(database.versions)) ==> Governed(database.versions)
      ensures outcome.Some? ==> Budget(database.jobs) == Budget(old(database.jobs)) - 1
      ensures outcome.None? ==> Budget(database.jobs) == Budget(old(database.jobs))
                                && database.versions == old(database.versions)
                                && forall k | 0 <= k < |database.jobs| :: !Queue.Claimable(database.jobs[k], now)
      ensures outcome.Some? ==>
                CarriedOut(Queue.Reclaim(old(database.jobs), now, timeout), old(database.versions), world, now, outcome.value)
      ensures match Queue.Claim(Queue.Reclaim(old(database.jobs), now, timeout), name, now)
              case None =>
                outcome == None && database.jobs == Queue.Reclaim(old(database.jobs), now, timeout)
                && database.versions == old(database.versions) && database.chunks == old(database.chunks)
              case Some((taken, id)) =>
                id < |taken| == |database.jobs| && outcome == Some(database.jobs[id].status)
                && (forall k | 0 <= k < |taken| && k != id :: database.jobs[k] == taken[k])
                && IsCarriedOut(taken[id], old(database.versions), old(database.chunks), world, reviewMode, backoffCap, now,
                                database.jobs[id], database.versions, database.chunks)
    {
      var claimed := TakeJob(now);
      if claimed.None? {
        return None;
      }
      ghost var jobs, versions := database.jobs, database.versions;
      ghost var job := Queue.Reclaim(old(database.jobs), now, timeout)[claimed.value];
      var status := Execute(claimed.value, world, now);
      SameTaskSameEnd(jobs[claimed.value], job.(attempts := job.attempts + 1), versions, world, reviewMode, now, status,
                      database.versions);
      ReleasedKeepsQueue(jobs, database.jobs, claimed.value);
      return Some(status);
    }

    /** Reclaim what other workers abandoned, then claim the first job that is due. */
    method TakeJob(now: int) returns (claimed: Option<nat>)
      requires QueueOk(database.jobs)
      modifies database`jobs
      ensures QueueOk(database.jobs) && |database.jobs| == |old(database.jobs)|
      ensures claimed == Queue.Candidate(Queue.Reclaim(old(database.jobs), now, timeout), now, 0)
      ensures match Queue.Claim(Queue.Reclaim(old(database.jobs), now, timeout), name, now)
              case None => claimed == None && database.jobs == Queue.Reclaim(old(database.jobs), now, timeout)
              case Some((taken, id)) => claimed == Some(id) && database.jobs == taken
      ensures Budget(database.jobs) == Budget(old(database.jobs)) - if claimed.Some? then 1 else 0
      ensures claimed.None? ==> forall k | 0 <= k < |database.jobs| :: !Queue.Claimable(database.jobs[k], now)
      ensures claimed.Some? ==> Holds(claimed.value)
      ensures claimed.Some? ==>
                var before, after := Queue.Reclaim(old(database.jobs), now, timeout)[claimed.value], database.jobs[claimed.value];
                SameTask(after, before) && after.attempts == before.attempts + 1
    {
      ReclaimFacts(database.jobs, now, timeout);
      var reclaimed := database.ReclaimStaleIngestionJobs(timeout, now);
      ClaimFacts(database.jobs, name, now);
      claimed := database.ClaimIngestionJob(name, now);
    }

    /**
     * drain: job after job until none can be claimed (or `limit` of them, when it is positive). It stops
     * after at most as many jobs as there are attempts left; with no limit, every job still waiting then
     * is one whose retry is not due.
     */
    method Drain(limit: nat, worlds: nat -> World, clock: nat -> int) returns (processed: nat)
      requires QueueOk(database.jobs)
      modifies database`jobs, database`versions, database`chunks
      ensures QueueOk(database.jobs)
      ensures Governed(old(database.versions)) ==> Governed(database.versions)
      ensures processed == Budget(old(database.jobs)) - Budget(database.jobs) <= Budget(old(database.jobs))
      ensures limit > 0 ==> processed <= limit
      ensures limit == 0 || processed < limit ==>
                forall k | 0 <= k < |database.jobs| && database.jobs[k].status == Queue.Waiting ::
                  !Queue.Due(database.jobs[k], clock(processed))
    {
      processed := 0;
      BudgetNonNegative(database.jobs);
      while true
        invariant QueueOk(database.jobs)
        invariant Governed(old(database.versions)) ==> Governed(database.versions)
        invariant processed == Budget(old(database.jobs)) - Budget(database.jobs)
        invariant Budget(database.jobs) >= 0
        invariant limit > 0 ==> processed < limit
        decreases Budget(database.jobs)
      {
        var outcome := RunOnce(worlds(processed), clock(processed));
        BudgetNonNegative(database.jobs);
        if outcome.None? {
          forall k | 0 <= k < |database.jobs| && database.jobs[k].status == Queue.Waiting
            ensures !Queue.Due(database.jobs[k], clock(processed))
          {
            assert JobOk(database.jobs[k]);
          }
          return;
        }
        processed := processed + 1;
        if limit > 0 && processed >= limit {
          return;
        }
      }
    }
  }

  // ----- what the outcome means -----

  /** An import succeeds exactly when its version waits to be indexed and nothing goes wrong outside. */
  lemma ImportSucceedsIff(status: Status, world: World)
    ensures IndexingVerdict(Queue.ImportJob, status, world).Success? <==>
              Indexable(status) && world.source == SourceFound && world.parsed.Chunked? && world.parsed.pieces != []
              && world.embedded.Vectors? && |world.embedded.vectors| == |world.parsed.pieces|
  {
  }

  /**
   * Job and version agree afterwards, with one exception: an import whose failure is retryable leaves alone a version
   * that was neither waiting to be indexed nor failed.
   */
  lemma JobAndVersionAgreeIff(kind: Queue.JobKind, status: Status, world: World, reviewMode: bool, attempts: nat, limit: nat)
    requires Indexing(kind)
    ensures var job := JobOutcome(IndexingVerdict(kind, status, world), attempts, limit);
            Agree(job, FinalStatus(kind, status, world, reviewMode, attempts, limit))
            <==> !(kind == Queue.ImportJob && job == Queue.Waiting && status !in {Queued, Processing, Failed})
  {
  }
}
