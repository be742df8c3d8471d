/**
 * backend/database.py, QueryDatabase: the document, version and job tables as mutable state. Each method
 * is one transaction and is proved against the function of the same operation in Governance or JobQueue.
 */
module Database {
  import opened Text
  import opened Governance
  import opened ChunkRows
  import Chunker
  import Queue = JobQueue

  /** What begin_document_import tells its caller. */
  datatype Ticket = Ticket(documentId: nat, versionId: nat, number: nat, duplicate: bool, reopened: bool, status: Status)

  /** The rows after a transaction: the computed ones, or the old ones when it is refused. */
  ghost function Settled<T>(before: seq<T>, result: Result<seq<T>>): seq<T> {
    match result
    case Ok(after) => after
    case Error(_) => before
  }

  class QueryDatabase {
    var documents: seq<Document>
    var versions: seq<Version>
    var jobs: seq<Queue.Job>
    var chunks: map<nat, map<nat, StoredRow>>  // by version, then by ordinal

    constructor ()
      ensures documents == [] && versions == [] && jobs == [] && chunks == map[]
    {
      documents, versions, jobs, chunks := [], [], [], map[];
    }

    ghost function Rows(): Store
      reads this
    {
      Store(documents, versions)
    }

    // ----- versions -----

    method BeginDocumentImport(req: Request) returns (r: Result<Ticket>)
      modifies this`documents, this`versions
      ensures Rows() == Apply(old(Rows()), 0, OpImport(req))
      ensures r.Ok? <==> BeginImport(old(Rows()), req).Ok?
      ensures r.Ok? ==>
                r.value.versionId < |versions| && r.value.documentId < |documents|
                && documents[r.value.documentId].sourceKey == Cut(req.sourceKey, KEY_LIMIT)
                && var v := versions[r.value.versionId];
                   v.documentId == r.value.documentId && v.sha == req.sha && v.number == r.value.number
                   && v.status == r.value.status
                   && (r.value.duplicate <==> versions == old(versions))
                   && (r.value.duplicate || r.value.reopened ==> |versions| == |old(versions)|)
    {
      if req.classification == Some(Unrecognised) {
        return Error("classification_invalid");
      }
      var key := Cut(req.sourceKey, KEY_LIMIT);
      var found := FindDocument(documents, key);
      var d: nat;
      if found.None? {
        d := |documents|;
        documents := documents + [Document(key, if req.scope.Some? then req.scope.value else PublicScope,
                                           if req.classification.Some? then req.classification.value else Internal)];
      } else {
        d := found.value;
        if req.scope.Some? && req.scope.value != documents[d].scope {
          return Error("access_scope_change_requires_acl");
        }
        if req.classification.Some? {
          if Rank(req.classification.value) < Rank(documents[d].classification) {
            return Error("classification_cannot_be_lowered");
          }
          documents := documents[d := documents[d].(classification := req.classification.value)];
        }
      }
      var ticket := BeginVersion(d, req);
      return Ok(ticket);
    }

    /** The version half of an import. */
    method BeginVersion(d: nat, req: Request) returns (t: Ticket)
      modifies this`versions
      ensures versions == ImportVersion(old(versions), d, req).0
      ensures t.versionId == ImportVersion(old(versions), d, req).1 < |versions|
      ensures t.documentId == d && versions[t.versionId].documentId == d && versions[t.versionId].sha == req.sha
      ensures t.number == versions[t.versionId].number && t.status == versions[t.versionId].status
      ensures t.duplicate <==> versions == old(versions)
      ensures t.duplicate || t.reopened ==> |versions| == |old(versions)|
    {
      var submitter := Cut(req.submitter, ID_LIMIT);
      var existing := FindContent(versions, d, req.sha);
      if existing.Some? {
        var row := versions[existing.value];
        if AlreadyHandled(row.status) {
          return Ticket(d, existing.value, row.number, true, false, row.status);
        }
        versions := versions[existing.value := row.(
          status := Queued, errorCode := None, submittedBy := submitter, withdrawnAt := None, withdrawnReason := "",
          trail := row.trail + [Review(Reopen, Some(row.status), Queued, Recorded(req.submitter), false, submitter)])];
        assert versions[existing.value] != old(versions)[existing.value];
        return Ticket(d, existing.value, row.number, false, true, Queued);
      }
      var number := LatestNumber(versions, d) + 1;
      versions := versions + [Version(
        d, number, req.sha, Queued, 0, None, submitter, None, None, "", None, "", None,
        [Review(Submit, None, Queued, Recorded(req.submitter), false, submitter)])];
      return Ticket(d, |versions| - 1, number, false, false, Queued);
    }

    /** The loop over a document's other live rows. */
    method SupersedeOthers(documentId: nat, keep: nat)
      modifies this`versions
      ensures versions == Supersede(old(versions), documentId, keep)
    {
      var i := 0;
      while i < |versions|
        invariant 0 <= i <= |versions| == |old(versions)|
        invariant forall k | 0 <= k < |versions| ::
                    versions[k] == if k < i then SupersedeOne(old(versions)[k], k, documentId, keep) else old(versions)[k]
      {
        if i != keep && versions[i].documentId == documentId && versions[i].status == Indexed {
          versions := versions[i := versions[i].(status := Superseded, supersededBy := Some(keep))];
        }
        i := i + 1;
      }
    }

    /** Replace every chunk row of the version by one per piece and vector, or refuse and change nothing. */
    method PersistDocumentChunks(id: nat, pieces: seq<Chunker.Piece>, vectors: seq<Vector>) returns (r: Result<nat>)
      modifies this`chunks
      ensures r.Ok? <==> |pieces| == |vectors| && pieces != [] && id < |versions| && Indexable(versions[id].status)
      ensures r.Ok? ==> r.value == |pieces| && chunks == old(chunks)[id := Keyed(SimpleRows(pieces, vectors))]
      ensures r.Error? ==> chunks == old(chunks)
      ensures r == Error("invalid_state_transition") <==>
                |pieces| == |vectors| && pieces != [] && id < |versions| && !Indexable(versions[id].status)
    {
      if |pieces| != |vectors| || pieces == [] {
        return Error("invalid_chunks");
      }
      if id >= |versions| {
        return Error("version_not_found");
      }
      if !Indexable(versions[id].status) {
        return Error("invalid_state_transition");
      }
      var rows := BuildTable(SimpleRows(pieces, vectors));
      chunks := chunks[id := rows];
      return Ok(|pieces|);
    }

    method FinalizeDocumentVersion(id: nat, chunkCount: nat, publish: bool, actor: string, now: int)
        returns (r: Result<Status>)
      modifies this`versions
      ensures versions == Settled(old(versions), Finalize(old(versions), id, chunkCount, publish, actor, now))
      ensures r == match Finalize(old(versions), id, chunkCount, publish, actor, now)
                   case Ok(_) => Ok(if publish then Indexed else Staged)
                   case Error(code) => Error(code)
    {
      if id >= |versions| {
        return Error("version_not_found");
      }
      var from := versions[id];
      if !Indexable(from.status) {
        return Error("invalid_state_transition");
      }
      var row := from.(chunkCount := chunkCount, errorCode := None, indexedAt := Some(now));
      if publish {
        SupersedeOthers(row.documentId, id);
        row := row.(status := Indexed, publishedAt := Some(now), publishedBy := Recorded(actor), withdrawnAt := None,
                    withdrawnReason := "", trail := WithRow(from, Publish, Indexed, actor, false));
      } else {
        row := row.(status := Staged);
      }
      versions := versions[id := row];
      return Ok(row.status);
    }

    method MarkDocumentVersionProcessing(id: nat) returns (r: Result<Status>)
      modifies this`versions
      ensures versions == Settled(old(versions), MarkProcessing(old(versions), id))
      ensures r == match MarkProcessing(old(versions), id) case Ok(_) => Ok(Processing) case Error(code) => Error(code)
    {
      if id >= |versions| {
        return Error("version_not_found");
      }
      if !Indexable(versions[id].status) {
        return Error("invalid_state_transition");
      }
      versions := versions[id := versions[id].(status := Processing)];
      return Ok(Processing);
    }

    method ResetDocumentVersionForRetry(id: nat)
      modifies this`versions
      ensures versions == Settled(old(versions), ResetForRetry(old(versions), id))
    {
      if id < |versions| && (versions[id].status == Processing || versions[id].status == Failed) {
        versions := versions[id := versions[id].(status := Queued, errorCode := None)];
      }
    }

    method ReindexDocumentVersion(id: nat) returns (r: Result<Status>)
      modifies this`versions
      ensures versions == Settled(old(versions), Reindex(old(versions), id))
      ensures r == match Reindex(old(versions), id) case Ok(_) => Ok(Queued) case Error(code) => Error(code)
    {
      if id >= |versions| {
        return Error("version_not_found");
      }
      if versions[id].status == Rejected || versions[id].status == Withdrawn {
        return Error("version_not_reindexable");
      }
      var row := versions[id].(status := Queued, errorCode := None);
      row := row.(withdrawnAt := None, withdrawnReason := "", indexedAt := None);
      versions := versions[id := row];
      return Ok(Queued);
    }

    method FailDocumentImport(id: nat, code: string)
      modifies this`versions
      ensures versions == Settled(old(versions), FailImport(old(versions), id, code))
    {
      if id < |versions| {
        versions := versions[id := versions[id].(status := Failed, errorCode := Some(Cut(code, ID_LIMIT)))];
      }
    }

    method ReviewDocumentVersion(documentId: nat, number: nat, decision: Decision, actor: string, comment: string,
                                 separation: bool, allowOverride: bool) returns (r: Result<Status>)
      modifies this`versions
      ensures versions == Settled(old(versions), Decide(old(versions), documentId, number, decision, actor, comment,
                                                        separation, allowOverride))
      ensures r == match Decide(old(versions), documentId, number, decision, actor, comment, separation, allowOverride)
                   case Ok(_) => Ok(if decision == ApproveIt then Staged else Rejected)
                   case Error(code) => Error(code)
    {
      if decision == UnknownDecision {
        return Error("invalid_review_decision");
      }
      if decision == RejectIt && Strip(comment) == "" {
        return Error("review_comment_required");
      }
      var found := FindVersion(versions, documentId, number);
      if found.None? {
        return Error("version_not_found");
      }
      var row := versions[found.value];
      if row.status != Staged {
        return Error("invalid_state_transition");
      }
      var selfReview := SelfReview(row, actor, separation);
      if selfReview && !allowOverride {
        return Error("separation_of_duties_violation");
      }
      if decision == ApproveIt {
        row := row.(trail := WithRow(row, Approve, Staged, actor, selfReview));
      } else {
        row := row.(status := Rejected, trail := WithRow(row, Reject, Rejected, actor, selfReview));
      }
      versions := versions[found.value := row];
      return Ok(row.status);
    }

    method PublishDocumentVersion(documentId: nat, number: nat, actor: string, allowOverride: bool, gateOverride: bool,
                                  now: int) returns (r: Result<Status>)
      modifies this`versions
      ensures versions == Settled(old(versions), PublishStaged(old(versions), documentId, number, actor, allowOverride,
                                                               gateOverride, now))
      ensures r == match PublishStaged(old(versions), documentId, number, actor, allowOverride, gateOverride, now)
                   case Ok(_) => Ok(Indexed)
                   case Error(code) => Error(code)
    {
      var found := FindVersion(versions, documentId, number);
      if found.None? {
        return Error("version_not_found");
      }
      var row := versions[found.value];
      if row.status != Staged {
        return Error("invalid_state_transition");
      }
      var approved := HasApproval(row.trail);
      if !approved && !allowOverride {
        return Error("review_approval_required");
      }
      if gateOverride {
        row := row.(trail := WithRow(row, OverrideGate, Staged, actor, true));
      }
      SupersedeOthers(row.documentId, found.value);
      row := row.(status := Indexed, indexedAt := if row.indexedAt.Some? then row.indexedAt else Some(now),
                  publishedAt := Some(now), publishedBy := Recorded(actor), withdrawnAt := None, withdrawnReason := "",
                  trail := WithRow(row, Publish, Indexed, actor, !approved));
      versions := versions[found.value := row];
      return Ok(Indexed);
    }

    method WithdrawDocumentVersion(documentId: nat, number: nat, actor: string, reason: string, now: int)
        returns (r: Result<Status>)
      modifies this`versions
      ensures versions == Settled(old(versions), TakeDown(old(versions), documentId, number, actor, reason, now))
      ensures r == match TakeDown(old(versions), documentId, number, actor, reason, now)
                   case Ok(_) => Ok(Withdrawn)
                   case Error(code) => Error(code)
    {
      if Strip(reason) == "" {
        return Error("withdraw_reason_required");
      }
      var found := FindVersion(versions, documentId, number);
      if found.None? {
        return Error("version_not_found");
      }
      var row := versions[found.value];
      if row.status != Indexed {
        return Error("invalid_state_transition");
      }
      row := row.(status := Withdrawn, withdrawnAt := Some(now), withdrawnReason := Cut(Strip(reason), REASON_LIMIT),
                  trail := WithRow(row, Withdraw, Withdrawn, actor, false));
      versions := versions[found.value := row];
      return Ok(Withdrawn);
    }

    method RollbackDocumentVersion(documentId: nat, number: nat, actor: string, reason: string, now: int)
        returns (r: Result<Status>)
      modifies this`versions
      ensures versions == Settled(old(versions), RollBackTo(old(versions), documentId, number, actor, reason, now))
      ensures r == match RollBackTo(old(versions), documentId, number, actor, reason, now)
                   case Ok(_) => Ok(Indexed)
                   case Error(code) => Error(code)
    {
      if Strip(reason) == "" {
        return Error("rollback_reason_required");
      }
      var found := FindVersion(versions, documentId, number);
      if found.None? {
        return Error("version_not_found");
      }
      var row := versions[found.value];
      if row.status != Superseded && row.status != Withdrawn {
        return Error("invalid_state_transition");
      }
      SupersedeOthers(row.documentId, found.value);
      row := row.(status := Indexed, publishedAt := Some(now), publishedBy := Recorded(actor), withdrawnAt := None,
                  withdrawnReason := "", supersededBy := None, trail := WithRow(row, Rollback, Indexed, actor, false));
      versions := versions[found.value := row];
      return Ok(Indexed);
    }

    // ----- jobs -----

    method EnqueueIngestionJob(sub: Queue.Submission) returns (r: Result<nat>)
      modifies this`jobs
      ensures match Queue.Enqueue(old(jobs), sub)
              case Ok((after, id)) => jobs == after && r == Ok(id)
              case Error(code) => jobs == old(jobs) && r == Error(code)
    {
      var limit := Max(1, sub.maxAttempts);
      if sub.versionId.Some? {
        var existing := Queue.FindJob(jobs, sub.kind, sub.versionId.value, 0);
        if existing.Some? {
          var job := jobs[existing.value];
          if job.status == Queue.Running {
            return Error("job_already_running");
          }
          job := Queue.Requeued(job).(maxAttempts := limit, nextAttemptAt := None, payload := sub.payload);
          if sub.createdBy != "" {
            job := job.(createdBy := Cut(sub.createdBy, Queue.NAME_LIMIT));
          }
          jobs := jobs[existing.value := job];
          return Ok(existing.value);
        }
      }
      jobs := jobs + [Queue.Job(sub.kind, Queue.Waiting, sub.priority, sub.documentId, sub.versionId, sub.payload, 0,
                                limit, None, None, None, Cut(sub.createdBy, Queue.NAME_LIMIT), None, None, None)];
      return Ok(|jobs| - 1);
    }

    /** The claim as one atomic statement. */
    method ClaimIngestionJob(worker: string, now: int) returns (claimed: Option<nat>)
      modifies this`jobs
      ensures match Queue.Claim(old(jobs), worker, now)
              case Some((after, id)) => jobs == after && claimed == Some(id)
              case None => jobs == old(jobs) && claimed == None
    {
      var candidate := Queue.Candidate(jobs, now, 0);
      if candidate.None? {
        return None;
      }
      var won := ClaimRow(candidate.value, worker, now);
      return if won then candidate else None;
    }

    /** The conditional update, which SQLite runs after a separate selection. */
    method ClaimRow(id: nat, worker: string, now: int) returns (won: bool)
      modifies this`jobs
      ensures match Queue.ClaimRow(old(jobs), id, worker, now)
              case Some(after) => jobs == after && won
              case None => jobs == old(jobs) && !won
    {
      if id >= |jobs| || jobs[id].status != Queue.Waiting {
        return false;
      }
      var job := jobs[id].(status := Queue.Running, attempts := jobs[id].attempts + 1);
      job := job.(lockedBy := Some(Queue.WorkerName(worker)), heartbeatAt := Some(now));
      if job.startedAt.None? {
        job := job.(startedAt := Some(now));
      }
      jobs := jobs[id := job];
      return true;
    }

    method HeartbeatIngestionJob(id: nat, worker: string, now: int) returns (updated: bool)
      modifies this`jobs
      ensures jobs == Queue.Heartbeat(old(jobs), id, worker, now)
      ensures updated <==> id < |old(jobs)| && Queue.HeldBy(old(jobs)[id], worker)
    {
      updated := id < |jobs| && Queue.HeldBy(jobs[id], worker);
      if updated {
        jobs := jobs[id := jobs[id].(heartbeatAt := Some(now))];
      }
    }

    method CompleteIngestionJob(id: nat, worker: string, now: int) returns (updated: bool)
      modifies this`jobs
      ensures jobs == Queue.Complete(old(jobs), id, worker, now)
      ensures updated <==> id < |old(jobs)| && Queue.HeldBy(old(jobs)[id], worker)
    {
      updated := id < |jobs| && Queue.HeldBy(jobs[id], worker);
      if updated {
        var job := jobs[id].(status := Queue.Succeeded, finishedAt := Some(now), lockedBy := None);
        jobs := jobs[id := job.(heartbeatAt := Some(now), lastError := None)];
      }
    }

    method FailIngestionJob(id: nat, code: string, retryable: bool, cap: int,
        now: int) returns (r: Result<Queue.JobStatus>)
      modifies this`jobs
      ensures jobs == Settled(old(jobs), Queue.Fail(old(jobs), id, code, retryable, cap, now))
      ensures r.Ok? <==> id < |old(jobs)|
      ensures r.Ok? ==> id < |jobs| && r.value == jobs[id].status
    {
      if id >= |jobs| {
        return Error("job_not_found");
      }
      var job := jobs[id];
      var canRetry := retryable && job.attempts < job.maxAttempts;
      job := job.(lastError := Some(Cut(if code == "" then "job_failed" else code, Queue.NAME_LIMIT)), lockedBy := None,
                  heartbeatAt := None);
      if canRetry {
        job := job.(status := Queue.Waiting, nextAttemptAt := Some(now + Queue.Delay(cap, job.attempts)));
      } else {
        job := job.(status := Queue.JobFailed, finishedAt := Some(now), nextAttemptAt := None);
      }
      jobs := jobs[id := job];
      return Ok(job.status);
    }

    method ReclaimStaleIngestionJobs(timeout: int, now: int) returns (reclaimed: nat)
      modifies this`jobs
      ensures jobs == Queue.Reclaim(old(jobs), now, timeout)
      ensures reclaimed == 0 <==> forall k | 0 <= k < |old(jobs)| :: !Queue.Stale(old(jobs)[k], now, timeout)
    {
      reclaimed := 0;
      var i := 0;
      while i < |jobs|
        invariant 0 <= i <= |jobs| == |old(jobs)|
        invariant forall k | 0 <= k < |jobs| ::
                    jobs[k] == if k < i then Queue.ReclaimOne(old(jobs)[k], now, timeout) else old(jobs)[k]
        invariant reclaimed == 0 <==> forall k | 0 <= k < i :: !Queue.Stale(old(jobs)[k], now, timeout)
      {
        if Queue.Stale(jobs[i], now, timeout) {
          var job := jobs[i].(lockedBy := None, heartbeatAt := None);
          if job.lastError.None? {
            job := job.(lastError := Some("job_abandoned"));
          }
          if job.attempts < job.maxAttempts {
            job := job.(status := Queue.Waiting);
          } else {
            job := job.(status := Queue.JobFailed, finishedAt := Some(now));
          }
          jobs := jobs[i := job];
          reclaimed := reclaimed + 1;
        }
        i := i + 1;
      }
    }

    method RetryIngestionJob(id: nat) returns (r: Result<nat>)
      modifies this`jobs
      ensures jobs == Settled(old(jobs), Queue.Retry(old(jobs), id))
      ensures r.Ok? <==> Queue.Retry(old(jobs), id).Ok?
    {
      if id >= |jobs| {
        return Error("job_not_found");
      }
      if jobs[id].status == Queue.Waiting || jobs[id].status == Queue.Running {
        return Error("job_already_active");
      }
      jobs := jobs[id := Queue.Requeued(jobs[id])];
      return Ok(id);
    }

    method CancelIngestionJob(id: nat, now: int) returns (r: Result<nat>)
      modifies this`jobs
      ensures jobs == Settled(old(jobs), Queue.Cancel(old(jobs), id, now))
      ensures r.Ok? <==> Queue.Cancel(old(jobs), id, now).Ok?
    {
      if id >= |jobs| {
        return Error("job_not_found");
      }
      if jobs[id].status != Queue.Waiting {
        return Error("job_not_cancellable");
      }
      jobs := jobs[id := jobs[id].(status := Queue.Cancelled, finishedAt := Some(now), lastError := Some("cancelled"))];
      return Ok(id);
    }
  }
}
