/**
 * backend/database.py, lines 299-691 and 1109-1242: the life of a document version. Rows live in
 * sequences; a row's id is its position. A version carries its own slice of the review trail, oldest
 * row first.
 */
module Governance {
  import opened Text

  datatype Status = Queued | Processing | Staged | Indexed | Rejected | Withdrawn | Superseded | Failed

  datatype Action = Submit | Reopen | Approve | Reject | Publish | Withdraw | Rollback | OverrideGate

  /** `submitterThen` is history the table does not store: who the version's submitter was at that moment. */
  datatype Review = Review(
    action: Action, fromStatus: Option<Status>, toStatus: Status, actor: string, isOverride: bool, submitterThen: string)

  datatype Version = Version(
    documentId: nat, number: nat, sha: string, status: Status, chunkCount: nat, errorCode: Option<string>,
    submittedBy: string, indexedAt: Option<int>, publishedAt: Option<int>, publishedBy: string,
    withdrawnAt: Option<int>, withdrawnReason: string, supersededBy: Option<nat>, trail: seq<Review>)

  datatype Scope = PublicScope | Restricted

  datatype Classification = Public | Internal | Confidential | Unrecognised

  datatype Document = Document(sourceKey: string, scope: Scope, classification: Classification)

  datatype Store = Store(documents: seq<Document>, versions: seq<Version>)

  datatype Decision = ApproveIt | RejectIt | UnknownDecision

  const ID_LIMIT: nat := 64
  const KEY_LIMIT: nat := 512
  const REASON_LIMIT: nat := 512

  /** How an actor id is written into a row. */
  function Recorded(actor: string): string {
    Cut(if actor == "" then "system" else actor, ID_LIMIT)
  }

  function Rank(c: Classification): nat {
    match c
    case Public => 0
    case Internal => 1
    case _ => 2
  }

  function FindDocument(documents: seq<Document>, key: string): (r: Option<nat>)
    ensures r.Some? ==> r.value < |documents| && documents[r.value].sourceKey == key
    ensures r.None? ==> forall i | 0 <= i < |documents| :: documents[i].sourceKey != key
  {
    if documents == [] then None
    else if documents[0].sourceKey == key then Some(0)
    else match FindDocument(documents[1..], key)
         case Some(i) => Some(i + 1)
         case None => None
  }

  /** The first version row that satisfies p, from row `from` on. */
  function FindRow(versions: seq<Version>, p: Version -> bool, from: nat): (r: Option<nat>)
    ensures r.Some? ==> from <= r.value < |versions| && p(versions[r.value])
    ensures r.None? ==> forall i | from <= i < |versions| :: !p(versions[i])
    ensures r.Some? ==> forall i | from <= i < r.value :: !p(versions[i])
    decreases |versions| - from
  {
    if from >= |versions| then None
    else if p(versions[from]) then Some(from)
    else FindRow(versions, p, from + 1)
  }

  /** The document's version with this content. */
  function FindContent(versions: seq<Version>, documentId: nat, sha: string): Option<nat> {
    FindRow(versions, (v: Version) => v.documentId == documentId && v.sha == sha, 0)
  }

  /** The document's version with this number. */
  function FindVersion(versions: seq<Version>, documentId: nat, number: nat): Option<nat> {
    FindRow(versions, (v: Version) => v.documentId == documentId && v.number == number, 0)
  }

  function LatestNumber(versions: seq<Version>, documentId: nat): nat {
    if versions == [] then 0
    else
      var rest := LatestNumber(versions[1..], documentId);
      if versions[0].documentId == documentId && versions[0].number > rest then versions[0].number else rest
  }

  // ----- operations, as functions from the rows before to the rows after -----

  predicate Indexable(s: Status) {
    s == Queued || s == Processing
  }

  function WithRow(v: Version, action: Action, toStatus: Status, actor: string, isOverride: bool): seq<Review> {
    v.trail + [Review(action, Some(v.status), toStatus, Recorded(actor), isOverride, v.submittedBy)]
  }

  /** Every other live version of the document is superseded by version `keep`. */
  function SupersedeOne(v: Version, i: nat, documentId: nat, keep: nat): Version {
    if i != keep && v.documentId == documentId && v.status == Indexed
    then v.(status := Superseded, supersededBy := Some(keep)) else v
  }

  function Supersede(versions: seq<Version>, documentId: nat, keep: nat): (vs: seq<Version>)
    ensures |vs| == |versions|
    ensures forall i | 0 <= i < |versions| :: vs[i] == SupersedeOne(versions[i], i, documentId, keep)
  {
    seq(|versions|, i requires 0 <= i < |versions| => SupersedeOne(versions[i], i, documentId, keep))
  }

  /** Row `id` becomes `live`; the document's other live rows step down. */
  function GoLive(versions: seq<Version>, id: nat, live: Version): (vs: seq<Version>)
    requires id < |versions|
    ensures |vs| == |versions|
  {
    Supersede(versions, live.documentId, id)[id := live]
  }

  function Finalize(versions: seq<Version>, id: nat, chunkCount: nat, publish: bool, actor: string, now: int):
      Result<seq<Version>> {
    if id >= |versions| then Error("version_not_found")
    else if !Indexable(versions[id].status) then Error("invalid_state_transition")
    else
      var v := versions[id].(chunkCount := chunkCount, errorCode := None, indexedAt := Some(now));
      if publish then
        Ok(GoLive(versions, id, v.(
          status := Indexed, publishedAt := Some(now), publishedBy := Recorded(actor), withdrawnAt := None,
          withdrawnReason := "", trail := WithRow(v, Publish, Indexed, actor, false))))
      else Ok(versions[id := v.(status := Staged)])
  }

  function MarkProcessing(versions: seq<Version>, id: nat): Result<seq<Version>> {
    if id >= |versions| then Error("version_not_found")
    else if !Indexable(versions[id].status) then Error("invalid_state_transition")
    else Ok(versions[id := versions[id].(status := Processing)])
  }

  function ResetForRetry(versions: seq<Version>, id: nat): Result<seq<Version>> {
    if id < |versions| && (versions[id].status == Processing || versions[id].status == Failed)
    then Ok(versions[id := versions[id].(status := Queued, errorCode := None)]) else Ok(versions)
  }

  function Reindex(versions: seq<Version>, id: nat): Result<seq<Version>> {
    if id >= |versions| then Error("version_not_found")
    else if versions[id].status == Rejected || versions[id].status == Withdrawn then Error("version_not_reindexable")
    else Ok(versions[id := versions[id].(
              status := Queued, errorCode := None, withdrawnAt := None, withdrawnReason := "", indexedAt := None)])
  }

  function FailImport(versions: seq<Version>, id: nat, code: string): Result<seq<Version>> {
    if id < |versions| then Ok(versions[id := versions[id].(status := Failed, errorCode := Some(Cut(code, ID_LIMIT)))])
    else Ok(versions)
  }

  /** _self_review_override: is this actor the submitter, as far as the stored id can tell? */
  predicate SelfReview(v: Version, actor: string, separation: bool) {
    separation && actor != "" && v.submittedBy == actor
  }

  function Decide(versions: seq<Version>, documentId: nat, number: nat, decision: Decision, actor: string,
                  comment: string, separation: bool, allowOverride: bool): Result<seq<Version>> {
    var row := FindVersion(versions, documentId, number);
    if decision == UnknownDecision then Error("invalid_review_decision")
    else if decision == RejectIt && Strip(comment) == "" then Error("review_comment_required")
    else if row.None? then Error("version_not_found")
    else
      var v := versions[row.value];
      if v.status != Staged then Error("invalid_state_transition")
      else if SelfReview(v, actor, separation) && !allowOverride then Error("separation_of_duties_violation")
      else
        var isOverride := SelfReview(v, actor, separation);
        Ok(versions[row.value :=
             if decision == ApproveIt then v.(trail := WithRow(v, Approve, Staged, actor, isOverride))
             else v.(status := Rejected, trail := WithRow(v, Reject, Rejected, actor, isOverride))])
  }

  predicate HasApproval(trail: seq<Review>) {
    exists r :: r in trail && r.action == Approve
  }

  function PublishStaged(versions: seq<Version>, documentId: nat, number: nat, actor: string, allowOverride: bool,
                         gateOverride: bool, now: int): Result<seq<Version>> {
    var row := FindVersion(versions, documentId, number);
    if row.None? then Error("version_not_found")
    else
      var v := versions[row.value];
      if v.status != Staged then Error("invalid_state_transition")
      else if !HasApproval(v.trail) && !allowOverride then Error("review_approval_required")
      else
        var bypassed := if gateOverride then v.(trail := WithRow(v, OverrideGate, Staged, actor, true)) else v;
        Ok(GoLive(versions, row.value, bypassed.(
             status := Indexed, indexedAt := if v.indexedAt.Some? then v.indexedAt else Some(now),
             publishedAt := Some(now), publishedBy := Recorded(actor), withdrawnAt := None, withdrawnReason := "",
             trail := WithRow(bypassed, Publish, Indexed, actor, !HasApproval(v.trail)))))
  }

  function TakeDown(versions: seq<Version>, documentId: nat, number: nat, actor: string, reason: string, now: int):
      Result<seq<Version>> {
    var row := FindVersion(versions, documentId, number);
    if Strip(reason) == "" then Error("withdraw_reason_required")
    else if row.None? then Error("version_not_found")
    else
      var v := versions[row.value];
      if v.status != Indexed then Error("invalid_state_transition")
      else Ok(versions[row.value := v.(
                status := Withdrawn, withdrawnAt := Some(now), withdrawnReason := Cut(Strip(reason), REASON_LIMIT),
                trail := WithRow(v, Withdraw, Withdrawn, actor, false))])
  }

  function RollBackTo(versions: seq<Version>, documentId: nat, number: nat, actor: string, reason: string, now: int):
      Result<seq<Version>> {
    var row := FindVersion(versions, documentId, number);
    if Strip(reason) == "" then Error("rollback_reason_required")
    else if row.None? then Error("version_not_found")
    else
      var v := versions[row.value];
      if v.status != Superseded && v.status != Withdrawn then Error("invalid_state_transition")
      else Ok(GoLive(versions, row.value, v.(
                status := Indexed, publishedAt := Some(now), publishedBy := Recorded(actor), withdrawnAt := None,
                withdrawnReason := "", supersededBy := None, trail := WithRow(v, Rollback, Indexed, actor, false))))
  }

  /** Statuses for which re-importing the same content changes nothing. */
  predicate AlreadyHandled(s: Status) {
    s == Indexed || s == Queued || s == Processing || s == Staged
  }

  datatype Request = Request(
    sourceKey: string, sha: string, scope: Option<Scope>, classification: Option<Classification>, submitter: string)

  /** The document row of an import: created, or checked and updated without widening access. */
  function ImportDocument(documents: seq<Document>, req: Request): Result<(seq<Document>, nat)> {
    if req.classification == Some(Unrecognised) then Error("classification_invalid")
    else
      var key := Cut(req.sourceKey, KEY_LIMIT);
      match FindDocument(documents, key)
      case None =>
        Ok((documents + [Document(key, if req.scope.Some? then req.scope.value else PublicScope,
                                  if req.classification.Some? then req.classification.value else Internal)],
            |documents|))
      case Some(d) =>
        if req.scope.Some? && req.scope.value != documents[d].scope then Error("access_scope_change_requires_acl")
        else if req.classification.None? then Ok((documents, d))
        else if Rank(req.classification.value) < Rank(documents[d].classification) then
          Error("classification_cannot_be_lowered")
        else Ok((documents[d := documents[d].(classification := req.classification.value)], d))
  }

  /** The version row of an import: untouched, reopened, or new. */
  function ImportVersion(versions: seq<Version>, documentId: nat, req: Request): (seq<Version>, nat) {
    match FindContent(versions, documentId, req.sha)
    case Some(id) =>
      var v := versions[id];
      if AlreadyHandled(v.status) then (versions, id)
      else (versions[id := v.(
              status := Queued, errorCode := None, submittedBy := Cut(req.submitter, ID_LIMIT), withdrawnAt := None,
              withdrawnReason := "",
              trail := v.trail + [Review(Reopen, Some(v.status), Queued, Recorded(req.submitter), false,
                                         Cut(req.submitter, ID_LIMIT))])], id)
    case None =>
      (versions + [Version(
         documentId, LatestNumber(versions, documentId) + 1, req.sha, Queued, 0, None, Cut(req.submitter, ID_LIMIT),
         None, None, "", None, "", None,
         [Review(Submit, None, Queued, Recorded(req.submitter), false, Cut(req.submitter, ID_LIMIT))])], |versions|)
  }

  function BeginImport(store: Store, req: Request): Result<Store> {
    match ImportDocument(store.documents, req)
    case Error(code) => Error(code)
    case Ok((documents, d)) => Ok(Store(documents, ImportVersion(store.versions, d, req).0))
  }

  datatype Op =
    | OpImport(req: Request)
    | OpFinalize(id: nat, chunkCount: nat, publish: bool, actor: string)
    | OpMarkProcessing(id: nat)
    | OpReset(id: nat)
    | OpReindex(id: nat)
    | OpFail(id: nat, code: string)
    | OpDecide(documentId: nat, number: nat, decision: Decision, actor: string, comment: string,
               separation: bool, allowOverride: bool)
    | OpPublish(documentId: nat, number: nat, actor: string, allowOverride: bool, gateOverride: bool)
    | OpWithdraw(documentId: nat, number: nat, actor: string, reason: string)
    | OpRollback(documentId: nat, number: nat, actor: string, reason: string)

  function ApplyVersions(versions: seq<Version>, now: int, op: Op): Result<seq<Version>>
    requires !op.OpImport?
  {
    match op
    case OpFinalize(id, n, publish, actor) => Finalize(versions, id, n, publish, actor, now)
    case OpMarkProcessing(id) => MarkProcessing(versions, id)
    case OpReset(id) => ResetForRetry(versions, id)
    case OpReindex(id) => Reindex(versions, id)
    case OpFail(id, code) => FailImport(versions, id, code)
    case OpDecide(d, n, decision, actor, comment, separation, override) =>
      Decide(versions, d, n, decision, actor, comment, separation, override)
    case OpPublish(d, n, actor, override, gate) => PublishStaged(versions, d, n, actor, override, gate, now)
    case OpWithdraw(d, n, actor, reason) => TakeDown(versions, d, n, actor, reason, now)
    case OpRollback(d, n, actor, reason) => RollBackTo(versions, d, n, actor, reason, now)
  }

  /** One transaction: a refused operation leaves every row alone. */
  function Apply(store: Store, now: int, op: Op): Store {
    if op.OpImport? then
      match BeginImport(store, op.req)
      case Ok(after) => after
      case Error(_) => store
    else
      match ApplyVersions(store.versions, now, op)
      case Ok(versions) => store.(versions := versions)
      case Error(_) => store
  }

  datatype Event = Event(now: int, op: Op)

  function Run(store: Store, events: seq<Event>): Store
    decreases |events|
  {
    if events == [] then store else Run(Apply(store, events[0].now, events[0].op), events[1..])
  }
}
