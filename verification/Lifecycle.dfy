/** backend/database.py, lines 356-691 and 1109-1242: which status moves exist, what causes them, and what an operation leaves alone. */
module Lifecycle {
  import opened Text
  import opened Governance
  import opened GovernanceSafety

  /** The version row an operation is about. */
  function Target(store: Store, op: Op): Option<nat> {
    match op
    case OpImport(req) =>
      (match ImportDocument(store.documents, req)
       case Ok((_, d)) => FindContent(store.versions, d, req.sha)
       case Error(_) => None)
    case OpFinalize(id, _, _, _) => Some(id)
    case OpMarkProcessing(id) => Some(id)
    case OpReset(id) => Some(id)
    case OpReindex(id) => Some(id)
    case OpFail(id, _) => Some(id)
    case OpDecide(d, n, _, _, _, _, _) => FindVersion(store.versions, d, n)
    case OpPublish(d, n, _, _, _) => FindVersion(store.versions, d, n)
    case OpWithdraw(d, n, _, _) => FindVersion(store.versions, d, n)
    case OpRollback(d, n, _, _) => FindVersion(store.versions, d, n)
  }

  /** The moves between different statuses. */
  predicate MayMove(s: Status, t: Status) {
    match t
    case Queued => true
    case Failed => true
    case Processing => s == Queued
    case Staged => s == Queued || s == Processing
    case Indexed => s == Queued || s == Processing || s == Staged || s == Superseded || s == Withdrawn
    case Rejected => s == Staged
    case Withdrawn => s == Indexed
    case Superseded => s == Indexed
  }

  /** The operations that can move a row into a status. */
  predicate MovesInto(op: Op, t: Status) {
    match t
    case Queued => op.OpImport? || op.OpReset? || op.OpReindex?
    case Failed => op.OpFail?
    case Processing => op.OpMarkProcessing?
    case Staged => op.OpFinalize? && !op.publish
    case Indexed => (op.OpFinalize? && op.publish) || op.OpPublish? || op.OpRollback?
    case Rejected => op.OpDecide? && op.decision == RejectIt
    case Withdrawn => op.OpWithdraw?
    case Superseded => (op.OpFinalize? && op.publish) || op.OpPublish? || op.OpRollback?
  }

  /** A row that the operation is not about stays as it is, or is superseded by the one that is. */
  ghost predicate Bystander(before: Version, after: Version, target: Option<nat>) {
    after == before || (target.Some? && before.status == Indexed && after == before.(status := Superseded, supersededBy := target))
  }

  lemma {:induction false} ReviewRowStep(store: Store, now: int, op: Op, i: nat)
    requires (op.OpDecide? || op.OpWithdraw?) && i < |store.versions|
    ensures var before, after := store.versions[i], Apply(store, now, op).versions[i];
            (Target(store, op) != Some(i) ==> Bystander(before, after, Target(store, op)))
            && (after.status != before.status ==> MayMove(before.status, after.status) && MovesInto(op, after.status))
  {
  }

  lemma {:induction false} LiveRowStep(store: Store, now: int, op: Op, i: nat)
    requires (op.OpPublish? || op.OpRollback?) && i < |store.versions|
    ensures var before, after := store.versions[i], Apply(store, now, op).versions[i];
            (Target(store, op) != Some(i) ==> Bystander(before, after, Target(store, op)))
            && (after.status != before.status ==> MayMove(before.status, after.status) && MovesInto(op, after.status))
  {
  }

  lemma {:induction false} NumberedRowStep(store: Store, now: int, op: Op, i: nat)
    requires op.OpFinalize? || op.OpMarkProcessing? || op.OpReset? || op.OpReindex? || op.OpFail?
    requires i < |store.versions|
    ensures var before, after := store.versions[i], Apply(store, now, op).versions[i];
            (Target(store, op) != Some(i) ==> Bystander(before, after, Target(store, op)))
            && (after.status != before.status ==> MayMove(before.status, after.status) && MovesInto(op, after.status))
  {
  }

  lemma {:induction false} ImportStep(store: Store, now: int, op: Op, i: nat)
    requires op.OpImport? && i < |store.versions|
    ensures var before, after := store.versions[i], Apply(store, now, op).versions[i];
            (Target(store, op) != Some(i) ==> after == before)
            && (after.status != before.status ==> after.status == Queued && !AlreadyHandled(before.status))
  {
  }

  /**
   * Every status change is one of the moves, made by an operation that may make it; rows the operation is not about
   * stay as they are, but for the live rows that the target supersedes.
   */
  lemma StepMoves(store: Store, now: int, op: Op, i: nat)
    requires i < |store.versions|
    ensures i < |Apply(store, now, op).versions|
    ensures var before, after := store.versions[i], Apply(store, now, op).versions[i];
            (Target(store, op) != Some(i) ==> Bystander(before, after, Target(store, op)))
            && (after.status != before.status ==> MayMove(before.status, after.status) && MovesInto(op, after.status))
  {
    StepEvolves(store, now, op);
    if op.OpImport? {
      ImportStep(store, now, op, i);
    } else if op.OpDecide? || op.OpWithdraw? {
      ReviewRowStep(store, now, op, i);
    } else if op.OpPublish? || op.OpRollback? {
      LiveRowStep(store, now, op, i);
    } else {
      NumberedRowStep(store, now, op, i);
    }
  }

  /** Indexing, retries and failures write the status and the indexing fields; who did what stays. */
  lemma WorkersLeaveGovernanceAlone(store: Store, now: int, op: Op, i: nat)
    requires op.OpMarkProcessing? || op.OpReset? || op.OpReindex? || op.OpFail? || (op.OpFinalize? && !op.publish)
    requires i < |store.versions|
    ensures var before, after := store.versions[i], Apply(store, now, op).versions[i];
            after.trail == before.trail && after.submittedBy == before.submittedBy && after.publishedAt == before.publishedAt
            && after.publishedBy == before.publishedBy && after.supersededBy == before.supersededBy
            && (after.status != before.status ==> after.status in {Queued, Processing, Staged, Failed})
  {
  }

  /** How an actor is written into a row: cut to 64 characters, and `system` for nobody. */
  predicate WrittenAs(text: string, actor: string) {
    if actor == "" then text == "system" else |text| <= 64 && text <= actor && (|actor| <= 64 ==> text == actor)
  }

  lemma RecordedIsWritten(actor: string)
    ensures WrittenAs(Recorded(actor), actor)
  {
  }

  ghost predicate WasApproved(v: Version) {
    exists r :: r in v.trail && r.action == Approve
  }

  /** Which operations on an existing row are accepted; the acceptance of a review is the subject of ReviewIsRecorded. */
  lemma AcceptedIff(versions: seq<Version>, now: int, op: Op)
    requires !op.OpImport? && !op.OpDecide?
    ensures ApplyVersions(versions, now, op).Ok? <==>
              match op
              case OpFinalize(id, _, _, _) => id < |versions| && versions[id].status in {Queued, Processing}
              case OpMarkProcessing(id) => id < |versions| && versions[id].status in {Queued, Processing}
              case OpReindex(id) => id < |versions| && versions[id].status !in {Rejected, Withdrawn}
              case OpPublish(d, n, _, override, _) =>
                var row := FindVersion(versions, d, n);
                row.Some? && versions[row.value].status == Staged && (WasApproved(versions[row.value]) || override)
              case OpWithdraw(d, n, _, reason) =>
                var row := FindVersion(versions, d, n);
                row.Some? && versions[row.value].status == Indexed && !IsBlank(reason)
              case OpRollback(d, n, _, reason) =>
                var row := FindVersion(versions, d, n);
                row.Some? && versions[row.value].status in {Superseded, Withdrawn} && !IsBlank(reason)
              case _ => true
  {
  }

  /** What indexing writes into its row: the chunk count it is given, and the status it leads to. */
  lemma FinalizeIsRecorded(versions: seq<Version>, id: nat, chunkCount: nat, publish: bool, actor: string, now: int)
    requires Finalize(versions, id, chunkCount, publish, actor, now).Ok?
    ensures var before, after := versions[id], Finalize(versions, id, chunkCount, publish, actor, now).value[id];
            after.chunkCount == chunkCount && after.indexedAt == Some(now) && after.errorCode == None
            && after.status == (if publish then Indexed else Staged)
            && (publish ==> after.publishedAt == Some(now) && WrittenAs(after.publishedBy, actor)
                            && after.withdrawnAt == None && after.withdrawnReason == ""
                            && |after.trail| == |before.trail| + 1 && after.trail[..|before.trail|] == before.trail
                            && after.trail[|before.trail|].action == Publish)
            && (!publish ==> after.trail == before.trail && after.publishedAt == before.publishedAt)
  {
  }

  /** What the other moves of a worker write. */
  lemma WorkerMovesAreRecorded(versions: seq<Version>, now: int, op: Op)
    requires op.OpMarkProcessing? || op.OpReset? || op.OpReindex? || op.OpFail?
    requires op.id < |versions| && ApplyVersions(versions, now, op).Ok?
    ensures var before, after := versions[op.id], ApplyVersions(versions, now, op).value[op.id];
            after.chunkCount == before.chunkCount && after.trail == before.trail
            && match op
               case OpMarkProcessing(_) => after == before.(status := Processing)
               case OpReset(_) =>
                 after == if before.status in {Processing, Failed} then before.(status := Queued, errorCode := None) else before
               case OpReindex(_) =>
                 after == before.(status := Queued, errorCode := None, indexedAt := None, withdrawnAt := None, withdrawnReason := "")
               case OpFail(_, code) =>
                 after == before.(status := Failed, errorCode := after.errorCode) && after.errorCode.Some?
                 && after.errorCode.value == if |code| > 64 then code[..64] else code
  {
  }

  /** What a publication, a withdrawal and a rollback write: status, date, name, reason and one row for the move. */
  lemma MoveIsRecorded(versions: seq<Version>, now: int, op: Op)
    requires op.OpPublish? || op.OpWithdraw? || op.OpRollback?
    requires ApplyVersions(versions, now, op).Ok?
    ensures var id := FindVersion(versions, op.documentId, op.number).value;
            var before, after := versions[id], ApplyVersions(versions, now, op).value[id];
            after.trail != [] && before.trail <= after.trail
            && var row := after.trail[|after.trail| - 1];
               WrittenAs(row.actor, op.actor) && row.toStatus == after.status
               && match op
                  case OpPublish(_, _, actor, _, gate) =>
                    after.status == Indexed && after.publishedAt == Some(now) && WrittenAs(after.publishedBy, actor)
                    && row.action == Publish && (row.isOverride <==> !WasApproved(before))
                    && |after.trail| == |before.trail| + (if gate then 2 else 1)
                    && (gate ==> after.trail[|before.trail|].action == OverrideGate)
                    && after.withdrawnAt == None && after.withdrawnReason == ""
                    && after.indexedAt == (if before.indexedAt == None then Some(now) else before.indexedAt)
                  case OpWithdraw(_, _, _, reason) =>
                    after.status == Withdrawn && after.withdrawnAt == Some(now) && row.action == Withdraw
                    && after.withdrawnReason == (if |Strip(reason)| > 512 then Strip(reason)[..512] else Strip(reason))
                    && |after.trail| == |before.trail| + 1
                  case _ =>
                    after.status == Indexed && after.publishedAt == Some(now) && after.withdrawnAt == None
                    && after.withdrawnReason == "" && after.supersededBy == None && row.action == Rollback && |after.trail| == |before.trail| + 1
  {
  }

  /** The operation puts row id live. */
  predicate PutsLive(op: Op, versions: seq<Version>, id: nat) {
    match op
    case OpFinalize(i, _, publish, _) => publish && i == id
    case OpPublish(d, n, _, _, _) => FindVersion(versions, d, n) == Some(id)
    case OpRollback(d, n, _, _) => FindVersion(versions, d, n) == Some(id)
    case _ => false
  }

  /** When a version goes live, the document's other live versions step down and point to it; no other row changes. */
  lemma OthersStepDown(versions: seq<Version>, now: int, op: Op, id: nat, k: nat)
    requires !op.OpImport? && PutsLive(op, versions, id) && ApplyVersions(versions, now, op).Ok?
    requires k < |versions| && k != id
    ensures id < |versions|
    ensures var after := ApplyVersions(versions, now, op).value;
            |after| == |versions|
            && after[k] == if versions[k].documentId == versions[id].documentId && versions[k].status == Indexed
                           then versions[k].(status := Superseded, supersededBy := Some(id)) else versions[k]
  {
  }

  /** With separation of duties, the named submitter reviews its own version. */
  predicate IsOwn(v: Version, actor: string, separation: bool) {
    separation && actor == v.submittedBy != ""
  }

  /** A review either is refused and changes nothing, or adds exactly one row to one staged version, which records it. */
  lemma ReviewIsRecorded(versions: seq<Version>, d: nat, n: nat, decision: Decision, actor: string, comment: string,
                         separation: bool, override: bool)
    ensures var row := FindVersion(versions, d, n);
            var result := Decide(versions, d, n, decision, actor, comment, separation, override);
            (result.Ok? <==>
               row.Some? && versions[row.value].status == Staged && decision != UnknownDecision
               && (decision == RejectIt ==> !IsBlank(comment))
               && (IsOwn(versions[row.value], actor, separation) ==> override))
            && (result.Ok? ==>
                  var before, after := versions[row.value], result.value[row.value];
                  after.trail[..|before.trail|] == before.trail && |after.trail| == |before.trail| + 1
                  && after.trail[|before.trail|] ==
                       Review(if decision == ApproveIt then Approve else Reject, Some(Staged),
                              if decision == ApproveIt then Staged else Rejected, Recorded(actor),
                              IsOwn(before, actor, separation), before.submittedBy))
  {
  }

  // ----- every move exists -----

  function RowIn(s: Status, number: nat, sha: string): Version {
    Version(0, number, sha, s, 0, None, "a", None, None, "", None, "", None, [])
  }

  /** Version 1 in the given status beside a staged version 2. */
  function Pair(s: Status): Store {
    Store([Document("k", PublicScope, Internal)], [RowIn(s, 1, "x"), RowIn(Staged, 2, "y")])
  }

  function MoveOp(s: Status, t: Status): Op {
    match t
    case Queued => if s == Rejected || s == Withdrawn then OpImport(Request("k", "x", None, None, "a")) else OpReindex(0)
    case Failed => OpFail(0, "parse_failed")
    case Processing => OpMarkProcessing(0)
    case Staged => OpFinalize(0, 1, false, "a")
    case Indexed =>
      if Indexable(s) then OpFinalize(0, 1, true, "a")
      else if s == Staged then OpPublish(0, 1, "a", true, false) else OpRollback(0, 1, "a", "reason")
    case Rejected => OpDecide(0, 1, RejectIt, "b", "reason", true, false)
    case Withdrawn => OpWithdraw(0, 1, "a", "reason")
    case Superseded => OpPublish(0, 2, "a", true, false)
  }

  /** The operation moves version 1. */
  ghost predicate Moved(s: Status, t: Status, now: int) {
    var after := Apply(Pair(s), now, MoveOp(s, t)).versions;
    after != [] && after[0].status == t
  }

  lemma FindsPair(s: Status)
    ensures FindVersion(Pair(s).versions, 0, 1) == Some(0) && FindVersion(Pair(s).versions, 0, 2) == Some(1)
    ensures FindContent(Pair(s).versions, 0, "x") == Some(0) && FindDocument(Pair(s).documents, Cut("k", KEY_LIMIT)) == Some(0)
  {
    var versions := Pair(s).versions;
    assert versions[0].number != 2 && versions[1].number == 2;
  }

  lemma NumberedMoveExists(s: Status, t: Status, now: int)
    requires MayMove(s, t)
    requires t == Failed || t == Processing || t == Staged || (t == Indexed && Indexable(s)) || (t == Queued && s !in {Rejected, Withdrawn})
    ensures Moved(s, t, now)
  {
  }

  lemma ReviewMoveExists(s: Status, t: Status, now: int)
    requires MayMove(s, t) && (t == Rejected || t == Withdrawn)
    ensures Moved(s, t, now)
  {
    FindsPair(s);
    assert "reason"[0] == 'r' && !IsSpace('r');
  }

  lemma LiveMoveExists(s: Status, t: Status, now: int)
    requires MayMove(s, t) && (t == Superseded || (t == Indexed && !Indexable(s)))
    ensures Moved(s, t, now)
  {
    FindsPair(s);
    assert "reason"[0] == 'r' && !IsSpace('r');
  }

  lemma ReopeningExists(s: Status, now: int)
    requires s == Rejected || s == Withdrawn
    ensures Moved(s, Queued, now)
  {
    FindsPair(s);
  }

  /** The table has no idle entry: for each move there is an operation that makes it. */
  lemma EveryMoveExists(s: Status, t: Status, now: int)
    requires MayMove(s, t)
    ensures Moved(s, t, now)
  {
    if t == Rejected || t == Withdrawn {
      ReviewMoveExists(s, t, now);
    } else if t == Superseded || (t == Indexed && !Indexable(s)) {
      LiveMoveExists(s, t, now);
    } else if t == Queued && (s == Rejected || s == Withdrawn) {
      ReopeningExists(s, now);
    } else {
      NumberedMoveExists(s, t, now);
    }
  }
}
