/** What every operation on document versions keeps, and what therefore holds over every run. */
module GovernanceSafety {
  import opened Text
  import opened Governance

  // ----- the invariant -----

  ghost predicate LastRow(v: Version, action: Option<Action>, toStatus: Status) {
    v.trail != [] && v.trail[|v.trail| - 1].toStatus == toStatus
    && (action.Some? ==> v.trail[|v.trail| - 1].action == action.value)
  }

  /** The trail explains the status. */
  ghost predicate TrailExplains(v: Version) {
    match v.status
    case Indexed => LastRow(v, None, Indexed)
    case Superseded => LastRow(v, None, Indexed)
    case Withdrawn => LastRow(v, Some(Withdraw), Withdrawn)
    case Rejected => LastRow(v, Some(Reject), Rejected)
    case _ => true
  }

  ghost predicate EverLive(s: Status) {
    s == Indexed || s == Superseded || s == Withdrawn
  }

  ghost predicate VersionOk(versions: seq<Version>, i: nat)
    requires i < |versions|
  {
    var v := versions[i];
    TrailExplains(v)
    && (EverLive(v.status) ==> v.indexedAt.Some? && v.publishedAt.Some?)
    && (v.status == Superseded ==>
          v.supersededBy.Some? && v.supersededBy.value < |versions| && v.supersededBy.value != i
          && versions[v.supersededBy.value].documentId == v.documentId
          && versions[v.supersededBy.value].publishedAt.Some?)
  }

  ghost predicate OneLivePerDocument(versions: seq<Version>) {
    forall i, j | 0 <= i < j < |versions| && versions[i].status == Indexed && versions[j].status == Indexed ::
      versions[i].documentId != versions[j].documentId
  }

  ghost predicate Governed(versions: seq<Version>) {
    OneLivePerDocument(versions) && forall i | 0 <= i < |versions| :: VersionOk(versions, i)
  }

  // ----- two ways rows change -----

  /** Changing one row to something that is not live. */
  lemma UpdateKeeps(versions: seq<Version>, id: nat, v: Version)
    requires Governed(versions) && id < |versions|
    requires v.documentId == versions[id].documentId && v.status != Indexed
    requires versions[id].publishedAt.Some? ==> v.publishedAt.Some?
    requires VersionOk(versions[id := v], id)
    ensures Governed(versions[id := v])
  {
    var after := versions[id := v];
    forall i | 0 <= i < |after| ensures VersionOk(after, i) {
      assert VersionOk(versions, i);
    }
  }

  /** Putting one row live and superseding the document's other live rows. */
  lemma GoLiveKeeps(versions: seq<Version>, id: nat, live: Version)
    requires Governed(versions) && id < |versions|
    requires live.documentId == versions[id].documentId && live.status == Indexed
    requires live.indexedAt.Some? && live.publishedAt.Some? && LastRow(live, None, Indexed)
    ensures Governed(GoLive(versions, id, live))
  {
    var after := GoLive(versions, id, live);
    forall i | 0 <= i < |after| ensures VersionOk(after, i) {
      assert VersionOk(versions, i);
      assert i != id ==> after[i] == SupersedeOne(versions[i], i, live.documentId, id);
      var w := versions[i].supersededBy;
      assert w.Some? && w.value < |versions| && w.value != id ==>
        after[w.value] == SupersedeOne(versions[w.value], w.value, live.documentId, id);
    }
    forall i, j | 0 <= i < j < |after| && after[i].status == Indexed && after[j].status == Indexed
      ensures after[i].documentId != after[j].documentId
    {
      assert i != id ==> after[i] == SupersedeOne(versions[i], i, live.documentId, id);
      assert j != id ==> after[j] == SupersedeOne(versions[j], j, live.documentId, id);
    }
  }

  lemma AppendKeeps(versions: seq<Version>, v: Version)
    requires Governed(versions) && v.status == Queued
    ensures Governed(versions + [v])
  {
    var after := versions + [v];
    forall i | 0 <= i < |after| ensures VersionOk(after, i) {
      if i < |versions| {
        assert VersionOk(versions, i);
      }
    }
  }

  // ----- every operation -----

  lemma ImportKeeps(versions: seq<Version>, documentId: nat, req: Request)
    requires Governed(versions)
    ensures Governed(ImportVersion(versions, documentId, req).0)
  {
    match FindContent(versions, documentId, req.sha)
    case Some(id) =>
      var after := ImportVersion(versions, documentId, req).0;
      if after != versions {
        UpdateKeeps(versions, id, after[id]);
      }
    case None =>
      AppendKeeps(versions, ImportVersion(versions, documentId, req).0[|versions|]);
  }

  lemma SimpleOpKeeps(versions: seq<Version>, now: int, op: Op)
    requires Governed(versions)
    requires op.OpMarkProcessing? || op.OpReset? || op.OpReindex? || op.OpFail?
    requires ApplyVersions(versions, now, op).Ok?
    ensures Governed(ApplyVersions(versions, now, op).value)
  {
    var after := ApplyVersions(versions, now, op).value;
    if op.id < |versions| && after != versions {
      UpdateKeeps(versions, op.id, after[op.id]);
    }
  }

  lemma FinalizeKeeps(versions: seq<Version>, id: nat, chunkCount: nat, publish: bool, actor: string, now: int)
    requires Governed(versions) && Finalize(versions, id, chunkCount, publish, actor, now).Ok?
    ensures Governed(Finalize(versions, id, chunkCount, publish, actor, now).value)
  {
    var after := Finalize(versions, id, chunkCount, publish, actor, now).value;
    if publish {
      GoLiveKeeps(versions, id, after[id]);
    } else {
      UpdateKeeps(versions, id, after[id]);
    }
  }

  lemma DecideKeeps(versions: seq<Version>, d: nat, n: nat, decision: Decision, actor: string, comment: string,
                    separation: bool, override: bool)
    requires Governed(versions) && Decide(versions, d, n, decision, actor, comment, separation, override).Ok?
    ensures Governed(Decide(versions, d, n, decision, actor, comment, separation, override).value)
  {
    var id := FindVersion(versions, d, n).value;
    var after := Decide(versions, d, n, decision, actor, comment, separation, override).value;
    UpdateKeeps(versions, id, after[id]);
  }

  lemma PublishKeeps(versions: seq<Version>, d: nat, n: nat, actor: string, override: bool, gate: bool, now: int)
    requires Governed(versions) && PublishStaged(versions, d, n, actor, override, gate, now).Ok?
    ensures Governed(PublishStaged(versions, d, n, actor, override, gate, now).value)
  {
    var id := FindVersion(versions, d, n).value;
    var after := PublishStaged(versions, d, n, actor, override, gate, now).value;
    GoLiveKeeps(versions, id, after[id]);
  }

  lemma TakeDownKeeps(versions: seq<Version>, d: nat, n: nat, actor: string, reason: string, now: int)
    requires Governed(versions) && TakeDown(versions, d, n, actor, reason, now).Ok?
    ensures Governed(TakeDown(versions, d, n, actor, reason, now).value)
  {
    var id := FindVersion(versions, d, n).value;
    var after := TakeDown(versions, d, n, actor, reason, now).value;
    assert VersionOk(versions, id);
    UpdateKeeps(versions, id, after[id]);
  }

  lemma RollBackKeeps(versions: seq<Version>, d: nat, n: nat, actor: string, reason: string, now: int)
    requires Governed(versions) && RollBackTo(versions, d, n, actor, reason, now).Ok?
    ensures Governed(RollBackTo(versions, d, n, actor, reason, now).value)
  {
    var id := FindVersion(versions, d, n).value;
    var after := RollBackTo(versions, d, n, actor, reason, now).value;
    assert VersionOk(versions, id);
    GoLiveKeeps(versions, id, after[id]);
  }

  lemma StepKeepsGoverned(store: Store, now: int, op: Op)
    requires Governed(store.versions)
    ensures Governed(Apply(store, now, op).versions)
  {
    if op.OpImport? {
      if ImportDocument(store.documents, op.req).Ok? {
        ImportKeeps(store.versions, ImportDocument(store.documents, op.req).value.1, op.req);
      }
    } else if ApplyVersions(store.versions, now, op).Ok? {
      match op
      case OpFinalize(id, n, publish, actor) => FinalizeKeeps(store.versions, id, n, publish, actor, now);
      case OpDecide(d, n, decision, actor, comment, separation, override) =>
        DecideKeeps(store.versions, d, n, decision, actor, comment, separation, override);
      case OpPublish(d, n, actor, override, gate) => PublishKeeps(store.versions, d, n, actor, override, gate, now);
      case OpWithdraw(d, n, actor, reason) => TakeDownKeeps(store.versions, d, n, actor, reason, now);
      case OpRollback(d, n, actor, reason) => RollBackKeeps(store.versions, d, n, actor, reason, now);
      case _ => SimpleOpKeeps(store.versions, now, op);
    }
  }

  /**
   * Over every sequence of operations: at most one live version per document; the last trail row says
   * why a version is live, superseded, withdrawn or rejected; whoever superseded a version is another,
   * once published, version of the same document; and whatever was ever live has its dates.
   */
  lemma {:induction false} RunsStayGoverned(store: Store, events: seq<Event>)
    requires Governed(store.versions)
    ensures Governed(Run(store, events).versions)
    decreases |events|
  {
    if events != [] {
      StepKeepsGoverned(store, events[0].now, events[0].op);
      RunsStayGoverned(Apply(store, events[0].now, events[0].op), events[1..]);
    }
  }

  // ----- history only grows, and a version goes live only by a recorded decision -----

  ghost predicate Grows(before: seq<Review>, after: seq<Review>) {
    |before| <= |after| && after[..|before|] == before
  }

  /** The one way into `Indexed`: the newest row is a publish or a rollback out of the status it was in. */
  ghost predicate RecordedGoLive(before: Version, after: Version) {
    |after.trail| > |before.trail|
    && var last := after.trail[|after.trail| - 1];
       last.toStatus == Indexed && last.fromStatus == Some(before.status) && last.submitterThen == before.submittedBy
       && after.publishedBy == last.actor
       && match last.action
          case Publish => before.status == Staged || Indexable(before.status)
          case Rollback => before.status == Superseded || before.status == Withdrawn
          case _ => false
  }

  /** What any step may do to a row that exists before it. */
  ghost predicate Evolves(before: Version, after: Version) {
    before.documentId == after.documentId && before.number == after.number && before.sha == after.sha
    && Grows(before.trail, after.trail)
    && (before.publishedAt.Some? ==> after.publishedAt.Some?)
    && (after.status == Indexed && before.status != Indexed ==> RecordedGoLive(before, after))
    && (after.status == Superseded && before.status != Superseded ==> before.status == Indexed && after.trail == before.trail)
    && (after.status == Staged && before.status != Staged ==> Indexable(before.status))
    && (before.status == Rejected && after.status != Rejected ==> after.status == Queued || after.status == Failed)
  }

  ghost predicate AllEvolve(before: seq<Version>, after: seq<Version>) {
    |before| <= |after| && forall i | 0 <= i < |before| :: Evolves(before[i], after[i])
  }

  lemma GoLiveEvolves(versions: seq<Version>, id: nat, live: Version)
    requires id < |versions| && Evolves(versions[id], live)
    ensures AllEvolve(versions, GoLive(versions, id, live))
  {
  }

  lemma EvolvesRefl(versions: seq<Version>)
    ensures AllEvolve(versions, versions)
  {
  }

  lemma UpdateEvolves(versions: seq<Version>, id: nat, v: Version)
    requires id < |versions| && Evolves(versions[id], v)
    ensures AllEvolve(versions, versions[id := v])
  {
  }

  lemma FinalizeEvolves(versions: seq<Version>, id: nat, chunkCount: nat, publish: bool, actor: string, now: int)
    requires Finalize(versions, id, chunkCount, publish, actor, now).Ok?
    ensures AllEvolve(versions, Finalize(versions, id, chunkCount, publish, actor, now).value)
  {
  }

  lemma PublishEvolves(versions: seq<Version>, d: nat, n: nat, actor: string, override: bool, gate: bool, now: int)
    requires PublishStaged(versions, d, n, actor, override, gate, now).Ok?
    ensures AllEvolve(versions, PublishStaged(versions, d, n, actor, override, gate, now).value)
  {
    var id := FindVersion(versions, d, n).value;
    var after := PublishStaged(versions, d, n, actor, override, gate, now).value;
    assert Evolves(versions[id], after[id]);
    GoLiveEvolves(versions, id, after[id]);
  }

  lemma DecisionEvolves(versions: seq<Version>, now: int, op: Op)
    requires op.OpDecide? || op.OpWithdraw? || op.OpRollback?
    requires ApplyVersions(versions, now, op).Ok?
    ensures AllEvolve(versions, ApplyVersions(versions, now, op).value)
  {
    var id := FindVersion(versions, op.documentId, op.number).value;
    var after := ApplyVersions(versions, now, op).value;
    if op.OpRollback? {
      GoLiveEvolves(versions, id, after[id]);
    } else {
      UpdateEvolves(versions, id, after[id]);
    }
  }

  lemma SimpleOpEvolves(versions: seq<Version>, now: int, op: Op)
    requires op.OpMarkProcessing? || op.OpReset? || op.OpReindex? || op.OpFail?
    requires ApplyVersions(versions, now, op).Ok?
    ensures AllEvolve(versions, ApplyVersions(versions, now, op).value)
  {
  }

  lemma ImportEvolves(versions: seq<Version>, documentId: nat, req: Request)
    ensures AllEvolve(versions, ImportVersion(versions, documentId, req).0)
  {
  }

  /**
   * Rows are never renumbered and never lose trail rows or publication dates; a version becomes live
   * only with a publish or rollback row for exactly that transition, is superseded only from live, and
   * leaves `rejected` only back to the queue or into failure.
   */
  lemma StepEvolves(store: Store, now: int, op: Op)
    ensures AllEvolve(store.versions, Apply(store, now, op).versions)
  {
    var versions := store.versions;
    EvolvesRefl(versions);
    if op.OpImport? {
      if ImportDocument(store.documents, op.req).Ok? {
        ImportEvolves(versions, ImportDocument(store.documents, op.req).value.1, op.req);
      }
    } else if ApplyVersions(versions, now, op).Ok? {
      if op.OpFinalize? {
        FinalizeEvolves(versions, op.id, op.chunkCount, op.publish, op.actor, now);
      } else if op.OpPublish? {
        PublishEvolves(versions, op.documentId, op.number, op.actor, op.allowOverride, op.gateOverride, now);
      } else if op.OpDecide? || op.OpWithdraw? || op.OpRollback? {
        DecisionEvolves(versions, now, op);
      } else {
        SimpleOpEvolves(versions, now, op);
      }
    }
  }

  // ----- approvals -----

  /** A row that vouches for a version: an approval by somebody else, a flagged self-approval, or a flagged publication. */
  ghost predicate Vouches(r: Review) {
    (r.action == Publish && r.isOverride) || (r.action == Approve && (r.isOverride || r.actor != r.submitterThen))
  }

  ghost predicate Vouched(trail: seq<Review>) {
    exists r :: r in trail && Vouches(r)
  }

  /** A publication straight out of indexing, as direct mode does it. */
  ghost predicate IsDirect(r: Review) {
    r.action == Publish && r.fromStatus.Some? && Indexable(r.fromStatus.value)
  }

  ghost predicate DirectlyPublished(trail: seq<Review>) {
    exists r :: r in trail && IsDirect(r)
  }

  ghost predicate Accountable(v: Version) {
    (forall r | r in v.trail && r.action == Approve :: Vouches(r))
    && (v.publishedAt.Some? ==> Vouched(v.trail) || DirectlyPublished(v.trail))
  }

  /** Reviews are taken with separation of duties on, by named actors whose ids fit the column. */
  ghost predicate Separated(op: Op) {
    op.OpDecide? ==> op.separation && op.actor != "" && |op.actor| <= ID_LIMIT
  }

  /** Governance mode `review`: indexing never publishes. */
  ghost predicate ReviewMode(op: Op) {
    !(op.OpFinalize? && op.publish)
  }

  ghost predicate AllAccountable(versions: seq<Version>) {
    forall i | 0 <= i < |versions| :: Accountable(versions[i])
  }

  lemma SameTrailAccountable(before: Version, after: Version)
    requires Accountable(before) && after.trail == before.trail
    requires after.publishedAt.Some? ==> before.publishedAt.Some?
    ensures Accountable(after)
  {
  }

  /** Adding a row that is not a dishonest approval, published before or vouched for now. */
  lemma NewRowAccountable(before: Version, after: Version, r: Review)
    requires Accountable(before) && after.trail == before.trail + [r]
    requires r.action == Approve ==> Vouches(r)
    requires after.publishedAt.Some? ==> before.publishedAt.Some? || Vouches(r) || IsDirect(r) || HasApproval(before.trail)
    ensures Accountable(after)
  {
  }

  lemma GoLiveAccountable(versions: seq<Version>, id: nat, live: Version)
    requires AllAccountable(versions) && id < |versions| && Accountable(live)
    ensures AllAccountable(GoLive(versions, id, live))
  {
  }

  lemma PublishAccountable(versions: seq<Version>, d: nat, n: nat, actor: string, override: bool, gate: bool, now: int)
    requires AllAccountable(versions) && PublishStaged(versions, d, n, actor, override, gate, now).Ok?
    ensures AllAccountable(PublishStaged(versions, d, n, actor, override, gate, now).value)
  {
    var id := FindVersion(versions, d, n).value;
    var v := versions[id];
    var live := PublishStaged(versions, d, n, actor, override, gate, now).value[id];
    var bypassed := v;
    if gate {
      bypassed := v.(trail := WithRow(v, OverrideGate, Staged, actor, true));
      NewRowAccountable(v, bypassed, bypassed.trail[|v.trail|]);
      assert HasApproval(v.trail) ==> HasApproval(bypassed.trail);
    }
    NewRowAccountable(bypassed, live, live.trail[|bypassed.trail|]);
    GoLiveAccountable(versions, id, live);
  }

  lemma RollBackAccountable(versions: seq<Version>, d: nat, n: nat, actor: string, reason: string, now: int)
    requires Governed(versions) && AllAccountable(versions) && RollBackTo(versions, d, n, actor, reason, now).Ok?
    ensures AllAccountable(RollBackTo(versions, d, n, actor, reason, now).value)
  {
    var id := FindVersion(versions, d, n).value;
    var live := RollBackTo(versions, d, n, actor, reason, now).value[id];
    assert VersionOk(versions, id);
    NewRowAccountable(versions[id], live, live.trail[|versions[id].trail|]);
    GoLiveAccountable(versions, id, live);
  }

  lemma FinalizeAccountable(versions: seq<Version>, id: nat, chunkCount: nat, publish: bool, actor: string, now: int)
    requires AllAccountable(versions) && Finalize(versions, id, chunkCount, publish, actor, now).Ok?
    ensures AllAccountable(Finalize(versions, id, chunkCount, publish, actor, now).value)
  {
    var after := Finalize(versions, id, chunkCount, publish, actor, now).value;
    if publish {
      NewRowAccountable(versions[id], after[id], after[id].trail[|versions[id].trail|]);
      GoLiveAccountable(versions, id, after[id]);
    } else {
      SameTrailAccountable(versions[id], after[id]);
    }
  }

  lemma DecideAccountable(versions: seq<Version>, op: Op)
    requires op.OpDecide? && Separated(op) && AllAccountable(versions) && ApplyVersions(versions, 0, op).Ok?
    ensures AllAccountable(ApplyVersions(versions, 0, op).value)
  {
    var id := FindVersion(versions, op.documentId, op.number).value;
    var after := ApplyVersions(versions, 0, op).value;
    NewRowAccountable(versions[id], after[id], after[id].trail[|versions[id].trail|]);
  }

  lemma ImportAccountable(versions: seq<Version>, documentId: nat, req: Request)
    requires AllAccountable(versions)
    ensures AllAccountable(ImportVersion(versions, documentId, req).0)
  {
  }

  lemma TakeDownAccountable(versions: seq<Version>, d: nat, n: nat, actor: string, reason: string, now: int)
    requires Governed(versions) && AllAccountable(versions) && TakeDown(versions, d, n, actor, reason, now).Ok?
    ensures AllAccountable(TakeDown(versions, d, n, actor, reason, now).value)
  {
  }

  lemma SimpleOpAccountable(versions: seq<Version>, now: int, op: Op)
    requires op.OpMarkProcessing? || op.OpReset? || op.OpReindex? || op.OpFail?
    requires AllAccountable(versions) && ApplyVersions(versions, now, op).Ok?
    ensures AllAccountable(ApplyVersions(versions, now, op).value)
  {
  }

  lemma StepKeepsAccountable(store: Store, now: int, op: Op)
    requires Governed(store.versions) && AllAccountable(store.versions) && Separated(op)
    ensures AllAccountable(Apply(store, now, op).versions)
  {
    var versions := store.versions;
    if op.OpImport? {
      if ImportDocument(store.documents, op.req).Ok? {
        ImportAccountable(versions, ImportDocument(store.documents, op.req).value.1, op.req);
      }
    } else if ApplyVersions(versions, now, op).Ok? {
      match op
      case OpFinalize(id, n, publish, actor) => FinalizeAccountable(versions, id, n, publish, actor, now);
      case OpDecide(d, n, _, _, _, _, _) => DecideAccountable(versions, op);
      case OpPublish(d, n, actor, override, gate) => PublishAccountable(versions, d, n, actor, override, gate, now);
      case OpRollback(d, n, actor, reason) => RollBackAccountable(versions, d, n, actor, reason, now);
      case OpWithdraw(d, n, actor, reason) => TakeDownAccountable(versions, d, n, actor, reason, now);
      case _ => SimpleOpAccountable(versions, now, op);
    }
  }

  /**
   * Approval safety over whole runs. With separation of duties on, every version that was ever
   * published, by whatever route, has in its trail an approval by someone other than its submitter at
   * that moment, an override row, or a direct-mode publication.
   */
  lemma {:induction false} PublishedMeansAccountable(store: Store, events: seq<Event>)
    requires Governed(store.versions) && AllAccountable(store.versions)
    requires forall e | e in events :: Separated(e.op)
    ensures AllAccountable(Run(store, events).versions)
    decreases |events|
  {
    if events != [] {
      assert Separated(events[0].op);
      StepKeepsGoverned(store, events[0].now, events[0].op);
      StepKeepsAccountable(store, events[0].now, events[0].op);
      PublishedMeansAccountable(Apply(store, events[0].now, events[0].op), events[1..]);
    }
  }

  ghost predicate NoneDirect(versions: seq<Version>) {
    forall i | 0 <= i < |versions| :: NoDirectRow(versions[i].trail)
  }

  ghost predicate NoDirectRow(trail: seq<Review>) {
    forall r | r in trail :: !IsDirect(r)
  }

  lemma GoLiveNoneDirect(versions: seq<Version>, id: nat, live: Version)
    requires NoneDirect(versions) && id < |versions| && NoDirectRow(live.trail)
    ensures NoneDirect(GoLive(versions, id, live))
  {
  }

  lemma ReleaseNoneDirect(versions: seq<Version>, now: int, op: Op)
    requires op.OpRollback? || op.OpPublish?
    requires NoneDirect(versions) && ApplyVersions(versions, now, op).Ok?
    ensures NoneDirect(ApplyVersions(versions, now, op).value)
  {
    var id := FindVersion(versions, op.documentId, op.number).value;
    assert NoDirectRow(versions[id].trail);
    GoLiveNoneDirect(versions, id, ApplyVersions(versions, now, op).value[id]);
  }

  lemma DecisionNoneDirect(versions: seq<Version>, now: int, op: Op)
    requires op.OpDecide? || op.OpWithdraw?
    requires NoneDirect(versions) && ApplyVersions(versions, now, op).Ok?
    ensures NoneDirect(ApplyVersions(versions, now, op).value)
  {
  }

  lemma SimpleOpNoneDirect(versions: seq<Version>, now: int, op: Op)
    requires op.OpMarkProcessing? || op.OpReset? || op.OpReindex? || op.OpFail? || (op.OpFinalize? && !op.publish)
    requires NoneDirect(versions) && ApplyVersions(versions, now, op).Ok?
    ensures NoneDirect(ApplyVersions(versions, now, op).value)
  {
  }

  lemma StepKeepsNoneDirect(store: Store, now: int, op: Op)
    requires NoneDirect(store.versions) && ReviewMode(op)
    ensures NoneDirect(Apply(store, now, op).versions)
  {
    var versions := store.versions;
    if op.OpImport? {
      if ImportDocument(store.documents, op.req).Ok? {
        ImportNoneDirect(versions, ImportDocument(store.documents, op.req).value.1, op.req);
      }
    } else if ApplyVersions(versions, now, op).Ok? {
      if op.OpDecide? || op.OpWithdraw? {
        DecisionNoneDirect(versions, now, op);
      } else if op.OpRollback? || op.OpPublish? {
        ReleaseNoneDirect(versions, now, op);
      } else {
        SimpleOpNoneDirect(versions, now, op);
      }
    }
  }

  lemma ImportNoneDirect(versions: seq<Version>, documentId: nat, req: Request)
    requires NoneDirect(versions)
    ensures NoneDirect(ImportVersion(versions, documentId, req).0)
  {
  }

  lemma {:induction false} RunsKeepNoneDirect(store: Store, events: seq<Event>)
    requires NoneDirect(store.versions) && forall e | e in events :: ReviewMode(e.op)
    ensures NoneDirect(Run(store, events).versions)
    decreases |events|
  {
    if events != [] {
      assert ReviewMode(events[0].op);
      StepKeepsNoneDirect(store, events[0].now, events[0].op);
      RunsKeepNoneDirect(Apply(store, events[0].now, events[0].op), events[1..]);
    }
  }

  const EMPTY := Store([], [])

  /** In review mode nothing is ever live without such an approval or an override row. */
  lemma ReviewModeIsSafe(events: seq<Event>, i: nat)
    requires forall e | e in events :: Separated(e.op) && ReviewMode(e.op)
    requires i < |Run(EMPTY, events).versions| && EverLive(Run(EMPTY, events).versions[i].status)
    ensures Vouched(Run(EMPTY, events).versions[i].trail)
  {
    RunsStayGoverned(EMPTY, events);
    PublishedMeansAccountable(EMPTY, events);
    RunsKeepNoneDirect(EMPTY, events);
    var v := Run(EMPTY, events).versions[i];
    assert VersionOk(Run(EMPTY, events).versions, i) && Accountable(v);
    assert NoDirectRow(v.trail);
  }

  /**
   * Why ids must fit the column, as all in use do (a digest of 64 characters, or `cli`): the comparison uses
   * the whole id, the rows store 64 characters. An unflagged approval records the submitter's own id exactly
   * when the id is longer than that and agrees with the stored one.
   */
  lemma SeparationComparesWholeIds(versions: seq<Version>, d: nat, n: nat, actor: string, comment: string,
        allowOverride: bool)
    requires actor != "" && Decide(versions, d, n, ApproveIt, actor, comment, true, allowOverride).Ok?
    ensures var id := FindVersion(versions, d, n).value;
            var trail := Decide(versions, d, n, ApproveIt, actor, comment, true, allowOverride).value[id].trail;
            var row := trail[|trail| - 1];
            !row.isOverride ==>
              (row.actor == row.submitterThen <==> |actor| > ID_LIMIT && versions[id].submittedBy == actor[..ID_LIMIT])
  {
  }

  // ----- what an approval and a link are worth later -----

  /** Approvals never expire: whatever happens, a row once approved counts as approved ever after. */
  lemma {:induction false} ApprovalsNeverExpire(store: Store, events: seq<Event>, i: nat)
    requires i < |store.versions| && HasApproval(store.versions[i].trail)
    ensures i < |Run(store, events).versions| && HasApproval(Run(store, events).versions[i].trail)
    decreases |events|
  {
    if events != [] {
      var next := Apply(store, events[0].now, events[0].op);
      StepEvolves(store, events[0].now, events[0].op);
      var before, after := store.versions[i].trail, next.versions[i].trail;
      assert Evolves(store.versions[i], next.versions[i]);
      var r :| r in before && r.action == Approve;
      var k :| 0 <= k < |before| && before[k] == r;
      assert after[..|before|][k] == r && after[k] == r;
      ApprovalsNeverExpire(next, events[1..], i);
    }
  }

  /** The operation approves row i. */
  ghost predicate Approves(versions: seq<Version>, op: Op, i: nat) {
    op.OpDecide? && op.decision == ApproveIt && FindVersion(versions, op.documentId, op.number) == Some(i)
  }

  ghost predicate NoApprovalOf(store: Store, events: seq<Event>, i: nat)
    decreases |events|
  {
    events == []
    || (!Approves(store.versions, events[0].op, i) && NoApprovalOf(Apply(store, events[0].now, events[0].op), events[1..], i))
  }

  /** The trail holds an approval after exactly if it did before. */
  ghost predicate AddsNoApproval(before: Version, after: Version) {
    HasApproval(after.trail) <==> HasApproval(before.trail)
  }

  lemma AddedRow(trail: seq<Review>, r: Review)
    requires r.action != Approve
    ensures HasApproval(trail + [r]) <==> HasApproval(trail)
  {
    if a :| a in trail && a.action == Approve {
      assert a in trail + [r];
    }
  }

  lemma GoLiveAddsNone(versions: seq<Version>, id: nat, live: Version, i: nat)
    requires id < |versions| && i < |versions| && AddsNoApproval(versions[id], live)
    ensures AddsNoApproval(versions[i], GoLive(versions, id, live)[i])
  {
  }

  lemma PublishAddsNone(versions: seq<Version>, now: int, op: Op, i: nat)
    requires op.OpPublish? && ApplyVersions(versions, now, op).Ok? && i < |versions|
    ensures AddsNoApproval(versions[i], ApplyVersions(versions, now, op).value[i])
  {
    var id := FindVersion(versions, op.documentId, op.number).value;
    var v, after := versions[id], ApplyVersions(versions, now, op).value;
    var bypassed := if op.gateOverride then v.(trail := WithRow(v, OverrideGate, Staged, op.actor, true)) else v;
    AddedRow(v.trail, Review(OverrideGate, Some(v.status), Staged, Recorded(op.actor), true, v.submittedBy));
    AddedRow(bypassed.trail, after[id].trail[|bypassed.trail|]);
    GoLiveAddsNone(versions, id, after[id], i);
  }

  lemma OneRowAddsNone(versions: seq<Version>, now: int, op: Op, i: nat)
    requires (op.OpDecide? && !Approves(versions, op, i)) || op.OpWithdraw? || op.OpRollback?
    requires ApplyVersions(versions, now, op).Ok? && i < |versions|
    ensures AddsNoApproval(versions[i], ApplyVersions(versions, now, op).value[i])
  {
    var id := FindVersion(versions, op.documentId, op.number).value;
    var v, after := versions[id], ApplyVersions(versions, now, op).value;
    var r := after[id].trail[|v.trail|];
    assert after[id].trail == v.trail + [r];
    if r.action != Approve {
      AddedRow(v.trail, r);
    }
    if op.OpRollback? {
      GoLiveAddsNone(versions, id, after[id], i);
    }
  }

  lemma FinalizeAddsNone(versions: seq<Version>, now: int, op: Op, i: nat)
    requires op.OpFinalize? && ApplyVersions(versions, now, op).Ok? && i < |versions|
    ensures AddsNoApproval(versions[i], ApplyVersions(versions, now, op).value[i])
  {
    var v, after := versions[op.id], ApplyVersions(versions, now, op).value;
    if op.publish {
      AddedRow(v.trail, after[op.id].trail[|v.trail|]);
      GoLiveAddsNone(versions, op.id, after[op.id], i);
    }
  }

  lemma ImportAddsNone(versions: seq<Version>, documentId: nat, req: Request, i: nat)
    requires i < |versions|
    ensures AddsNoApproval(versions[i], ImportVersion(versions, documentId, req).0[i])
  {
    var after := ImportVersion(versions, documentId, req).0;
    if |after[i].trail| > |versions[i].trail| {
      AddedRow(versions[i].trail, after[i].trail[|versions[i].trail|]);
    }
  }

  lemma StepAddsNone(store: Store, now: int, op: Op, i: nat)
    requires i < |store.versions| && !Approves(store.versions, op, i)
    ensures i < |Apply(store, now, op).versions| && AddsNoApproval(store.versions[i], Apply(store, now, op).versions[i])
  {
    StepEvolves(store, now, op);
    if op.OpImport? {
      if ImportDocument(store.documents, op.req).Ok? {
        ImportAddsNone(store.versions, ImportDocument(store.documents, op.req).value.1, op.req, i);
      }
    } else if ApplyVersions(store.versions, now, op).Ok? {
      if op.OpPublish? {
        PublishAddsNone(store.versions, now, op, i);
      } else if op.OpFinalize? {
        FinalizeAddsNone(store.versions, now, op, i);
      } else if op.OpDecide? || op.OpWithdraw? || op.OpRollback? {
        OneRowAddsNone(store.versions, now, op, i);
      }
    }
  }

  lemma {:induction false} RunAddsNone(store: Store, events: seq<Event>, i: nat)
    requires i < |store.versions| && NoApprovalOf(store, events, i)
    ensures i < |Run(store, events).versions|
    ensures AddsNoApproval(store.versions[i], Run(store, events).versions[i])
    decreases |events|
  {
    if events != [] {
      StepAddsNone(store, events[0].now, events[0].op, i);
      RunAddsNone(Apply(store, events[0].now, events[0].op), events[1..], i);
    }
  }

  /**
   * A row re-opened by an import and then not approved again is published without an override, once it is staged,
   * exactly when its trail held an approval at the re-opening: the check counts approvals of the life before.
   */
  lemma ReopenedPublishesIff(store: Store, req: Request, events: seq<Event>, i: nat, d: nat, n: nat, actor: string, now: int)
    requires i < |store.versions| && store.versions[i].status in {Rejected, Withdrawn, Superseded, Failed}
    requires var reopened := Apply(store, now, OpImport(req));
             i < |reopened.versions| && reopened.versions[i].status == Queued && NoApprovalOf(reopened, events, i)
    requires var later := Run(Apply(store, now, OpImport(req)), events).versions;
             FindVersion(later, d, n) == Some(i) && later[i].status == Staged
    ensures var later := Run(Apply(store, now, OpImport(req)), events).versions;
            PublishStaged(later, d, n, actor, false, false, now).Ok? <==> HasApproval(store.versions[i].trail)
  {
    StepAddsNone(store, now, OpImport(req), i);
    RunAddsNone(Apply(store, now, OpImport(req)), events, i);
  }

  /** A run extended by one operation. */
  lemma {:induction false} RunSnoc(store: Store, events: seq<Event>, op: Op, now: int)
    ensures Run(store, events + [Event(now, op)]) == Apply(Run(store, events), now, op)
    decreases |events|
  {
    var longer := events + [Event(now, op)];
    if events == [] {
      assert longer[1..] == [];
    } else {
      RunSnoc(Apply(store, events[0].now, events[0].op), events[1..], op, now);
      assert longer[0] == events[0] && longer[1..] == events[1..] + [Event(now, op)];
    }
  }

  // ----- documents -----

  /** Public may become anything, internal anything but public; what is above stays above. */
  predicate NotLower(after: Classification, before: Classification) {
    match before
    case Public => true
    case Internal => after != Public
    case _ => after != Public && after != Internal
  }

  /** No import changes who may read a document that exists, or lowers its classification. */
  lemma StepNeverWidensAccess(store: Store, now: int, op: Op, i: nat)
    requires i < |store.documents|
    ensures var after := Apply(store, now, op).documents;
            i < |after| && after[i].scope == store.documents[i].scope
            && after[i].sourceKey == store.documents[i].sourceKey
            && NotLower(after[i].classification, store.documents[i].classification)
  {
  }

  lemma {:induction false} RunsNeverWidenAccess(store: Store, events: seq<Event>, i: nat)
    requires i < |store.documents|
    ensures var after := Run(store, events).documents;
            i < |after| && after[i].scope == store.documents[i].scope
            && NotLower(after[i].classification, store.documents[i].classification)
    decreases |events|
  {
    if events != [] {
      StepNeverWidensAccess(store, events[0].now, events[0].op, i);
      RunsNeverWidenAccess(Apply(store, events[0].now, events[0].op), events[1..], i);
    }
  }
}
