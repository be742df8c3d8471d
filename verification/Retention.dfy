/** backend/database.py, lines 2699-2833: the retention policy and its hard delete. Times are in seconds. */
module Retention {
  import opened Text

  const DAY: int := 86400

  datatype Document = Document(createdAt: int, expiredAt: Option<int>)

  type Documents = map<nat, Document>

  /** A child table by primary key: of each row, the parent it refers to (None for a null reference). */
  type Table = map<nat, Option<nat>>

  datatype JobRow = JobRow(documentId: Option<nat>, versionId: Option<nat>)

  /** Every table below `documents`. */
  datatype Tables = Tables(
    documents: Documents, versions: Table, acl: Table,          // refer to documents
    reviews: Table, chunks: Table, usages: Table, runs: Table,  // refer to versions
    results: Table,                                             // refer to runs
    jobs: map<nat, JobRow>)                                     // refer to documents and to versions

  datatype Policy = Policy(retentionDays: int, graceDays: int)
  {
    function Retention(): int { Max(1, retentionDays) * DAY }
    function Grace(): int { Max(0, graceDays) * DAY }
  }

  datatype Stage = Soft | Hard | Both

  // ----- what is due -----

  function SoftDue(documents: Documents, cutoff: int): set<nat> {
    set d | d in documents && documents[d].expiredAt.None? && documents[d].createdAt <= cutoff
  }

  function HardDue(documents: Documents, cutoff: int): set<nat> {
    set d | d in documents && documents[d].expiredAt.Some? && documents[d].expiredAt.value <= cutoff
  }

  /** `UPDATE documents SET expired_at = now WHERE ...` */
  function SoftMark(documents: Documents, cutoff: int, now: int): Documents {
    map d | d in documents :: if d in SoftDue(documents, cutoff) then documents[d].(expiredAt := Some(now)) else documents[d]
  }

  // ----- the explicit child cleanup -----

  function Refs(table: Table, parents: set<nat>): set<nat> {
    set k | k in table && table[k].Some? && table[k].value in parents
  }

  function JobsOf(jobs: map<nat, JobRow>, documents: set<nat>): set<nat> {
    set j | j in jobs && jobs[j].documentId.Some? && jobs[j].documentId.value in documents
  }

  function Without(table: Table, parents: set<nat>): Table {
    table - Refs(table, parents)
  }

  /** The tables after _purge_expired_documents has handled the documents in `dead`. */
  function Purged(t: Tables, dead: set<nat>): Tables {
    var versions := Refs(t.versions, dead);
    var runs := Refs(t.runs, versions);
    Tables(t.documents - dead, Without(t.versions, dead), Without(t.acl, dead),
           Without(t.reviews, versions), Without(t.chunks, versions), Without(t.usages, versions), Without(t.runs, versions),
           Without(t.results, runs), t.jobs - JobsOf(t.jobs, dead))
  }

  // ----- the cascade it stands for -----

  /** One foreign key with ON DELETE CASCADE: exactly the rows whose parent went are gone. */
  ghost predicate Follows(before: Table, after: Table, parentsBefore: set<nat>, parentsAfter: set<nat>) {
    after == map k | k in before && !(before[k].Some? && before[k].value in parentsBefore - parentsAfter) :: before[k]
  }

  /** A job row goes when either of its parents went. */
  ghost predicate JobsFollow(t: Tables, after: Tables) {
    after.jobs == map j | j in t.jobs
                          && !(t.jobs[j].documentId.Some? && t.jobs[j].documentId.value in t.documents.Keys - after.documents.Keys)
                          && !(t.jobs[j].versionId.Some? && t.jobs[j].versionId.value in t.versions.Keys - after.versions.Keys)
                  :: t.jobs[j]
  }

  /** What the database's own cascade leaves when exactly `dead` is deleted from `documents`. */
  ghost predicate IsCascade(t: Tables, dead: set<nat>, after: Tables) {
    after.documents == t.documents - dead
    && Follows(t.versions, after.versions, t.documents.Keys, after.documents.Keys)
    && Follows(t.acl, after.acl, t.documents.Keys, after.documents.Keys)
    && Follows(t.reviews, after.reviews, t.versions.Keys, after.versions.Keys)
    && Follows(t.chunks, after.chunks, t.versions.Keys, after.versions.Keys)
    && Follows(t.usages, after.usages, t.versions.Keys, after.versions.Keys)
    && Follows(t.runs, after.runs, t.versions.Keys, after.versions.Keys)
    && Follows(t.results, after.results, t.runs.Keys, after.runs.Keys)
    && JobsFollow(t, after)
  }

  /** Every job on a version of a deleted document names a deleted document itself. */
  ghost predicate JobsNameTheirDocument(t: Tables, dead: set<nat>) {
    forall j | j in t.jobs && t.jobs[j].versionId.Some? && t.jobs[j].versionId.value in Refs(t.versions, dead) ::
      t.jobs[j].documentId.Some? && t.jobs[j].documentId.value in dead
  }

  lemma WithoutFollows(table: Table, gone: set<nat>, parentsBefore: set<nat>, parentsAfter: set<nat>)
    requires parentsBefore - parentsAfter == gone
    ensures Follows(table, Without(table, gone), parentsBefore, parentsAfter)
  {
  }

  lemma PurgedJobs(t: Tables, dead: set<nat>)
    requires dead <= t.documents.Keys
    ensures JobsFollow(t, Purged(t, dead)) <==> JobsNameTheirDocument(t, dead)
  {
    var after := Purged(t, dead);
    assert t.documents.Keys - after.documents.Keys == dead;
    assert t.versions.Keys - after.versions.Keys == Refs(t.versions, dead);
    var expected := map j | j in t.jobs
                            && !(t.jobs[j].documentId.Some? && t.jobs[j].documentId.value in dead)
                            && !(t.jobs[j].versionId.Some? && t.jobs[j].versionId.value in Refs(t.versions, dead)) :: t.jobs[j];
    if JobsNameTheirDocument(t, dead) {
      assert after.jobs == expected;
    } else {
      var j :| j in t.jobs && t.jobs[j].versionId.Some? && t.jobs[j].versionId.value in Refs(t.versions, dead)
               && !(t.jobs[j].documentId.Some? && t.jobs[j].documentId.value in dead);
      assert j in after.jobs && j !in expected;
    }
  }

  /** The explicit cleanup equals the cascade exactly when jobs name the document of their version. */
  lemma PurgeIsCascadeIff(t: Tables, dead: set<nat>)
    requires dead <= t.documents.Keys
    ensures IsCascade(t, dead, Purged(t, dead)) <==> JobsNameTheirDocument(t, dead)
  {
    var after := Purged(t, dead);
    var versions := Refs(t.versions, dead);
    var runs := Refs(t.runs, versions);
    WithoutFollows(t.versions, dead, t.documents.Keys, after.documents.Keys);
    WithoutFollows(t.acl, dead, t.documents.Keys, after.documents.Keys);
    assert t.versions.Keys - after.versions.Keys == versions;
    WithoutFollows(t.reviews, versions, t.versions.Keys, after.versions.Keys);
    WithoutFollows(t.chunks, versions, t.versions.Keys, after.versions.Keys);
    WithoutFollows(t.usages, versions, t.versions.Keys, after.versions.Keys);
    WithoutFollows(t.runs, versions, t.versions.Keys, after.versions.Keys);
    assert t.runs.Keys - after.runs.Keys == runs;
    WithoutFollows(t.results, runs, t.runs.Keys, after.runs.Keys);
    PurgedJobs(t, dead);
  }

  // ----- one document at a time -----

  lemma WithoutTwice(table: Table, a: set<nat>, b: set<nat>)
    ensures Without(Without(table, a), b) == Without(table, a + b)
    ensures Refs(table, a + b) == Refs(table, a) + Refs(Without(table, a), b)
  {
  }

  /** Documents may be handled one at a time, in any order. */
  lemma PurgeOneMore(t: Tables, done: set<nat>, d: nat)
    ensures Purged(Purged(t, done), {d}) == Purged(t, done + {d})
  {
    var mid := Purged(t, done);
    var v1, v2 := Refs(t.versions, done), Refs(mid.versions, {d});
    var r1, r2 := Refs(t.runs, v1), Refs(mid.runs, v2);
    WithoutTwice(t.versions, done, {d});
    WithoutTwice(t.acl, done, {d});
    WithoutTwice(t.reviews, v1, v2);
    WithoutTwice(t.chunks, v1, v2);
    WithoutTwice(t.usages, v1, v2);
    WithoutTwice(t.runs, v1, v2);
    WithoutTwice(t.results, r1, r2);
    assert t.documents - done - {d} == t.documents - (done + {d});
    assert mid.jobs - JobsOf(mid.jobs, {d}) == t.jobs - JobsOf(t.jobs, done + {d});
  }

  lemma WithoutNone(table: Table)
    ensures Without(table, {}) == table && Refs(table, {}) == {}
  {
  }

  lemma PurgeNothing(t: Tables)
    ensures Purged(t, {}) == t
  {
  }

  // ----- the policy as a step on the tables -----

  function Marked(documents: Documents, policy: Policy, stage: Stage, now: int): Documents {
    if stage == Hard then documents else SoftMark(documents, now - policy.Retention(), now)
  }

  /** The documents a purge deletes. */
  function Doomed(documents: Documents, policy: Policy, stage: Stage, now: int): set<nat> {
    if stage == Soft then {} else HardDue(Marked(documents, policy, stage, now), now - policy.Grace())
  }

  function AfterMark(t: Tables, policy: Policy, stage: Stage, now: int): Tables {
    t.(documents := Marked(t.documents, policy, stage, now))
  }

  function AfterDelete(t: Tables, stage: Stage, hardCutoff: int): Tables {
    if stage == Soft then t else Purged(t, HardDue(t.documents, hardCutoff))
  }

  /** Mark, then delete: the soft stage only marks, the hard stage only deletes. */
  function AfterPurge(t: Tables, policy: Policy, stage: Stage, now: int): Tables {
    AfterDelete(AfterMark(t, policy, stage, now), stage, now - policy.Grace())
  }

  class RetentionStore {
    var tables: Tables
    const policy: Policy

    constructor (tables: Tables, policy: Policy)
      ensures this.tables == tables && this.policy == policy
    {
      this.tables, this.policy := tables, policy;
    }

    method Preview(now: int) returns (total: nat, softDue: nat, hardDue: nat)
      ensures total == |tables.documents| && softDue == |SoftDue(tables.documents, now - policy.Retention())|
      ensures hardDue == |HardDue(tables.documents, now - policy.Grace())|
    {
      total := |tables.documents|;
      softDue := |SoftDue(tables.documents, now - policy.Retention())|;
      hardDue := |HardDue(tables.documents, now - policy.Grace())|;
    }

    /** The delete statements for one expired document. */
    method PurgeDocument(d: nat)
      modifies this`tables
      ensures tables == Purged(old(tables), {d})
    {
      var versionIds := Refs(tables.versions, {d});
      PurgeVersions(d, versionIds);
      tables := tables.(acl := Without(tables.acl, {d}));
      tables := tables.(jobs := tables.jobs - JobsOf(tables.jobs, {d}));
      tables := tables.(documents := tables.documents - {d});
    }

    /** The deletes below the document's versions, skipped when it has none. */
    method PurgeVersions(d: nat, versionIds: set<nat>)
      requires versionIds == Refs(tables.versions, {d})
      modifies this`tables
      ensures var t := old(tables);
              tables == Tables(t.documents, Without(t.versions, {d}), t.acl, Without(t.reviews, versionIds),
                               Without(t.chunks, versionIds), Without(t.usages, versionIds), Without(t.runs, versionIds),
                               Without(t.results, Refs(t.runs, versionIds)), t.jobs)
    {
      if versionIds == {} {
        NothingToPurge(tables, d);
        return;
      }
      var runIds := Refs(tables.runs, versionIds);
      WithoutNone(tables.results);
      if runIds != {} {
        tables := tables.(results := Without(tables.results, runIds));
      }
      tables := tables.(reviews := Without(tables.reviews, versionIds));
      tables := tables.(chunks := Without(tables.chunks, versionIds));
      tables := tables.(usages := Without(tables.usages, versionIds));
      tables := tables.(runs := Without(tables.runs, versionIds));
      tables := tables.(versions := Without(tables.versions, {d}));
    }

    method PurgeExpiredDocuments(hardCutoff: int) returns (total: nat)
      modifies this`tables
      ensures tables == Purged(old(tables), HardDue(old(tables).documents, hardCutoff))
      ensures total == |HardDue(old(tables).documents, hardCutoff)|
    {
      var due := HardDue(tables.documents, hardCutoff);
      total := PurgeAll(due);
    }

    method PurgeAll(due: set<nat>) returns (total: nat)
      modifies this`tables
      ensures tables == Purged(old(tables), due) && total == |due|
    {
      var pending := due;
      ghost var done: set<nat> := {};
      total := 0;
      PurgeNothing(tables);
      while pending != {}
        invariant done + pending == due && done !! pending && total == |done|
        invariant tables == Purged(old(tables), done)
        decreases |pending|
      {
        var d :| d in pending;
        PurgeOneMore(old(tables), done, d);
        PurgeDocument(d);
        pending, done := pending - {d}, done + {d};
        total := total + 1;
      }
    }

    method Purge(stage: Stage, now: int) returns (softMarked: nat, hardDeleted: nat)
      modifies this`tables
      ensures tables == AfterPurge(old(tables), policy, stage, now)
      ensures softMarked == if stage == Hard then 0 else |SoftDue(old(tables).documents, now - policy.Retention())|
      ensures hardDeleted == |Doomed(old(tables).documents, policy, stage, now)|
    {
      softMarked := MarkExpired(stage, now);
      var hardCutoff := now - policy.Grace();
      assert stage != Soft ==> Doomed(old(tables).documents, policy, stage, now) == HardDue(tables.documents, hardCutoff);
      hardDeleted := DeleteExpired(stage, hardCutoff);
    }

    /** The first stage: stamp what has outlived its retention. */
    method MarkExpired(stage: Stage, now: int) returns (softMarked: nat)
      modifies this`tables
      ensures tables == AfterMark(old(tables), policy, stage, now)
      ensures softMarked == if stage == Hard then 0 else |SoftDue(old(tables).documents, now - policy.Retention())|
    {
      softMarked := 0;
      if stage != Hard {
        softMarked := |SoftDue(tables.documents, now - policy.Retention())|;
        tables := tables.(documents := SoftMark(tables.documents, now - policy.Retention(), now));
      }
    }

    /** The second stage: delete what has outlived its grace. */
    method DeleteExpired(stage: Stage, hardCutoff: int) returns (hardDeleted: nat)
      modifies this`tables
      ensures tables == AfterDelete(old(tables), stage, hardCutoff)
      ensures hardDeleted == if stage == Soft then 0 else |HardDue(old(tables).documents, hardCutoff)|
    {
      hardDeleted := 0;
      if stage != Soft {
        hardDeleted := PurgeExpiredDocuments(hardCutoff);
      }
    }
  }

  lemma NothingToPurge(t: Tables, d: nat)
    requires Refs(t.versions, {d}) == {}
    ensures Without(t.versions, {d}) == t.versions
    ensures Without(t.reviews, {}) == t.reviews && Without(t.chunks, {}) == t.chunks && Without(t.usages, {}) == t.usages
    ensures Without(t.runs, {}) == t.runs && Without(t.results, Refs(t.runs, {})) == t.results
  {
  }

  // ----- consequences -----

  lemma MarkTwice(documents: Documents, policy: Policy, stage: Stage, now: int)
    ensures var once := Marked(documents, policy, stage, now) - Doomed(documents, policy, stage, now);
            Marked(once, policy, stage, now) == once && Doomed(once, policy, stage, now) == {}
  {
  }

  /** A second purge at the same instant changes nothing. */
  lemma PurgeIsIdempotent(t: Tables, policy: Policy, stage: Stage, now: int)
    ensures AfterPurge(AfterPurge(t, policy, stage, now), policy, stage, now) == AfterPurge(t, policy, stage, now)
  {
    var once := AfterPurge(t, policy, stage, now);
    MarkTwice(t.documents, policy, stage, now);
    assert once.documents == Marked(t.documents, policy, stage, now) - Doomed(t.documents, policy, stage, now);
    PurgeNothing(once);
  }

  /**
   * The preview announces what the next full purge deletes, exactly when the grace window is positive or
   * nothing is waiting to be marked: without a grace window a document is marked and deleted at once.
   */
  lemma PreviewMatchesPurgeIff(documents: Documents, policy: Policy, now: int)
    ensures |HardDue(documents, now - policy.Grace())| == |Doomed(documents, policy, Both, now)|
            <==> policy.Grace() > 0 || SoftDue(documents, now - policy.Retention()) == {}
  {
    var soft := SoftDue(documents, now - policy.Retention());
    var before := HardDue(documents, now - policy.Grace());
    var marked := Marked(documents, policy, Both, now);
    if policy.Grace() > 0 {
      assert before == HardDue(marked, now - policy.Grace());
    } else {
      assert HardDue(marked, now - policy.Grace()) == before + soft && before !! soft;
    }
  }

  // ----- over every history -----

  datatype Event = Import(id: nat, now: int) | RunPurge(stage: Stage, now: int)

  /** A new document starts unexpired; importing into an existing one leaves both dates alone. */
  function Next(documents: Documents, policy: Policy, e: Event): Documents {
    match e
    case Import(id, now) => if id in documents then documents else documents[id := Document(now, None)]
    case RunPurge(stage, now) => Marked(documents, policy, stage, now) - Doomed(documents, policy, stage, now)
  }

  function History(documents: Documents, policy: Policy, events: seq<Event>): Documents
    decreases |events|
  {
    if events == [] then documents else History(Next(documents, policy, events[0]), policy, events[1..])
  }

  /** While a document exists its creation date stays, a mark stays, and only a purge marks, with its own time. */
  lemma DatesAreKept(documents: Documents, policy: Policy, e: Event, d: nat)
    requires d in documents && d in Next(documents, policy, e)
    ensures var before, after := documents[d], Next(documents, policy, e)[d];
            after.createdAt == before.createdAt
            && (before.expiredAt.Some? || e.Import? ==> after == before)
            && (after.expiredAt == before.expiredAt || after.expiredAt == Some(e.now))
    ensures e.Import? ==> forall k | k in documents :: k in Next(documents, policy, e)
  {
  }

  ghost predicate MarkedLate(documents: Documents, policy: Policy) {
    forall d | d in documents && documents[d].expiredAt.Some? ::
      documents[d].createdAt + policy.Retention() <= documents[d].expiredAt.value
  }

  lemma NextMarksLate(documents: Documents, policy: Policy, e: Event)
    requires MarkedLate(documents, policy)
    ensures MarkedLate(Next(documents, policy, e), policy)
  {
  }

  lemma {:induction false} HistoryMarksLate(documents: Documents, policy: Policy, events: seq<Event>)
    requires MarkedLate(documents, policy)
    ensures MarkedLate(History(documents, policy, events), policy)
    decreases |events|
  {
    if events != [] {
      NextMarksLate(documents, policy, events[0]);
      HistoryMarksLate(Next(documents, policy, events[0]), policy, events[1..]);
    }
  }

  /** Over every history, a purge deletes a document only retention plus grace after it was created. */
  lemma DeletedDocumentsWereOld(t: Tables, policy: Policy, events: seq<Event>, stage: Stage, now: int, d: nat)
    requires t.documents == History(map[], policy, events)
    requires d in t.documents && d !in AfterPurge(t, policy, stage, now).documents
    ensures t.documents[d].createdAt + policy.Retention() + policy.Grace() <= now
  {
    HistoryMarksLate(map[], policy, events);
    var marked := Marked(t.documents, policy, stage, now);
    NextMarksLate(t.documents, policy, RunPurge(Soft, now));
    assert d in marked && marked[d].createdAt == t.documents[d].createdAt;
  }

  /**
   * A document that has not been marked is marked by the next soft stage exactly when it is at least its retention old,
   * in days of 86400 seconds and never less than one; nothing else about any document changes.
   */
  lemma SoftStageMarksIff(t: Tables, policy: Policy, now: int, d: nat)
    requires d in t.documents && t.documents[d].expiredAt.None?
    ensures var after := AfterPurge(t, policy, Soft, now);
            d in after.documents && after.documents[d].createdAt == t.documents[d].createdAt
            && after.documents[d].expiredAt ==
                 (if now - t.documents[d].createdAt >= 86400 && now - t.documents[d].createdAt >= policy.retentionDays * 86400
                  then Some(now) else None)
            && after == t.(documents := after.documents)
  {
  }

  /** A marked document is gone with the next hard stage exactly when its grace has passed since the mark. */
  lemma HardStageDeletesIff(t: Tables, policy: Policy, now: int, d: nat)
    requires d in t.documents && t.documents[d].expiredAt.Some?
    ensures var age, after := now - t.documents[d].expiredAt.value, AfterPurge(t, policy, Hard, now);
            (d !in after.documents <==> age >= 0 && age >= policy.graceDays * 86400)
            && (d in after.documents ==> after.documents[d] == t.documents[d])
  {
  }

  /** So a document that has outlived its retention at one soft stage is gone at any hard stage its grace later. */
  lemma OutlivedDocumentsGo(t: Tables, policy: Policy, soft: int, hard: int, d: nat)
    requires d in t.documents && t.documents[d].expiredAt.None?
    requires soft - t.documents[d].createdAt >= 86400 && soft - t.documents[d].createdAt >= policy.retentionDays * 86400
    requires hard >= soft && hard - soft >= policy.graceDays * 86400
    ensures d !in AfterPurge(AfterPurge(t, policy, Soft, soft), policy, Hard, hard).documents
  {
    SoftStageMarksIff(t, policy, soft, d);
    HardStageDeletesIff(AfterPurge(t, policy, Soft, soft), policy, hard, d);
  }
}
