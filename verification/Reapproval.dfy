/** A run in which a version goes live on the one approval it was given before it was rejected, by its present submitter. */
module Reapproval {
  import opened Text
  import opened Governance
  import opened GovernanceSafety

  function ImportBy(actor: string): Op {
    OpImport(Request("manual", "x", None, None, actor))
  }

  function ReviewBy(actor: string, decision: Decision, comment: string): Op {
    OpDecide(0, 1, decision, actor, comment, true, false)
  }

  function ApprovedBy(trail: seq<Review>): set<string> {
    set r | r in trail && r.action == Approve :: r.actor
  }

  /** One document with one version, in this state, submitted and approved by these. */
  ghost predicate Stands(events: seq<Event>, status: Status, submitter: string, approvers: set<string>) {
    var store := Run(EMPTY, events);
    |store.documents| == 1 && store.documents[0].sourceKey == "manual" && |store.versions| == 1
    && var v := store.versions[0];
       v.documentId == 0 && v.number == 1 && v.sha == "x" && v.status == status && v.submittedBy == submitter
       && ApprovedBy(v.trail) == approvers
  }

  lemma ApprovedByOne(trail: seq<Review>, r: Review)
    ensures ApprovedBy(trail + [r]) == ApprovedBy(trail) + if r.action == Approve then {r.actor} else {}
  {
    if r.action == Approve {
      assert r in trail + [r];
    }
    forall a | a in ApprovedBy(trail) ensures a in ApprovedBy(trail + [r]) {
      var q :| q in trail && q.action == Approve && q.actor == a;
      assert q in trail + [r];
    }
  }

  lemma Submitted(now: int)
    ensures Stands([Event(now, ImportBy("a"))], Queued, "a", {})
  {
    RunSnoc(EMPTY, [], ImportBy("a"), now);
    assert Cut("manual", KEY_LIMIT) == "manual";
    assert Apply(EMPTY, now, ImportBy("a")).versions[0].trail[0].action == Submit;
  }

  lemma IsStaged(events: seq<Event>, submitter: string, approvers: set<string>, now: int)
    requires Stands(events, Queued, submitter, approvers)
    ensures Stands(events + [Event(now, OpFinalize(0, 1, false, "cli"))], Staged, submitter, approvers)
  {
    RunSnoc(EMPTY, events, OpFinalize(0, 1, false, "cli"), now);
  }

  lemma Reviewed(events: seq<Event>, submitter: string, approvers: set<string>, actor: string, decision: Decision, now: int)
    requires Stands(events, Staged, submitter, approvers) && actor in {"b"} && actor != submitter && decision != UnknownDecision
    ensures Stands(events + [Event(now, ReviewBy(actor, decision, "no"))], if decision == ApproveIt then Staged else Rejected,
                   submitter, approvers + if decision == ApproveIt then {actor} else {})
  {
    var store := Run(EMPTY, events);
    RunSnoc(EMPTY, events, ReviewBy(actor, decision, "no"), now);
    assert FindVersion(store.versions, 0, 1) == Some(0);
    assert "no"[0] == 'n' && !IsSpace('n');
    var after := Apply(store, now, ReviewBy(actor, decision, "no"));
    var trail := store.versions[0].trail;
    ApprovedByOne(trail, after.versions[0].trail[|trail|]);
  }

  lemma Reimported(events: seq<Event>, submitter: string, approvers: set<string>, actor: string, now: int)
    requires Stands(events, Rejected, submitter, approvers) && |actor| <= ID_LIMIT
    ensures Stands(events + [Event(now, ImportBy(actor))], Queued, actor, approvers)
  {
    var store := Run(EMPTY, events);
    RunSnoc(EMPTY, events, ImportBy(actor), now);
    assert Cut("manual", KEY_LIMIT) == "manual";
    assert FindDocument(store.documents, "manual") == Some(0);
    assert FindContent(store.versions, 0, "x") == Some(0);
    var trail := store.versions[0].trail;
    ApprovedByOne(trail, Apply(store, now, ImportBy(actor)).versions[0].trail[|trail|]);
  }

  lemma Published(events: seq<Event>, submitter: string, approvers: set<string>, now: int)
    requires Stands(events, Staged, submitter, approvers) && approvers != {}
    ensures Stands(events + [Event(now, OpPublish(0, 1, "c", false, false))], Indexed, submitter, approvers)
  {
    var store := Run(EMPTY, events);
    RunSnoc(EMPTY, events, OpPublish(0, 1, "c", false, false), now);
    assert FindVersion(store.versions, 0, 1) == Some(0);
    var trail := store.versions[0].trail;
    ApprovedByOne(trail, Apply(store, now, OpPublish(0, 1, "c", false, false)).versions[0].trail[|trail|]);
  }

  lemma ApprovedThenRejected(now: int) returns (events: seq<Event>)
    ensures Stands(events, Rejected, "a", {"b"})
    ensures forall e | e in events :: Separated(e.op) && ReviewMode(e.op)
  {
    events := [Event(now, ImportBy("a"))];
    Submitted(now);
    IsStaged(events, "a", {}, now);
    events := events + [Event(now, OpFinalize(0, 1, false, "cli"))];
    Reviewed(events, "a", {}, "b", ApproveIt, now);
    events := events + [Event(now, ReviewBy("b", ApproveIt, "no"))];
    Reviewed(events, "a", {"b"}, "b", RejectIt, now);
    events := events + [Event(now, ReviewBy("b", RejectIt, "no"))];
  }

  lemma ReopenedThenPublished(before: seq<Event>, now: int) returns (events: seq<Event>)
    requires Stands(before, Rejected, "a", {"b"}) && forall e | e in before :: Separated(e.op) && ReviewMode(e.op)
    ensures Stands(events, Indexed, "b", {"b"})
    ensures forall e | e in events :: Separated(e.op) && ReviewMode(e.op)
  {
    Reimported(before, "a", {"b"}, "b", now);
    events := before + [Event(now, ImportBy("b"))];
    IsStaged(events, "b", {"b"}, now);
    events := events + [Event(now, OpFinalize(0, 1, false, "cli"))];
    Published(events, "b", {"b"}, now);
    events := events + [Event(now, OpPublish(0, 1, "c", false, false))];
  }

  /**
   * a submits, b approves and then rejects, b re-imports the same content, and c publishes it without an override: the
   * version is live, b is its submitter, and b's approval from before is the only one it ever had.
   */
  lemma OwnApprovalPublishes(now: int) returns (events: seq<Event>)
    ensures Stands(events, Indexed, "b", {"b"})
    ensures forall e | e in events :: Separated(e.op) && ReviewMode(e.op)
  {
    events := ApprovedThenRejected(now);
    events := ReopenedThenPublished(events, now);
  }
}
