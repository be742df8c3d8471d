/** backend/database.py, lines 552-591 and 1145-1242: `superseded_by`, and when the links between versions run in a circle. */
module Succession {
  import opened Text
  import opened Governance
  import opened GovernanceSafety
  import opened Links

  function LinksOf(versions: seq<Version>): (next: seq<Row>)
    ensures |next| == |versions| && forall k | 0 <= k < |versions| :: next[k] == versions[k].supersededBy
  {
    seq(|versions|, k requires 0 <= k < |versions| => versions[k].supersededBy)
  }

  /** The live rows of the document that step down when row `keep` goes live. */
  function LiveOthers(versions: seq<Version>, documentId: nat, keep: nat): set<nat> {
    set k: nat | k < |versions| && k != keep && versions[k].documentId == documentId && versions[k].status == Indexed
  }

  /** Going live redirects the live rows of the document to the new one. */
  lemma GoLiveLinks(versions: seq<Version>, id: nat, live: Version)
    requires id < |versions|
    ensures LinksOf(GoLive(versions, id, live))
         == Redirect(LinksOf(versions)[id := live.supersededBy], LiveOthers(versions, live.documentId, id), id)
  {
    var after := GoLive(versions, id, live);
    forall k | 0 <= k < |versions|
      ensures k != id ==> after[k] == SupersedeOne(versions[k], k, live.documentId, id) {}
  }

  /** The operation puts a row live that keeps its own link, and a live row of the document is reached along it. */
  ghost predicate ClosesCircle(versions: seq<Version>, now: int, op: Op) {
    !op.OpImport? && ApplyVersions(versions, now, op).Ok?
    && ((op.OpFinalize? && op.publish
         && Reaches(LinksOf(versions), op.id, LiveOthers(versions, versions[op.id].documentId, op.id)))
        || (op.OpPublish?
            && var id := FindVersion(versions, op.documentId, op.number).value;
               Reaches(LinksOf(versions), id, LiveOthers(versions, versions[id].documentId, id))))
  }

  lemma KeptLinkCircleIff(versions: seq<Version>, id: nat, live: Version)
    requires id < |versions| && Acyclic(LinksOf(versions)) && InRange(LinksOf(versions))
    requires live.supersededBy == versions[id].supersededBy
    ensures var after := LinksOf(GoLive(versions, id, live));
            InRange(after)
            && (Acyclic(after) <==> !Reaches(LinksOf(versions), id, LiveOthers(versions, live.documentId, id)))
  {
    GoLiveLinks(versions, id, live);
    assert LinksOf(versions)[id := live.supersededBy] == LinksOf(versions);
    RedirectAcyclicIff(LinksOf(versions), LiveOthers(versions, live.documentId, id), id);
  }

  lemma ClearedLinkClosesNone(versions: seq<Version>, id: nat, live: Version)
    requires id < |versions| && Acyclic(LinksOf(versions)) && InRange(LinksOf(versions)) && live.supersededBy == None
    ensures Acyclic(LinksOf(GoLive(versions, id, live))) && InRange(LinksOf(GoLive(versions, id, live)))
  {
    var rows := LiveOthers(versions, live.documentId, id);
    GoLiveLinks(versions, id, live);
    ClearedStaysAcyclic(LinksOf(versions), id, rows);
    RedirectAcyclicIff(LinksOf(versions)[id := None], rows, id);
  }

  lemma OtherOpsKeepLinks(versions: seq<Version>, now: int, op: Op)
    requires !op.OpImport? && !op.OpPublish? && !op.OpRollback? && !(op.OpFinalize? && op.publish)
    requires ApplyVersions(versions, now, op).Ok?
    ensures LinksOf(ApplyVersions(versions, now, op).value) == LinksOf(versions)
  {
  }

  lemma ImportKeepsLinks(versions: seq<Version>, documentId: nat, req: Request)
    ensures var after := LinksOf(ImportVersion(versions, documentId, req).0);
            after == LinksOf(versions) || after == LinksOf(versions) + [None]
  {
    var after := ImportVersion(versions, documentId, req).0;
    if |after| == |versions| {
      assert LinksOf(after) == LinksOf(versions);
    } else {
      assert LinksOf(after) == LinksOf(versions) + [None];
    }
  }

  /**
   * When the links run in a circle. As long as they do not, an operation makes them do so exactly when it publishes a
   * row, out of indexing or out of review, from which a live row of the document is reached along `superseded_by`:
   * publication keeps the row's own link. A rollback clears it and closes none.
   */
  lemma CircleIff(store: Store, now: int, op: Op)
    requires Acyclic(LinksOf(store.versions)) && InRange(LinksOf(store.versions))
    ensures InRange(LinksOf(Apply(store, now, op).versions))
    ensures Acyclic(LinksOf(Apply(store, now, op).versions)) <==> !ClosesCircle(store.versions, now, op)
  {
    var versions := store.versions;
    if op.OpImport? {
      if ImportDocument(store.documents, op.req).Ok? {
        ImportKeepsLinks(versions, ImportDocument(store.documents, op.req).value.1, op.req);
        AppendedStaysAcyclic(LinksOf(versions));
      }
    } else if ApplyVersions(versions, now, op).Ok? {
      var after := ApplyVersions(versions, now, op).value;
      if op.OpFinalize? && op.publish {
        KeptLinkCircleIff(versions, op.id, after[op.id]);
      } else if op.OpPublish? {
        var id := FindVersion(versions, op.documentId, op.number).value;
        KeptLinkCircleIff(versions, id, after[id]);
      } else if op.OpRollback? {
        var id := FindVersion(versions, op.documentId, op.number).value;
        ClearedLinkClosesNone(versions, id, after[id]);
      } else {
        OtherOpsKeepLinks(versions, now, op);
      }
    }
  }

  // ----- runs -----

  /** No step of the run closes a circle. */
  ghost predicate NeverCloses(store: Store, events: seq<Event>)
    decreases |events|
  {
    events == []
    || (!ClosesCircle(store.versions, events[0].now, events[0].op)
        && NeverCloses(Apply(store, events[0].now, events[0].op), events[1..]))
  }

  lemma {:induction false} RunsStayAcyclic(store: Store, events: seq<Event>)
    requires Acyclic(LinksOf(store.versions)) && InRange(LinksOf(store.versions)) && NeverCloses(store, events)
    ensures Acyclic(LinksOf(Run(store, events).versions))
    decreases |events|
  {
    if events != [] {
      CircleIff(store, events[0].now, events[0].op);
      RunsStayAcyclic(Apply(store, events[0].now, events[0].op), events[1..]);
    }
  }

  // ----- a run that ends in a circle -----

  function ImportOf(sha: string): Op {
    OpImport(Request("manual", sha, None, None, "cli"))
  }

  /** One document (none before the first import), whose versions are in these states with these links. */
  ghost predicate Stands(store: Store, shas: seq<string>, states: seq<Status>, links: seq<Row>)
    requires |shas| == |states| == |links|
  {
    |store.documents| == (if shas == [] then 0 else 1) && |store.versions| == |shas|
    && (shas != [] ==> store.documents[0].sourceKey == "manual")
    && forall k | 0 <= k < |shas| ::
         store.versions[k].documentId == 0 && store.versions[k].sha == shas[k] && store.versions[k].status == states[k]
         && store.versions[k].supersededBy == links[k]
  }

  lemma ImportsNew(store: Store, shas: seq<string>, states: seq<Status>, links: seq<Row>, sha: string, now: int)
    requires |shas| == |states| == |links| && sha !in shas
    requires Stands(store, shas, states, links)
    ensures Stands(Apply(store, now, ImportOf(sha)), shas + [sha], states + [Queued], links + [None])
  {
    assert Cut("manual", KEY_LIMIT) == "manual";
    assert forall k | 0 <= k < |shas| :: shas[k] in shas;
    if shas != [] {
      assert FindDocument(store.documents, "manual") == Some(0);
      assert FindContent(store.versions, 0, sha).None?;
    }
  }

  lemma Reopens(store: Store, shas: seq<string>, states: seq<Status>, links: seq<Row>, i: nat, now: int)
    requires |shas| == |states| == |links| && i < |shas| && Stands(store, shas, states, links) && states[i] == Superseded
    requires forall j | 0 <= j < |shas| && j != i :: shas[j] != shas[i]
    ensures Stands(Apply(store, now, ImportOf(shas[i])), shas, states[i := Queued], links)
  {
    assert Cut("manual", KEY_LIMIT) == "manual";
    assert FindDocument(store.documents, "manual") == Some(0);
    assert FindContent(store.versions, 0, shas[i]) == Some(i);
  }

  /** Row i goes live out of indexing; row w was the live one, if there was one. */
  lemma GoesLive(store: Store, shas: seq<string>, states: seq<Status>, links: seq<Row>, i: nat, w: nat, now: int)
    requires |shas| == |states| == |links| && i < |shas| && Stands(store, shas, states, links) && states[i] == Queued
    requires w < |shas| && forall j | 0 <= j < |shas| && states[j] == Indexed :: j == w
    ensures Stands(Apply(store, now, OpFinalize(i, 1, true, "cli")), shas,
                   (if states[w] == Indexed then states[w := Superseded] else states)[i := Indexed],
                   if states[w] == Indexed then links[w := Some(i)] else links)
  {
  }

  ghost predicate StandsAt(events: seq<Event>, shas: seq<string>, states: seq<Status>, links: seq<Row>)
    requires |shas| == |states| == |links|
  {
    Stands(Run(EMPTY, events), shas, states, links)
  }

  lemma ImportsAt(events: seq<Event>, shas: seq<string>, states: seq<Status>, links: seq<Row>, sha: string, now: int)
    requires |shas| == |states| == |links| && sha !in shas && StandsAt(events, shas, states, links)
    ensures StandsAt(events + [Event(now, ImportOf(sha))], shas + [sha], states + [Queued], links + [None])
  {
    RunSnoc(EMPTY, events, ImportOf(sha), now);
    ImportsNew(Run(EMPTY, events), shas, states, links, sha, now);
  }

  lemma ReopensAt(events: seq<Event>, shas: seq<string>, states: seq<Status>, links: seq<Row>, i: nat, now: int)
    requires |shas| == |states| == |links| && i < |shas| && StandsAt(events, shas, states, links) && states[i] == Superseded
    requires forall j | 0 <= j < |shas| && j != i :: shas[j] != shas[i]
    ensures StandsAt(events + [Event(now, ImportOf(shas[i]))], shas, states[i := Queued], links)
  {
    RunSnoc(EMPTY, events, ImportOf(shas[i]), now);
    Reopens(Run(EMPTY, events), shas, states, links, i, now);
  }

  lemma GoesLiveAt(events: seq<Event>, shas: seq<string>, states: seq<Status>, links: seq<Row>, i: nat, w: nat, now: int)
    requires |shas| == |states| == |links| && i < |shas| && StandsAt(events, shas, states, links) && states[i] == Queued
    requires w < |shas| && forall j | 0 <= j < |shas| && states[j] == Indexed :: j == w
    ensures StandsAt(events + [Event(now, OpFinalize(i, 1, true, "cli"))], shas,
                     (if states[w] == Indexed then states[w := Superseded] else states)[i := Indexed],
                     if states[w] == Indexed then links[w := Some(i)] else links)
  {
    RunSnoc(EMPTY, events, OpFinalize(i, 1, true, "cli"), now);
    GoesLive(Run(EMPTY, events), shas, states, links, i, w, now);
  }

  lemma PublishOne(now: int) returns (events: seq<Event>)
    ensures StandsAt(events, ["a"], [Indexed], [None])
  {
    events := [];
    ImportsAt(events, [], [], [], "a", now);
    events := events + [Event(now, ImportOf("a"))];
    GoesLiveAt(events, ["a"], [Queued], [None], 0, 0, now);
    events := events + [Event(now, OpFinalize(0, 1, true, "cli"))];
  }

  lemma PublishTwo(now: int) returns (events: seq<Event>)
    ensures StandsAt(events, ["a", "b"], [Superseded, Indexed], [Some(1), None])
  {
    events := PublishOne(now);
    ImportsAt(events, ["a"], [Indexed], [None], "b", now);
    events := events + [Event(now, ImportOf("b"))];
    GoesLiveAt(events, ["a", "b"], [Indexed, Queued], [None, None], 1, 0, now);
    events := events + [Event(now, OpFinalize(1, 1, true, "cli"))];
  }

  lemma PublishThird(before: seq<Event>, now: int) returns (events: seq<Event>)
    requires StandsAt(before, ["a", "b"], [Superseded, Indexed], [Some(1), None])
    ensures StandsAt(events, ["a", "b", "c"], [Superseded, Superseded, Indexed], [Some(1), Some(2), None])
  {
    ImportsAt(before, ["a", "b"], [Superseded, Indexed], [Some(1), None], "c", now);
    events := before + [Event(now, ImportOf("c"))];
    GoesLiveAt(events, ["a", "b", "c"], [Superseded, Indexed, Queued], [Some(1), None, None], 2, 1, now);
    events := events + [Event(now, OpFinalize(2, 1, true, "cli"))];
  }

  lemma PublishFirstAgain(before: seq<Event>, now: int) returns (events: seq<Event>)
    requires StandsAt(before, ["a", "b", "c"], [Superseded, Superseded, Indexed], [Some(1), Some(2), None])
    ensures StandsAt(events, ["a", "b", "c"], [Indexed, Superseded, Superseded], [Some(1), Some(2), Some(0)])
  {
    ReopensAt(before, ["a", "b", "c"], [Superseded, Superseded, Indexed], [Some(1), Some(2), None], 0, now);
    events := before + [Event(now, ImportOf("a"))];
    GoesLiveAt(events, ["a", "b", "c"], [Queued, Superseded, Indexed], [Some(1), Some(2), None], 0, 2, now);
    events := events + [Event(now, OpFinalize(0, 1, true, "cli"))];
  }

  lemma CircleOfThree(next: seq<Row>)
    requires next == [Some(1), Some(2), Some(0)]
    ensures !Acyclic(next)
  {
    assert Follow(next, 0, 1) == Some(1);
    assert Follow(next, 0, 2) == Some(2);
    assert Follow(next, 0, 3) == Some(0);
  }

  /**
   * Three contents published in turn, then the first one again: 0 -> 1 -> 2 -> 0. Each link was right when it was
   * written, and the row that closes the circle does not name the live one.
   */
  lemma CircleIsReached(now: int) returns (events: seq<Event>)
    ensures LinksOf(Run(EMPTY, events).versions) == [Some(1), Some(2), Some(0)]
    ensures !Acyclic(LinksOf(Run(EMPTY, events).versions))
  {
    events := PublishTwo(now);
    events := PublishThird(events, now);
    events := PublishFirstAgain(events, now);
    CircleOfThree(LinksOf(Run(EMPTY, events).versions));
  }
}
