/** backend/database.py, lines 356-462: how documents and versions are told apart, over every run of operations. */
module Numbering {
  import opened Text
  import opened Governance
  import opened GovernanceSafety

  // ----- what a name finds -----

  /** Documents have different keys; versions of one document have different numbers, from 1 on, and different contents. */
  ghost predicate Named(store: Store) {
    DifferentKeys(store.documents) && DifferentVersions(store.versions)
  }

  ghost predicate DifferentKeys(documents: seq<Document>) {
    forall i, j | 0 <= i < j < |documents| :: documents[i].sourceKey != documents[j].sourceKey
  }

  ghost predicate DifferentVersions(versions: seq<Version>) {
    (forall i | 0 <= i < |versions| :: versions[i].number >= 1)
    && forall i, j | 0 <= i < j < |versions| && versions[i].documentId == versions[j].documentId ::
         versions[i].number != versions[j].number && versions[i].sha != versions[j].sha
  }

  // ----- an import -----

  lemma {:induction false} LatestIsLargest(versions: seq<Version>, d: nat)
    ensures forall i | 0 <= i < |versions| && versions[i].documentId == d :: versions[i].number <= LatestNumber(versions, d)
    ensures LatestNumber(versions, d) == 0
            || exists i :: 0 <= i < |versions| && versions[i].documentId == d && versions[i].number == LatestNumber(versions, d)
  {
    if versions != [] {
      var tail := versions[1..];
      LatestIsLargest(tail, d);
      if i :| 0 <= i < |tail| && tail[i].documentId == d && tail[i].number == LatestNumber(tail, d) {
        assert versions[i + 1] == tail[i];
      }
      forall i | 0 <= i < |versions| && versions[i].documentId == d ensures versions[i].number <= LatestNumber(versions, d) {
        assert i > 0 ==> versions[i] == tail[i - 1];
      }
    }
  }

  /** n is one above the largest number of the document, and 1 when it has no version. */
  ghost predicate IsNextNumber(versions: seq<Version>, d: nat, n: nat) {
    n >= 1
    && (forall i | 0 <= i < |versions| && versions[i].documentId == d :: versions[i].number < n)
    && (n == 1 || exists i :: 0 <= i < |versions| && versions[i].documentId == d && versions[i].number == n - 1)
  }

  /**
   * An import of content that the document does not have adds exactly one row, queued, with the next number; one of
   * content that it has adds none, and re-opens the row exactly if it is rejected, withdrawn, superseded or failed.
   */
  lemma ImportIsNumbered(versions: seq<Version>, d: nat, req: Request)
    ensures var (after, id) := ImportVersion(versions, d, req);
            id < |after| && after[id].documentId == d && after[id].sha == req.sha
            && (forall i | 0 <= i < |versions| && i != id :: after[i] == versions[i])
            && if exists i :: 0 <= i < |versions| && versions[i].documentId == d && versions[i].sha == req.sha then
                 |after| == |versions|
                 && (after[id] != versions[id] <==> versions[id].status in {Rejected, Withdrawn, Superseded, Failed})
                 && (after[id] != versions[id] ==> after[id].status == Queued)
               else
                 |after| == |versions| + 1 && id == |versions| && after[id].status == Queued
                 && IsNextNumber(versions, d, after[id].number)
  {
    LatestIsLargest(versions, d);
    var found := FindContent(versions, d, req.sha);
    if found.Some? && !AlreadyHandled(versions[found.value].status) {
      assert |ImportVersion(versions, d, req).0[found.value].trail| == |versions[found.value].trail| + 1;
    }
  }

  /**
   * What an import writes: a new row with nothing but its content and a first trail row; a row that is re-opened keeps its
   * trail, chunks and dates of publication, and loses error, withdrawal and former submitter.
   */
  lemma ImportWrites(versions: seq<Version>, d: nat, req: Request, name: string, actor: string)
    requires name == (if |req.submitter| > 64 then req.submitter[..64] else req.submitter)
    requires actor == if name == "" then "system" else name
    ensures var (after, id) := ImportVersion(versions, d, req);
            if id == |versions| then
              after[id] == Version(d, after[id].number, req.sha, Queued, 0, None, name, None, None, "", None, "", None,
                                   [Review(Submit, None, Queued, actor, false, name)])
            else
              id < |versions|
              && (after[id] == versions[id]
                  || after[id] == versions[id].(
                       status := Queued, errorCode := None, submittedBy := name, withdrawnAt := None, withdrawnReason := "",
                       trail := versions[id].trail + [Review(Reopen, Some(versions[id].status), Queued, actor, false, name)]))
  {
  }

  lemma ImportKeepsDifferent(versions: seq<Version>, d: nat, req: Request)
    requires DifferentVersions(versions)
    ensures DifferentVersions(ImportVersion(versions, d, req).0)
  {
    ImportIsNumbered(versions, d, req);
    ImportEvolves(versions, d, req);
    var after := ImportVersion(versions, d, req).0;
    assert forall i | 0 <= i < |versions| :: Evolves(versions[i], after[i]);
  }

  lemma SameNamesStayDifferent(before: seq<Version>, after: seq<Version>)
    requires DifferentVersions(before) && |after| == |before| && AllEvolve(before, after)
    ensures DifferentVersions(after)
  {
    assert forall i | 0 <= i < |before| :: Evolves(before[i], after[i]);
  }

  /** A document is found by its key cut to 512 characters, or added under it with the scope and classification asked for. */
  lemma ImportedDocument(documents: seq<Document>, req: Request)
    requires ImportDocument(documents, req).Ok?
    ensures var (after, d) := ImportDocument(documents, req).value;
            d < |after| && after[d].sourceKey == Cut(req.sourceKey, KEY_LIMIT)
            && (forall i | 0 <= i < |documents| && i != d :: after[i] == documents[i])
            && if exists i :: 0 <= i < |documents| && documents[i].sourceKey == Cut(req.sourceKey, KEY_LIMIT) then
                 |after| == |documents| && after[d].scope == documents[d].scope
                 && after[d].classification == (match req.classification case Some(c) => c case None => documents[d].classification)
               else
                 |after| == |documents| + 1 && d == |documents|
                 && after[d].scope == (match req.scope case Some(s) => s case None => PublicScope)
                 && after[d].classification == (match req.classification case Some(c) => c case None => Internal)
  {
  }

  /** When an import is refused: an unknown classification, another scope than the document's, or a lower classification. */
  lemma ImportRefusedIff(documents: seq<Document>, req: Request)
    ensures ImportDocument(documents, req).Error? <==>
              req.classification == Some(Unrecognised)
              || exists i :: IsFirst(documents, Cut(req.sourceKey, KEY_LIMIT), i)
                   && ((req.scope.Some? && req.scope.value != documents[i].scope)
                       || (req.classification.Some? && !NotLower(req.classification.value, documents[i].classification)))
  {
    var key := Cut(req.sourceKey, KEY_LIMIT);
    FindDocumentIsFirst(documents, key);
    var found := FindDocument(documents, key);
    if found.Some? {
      assert forall i :: IsFirst(documents, key, i) <==> i == found.value;
    }
  }

  ghost predicate IsFirst(documents: seq<Document>, key: string, i: int) {
    0 <= i < |documents| && documents[i].sourceKey == key && forall j | 0 <= j < i :: documents[j].sourceKey != key
  }

  lemma {:induction false} FindDocumentIsFirst(documents: seq<Document>, key: string)
    ensures FindDocument(documents, key).Some? ==> IsFirst(documents, key, FindDocument(documents, key).value)
  {
    if documents != [] && documents[0].sourceKey != key {
      FindDocumentIsFirst(documents[1..], key);
      var r := FindDocument(documents[1..], key);
      if r.Some? {
        forall j | 0 <= j < r.value + 1 ensures documents[j].sourceKey != key {
          assert j > 0 ==> documents[j] == documents[1..][j - 1];
        }
      }
    }
  }

  // ----- every run -----

  lemma StepStaysNamed(store: Store, now: int, op: Op)
    requires Named(store)
    ensures Named(Apply(store, now, op))
  {
    var after := Apply(store, now, op);
    StepEvolves(store, now, op);
    if op.OpImport? {
      if ImportDocument(store.documents, op.req).Ok? {
        ImportedDocument(store.documents, op.req);
        ImportKeepsDifferent(store.versions, ImportDocument(store.documents, op.req).value.1, op.req);
      }
    } else {
      SameNumber(store, now, op);
      SameNamesStayDifferent(store.versions, after.versions);
    }
  }

  lemma SameNumber(store: Store, now: int, op: Op)
    requires !op.OpImport?
    ensures |Apply(store, now, op).versions| == |store.versions| && Apply(store, now, op).documents == store.documents
  {
  }

  lemma {:induction false} RunsStayNamed(store: Store, events: seq<Event>)
    requires Named(store)
    ensures Named(Run(store, events))
    decreases |events|
  {
    if events != [] {
      StepStaysNamed(store, events[0].now, events[0].op);
      RunsStayNamed(Apply(store, events[0].now, events[0].op), events[1..]);
    }
  }

  /**
   * In every reachable store a version is found by its document and number, and by its document and content, and
   * nothing else is: what is reviewed, published, withdrawn or rolled back is the version that was named.
   */
  lemma NamesFindTheirVersion(events: seq<Event>, i: nat)
    requires i < |Run(EMPTY, events).versions|
    ensures var versions := Run(EMPTY, events).versions;
            FindVersion(versions, versions[i].documentId, versions[i].number) == Some(i)
            && FindContent(versions, versions[i].documentId, versions[i].sha) == Some(i)
  {
    RunsStayNamed(EMPTY, events);
    FindsItself(Run(EMPTY, events).versions, i);
  }

  lemma FindsItself(versions: seq<Version>, i: nat)
    requires DifferentVersions(versions) && i < |versions|
    ensures FindVersion(versions, versions[i].documentId, versions[i].number) == Some(i)
    ensures FindContent(versions, versions[i].documentId, versions[i].sha) == Some(i)
  {
    var v := versions[i];
    var byNumber, byContent := FindVersion(versions, v.documentId, v.number), FindContent(versions, v.documentId, v.sha);
    assert byNumber.Some? && versions[byNumber.value].number == v.number;
    assert byContent.Some? && versions[byContent.value].sha == v.sha;
  }

  lemma KeysFindTheirDocument(events: seq<Event>, i: nat)
    requires i < |Run(EMPTY, events).documents|
    ensures var documents := Run(EMPTY, events).documents;
            FindDocument(documents, documents[i].sourceKey) == Some(i)
  {
    RunsStayNamed(EMPTY, events);
  }
}
