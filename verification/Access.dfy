/** backend/database.py, lines 1872-1888: who may read what, in terms of scope, clearance and access entries. */
module Access {
  import opened Text
  import opened Lists
  import opened TextIndex
  import opened Search
  import opened SearchSafety
  import opened Rerank
  import opened Retrieval

  /** The caller is cleared for the classification: it is public or internal, or the caller may read confidential ones. */
  predicate IsCleared(classification: string, caller: Caller) {
    caller.allowConfidential || Lower(Strip(classification)) == "public" || Lower(Strip(classification)) == "internal"
  }

  /** The entry is for this caller: its user by name, or one of its roles, groups or departments. */
  ghost predicate IsFor(e: AclEntry, caller: Caller) {
    match e.kind
    case UserPrincipal => e.principal == Lower(caller.subject)
    case RolePrincipal => exists role :: role in caller.roles && e.principal == Lower(role)
    case GroupPrincipal => e.principal in caller.groups
    case DepartmentPrincipal => e.principal in caller.departments
  }

  ghost predicate HasEntry(documentId: nat, caller: Caller, acl: set<AclEntry>) {
    exists e :: e in acl && e.documentId == documentId && IsFor(e, caller)
  }

  lemma EntryGrants(documentId: nat, caller: Caller, acl: set<AclEntry>, e: AclEntry)
    requires e in acl && e.documentId == documentId && IsFor(e, caller)
    ensures AclEntry(documentId, UserPrincipal, Lower(caller.subject)) in acl
            || (exists r :: r in caller.roles && AclEntry(documentId, RolePrincipal, Lower(r)) in acl)
            || (exists g :: g in caller.groups && AclEntry(documentId, GroupPrincipal, g) in acl)
            || (exists p :: p in caller.departments && AclEntry(documentId, DepartmentPrincipal, p) in acl)
  {
    assert e == AclEntry(documentId, e.kind, e.principal);
  }

  lemma AllowedIff(d: DocumentInfo, caller: Caller, acl: set<AclEntry>)
    ensures Allowed(d, caller, acl) <==>
              IsCleared(d.classification, caller) && (d.accessScope == "public" || HasEntry(d.id, caller, acl))
  {
    if e :| e in acl && e.documentId == d.id && IsFor(e, caller) {
      EntryGrants(d.id, caller, acl, e);
    }
    if AclEntry(d.id, UserPrincipal, Lower(caller.subject)) in acl {
      assert IsFor(AclEntry(d.id, UserPrincipal, Lower(caller.subject)), caller);
    }
    if r :| r in caller.roles && AclEntry(d.id, RolePrincipal, Lower(r)) in acl {
      assert IsFor(AclEntry(d.id, RolePrincipal, Lower(r)), caller);
    }
    if g :| g in caller.groups && AclEntry(d.id, GroupPrincipal, g) in acl {
      assert IsFor(AclEntry(d.id, GroupPrincipal, g), caller);
    }
    if p :| p in caller.departments && AclEntry(d.id, DepartmentPrincipal, p) in acl {
      assert IsFor(AclEntry(d.id, DepartmentPrincipal, p), caller);
    }
  }

  /**
   * A row is visible exactly when it is indexed, its classification is cleared for the caller, and its document is
   * public or has an access entry for the caller.
   */
  lemma VisibleIff(corpus: Corpus, caller: Caller, row: ChunkRow)
    ensures row in Visible(corpus, caller) <==>
              row in corpus.rows && row.indexed && IsCleared(row.document.classification, caller)
              && (row.document.accessScope == "public" || HasEntry(row.document.id, caller, corpus.acl))
  {
    VisibleMember(corpus, caller, row);
    AllowedIff(row.document, caller, corpus.acl);
  }

  /** Without an entry for the caller nobody sees a document that is not public, whoever else has entries. */
  lemma NoEntryNoAccess(corpus: Corpus, caller: Caller, row: ChunkRow)
    requires row.document.accessScope != "public"
    requires forall e | e in corpus.acl && e.documentId == row.document.id :: !IsFor(e, caller)
    ensures row !in Visible(corpus, caller)
  {
    VisibleIff(corpus, caller, row);
  }

  /** A name grants nothing under another kind: a user, role, group and department of one name are four principals. */
  lemma KindsAreApart(documentId: nat, name: string, kind: PrincipalKind, caller: Caller)
    requires HasEntry(documentId, caller, {AclEntry(documentId, kind, name)})
    ensures match kind
            case UserPrincipal => Lower(caller.subject) == name
            case RolePrincipal => exists role :: role in caller.roles && Lower(role) == name
            case GroupPrincipal => name in caller.groups
            case DepartmentPrincipal => name in caller.departments
  {
  }

  /** Each kind alone suffices. */
  lemma EachKindSuffices(corpus: Corpus, caller: Caller, row: ChunkRow, name: string)
    requires row in corpus.rows && row.indexed && IsCleared(row.document.classification, caller)
    ensures AclEntry(row.document.id, UserPrincipal, Lower(caller.subject)) in corpus.acl ==> row in Visible(corpus, caller)
    ensures name in caller.roles && AclEntry(row.document.id, RolePrincipal, Lower(name)) in corpus.acl ==>
              row in Visible(corpus, caller)
    ensures name in caller.groups && AclEntry(row.document.id, GroupPrincipal, name) in corpus.acl ==>
              row in Visible(corpus, caller)
    ensures name in caller.departments && AclEntry(row.document.id, DepartmentPrincipal, name) in corpus.acl ==>
              row in Visible(corpus, caller)
  {
    VisibleIff(corpus, caller, row);
    assert IsFor(AclEntry(row.document.id, UserPrincipal, Lower(caller.subject)), caller);
    assert name in caller.roles ==> IsFor(AclEntry(row.document.id, RolePrincipal, Lower(name)), caller);
    assert name in caller.groups ==> IsFor(AclEntry(row.document.id, GroupPrincipal, name), caller);
    assert name in caller.departments ==> IsFor(AclEntry(row.document.id, DepartmentPrincipal, name), caller);
  }

  /** Whatever a retrieval returns, the caller is cleared for it, and it is public or has an entry for the caller. */
  lemma ResultsAreGranted(settings: Settings, corpus: Corpus, caller: Caller, question: string,
        vector: Option<Vector>, maths: Maths, r: Hit)
    requires r in Retrieve(settings, corpus, caller, question, vector, maths)
    ensures r.row in corpus.rows && r.row.indexed && IsCleared(r.row.document.classification, caller)
            && (r.row.document.accessScope == "public" || HasEntry(r.row.document.id, caller, corpus.acl))
  {
    ResultsAreVisible(settings, corpus, caller, question, vector, maths, r);
    AllowedIff(r.row.document, caller, corpus.acl);
  }
}
