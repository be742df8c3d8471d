/** What a caller can learn from the search, and what the search finds. */
module SearchSafety {
  import opened Text
  import opened Lists
  import opened TextIndex
  import opened RankFusion
  import opened Search

  // ----- access -----

  lemma VisibleMember(corpus: Corpus, caller: Caller, row: ChunkRow)
    ensures row in Visible(corpus, caller) <==>
              row in corpus.rows && row.indexed && Allowed(row.document, caller, corpus.acl)
  {
    FilterMember(Sees(caller, corpus.acl), corpus.rows, row);
  }

  /** h is the hit of a row from i on. */
  ghost predicate IsHitFrom(rows: seq<ChunkRow>, lexical: seq<real>, semantic: seq<real>, i: nat, h: Hit)
    requires |rows| == |lexical| == |semantic|
  {
    exists k: nat :: i <= k < |rows| && IsHitAt(rows, lexical, semantic, k, h)
  }

  predicate IsHitAt(rows: seq<ChunkRow>, lexical: seq<real>, semantic: seq<real>, k: nat, h: Hit)
    requires k < |rows| == |lexical| == |semantic|
  {
    Kept(lexical, semantic, k) && h == HitAt(rows, lexical, semantic, k)
  }

  lemma FirstHitOrLater(rows: seq<ChunkRow>, lexical: seq<real>, semantic: seq<real>, i: nat, h: Hit)
    requires i < |rows| == |lexical| == |semantic|
    ensures h in HitsFrom(rows, lexical, semantic, i) <==>
              IsHitAt(rows, lexical, semantic, i, h) || h in HitsFrom(rows, lexical, semantic, i + 1)
  {
  }

  lemma {:induction false} HitsComeFromRows(rows: seq<ChunkRow>, lexical: seq<real>, semantic: seq<real>,
        i: nat, h: Hit)
    requires i <= |rows| == |lexical| == |semantic|
    ensures h in HitsFrom(rows, lexical, semantic, i) <==> IsHitFrom(rows, lexical, semantic, i, h)
    decreases |rows| - i
  {
    if i < |rows| {
      HitsComeFromRows(rows, lexical, semantic, i + 1, h);
      FirstHitOrLater(rows, lexical, semantic, i, h);
      HitFromStep(rows, lexical, semantic, i, h);
    }
  }

  lemma HitFromStep(rows: seq<ChunkRow>, lexical: seq<real>, semantic: seq<real>, i: nat, h: Hit)
    requires i < |rows| == |lexical| == |semantic|
    ensures IsHitFrom(rows, lexical, semantic, i, h) <==>
              IsHitAt(rows, lexical, semantic, i, h) || IsHitFrom(rows, lexical, semantic, i + 1, h)
  {
    if k: nat :| i <= k < |rows| && IsHitAt(rows, lexical, semantic, k, h) {
      assert k > i ==> IsHitFrom(rows, lexical, semantic, i + 1, h);
    }
  }

  lemma TakeMember<T>(xs: seq<T>, n: nat, x: T)
    ensures x in Take(xs, n) ==> x in xs
    ensures |Take(xs, n)| <= n
  {
  }

  /** Every hit is a chunk of an indexed version of a document this caller is allowed to read. */
  lemma HitsAreVisible(corpus: Corpus, caller: Caller, query: string, embedding: Vector, limit: nat,
        maths: Maths, h: Hit)
    requires h in HybridSearch(corpus, caller, query, embedding, limit, maths)
    ensures h.row in corpus.rows && h.row.indexed && Allowed(h.row.document, caller, corpus.acl)
  {
    var rows := Visible(corpus, caller);
    var lexical := LexicalScores(rows, LexicalTerms(query), maths);
    var semantic := SemanticScores(rows, embedding, maths);
    var results := HitsFrom(rows, lexical, semantic, 0);
    TakeMember(SortDesc(results, ByScore()), limit, h);
    SortMember(results, ByScore(), h);
    HitsComeFromRows(rows, lexical, semantic, 0, h);
    VisibleMember(corpus, caller, h.row);
  }

  /** Rows this caller may not read, inserted anywhere, change nothing about what exists for the caller. */
  lemma HiddenRowsAreInvisible(before: seq<ChunkRow>, hidden: seq<ChunkRow>, after: seq<ChunkRow>,
                               acl: set<AclEntry>, acl': set<AclEntry>, caller: Caller)
    requires forall row | row in hidden :: !Sees(caller, acl')(row)
    requires forall row | row in before + after :: Sees(caller, acl)(row) == Sees(caller, acl')(row)
    ensures Visible(Corpus(before + hidden + after, acl'), caller) == Visible(Corpus(before + after, acl), caller)
  {
    FilterIgnores(Sees(caller, acl), Sees(caller, acl'), before, hidden, after);
  }

  /** The same subject with at least the roles, groups, departments and clearance. */
  predicate CanMore(more: Caller, caller: Caller) {
    && more.subject == caller.subject && caller.roles <= more.roles
    && caller.groups <= more.groups && caller.departments <= more.departments
    && (caller.allowConfidential ==> more.allowConfidential)
  }

  lemma AllowedGrows(d: DocumentInfo, caller: Caller, more: Caller, acl: set<AclEntry>, acl': set<AclEntry>)
    requires CanMore(more, caller) && acl <= acl' && Allowed(d, caller, acl)
    ensures Allowed(d, more, acl')
  {
  }

  /**
   * Roles, groups, departments, clearance and access entries only ever add documents: what was readable is what
   * the smaller identity picks from the larger view, with nothing lost or moved.
   */
  lemma AccessOnlyAdds(rows: seq<ChunkRow>, caller: Caller, more: Caller, acl: set<AclEntry>, acl': set<AclEntry>)
    requires CanMore(more, caller) && acl <= acl'
    ensures Visible(Corpus(rows, acl), caller) == Filter(Sees(caller, acl), Visible(Corpus(rows, acl'), more))
  {
    forall row: ChunkRow | Sees(caller, acl)(row) ensures Sees(more, acl')(row) {
      AllowedGrows(row.document, caller, more, acl, acl');
    }
    FilterFilter(Sees(caller, acl), Sees(more, acl'), rows);
  }

  /** No role, group, department or access entry replaces clearance. */
  lemma NothingReplacesClearance(corpus: Corpus, caller: Caller, row: ChunkRow)
    requires !caller.allowConfidential && row in Visible(corpus, caller)
    ensures IsOpen(row.document.classification)
  {
    VisibleMember(corpus, caller, row);
  }

  // ----- what is found -----

  lemma TermScorePositive(rows: seq<ChunkRow>, row: ChunkRow, term: string, maths: Maths)
    requires maths.Sane()
    ensures TermScore(rows, row, term, maths) >= 0.0
    ensures TermScore(rows, row, term, maths) > 0.0 <==> term in Words(row)
  {
    CountPositive(Words(row), term);
    if Count(Words(row), term) > 0 {
      var weight := maths.ln(Rarity(|rows|, DocumentFrequency(rows, term)));
      var saturation := Saturation(Count(Words(row), term), |Words(row)|, AverageLength(rows));
      assert weight > 0.0 && saturation > 0.0;
      assert weight * saturation > 0.0;
    }
  }

  lemma {:induction false} LexicalScorePositive(rows: seq<ChunkRow>, row: ChunkRow, terms: seq<string>, maths: Maths)
    requires maths.Sane()
    ensures LexicalScore(rows, row, terms, maths) >= 0.0
    ensures LexicalScore(rows, row, terms, maths) > 0.0 <==> exists t :: t in terms && t in Words(row)
  {
    if terms != [] {
      TermScorePositive(rows, row, terms[0], maths);
      LexicalScorePositive(rows, row, terms[1..], maths);
      if t :| t in terms && t in Words(row) {
        assert t == terms[0] || t in terms[1..];
      }
      assert forall t | t in terms[1..] :: t in terms;
    }
  }

  /** A row stored as the indexer stores it. */
  ghost predicate StoredAs(row: ChunkRow) {
    row.searchText == LexicalText(row.heading + " " + row.content)
  }

  /**
   * A stored chunk is a lexical match exactly when its heading or content shares a term with the query:
   * the weight never hides a match, not even of a term that every chunk contains.
   */
  lemma MatchesIffSharedTerm(rows: seq<ChunkRow>, row: ChunkRow, query: string, maths: Maths)
    requires maths.Sane() && StoredAs(row)
    ensures LexicalScore(rows, row, LexicalTerms(query), maths) > 0.0 <==>
              exists t :: t in LexicalTerms(query) && t in LexicalTerms(row.heading + " " + row.content)
  {
    SearchTextSplitsBack(row.heading + " " + row.content);
    LexicalScorePositive(rows, row, LexicalTerms(query), maths);
  }

  /** Hits come best first, and each of their scores lies in (0, 2/61]. */
  lemma HitsAreRanked(corpus: Corpus, caller: Caller, query: string, embedding: Vector, limit: nat, maths: Maths)
    ensures var hits := HybridSearch(corpus, caller, query, embedding, limit, maths);
            |hits| <= limit
            && (forall i, j | 0 <= i < j < |hits| :: hits[i].score >= hits[j].score)
            && (forall h | h in hits :: 0.0 < h.score <= 2.0 / 61.0)
  {
    var rows := Visible(corpus, caller);
    var lexical := LexicalScores(rows, LexicalTerms(query), maths);
    var semantic := SemanticScores(rows, embedding, maths);
    var results := HitsFrom(rows, lexical, semantic, 0);
    var sorted := SortDesc(results, ByScore());
    SortFacts(results, ByScore());
    var hits := Take(sorted, limit);
    forall h | h in hits ensures 0.0 < h.score <= 2.0 / 61.0 {
      TakeMember(sorted, limit, h);
      SortMember(results, ByScore(), h);
      HitsComeFromRows(rows, lexical, semantic, 0, h);
      var k: nat :| k < |rows| && IsHitAt(rows, lexical, semantic, k, h);
      FusedIsBounded(lexical, semantic, k);
    }
    forall i, j | 0 <= i < j < |hits| ensures hits[i].score >= hits[j].score {
      assert ByScore()(sorted[i]) >= ByScore()(sorted[j]);
    }
  }
}
