/** backend/retrieval.py, lines 61-97: what the list that a retrieval returns looks like. */
module Results {
  import opened Text
  import opened Lists
  import opened TextIndex
  import opened Search
  import opened SearchSafety
  import opened Rerank
  import opened Retrieval

  // ----- no repeats -----

  /** The same document, and headings that differ in case and surrounding white space at most. */
  predicate Alike(a: ChunkRow, b: ChunkRow) {
    a.document.sourceKey == b.document.sourceKey && Lower(Strip(a.heading)) == Lower(Strip(b.heading))
  }

  /** No two results are alike. */
  lemma NoTwoAlike(settings: Settings, corpus: Corpus, caller: Caller, question: string, vector: Option<Vector>, maths: Maths)
    ensures var results := Retrieve(settings, corpus, caller, question, vector, maths);
            |results| <= settings.topK
            && forall i, j | 0 <= i < j < |results| :: !Alike(results[i].row, results[j].row)
  {
    var results := Retrieve(settings, corpus, caller, question, vector, maths);
    if HasIndexedChunks(corpus) {
      ResultsAreDistinct(settings, question, Candidates(corpus, caller, question, vector, CandidateLimit(settings), maths), maths);
      forall i, j | 0 <= i < j < |results| ensures !Alike(results[i].row, results[j].row) {
        assert ByKey()(results[i]) != ByKey()(results[j]);
      }
    }
  }

  // ----- title blocks -----

  /** Of the same document, b is more than a title block and a is not. */
  predicate Outranks(b: Hit, a: Hit) {
    a.row.isTitleBlock && !b.row.isTitleBlock && a.row.document.sourceKey == b.row.document.sourceKey
  }

  lemma PartOf(hits: seq<Hit>, i: nat)
    requires i < |Reordered(hits)|
    ensures i < |Leading(hits)| <==> Leads(hits)(Reordered(hits)[i])
    ensures Reordered(hits)[i] in hits
  {
    var h := Reordered(hits)[i];
    assert if i < |Leading(hits)| then h in Leading(hits) else h in Trailing(hits);
    LeadingMember(hits, h);
  }

  /**
   * A title block comes after everything of its document that is more than that, and behind a title block that was moved
   * back for it nothing comes but others that were.
   */
  lemma SubstanceComesFirst(hits: seq<Hit>, n: nat, i: nat, k: nat)
    requires i < |Take(Reordered(hits), n)| && k < |hits| && Outranks(hits[k], Take(Reordered(hits), n)[i])
    ensures var shown := Take(Reordered(hits), n);
            (forall j | 0 <= j < |shown| && Outranks(shown[j], shown[i]) :: j < i)
            && forall j | i <= j < |shown| :: exists b :: b in hits && Outranks(b, shown[j])
  {
    var shown := Take(Reordered(hits), n);
    PartOf(hits, i);
    assert HasSubstance(hits, SourceOf(shown[i]));
    forall j | 0 <= j < |shown| && Outranks(shown[j], shown[i]) ensures j < i {
      PartOf(hits, j);
    }
    forall j | i <= j < |shown| ensures exists b :: b in hits && Outranks(b, shown[j]) {
      PartOf(hits, j);
      var b :| b in hits && !b.row.isTitleBlock && SourceOf(b) == SourceOf(shown[j]);
      assert Outranks(b, shown[j]);
    }
  }

  lemma OutrankingComesFirst(hits: seq<Hit>, n: nat, i: nat, j: nat)
    requires var shown := Take(Reordered(hits), n);
             i < |shown| && j < |shown| && Outranks(shown[j], shown[i])
    ensures j < i
  {
    PartOf(hits, j);
    var k :| 0 <= k < |hits| && hits[k] == Reordered(hits)[j];
    SubstanceComesFirst(hits, n, i, k);
  }

  /** So among the results of a retrieval: whatever outranks a title block comes before it. */
  lemma TitleBlocksComeLast(settings: Settings, corpus: Corpus, caller: Caller, question: string, vector: Option<Vector>,
        maths: Maths, i: nat, j: nat)
    requires var results := Retrieve(settings, corpus, caller, question, vector, maths);
             i < |results| && j < |results| && Outranks(results[j], results[i])
    ensures j < i
  {
    var candidates := Candidates(corpus, caller, question, vector, CandidateLimit(settings), maths);
    OutrankingComesFirst(Dedupe(Ordered(settings, question, candidates, maths)), settings.topK, i, j);
  }

  // ----- order -----

  /** Of any two elements, the earlier one comes before the later one in the sense of r. */
  ghost predicate InOrderOf<T>(r: (T, T) -> bool, xs: seq<T>) {
    forall i, j | 0 <= i < j < |xs| :: r(xs[i], xs[j])
  }

  lemma InOrderMember<T>(r: (T, T) -> bool, xs: seq<T>, y: T)
    requires xs != [] && InOrderOf(r, xs) && y in xs[1..]
    ensures r(xs[0], y)
  {
    var k :| 0 <= k < |xs[1..]| && xs[1..][k] == y;
    assert xs[k + 1] == y;
  }

  lemma InOrderTail<T>(r: (T, T) -> bool, xs: seq<T>)
    requires xs != [] && InOrderOf(r, xs)
    ensures InOrderOf(r, xs[1..])
  {
    assert forall k | 0 <= k < |xs| - 1 :: xs[1..][k] == xs[k + 1];
  }

  lemma PrependOrder<T>(r: (T, T) -> bool, x: T, rest: seq<T>)
    requires InOrderOf(r, rest) && forall y | y in rest :: r(x, y)
    ensures InOrderOf(r, [x] + rest)
  {
  }

  lemma {:induction false} FilterKeepsOrder<T>(r: (T, T) -> bool, p: T -> bool, xs: seq<T>)
    requires InOrderOf(r, xs)
    ensures InOrderOf(r, Filter(p, xs))
  {
    if xs != [] {
      InOrderTail(r, xs);
      FilterKeepsOrder(r, p, xs[1..]);
      forall y | y in Filter(p, xs[1..]) ensures r(xs[0], y) {
        FilterMember(p, xs[1..], y);
        InOrderMember(r, xs, y);
      }
      PrependOrder(r, xs[0], Filter(p, xs[1..]));
    }
  }

  lemma AppendOrder<T>(r: (T, T) -> bool, front: seq<T>, x: T)
    requires InOrderOf(r, front) && forall y | y in front :: r(y, x)
    ensures InOrderOf(r, front + [x])
  {
  }

  lemma {:induction false} FirstsKeepOrder<T, K>(r: (T, T) -> bool, key: T -> K, xs: seq<T>, n: nat)
    requires InOrderOf(r, xs) && n <= |xs|
    ensures InOrderOf(r, Firsts(key, xs, n))
  {
    if n > 0 {
      FirstsKeepOrder(r, key, xs, n - 1);
      var front, x := Firsts(key, xs, n - 1), xs[n - 1];
      forall y | y in front ensures r(y, x) {
        SurvivorsAreFirst(key, xs, n - 1, y);
      }
      AppendOrder(r, front, x);
    }
  }

  /** Dropping repeats and moving title blocks back keeps, within both parts, whatever order the candidates were in. */
  lemma PartsKeepOrder(r: (Hit, Hit) -> bool, hits: seq<Hit>)
    requires InOrderOf(r, hits)
    ensures InOrderOf(r, Leading(Dedupe(hits))) && InOrderOf(r, Trailing(Dedupe(hits)))
  {
    FirstsKeepOrder(r, ByKey(), hits, |hits|);
    FilterKeepsOrder(r, Leads(Dedupe(hits)), Dedupe(hits));
    FilterKeepsOrder(r, Trails(Dedupe(hits)), Dedupe(hits));
  }

  function NoWorse(): (Hit, Hit) -> bool {
    (a: Hit, b: Hit) => a.score >= b.score
  }

  lemma LeadersInOrder(r: (Hit, Hit) -> bool, hits: seq<Hit>, n: nat, i: nat, j: nat)
    requires InOrderOf(r, hits)
    requires var shown := Take(Reordered(Dedupe(hits)), n);
             i < j < |shown| && !shown[i].row.isTitleBlock && !shown[j].row.isTitleBlock
    ensures var shown := Take(Reordered(Dedupe(hits)), n);
            r(shown[i], shown[j])
  {
    PartsKeepOrder(r, hits);
    PartOf(Dedupe(hits), i);
    PartOf(Dedupe(hits), j);
    var leading := Leading(Dedupe(hits));
    assert r(leading[i], leading[j]);
  }

  lemma SearchDescends(corpus: Corpus, caller: Caller, question: string, vector: Vector, limit: nat, maths: Maths)
    ensures InOrderOf(NoWorse(), HybridSearch(corpus, caller, question, vector, limit, maths))
  {
    HitsAreRanked(corpus, caller, question, vector, limit, maths);
  }

  /** Without a reranker, of two results that are more than title blocks the better one comes first. */
  lemma BetterComesFirst(settings: Settings, corpus: Corpus, caller: Caller, question: string, vector: Vector, maths: Maths,
        i: nat, j: nat)
    requires settings.reranker.None?
    requires var results := Retrieve(settings, corpus, caller, question, Some(vector), maths);
             i < j < |results| && !results[i].row.isTitleBlock && !results[j].row.isTitleBlock
    ensures var results := Retrieve(settings, corpus, caller, question, Some(vector), maths);
            results[i].score >= results[j].score
  {
    var hits := HybridSearch(corpus, caller, question, vector, CandidateLimit(settings), maths);
    SearchDescends(corpus, caller, question, vector, CandidateLimit(settings), maths);
    LeadersInOrder(NoWorse(), hits, settings.topK, i, j);
  }
}
