/** backend/retrieval.py: search, rerank, drop repeated headings, demote title blocks, cut. */
module Retrieval {
  import opened Text
  import opened Lists
  import opened TextIndex
  import opened Search
  import opened SearchSafety
  import opened Rerank

  /** The fixed part of a retriever. */
  datatype Settings = Settings(topK: nat, reranker: Option<Reranker>, rerankLimit: nat)

  datatype Key = Key(source: string, heading: string)

  function SourceOf(h: Hit): string {
    h.row.document.sourceKey
  }

  function ByKey(): Hit -> Key {
    (h: Hit) => Key(SourceOf(h), Lower(Strip(h.row.heading)))
  }

  /** Drop later chunks of the same source and heading. */
  function Dedupe(hits: seq<Hit>): seq<Hit> {
    Firsts(ByKey(), hits, |hits|)
  }

  /** What survives is the best-ranked hit of each key: no key twice, no key lost, and nothing ahead of it with its key. */
  lemma DedupeKeepsTheBest(hits: seq<Hit>)
    ensures Distinct(ByKey(), Dedupe(hits))
    ensures forall h | h in hits :: exists d :: d in Dedupe(hits) && ByKey()(d) == ByKey()(h)
    ensures forall d :: d in Dedupe(hits) <==> exists i: nat :: i < |hits| && hits[i] == d && !Repeats(ByKey(), hits, i)
  {
    KeysAreDistinct(ByKey(), hits, |hits|);
    forall h | h in hits ensures exists d :: d in Dedupe(hits) && ByKey()(d) == ByKey()(h) {
      var i :| 0 <= i < |hits| && hits[i] == h;
      EveryKeySurvives(ByKey(), hits, |hits|, i);
    }
    forall d ensures d in Dedupe(hits) <==> exists i: nat :: i < |hits| && hits[i] == d && !Repeats(ByKey(), hits, i) {
      SurvivorsAreFirst(ByKey(), hits, |hits|, d);
    }
  }

  // ----- demote title-only blocks -----

  /** Some hit of this source is more than a title block. */
  predicate HasSubstance(hits: seq<Hit>, source: string) {
    exists h :: h in hits && !h.row.isTitleBlock && SourceOf(h) == source
  }

  function Leads(hits: seq<Hit>): Hit -> bool {
    (h: Hit) => !h.row.isTitleBlock || !HasSubstance(hits, SourceOf(h))
  }

  function Trails(hits: seq<Hit>): Hit -> bool {
    (h: Hit) => h.row.isTitleBlock && HasSubstance(hits, SourceOf(h))
  }

  function Leading(hits: seq<Hit>): seq<Hit> {
    Filter(Leads(hits), hits)
  }

  function Trailing(hits: seq<Hit>): seq<Hit> {
    Filter(Trails(hits), hits)
  }

  function Reordered(hits: seq<Hit>): seq<Hit> {
    Leading(hits) + Trailing(hits)
  }

  lemma LeadingMember(hits: seq<Hit>, h: Hit)
    ensures h in Leading(hits) <==> h in hits && Leads(hits)(h)
    ensures h in Trailing(hits) <==> h in hits && !Leads(hits)(h)
  {
    FilterMember(Leads(hits), hits, h);
    FilterMember(Trails(hits), hits, h);
  }

  /** Reordering neither loses nor doubles a hit. */
  lemma ReorderPermutes(hits: seq<Hit>)
    ensures multiset(Reordered(hits)) == multiset(hits)
    ensures forall h :: h in Reordered(hits) <==> h in hits
  {
    FilterSplits(Leads(hits), Trails(hits), hits);
    forall h ensures h in Reordered(hits) <==> h in hits {
      LeadingMember(hits, h);
    }
  }

  /** Reordering twice is reordering once: both parts keep their order. */
  lemma ReorderIsIdempotent(hits: seq<Hit>)
    ensures Leading(Reordered(hits)) == Leading(hits) && Trailing(Reordered(hits)) == Trailing(hits)
    ensures Reordered(Reordered(hits)) == Reordered(hits)
  {
    ReorderPermutes(hits);
    var again := Reordered(hits);
    forall h ensures Leads(again)(h) == Leads(hits)(h) && Trails(again)(h) == !Leads(hits)(h) {
      assert HasSubstance(again, SourceOf(h)) == HasSubstance(hits, SourceOf(h));
    }
    forall h | h in Leading(hits) ensures Leads(again)(h) { LeadingMember(hits, h); }
    forall h | h in Trailing(hits) ensures !Leads(again)(h) { LeadingMember(hits, h); }
    FilterConcat(Leads(again), Leading(hits), Trailing(hits));
    FilterAll(Leads(again), Leading(hits));
    FilterNone(Leads(again), Trailing(hits));
    FilterConcat(Trails(again), Leading(hits), Trailing(hits));
    FilterNone(Trails(again), Leading(hits));
    FilterAll(Trails(again), Trailing(hits));
  }

  /** Every source among the hits has a hit in the leading part. */
  lemma EverySourceLeads(hits: seq<Hit>, h: Hit)
    requires h in hits
    ensures exists l :: l in Leading(hits) && SourceOf(l) == SourceOf(h)
  {
    if HasSubstance(hits, SourceOf(h)) {
      var s :| s in hits && !s.row.isTitleBlock && SourceOf(s) == SourceOf(h);
      LeadingMember(hits, s);
    } else {
      LeadingMember(hits, h);
    }
  }

  // ----- one retrieval -----

  function CandidateLimit(settings: Settings): nat {
    if settings.reranker.Some? then Max(settings.topK * 4, settings.rerankLimit) else settings.topK * 4
  }

  predicate HasIndexedChunks(corpus: Corpus) {
    exists row :: row in corpus.rows && row.indexed
  }

  function Zero(): Vector {
    seq(1024, _ => 0.0)
  }

  /** Hybrid search, or lexical search when the question could not be embedded. */
  function Candidates(corpus: Corpus, caller: Caller, question: string, vector: Option<Vector>, limit: nat,
        maths: Maths): seq<Hit> {
    match vector
    case Some(v) => HybridSearch(corpus, caller, question, v, limit, maths)
    case None => LexicalSearch(corpus, caller, question, Zero(), limit, maths)
  }

  function Ordered(settings: Settings, question: string, candidates: seq<Hit>, maths: Maths): seq<Hit> {
    if settings.reranker.Some? && candidates != [] then Reranked(settings.reranker.value, question, candidates, maths)
    else candidates
  }

  function Finish(settings: Settings, question: string, candidates: seq<Hit>, maths: Maths): seq<Hit> {
    Take(Reordered(Dedupe(Ordered(settings, question, candidates, maths))), settings.topK)
  }

  function Retrieve(settings: Settings, corpus: Corpus, caller: Caller, question: string,
        vector: Option<Vector>, maths: Maths): seq<Hit> {
    if !HasIndexedChunks(corpus) then []
    else Finish(settings, question, Candidates(corpus, caller, question, vector, CandidateLimit(settings), maths), maths)
  }

  method RetrieveHits(settings: Settings, corpus: Corpus, caller: Caller, question: string,
        vector: Option<Vector>, maths: Maths)
      returns (hits: seq<Hit>)
    ensures hits == Retrieve(settings, corpus, caller, question, vector, maths)
  {
    if !HasIndexedChunks(corpus) {
      return [];
    }
    var limit := CandidateLimit(settings);
    if vector.None? {
      hits := PortableLexicalSearch(corpus, caller, question, Zero(), limit, maths);
    } else {
      hits := PortableHybridSearch(corpus, caller, question, vector.value, limit, maths);
    }
    if settings.reranker.Some? && hits != [] {
      hits := RerankHits(settings.reranker.value, question, hits, maths);
    }
    var deduped := DropRepeats(ByKey(), hits);
    hits := Take(Leading(deduped) + Trailing(deduped), settings.topK);
  }

  // ----- what one retrieval guarantees -----

  /** Reranking and its annotations keep every candidate's row. */
  lemma OrderedKeepsRows(settings: Settings, question: string, candidates: seq<Hit>, maths: Maths, row: ChunkRow)
    ensures (exists h :: h in Ordered(settings, question, candidates, maths) && h.row == row)
       <==> (exists h :: h in candidates && h.row == row)
  {
    if settings.reranker.Some? && candidates != [] {
      var result := Reranked(settings.reranker.value, question, candidates, maths);
      RerankReorders(settings.reranker.value, question, candidates, maths);
      ReordersKeepsRows(result, candidates, row);
    }
  }

  lemma ReordersKeepsRows(result: seq<Hit>, candidates: seq<Hit>, row: ChunkRow)
    requires Reorders(result, candidates)
    ensures (exists h :: h in result && h.row == row) <==> (exists h :: h in candidates && h.row == row)
  {
    var order: seq<Hit> :| InOrder(result, candidates, order);
    assert forall h :: (h in order <==> h in multiset(order)) && (h in candidates <==> h in multiset(candidates));
    if h :| h in candidates && h.row == row {
      var i :| 0 <= i < |order| && order[i] == h;
      assert result[i].row == row && result[i] in result;
    }
    if h :| h in result && h.row == row {
      var i :| 0 <= i < |result| && result[i] == h;
      assert order[i].row == row && order[i] in order;
    }
  }

  /** At most top-k hits, no two with the same source and heading. */
  lemma ResultsAreDistinct(settings: Settings, question: string, candidates: seq<Hit>, maths: Maths)
    ensures var hits := Finish(settings, question, candidates, maths);
            |hits| <= settings.topK && Distinct(ByKey(), hits)
  {
    var ordered := Ordered(settings, question, candidates, maths);
    var deduped := Dedupe(ordered);
    KeysAreDistinct(ByKey(), ordered, |ordered|);
    PartitionDistinct(ByKey(), Leads(deduped), Trails(deduped), deduped);
  }

  /** Each source among the candidates has a hit that leads the reordered list. */
  lemma SourceLeads(settings: Settings, question: string, candidates: seq<Hit>, maths: Maths, c: Hit)
    requires c in candidates
    ensures exists l :: l in Leading(Dedupe(Ordered(settings, question, candidates, maths))) && SourceOf(l) == SourceOf(c)
  {
    var ordered := Ordered(settings, question, candidates, maths);
    OrderedKeepsRows(settings, question, candidates, maths, c.row);
    var h :| h in ordered && h.row == c.row;
    var i :| 0 <= i < |ordered| && ordered[i] == h;
    EveryKeySurvives(ByKey(), ordered, |ordered|, i);
    var d :| d in Dedupe(ordered) && ByKey()(d) == ByKey()(h);
    EverySourceLeads(Dedupe(ordered), d);
  }

  lemma TakeKeepsFront<T>(front: seq<T>, back: seq<T>, n: nat, x: T)
    requires x in front && |front| <= n
    ensures x in Take(front + back, n)
  {
  }

  /** Room for the leading part means room for every source. */
  lemma RoomMeansEverySource(settings: Settings, question: string, candidates: seq<Hit>, maths: Maths, c: Hit)
    requires c in candidates
    requires |Leading(Dedupe(Ordered(settings, question, candidates, maths)))| <= settings.topK
    ensures exists r :: r in Finish(settings, question, candidates, maths) && SourceOf(r) == SourceOf(c)
  {
    SourceLeads(settings, question, candidates, maths, c);
    var deduped := Dedupe(Ordered(settings, question, candidates, maths));
    var l :| l in Leading(deduped) && SourceOf(l) == SourceOf(c);
    TakeKeepsFront(Leading(deduped), Trailing(deduped), settings.topK, l);
  }

  /**
   * Recall is kept: demoting title blocks never costs a source its place. A demoted block is shown only when
   * every source among the candidates is shown.
   */
  lemma DemotionNeverCostsASource(settings: Settings, question: string, candidates: seq<Hit>, maths: Maths,
        t: Hit, c: Hit)
    requires t in Finish(settings, question, candidates, maths)
    requires Trails(Dedupe(Ordered(settings, question, candidates, maths)))(t)
    requires c in candidates
    ensures exists r :: r in Finish(settings, question, candidates, maths) && SourceOf(r) == SourceOf(c)
  {
    var deduped := Dedupe(Ordered(settings, question, candidates, maths));
    var hits := Finish(settings, question, candidates, maths);
    if |Leading(deduped)| > settings.topK {
      assert hits == Leading(deduped)[..settings.topK];
      LeadingMember(deduped, t);
    } else {
      RoomMeansEverySource(settings, question, candidates, maths, c);
    }
  }

  // ----- access -----

  lemma CandidatesAreVisible(corpus: Corpus, caller: Caller, question: string, vector: Option<Vector>,
        limit: nat, maths: Maths, h: Hit)
    requires h in Candidates(corpus, caller, question, vector, limit, maths)
    ensures h.row in Visible(corpus, caller)
  {
    if vector.Some? {
      HitsAreVisible(corpus, caller, question, vector.value, limit, maths, h);
    } else {
      var wide := HybridSearch(corpus, caller, question, Zero(), Max(limit * 4, 20), maths);
      var lexical := Filter((x: Hit) => x.lexicalRank.Some?, wide);
      TakeMember(SortDesc(lexical, LexicalRankKey()), limit, h);
      SortMember(lexical, LexicalRankKey(), h);
      FilterMember((x: Hit) => x.lexicalRank.Some?, wide, h);
      HitsAreVisible(corpus, caller, question, Zero(), Max(limit * 4, 20), maths, h);
    }
    VisibleMember(corpus, caller, h.row);
  }

  /** Nothing is added on the way from the candidates to the result. */
  lemma ResultsAreCandidates(settings: Settings, question: string, candidates: seq<Hit>, maths: Maths, r: Hit)
    requires r in Finish(settings, question, candidates, maths)
    ensures exists h :: h in candidates && h.row == r.row
  {
    var ordered := Ordered(settings, question, candidates, maths);
    TakeMember(Reordered(Dedupe(ordered)), settings.topK, r);
    ReorderPermutes(Dedupe(ordered));
    SurvivorsAreFirst(ByKey(), ordered, |ordered|, r);
    OrderedKeepsRows(settings, question, candidates, maths, r.row);
  }

  /** Whatever the reranker and the embedding service do: a caller is shown only chunks of indexed versions it may read. */
  lemma ResultsAreVisible(settings: Settings, corpus: Corpus, caller: Caller, question: string,
        vector: Option<Vector>, maths: Maths, r: Hit)
    requires r in Retrieve(settings, corpus, caller, question, vector, maths)
    ensures r.row in corpus.rows && r.row.indexed && Allowed(r.row.document, caller, corpus.acl)
  {
    var candidates := Candidates(corpus, caller, question, vector, CandidateLimit(settings), maths);
    ResultsAreCandidates(settings, question, candidates, maths, r);
    var h :| h in candidates && h.row == r.row;
    CandidatesAreVisible(corpus, caller, question, vector, CandidateLimit(settings), maths, h);
    VisibleMember(corpus, caller, r.row);
  }

  /** A caller who may read nothing gets nothing, whether or not the corpus is empty for others. */
  lemma NothingVisibleNothingFound(settings: Settings, corpus: Corpus, caller: Caller, question: string,
        vector: Option<Vector>, maths: Maths)
    requires Visible(corpus, caller) == []
    ensures Retrieve(settings, corpus, caller, question, vector, maths) == []
  {
  }

  /**
   * Non-interference. Two corpora with the same rows readable by the caller, in the same order, give the same
   * list of hits with the same ranks and scores; only what the caller may read can change an answer.
   */
  lemma OnlyVisibleRowsMatter(settings: Settings, a: Corpus, b: Corpus, caller: Caller, question: string,
        vector: Option<Vector>, maths: Maths)
    requires Visible(a, caller) == Visible(b, caller)
    ensures Retrieve(settings, a, caller, question, vector, maths) == Retrieve(settings, b, caller, question, vector, maths)
  {
    if HasIndexedChunks(a) != HasIndexedChunks(b) {
      if Visible(a, caller) != [] {
        VisibleMember(a, caller, Visible(a, caller)[0]);
        VisibleMember(b, caller, Visible(a, caller)[0]);
        assert false;
      }
      NothingVisibleNothingFound(settings, a, caller, question, vector, maths);
      NothingVisibleNothingFound(settings, b, caller, question, vector, maths);
    }
  }

  /** In particular, rows the caller may not read, inserted anywhere, leave every answer as it was. */
  lemma HiddenRowsDoNotMatter(settings: Settings, before: seq<ChunkRow>, hidden: seq<ChunkRow>, after: seq<ChunkRow>,
                              acl: set<AclEntry>, acl': set<AclEntry>, caller: Caller,
                              question: string, vector: Option<Vector>, maths: Maths)
    requires forall row | row in hidden :: !Sees(caller, acl')(row)
    requires forall row | row in before + after :: Sees(caller, acl)(row) == Sees(caller, acl')(row)
    ensures Retrieve(settings, Corpus(before + hidden + after, acl'), caller, question, vector, maths)
         == Retrieve(settings, Corpus(before + after, acl), caller, question, vector, maths)
  {
    HiddenRowsAreInvisible(before, hidden, after, acl, acl', caller);
    OnlyVisibleRowsMatter(settings, Corpus(before + hidden + after, acl'), Corpus(before + after, acl), caller, question, vector, maths);
  }
}
