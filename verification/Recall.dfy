/** backend/retrieval.py: what a retrieval is sure to find. */
module Recall {
  import opened Text
  import opened Lists
  import opened TextIndex
  import opened RankFusion
  import opened Search
  import opened SearchSafety
  import opened LexicalFallback
  import opened Rerank
  import opened Retrieval

  // ----- relevant rows -----

  /** The row shares a term with the question. */
  ghost predicate SharesTerm(row: ChunkRow, question: string) {
    exists t :: t in LexicalTerms(question) && t in SplitWords(row.searchText)
  }

  /** A match by term, or a similarity of at least 0.35. */
  ghost predicate IsRelevant(row: ChunkRow, question: string, vector: Vector, maths: Maths) {
    SharesTerm(row, question) || maths.cosine(vector, row.embedding) >= 0.35
  }

  function IsKept(lexical: seq<real>, semantic: seq<real>): nat -> bool {
    (i: nat) => i < |lexical| && i < |semantic| && (lexical[i] > 0.0 || semantic[i] >= 0.35)
  }

  /** The rows that become hits, in row order. */
  function KeptRows(lexical: seq<real>, semantic: seq<real>): seq<nat> {
    Filter(IsKept(lexical, semantic), Indices(0, |lexical|))
  }

  function FusedKey(lexical: seq<real>, semantic: seq<real>): nat -> real {
    (i: nat) => if i < |lexical| == |semantic| then Fused(lexical, semantic, i) else 0.0
  }

  /** How many relevant rows come before row i: a larger fused score, or the same in an earlier row. */
  function Ahead(lexical: seq<real>, semantic: seq<real>, i: nat): nat {
    |Filter(BeforeIt(FusedKey(lexical, semantic), i), KeptRows(lexical, semantic))|
  }

  lemma KeptFacts(lexical: seq<real>, semantic: seq<real>)
    ensures Increasing(KeptRows(lexical, semantic))
    ensures forall i: nat :: i in KeptRows(lexical, semantic) <==> i < |lexical| && IsKept(lexical, semantic)(i)
  {
    IndicesFacts(0, |lexical|);
    FilterIncreasing(IsKept(lexical, semantic), Indices(0, |lexical|));
    forall i: nat ensures i in KeptRows(lexical, semantic) <==> i < |lexical| && IsKept(lexical, semantic)(i) {
      FilterMember(IsKept(lexical, semantic), Indices(0, |lexical|), i);
      assert i < |lexical| ==> Indices(0, |lexical|)[i] == i;
    }
  }

  lemma NextKept(lexical: seq<real>, semantic: seq<real>, i: nat)
    requires i < |lexical| == |semantic|
    ensures Filter(IsKept(lexical, semantic), Indices(i, |lexical|))
            == (if Kept(lexical, semantic, i) then [i] else []) + Filter(IsKept(lexical, semantic), Indices(i + 1, |lexical|))
  {
    assert Indices(i, |lexical|) == [i] + Indices(i + 1, |lexical|);
    assert Indices(i, |lexical|)[1..] == Indices(i + 1, |lexical|);
  }

  lemma {:induction false} HitsFromKept(rows: seq<ChunkRow>, lexical: seq<real>, semantic: seq<real>, i: nat)
    requires 0 < |rows| == |lexical| == |semantic| && i <= |rows|
    ensures HitsFrom(rows, lexical, semantic, i)
            == MapSeq(HitOf(rows, lexical, semantic), Filter(IsKept(lexical, semantic), Indices(i, |lexical|)))
    decreases |rows| - i
  {
    if i < |rows| {
      HitsFromKept(rows, lexical, semantic, i + 1);
      var f, rest := HitOf(rows, lexical, semantic), Filter(IsKept(lexical, semantic), Indices(i + 1, |lexical|));
      NextKept(lexical, semantic, i);
      if Kept(lexical, semantic, i) {
        OneHit(rows, lexical, semantic, i);
        MapConcat(f, [i], rest);
        assert HitsFrom(rows, lexical, semantic, i) == MapSeq(f, [i]) + HitsFrom(rows, lexical, semantic, i + 1);
      }
    }
  }

  lemma KeptAsHit(rows: seq<ChunkRow>, lexical: seq<real>, semantic: seq<real>, i: nat)
    requires i < |rows| == |lexical| == |semantic|
    ensures var h := HitOf(rows, lexical, semantic)(i);
            h.row == rows[i] && h.semanticRank == Rank(semantic, i) && ByScore()(h) == FusedKey(lexical, semantic)(i)
  {
    var h := HitOf(rows, lexical, semantic)(i);
    assert h == HitAt(rows, lexical, semantic, i);
  }

  /** The search as a sort and a cut of row numbers. */
  lemma FoundByFusion(rows: seq<ChunkRow>, lexical: seq<real>, semantic: seq<real>, limit: nat)
    requires 0 < |rows| == |lexical| == |semantic|
    ensures Take(SortDesc(HitsFrom(rows, lexical, semantic, 0), ByScore()), limit)
            == MapSeq(HitOf(rows, lexical, semantic),
                      Take(SortDesc(KeptRows(lexical, semantic), FusedKey(lexical, semantic)), limit))
  {
    var f, kept := HitOf(rows, lexical, semantic), KeptRows(lexical, semantic);
    KeptFacts(lexical, semantic);
    HitsFromKept(rows, lexical, semantic, 0);
    forall k | k in kept ensures FusedKey(lexical, semantic)(k) == ByScore()(f(k)) { KeptAsHit(rows, lexical, semantic, k); }
    SortMapped(f, kept, ByScore(), FusedKey(lexical, semantic));
    TakeMapped(f, SortDesc(kept, FusedKey(lexical, semantic)), limit);
  }

  lemma MappedMember<A>(f: nat -> A, xs: seq<nat>, x: nat)
    requires x in xs
    ensures f(x) in MapSeq(f, xs)
  {
    var k :| 0 <= k < |xs| && xs[k] == x;
    assert MapSeq(f, xs)[k] == f(x);
  }

  ghost predicate OnlyAt<A(!new)>(f: nat -> A, xs: seq<nat>, x: nat) {
    forall y: nat | y in xs && f(y) == f(x) :: y == x
  }

  lemma MappedIff<A(!new)>(f: nat -> A, xs: seq<nat>, x: nat)
    requires OnlyAt(f, xs, x)
    ensures f(x) in MapSeq(f, xs) <==> x in xs
  {
    if x in xs {
      MappedMember(f, xs, x);
    }
    if f(x) in MapSeq(f, xs) {
      var k :| 0 <= k < |xs| && MapSeq(f, xs)[k] == f(x);
      assert xs[k] in xs && f(xs[k]) == f(x);
    }
  }

  lemma RankIsOnce(scores: seq<real>, i: nat, j: nat)
    requires i < |scores| && j < |scores| && Rank(scores, i) == Rank(scores, j)
    ensures i == j
  {
    OrderFacts(scores);
    assert i in Order(scores) && j in Order(scores);
  }

  /** The semantic rank tells hits apart. */
  lemma HitIsOnce(rows: seq<ChunkRow>, lexical: seq<real>, semantic: seq<real>, i: nat, j: nat)
    requires |rows| == |lexical| == |semantic| && i < |rows| && j < |rows|
    requires HitOf(rows, lexical, semantic)(i) == HitOf(rows, lexical, semantic)(j)
    ensures i == j
  {
    KeptAsHit(rows, lexical, semantic, i);
    KeptAsHit(rows, lexical, semantic, j);
    RankIsOnce(semantic, i, j);
  }

  lemma CutIsKept(lexical: seq<real>, semantic: seq<real>, limit: nat, x: nat)
    requires x in Take(SortDesc(KeptRows(lexical, semantic), FusedKey(lexical, semantic)), limit)
    ensures x < |lexical|
  {
    KeptFacts(lexical, semantic);
    TakeWithin(SortDesc(KeptRows(lexical, semantic), FusedKey(lexical, semantic)), limit, x);
    SortMember(KeptRows(lexical, semantic), FusedKey(lexical, semantic), x);
  }

  lemma KeptIsCutIff(lexical: seq<real>, semantic: seq<real>, limit: nat, i: nat)
    requires i < |lexical| && IsKept(lexical, semantic)(i)
    ensures i in Take(SortDesc(KeptRows(lexical, semantic), FusedKey(lexical, semantic)), limit) <==> Ahead(lexical, semantic, i) < limit
  {
    KeptFacts(lexical, semantic);
    CutKeepsIff(KeptRows(lexical, semantic), FusedKey(lexical, semantic), limit, i);
  }

  /** A relevant row is found exactly when fewer relevant rows come before it than the limit. */
  lemma RowIsFoundIff(rows: seq<ChunkRow>, lexical: seq<real>, semantic: seq<real>, limit: nat, i: nat)
    requires |rows| == |lexical| == |semantic| && i < |rows| && IsKept(lexical, semantic)(i)
    ensures HitOf(rows, lexical, semantic)(i) in Take(SortDesc(HitsFrom(rows, lexical, semantic, 0), ByScore()), limit)
            <==> Ahead(lexical, semantic, i) < limit
  {
    var f := HitOf(rows, lexical, semantic);
    var found: seq<nat> := Take(SortDesc(KeptRows(lexical, semantic), FusedKey(lexical, semantic)), limit);
    forall y: nat | y in found && f(y) == f(i) ensures y == i {
      CutIsKept(lexical, semantic, limit, y);
      HitIsOnce(rows, lexical, semantic, y, i);
    }
    MappedIff(f, found, i);
    FoundByFusion(rows, lexical, semantic, limit);
    KeptIsCutIff(lexical, semantic, limit, i);
  }

  // ----- scores of visible rows -----

  lemma RelevantIsKept(rows: seq<ChunkRow>, question: string, vector: Vector, maths: Maths, i: nat)
    requires maths.Sane() && i < |rows|
    ensures IsRelevant(rows[i], question, vector, maths) <==>
              IsKept(LexicalScores(rows, LexicalTerms(question), maths), SemanticScores(rows, vector, maths))(i)
    ensures SharesTerm(rows[i], question) <==> LexicalScores(rows, LexicalTerms(question), maths)[i] > 0.0
  {
    LexicalScorePositive(rows, rows[i], LexicalTerms(question), maths);
  }

  // ----- how many candidates are fetched -----

  /** Four times as many as are shown; with a reranker at least as many as it looks at. */
  function Fetched(settings: Settings): nat {
    match settings.reranker
    case None => 4 * settings.topK
    case Some(_) => if settings.rerankLimit > 4 * settings.topK then settings.rerankLimit else 4 * settings.topK
  }

  // ----- from candidates to results -----

  /** The source and the heading without case or surrounding white space. */
  predicate SameHeading(a: ChunkRow, b: ChunkRow) {
    a.document.sourceKey == b.document.sourceKey && Lower(Strip(a.heading)) == Lower(Strip(b.heading))
  }

  /** Every candidate's source and heading are among the hits without repeats. */
  lemma HeadingSurvives(settings: Settings, question: string, candidates: seq<Hit>, maths: Maths, c: Hit)
    requires c in candidates
    ensures exists d :: d in Dedupe(Ordered(settings, question, candidates, maths)) && SameHeading(d.row, c.row)
  {
    var ordered := Ordered(settings, question, candidates, maths);
    OrderedKeepsRows(settings, question, candidates, maths, c.row);
    var h :| h in ordered && h.row == c.row;
    var i :| 0 <= i < |ordered| && ordered[i] == h;
    EveryKeySurvives(ByKey(), ordered, |ordered|, i);
    var d :| d in Dedupe(ordered) && ByKey()(d) == ByKey()(h);
    assert SameHeading(d.row, c.row);
  }

  /** A surviving hit is shown if it leads and the leading part has room, and in any case if all of them have. */
  lemma SurvivorIsShown(settings: Settings, question: string, candidates: seq<Hit>, maths: Maths, d: Hit)
    requires d in Dedupe(Ordered(settings, question, candidates, maths))
    ensures var deduped := Dedupe(Ordered(settings, question, candidates, maths));
            (d in Leading(deduped) && |Leading(deduped)| <= settings.topK) || |deduped| <= settings.topK
            ==> d in Finish(settings, question, candidates, maths)
  {
    var deduped := Dedupe(Ordered(settings, question, candidates, maths));
    ReorderPermutes(deduped);
    if d in Leading(deduped) && |Leading(deduped)| <= settings.topK {
      TakeKeepsFront(Leading(deduped), Trailing(deduped), settings.topK, d);
    }
    if |deduped| <= settings.topK {
      assert |multiset(Reordered(deduped))| == |multiset(deduped)|;
      assert d in Reordered(deduped);
    }
  }

  lemma DedupeNonEmpty(hits: seq<Hit>)
    requires hits != []
    ensures Dedupe(hits) != []
  {
    EveryKeySurvives(ByKey(), hits, |hits|, 0);
  }

  lemma ReorderedNonEmpty(hits: seq<Hit>)
    requires hits != []
    ensures Reordered(hits) != []
  {
    ReorderPermutes(hits);
    assert hits[0] in hits;
    assert hits[0] in Reordered(hits);
  }

  lemma OrderedNonEmpty(settings: Settings, question: string, candidates: seq<Hit>, maths: Maths)
    requires candidates != []
    ensures Ordered(settings, question, candidates, maths) != []
  {
    OrderedKeepsRows(settings, question, candidates, maths, candidates[0].row);
    assert candidates[0] in candidates;
    var h :| h in Ordered(settings, question, candidates, maths) && h.row == candidates[0].row;
  }

  /** Where there is a candidate, something is shown. */
  lemma SomethingIsShown(settings: Settings, question: string, candidates: seq<Hit>, maths: Maths)
    requires settings.topK > 0 && candidates != []
    ensures Finish(settings, question, candidates, maths) != []
  {
    OrderedNonEmpty(settings, question, candidates, maths);
    DedupeNonEmpty(Ordered(settings, question, candidates, maths));
    ReorderedNonEmpty(Dedupe(Ordered(settings, question, candidates, maths)));
  }

  // ----- a question with a vector -----

  /**
   * A readable chunk that is relevant to the question, with fewer relevant chunks before it than are fetched, has its
   * source and heading among the hits without repeats, and they are shown if there is room.
   */
  lemma RelevantRowIsFound(settings: Settings, corpus: Corpus, caller: Caller, question: string, vector: Vector,
        maths: Maths, i: nat) returns (d: Hit)
    requires maths.Sane() && i < |Visible(corpus, caller)|
    requires IsRelevant(Visible(corpus, caller)[i], question, vector, maths)
    requires var rows := Visible(corpus, caller);
             Ahead(LexicalScores(rows, LexicalTerms(question), maths), SemanticScores(rows, vector, maths), i) < Fetched(settings)
    ensures var candidates := Candidates(corpus, caller, question, Some(vector), CandidateLimit(settings), maths);
            var deduped := Dedupe(Ordered(settings, question, candidates, maths));
            SameHeading(d.row, Visible(corpus, caller)[i]) && d in deduped
            && ((d in Leading(deduped) && |Leading(deduped)| <= settings.topK) || |deduped| <= settings.topK ==>
                  d in Retrieve(settings, corpus, caller, question, Some(vector), maths))
  {
    var rows := Visible(corpus, caller);
    var lexical, semantic := LexicalScores(rows, LexicalTerms(question), maths), SemanticScores(rows, vector, maths);
    var candidates := Candidates(corpus, caller, question, Some(vector), CandidateLimit(settings), maths);
    RelevantIsKept(rows, question, vector, maths, i);
    RowIsFoundIff(rows, lexical, semantic, CandidateLimit(settings), i);
    KeptAsHit(rows, lexical, semantic, i);
    var c := HitOf(rows, lexical, semantic)(i);
    HeadingSurvives(settings, question, candidates, maths, c);
    d :| d in Dedupe(Ordered(settings, question, candidates, maths)) && SameHeading(d.row, c.row);
    SurvivorIsShown(settings, question, candidates, maths, d);
    SomeRowIsIndexed(corpus, caller, i);
  }

  lemma SomeRowIsIndexed(corpus: Corpus, caller: Caller, i: nat)
    requires i < |Visible(corpus, caller)|
    ensures HasIndexedChunks(corpus)
  {
    VisibleMember(corpus, caller, Visible(corpus, caller)[i]);
  }

  lemma FirstIsAhead(xs: seq<nat>, key: nat -> real)
    requires Increasing(xs) && xs != []
    ensures exists i :: i in xs && |Filter(BeforeIt(key, i), xs)| == 0
  {
    var sorted := SortDesc(xs, key);
    SortFacts(xs, key);
    SortRanks(xs, key);
    PlaceIsCount(sorted, key, 0);
    SortMember(xs, key, sorted[0]);
    SortCount(BeforeIt(key, sorted[0]), xs, key);
  }

  /** If any readable chunk is relevant, something is found. */
  lemma RelevantMeansResults(settings: Settings, corpus: Corpus, caller: Caller, question: string, vector: Vector,
        maths: Maths, row: ChunkRow)
    requires maths.Sane() && settings.topK > 0
    requires row in Visible(corpus, caller) && IsRelevant(row, question, vector, maths)
    ensures Retrieve(settings, corpus, caller, question, Some(vector), maths) != []
  {
    var rows := Visible(corpus, caller);
    var lexical, semantic := LexicalScores(rows, LexicalTerms(question), maths), SemanticScores(rows, vector, maths);
    var k :| 0 <= k < |rows| && rows[k] == row;
    RelevantIsKept(rows, question, vector, maths, k);
    KeptFacts(lexical, semantic);
    FirstIsAhead(KeptRows(lexical, semantic), FusedKey(lexical, semantic));
    var i :| i in KeptRows(lexical, semantic) && Ahead(lexical, semantic, i) == 0;
    RowIsFoundIff(rows, lexical, semantic, CandidateLimit(settings), i);
    SomeRowIsIndexed(corpus, caller, i);
    SomethingIsShown(settings, question, Candidates(corpus, caller, question, Some(vector), CandidateLimit(settings), maths), maths);
  }

  // ----- a question that could not be embedded -----

  ghost predicate AllRows(xs: seq<nat>, n: nat) {
    forall k | 0 <= k < |xs| :: xs[k] < n
  }

  lemma {:induction false} RanksClimb(lexical: seq<real>, xs: seq<nat>, q: nat)
    requires InRankOrder(xs, ScoreAt(lexical)) && q < |xs| && AllRows(xs, |lexical|)
    ensures Rank(lexical, xs[q]) >= q + 1
  {
    if q > 0 {
      RanksClimb(lexical, xs, q - 1);
      RankAfter(lexical, xs[q - 1], xs[q]);
    }
  }

  lemma RankAfter(lexical: seq<real>, i: nat, j: nat)
    requires i < |lexical| && j < |lexical| && Before(ScoreAt(lexical), i, j)
    ensures Rank(lexical, i) < Rank(lexical, j)
  {
    RankOrder(lexical, i, j);
  }

  /** The matches that the cut keeps. */
  function CutRows(lexical: seq<real>, limit: nat): seq<nat> {
    Take(SortDesc(Matches(lexical), CutScore(lexical)), Width(limit))
  }

  lemma CutMember(lexical: seq<real>, limit: nat, x: nat)
    requires x in CutRows(lexical, limit)
    ensures x < |lexical|
  {
    MatchFacts(lexical);
    TakeWithin(SortDesc(Matches(lexical), CutScore(lexical)), Width(limit), x);
    SortMember(Matches(lexical), CutScore(lexical), x);
  }

  lemma CutIsDistinct(lexical: seq<real>, limit: nat)
    ensures NoRepeat(CutRows(lexical, limit))
  {
    MatchFacts(lexical);
    SortNoRepeat(Matches(lexical), CutScore(lexical));
    assert CutRows(lexical, limit) <= SortDesc(Matches(lexical), CutScore(lexical));
  }

  lemma RankedRows(lexical: seq<real>, cut: seq<nat>)
    requires NoRepeat(cut) && forall x: nat | x in cut :: x < |lexical|
    ensures InRankOrder(SortDesc(cut, ByRank(lexical)), ScoreAt(lexical))
    ensures AllRows(SortDesc(cut, ByRank(lexical)), |lexical|)
  {
    var part := SortDesc(cut, ByRank(lexical));
    SortedByRank(lexical, cut);
    forall k: nat | k < |part| ensures part[k] < |lexical| {
      var x: nat := part[k];
      SortMember(cut, ByRank(lexical), x);
    }
  }

  lemma EarlyIsTaken(lexical: seq<real>, part: seq<nat>, limit: nat, i: nat)
    requires InRankOrder(part, ScoreAt(lexical)) && AllRows(part, |lexical|)
    requires i in part && Rank(lexical, i) <= limit
    ensures i in Take(part, limit)
  {
    var q :| 0 <= q < |part| && part[q] == i;
    RanksClimb(lexical, part, q);
    assert Take(part, limit)[q] == i;
  }

  /** A match is found if the cut underneath keeps it and it is among the best `limit` by lexical score. */
  lemma GoodMatchIsFound(lexical: seq<real>, limit: nat, i: nat)
    requires i < |lexical| && lexical[i] > 0.0
    requires Preferred(lexical, i) < Width(limit) && Rank(lexical, i) <= limit
    ensures i in FoundRows(lexical, limit)
  {
    MatchFacts(lexical);
    CutKeepsIff(Matches(lexical), CutScore(lexical), Width(limit), i);
    var cut := CutRows(lexical, limit);
    forall x: nat | x in cut ensures x < |lexical| { CutMember(lexical, limit, x); }
    CutIsDistinct(lexical, limit);
    RankedRows(lexical, cut);
    SortMember(cut, ByRank(lexical), i);
    EarlyIsTaken(lexical, SortDesc(cut, ByRank(lexical)), limit, i);
  }

  lemma SomeMatchIsFound(lexical: seq<real>, limit: nat, i: nat)
    requires i < |lexical| && lexical[i] > 0.0 && limit > 0
    ensures FoundRows(lexical, limit) != []
  {
    var matches := Matches(lexical);
    MatchFacts(lexical);
    SortFacts(matches, CutScore(lexical));
    SortFacts(Take(SortDesc(matches, CutScore(lexical)), Width(limit)), ByRank(lexical));
  }

  lemma LexicalCandidates(corpus: Corpus, caller: Caller, question: string, limit: nat, maths: Maths, i: nat)
    requires IsZero(Zero(), maths) && i < |Visible(corpus, caller)|
    ensures var rows := Visible(corpus, caller);
            var lexical, semantic := LexicalScores(rows, LexicalTerms(question), maths), SemanticScores(rows, Zero(), maths);
            Candidates(corpus, caller, question, None, limit, maths)
            == MapSeq(HitOf(rows, lexical, semantic), FoundRows(lexical, limit))
  {
    var rows := Visible(corpus, caller);
    var lexical, semantic := LexicalScores(rows, LexicalTerms(question), maths), SemanticScores(rows, Zero(), maths);
    assert AllZero(semantic);
    FoundHits(rows, lexical, semantic, limit);
  }

  /** If any readable chunk shares a term with the question, something is found without a vector too. */
  lemma SharedTermMeansResults(settings: Settings, corpus: Corpus, caller: Caller, question: string, maths: Maths, row: ChunkRow)
    requires maths.Sane() && IsZero(Zero(), maths) && settings.topK > 0
    requires row in Visible(corpus, caller) && SharesTerm(row, question)
    ensures Retrieve(settings, corpus, caller, question, None, maths) != []
  {
    var rows := Visible(corpus, caller);
    var lexical := LexicalScores(rows, LexicalTerms(question), maths);
    var k :| 0 <= k < |rows| && rows[k] == row;
    RelevantIsKept(rows, question, Zero(), maths, k);
    SomeMatchIsFound(lexical, CandidateLimit(settings), k);
    LexicalCandidates(corpus, caller, question, CandidateLimit(settings), maths, k);
    SomeRowIsIndexed(corpus, caller, k);
    SomethingIsShown(settings, question, Candidates(corpus, caller, question, None, CandidateLimit(settings), maths), maths);
  }

  /** A readable match that ranks within what is fetched, and that the cut keeps, has its source and heading among the hits. */
  lemma GoodMatchIsRetrieved(settings: Settings, corpus: Corpus, caller: Caller, question: string, maths: Maths, i: nat)
      returns (d: Hit)
    requires maths.Sane() && IsZero(Zero(), maths) && i < |Visible(corpus, caller)|
    requires SharesTerm(Visible(corpus, caller)[i], question)
    requires var lexical := LexicalScores(Visible(corpus, caller), LexicalTerms(question), maths);
             Rank(lexical, i) <= Fetched(settings) && Preferred(lexical, i) < Max(4 * Fetched(settings), 20)
    ensures var candidates := Candidates(corpus, caller, question, None, CandidateLimit(settings), maths);
            var deduped := Dedupe(Ordered(settings, question, candidates, maths));
            SameHeading(d.row, Visible(corpus, caller)[i]) && d in deduped
            && ((d in Leading(deduped) && |Leading(deduped)| <= settings.topK) || |deduped| <= settings.topK ==>
                  d in Retrieve(settings, corpus, caller, question, None, maths))
  {
    var rows := Visible(corpus, caller);
    var lexical, semantic := LexicalScores(rows, LexicalTerms(question), maths), SemanticScores(rows, Zero(), maths);
    var candidates := Candidates(corpus, caller, question, None, CandidateLimit(settings), maths);
    RelevantIsKept(rows, question, Zero(), maths, i);
    GoodMatchIsFound(lexical, CandidateLimit(settings), i);
    LexicalCandidates(corpus, caller, question, CandidateLimit(settings), maths, i);
    MappedMember(HitOf(rows, lexical, semantic), FoundRows(lexical, CandidateLimit(settings)), i);
    KeptAsHit(rows, lexical, semantic, i);
    var c := HitOf(rows, lexical, semantic)(i);
    HeadingSurvives(settings, question, candidates, maths, c);
    d :| d in Dedupe(Ordered(settings, question, candidates, maths)) && SameHeading(d.row, c.row);
    SurvivorIsShown(settings, question, candidates, maths, d);
    SomeRowIsIndexed(corpus, caller, i);
  }
}
