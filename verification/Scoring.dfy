/** backend/database.py, lines 1817-1868: what the scores and ranks of a search hit are, by counting. */
module Scoring {
  import opened Text
  import opened Lists
  import opened TextIndex
  import opened RankFusion
  import opened Search
  import opened SearchSafety
  import opened LexicalFallback
  import opened Rerank

  // ----- the lexical score -----

  /** The rows, by place, that contain the term. */
  ghost function RowsWith(rows: seq<ChunkRow>, term: string): set<nat> {
    set i: nat | i < |rows| && term in SplitWords(rows[i].searchText)
  }

  function WordsOf(): ChunkRow -> seq<string> {
    (row: ChunkRow) => SplitWords(row.searchText)
  }

  lemma {:induction false} CountIsMultiplicity(words: seq<string>, term: string)
    ensures Count(words, term) == multiset(words)[term]
  {
    if words != [] {
      CountIsMultiplicity(words[1..], term);
      assert words == [words[0]] + words[1..];
    }
  }

  lemma {:induction false} TotalIsLength(rows: seq<ChunkRow>)
    ensures TotalWords(rows) == |FlatMap(WordsOf(), rows)|
  {
    if rows != [] {
      TotalIsLength(rows[1..]);
    }
  }

  function HasTerm(term: string): ChunkRow -> bool {
    (row: ChunkRow) => term in SplitWords(row.searchText)
  }

  lemma {:induction false} FrequencyIsFilter(rows: seq<ChunkRow>, term: string)
    ensures DocumentFrequency(rows, term) == |Filter(HasTerm(term), rows)|
  {
    if rows != [] {
      FrequencyIsFilter(rows[1..], term);
      CountPositive(Words(rows[0]), term);
    }
  }

  function Every(): ChunkRow -> bool {
    (row: ChunkRow) => true
  }

  lemma FrequencyIsCount(rows: seq<ChunkRow>, term: string)
    ensures DocumentFrequency(rows, term) == |RowsWith(rows, term)|
  {
    FrequencyIsFilter(rows, term);
    FilterCountsPlaces(Every(), HasTerm(term), rows, |rows|);
    FilterAll(Every(), rows);
    assert rows[..|rows|] == rows;
    assert Places(Every(), HasTerm(term), rows, |rows|) == RowsWith(rows, term);
  }

  /** Words per row on average, or 1 when no row has any. */
  function MeanLength(rows: seq<ChunkRow>): (r: real)
    ensures r > 0.0
  {
    var total := |FlatMap(WordsOf(), rows)|;
    if rows == [] || total == 0 then 1.0 else total as real / |rows| as real
  }

  /** The inverse document frequency of a term that `found` of n rows contain. */
  function Inverse(n: nat, found: nat, maths: Maths): real {
    maths.ln(1.0 + (n as real - found as real + 0.5) / (found as real + 0.5))
  }

  /** How much f occurrences in a row of this length count: ever less for each more, and less in a long row. */
  function Damped(f: nat, length: nat, mean: real): real
    requires f > 0 && mean > 0.0
  {
    LengthPositive(f as real, length as real, mean);
    f as real / (f as real + 1.2 * (0.25 + 0.75 * length as real / mean))
  }

  /** The BM25 weight with k1 = 1.2 and b = 0.75: a rare term weighs more. */
  function Bm25Weight(n: nat, found: nat, f: nat, length: nat, mean: real, maths: Maths): real
    requires mean > 0.0
  {
    if f == 0 then 0.0 else Inverse(n, found, maths) * Damped(f, length, mean)
  }

  ghost function Bm25(rows: seq<ChunkRow>, row: ChunkRow, term: string, maths: Maths): real {
    var words := SplitWords(row.searchText);
    Bm25Weight(|rows|, |RowsWith(rows, term)|, multiset(words)[term], |words|, MeanLength(rows), maths)
  }

  lemma LengthPositive(f: real, length: real, mean: real)
    requires f > 0.0 && length >= 0.0 && mean > 0.0
    ensures f + 1.2 * (0.25 + 0.75 * length / mean) > 0.0
  {
    assert length / mean >= 0.0;
  }

  ghost function Bm25In(rows: seq<ChunkRow>, row: ChunkRow, maths: Maths): string -> real {
    (term: string) => Bm25(rows, row, term, maths)
  }

  lemma MeanIsAverage(rows: seq<ChunkRow>)
    ensures MeanLength(rows) == AverageLength(rows)
  {
    TotalIsLength(rows);
  }

  lemma SaturationIs(f: nat, length: nat, mean: real)
    requires f > 0 && length > 0 && mean > 0.0
    ensures Saturation(f, length, mean) == Damped(f, length, mean)
  {
    LengthPositive(f as real, length as real, mean);
  }

  lemma InverseIs(n: nat, found: nat, maths: Maths)
    requires found <= n
    ensures maths.ln(Rarity(n, found)) == Inverse(n, found, maths)
  {
  }

  lemma Products(a: real, b: real, c: real, d: real)
    requires a == c && b == d
    ensures a * b == c * d
  {
  }

  lemma WeightIs(n: nat, found: nat, f: nat, length: nat, mean: real, maths: Maths)
    requires found <= n && (f > 0 ==> length > 0) && mean > 0.0
    ensures Weigh(n, found, f, length, mean, maths) == Bm25Weight(n, found, f, length, mean, maths)
  {
    if f > 0 {
      SaturationIs(f, length, mean);
      InverseIs(n, found, maths);
      Products(maths.ln(Rarity(n, found)), Saturation(f, length, mean), Inverse(n, found, maths), Damped(f, length, mean));
    }
  }

  /** The weight in terms of how often the term occurs and in how many rows. */
  lemma TermScoreIs(rows: seq<ChunkRow>, row: ChunkRow, term: string, maths: Maths)
    ensures TermScore(rows, row, term, maths)
         == Bm25Weight(|rows|, DocumentFrequency(rows, term), Count(Words(row), term), |Words(row)|, AverageLength(rows), maths)
  {
    CountPositive(Words(row), term);
    WeightIs(|rows|, DocumentFrequency(rows, term), Count(Words(row), term), |Words(row)|, AverageLength(rows), maths);
  }

  lemma TermIsBm25(rows: seq<ChunkRow>, row: ChunkRow, term: string, maths: Maths)
    ensures TermScore(rows, row, term, maths) == Bm25(rows, row, term, maths)
  {
    CountIsMultiplicity(Words(row), term);
    FrequencyIsCount(rows, term);
    MeanIsAverage(rows);
    TermScoreIs(rows, row, term, maths);
  }

  /** The lexical score of a row is the sum of the BM25 weights of the query's terms, a repeated term counted each time. */
  lemma {:induction false} ScoreIsBm25(rows: seq<ChunkRow>, row: ChunkRow, terms: seq<string>, maths: Maths)
    ensures LexicalScore(rows, row, terms, maths) == Sum(Bm25In(rows, row, maths), terms)
  {
    if terms != [] {
      TermIsBm25(rows, row, terms[0], maths);
      ScoreIsBm25(rows, row, terms[1..], maths);
    }
  }

  // ----- ranks -----

  /** The rows that come before row i: with a larger score, or with the same score and earlier. */
  function Above(scores: seq<real>, i: nat): set<nat>
    requires i < |scores|
  {
    set j: nat | j < |scores| && (scores[j] > scores[i] || (scores[j] == scores[i] && j < i))
  }

  function Everything(): nat -> bool {
    (i: nat) => true
  }

  lemma AboveIff(scores: seq<real>, i: nat, j: nat)
    requires i < |scores| && j < |scores|
    ensures BeforeIt(ScoreAt(scores), i)(j) <==> j in Above(scores, i)
  {
  }

  lemma BeforeIsCounted(scores: seq<real>, i: nat)
    requires i < |scores|
    ensures |Filter(BeforeIt(ScoreAt(scores), i), Indices(0, |scores|))| == |Above(scores, i)|
  {
    var all: seq<nat> := Indices(0, |scores|);
    IndicesFacts(0, |scores|);
    FilterCountsPlaces(Everything(), BeforeIt(ScoreAt(scores), i), all, |all|);
    FilterAll(Everything(), all);
    assert all[..|all|] == all;
    var places := Places(Everything(), BeforeIt(ScoreAt(scores), i), all, |all|);
    forall j: nat ensures j in places <==> j in Above(scores, i) {
      if j < |scores| {
        AboveIff(scores, i, j);
      }
    }
    assert places == Above(scores, i);
  }

  /** The rank of a row is one more than the number of rows before it. */
  lemma RankIsCount(scores: seq<real>, i: nat)
    requires i < |scores|
    ensures Rank(scores, i) == 1 + |Above(scores, i)|
  {
    var all, key := Indices(0, |scores|), ScoreAt(scores);
    IndicesFacts(0, |scores|);
    SortRanks(all, key);
    RanksAreABijection(scores);
    PlaceIsCount(Order(scores), key, Rank(scores, i) - 1);
    SortCount(BeforeIt(key, i), all, key);
    BeforeIsCounted(scores, i);
  }

  // ----- a hit -----

  /** What a hit says of its row: rank among the matches, rank by similarity, and the two reciprocals added up. */
  ghost predicate SaysWhy(h: Hit, rows: seq<ChunkRow>, lexical: seq<real>, semantic: seq<real>, i: nat)
    requires |rows| == |lexical| == |semantic|
  {
    i < |rows| && h.row == rows[i] && h.similarity == semantic[i] && h.rerankRank == None
    && h.semanticRank == 1 + |Above(semantic, i)|
    && h.lexicalRank == (if lexical[i] > 0.0 then Some(1 + |Above(lexical, i)|) else None)
    && h.score == (if lexical[i] > 0.0 then 1.0 / (61 + |Above(lexical, i)|) as real else 0.0)
                  + 1.0 / (61 + |Above(semantic, i)|) as real
  }

  lemma HitSaysWhy(rows: seq<ChunkRow>, lexical: seq<real>, semantic: seq<real>, i: nat)
    requires i < |rows| == |lexical| == |semantic|
    ensures SaysWhy(HitAt(rows, lexical, semantic, i), rows, lexical, semantic, i)
  {
    RankIsCount(lexical, i);
    RankIsCount(semantic, i);
  }

  /** The rows' scores for a question, spelled out. */
  ghost predicate AreScores(rows: seq<ChunkRow>, question: string, vector: Vector, maths: Maths, lexical: seq<real>,
        semantic: seq<real>)
  {
    |rows| == |lexical| == |semantic|
    && (forall i | 0 <= i < |rows| :: lexical[i] == Sum(Bm25In(rows, rows[i], maths), LexicalTerms(question)))
    && (forall i | 0 <= i < |rows| :: semantic[i] == maths.cosine(vector, rows[i].embedding))
  }

  lemma ScoresAreSpelled(rows: seq<ChunkRow>, question: string, vector: Vector, maths: Maths)
    ensures AreScores(rows, question, vector, maths, LexicalScores(rows, LexicalTerms(question), maths),
                      SemanticScores(rows, vector, maths))
  {
    forall i | 0 <= i < |rows|
      ensures LexicalScores(rows, LexicalTerms(question), maths)[i] == Sum(Bm25In(rows, rows[i], maths), LexicalTerms(question))
    {
      ScoreIsBm25(rows, rows[i], LexicalTerms(question), maths);
    }
  }

  /** Every hit of a search is a readable row with its own scores and ranks among the readable rows. */
  lemma HitsSayWhy(corpus: Corpus, caller: Caller, question: string, vector: Vector, limit: nat, maths: Maths, h: Hit)
      returns (lexical: seq<real>, semantic: seq<real>, i: nat)
    requires h in HybridSearch(corpus, caller, question, vector, limit, maths)
    ensures AreScores(Visible(corpus, caller), question, vector, maths, lexical, semantic)
    ensures SaysWhy(h, Visible(corpus, caller), lexical, semantic, i)
  {
    var rows := Visible(corpus, caller);
    lexical, semantic := LexicalScores(rows, LexicalTerms(question), maths), SemanticScores(rows, vector, maths);
    ScoresAreSpelled(rows, question, vector, maths);
    TakeMember(SortDesc(HitsFrom(rows, lexical, semantic, 0), ByScore()), limit, h);
    SortMember(HitsFrom(rows, lexical, semantic, 0), ByScore(), h);
    HitsComeFromRows(rows, lexical, semantic, 0, h);
    i :| i < |rows| && IsHitAt(rows, lexical, semantic, i, h);
    HitSaysWhy(rows, lexical, semantic, i);
  }

  // ----- the offline reranker -----

  /** The candidates, by place, whose text - the parent text, if there is one - contains the term. */
  ghost function CandidatesWith(candidates: seq<Hit>, term: string): set<nat> {
    set i: nat | i < |candidates| && term in LexicalTerms(ContentOf(candidates[i]))
  }

  function Mentions(term: string): Hit -> bool {
    (h: Hit) => term in LexicalTerms(ContentOf(h))
  }

  function AnyHit(): Hit -> bool {
    (h: Hit) => true
  }

  lemma {:induction false} SeenIsFilter(candidates: seq<Hit>, term: string)
    ensures SeenIn(candidates, term) == |Filter(Mentions(term), candidates)|
  {
    if candidates != [] {
      SeenIsFilter(candidates[1..], term);
    }
  }

  lemma SeenIsCount(candidates: seq<Hit>, term: string)
    ensures SeenIn(candidates, term) == |CandidatesWith(candidates, term)|
  {
    SeenIsFilter(candidates, term);
    FilterCountsPlaces(AnyHit(), Mentions(term), candidates, |candidates|);
    FilterAll(AnyHit(), candidates);
    assert candidates[..|candidates|] == candidates;
    assert Places(AnyHit(), Mentions(term), candidates, |candidates|) == CandidatesWith(candidates, term);
  }

  /** As above, among the candidates, but a long text counts against a term by its length itself. */
  ghost function RerankWeight(candidates: seq<Hit>, h: Hit, maths: Maths): string -> real {
    (term: string) => Bm25Weight(|candidates|, |CandidatesWith(candidates, term)|, multiset(LexicalTerms(ContentOf(h)))[term],
                                 |LexicalTerms(ContentOf(h))|, 1.0, maths)
  }

  lemma TermWeightIs(n: nat, found: nat, words: seq<string>, term: string, maths: Maths)
    requires found <= n
    ensures TermWeight(n, found, words, term, maths) == Bm25Weight(n, found, Count(words, term), |words|, 1.0, maths)
  {
    CountPositive(words, term);
    WeightIs(n, found, Count(words, term), |words|, 1.0, maths);
  }

  lemma WeightIsSpelled(candidates: seq<Hit>, h: Hit, maths: Maths, term: string)
    ensures Weight(candidates, h, maths)(term) == RerankWeight(candidates, h, maths)(term)
  {
    SeenIsCount(candidates, term);
    CountIsMultiplicity(TermsOf(h), term);
    TermWeightIs(|candidates|, SeenIn(candidates, term), TermsOf(h), term, maths);
  }

  lemma {:induction false} SameSum(a: string -> real, b: string -> real, terms: seq<string>)
    requires forall t :: a(t) == b(t)
    ensures Sum(a, terms) == Sum(b, terms)
  {
    if terms != [] {
      SameSum(a, b, terms[1..]);
    }
  }

  /** The relevance that reranking sorts by is the sum of these weights over the distinct terms of the query. */
  lemma RelevanceIsSpelled(candidates: seq<Hit>, terms: seq<string>, h: Hit, maths: Maths)
    ensures Relevance(candidates, terms, maths)(h) == Sum(RerankWeight(candidates, h, maths), terms)
  {
    forall t ensures Weight(candidates, h, maths)(t) == RerankWeight(candidates, h, maths)(t) {
      WeightIsSpelled(candidates, h, maths, t);
    }
    SameSum(Weight(candidates, h, maths), RerankWeight(candidates, h, maths), terms);
  }

  ghost predicate GrowsWith(maths: Maths) {
    forall x: real, y: real | 0.0 < x < y :: maths.ln(x) < maths.ln(y)
  }

  lemma RarityFalls(n: real, few: real, many: real)
    requires 0.0 <= few < many <= n
    ensures (n - few + 0.5) / (few + 0.5) > (n - many + 0.5) / (many + 0.5) > 0.0
  {
    FractionsCompare(n - few + 0.5, few + 0.5, n - many + 0.5, many + 0.5);
  }

  lemma DivisionBound(q: real, d: real, c: real)
    requires d > 0.0
    ensures q * d < c <==> q < c / d
  {
  }

  lemma FractionsCompare(a: real, b: real, c: real, d: real)
    requires a > c > 0.0 && 0.0 < b < d
    ensures a / b > c / d > 0.0
  {
    var q := c / d;
    assert q > 0.0 && q * d == c;
    assert q * b < q * d;
    DivisionBound(q, b, a);
  }

  /** A word that fewer candidates contain weighs strictly more. */
  lemma RarerWeighsMore(n: nat, few: nat, many: nat, maths: Maths)
    requires few < many <= n && GrowsWith(maths)
    ensures Inverse(n, few, maths) > Inverse(n, many, maths)
  {
    RarityFalls(n as real, few as real, many as real);
  }
}
