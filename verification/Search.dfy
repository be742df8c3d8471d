/** backend/database.py, lines 1664-1709 and 1788-1888: access filtering and the portable hybrid search. */
module Search {
  import opened Text
  import opened Lists
  import opened TextIndex
  import opened RankFusion

  type Vector = seq<real>

  datatype DocumentInfo = DocumentInfo(id: nat, sourceKey: string, title: string, accessScope: string, classification: string)

  /** A chunk joined with its version and document; stored text is shown decrypted. */
  datatype ChunkRow = ChunkRow(
    id: nat, document: DocumentInfo, indexed: bool, version: nat, ordinal: nat, heading: string, page: Option<int>,
    content: string, parentContent: string, isTitleBlock: bool, searchText: string, embedding: Vector)

  datatype PrincipalKind = UserPrincipal | RolePrincipal | GroupPrincipal | DepartmentPrincipal

  datatype AclEntry = AclEntry(documentId: nat, kind: PrincipalKind, principal: string)

  datatype Corpus = Corpus(rows: seq<ChunkRow>, acl: set<AclEntry>)

  /** The caller, with groups and departments already resolved from the organisation tables. */
  datatype Caller = Caller(
    subject: string, roles: set<string>, groups: set<string>, departments: set<string>, allowConfidential: bool)

  datatype Hit = Hit(
    row: ChunkRow, lexicalRank: Option<nat>, semanticRank: nat, similarity: real, score: real, rerankRank: Option<nat>)

  /** The numeric primitives: any logarithm positive above 1, and any similarity. */
  datatype Maths = Maths(ln: real -> real, cosine: (Vector, Vector) -> real)
  {
    ghost predicate Sane() {
      forall x: real :: x > 1.0 ==> ln(x) > 0.0
    }
  }

  // ----- access -----

  predicate IsOpen(classification: string) {
    var normalized := Lower(Strip(classification));
    normalized == "public" || normalized == "internal"
  }

  /** _document_allowed: clearance first, then scope or an ACL entry. */
  predicate Allowed(d: DocumentInfo, caller: Caller, acl: set<AclEntry>) {
    (caller.allowConfidential || IsOpen(d.classification))
    && (d.accessScope == "public"
        || AclEntry(d.id, UserPrincipal, Lower(caller.subject)) in acl
        || (exists r :: r in caller.roles && AclEntry(d.id, RolePrincipal, Lower(r)) in acl)
        || (exists g :: g in caller.groups && AclEntry(d.id, GroupPrincipal, g) in acl)
        || (exists p :: p in caller.departments && AclEntry(d.id, DepartmentPrincipal, p) in acl))
  }

  function Sees(caller: Caller, acl: set<AclEntry>): ChunkRow -> bool {
    (row: ChunkRow) => row.indexed && Allowed(row.document, caller, acl)
  }

  /** The rows that exist for this caller. */
  function Visible(corpus: Corpus, caller: Caller): seq<ChunkRow> {
    Filter(Sees(caller, corpus.acl), corpus.rows)
  }

  // ----- lexical scores -----

  function Words(row: ChunkRow): seq<string> {
    SplitWords(row.searchText)
  }

  function Count(words: seq<string>, term: string): nat {
    if words == [] then 0 else (if words[0] == term then 1 else 0) + Count(words[1..], term)
  }

  lemma {:induction false} CountPositive(words: seq<string>, term: string)
    ensures Count(words, term) > 0 <==> term in words
  {
    if words != [] {
      CountPositive(words[1..], term);
    }
  }

  /** In how many rows the term occurs. */
  function DocumentFrequency(rows: seq<ChunkRow>, term: string): (n: nat)
    ensures n <= |rows|
  {
    if rows == [] then 0 else (if Count(Words(rows[0]), term) > 0 then 1 else 0) + DocumentFrequency(rows[1..], term)
  }

  function TotalWords(rows: seq<ChunkRow>): nat {
    if rows == [] then 0 else |Words(rows[0])| + TotalWords(rows[1..])
  }

  /** Average row length, or 1 when every row is empty. */
  function AverageLength(rows: seq<ChunkRow>): (r: real)
    ensures r > 0.0
  {
    if rows == [] || TotalWords(rows) == 0 then 1.0 else TotalWords(rows) as real / |rows| as real
  }

  /** The argument of the logarithm in the inverse document frequency. */
  function Rarity(n: nat, seenIn: nat): (r: real)
    requires seenIn <= n
    ensures r > 1.0
  {
    RatioPositive(n as real - seenIn as real + 0.5, seenIn as real + 0.5);
    1.0 + (n as real - seenIn as real + 0.5) / (seenIn as real + 0.5)
  }

  lemma RatioPositive(a: real, b: real)
    requires a > 0.0 && b > 0.0
    ensures a / b > 0.0
  {
  }

  /** The weight of a term that occurs f times in a row of this length, and in `seenIn` of n rows. */
  function Weigh(n: nat, seenIn: nat, f: nat, length: nat, average: real, maths: Maths): real
    requires seenIn <= n && average > 0.0
  {
    if f == 0 then 0.0 else maths.ln(Rarity(n, seenIn)) * Saturation(f, length, average)
  }

  function TermScore(rows: seq<ChunkRow>, row: ChunkRow, term: string, maths: Maths): real {
    Weigh(|rows|, DocumentFrequency(rows, term), Count(Words(row), term), |Words(row)|, AverageLength(rows), maths)
  }

  function Saturation(f: nat, length: nat, average: real): (r: real)
    requires f > 0 && average > 0.0
    ensures r > 0.0
  {
    RatioPositive(0.75 * Max(1, length) as real, average);
    var denominator := f as real + 1.2 * (0.25 + 0.75 * Max(1, length) as real / average);
    RatioPositive(f as real, denominator);
    f as real / denominator
  }

  function LexicalScore(rows: seq<ChunkRow>, row: ChunkRow, terms: seq<string>, maths: Maths): real {
    if terms == [] then 0.0 else TermScore(rows, row, terms[0], maths) + LexicalScore(rows, row, terms[1..], maths)
  }

  function LexicalScores(rows: seq<ChunkRow>, terms: seq<string>, maths: Maths): (s: seq<real>)
    ensures |s| == |rows|
  {
    MapSeq((row: ChunkRow) => LexicalScore(rows, row, terms, maths), rows)
  }

  function SemanticScores(rows: seq<ChunkRow>, embedding: Vector, maths: Maths): (s: seq<real>)
    ensures |s| == |rows|
  {
    MapSeq((row: ChunkRow) => maths.cosine(embedding, row.embedding), rows)
  }

  // ----- results -----

  const THRESHOLD: real := 0.35

  function HitAt(rows: seq<ChunkRow>, lexical: seq<real>, semantic: seq<real>, i: nat): Hit
    requires i < |rows| == |lexical| == |semantic|
  {
    Hit(rows[i], if lexical[i] > 0.0 then Some(Rank(lexical, i)) else None, Rank(semantic, i), semantic[i],
        Fused(lexical, semantic, i), None)
  }

  predicate Kept(lexical: seq<real>, semantic: seq<real>, i: nat)
    requires i < |lexical| == |semantic|
  {
    lexical[i] > 0.0 || semantic[i] >= THRESHOLD
  }

  function HitsFrom(rows: seq<ChunkRow>, lexical: seq<real>, semantic: seq<real>, i: nat): seq<Hit>
    requires i <= |rows| == |lexical| == |semantic|
    decreases |rows| - i
  {
    if i == |rows| then []
    else (if Kept(lexical, semantic, i) then [HitAt(rows, lexical, semantic, i)] else []) + HitsFrom(rows, lexical, semantic, i + 1)
  }

  function ByScore(): Hit -> real {
    (h: Hit) => h.score
  }

  function Take<T>(xs: seq<T>, n: nat): seq<T> {
    if n >= |xs| then xs else xs[..n]
  }

  /** The search over the rows the caller may see; nothing else enters it. */
  function SearchRows(rows: seq<ChunkRow>, query: string, embedding: Vector, limit: nat, maths: Maths): seq<Hit> {
    var lexical := LexicalScores(rows, LexicalTerms(query), maths);
    var semantic := SemanticScores(rows, embedding, maths);
    Take(SortDesc(HitsFrom(rows, lexical, semantic, 0), ByScore()), limit)
  }

  function HybridSearch(corpus: Corpus, caller: Caller, query: string, embedding: Vector, limit: nat,
        maths: Maths): seq<Hit> {
    SearchRows(Visible(corpus, caller), query, embedding, limit, maths)
  }

  function LexicalRankKey(): Hit -> real {
    (h: Hit) => if h.lexicalRank.Some? then -(h.lexicalRank.value as real) else 0.0
  }

  /** lexical_search on SQLite: the hybrid search with a zero vector, keeping lexical matches in rank order. */
  function LexicalSearch(corpus: Corpus, caller: Caller, query: string, zero: Vector, limit: nat,
        maths: Maths): seq<Hit> {
    var results := HybridSearch(corpus, caller, query, zero, Max(limit * 4, 20), maths);
    Take(SortDesc(Filter((h: Hit) => h.lexicalRank.Some?, results), LexicalRankKey()), limit)
  }

  method ScoreRow(rows: seq<ChunkRow>, row: ChunkRow, terms: seq<string>, maths: Maths) returns (score: real)
    ensures score == LexicalScore(rows, row, terms, maths)
  {
    score := 0.0;
    var i := 0;
    while i < |terms|
      invariant 0 <= i <= |terms|
      invariant score + LexicalScore(rows, row, terms[i..], maths) == LexicalScore(rows, row, terms, maths)
    {
      assert terms[i..][1..] == terms[i + 1..];
      score := score + TermScore(rows, row, terms[i], maths);
      i := i + 1;
    }
  }

  method ScoreRows(rows: seq<ChunkRow>, terms: seq<string>, embedding: Vector, maths: Maths)
      returns (lexical: seq<real>, semantic: seq<real>)
    ensures lexical == LexicalScores(rows, terms, maths) && semantic == SemanticScores(rows, embedding, maths)
  {
    lexical, semantic := [], [];
    var i := 0;
    while i < |rows|
      invariant 0 <= i <= |rows| && |lexical| == |semantic| == i
      invariant forall k | 0 <= k < i :: lexical[k] == LexicalScore(rows, rows[k], terms, maths)
      invariant forall k | 0 <= k < i :: semantic[k] == maths.cosine(embedding, rows[k].embedding)
    {
      var score := ScoreRow(rows, rows[i], terms, maths);
      lexical := lexical + [score];
      semantic := semantic + [maths.cosine(embedding, rows[i].embedding)];
      i := i + 1;
    }
  }

  lemma NextHit(rows: seq<ChunkRow>, lexical: seq<real>, semantic: seq<real>, i: nat, hits: seq<Hit>)
    requires i < |rows| == |lexical| == |semantic|
    ensures hits + HitsFrom(rows, lexical, semantic, i)
         == (if Kept(lexical, semantic, i) then hits + [HitAt(rows, lexical, semantic, i)] else hits)
            + HitsFrom(rows, lexical, semantic, i + 1)
  {
    Associative(hits, [HitAt(rows, lexical, semantic, i)], HitsFrom(rows, lexical, semantic, i + 1));
  }

  method CollectHits(rows: seq<ChunkRow>, lexical: seq<real>, semantic: seq<real>) returns (hits: seq<Hit>)
    requires |rows| == |lexical| == |semantic|
    ensures hits == HitsFrom(rows, lexical, semantic, 0)
  {
    hits := [];
    var i := 0;
    while i < |rows|
      invariant 0 <= i <= |rows|
      invariant hits + HitsFrom(rows, lexical, semantic, i) == HitsFrom(rows, lexical, semantic, 0)
    {
      NextHit(rows, lexical, semantic, i, hits);
      if Kept(lexical, semantic, i) {
        hits := hits + [HitAt(rows, lexical, semantic, i)];
      }
      i := i + 1;
    }
  }

  method PortableHybridSearch(corpus: Corpus, caller: Caller, query: string, embedding: Vector, limit: nat,
        maths: Maths)
      returns (hits: seq<Hit>)
    ensures hits == HybridSearch(corpus, caller, query, embedding, limit, maths)
  {
    var rows := FilterRows(corpus, caller);
    if rows == [] {
      NoRowsNoHits(query, embedding, limit, maths);
      return [];
    }
    var lexical, semantic := ScoreRows(rows, LexicalTerms(query), embedding, maths);
    var results := CollectHits(rows, lexical, semantic);
    return Take(SortDesc(results, ByScore()), limit);
  }

  method PortableLexicalSearch(corpus: Corpus, caller: Caller, query: string, zero: Vector, limit: nat, maths: Maths)
      returns (hits: seq<Hit>)
    ensures hits == LexicalSearch(corpus, caller, query, zero, limit, maths)
  {
    hits := PortableHybridSearch(corpus, caller, query, zero, Max(limit * 4, 20), maths);
    hits := Take(SortDesc(Filter((h: Hit) => h.lexicalRank.Some?, hits), LexicalRankKey()), limit);
  }

  method FilterRows(corpus: Corpus, caller: Caller) returns (rows: seq<ChunkRow>)
    ensures rows == Visible(corpus, caller)
  {
    rows := [];
    var sees := Sees(caller, corpus.acl);
    var i := 0;
    while i < |corpus.rows|
      invariant 0 <= i <= |corpus.rows|
      invariant rows == Filter(sees, corpus.rows[..i])
    {
      FilterTake(sees, corpus.rows, i);
      if sees(corpus.rows[i]) {
        rows := rows + [corpus.rows[i]];
      }
      i := i + 1;
    }
    assert corpus.rows[..i] == corpus.rows;
  }

  lemma NoRowsNoHits(query: string, embedding: Vector, limit: nat, maths: Maths)
    ensures SearchRows([], query, embedding, limit, maths) == []
  {
  }
}
