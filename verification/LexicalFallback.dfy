/** backend/database.py, lines 1704-1709: lexical search on SQLite, as a cut of the hybrid search, and what the cut loses. */
module LexicalFallback {
  import opened Text
  import opened Lists
  import opened TextIndex
  import opened RankFusion
  import opened Search

  // ----- lists in rank order -----

  lemma {:induction false} SortConstant(xs: seq<nat>, key: nat -> real)
    requires forall x, y | x in xs && y in xs :: key(x) == key(y)
    ensures SortDesc(xs, key) == xs
  {
    if xs != [] {
      SortConstant(xs[1..], key);
      assert [xs[0]] + xs[1..] == xs;
    }
  }

  lemma {:induction false} InsertMapped<A>(f: nat -> A, x: nat, ks: seq<nat>, key: A -> real, q: nat -> real)
    requires forall k | k in [x] + ks :: q(k) == key(f(k))
    ensures Insert(f(x), MapSeq(f, ks), key) == MapSeq(f, Insert(x, ks, q))
  {
    assert x in [x] + ks;
    if ks == [] {
    } else if q(x) >= q(ks[0]) {
      assert ks[0] in [x] + ks;
      assert MapSeq(f, [x] + ks) == [f(x)] + MapSeq(f, ks);
    } else {
      assert ks[0] in [x] + ks && forall k | k in [x] + ks[1..] :: k in [x] + ks;
      InsertMapped(f, x, ks[1..], key, q);
      assert MapSeq(f, ks)[1..] == MapSeq(f, ks[1..]);
    }
  }

  lemma {:induction false} SortMapped<A>(f: nat -> A, ks: seq<nat>, key: A -> real, q: nat -> real)
    requires forall k | k in ks :: q(k) == key(f(k))
    ensures SortDesc(MapSeq(f, ks), key) == MapSeq(f, SortDesc(ks, q))
  {
    if ks != [] {
      SortMapped(f, ks[1..], key, q);
      assert MapSeq(f, ks)[1..] == MapSeq(f, ks[1..]);
      forall k | k in [ks[0]] + SortDesc(ks[1..], q) ensures k in ks { SortMember(ks[1..], q, k); }
      InsertMapped(f, ks[0], SortDesc(ks[1..], q), key, q);
    }
  }

  lemma {:induction false} InsertCount(p: nat -> bool, x: nat, xs: seq<nat>, key: nat -> real)
    ensures |Filter(p, Insert(x, xs, key))| == (if p(x) then 1 else 0) + |Filter(p, xs)|
  {
    if !(xs == [] || key(x) >= key(xs[0])) {
      InsertCount(p, x, xs[1..], key);
    }
  }

  lemma {:induction false} SortCount(p: nat -> bool, xs: seq<nat>, key: nat -> real)
    ensures |Filter(p, SortDesc(xs, key))| == |Filter(p, xs)|
  {
    if xs != [] {
      SortCount(p, xs[1..], key);
      InsertCount(p, xs[0], SortDesc(xs[1..], key), key);
    }
  }

  function BeforeIt(key: nat -> real, i: nat): nat -> bool {
    (j: nat) => Before(key, j, i)
  }

  lemma ThoseBefore(xs: seq<nat>, key: nat -> real, q: nat)
    requires InRankOrder(xs, key) && q < |xs|
    ensures forall x | x in xs[..q] :: Before(key, x, xs[q])
    ensures forall x | x in xs[q..] :: !Before(key, x, xs[q])
  {
    forall x | x in xs[..q] ensures Before(key, x, xs[q]) {
      var k :| 0 <= k < q && xs[k] == x;
    }
    forall x | x in xs[q..] ensures !Before(key, x, xs[q]) {
      var k :| q <= k < |xs| && xs[k] == x;
      if k > q {
        assert Before(key, xs[q], xs[k]);
      }
    }
  }

  /** In rank order, the place of an entry is the number of entries before it. */
  lemma PlaceIsCount(xs: seq<nat>, key: nat -> real, q: nat)
    requires InRankOrder(xs, key) && q < |xs|
    ensures |Filter(BeforeIt(key, xs[q]), xs)| == q
  {
    var p := BeforeIt(key, xs[q]);
    ThoseBefore(xs, key, q);
    FilterAll(p, xs[..q]);
    FilterNone(p, xs[q..]);
    FilterConcat(p, xs[..q], xs[q..]);
    assert xs[..q] + xs[q..] == xs;
  }

  /** An entry survives the cut exactly when fewer entries come before it than the cut keeps. */
  lemma CutKeepsIff(xs: seq<nat>, key: nat -> real, width: nat, i: nat)
    requires Increasing(xs) && i in xs
    ensures i in Take(SortDesc(xs, key), width) <==> |Filter(BeforeIt(key, i), xs)| < width
  {
    var sorted := SortDesc(xs, key);
    SortRanks(xs, key);
    SortMember(xs, key, i);
    SortCount(BeforeIt(key, i), xs, key);
    var q :| 0 <= q < |sorted| && sorted[q] == i;
    PlaceIsCount(sorted, key, q);
    if i in Take(sorted, width) {
      var r :| 0 <= r < |Take(sorted, width)| && Take(sorted, width)[r] == i;
      PlaceIsCount(sorted, key, r);
    }
    if q < width {
      assert Take(sorted, width)[q] == i;
    }
  }

  lemma FirstMember(xs: seq<nat>)
    ensures xs == [] || xs[0] in xs
  {
  }

  lemma FirstIsFirst(xs: seq<nat>, key: nat -> real, x: nat)
    requires InRankOrder(xs, key) && x in xs
    ensures x == xs[0] || Before(key, xs[0], x)
  {
    var k :| 0 <= k < |xs| && xs[k] == x;
  }

  lemma TailOf(xs: seq<nat>, key: nat -> real)
    requires InRankOrder(xs, key) && xs != []
    ensures InRankOrder(xs[1..], key)
    ensures forall x :: x in xs[1..] <==> x in xs && x != xs[0]
  {
    var tail := xs[1..];
    forall x ensures x in tail <==> x in xs && x != xs[0] {
      if x in tail {
        var k :| 0 <= k < |tail| && tail[k] == x;
        assert Before(key, xs[0], xs[k + 1]);
      }
    }
  }

  /** Of two lists in the same order, one part of the other: if it holds the first `limit`, it begins with them. */
  lemma {:induction false} SameTake(all: seq<nat>, part: seq<nat>, key: nat -> real, limit: nat)
    requires InRankOrder(all, key) && InRankOrder(part, key)
    requires forall x | x in part :: x in all
    requires forall x | x in Take(all, limit) :: x in part
    ensures Take(part, limit) == Take(all, limit)
  {
    if all == [] {
      FirstMember(part);
    } else if limit > 0 {
      assert Take(all, limit)[0] == all[0];
      FirstIsFirst(part, key, all[0]);
      FirstIsFirst(all, key, part[0]);
      TailOf(all, key);
      TailOf(part, key);
      TakeTail(all, limit);
      TakeTail(part, limit);
      forall x | x in Take(all[1..], limit - 1) ensures x in part[1..] { TakeWithin(all[1..], limit - 1, x); }
      SameTake(all[1..], part[1..], key, limit - 1);
    }
  }

  lemma TakeTail(xs: seq<nat>, limit: nat)
    requires xs != [] && limit > 0
    ensures Take(xs, limit) == [xs[0]] + Take(xs[1..], limit - 1)
  {
  }

  lemma TakeWithin(xs: seq<nat>, limit: nat, x: nat)
    requires x in Take(xs, limit)
    ensures x in xs
  {
  }

  lemma SameTakeIff(all: seq<nat>, part: seq<nat>, key: nat -> real, limit: nat)
    requires InRankOrder(all, key) && InRankOrder(part, key)
    requires forall x | x in part :: x in all
    ensures Take(part, limit) == Take(all, limit) <==> forall x | x in Take(all, limit) :: x in part
  {
    if forall x | x in Take(all, limit) :: x in part {
      SameTake(all, part, key, limit);
    }
    if Take(part, limit) == Take(all, limit) {
      forall x | x in Take(all, limit) ensures x in part { TakeWithin(part, limit, x); }
    }
  }

  // ----- the rows that match -----

  function IsMatch(lexical: seq<real>): nat -> bool {
    (i: nat) => i < |lexical| && lexical[i] > 0.0
  }

  /** The rows with a positive lexical score, in row order. */
  function Matches(lexical: seq<real>): seq<nat> {
    Filter(IsMatch(lexical), Indices(0, |lexical|))
  }

  /** The score that the cut goes by: the similarities to a zero vector are all equal, so they rank the rows by number. */
  function CutScore(lexical: seq<real>): nat -> real {
    (i: nat) => Reciprocal(Rank(lexical, i)) + Reciprocal(i + 1)
  }

  function ByRank(lexical: seq<real>): nat -> real {
    (i: nat) => -(Rank(lexical, i) as real)
  }

  /** How many matches the cut prefers to row i. */
  function Preferred(lexical: seq<real>, i: nat): nat {
    |Filter(BeforeIt(CutScore(lexical), i), Matches(lexical))|
  }

  /** How many rows the hybrid search is asked for. */
  function Width(limit: nat): nat {
    Max(limit * 4, 20)
  }

  /** What one expects: the matches by lexical score, ties in row order, the first `limit` of them. */
  function BestRows(lexical: seq<real>, limit: nat): seq<nat> {
    Take(SortDesc(Matches(lexical), ScoreAt(lexical)), limit)
  }

  /** What the code returns, as rows. */
  function FoundRows(lexical: seq<real>, limit: nat): seq<nat> {
    Take(SortDesc(Take(SortDesc(Matches(lexical), CutScore(lexical)), Width(limit)), ByRank(lexical)), limit)
  }

  lemma MatchFacts(lexical: seq<real>)
    ensures Increasing(Matches(lexical))
    ensures forall i: nat :: i in Matches(lexical) <==> i < |lexical| && lexical[i] > 0.0
  {
    IndicesFacts(0, |lexical|);
    FilterIncreasing(IsMatch(lexical), Indices(0, |lexical|));
    forall i: nat ensures i in Matches(lexical) <==> i < |lexical| && lexical[i] > 0.0 {
      FilterMember(IsMatch(lexical), Indices(0, |lexical|), i);
      assert i < |lexical| ==> Indices(0, |lexical|)[i] == i;
    }
  }

  ghost predicate NoRepeat(xs: seq<nat>) {
    forall a, b | 0 <= a < b < |xs| :: xs[a] != xs[b]
  }

  lemma PrependNoRepeat(x: nat, xs: seq<nat>)
    requires NoRepeat(xs) && x !in xs
    ensures NoRepeat([x] + xs)
  {
  }

  lemma {:induction false} InsertNoRepeat(x: nat, xs: seq<nat>, key: nat -> real)
    requires NoRepeat(xs) && x !in xs
    ensures NoRepeat(Insert(x, xs, key))
  {
    if xs == [] || key(x) >= key(xs[0]) {
      PrependNoRepeat(x, xs);
    } else {
      InsertNoRepeat(x, xs[1..], key);
      InsertMember(x, xs[1..], key, xs[0]);
      PrependNoRepeat(xs[0], Insert(x, xs[1..], key));
    }
  }

  lemma {:induction false} SortNoRepeat(xs: seq<nat>, key: nat -> real)
    requires NoRepeat(xs)
    ensures NoRepeat(SortDesc(xs, key))
  {
    if xs != [] {
      SortNoRepeat(xs[1..], key);
      SortMember(xs[1..], key, xs[0]);
      InsertNoRepeat(xs[0], SortDesc(xs[1..], key), key);
    }
  }

  /** Sorting distinct rows by rank puts them in order of their scores. */
  lemma SortedByRank(lexical: seq<real>, xs: seq<nat>)
    requires NoRepeat(xs) && forall x | x in xs :: x < |lexical|
    ensures InRankOrder(SortDesc(xs, ByRank(lexical)), ScoreAt(lexical))
  {
    var sorted := SortDesc(xs, ByRank(lexical));
    SortNoRepeat(xs, ByRank(lexical));
    SortFacts(xs, ByRank(lexical));
    forall a, b | 0 <= a < b < |sorted| ensures Before(ScoreAt(lexical), sorted[a], sorted[b]) {
      SortMember(xs, ByRank(lexical), sorted[a]);
      SortMember(xs, ByRank(lexical), sorted[b]);
      assert ByRank(lexical)(sorted[a]) >= ByRank(lexical)(sorted[b]);
      RankOrder(lexical, sorted[a], sorted[b]);
      RankOrder(lexical, sorted[b], sorted[a]);
    }
  }

  /** The code finds the best rows exactly when the cut prefers fewer rows than its width to each of them. */
  lemma RowsAreBestIff(lexical: seq<real>, limit: nat)
    ensures FoundRows(lexical, limit) == BestRows(lexical, limit) <==>
              forall i | i in BestRows(lexical, limit) :: Preferred(lexical, i) < Width(limit)
  {
    var matches, best := Matches(lexical), BestRows(lexical, limit);
    var all := SortDesc(matches, ScoreAt(lexical));
    var cut := Take(SortDesc(matches, CutScore(lexical)), Width(limit));
    var part := SortDesc(cut, ByRank(lexical));
    MatchFacts(lexical);
    SortRanks(matches, ScoreAt(lexical));
    SortNoRepeat(matches, CutScore(lexical));
    forall x | x in cut ensures x in matches { SortMember(matches, CutScore(lexical), x); }
    SortedByRank(lexical, cut);
    forall x | x in part ensures x in all {
      SortMember(cut, ByRank(lexical), x);
      SortMember(matches, ScoreAt(lexical), x);
    }
    SameTakeIff(all, part, ScoreAt(lexical), limit);
    forall i | i in best ensures i in part <==> Preferred(lexical, i) < Width(limit) {
      SortMember(matches, ScoreAt(lexical), i);
      SortMember(cut, ByRank(lexical), i);
      CutKeepsIff(matches, CutScore(lexical), Width(limit), i);
    }
  }

  // ----- rows and hits -----

  /** The vector is the zero vector: its similarity to everything is 0. */
  ghost predicate IsZero(zero: Vector, maths: Maths) {
    forall v: Vector :: maths.cosine(zero, v) == 0.0
  }

  function HitOf(rows: seq<ChunkRow>, lexical: seq<real>, semantic: seq<real>): nat -> Hit
    requires 0 < |rows| == |lexical| == |semantic|
  {
    (i: nat) => HitAt(rows, lexical, semantic, if i < |rows| then i else 0)
  }

  /** The `limit` best lexical matches among the readable rows, best first. */
  function BestHits(rows: seq<ChunkRow>, lexical: seq<real>, semantic: seq<real>, limit: nat): seq<Hit>
    requires |rows| == |lexical| == |semantic|
  {
    if rows == [] then [] else MapSeq(HitOf(rows, lexical, semantic), BestRows(lexical, limit))
  }

  lemma {:induction false} PlaceInIndices(lo: nat, n: nat, i: nat)
    requires lo <= i < n
    ensures IndexOf(Indices(lo, n), i) == i - lo
    decreases n - lo
  {
    if lo < i {
      PlaceInIndices(lo + 1, n, i);
      assert Indices(lo, n)[1..] == Indices(lo + 1, n);
    }
  }

  lemma EqualScoresRankByRow(scores: seq<real>, i: nat)
    requires i < |scores| && forall a, b | 0 <= a < |scores| && 0 <= b < |scores| :: scores[a] == scores[b]
    ensures Rank(scores, i) == i + 1
  {
    IndicesFacts(0, |scores|);
    SortConstant(Indices(0, |scores|), ScoreAt(scores));
    PlaceInIndices(0, |scores|, i);
  }

  ghost predicate AllZero(semantic: seq<real>) {
    forall i | 0 <= i < |semantic| :: semantic[i] == 0.0
  }

  lemma KeptIffMatch(lexical: seq<real>, semantic: seq<real>, i: nat)
    requires i < |lexical| == |semantic| && AllZero(semantic)
    ensures Kept(lexical, semantic, i) <==> lexical[i] > 0.0
  {
  }

  lemma MatchesFrom(lexical: seq<real>, i: nat)
    requires i < |lexical|
    ensures Filter(IsMatch(lexical), Indices(i, |lexical|))
            == (if lexical[i] > 0.0 then [i] else []) + Filter(IsMatch(lexical), Indices(i + 1, |lexical|))
  {
    assert Indices(i, |lexical|) == [i] + Indices(i + 1, |lexical|);
    assert Indices(i, |lexical|)[1..] == Indices(i + 1, |lexical|);
  }

  lemma OneHit(rows: seq<ChunkRow>, lexical: seq<real>, semantic: seq<real>, i: nat)
    requires i < |rows| == |lexical| == |semantic|
    ensures MapSeq(HitOf(rows, lexical, semantic), [i]) == [HitAt(rows, lexical, semantic, i)]
  {
  }

  lemma {:induction false} HitsFromMatches(rows: seq<ChunkRow>, lexical: seq<real>, semantic: seq<real>, i: nat)
    requires 0 < |rows| == |lexical| == |semantic| && i <= |rows| && AllZero(semantic)
    ensures HitsFrom(rows, lexical, semantic, i)
            == MapSeq(HitOf(rows, lexical, semantic), Filter(IsMatch(lexical), Indices(i, |lexical|)))
    decreases |rows| - i
  {
    if i < |rows| {
      HitsFromMatches(rows, lexical, semantic, i + 1);
      var f, rest := HitOf(rows, lexical, semantic), Filter(IsMatch(lexical), Indices(i + 1, |lexical|));
      MatchesFrom(lexical, i);
      KeptIffMatch(lexical, semantic, i);
      if lexical[i] > 0.0 {
        OneHit(rows, lexical, semantic, i);
        MapConcat(f, [i], rest);
        assert HitsFrom(rows, lexical, semantic, i) == MapSeq(f, [i]) + HitsFrom(rows, lexical, semantic, i + 1);
      }
    }
  }

  /** What a match looks like as a hit, to the two sorts. */
  lemma MatchAsHit(rows: seq<ChunkRow>, lexical: seq<real>, semantic: seq<real>, i: nat)
    requires 0 < |rows| == |lexical| == |semantic| && AllZero(semantic) && i < |rows| && lexical[i] > 0.0
    ensures var h := HitOf(rows, lexical, semantic)(i);
            h.lexicalRank == Some(Rank(lexical, i)) && ByScore()(h) == CutScore(lexical)(i)
            && LexicalRankKey()(h) == ByRank(lexical)(i)
  {
    EqualScoresRankByRow(semantic, i);
    var h := HitOf(rows, lexical, semantic)(i);
    assert h == HitAt(rows, lexical, semantic, i);
  }

  /** The code sorts, cuts and filters hits as it would their row numbers. */
  lemma FoundHits(rows: seq<ChunkRow>, lexical: seq<real>, semantic: seq<real>, limit: nat)
    requires 0 < |rows| == |lexical| == |semantic| && AllZero(semantic)
    ensures var wide := Take(SortDesc(HitsFrom(rows, lexical, semantic, 0), ByScore()), Width(limit));
            Take(SortDesc(Filter((h: Hit) => h.lexicalRank.Some?, wide), LexicalRankKey()), limit)
            == MapSeq(HitOf(rows, lexical, semantic), FoundRows(lexical, limit))
  {
    var f, matches := HitOf(rows, lexical, semantic), Matches(lexical);
    MatchFacts(lexical);
    HitsFromMatches(rows, lexical, semantic, 0);
    forall k | k in matches ensures CutScore(lexical)(k) == ByScore()(f(k)) { MatchAsHit(rows, lexical, semantic, k); }
    SortMapped(f, matches, ByScore(), CutScore(lexical));
    var sorted := SortDesc(matches, CutScore(lexical));
    var cut := Take(sorted, Width(limit));
    TakeMapped(f, sorted, Width(limit));
    forall k | k in cut ensures f(k).lexicalRank.Some? && ByRank(lexical)(k) == LexicalRankKey()(f(k)) {
      TakeWithin(sorted, Width(limit), k);
      SortMember(matches, CutScore(lexical), k);
      MatchAsHit(rows, lexical, semantic, k);
    }
    AllMapped((h: Hit) => h.lexicalRank.Some?, f, cut);
    SortMapped(f, cut, LexicalRankKey(), ByRank(lexical));
    TakeMapped(f, SortDesc(cut, ByRank(lexical)), limit);
  }

  lemma TakeMapped<A>(f: nat -> A, xs: seq<nat>, n: nat)
    ensures Take(MapSeq(f, xs), n) == MapSeq(f, Take(xs, n))
  {
  }

  lemma AllMapped<A>(p: A -> bool, f: nat -> A, xs: seq<nat>)
    requires forall k | k in xs :: p(f(k))
    ensures Filter(p, MapSeq(f, xs)) == MapSeq(f, xs)
  {
    forall y | y in MapSeq(f, xs) ensures p(y) {
      var i :| 0 <= i < |xs| && MapSeq(f, xs)[i] == y;
      assert xs[i] in xs;
    }
    FilterAll(p, MapSeq(f, xs));
  }

  /** Different matches are different hits: their ranks differ. */
  lemma RowsFromHits(rows: seq<ChunkRow>, lexical: seq<real>, semantic: seq<real>, a: seq<nat>, b: seq<nat>)
    requires 0 < |rows| == |lexical| == |semantic|
    requires forall i | i in a + b :: i < |rows| && lexical[i] > 0.0
    requires MapSeq(HitOf(rows, lexical, semantic), a) == MapSeq(HitOf(rows, lexical, semantic), b)
    ensures a == b
  {
    var f := HitOf(rows, lexical, semantic);
    assert |MapSeq(f, a)| == |a| && |MapSeq(f, b)| == |b|;
    forall k | 0 <= k < |a| ensures a[k] == b[k] {
      assert MapSeq(f, a)[k] == f(a[k]) && MapSeq(f, b)[k] == f(b[k]);
      assert a[k] in a + b && b[k] in a + b;
      assert f(a[k]) == HitAt(rows, lexical, semantic, a[k]) && f(b[k]) == HitAt(rows, lexical, semantic, b[k]);
      RanksAreABijection(lexical);
    }
  }

  lemma RowsAreMatches(lexical: seq<real>, limit: nat, i: nat)
    requires i in BestRows(lexical, limit) || i in FoundRows(lexical, limit)
    ensures i < |lexical| && lexical[i] > 0.0
  {
    var matches := Matches(lexical);
    var sorted := SortDesc(matches, CutScore(lexical));
    var cut := Take(sorted, Width(limit));
    MatchFacts(lexical);
    SortMember(matches, ScoreAt(lexical), i);
    SortMember(cut, ByRank(lexical), i);
    SortMember(matches, CutScore(lexical), i);
  }

  /**
   * Lexical search on SQLite returns the `limit` best lexical matches, best first, exactly when the cut of the
   * hybrid search underneath prefers fewer than max(4 * limit, 20) matches to each of them. The cut adds the
   * reciprocal of the row number, as all rows are equally similar to the zero vector.
   */
  lemma FallbackIsExactIff(corpus: Corpus, caller: Caller, query: string, zero: Vector, limit: nat, maths: Maths)
    requires IsZero(zero, maths)
    ensures var rows := Visible(corpus, caller);
            var lexical := LexicalScores(rows, LexicalTerms(query), maths);
            var semantic := SemanticScores(rows, zero, maths);
            LexicalSearch(corpus, caller, query, zero, limit, maths) == BestHits(rows, lexical, semantic, limit)
            <==> forall i | i in BestRows(lexical, limit) :: Preferred(lexical, i) < Width(limit)
  {
    var rows := Visible(corpus, caller);
    var lexical := LexicalScores(rows, LexicalTerms(query), maths);
    var semantic := SemanticScores(rows, zero, maths);
    assert AllZero(semantic);
    RowsAreBestIff(lexical, limit);
    forall i | i in BestRows(lexical, limit) + FoundRows(lexical, limit) ensures i < |rows| && lexical[i] > 0.0 {
      RowsAreMatches(lexical, limit, i);
    }
    if rows != [] {
      FoundHits(rows, lexical, semantic, limit);
      if LexicalSearch(corpus, caller, query, zero, limit, maths) == BestHits(rows, lexical, semantic, limit) {
        RowsFromHits(rows, lexical, semantic, BestRows(lexical, limit), FoundRows(lexical, limit));
      }
    }
  }

  /** With no more matches than the cut keeps, nothing is lost. */
  lemma FewMatchesAreExact(corpus: Corpus, caller: Caller, query: string, zero: Vector, limit: nat, maths: Maths)
    requires IsZero(zero, maths)
    requires |Matches(LexicalScores(Visible(corpus, caller), LexicalTerms(query), maths))| <= Width(limit)
    ensures var rows := Visible(corpus, caller);
            LexicalSearch(corpus, caller, query, zero, limit, maths)
            == BestHits(rows, LexicalScores(rows, LexicalTerms(query), maths), SemanticScores(rows, zero, maths), limit)
  {
    var lexical := LexicalScores(Visible(corpus, caller), LexicalTerms(query), maths);
    var matches := Matches(lexical);
    MatchFacts(lexical);
    FallbackIsExactIff(corpus, caller, query, zero, limit, maths);
    forall i | i in BestRows(lexical, limit) ensures Preferred(lexical, i) < Width(limit) {
      RowsAreMatches(lexical, limit, i);
      NotBeforeItself(matches, CutScore(lexical), i);
    }
  }

  lemma NotBeforeItself(xs: seq<nat>, key: nat -> real, i: nat)
    requires i in xs
    ensures |Filter(BeforeIt(key, i), xs)| < |xs|
  {
    var p := BeforeIt(key, i);
    FilterShrinks(p, xs);
    if |Filter(p, xs)| == |xs| {
      FilterFull(p, xs);
    }
  }
}
