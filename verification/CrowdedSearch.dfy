/** A corpus on which lexical search on SQLite does not return its best match. */
module CrowdedSearch {
  import opened Text
  import opened Lists
  import opened TextIndex
  import opened RankFusion
  import opened Search
  import opened SearchSafety
  import opened LexicalFallback

  // ----- one late match that is better than all before it -----

  /** n equal scores, and then a higher one. */
  ghost predicate LateBest(scores: seq<real>, n: nat) {
    |scores| == n + 1 && 0.0 < scores[0] < scores[n] && forall i | 0 <= i < n :: scores[i] == scores[0]
  }

  lemma {:induction false} LateBestOrder(scores: seq<real>, n: nat, lo: nat)
    requires LateBest(scores, n) && lo <= n
    ensures SortDesc(Indices(lo, n + 1), ScoreAt(scores)) == [n] + Indices(lo, n)
    decreases n - lo
  {
    assert Indices(lo, n + 1) == [lo] + Indices(lo + 1, n + 1);
    if lo < n {
      LateBestOrder(scores, n, lo + 1);
      var rest := Indices(lo + 1, n);
      IndicesFacts(lo + 1, n);
      assert ([n] + rest)[1..] == rest;
      assert rest != [] ==> rest[0] == lo + 1;
      assert Insert(lo, rest, ScoreAt(scores)) == [lo] + rest;
    }
  }

  lemma LateBestRanks(scores: seq<real>, n: nat, i: nat)
    requires LateBest(scores, n) && i < n
    ensures Rank(scores, n) == 1 && Rank(scores, i) == i + 2
  {
    LateBestOrder(scores, n, 0);
    PlaceInIndices(0, n, i);
    assert ([n] + Indices(0, n))[1..] == Indices(0, n);
  }

  lemma {:induction false} AllMatch(scores: seq<real>, lo: nat)
    requires lo <= |scores| && forall i | 0 <= i < |scores| :: scores[i] > 0.0
    ensures Filter(IsMatch(scores), Indices(lo, |scores|)) == Indices(lo, |scores|)
    decreases |scores| - lo
  {
    IndicesFacts(lo, |scores|);
    FilterAll(IsMatch(scores), Indices(lo, |scores|));
  }

  lemma {:induction false} AtLeast(p: nat -> bool, xs: seq<nat>, m: nat)
    requires m <= |xs| && forall k | 0 <= k < m :: p(xs[k])
    ensures |Filter(p, xs)| >= m
  {
    if m > 0 {
      AtLeast(p, xs[1..], m - 1);
    }
  }

  lemma EarlyRowsScoreMore(k: nat)
    requires k < 20
    ensures Reciprocal(k + 2) + Reciprocal(k + 1) > Reciprocal(1) + Reciprocal(60)
  {
    ReciprocalFacts(k + 2, 21);
    ReciprocalFacts(k + 1, 20);
  }

  /** With 59 matches before it, the best one scores 1/61 + 1/120, and each of the first 20 at least 1/81 + 1/80. */
  lemma EarlyRowIsPreferred(scores: seq<real>, k: nat)
    requires LateBest(scores, 59) && k < 20
    ensures BeforeIt(CutScore(scores), 59)(k)
  {
    LateBestRanks(scores, 59, k);
    EarlyRowsScoreMore(k);
  }

  lemma TwentyArePreferred(scores: seq<real>)
    requires LateBest(scores, 59)
    ensures Preferred(scores, 59) >= 20
  {
    var rows := Indices(0, 60);
    IndicesFacts(0, 60);
    AllMatch(scores, 0);
    forall k: nat | k < 20 ensures BeforeIt(CutScore(scores), 59)(rows[k]) { EarlyRowIsPreferred(scores, k); }
    AtLeast(BeforeIt(CutScore(scores), 59), rows, 20);
  }

  // ----- the corpus -----

  const WORD: string := "vpn"

  function ChunkOf(id: nat, content: string): ChunkRow {
    ChunkRow(id, DocumentInfo(0, "handbook", "Handbook", "public", "internal"), true, 1, id, "", None, content, "",
             false, LexicalText("" + " " + content), [])
  }

  /** 59 chunks that say the word once, and one that says it twice. */
  function Crowd(): seq<ChunkRow> {
    seq(59, i requires 0 <= i < 59 => ChunkOf(i, WORD)) + [ChunkOf(59, WORD + " " + WORD)]
  }

  function Reader(): Caller {
    Caller("reader", {"viewer"}, {}, {}, true)
  }

  lemma LowerFixed(s: string)
    requires forall c | c in s :: LowerChar(c) == c
    ensures Lower(s) == s
  {
  }

  lemma WordIsTerm()
    ensures IsLatinTerm(WORD)
  {
  }

  /** The word once or twice, as a text. */
  lemma PlainText(words: seq<string>)
    requires words == [WORD] || words == [WORD, WORD]
    ensures Join(' ', words) == (if |words| == 1 then WORD else WORD + " " + WORD)
    ensures Lower(Join(' ', words)) == Join(' ', words) && Lower(" " + Join(' ', words)) == " " + Join(' ', words)
  {
    var s := Join(' ', words);
    assert s == if |words| == 1 then WORD else WORD + " " + WORD;
    LowerPlain(s);
    LowerPlain(" " + s);
  }

  lemma LowerPlain(s: string)
    requires forall c | c in s :: c == 'v' || c == 'p' || c == 'n' || c == ' '
    ensures Lower(s) == s
  {
    LowerFixed(s);
  }

  /** The terms of that text, also behind an empty heading. */
  lemma TermsOf(words: seq<string>)
    requires words == [WORD] || words == [WORD, WORD]
    ensures LexicalTerms(Join(' ', words)) == words && LexicalTerms(" " + Join(' ', words)) == words
  {
    PlainText(words);
    WordIsTerm();
    JoinedTerms(words, []);
    assert words + [] == words;
    LatinRunsSkip(" ", Join(' ', words));
    CjkPairsSkip(" ", Join(' ', words));
  }

  lemma StoredText(id: nat, content: string)
    ensures ChunkOf(id, content).searchText == LexicalText(" " + content)
  {
    assert "" + " " + content == " " + content;
  }

  lemma WordsOfChunk(id: nat, words: seq<string>)
    requires words == [WORD] || words == [WORD, WORD]
    ensures Words(ChunkOf(id, Join(' ', words))) == words
  {
    TermsOf(words);
    StoredText(id, Join(' ', words));
    SearchTextSplitsBack(" " + Join(' ', words));
  }

  /** 60 rows: every one holds the word once and nothing else, except the last, which holds it twice. */
  ghost predicate IsCrowd(rows: seq<ChunkRow>, word: string) {
    |rows| == 60 && (forall i | 0 <= i < 59 :: Words(rows[i]) == [word]) && Words(rows[59]) == [word, word]
  }

  lemma CrowdIsOne()
    ensures IsCrowd(Crowd(), WORD)
  {
    forall i | 0 <= i < 59 ensures Words(Crowd()[i]) == [WORD] {
      WordsOfChunk(i, [WORD]);
      PlainText([WORD]);
    }
    WordsOfChunk(59, [WORD, WORD]);
    PlainText([WORD, WORD]);
  }

  lemma {:induction false} WordTotal(rows: seq<ChunkRow>, last: ChunkRow)
    requires forall i | 0 <= i < |rows| :: |Words(rows[i])| == 1
    ensures TotalWords(rows + [last]) == |rows| + |Words(last)|
  {
    if rows != [] {
      WordTotal(rows[1..], last);
      assert (rows + [last])[1..] == rows[1..] + [last];
    } else {
      assert rows + [last] == [last] && [last][1..] == [];
    }
  }

  lemma CrowdAverage(rows: seq<ChunkRow>, word: string)
    requires IsCrowd(rows, word)
    ensures AverageLength(rows) == 61.0 / 60.0
  {
    WordTotal(rows[..59], rows[59]);
    assert rows == rows[..59] + [rows[59]];
  }

  lemma TwiceWeighsMore()
    ensures 0.0 < Saturation(1, 1, 61.0 / 60.0) < Saturation(2, 2, 61.0 / 60.0)
  {
  }

  lemma {:induction false} CountAll(words: seq<string>, word: string)
    requires forall i | 0 <= i < |words| :: words[i] == word
    ensures Count(words, word) == |words|
  {
    if words != [] {
      CountAll(words[1..], word);
    }
  }

  function Weight(rows: seq<ChunkRow>, word: string, maths: Maths): real {
    maths.ln(Rarity(|rows|, DocumentFrequency(rows, word)))
  }

  lemma ScoreOfWord(rows: seq<ChunkRow>, row: ChunkRow, word: string, maths: Maths)
    requires Words(row) != [] && forall i | 0 <= i < |Words(row)| :: Words(row)[i] == word
    ensures LexicalScore(rows, row, [word], maths)
            == Weight(rows, word, maths) * Saturation(|Words(row)|, |Words(row)|, AverageLength(rows))
  {
    CountAll(Words(row), word);
    SingleTerm(rows, row, word, maths);
    TermWithCount(rows, row, word, maths, |Words(row)|);
  }

  lemma TermWithCount(rows: seq<ChunkRow>, row: ChunkRow, word: string, maths: Maths, times: nat)
    requires times > 0 && Count(Words(row), word) == times
    ensures TermScore(rows, row, word, maths)
            == Weight(rows, word, maths) * Saturation(times, |Words(row)|, AverageLength(rows))
  {
    var f := Count(Words(row), word);
    assert TermScore(rows, row, word, maths)
        == maths.ln(Rarity(|rows|, DocumentFrequency(rows, word))) * Saturation(f, |Words(row)|, AverageLength(rows));
  }

  lemma SingleTerm(rows: seq<ChunkRow>, row: ChunkRow, word: string, maths: Maths)
    ensures LexicalScore(rows, row, [word], maths) == TermScore(rows, row, word, maths)
  {
    assert [word][1..] == [];
    assert LexicalScore(rows, row, [], maths) == 0.0;
  }

  lemma ScalesUp(weight: real, a: real, b: real)
    requires weight > 0.0 && 0.0 < a < b
    ensures 0.0 < weight * a < weight * b
  {
  }

  lemma MakeLateBest(scores: seq<real>, n: nat, low: real, high: real)
    requires n > 0 && |scores| == n + 1 && 0.0 < low < high && scores[n] == high
    requires forall i | 0 <= i < n :: scores[i] == low
    ensures LateBest(scores, n)
  {
  }

  /** The score of a row of the crowd that holds the word that many times. */
  function CrowdLevel(rows: seq<ChunkRow>, word: string, maths: Maths, times: nat): real
    requires times > 0
  {
    Weight(rows, word, maths) * Saturation(times, times, 61.0 / 60.0)
  }

  lemma LevelsDiffer(rows: seq<ChunkRow>, word: string, maths: Maths)
    requires maths.Sane()
    ensures 0.0 < CrowdLevel(rows, word, maths, 1) < CrowdLevel(rows, word, maths, 2)
  {
    TwiceWeighsMore();
    ScalesUp(Weight(rows, word, maths), Saturation(1, 1, 61.0 / 60.0), Saturation(2, 2, 61.0 / 60.0));
  }

  lemma CrowdScore(rows: seq<ChunkRow>, word: string, maths: Maths, i: nat)
    requires IsCrowd(rows, word) && i < 60
    ensures LexicalScores(rows, [word], maths)[i] == CrowdLevel(rows, word, maths, if i < 59 then 1 else 2)
  {
    CrowdAverage(rows, word);
    ScoreOfWord(rows, rows[i], word, maths);
  }

  /** The chunk that says the word twice has the highest lexical score, and the others share one. */
  lemma CrowdScores(rows: seq<ChunkRow>, word: string, maths: Maths)
    requires maths.Sane() && IsCrowd(rows, word)
    ensures LateBest(LexicalScores(rows, [word], maths), 59)
  {
    var scores := LexicalScores(rows, [word], maths);
    var low, high := CrowdLevel(rows, word, maths, 1), CrowdLevel(rows, word, maths, 2);
    LevelsDiffer(rows, word, maths);
    forall i | 0 <= i < 59 ensures scores[i] == low { CrowdScore(rows, word, maths, i); }
    CrowdScore(rows, word, maths, 59);
    MakeLateBest(scores, 59, low, high);
  }

  lemma InTheOpen(i: nat)
    requires i < |Crowd()|
    ensures Crowd()[i].indexed && Allowed(Crowd()[i].document, Reader(), {})
  {
    assert Crowd()[i] == ChunkOf(i, if i < 59 then WORD else WORD + " " + WORD);
  }

  lemma AllVisible()
    ensures Visible(Corpus(Crowd(), {}), Reader()) == Crowd()
  {
    forall row | row in Crowd() ensures Sees(Reader(), {})(row) {
      var i :| 0 <= i < |Crowd()| && Crowd()[i] == row;
      InTheOpen(i);
    }
    FilterAll(Sees(Reader(), {}), Crowd());
  }

  /** The last row of a crowd has rank 1 and is not among the five found. */
  lemma LastIsLost(rows: seq<ChunkRow>, word: string, maths: Maths)
    requires maths.Sane() && IsCrowd(rows, word)
    ensures var lexical := LexicalScores(rows, [word], maths);
            Rank(lexical, 59) == 1 && 59 !in FoundRows(lexical, 5)
  {
    var lexical := LexicalScores(rows, [word], maths);
    CrowdScores(rows, word, maths);
    LateBestRanks(lexical, 59, 0);
    TwentyArePreferred(lexical);
    NotFound(lexical, 59, 5);
  }

  lemma FoundAreOthers(rows: seq<ChunkRow>, lexical: seq<real>, semantic: seq<real>, limit: nat, lost: nat, h: Hit)
    requires 0 < |rows| == |lexical| == |semantic| && lost < |rows|
    requires forall i | 0 <= i < |rows| :: rows[i].id == i
    requires lost !in FoundRows(lexical, limit)
    requires h in MapSeq(HitOf(rows, lexical, semantic), FoundRows(lexical, limit))
    ensures h.row != rows[lost]
  {
    var found := FoundRows(lexical, limit);
    var k :| 0 <= k < |found| && h == HitOf(rows, lexical, semantic)(found[k]);
    RowsAreMatches(lexical, limit, found[k]);
    assert h == HitAt(rows, lexical, semantic, found[k]);
  }

  lemma NumberedCrowd()
    ensures |Crowd()| == 60 && forall i | 0 <= i < 60 :: Crowd()[i].id == i
  {
  }

  /**
   * The last chunk is the best lexical match, and the five results of the search do not include it: it ranks
   * first by score, but among 60 rows its row number costs it one of the 20 places of the cut.
   */
  lemma BestMatchIsLost(zero: Vector, maths: Maths)
    requires maths.Sane() && IsZero(zero, maths)
    ensures Rank(LexicalScores(Crowd(), LexicalTerms(WORD), maths), 59) == 1
    ensures forall h | h in LexicalSearch(Corpus(Crowd(), {}), Reader(), WORD, zero, 5, maths) :: h.row != Crowd()[59]
  {
    TermsOf([WORD]);
    CrowdIsOne();
    AllVisible();
    NumberedCrowd();
    LostIn(Crowd(), WORD, zero, maths);
  }

  lemma LostIn(rows: seq<ChunkRow>, word: string, zero: Vector, maths: Maths)
    requires maths.Sane() && IsZero(zero, maths) && IsCrowd(rows, word)
    requires LexicalTerms(word) == [word] && forall i | 0 <= i < 60 :: rows[i].id == i
    requires Visible(Corpus(rows, {}), Reader()) == rows
    ensures Rank(LexicalScores(rows, LexicalTerms(word), maths), 59) == 1
    ensures forall h | h in LexicalSearch(Corpus(rows, {}), Reader(), word, zero, 5, maths) :: h.row != rows[59]
  {
    var lexical := LexicalScores(rows, [word], maths);
    var semantic := SemanticScores(rows, zero, maths);
    LastIsLost(rows, word, maths);
    FoundHits(rows, lexical, semantic, 5);
    forall h | h in MapSeq(HitOf(rows, lexical, semantic), FoundRows(lexical, 5)) ensures h.row != rows[59] {
      FoundAreOthers(rows, lexical, semantic, 5, 59, h);
    }
  }

  lemma NotFound(lexical: seq<real>, i: nat, limit: nat)
    requires Preferred(lexical, i) >= Width(limit)
    ensures i !in FoundRows(lexical, limit)
  {
    var matches := Matches(lexical);
    var cut := Take(SortDesc(matches, CutScore(lexical)), Width(limit));
    MatchFacts(lexical);
    SortMember(cut, ByRank(lexical), i);
    SortMember(matches, CutScore(lexical), i);
    if i in matches {
      CutKeepsIff(matches, CutScore(lexical), Width(limit), i);
    }
  }
}
