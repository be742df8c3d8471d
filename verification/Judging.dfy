/** backend/evaluation.py: what a golden case measures, what the figures count, and when the gate closes. */
module Judging {
  import opened Text
  import opened Lists
  import opened TextIndex
  import opened Search
  import opened SearchSafety
  import opened Rerank
  import opened Retrieval
  import opened Faithfulness
  import opened Evaluation
  import Access

  // ----- one case -----

  /** The hit comes from the document that the case names. */
  predicate IsExpectedSource(c: Case, h: Hit) {
    h.row.document.sourceKey == Strip(c.expectedKey)
  }

  predicate StandsAt(part: string, text: string, k: nat) {
    k + |part| <= |text| && text[k..k + |part|] == part
  }

  /** `part` stands in `text` at some place. */
  ghost predicate StandsIn(part: string, text: string) {
    exists k: nat :: StandsAt(part, text, k)
  }

  /** The heading contains the expected one, without regard to case or surrounding white space; a blank one is in every heading. */
  ghost predicate NamesHeading(c: Case, h: Hit) {
    IsBlank(c.expectedHeading) || StandsIn(Lower(Strip(c.expectedHeading)), Lower(Strip(h.row.heading)))
  }

  lemma ContainsIff(text: string, part: string)
    ensures Contains(text, part) <==> StandsIn(part, text)
  {
    if k: nat :| k <= |text| && part <= text[k..] {
      assert text[k..][..|part|] == text[k..k + |part|];
      assert StandsAt(part, text, k);
    }
    if k: nat :| StandsAt(part, text, k) {
      assert text[k..][..|part|] == text[k..k + |part|];
      assert part <= text[k..];
    }
  }

  lemma HeadingMatchesIff(c: Case, h: Hit)
    ensures HeadingMatches(c)(h) <==> NamesHeading(c, h)
  {
    ContainsIff(Lower(Strip(h.row.heading)), Lower(Strip(c.expectedHeading)));
    assert |Lower(Strip(c.expectedHeading))| == |Strip(c.expectedHeading)|;
  }

  /** r is the rank of the first hit of the expected document. */
  ghost predicate IsRank(c: Case, hits: seq<Hit>, r: nat) {
    1 <= r <= |hits| && IsExpectedSource(c, hits[r - 1]) && forall j | 0 <= j < r - 1 :: !IsExpectedSource(c, hits[j])
  }

  ghost function Sourced(c: Case): Hit -> bool {
    (h: Hit) => IsExpectedSource(c, h)
  }

  ghost function Named(c: Case): Hit -> bool {
    (h: Hit) => NamesHeading(c, h)
  }

  lemma SameJudgment<T(!new)>(mine: T -> bool, right: T -> bool, mine': T -> bool, right': T -> bool, xs: seq<T>,
        rank: Option<nat>, strict: bool, relaxed: bool)
    requires JudgedOn(mine, right, xs, rank, strict, relaxed)
    requires forall x :: mine(x) == mine'(x) && right(x) == right'(x)
    ensures JudgedOn(mine', right', xs, rank, strict, relaxed)
  {
    if relaxed {
      var j :| 0 <= j < |xs| && mine(xs[j]) && right(xs[j]);
      assert mine'(xs[j]) && right'(xs[j]);
    }
  }

  lemma JudgedAsExpected<T>(mine: T -> bool, right: T -> bool, xs: seq<T>, rank: Option<nat>, strict: bool, relaxed: bool)
    requires JudgedOn(mine, right, xs, rank, strict, relaxed)
    ensures rank.Some? <==> exists x :: x in xs && mine(x)
    ensures relaxed <==> exists x :: x in xs && mine(x) && right(x)
  {
    if relaxed {
      var j :| 0 <= j < |xs| && mine(xs[j]) && right(xs[j]);
      assert xs[j] in xs;
    }
  }

  lemma JudgedOnCase(c: Case, hits: seq<Hit>, generator: Generator, r: CaseResult)
    requires Judged(c, hits, generator, r) && !c.expectRefusal
    ensures r.citationOk.Some? && r.citationStrict.Some? && r.retrieved == r.matchedRank.Some?
    ensures JudgedOn(Sourced(c), Named(c), hits, r.matchedRank, r.citationStrict.value, r.citationOk.value)
  {
    forall h: Hit ensures HeadingMatches(c)(h) == Named(c)(h) { HeadingMatchesIff(c, h); }
    SameJudgment(FromExpected(c), HeadingMatches(c), Sourced(c), Named(c), hits, r.matchedRank, r.citationStrict.value,
                 r.citationOk.value);
  }

  lemma SourcedAndNamed(c: Case, hits: seq<Hit>)
    ensures (exists h :: h in hits && Sourced(c)(h)) <==> exists h :: h in hits && IsExpectedSource(c, h)
    ensures (exists h :: h in hits && Sourced(c)(h) && Named(c)(h))
            <==> exists h :: h in hits && IsExpectedSource(c, h) && NamesHeading(c, h)
  {
  }

  /**
   * A case counts as retrieved exactly when some hit comes from the expected document, and as cited exactly when some such
   * hit carries the expected heading.
   */
  lemma CaseIsJudgedOn(c: Case, hits: seq<Hit>, generator: Generator, r: CaseResult)
    requires Judged(c, hits, generator, r) && !c.expectRefusal
    ensures r.retrieved <==> exists h :: h in hits && IsExpectedSource(c, h)
    ensures r.citationOk == Some(exists h :: h in hits && IsExpectedSource(c, h) && NamesHeading(c, h))
  {
    JudgedOnCase(c, hits, generator, r);
    JudgedAsExpected(Sourced(c), Named(c), hits, r.matchedRank, r.citationStrict.value, r.citationOk.value);
    SourcedAndNamed(c, hits);
  }

  /** The rank is that of the first such hit, and it is cited strictly exactly when that hit carries the heading. */
  lemma FirstHitIsRanked(c: Case, hits: seq<Hit>, generator: Generator, r: CaseResult)
    requires Judged(c, hits, generator, r) && !c.expectRefusal
    ensures r.retrieved ==> r.matchedRank.Some? && IsRank(c, hits, r.matchedRank.value)
                            && r.citationStrict == Some(NamesHeading(c, hits[r.matchedRank.value - 1]))
    ensures !r.retrieved ==> r.matchedRank.None? && r.citationStrict == Some(false)
  {
    JudgedOnCase(c, hits, generator, r);
    if r.retrieved {
      RankOfFirst(c, hits, r.matchedRank.value);
    }
  }

  lemma RankOfFirst(c: Case, hits: seq<Hit>, r: nat)
    requires IsFirstRank(Sourced(c), hits, r)
    ensures IsRank(c, hits, r) && Named(c)(hits[r - 1]) == NamesHeading(c, hits[r - 1])
  {
    forall j | 0 <= j < r - 1 ensures !IsExpectedSource(c, hits[j]) {
      assert !Sourced(c)(hits[j]);
    }
  }

  /** A right document under the wrong heading is found, but loses the citation. */
  lemma WrongHeadingIsNoCitation(c: Case, hits: seq<Hit>, generator: Generator, r: CaseResult)
    requires Judged(c, hits, generator, r) && !c.expectRefusal
    requires exists h :: h in hits && IsExpectedSource(c, h)
    requires forall h | h in hits && IsExpectedSource(c, h) :: !NamesHeading(c, h)
    ensures r.retrieved && r.citationOk == Some(false) && !HasPassed()(r)
  {
    CaseIsJudgedOn(c, hits, generator, r);
  }

  /** A question that should be refused passes exactly when nothing is found. */
  lemma RefusalPassesIff(c: Case, hits: seq<Hit>, generator: Generator, r: CaseResult)
    requires Judged(c, hits, generator, r) && c.expectRefusal
    ensures HasPassed()(r) <==> hits == []
  {
  }

  /** The context is the text of the hits in their order, a blank line between neighbours; a parent text stands for its chunk. */
  lemma {:induction false} ContextIsJoined(a: seq<Hit>, b: seq<Hit>)
    requires a != [] && b != []
    ensures Context(a + b) == Context(a) + "\n\n" + Context(b)
    ensures Context(a[..1]) == if a[0].row.parentContent == "" then a[0].row.content else a[0].row.parentContent
  {
    assert (a + b)[0] == a[0] && (a + b)[1..] == a[1..] + b;
    if |a| > 1 {
      ContextIsJoined(a[1..], b);
    } else {
      assert a[1..] + b == b;
    }
  }

  /** A case is judged on everything that production retrieval returns: the cut at top_k removes nothing more. */
  lemma JudgedOnAllResults(settings: Settings, corpus: Corpus, caller: Caller, c: Case, embed: string -> Option<Vector>,
        maths: Maths)
    ensures HitsFor(settings, corpus, caller, c, embed, maths)
         == Retrieve(settings, corpus, caller, c.question, embed(c.question), maths)
  {
    if HasIndexedChunks(corpus) {
      ResultsAreDistinct(settings, c.question,
                         Candidates(corpus, caller, c.question, embed(c.question), CandidateLimit(settings), maths), maths);
    }
  }

  /** With a model, its answer to the question over that context is what is scored; without one, the context itself. */
  lemma AnswerIsScored(c: Case, hits: seq<Hit>, generator: Generator, r: CaseResult)
    requires Judged(c, hits, generator, r) && !c.expectRefusal
    ensures hits == [] ==> r.faithfulness == None
    ensures hits != [] && generator.Some? ==>
              r.faithfulness == Some(Score(generator.value(c.question, Context(hits)), Context(hits)))
    ensures hits != [] && generator.None? ==> r.faithfulness == Some(Score(Context(hits), Context(hits)))
  {
  }

  // ----- what the evaluation may read -----

  /**
   * The evaluation reads like a viewer of the given groups and departments, but whatever the classification: an indexed
   * chunk is measured exactly when its document is public or one of those is granted it.
   */
  lemma EvaluationSees(corpus: Corpus, groups: set<string>, departments: set<string>, row: ChunkRow)
    ensures row in Visible(corpus, EvaluationCaller(groups, departments)) <==>
              row in corpus.rows && row.indexed
              && (row.document.accessScope == "public" || IsGranted(corpus.acl, row.document.id, groups, departments))
  {
    var caller := EvaluationCaller(groups, departments);
    Access.VisibleIff(corpus, caller, row);
    LowerNames();
    forall e | e in corpus.acl && e.documentId == row.document.id
      ensures Access.IsFor(e, caller) <==> IsOneOf(e, groups, departments)
    {
      if IsOneOf(e, groups, departments) && e.kind == RolePrincipal {
        assert "viewer" in caller.roles;
      }
    }
  }

  lemma LowerNames()
    ensures Lower("viewer") == "viewer" && Lower("system:evaluation") == "system:evaluation"
  {
  }

  predicate IsOneOf(e: AclEntry, groups: set<string>, departments: set<string>) {
    match e.kind
    case UserPrincipal => e.principal == "system:evaluation"
    case RolePrincipal => e.principal == "viewer"
    case GroupPrincipal => e.principal in groups
    case DepartmentPrincipal => e.principal in departments
  }

  ghost predicate IsGranted(acl: set<AclEntry>, documentId: nat, groups: set<string>, departments: set<string>) {
    exists e :: e in acl && e.documentId == documentId && IsOneOf(e, groups, departments)
  }

  // ----- the figures -----

  /** The cases, by place, that expect an answer. */
  function Asked(results: seq<CaseResult>): set<nat> {
    set i: nat | i < |results| && results[i].refusalOk.None?
  }

  function Found(results: seq<CaseResult>): set<nat> {
    set i: nat | i < |results| && results[i].refusalOk.None? && results[i].retrieved
  }

  function Cited(results: seq<CaseResult>): set<nat> {
    set i: nat | i < |results| && results[i].refusalOk.None? && results[i].citationOk == Some(true)
  }

  function CitedFirst(results: seq<CaseResult>): set<nat> {
    set i: nat | i < |results| && results[i].refusalOk.None? && results[i].citationStrict == Some(true)
  }

  /** The cases that should be refused, and those of them that were. */
  function ToRefuse(results: seq<CaseResult>): set<nat> {
    set i: nat | i < |results| && results[i].refusalOk.Some?
  }

  function Refused(results: seq<CaseResult>): set<nat> {
    set i: nat | i < |results| && results[i].refusalOk == Some(true)
  }

  function Anyone(): CaseResult -> bool {
    (r: CaseResult) => true
  }

  /** part / whole, rounded to four places; no figure where there is nothing to count. */
  predicate IsShareOf(figure: Option<real>, part: set<nat>, whole: set<nat>) {
    if whole == {} then figure == None else figure == Some(Round4(|part| as real / |whole| as real))
  }

  lemma Counted(p: CaseResult -> bool, q: CaseResult -> bool, results: seq<CaseResult>, places: set<nat>)
    requires forall i: nat :: i in places <==> i < |results| && p(results[i]) && q(results[i])
    ensures |Filter(q, Filter(p, results))| == |places|
  {
    FilterCountsPlaces(p, q, results, |results|);
    assert results[..|results|] == results;
    assert Places(p, q, results, |results|) == places;
  }

  lemma CountedAll(p: CaseResult -> bool, results: seq<CaseResult>, places: set<nat>)
    requires forall i: nat :: i in places <==> i < |results| && p(results[i])
    ensures |Filter(p, results)| == |places|
  {
    Counted(p, Anyone(), results, places);
    FilterAll(Anyone(), Filter(p, results));
  }

  lemma ShareIsRatio(figure: Option<real>, part: set<nat>, whole: set<nat>)
    requires figure == Ratio(|part|, |whole|)
    ensures IsShareOf(figure, part, whole)
  {
    assert |whole| == 0 ==> whole == {};
  }

  /** Recall and the two citation figures are shares of the cases that expect an answer. */
  lemma AnswersAreShares(results: seq<CaseResult>)
    ensures var m := MetricsOf(results);
            IsShareOf(m.recall, Found(results), Asked(results)) && IsShareOf(m.citation, Cited(results), Asked(results))
            && IsShareOf(m.strict, CitedFirst(results), Asked(results))
  {
    var m := MetricsOf(results);
    CountedAll(IsExpected(), results, Asked(results));
    Counted(IsExpected(), IsRetrieved(), results, Found(results));
    Counted(IsExpected(), IsCited(), results, Cited(results));
    Counted(IsExpected(), IsCitedStrictly(), results, CitedFirst(results));
    ShareIsRatio(m.recall, Found(results), Asked(results));
    ShareIsRatio(m.citation, Cited(results), Asked(results));
    ShareIsRatio(m.strict, CitedFirst(results), Asked(results));
  }

  /** Refusal accuracy is the share of the others that were refused; what passes is what was cited or refused. */
  lemma RefusalsAreShares(results: seq<CaseResult>)
    ensures IsShareOf(MetricsOf(results).refusal, Refused(results), ToRefuse(results))
    ensures MetricsOf(results).passed == |Cited(results)| + |Refused(results)|
  {
    CountedAll(IsRefusal(), results, ToRefuse(results));
    Counted(IsRefusal(), IsRefused(), results, Refused(results));
    Counted(IsExpected(), IsCited(), results, Cited(results));
    ShareIsRatio(MetricsOf(results).refusal, Refused(results), ToRefuse(results));
    CasesAreAccountedFor(results);
  }

  // ----- faithfulness -----

  /** The cases with a score. */
  function Scored(results: seq<CaseResult>): set<nat> {
    set i: nat | i < |results| && results[i].faithfulness.Some?
  }

  function Everyone(results: seq<CaseResult>): set<nat> {
    Asked(results) + ToRefuse(results)
  }

  function ScoreOn(): CaseResult -> real {
    (r: CaseResult) => if r.faithfulness.Some? then r.faithfulness.value else 0.0
  }

  /** The scores of the cases that have one, in order. */
  function Scores(results: seq<CaseResult>): seq<real> {
    MapSeq(ScoreOn(), Filter(IsScored(), results))
  }

  function SumOf(xs: seq<real>): real {
    if xs == [] then 0.0 else SumOf(xs[..|xs| - 1]) + xs[|xs| - 1]
  }

  lemma {:induction false} SumFront(x: real, xs: seq<real>)
    ensures SumOf([x] + xs) == x + SumOf(xs)
  {
    if xs != [] {
      SumFront(x, xs[..|xs| - 1]);
      assert ([x] + xs)[..|xs|] == [x] + xs[..|xs| - 1];
    }
  }

  lemma {:induction false} TotalIsSum(results: seq<CaseResult>)
    ensures Total(results) == SumOf(MapSeq(ScoreOn(), results))
  {
    if results != [] {
      TotalIsSum(results[1..]);
      assert MapSeq(ScoreOn(), results) == [ScoreOn()(results[0])] + MapSeq(ScoreOn(), results[1..]);
      SumFront(ScoreOn()(results[0]), MapSeq(ScoreOn(), results[1..]));
    }
  }

  /** Faithfulness is the mean of the scores there are, and coverage the share of the cases that have one. */
  lemma FaithfulnessIsMean(results: seq<CaseResult>)
    ensures |Scores(results)| == |Scored(results)|
    ensures MetricsOf(results).faithfulness ==
              if Scored(results) == {} then None else Some(Round4(SumOf(Scores(results)) / |Scored(results)| as real))
    ensures IsShareOf(MetricsOf(results).coverage, Scored(results), Everyone(results))
  {
    TotalIsSum(Filter(IsScored(), results));
    CountedAll(IsScored(), results, Scored(results));
    CountedAll(Anyone(), results, Everyone(results));
    FilterAll(Anyone(), results);
    ShareIsRatio(MetricsOf(results).coverage, Scored(results), Everyone(results));
  }

  /** A case that was found and then is missed takes one from the count behind recall, and so lowers it. */
  lemma MissLowersRecall(results: seq<CaseResult>, i: nat, missed: CaseResult)
    requires i in Found(results) && missed.refusalOk.None? && !missed.retrieved
    ensures var after, n := results[i := missed], |Found(results)|;
            0 < n <= |Asked(results)|
            && MetricsOf(results).recall == Some(Round4(n as real / |Asked(results)| as real))
            && MetricsOf(after).recall == Some(Round4((n - 1) as real / |Asked(results)| as real))
  {
    var after := results[i := missed];
    AfterMiss(results, i, missed, after);
    RecallIs(results);
    RecallIs(after);
    SubsetSize(Found(results), Asked(results));
  }

  lemma AfterMiss(results: seq<CaseResult>, i: nat, missed: CaseResult, after: seq<CaseResult>)
    requires i in Found(results) && missed.refusalOk.None? && !missed.retrieved && after == results[i := missed]
    ensures Asked(after) == Asked(results) && Asked(results) != {} && Found(results) <= Asked(results)
    ensures |Found(after)| == |Found(results)| - 1
  {
    assert i in Asked(results);
    assert Found(after) == Found(results) - {i};
  }

  lemma RecallIs(results: seq<CaseResult>)
    requires Asked(results) != {}
    ensures MetricsOf(results).recall == Some(Round4(|Found(results)| as real / |Asked(results)| as real))
  {
    AnswersAreShares(results);
  }

  lemma SubsetSize(a: set<nat>, b: set<nat>)
    requires a <= b
    ensures |a| <= |b|
  {
    assert b == a + (b - a);
  }

  // ----- the gate -----

  /** A figure that is present is smaller than the floor, or has fallen below the baseline by more than is allowed. */
  predicate IsFault(gate: Gate, m: Metrics, baseline: Option<Metrics>) {
    (m.recall.Some? && m.recall.value < gate.minRecall)
    || (m.citation.Some? && m.citation.value < gate.minCitation)
    || (gate.faithfulnessEnabled && m.faithfulness.Some? && m.faithfulness.value < gate.minFaithfulness)
    || (baseline.Some? && m.recall.Some? && baseline.value.recall.Some?
        && baseline.value.recall.value - m.recall.value > gate.maxRegression)
    || (baseline.Some? && m.citation.Some? && baseline.value.citation.Some?
        && baseline.value.citation.value - m.citation.value > gate.maxRegression)
  }

  lemma FaultIff(gate: Gate, m: Metrics, baseline: Option<Metrics>)
    ensures Faultless(gate, m, baseline) <==> !IsFault(gate, m, baseline)
  {
    if IsFault(gate, m, baseline) {
      assert Has(gate, m, baseline, LowRecall) || Has(gate, m, baseline, LowCitation) || Has(gate, m, baseline, LowFaithfulness)
             || Has(gate, m, baseline, RecallRegressed) || Has(gate, m, baseline, CitationRegressed);
    } else {
      forall p: Problem ensures !Has(gate, m, baseline, p) {
      }
    }
  }

  /** The gate blocks exactly in blocking mode, with a case judged and a fault found; a run of no case is a warning. */
  lemma VerdictIff(gate: Gate, m: Metrics, baseline: Option<Metrics>)
    ensures VerdictOf(gate, m, baseline) == Unjudged <==> gate.mode == Off
    ensures VerdictOf(gate, m, baseline) == Block <==> gate.mode == Blocking && m.total > 0 && IsFault(gate, m, baseline)
    ensures VerdictOf(gate, m, baseline) == Pass <==> gate.mode != Off && m.total > 0 && !IsFault(gate, m, baseline)
  {
    FaultIff(gate, m, baseline);
  }
}
