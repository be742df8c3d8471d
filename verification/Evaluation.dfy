/** backend/evaluation.py, lines 118-335: judging the golden cases, the metrics, and the publish gate. */
module Evaluation {
  import opened Text
  import opened Lists
  import opened TextIndex
  import opened Search
  import opened SearchSafety
  import opened Rerank
  import opened Retrieval
  import opened Faithfulness

  datatype Case = Case(id: nat, question: string, expectRefusal: bool, expectedKey: string, expectedHeading: string)

  /** Fields that a refusal case does not carry are None; so is the faithfulness of an empty result. */
  datatype CaseResult = CaseResult(
    id: nat, retrieved: bool, matchedRank: Option<nat>, citationOk: Option<bool>, citationStrict: Option<bool>,
    refusalOk: Option<bool>, faithfulness: Option<real>)

  /** A model's answer to a question over a context; None is the offline default. */
  type Generator = Option<(string, string) -> string>

  // ----- one case -----

  predicate Contains(text: string, part: string) {
    exists k :: 0 <= k <= |text| && part <= text[k..]
  }

  function FromExpected(c: Case): Hit -> bool {
    (h: Hit) => SourceOf(h) == Strip(c.expectedKey)
  }

  function HeadingMatches(c: Case): Hit -> bool {
    (h: Hit) =>
      var expected := Lower(Strip(c.expectedHeading));
      expected == "" || Contains(Lower(Strip(h.row.heading)), expected)
  }

  function Context(hits: seq<Hit>): string {
    if hits == [] then "" else if |hits| == 1 then ContentOf(hits[0]) else ContentOf(hits[0]) + "\n\n" + Context(hits[1..])
  }

  /** The score of the answer a query would surface; offline the answer is the context itself. */
  function FaithfulnessOf(c: Case, hits: seq<Hit>, generator: Generator): Option<real> {
    if hits == [] then None
    else
      var context := Context(hits);
      Some(Score(if generator.Some? then generator.value(c.question, context) else context, context))
  }

  /** r is the rank, from 1, of the first element that is mine. */
  ghost predicate IsFirstRank<T>(mine: T -> bool, xs: seq<T>, r: nat) {
    1 <= r <= |xs| && mine(xs[r - 1]) && forall j | 0 <= j < r - 1 :: !mine(xs[j])
  }

  /** Some element that is mine is also right. */
  ghost predicate Cited<T>(mine: T -> bool, right: T -> bool, xs: seq<T>) {
    exists j :: 0 <= j < |xs| && mine(xs[j]) && right(xs[j])
  }

  /** What the ranks and headings of the expected document say about a result. */
  ghost predicate JudgedOn<T>(mine: T -> bool, right: T -> bool, xs: seq<T>, rank: Option<nat>, strict: bool,
        relaxed: bool) {
    && (rank.Some? ==> IsFirstRank(mine, xs, rank.value) && strict == right(xs[rank.value - 1]))
    && (rank.None? ==> !strict && forall j | 0 <= j < |xs| :: !mine(xs[j]))
    && relaxed == Cited(mine, right, xs)
  }

  /** What a case's result says about the hits it was judged on. */
  ghost predicate Judged(c: Case, hits: seq<Hit>, generator: Generator, r: CaseResult) {
    && r.id == c.id
    && (if c.expectRefusal then
          r == CaseResult(c.id, false, None, None, None, Some(hits == []), None)
        else
          && r.refusalOk == None && r.citationOk.Some? && r.citationStrict.Some?
          && r.retrieved == r.matchedRank.Some?
          && JudgedOn(FromExpected(c), HeadingMatches(c), hits, r.matchedRank, r.citationStrict.value, r.citationOk.value)
          && r.faithfulness == FaithfulnessOf(c, hits, generator))
  }

  method MatchHits<T>(mine: T -> bool, right: T -> bool, xs: seq<T>) returns (rank: Option<nat>, strict: bool,
        relaxed: bool)
    ensures JudgedOn(mine, right, xs, rank, strict, relaxed)
  {
    rank, strict, relaxed := None, false, false;
    var i := 0;
    while i < |xs|
      invariant 0 <= i <= |xs|
      invariant rank.Some? ==> rank.value <= i && IsFirstRank(mine, xs, rank.value) && strict == right(xs[rank.value - 1])
      invariant rank.None? ==> !strict && forall j | 0 <= j < i :: !mine(xs[j])
      invariant relaxed == exists j :: 0 <= j < i && mine(xs[j]) && right(xs[j])
    {
      if mine(xs[i]) {
        var matched := right(xs[i]);
        if rank.None? {
          rank, strict := Some(i + 1), matched;
        }
        if matched {
          relaxed := true;
        }
      }
      i := i + 1;
    }
  }

  method ScoreAnswer(c: Case, hits: seq<Hit>, generator: Generator) returns (faithfulness: Option<real>)
    ensures faithfulness == FaithfulnessOf(c, hits, generator)
  {
    if hits == [] {
      return None;
    }
    var context := Context(hits);
    var answer := if generator.Some? then generator.value(c.question, context) else context;
    var score := ScoreFaithfulness(answer, context);
    return Some(score);
  }

  /** _evaluate_case, on the hits retrieval returned. */
  method EvaluateCase(c: Case, hits: seq<Hit>, generator: Generator) returns (r: Result<CaseResult>)
    ensures r.Error? <==> !c.expectRefusal && Strip(c.expectedKey) == ""
    ensures r.Ok? ==> Judged(c, hits, generator, r.value)
  {
    if c.expectRefusal {
      return Ok(CaseResult(c.id, false, None, None, None, Some(hits == []), None));
    }
    if Strip(c.expectedKey) == "" {
      return Error("evaluation_case_invalid");
    }
    var rank, strict, relaxed := MatchHits(FromExpected(c), HeadingMatches(c), hits);
    var faithfulness := ScoreAnswer(c, hits, generator);
    return Ok(CaseResult(c.id, rank.Some?, rank, Some(rank.Some? && relaxed), Some(rank.Some? && strict), None, faithfulness));
  }

  /** Strict citation implies citation, and citation implies retrieval; scores lie in [0, 1], and refusals have none. */
  ghost predicate Consistent(r: CaseResult) {
    && (r.refusalOk.None? <==> r.citationOk.Some?) && (r.citationOk.Some? <==> r.citationStrict.Some?)
    && (r.citationStrict == Some(true) ==> r.citationOk == Some(true))
    && (r.citationOk == Some(true) ==> r.retrieved)
    && (r.faithfulness.Some? ==> r.refusalOk.None? && 0.0 <= r.faithfulness.value <= 1.0)
  }

  lemma JudgedIsConsistent(c: Case, hits: seq<Hit>, generator: Generator, r: CaseResult)
    requires Judged(c, hits, generator, r)
    ensures Consistent(r)
  {
    if !c.expectRefusal {
      JudgedOrder(FromExpected(c), HeadingMatches(c), hits, r.matchedRank, r.citationStrict.value, r.citationOk.value);
      if hits != [] {
        var context := Context(hits);
        ScoreIsAShare(if generator.Some? then generator.value(c.question, context) else context, context);
      }
    }
  }

  lemma JudgedOrder<T>(mine: T -> bool, right: T -> bool, xs: seq<T>, rank: Option<nat>, strict: bool, relaxed: bool)
    requires JudgedOn(mine, right, xs, rank, strict, relaxed)
    ensures strict ==> relaxed
    ensures relaxed ==> rank.Some?
  {
  }

  /**
   * Offline the answer is the context, so faithfulness measures the context against itself: it is 1 unless the
   * context makes claims but has no term, and then it is 0.
   */
  lemma OfflineFaithfulness(c: Case, hits: seq<Hit>)
    requires hits != []
    ensures FaithfulnessOf(c, hits, None) ==
              Some(if SplitClaims(Context(hits)) == [] || LexicalTerms(Context(hits)) != [] then 1.0 else 0.0)
  {
    ContextIsFaithfulToItself(Context(hits));
  }

  // ----- metrics -----

  datatype Metrics = Metrics(
    total: nat, passed: nat, failed: nat, recall: Option<real>, citation: Option<real>, strict: Option<real>,
    refusal: Option<real>, faithfulness: Option<real>, coverage: Option<real>)

  function Ratio(part: nat, whole: nat): Option<real> {
    if whole == 0 then None else Some(Round4(part as real / whole as real))
  }

  function IsExpected(): CaseResult -> bool { (r: CaseResult) => r.refusalOk.None? }

  function IsRetrieved(): CaseResult -> bool { (r: CaseResult) => r.retrieved }

  function IsCited(): CaseResult -> bool { (r: CaseResult) => r.citationOk == Some(true) }

  function IsCitedStrictly(): CaseResult -> bool { (r: CaseResult) => r.citationStrict == Some(true) }

  function IsRefused(): CaseResult -> bool { (r: CaseResult) => r.refusalOk == Some(true) }

  function IsScored(): CaseResult -> bool { (r: CaseResult) => r.faithfulness.Some? }

  function IsRefusal(): CaseResult -> bool { (r: CaseResult) => r.refusalOk.Some? }

  function HasPassed(): CaseResult -> bool {
    (r: CaseResult) => if r.refusalOk.Some? then r.refusalOk.value else r.citationOk == Some(true)
  }

  function Total(results: seq<CaseResult>): real {
    if results == [] then 0.0 else (if results[0].faithfulness.Some? then results[0].faithfulness.value else 0.0) + Total(results[1..])
  }

  function MetricsOf(results: seq<CaseResult>): Metrics {
    var expected, refusals := Filter(IsExpected(), results), Filter(IsRefusal(), results);
    var passed := |Filter(HasPassed(), results)|;
    var scored := Filter(IsScored(), results);
    FilterShrinks(HasPassed(), results);
    Metrics(|results|, passed, |results| - passed,
            Ratio(|Filter(IsRetrieved(), expected)|, |expected|),
            Ratio(|Filter(IsCited(), expected)|, |expected|),
            Ratio(|Filter(IsCitedStrictly(), expected)|, |expected|),
            Ratio(|Filter(IsRefused(), refusals)|, |refusals|),
            if scored == [] then None else Some(Round4(Total(scored) / |scored| as real)),
            Ratio(|scored|, |results|))
  }

  lemma RatioIsMonotone(a: nat, b: nat, whole: nat)
    requires a <= b <= whole
    ensures whole > 0 ==> 0.0 <= Ratio(a, whole).value <= Ratio(b, whole).value <= 1.0
  {
    if whole > 0 {
      ShareBounds(a as real, whole as real);
      ShareBounds(b as real, whole as real);
      DivisionIsMonotone(a as real, b as real, whole as real);
      Round4IsMonotone(a as real / whole as real, b as real / whole as real);
      Round4OfUnit(a as real / whole as real);
      Round4OfUnit(b as real / whole as real);
    }
  }

  /** Recall and both citation figures share a denominator, are present together, and stay in order after rounding. */
  lemma CitationNeverExceedsRecall(results: seq<CaseResult>)
    requires forall r | r in results :: Consistent(r)
    ensures var m := MetricsOf(results);
            m.recall.Some? == m.citation.Some? == m.strict.Some?
            && (m.recall.Some? ==> 0.0 <= m.strict.value <= m.citation.value <= m.recall.value <= 1.0)
  {
    var expected := Filter(IsExpected(), results);
    forall r | r in expected ensures Consistent(r) { FilterMember(IsExpected(), results, r); }
    FilterCounts(IsCitedStrictly(), IsCited(), expected);
    FilterCounts(IsCited(), IsRetrieved(), expected);
    FilterShrinks(IsRetrieved(), expected);
    var strict, cited, retrieved := |Filter(IsCitedStrictly(), expected)|, |Filter(IsCited(), expected)|, |Filter(IsRetrieved(), expected)|;
    RatioIsMonotone(strict, cited, |expected|);
    RatioIsMonotone(cited, retrieved, |expected|);
  }

  /** Every case passes or fails once, and the passes are the cited answers and the correct refusals. */
  lemma CasesAreAccountedFor(results: seq<CaseResult>)
    ensures var m := MetricsOf(results);
            m.total == |results| && m.passed + m.failed == m.total
            && m.passed == |Filter(IsCited(), Filter(IsExpected(), results))| + |Filter(IsRefused(), Filter(IsRefusal(), results))|
  {
    FilterShrinks(HasPassed(), results);
    FilterByCase(IsExpected(), IsRefusal(), IsCited(), IsRefused(), HasPassed(), results);
  }

  lemma {:induction false} TotalIsBounded(results: seq<CaseResult>)
    requires forall r | r in results :: r.faithfulness.Some? ==> 0.0 <= r.faithfulness.value <= 1.0
    ensures 0.0 <= Total(results) <= |results| as real
  {
    if results != [] {
      assert forall r | r in results[1..] :: r in results;
      TotalIsBounded(results[1..]);
    }
  }

  lemma FaithfulnessIsAShare(results: seq<CaseResult>)
    requires forall r | r in results :: Consistent(r)
    ensures MetricsOf(results).faithfulness.Some? ==> 0.0 <= MetricsOf(results).faithfulness.value <= 1.0
    ensures MetricsOf(results).faithfulness.Some? <==> exists r :: r in results && r.faithfulness.Some?
  {
    var scored := Filter(IsScored(), results);
    forall r ensures r in scored <==> r in results && r.faithfulness.Some? { FilterMember(IsScored(), results, r); }
    if scored != [] {
      assert scored[0] in scored;
      TotalIsBounded(scored);
      ShareBounds(Total(scored), |scored| as real);
      Round4OfUnit(Total(scored) / |scored| as real);
    }
  }

  // ----- the gate -----

  datatype GateMode = Off | WarnOnly | Blocking

  datatype Verdict = Unjudged | Pass | Warn | Block

  datatype Problem = LowRecall | LowCitation | LowFaithfulness | RecallRegressed | CitationRegressed

  datatype Gate = Gate(mode: GateMode, minRecall: real, minCitation: real, minFaithfulness: real, maxRegression: real,
                       faithfulnessEnabled: bool)

  predicate Below(value: Option<real>, floor: real) {
    value.Some? && value.value < floor
  }

  predicate Regressed(value: Option<real>, baseline: Option<real>, allowed: real) {
    baseline.Some? && Below(value, baseline.value - allowed)
  }

  /** The gate finds this fault in the metrics. */
  predicate Has(gate: Gate, m: Metrics, baseline: Option<Metrics>, p: Problem) {
    match p
    case LowRecall => Below(m.recall, gate.minRecall)
    case LowCitation => Below(m.citation, gate.minCitation)
    case LowFaithfulness => gate.faithfulnessEnabled && Below(m.faithfulness, gate.minFaithfulness)
    case RecallRegressed => baseline.Some? && Regressed(m.recall, baseline.value.recall, gate.maxRegression)
    case CitationRegressed => baseline.Some? && Regressed(m.citation, baseline.value.citation, gate.maxRegression)
  }

  ghost predicate Faultless(gate: Gate, m: Metrics, baseline: Option<Metrics>) {
    forall p: Problem :: !Has(gate, m, baseline, p)
  }

  ghost function VerdictOf(gate: Gate, m: Metrics, baseline: Option<Metrics>): Verdict {
    if gate.mode == Off then Unjudged
    else if m.total == 0 then Warn
    else if Faultless(gate, m, baseline) then Pass
    else if gate.mode == Blocking then Block else Warn
  }

  /** _decide: the verdict, and exactly the faults behind it. */
  method Decide(gate: Gate, m: Metrics, baseline: Option<Metrics>) returns (verdict: Verdict, problems: seq<Problem>)
    ensures verdict == VerdictOf(gate, m, baseline)
    ensures gate.mode != Off && m.total > 0 ==> forall p :: p in problems <==> Has(gate, m, baseline, p)
  {
    problems := [];
    if gate.mode == Off {
      return Unjudged, [];
    }
    if m.total == 0 {
      return Warn, [];
    }
    if Below(m.recall, gate.minRecall) {
      problems := problems + [LowRecall];
    }
    if Below(m.citation, gate.minCitation) {
      problems := problems + [LowCitation];
    }
    if gate.faithfulnessEnabled && Below(m.faithfulness, gate.minFaithfulness) {
      problems := problems + [LowFaithfulness];
    }
    if baseline.Some? {
      if Regressed(m.recall, baseline.value.recall, gate.maxRegression) {
        problems := problems + [RecallRegressed];
      }
      if Regressed(m.citation, baseline.value.citation, gate.maxRegression) {
        problems := problems + [CitationRegressed];
      }
    }
    assert forall p :: p in problems <==> Has(gate, m, baseline, p);
    if problems == [] {
      return Pass, problems;
    }
    assert Has(gate, m, baseline, problems[0]);
    return (if gate.mode == Blocking then Block else Warn), problems;
  }

  /** The same entry, missing in both or at least as large. */
  predicate AtLeast(better: Option<real>, worse: Option<real>) {
    better.Some? == worse.Some? && (worse.Some? ==> better.value >= worse.value)
  }

  /** What the gate reads is at least as good, with the same entries missing. */
  predicate Improves(better: Metrics, worse: Metrics) {
    (better.total == 0 <==> worse.total == 0)
    && AtLeast(better.recall, worse.recall) && AtLeast(better.citation, worse.citation)
    && AtLeast(better.faithfulness, worse.faithfulness)
  }

  function Severity(v: Verdict): nat {
    match v case Unjudged => 0 case Pass => 0 case Warn => 1 case Block => 2
  }

  /** Better metrics never get a harsher verdict, and never one with a new fault. */
  lemma GateIsMonotone(gate: Gate, better: Metrics, worse: Metrics, baseline: Option<Metrics>)
    requires Improves(better, worse)
    ensures forall p | Has(gate, better, baseline, p) :: Has(gate, worse, baseline, p)
    ensures Severity(VerdictOf(gate, better, baseline)) <= Severity(VerdictOf(gate, worse, baseline))
    ensures VerdictOf(gate, worse, baseline) == Pass ==> VerdictOf(gate, better, baseline) == Pass
  {
  }

  lemma {:induction false} ScoredAreExpected(results: seq<CaseResult>)
    requires forall r | r in results :: Consistent(r)
    ensures Filter(IsScored(), Filter(IsExpected(), results)) == Filter(IsScored(), results)
  {
    if results != [] {
      assert Consistent(results[0]);
      ScoredAreExpected(results[1..]);
      var rest := Filter(IsExpected(), results[1..]);
      if IsExpected()(results[0]) {
        assert Filter(IsExpected(), results) == [results[0]] + rest && ([results[0]] + rest)[1..] == rest;
      } else {
        assert Filter(IsExpected(), results) == rest;
      }
    }
  }

  /** What the gate reads of a result list is decided by the cases that expect an answer. */
  lemma FiguresIgnoreRefusals(a: seq<CaseResult>, b: seq<CaseResult>)
    requires forall r | r in a + b :: Consistent(r)
    requires Filter(IsExpected(), a) == Filter(IsExpected(), b)
    ensures var m, n := MetricsOf(a), MetricsOf(b);
            m.recall == n.recall && m.citation == n.citation && m.strict == n.strict && m.faithfulness == n.faithfulness
  {
    assert forall r | r in a :: r in a + b;
    assert forall r | r in b :: r in a + b;
    ScoredAreExpected(a);
    ScoredAreExpected(b);
  }

  /**
   * The gate does not look at refusals: two runs with the same results for the questions that expect an answer
   * get the same verdict for the same faults, and are the same baseline, whatever was answered to the questions
   * that should have been refused and however many of those there are. Only a run of no case at all differs.
   */
  lemma GateIgnoresRefusals(gate: Gate, a: seq<CaseResult>, b: seq<CaseResult>, baseline: Option<Metrics>, m: Metrics)
    requires forall r | r in a + b :: Consistent(r)
    requires Filter(IsExpected(), a) == Filter(IsExpected(), b) && (a == [] <==> b == [])
    ensures forall p :: Has(gate, MetricsOf(a), baseline, p) <==> Has(gate, MetricsOf(b), baseline, p)
    ensures VerdictOf(gate, MetricsOf(a), baseline) == VerdictOf(gate, MetricsOf(b), baseline)
    ensures VerdictOf(gate, m, Some(MetricsOf(a))) == VerdictOf(gate, m, Some(MetricsOf(b)))
  {
    FiguresIgnoreRefusals(a, b);
    ForAnyFigures(gate, MetricsOf(a), MetricsOf(b), baseline);
    ForAnyBaseline(gate, m, MetricsOf(a), MetricsOf(b));
  }

  lemma ForAnyFigures(gate: Gate, m: Metrics, n: Metrics, baseline: Option<Metrics>)
    requires m.recall == n.recall && m.citation == n.citation && m.faithfulness == n.faithfulness
    requires m.total == 0 <==> n.total == 0
    ensures forall p :: Has(gate, m, baseline, p) <==> Has(gate, n, baseline, p)
    ensures VerdictOf(gate, m, baseline) == VerdictOf(gate, n, baseline)
  {
  }

  lemma ForAnyBaseline(gate: Gate, m: Metrics, prior: Metrics, other: Metrics)
    requires prior.recall == other.recall && prior.citation == other.citation
    ensures VerdictOf(gate, m, Some(prior)) == VerdictOf(gate, m, Some(other))
  {
    assert forall p :: Has(gate, m, Some(prior), p) <==> Has(gate, m, Some(other), p);
  }

  /** Case by case: the answer to a refusal case may change, nothing else. */
  ghost predicate DifferInRefusals(a: seq<CaseResult>, b: seq<CaseResult>) {
    |a| == |b| && forall i | 0 <= i < |a| :: a[i] == b[i] || (a[i].refusalOk.Some? && b[i].refusalOk.Some?)
  }

  /** In any golden set, changing what was answered to refusal cases changes no verdict. */
  lemma RefusalAnswersDoNotMatter(gate: Gate, a: seq<CaseResult>, b: seq<CaseResult>, baseline: Option<Metrics>)
    requires forall r | r in a + b :: Consistent(r)
    requires DifferInRefusals(a, b)
    ensures VerdictOf(gate, MetricsOf(a), baseline) == VerdictOf(gate, MetricsOf(b), baseline)
  {
    FilterAgrees(IsExpected(), a, b);
    GateIgnoresRefusals(gate, a, b, baseline, MetricsOf(a));
  }

  /** In particular, a golden set of nothing but refusal cases passes in every judging mode. */
  lemma RefusalsAloneAlwaysPass(gate: Gate, results: seq<CaseResult>, baseline: Option<Metrics>)
    requires gate.mode != Off && results != []
    requires forall r | r in results :: Consistent(r) && r.refusalOk.Some?
    ensures VerdictOf(gate, MetricsOf(results), baseline) == Pass
  {
    FilterNone(IsExpected(), results);
    ScoredAreExpected(results);
  }

  // ----- a whole run -----

  datatype Run = Run(results: seq<CaseResult>, metrics: Metrics, verdict: Verdict)

  /** The fixed identity of every evaluation: a plain viewer, with clearance. */
  function EvaluationCaller(groups: set<string>, departments: set<string>): Caller {
    Caller("system:evaluation", {"viewer"}, groups, departments, true)
  }

  predicate IsValid(c: Case) {
    c.expectRefusal || Strip(c.expectedKey) != ""
  }

  ghost predicate AllValid(cases: seq<Case>) {
    forall c | c in cases :: IsValid(c)
  }

  lemma ValidSoFar(cases: seq<Case>, i: nat)
    requires i < |cases|
    ensures AllValid(cases[..i + 1]) <==> AllValid(cases[..i]) && IsValid(cases[i])
    ensures AllValid(cases) ==> IsValid(cases[i])
  {
    assert cases[..i + 1] == cases[..i] + [cases[i]];
  }

  /** What production retrieval returns for a case; `embed` is the embedding service's answer. */
  function HitsFor(settings: Settings, corpus: Corpus, caller: Caller, c: Case,
        embed: string -> Option<Vector>, maths: Maths): seq<Hit> {
    Take(Retrieve(settings, corpus, caller, c.question, embed(c.question), maths), Max(1, settings.topK))
  }

  /** The judgment of one case in a run. */
  ghost predicate JudgedIn(settings: Settings, corpus: Corpus, caller: Caller, c: Case, embed: string -> Option<Vector>,
                           maths: Maths, generator: Generator, r: CaseResult) {
    Judged(c, HitsFor(settings, corpus, caller, c, embed, maths), generator, r)
  }

  /** All cases judged on one corpus. */
  ghost predicate JudgedAll(cases: seq<Case>, settings: Settings, corpus: Corpus, caller: Caller,
        embed: string -> Option<Vector>, maths: Maths, generator: Generator, results: seq<CaseResult>) {
    |results| == |cases|
    && forall i | 0 <= i < |cases| :: JudgedIn(settings, corpus, caller, cases[i], embed, maths, generator, results[i])
  }

  lemma JudgedSnoc(cases: seq<Case>, settings: Settings, corpus: Corpus, caller: Caller, embed: string -> Option<Vector>,
                   maths: Maths, generator: Generator, results: seq<CaseResult>, c: Case, r: CaseResult)
    requires JudgedAll(cases, settings, corpus, caller, embed, maths, generator, results)
    requires JudgedIn(settings, corpus, caller, c, embed, maths, generator, r)
    ensures JudgedAll(cases + [c], settings, corpus, caller, embed, maths, generator, results + [r])
  {
  }

  method JudgeCase(settings: Settings, corpus: Corpus, caller: Caller, c: Case, embed: string -> Option<Vector>,
                   maths: Maths, generator: Generator) returns (r: Result<CaseResult>)
    ensures r.Ok? <==> IsValid(c)
    ensures r.Ok? ==> JudgedIn(settings, corpus, caller, c, embed, maths, generator, r.value)
  {
    var found := RetrieveHits(settings, corpus, caller, c.question, embed(c.question), maths);
    var hits := Take(found, Max(1, settings.topK));
    r := EvaluateCase(c, hits, generator);
  }

  method JudgeCases(cases: seq<Case>, settings: Settings, corpus: Corpus, caller: Caller,
        embed: string -> Option<Vector>,
                    maths: Maths, generator: Generator) returns (judged: Result<seq<CaseResult>>)
    ensures judged.Ok? <==> AllValid(cases)
    ensures judged.Ok? ==> JudgedAll(cases, settings, corpus, caller, embed, maths, generator, judged.value)
  {
    var results: seq<CaseResult> := [];
    var i := 0;
    while i < |cases|
      invariant 0 <= i <= |cases|
      invariant AllValid(cases[..i])
      invariant JudgedAll(cases[..i], settings, corpus, caller, embed, maths, generator, results)
    {
      var result := JudgeCase(settings, corpus, caller, cases[i], embed, maths, generator);
      ValidSoFar(cases, i);
      if result.Error? {
        return Error(result.code);
      }
      JudgedSnoc(cases[..i], settings, corpus, caller, embed, maths, generator, results, cases[i], result.value);
      assert cases[..i] + [cases[i]] == cases[..i + 1];
      results := results + [result.value];
      i := i + 1;
    }
    assert cases[..i] == cases;
    return Ok(results);
  }

  /**
   * One run over the active cases, on production retrieval. A case that is neither a refusal nor names a document
   * fails the whole run; otherwise every case is judged in turn and the metrics are those of the judgments.
   */
  method RunGoldenSet(cases: seq<Case>, settings: Settings, corpus: Corpus, groups: set<string>,
        departments: set<string>,
                      embed: string -> Option<Vector>, maths: Maths, generator: Generator, gate: Gate, baseline: Option<Metrics>)
      returns (run: Result<Run>)
    ensures run.Ok? <==> AllValid(cases)
    ensures run.Ok? ==>
              JudgedAll(cases, settings, corpus, EvaluationCaller(groups, departments), embed, maths, generator, run.value.results)
    ensures run.Ok? ==> run.value.metrics == MetricsOf(run.value.results)
    ensures run.Ok? ==> run.value.verdict == VerdictOf(gate, run.value.metrics, baseline)
  {
    var judged := JudgeCases(cases, settings, corpus, EvaluationCaller(groups, departments), embed, maths, generator);
    if judged.Error? {
      return Error(judged.code);
    }
    var metrics := MetricsOf(judged.value);
    var verdict, problems := Decide(gate, metrics, baseline);
    return Ok(Run(judged.value, metrics, verdict));
  }

  /** So the figures of every run are in order, whatever the corpus, the embeddings and the model answer. */
  lemma RunsAreInOrder(cases: seq<Case>, settings: Settings, corpus: Corpus, caller: Caller,
        embed: string -> Option<Vector>,
                       maths: Maths, generator: Generator, results: seq<CaseResult>)
    requires JudgedAll(cases, settings, corpus, caller, embed, maths, generator, results)
    ensures var m := MetricsOf(results);
            m.recall.Some? == m.citation.Some? == m.strict.Some?
            && (m.recall.Some? ==> 0.0 <= m.strict.value <= m.citation.value <= m.recall.value <= 1.0)
  {
    forall r | r in results ensures Consistent(r) {
      var i :| 0 <= i < |results| && results[i] == r;
      JudgedIsConsistent(cases[i], HitsFor(settings, corpus, caller, cases[i], embed, maths), generator, r);
    }
    CitationNeverExceedsRecall(results);
  }

  // ----- the version that is gated -----

  lemma FirstRankIsUnique<T>(mine: T -> bool, xs: seq<T>, r: nat, s: nat)
    requires IsFirstRank(mine, xs, r) && IsFirstRank(mine, xs, s)
    ensures r == s
  {
    assert forall j | 0 <= j < s - 1 :: !mine(xs[j]);
  }

  lemma JudgedOnIsUnique<T>(mine: T -> bool, right: T -> bool, xs: seq<T>, rank: Option<nat>, strict: bool, relaxed: bool,
                            rank': Option<nat>, strict': bool, relaxed': bool)
    requires JudgedOn(mine, right, xs, rank, strict, relaxed) && JudgedOn(mine, right, xs, rank', strict', relaxed')
    ensures rank == rank' && strict == strict' && relaxed == relaxed'
  {
    if rank.Some? && rank'.Some? {
      FirstRankIsUnique(mine, xs, rank.value, rank'.value);
    }
    assert rank.Some? ==> mine(xs[rank.value - 1]);
    assert rank'.Some? ==> mine(xs[rank'.value - 1]);
  }

  /** The hits decide the judgment. */
  lemma JudgedIsUnique(c: Case, hits: seq<Hit>, generator: Generator, r: CaseResult, s: CaseResult)
    requires Judged(c, hits, generator, r) && Judged(c, hits, generator, s)
    ensures r == s
  {
    if !c.expectRefusal {
      JudgedOnIsUnique(FromExpected(c), HeadingMatches(c), hits, r.matchedRank, r.citationStrict.value, r.citationOk.value,
                       s.matchedRank, s.citationStrict.value, s.citationOk.value);
    }
  }

  lemma SameHits(settings: Settings, a: Corpus, b: Corpus, caller: Caller, c: Case, embed: string -> Option<Vector>, maths: Maths)
    requires Visible(a, caller) == Visible(b, caller)
    ensures HitsFor(settings, a, caller, c, embed, maths) == HitsFor(settings, b, caller, c, embed, maths)
  {
    OnlyVisibleRowsMatter(settings, a, b, caller, c.question, embed(c.question), maths);
  }

  /** Two corpora with the same rows readable by the evaluation give the same judgments and the same verdict. */
  lemma VerdictDependsOnVisibleRows(cases: seq<Case>, settings: Settings, a: Corpus, b: Corpus, caller: Caller,
        embed: string -> Option<Vector>, maths: Maths, generator: Generator, ra: seq<CaseResult>, rb: seq<CaseResult>,
        gate: Gate, baseline: Option<Metrics>)
    requires Visible(a, caller) == Visible(b, caller)
    requires JudgedAll(cases, settings, a, caller, embed, maths, generator, ra)
    requires JudgedAll(cases, settings, b, caller, embed, maths, generator, rb)
    ensures ra == rb && VerdictOf(gate, MetricsOf(ra), baseline) == VerdictOf(gate, MetricsOf(rb), baseline)
  {
    forall i | 0 <= i < |cases| ensures ra[i] == rb[i] {
      assert JudgedIn(settings, a, caller, cases[i], embed, maths, generator, ra[i]);
      assert JudgedIn(settings, b, caller, cases[i], embed, maths, generator, rb[i]);
      SameHits(settings, a, b, caller, cases[i], embed, maths);
      JudgedIsUnique(cases[i], HitsFor(settings, a, caller, cases[i], embed, maths), generator, ra[i], rb[i]);
    }
  }

  /**
   * So a version that is not live is not measured at all by the run that gates it: with its chunks in the corpus or
   * without, the judgments and the verdict are the same.
   */
  lemma GateNeverSeesItsVersion(cases: seq<Case>, settings: Settings, before: seq<ChunkRow>, version: seq<ChunkRow>,
        after: seq<ChunkRow>, acl: set<AclEntry>, caller: Caller, embed: string -> Option<Vector>, maths: Maths,
        generator: Generator, with: seq<CaseResult>, without: seq<CaseResult>, gate: Gate, baseline: Option<Metrics>)
    requires forall row | row in version :: !row.indexed
    requires JudgedAll(cases, settings, Corpus(before + version + after, acl), caller, embed, maths, generator, with)
    requires JudgedAll(cases, settings, Corpus(before + after, acl), caller, embed, maths, generator, without)
    ensures with == without && VerdictOf(gate, MetricsOf(with), baseline) == VerdictOf(gate, MetricsOf(without), baseline)
  {
    HiddenRowsAreInvisible(before, version, after, acl, acl, caller);
    VerdictDependsOnVisibleRows(cases, settings, Corpus(before + version + after, acl), Corpus(before + after, acl), caller,
                                embed, maths, generator, with, without, gate, baseline);
  }
}
