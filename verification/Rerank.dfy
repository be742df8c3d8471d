/** backend/rerank.py: two rerankers, each a reordering of the candidates it is given. */
module Rerank {
  import opened Text
  import opened Lists
  import opened TextIndex
  import opened RankFusion
  import opened Search

  /** What the rerank service answered: nothing usable, or a score for some of the candidate positions. */
  datatype Reply = Failed | Ranked(scores: map<nat, real>)

  datatype Reranker = LexicalReranker | ApiReranker(reply: Reply)

  function ContentOf(h: Hit): string {
    if h.row.parentContent != "" then h.row.parentContent else h.row.content
  }

  function TermsOf(h: Hit): seq<string> {
    LexicalTerms(ContentOf(h))
  }

  /** Each distinct term once. */
  function DistinctTerms(terms: seq<string>): (r: seq<string>)
    ensures forall t :: t in r <==> t in terms
    ensures forall i, j | 0 <= i < j < |r| :: r[i] != r[j]
  {
    if terms == [] then []
    else
      var rest := DistinctTerms(terms[1..]);
      if terms[0] in rest then rest else [terms[0]] + rest
  }

  /** In how many candidates the term occurs. */
  function SeenIn(candidates: seq<Hit>, term: string): (n: nat)
    ensures n <= |candidates|
  {
    if candidates == [] then 0 else (if term in TermsOf(candidates[0]) then 1 else 0) + SeenIn(candidates[1..], term)
  }

  function Sum(weight: string -> real, terms: seq<string>): real {
    if terms == [] then 0.0 else weight(terms[0]) + Sum(weight, terms[1..])
  }

  /** The saturating weight of a term among n candidates; raw length, not its ratio to the average. */
  function TermWeight(n: nat, seenIn: nat, words: seq<string>, term: string, maths: Maths): real
    requires seenIn <= n
  {
    Weigh(n, seenIn, Count(words, term), |words|, 1.0, maths)
  }

  function Weight(candidates: seq<Hit>, h: Hit, maths: Maths): string -> real {
    (term: string) => TermWeight(|candidates|, SeenIn(candidates, term), TermsOf(h), term, maths)
  }

  function Relevance(candidates: seq<Hit>, terms: seq<string>, maths: Maths): Hit -> real {
    (h: Hit) => Sum(Weight(candidates, h, maths), terms)
  }

  function Annotated(hits: seq<Hit>): (r: seq<Hit>)
    ensures |r| == |hits|
    ensures forall i | 0 <= i < |hits| :: r[i] == hits[i].(rerankRank := Some(i + 1))
  {
    seq(|hits|, i requires 0 <= i < |hits| => hits[i].(rerankRank := Some(i + 1)))
  }

  function LexicalRerank(query: string, candidates: seq<Hit>, maths: Maths): seq<Hit> {
    var terms := DistinctTerms(LexicalTerms(query));
    if candidates == [] || terms == [] then candidates
    else Annotated(SortDesc(candidates, Relevance(candidates, terms, maths)))
  }

  // ----- the service's order -----

  function ScoreIn(scores: map<nat, real>): nat -> real {
    (i: nat) => if i in scores then scores[i] else 0.0
  }

  function Scored(scores: map<nat, real>, yes: bool): nat -> bool {
    (i: nat) => (i in scores) == yes
  }

  /** Scored positions by descending score, then the positions the service left out: each of those ranks as minus infinity. */
  function ApiOrder(n: nat, scores: map<nat, real>): seq<nat> {
    SortDesc(Filter(Scored(scores, true), Indices(0, n)), ScoreIn(scores))
    + Filter(Scored(scores, false), Indices(0, n))
  }

  /** Every position once: nothing is dropped, doubled or invented, whatever the service answers. */
  lemma ApiOrderPermutes(n: nat, scores: map<nat, real>)
    ensures multiset(ApiOrder(n, scores)) == multiset(Indices(0, n))
  {
    SortFacts(Filter(Scored(scores, true), Indices(0, n)), ScoreIn(scores));
    FilterSplits(Scored(scores, true), Scored(scores, false), Indices(0, n));
  }

  /** i comes before j: a scored position before an unscored one, then the larger score, then the earlier position. */
  predicate Precedes(scores: map<nat, real>, i: nat, j: nat) {
    if i in scores && j in scores then scores[i] > scores[j] || (scores[i] == scores[j] && i < j)
    else i in scores || (j !in scores && i < j)
  }

  /** The service's order is exactly the `Precedes` order; ties and unscored positions keep their places. */
  lemma ApiOrderIsPrecedence(n: nat, scores: map<nat, real>, a: nat, b: nat)
    requires a < b < |ApiOrder(n, scores)|
    ensures Precedes(scores, ApiOrder(n, scores)[a], ApiOrder(n, scores)[b])
  {
    var present, absent := Filter(Scored(scores, true), Indices(0, n)), Filter(Scored(scores, false), Indices(0, n));
    var sorted := SortDesc(present, ScoreIn(scores));
    IndicesFacts(0, n);
    FilterIncreasing(Scored(scores, true), Indices(0, n));
    FilterIncreasing(Scored(scores, false), Indices(0, n));
    SortRanks(present, ScoreIn(scores));
    forall i: nat ensures (i in sorted ==> i in scores) && (i in absent ==> i !in scores) {
      SortMember(present, ScoreIn(scores), i);
      FilterMember(Scored(scores, true), Indices(0, n), i);
      FilterMember(Scored(scores, false), Indices(0, n), i);
    }
    var order := ApiOrder(n, scores);
    assert order[a] in sorted || order[a] in absent;
    assert order[b] in sorted || order[b] in absent;
    if b < |sorted| {
      assert Before(ScoreIn(scores), sorted[a], sorted[b]);
    }
  }

  /** The candidate at a position. */
  function At(candidates: seq<Hit>): nat -> Hit
    requires candidates != []
  {
    (i: nat) => if i < |candidates| then candidates[i] else candidates[0]
  }

  function ApiRerank(reply: Reply, query: string, candidates: seq<Hit>, maths: Maths): seq<Hit> {
    if candidates == [] then []
    else if reply.Failed? || reply.scores == map[] then LexicalRerank(query, candidates, maths)
    else Annotated(MapSeq(At(candidates), ApiOrder(|candidates|, reply.scores)))
  }

  function Reranked(reranker: Reranker, query: string, candidates: seq<Hit>, maths: Maths): seq<Hit> {
    match reranker
    case LexicalReranker => LexicalRerank(query, candidates, maths)
    case ApiReranker(reply) => ApiRerank(reply, query, candidates, maths)
  }

  // ----- the loops -----

  method CountTerms(candidates: seq<Hit>, terms: seq<string>) returns (frequency: map<string, nat>)
    ensures frequency.Keys == set t | t in terms
    ensures forall t | t in terms :: frequency[t] == SeenIn(candidates, t)
  {
    frequency := map t | t in terms :: 0;
    var i := |candidates|;
    while i > 0
      invariant 0 <= i <= |candidates|
      invariant frequency.Keys == set t | t in terms
      invariant forall t | t in terms :: frequency[t] == SeenIn(candidates[i..], t)
    {
      i := i - 1;
      assert candidates[i..][1..] == candidates[i + 1..];
      frequency := map t | t in terms :: frequency[t] + if t in TermsOf(candidates[i]) then 1 else 0;
    }
  }

  method ScoreTerm(candidates: seq<Hit>, words: seq<string>, term: string, seenIn: nat,
        maths: Maths) returns (score: real)
    requires seenIn <= |candidates|
    ensures score == TermWeight(|candidates|, seenIn, words, term, maths)
  {
    var f := Count(words, term);
    score := 0.0;
    if f > 0 {
      score := maths.ln(Rarity(|candidates|, seenIn)) * Saturation(f, |words|, 1.0);
    }
  }

  method ScoreCandidate(candidates: seq<Hit>, h: Hit, terms: seq<string>, frequency: map<string, nat>, maths: Maths)
      returns (score: real)
    requires forall t | t in terms :: t in frequency && frequency[t] == SeenIn(candidates, t)
    ensures score == Relevance(candidates, terms, maths)(h)
  {
    ghost var weight := Weight(candidates, h, maths);
    var words := TermsOf(h);
    score := 0.0;
    var k := 0;
    while k < |terms|
      invariant 0 <= k <= |terms|
      invariant score + Sum(weight, terms[k..]) == Sum(weight, terms)
    {
      assert terms[k..][1..] == terms[k + 1..];
      assert terms[k] in terms;
      var step := ScoreTerm(candidates, words, terms[k], frequency[terms[k]], maths);
      assert step == weight(terms[k]);
      score := score + step;
      k := k + 1;
    }
  }

  /** Sorting the scored candidates in place, by insertion from the right. */
  method RerankLexically(query: string, candidates: seq<Hit>, maths: Maths) returns (result: seq<Hit>)
    ensures result == LexicalRerank(query, candidates, maths)
  {
    var terms := DistinctTerms(LexicalTerms(query));
    if candidates == [] || terms == [] {
      return candidates;
    }
    var frequency := CountTerms(candidates, terms);
    ghost var key := Relevance(candidates, terms, maths);
    var scored: seq<(real, Hit)> := [];
    var i := |candidates|;
    while i > 0
      invariant 0 <= i <= |candidates|
      invariant Seconds(scored) == SortDesc(candidates[i..], key)
      invariant forall p | p in scored :: p.0 == key(p.1)
    {
      i := i - 1;
      var score := ScoreCandidate(candidates, candidates[i], terms, frequency, maths);
      assert candidates[i..][1..] == candidates[i + 1..];
      InsertScored(score, candidates[i], scored, key);
      forall p | p in Insert((score, candidates[i]), scored, First()) ensures p.0 == key(p.1) {
        InsertMember((score, candidates[i]), scored, First(), p);
      }
      scored := Insert((score, candidates[i]), scored, First());
    }
    assert candidates[0..] == candidates;
    return Annotated(Seconds(scored));
  }

  method RerankHits(reranker: Reranker, query: string, candidates: seq<Hit>, maths: Maths) returns (result: seq<Hit>)
    ensures result == Reranked(reranker, query, candidates, maths)
  {
    if candidates == [] {
      return [];
    }
    if reranker.LexicalReranker? || reranker.reply.Failed? || reranker.reply.scores == map[] {
      result := RerankLexically(query, candidates, maths);
      return;
    }
    return Annotated(MapSeq(At(candidates), ApiOrder(|candidates|, reranker.reply.scores)));
  }

  function First(): ((real, Hit)) -> real {
    (p: (real, Hit)) => p.0
  }

  function Seconds(scored: seq<(real, Hit)>): (r: seq<Hit>)
    ensures |r| == |scored| && forall i | 0 <= i < |r| :: r[i] == scored[i].1
  {
    seq(|scored|, i requires 0 <= i < |scored| => scored[i].1)
  }

  lemma {:induction false} InsertScored(score: real, h: Hit, scored: seq<(real, Hit)>, key: Hit -> real)
    requires score == key(h) && forall p | p in scored :: p.0 == key(p.1)
    ensures Seconds(Insert((score, h), scored, First())) == Insert(h, Seconds(scored), key)
  {
    if scored != [] {
      assert scored[0] in scored;
      if score < scored[0].0 {
        InsertScored(score, h, scored[1..], key);
        assert Seconds(scored)[1..] == Seconds(scored[1..]);
      }
    }
  }

  // ----- what reranking keeps -----

  /** The candidates in the given order, possibly with their new ranks written on them. */
  ghost predicate InOrder(result: seq<Hit>, candidates: seq<Hit>, order: seq<Hit>) {
    multiset(order) == multiset(candidates) && (result == order || result == Annotated(order))
  }

  ghost predicate Reorders(result: seq<Hit>, candidates: seq<Hit>) {
    exists order: seq<Hit> :: InOrder(result, candidates, order)
  }

  lemma LexicalReorders(query: string, candidates: seq<Hit>, maths: Maths)
    ensures Reorders(LexicalRerank(query, candidates, maths), candidates)
  {
    var key := Relevance(candidates, DistinctTerms(LexicalTerms(query)), maths);
    SortFacts(candidates, key);
    var result := LexicalRerank(query, candidates, maths);
    assert InOrder(result, candidates, candidates) || InOrder(result, candidates, SortDesc(candidates, key));
  }

  /** Whatever the mode, the question and the service's answer: every candidate is kept, exactly once. */
  lemma RerankReorders(reranker: Reranker, query: string, candidates: seq<Hit>, maths: Maths)
    ensures Reorders(Reranked(reranker, query, candidates, maths), candidates)
  {
    LexicalReorders(query, candidates, maths);
    if candidates != [] && reranker.ApiReranker? && reranker.reply.Ranked? {
      ApiReorders(candidates, reranker.reply.scores);
      var order := MapSeq(At(candidates), ApiOrder(|candidates|, reranker.reply.scores));
      assert InOrder(Annotated(order), candidates, order);
    } else if candidates == [] {
      assert InOrder([], candidates, []);
    }
  }

  lemma ApiReorders(candidates: seq<Hit>, scores: map<nat, real>)
    requires candidates != []
    ensures multiset(MapSeq(At(candidates), ApiOrder(|candidates|, scores))) == multiset(candidates)
  {
    var n := |candidates|;
    ApiOrderPermutes(n, scores);
    MapPermutes(At(candidates), ApiOrder(n, scores), Indices(0, n));
    IndicesFacts(0, n);
    assert MapSeq(At(candidates), Indices(0, n)) == candidates;
  }

  /** The lexical reranker puts the more relevant first and leaves equally relevant candidates in their order. */
  lemma LexicalRerankIsStable(query: string, candidates: seq<Hit>, maths: Maths)
    ensures var key := Relevance(candidates, DistinctTerms(LexicalTerms(query)), maths);
            exists order :: InOrder(LexicalRerank(query, candidates, maths), candidates, order)
                            && Descending(order, key) && forall v :: Level(order, key, v) == Level(candidates, key, v)
  {
    var terms := DistinctTerms(LexicalTerms(query));
    var key := Relevance(candidates, terms, maths);
    var result := LexicalRerank(query, candidates, maths);
    if candidates == [] || terms == [] {
      assert InOrder(result, candidates, candidates);
    } else {
      var order := SortDesc(candidates, key);
      SortFacts(candidates, key);
      forall v ensures Level(order, key, v) == Level(candidates, key, v) { SortIsStable(candidates, key, v); }
      assert InOrder(result, candidates, order);
    }
  }

  lemma {:induction false} SumAround(weight: string -> real, terms: seq<string>, k: nat)
    requires k < |terms|
    ensures Sum(weight, terms) == weight(terms[k]) + Sum(weight, Without(terms, k))
  {
    if k > 0 {
      SumAround(weight, terms[1..], k - 1);
      assert Without(terms, k) == [terms[0]] + Without(terms[1..], k - 1);
    } else {
      assert Without(terms, 0) == terms[1..];
    }
  }

  /** The order in which the set of query terms is visited does not matter. */
  lemma {:induction false} SumIgnoresOrder(weight: string -> real, a: seq<string>, b: seq<string>)
    requires multiset(a) == multiset(b)
    ensures Sum(weight, a) == Sum(weight, b)
    decreases |a|
  {
    assert |multiset(a)| == |a| && |multiset(b)| == |b|;
    if a != [] {
      var k := Find(b, a[0]);
      assert multiset(Without(a, 0)) == multiset(a) - multiset{a[0]};
      assert multiset(Without(b, k)) == multiset(b) - multiset{a[0]};
      SumIgnoresOrder(weight, Without(a, 0), Without(b, k));
      SumAround(weight, a, 0);
      SumAround(weight, b, k);
    }
  }

  lemma {:induction false} SumIsPositive(weight: string -> real, terms: seq<string>)
    requires forall t | t in terms :: weight(t) >= 0.0
    ensures Sum(weight, terms) >= 0.0
    ensures Sum(weight, terms) > 0.0 <==> exists t :: t in terms && weight(t) > 0.0
  {
    if terms != [] {
      assert forall t :: t in terms <==> t == terms[0] || t in terms[1..];
      SumIsPositive(weight, terms[1..]);
    }
  }

  lemma WeightIsPositive(n: nat, seenIn: nat, words: seq<string>, term: string, maths: Maths)
    requires seenIn <= n && maths.Sane()
    ensures TermWeight(n, seenIn, words, term, maths) >= 0.0
    ensures TermWeight(n, seenIn, words, term, maths) > 0.0 <==> term in words
  {
    CountPositive(words, term);
    if term in words {
      assert maths.ln(Rarity(n, seenIn)) > 0.0;
      assert maths.ln(Rarity(n, seenIn)) * Saturation(Count(words, term), |words|, 1.0) > 0.0;
    }
  }

  ghost predicate SharesTerm(h: Hit, query: string) {
    exists t :: t in LexicalTerms(query) && t in TermsOf(h)
  }

  /** A candidate is relevant exactly when it shares a term with the question. */
  lemma RelevantIffSharedTerm(query: string, candidates: seq<Hit>, h: Hit, maths: Maths)
    requires maths.Sane()
    ensures Relevance(candidates, DistinctTerms(LexicalTerms(query)), maths)(h) >= 0.0
    ensures Relevance(candidates, DistinctTerms(LexicalTerms(query)), maths)(h) > 0.0 <==> SharesTerm(h, query)
  {
    var terms, weight := DistinctTerms(LexicalTerms(query)), Weight(candidates, h, maths);
    forall t ensures weight(t) >= 0.0 && (weight(t) > 0.0 <==> t in TermsOf(h)) {
      WeightIsPositive(|candidates|, SeenIn(candidates, t), TermsOf(h), t, maths);
    }
    SumIsPositive(weight, terms);
  }

  /** After lexical reranking every candidate that shares a term with the question precedes every one that shares none. */
  lemma MatchesComeFirst(query: string, candidates: seq<Hit>, maths: Maths, i: nat, j: nat)
    requires maths.Sane() && i < j < |LexicalRerank(query, candidates, maths)|
    requires SharesTerm(LexicalRerank(query, candidates, maths)[j], query)
    ensures SharesTerm(LexicalRerank(query, candidates, maths)[i], query)
  {
    var key := Relevance(candidates, DistinctTerms(LexicalTerms(query)), maths);
    var order := SortDesc(candidates, key);
    SortFacts(candidates, key);
    assert key(order[i]) >= key(order[j]);
    RelevantIffSharedTerm(query, candidates, order[i], maths);
    RelevantIffSharedTerm(query, candidates, order[j], maths);
  }

  // ----- which order is used -----

  /** A service that fails or ranks nothing is replaced by the offline reranker. */
  lemma FallsBackOffline(query: string, candidates: seq<Hit>, maths: Maths)
    ensures Reranked(LexicalReranker, query, candidates, maths) == LexicalRerank(query, candidates, maths)
    ensures Reranked(ApiReranker(Failed), query, candidates, maths) == LexicalRerank(query, candidates, maths)
    ensures Reranked(ApiReranker(Ranked(map[])), query, candidates, maths) == LexicalRerank(query, candidates, maths)
  {
  }

  lemma OrderIsOfPlaces(n: nat, scores: map<nat, real>)
    ensures |ApiOrder(n, scores)| == n && forall k | 0 <= k < n :: ApiOrder(n, scores)[k] < n
  {
    var order := ApiOrder(n, scores);
    ApiOrderPermutes(n, scores);
    IndicesFacts(0, n);
    assert |multiset(order)| == |order| && |multiset(Indices(0, n))| == n;
    forall k | 0 <= k < n ensures order[k] < n {
      assert order[k] in multiset(order);
      assert order[k] in Indices(0, n);
    }
  }

  lemma OrderIsPrecedence(n: nat, scores: map<nat, real>)
    ensures forall a, b | 0 <= a < b < |ApiOrder(n, scores)| :: Precedes(scores, ApiOrder(n, scores)[a], ApiOrder(n, scores)[b])
  {
    forall a, b | 0 <= a < b < |ApiOrder(n, scores)|
      ensures Precedes(scores, ApiOrder(n, scores)[a], ApiOrder(n, scores)[b])
    {
      ApiOrderIsPrecedence(n, scores, a, b);
    }
  }

  /** Otherwise the result is the candidates in the service's order, each with its place in it. */
  lemma ServiceOrderIsUsed(query: string, candidates: seq<Hit>, scores: map<nat, real>, maths: Maths) returns (order: seq<nat>)
    requires candidates != [] && scores != map[]
    ensures multiset(order) == multiset(Indices(0, |candidates|)) && |order| == |candidates|
    ensures forall a, b | 0 <= a < b < |order| :: Precedes(scores, order[a], order[b])
    ensures var result := Reranked(ApiReranker(Ranked(scores)), query, candidates, maths);
            |result| == |candidates|
            && forall k | 0 <= k < |order| ::
                 order[k] < |candidates| && result[k] == candidates[order[k]].(rerankRank := Some(k + 1))
  {
    order := ApiOrder(|candidates|, scores);
    ApiOrderPermutes(|candidates|, scores);
    OrderIsOfPlaces(|candidates|, scores);
    OrderIsPrecedence(|candidates|, scores);
  }
}
