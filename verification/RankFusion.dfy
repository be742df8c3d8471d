/** backend/database.py, lines 1841-1858: two score lists become ranks, and ranks become one score. */
module RankFusion {
  import opened Lists

  function ScoreAt(scores: seq<real>): nat -> real {
    (i: nat) => if i < |scores| then scores[i] else 0.0
  }

  function Indices(lo: nat, n: nat): seq<nat>
    decreases n - lo
  {
    if lo >= n then [] else [lo] + Indices(lo + 1, n)
  }

  /** Positions by descending score, ties in row order. */
  function Order(scores: seq<real>): seq<nat> {
    SortDesc(Indices(0, |scores|), ScoreAt(scores))
  }

  function IndexOf(xs: seq<nat>, x: nat): (k: nat)
    ensures k <= |xs| && (k < |xs| ==> xs[k] == x)
    ensures x in xs ==> k < |xs|
  {
    if xs == [] || xs[0] == x then 0 else 1 + IndexOf(xs[1..], x)
  }

  /** `enumerate(sorted(...), 1)` seen from row i. */
  function Rank(scores: seq<real>, i: nat): nat {
    IndexOf(Order(scores), i) + 1
  }

  /** i comes before j: a larger score, or the same score earlier in row order. */
  predicate Beats(scores: seq<real>, i: nat, j: nat) {
    i < |scores| && j < |scores| && (scores[i] > scores[j] || (scores[i] == scores[j] && i < j))
  }

  lemma {:induction false} IndicesFacts(lo: nat, n: nat)
    ensures |Indices(lo, n)| == if lo <= n then n - lo else 0
    ensures forall k | 0 <= k < |Indices(lo, n)| :: Indices(lo, n)[k] == lo + k
    decreases n - lo
  {
    if lo < n {
      IndicesFacts(lo + 1, n);
    }
  }

  /** The order holds every row once, and earlier entries beat later ones. */
  lemma OrderFacts(scores: seq<real>)
    ensures |Order(scores)| == |scores|
    ensures forall a, b | 0 <= a < b < |scores| :: Beats(scores, Order(scores)[a], Order(scores)[b])
    ensures forall x: nat :: x in Order(scores) <==> x < |scores|
  {
    var indices, key := Indices(0, |scores|), ScoreAt(scores);
    IndicesFacts(0, |scores|);
    SortFacts(indices, key);
    SortRanks(indices, key);
    forall x: nat ensures x in Order(scores) <==> x < |scores| {
      SortMember(indices, key, x);
      assert x < |scores| ==> indices[x] == x;
    }
    forall a, b | 0 <= a < b < |scores| ensures Beats(scores, Order(scores)[a], Order(scores)[b]) {
      assert Order(scores)[a] in Order(scores) && Order(scores)[b] in Order(scores);
      assert Before(key, Order(scores)[a], Order(scores)[b]);
    }
  }

  lemma OrderIsInjective(scores: seq<real>, a: nat, b: nat)
    requires a < |Order(scores)| && b < |Order(scores)| && Order(scores)[a] == Order(scores)[b]
    ensures a == b
  {
    OrderFacts(scores);
    var x := Order(scores)[a];
    assert !Beats(scores, x, x);
  }

  lemma RankOfPlace(scores: seq<real>, k: nat)
    requires k < |scores|
    ensures |Order(scores)| == |scores| && Order(scores)[k] < |scores| && Rank(scores, Order(scores)[k]) == k + 1
  {
    OrderFacts(scores);
    var order := Order(scores);
    assert order[k] in order;
    OrderIsInjective(scores, IndexOf(order, order[k]), k);
  }

  /** Ranks are 1..n, one row each: row i holds rank Rank(i), and position k is held by the row of rank k + 1. */
  lemma RanksAreABijection(scores: seq<real>)
    ensures |Order(scores)| == |scores|
    ensures forall i: nat | i < |scores| :: 1 <= Rank(scores, i) <= |scores| && Order(scores)[Rank(scores, i) - 1] == i
    ensures forall k | 0 <= k < |scores| :: Order(scores)[k] < |scores| && Rank(scores, Order(scores)[k]) == k + 1
  {
    OrderFacts(scores);
    forall i: nat | i < |scores| ensures 1 <= Rank(scores, i) <= |scores| && Order(scores)[Rank(scores, i) - 1] == i {
      assert i in Order(scores);
    }
    forall k | 0 <= k < |scores| ensures Order(scores)[k] < |scores| && Rank(scores, Order(scores)[k]) == k + 1 {
      RankOfPlace(scores, k);
    }
  }

  /** Rank order is exactly score order, ties by row order. */
  lemma RankOrder(scores: seq<real>, i: nat, j: nat)
    requires i < |scores| && j < |scores|
    ensures Rank(scores, i) < Rank(scores, j) <==> Beats(scores, i, j)
  {
    RanksAreABijection(scores);
    OrderFacts(scores);
    var a, b := Rank(scores, i) - 1, Rank(scores, j) - 1;
    assert a < b ==> Beats(scores, Order(scores)[a], Order(scores)[b]);
    assert b < a ==> Beats(scores, Order(scores)[b], Order(scores)[a]);
  }

  /** The positive scores occupy exactly the ranks 1..p for some p. */
  lemma PositiveRanksAreAPrefix(scores: seq<real>, i: nat, r: nat)
    requires i < |scores| && scores[i] > 0.0 && 1 <= r <= Rank(scores, i)
    ensures exists j :: 0 <= j < |scores| && Rank(scores, j) == r && scores[j] > 0.0
  {
    RanksAreABijection(scores);
    var j := Order(scores)[r - 1];
    RankOrder(scores, j, i);
    assert Rank(scores, j) == r;
  }

  // ----- fusion -----

  const OFFSET: real := 60.0

  function Reciprocal(rank: nat): real {
    1.0 / (OFFSET + rank as real)
  }

  lemma ReciprocalsDescend(x: real, y: real)
    requires 0.0 < x < y
    ensures 0.0 < 1.0 / y < 1.0 / x
  {
  }

  lemma ReciprocalFacts(a: nat, b: nat)
    ensures 0.0 < Reciprocal(a) <= 1.0 / 60.0
    ensures a <= b <==> Reciprocal(a) >= Reciprocal(b)
  {
    if a > 0 { ReciprocalsDescend(60.0, OFFSET + a as real); }
    if a < b { ReciprocalsDescend(OFFSET + a as real, OFFSET + b as real); }
    if b < a { ReciprocalsDescend(OFFSET + b as real, OFFSET + a as real); }
  }

  /** The fused score of row i. */
  function Fused(lexical: seq<real>, semantic: seq<real>, i: nat): real
    requires i < |lexical| == |semantic|
  {
    (if lexical[i] > 0.0 then Reciprocal(Rank(lexical, i)) else 0.0) + Reciprocal(Rank(semantic, i))
  }

  lemma ReciprocalBound(rank: nat)
    requires rank >= 1
    ensures 0.0 < Reciprocal(rank) <= 1.0 / 61.0
  {
    ReciprocalFacts(1, rank);
    assert Reciprocal(1) == 1.0 / 61.0;
  }

  lemma FusedIsBounded(lexical: seq<real>, semantic: seq<real>, i: nat)
    requires i < |lexical| == |semantic|
    ensures 0.0 < Fused(lexical, semantic, i) <= 2.0 / 61.0
  {
    ReciprocalBound(Rank(lexical, i));
    ReciprocalBound(Rank(semantic, i));
  }

  /** A row at least as good in both rankings never scores below the other. */
  lemma FusionIsMonotone(lexical: seq<real>, semantic: seq<real>, i: nat, j: nat)
    requires i < |lexical| == |semantic| && j < |lexical|
    requires lexical[j] > 0.0 ==> lexical[i] > 0.0 && Rank(lexical, i) <= Rank(lexical, j)
    requires Rank(semantic, i) <= Rank(semantic, j)
    ensures Fused(lexical, semantic, i) >= Fused(lexical, semantic, j)
  {
    ReciprocalFacts(Rank(lexical, i), Rank(lexical, j));
    ReciprocalFacts(Rank(semantic, i), Rank(semantic, j));
  }

  /** The best lexical match beats every row with no lexical match at all, whatever their similarities. */
  lemma LexicalTopBeatsNonMatches(lexical: seq<real>, semantic: seq<real>, i: nat, j: nat)
    requires i < |lexical| == |semantic| && j < |lexical|
    requires lexical[i] > 0.0 && Rank(lexical, i) == 1 && lexical[j] <= 0.0
    ensures Fused(lexical, semantic, i) > Fused(lexical, semantic, j)
  {
    ReciprocalFacts(1, Rank(semantic, j));
    ReciprocalFacts(Rank(semantic, i), 1);
  }
}
