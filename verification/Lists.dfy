/** Generic sequence operations: map, filter, flatten, stable sort, position. */
module Lists {

  lemma Associative<T>(a: seq<T>, b: seq<T>, c: seq<T>)
    ensures (a + b) + c == a + (b + c)
  {
  }

  function MapSeq<A, B>(f: A -> B, xs: seq<A>): (ys: seq<B>)
    ensures |ys| == |xs|
    ensures forall k | 0 <= k < |xs| :: ys[k] == f(xs[k])
  {
    seq(|xs|, k requires 0 <= k < |xs| => f(xs[k]))
  }

  lemma MapConcat<A, B>(f: A -> B, a: seq<A>, b: seq<A>)
    ensures MapSeq(f, a + b) == MapSeq(f, a) + MapSeq(f, b)
  {
  }

  function Without<T>(xs: seq<T>, k: nat): (r: seq<T>)
    requires k < |xs|
    ensures multiset(xs) == multiset{xs[k]} + multiset(r)
    ensures |r| == |xs| - 1
  {
    assert xs == xs[..k] + [xs[k]] + xs[k + 1..];
    assert multiset(xs[..k] + xs[k + 1..]) == multiset(xs[..k]) + multiset(xs[k + 1..]);
    xs[..k] + xs[k + 1..]
  }

  lemma MapWithout<A, B>(f: A -> B, xs: seq<A>, k: nat)
    requires k < |xs|
    ensures multiset(MapSeq(f, xs)) == multiset{f(xs[k])} + multiset(MapSeq(f, Without(xs, k)))
  {
    assert MapSeq(f, Without(xs, k)) == Without(MapSeq(f, xs), k);
  }

  lemma Find<T>(xs: seq<T>, x: T) returns (k: nat)
    requires x in multiset(xs)
    ensures k < |xs| && xs[k] == x
  {
    k :| 0 <= k < |xs| && xs[k] == x;
  }

  /** Mapping permuted sequences gives permuted sequences. */
  lemma {:induction false} MapPermutes<A, B>(f: A -> B, a: seq<A>, b: seq<A>)
    requires multiset(a) == multiset(b)
    ensures multiset(MapSeq(f, a)) == multiset(MapSeq(f, b))
    decreases |a|
  {
    assert |multiset(a)| == |a| && |multiset(b)| == |b|;
    if a != [] {
      var k := Find(b, a[0]);
      assert multiset(Without(a, 0)) == multiset(a) - multiset{a[0]};
      assert multiset(Without(b, k)) == multiset(b) - multiset{a[0]};
      MapPermutes(f, Without(a, 0), Without(b, k));
      MapWithout(f, a, 0);
      MapWithout(f, b, k);
    }
  }

  function FlatMap<A, B>(f: A -> seq<B>, xs: seq<A>): seq<B> {
    if xs == [] then [] else f(xs[0]) + FlatMap(f, xs[1..])
  }

  lemma {:induction false} FlatMapConcat<A, B>(f: A -> seq<B>, a: seq<A>, b: seq<A>)
    ensures FlatMap(f, a + b) == FlatMap(f, a) + FlatMap(f, b)
  {
    if a == [] {
      assert a + b == b;
    } else {
      FlatMapConcat(f, a[1..], b);
      Associative(f(a[0]), FlatMap(f, a[1..]), FlatMap(f, b));
      assert (a + b)[0] == a[0] && (a + b)[1..] == a[1..] + b;
    }
  }

  function Flatten<T>(xss: seq<seq<T>>): seq<T> {
    if xss == [] then [] else xss[0] + Flatten(xss[1..])
  }

  lemma {:induction false} FlattenConcat<T>(a: seq<seq<T>>, b: seq<seq<T>>)
    ensures Flatten(a + b) == Flatten(a) + Flatten(b)
  {
    if a == [] {
      assert a + b == b;
    } else {
      FlattenConcat(a[1..], b);
      Associative(a[0], Flatten(a[1..]), Flatten(b));
      assert (a + b)[0] == a[0] && (a + b)[1..] == a[1..] + b;
    }
  }

  lemma FlattenSnoc<T>(xss: seq<seq<T>>, xs: seq<T>)
    ensures Flatten(xss + [xs]) == Flatten(xss) + xs
  {
    FlattenConcat(xss, [xs]);
    assert [xs][1..] == [];
    assert Flatten([xs]) == xs + Flatten([]);
  }

  lemma FlattenTake<T>(xss: seq<seq<T>>, i: nat)
    requires i < |xss|
    ensures Flatten(xss[..i + 1]) == Flatten(xss[..i]) + xss[i]
  {
    FlattenSnoc(xss[..i], xss[i]);
    assert xss[..i + 1] == xss[..i] + [xss[i]];
  }

  lemma {:induction false} FlattenEmpty<T>(xss: seq<seq<T>>)
    ensures Flatten(xss) == [] <==> forall k | 0 <= k < |xss| :: xss[k] == []
  {
    if xss != [] {
      FlattenEmpty(xss[1..]);
      assert forall k | 1 <= k < |xss| :: xss[k] == xss[1..][k - 1];
    }
  }

  lemma {:induction false} FlattenMember<T>(xss: seq<seq<T>>, x: T)
    ensures x in Flatten(xss) <==> exists k :: 0 <= k < |xss| && x in xss[k]
  {
    if xss != [] {
      FlattenMember(xss[1..], x);
      assert forall k | 0 <= k < |xss| - 1 :: xss[1..][k] == xss[k + 1];
      if k :| 0 <= k < |xss| && x in xss[k] {
        assert k > 0 ==> x in xss[1..][k - 1];
      }
    }
  }

  // ----- filter -----

  function Filter<T>(p: T -> bool, xs: seq<T>): seq<T> {
    if xs == [] then [] else (if p(xs[0]) then [xs[0]] else []) + Filter(p, xs[1..])
  }

  lemma {:induction false} FilterConcat<T>(p: T -> bool, a: seq<T>, b: seq<T>)
    ensures Filter(p, a + b) == Filter(p, a) + Filter(p, b)
  {
    if a == [] {
      assert a + b == b;
    } else {
      FilterConcat(p, a[1..], b);
      Associative(if p(a[0]) then [a[0]] else [], Filter(p, a[1..]), Filter(p, b));
      assert (a + b)[0] == a[0] && (a + b)[1..] == a[1..] + b;
    }
  }

  lemma FilterTake<T>(p: T -> bool, xs: seq<T>, i: nat)
    requires i < |xs|
    ensures Filter(p, xs[..i + 1]) == Filter(p, xs[..i]) + if p(xs[i]) then [xs[i]] else []
  {
    assert xs[..i + 1] == xs[..i] + [xs[i]];
    FilterConcat(p, xs[..i], [xs[i]]);
    assert Filter(p, [xs[i]]) == (if p(xs[i]) then [xs[i]] else []) + Filter(p, []);
  }

  method CountIf<T>(p: T -> bool, xs: seq<T>) returns (n: nat)
    ensures n == |Filter(p, xs)|
  {
    n := 0;
    var i := 0;
    while i < |xs|
      invariant 0 <= i <= |xs|
      invariant n == |Filter(p, xs[..i])|
    {
      FilterTake(p, xs, i);
      if p(xs[i]) {
        n := n + 1;
      }
      i := i + 1;
    }
    assert xs[..i] == xs;
  }

  lemma {:induction false} FilterMember<T>(p: T -> bool, xs: seq<T>, x: T)
    ensures x in Filter(p, xs) <==> x in xs && p(x)
  {
    if xs != [] {
      FilterMember(p, xs[1..], x);
    }
  }

  lemma {:induction false} FilterEmpty<T>(p: T -> bool, xs: seq<T>)
    ensures Filter(p, xs) == [] <==> forall i | 0 <= i < |xs| :: !p(xs[i])
  {
    if xs != [] {
      FilterEmpty(p, xs[1..]);
      assert forall i | 1 <= i < |xs| :: xs[1..][i - 1] == xs[i];
    }
  }

  lemma {:induction false} FilterAll<T>(p: T -> bool, xs: seq<T>)
    requires forall x | x in xs :: p(x)
    ensures Filter(p, xs) == xs
  {
    if xs != [] {
      FilterAll(p, xs[1..]);
    }
  }

  lemma {:induction false} FilterNone<T>(p: T -> bool, xs: seq<T>)
    requires forall x | x in xs :: !p(x)
    ensures Filter(p, xs) == []
  {
    if xs != [] {
      FilterNone(p, xs[1..]);
    }
  }

  /** Dropping what contributes nothing changes nothing. */
  lemma {:induction false} FilterKeepsFlat<A, B>(p: A -> bool, f: A -> seq<B>, xs: seq<A>)
    requires forall x | x in xs :: p(x) <==> f(x) != []
    ensures FlatMap(f, Filter(p, xs)) == FlatMap(f, xs)
    ensures Filter(p, xs) == [] <==> FlatMap(f, xs) == []
  {
    if xs != [] {
      FilterKeepsFlat(p, f, xs[1..]);
      FlatMapConcat(f, if p(xs[0]) then [xs[0]] else [], Filter(p, xs[1..]));
      assert [xs[0]][1..] == [];
    }
  }

  /** Lists that differ only in members the filter drops are filtered alike. */
  lemma {:induction false} FilterAgrees<T>(p: T -> bool, xs: seq<T>, ys: seq<T>)
    requires |xs| == |ys|
    requires forall i | 0 <= i < |xs| :: xs[i] == ys[i] || (!p(xs[i]) && !p(ys[i]))
    ensures Filter(p, xs) == Filter(p, ys)
  {
    if xs != [] {
      FilterAgrees(p, xs[1..], ys[1..]);
    }
  }

  lemma {:induction false} FilterSame<T>(p: T -> bool, q: T -> bool, xs: seq<T>)
    requires forall x | x in xs :: p(x) == q(x)
    ensures Filter(p, xs) == Filter(q, xs)
  {
    if xs != [] {
      FilterSame(p, q, xs[1..]);
    }
  }

  /** Filtering by a stronger condition afterwards is filtering by it alone. */
  lemma {:induction false} FilterFilter<T(!new)>(p: T -> bool, q: T -> bool, xs: seq<T>)
    requires forall x | p(x) :: q(x)
    ensures Filter(p, Filter(q, xs)) == Filter(p, xs)
  {
    if xs != [] {
      FilterFilter(p, q, xs[1..]);
      FilterConcat(p, if q(xs[0]) then [xs[0]] else [], Filter(q, xs[1..]));
    }
  }

  lemma {:induction false} FilterSplits<T>(p: T -> bool, q: T -> bool, xs: seq<T>)
    requires forall x | x in xs :: p(x) != q(x)
    ensures multiset(Filter(p, xs)) + multiset(Filter(q, xs)) == multiset(xs)
  {
    if xs != [] {
      FilterSplits(p, q, xs[1..]);
      assert xs == [xs[0]] + xs[1..];
    }
  }

  lemma {:induction false} FilterShrinks<T>(p: T -> bool, xs: seq<T>)
    ensures |Filter(p, xs)| <= |xs|
  {
    if xs != [] {
      FilterShrinks(p, xs[1..]);
    }
  }

  lemma {:induction false} FilterCounts<T>(p: T -> bool, q: T -> bool, xs: seq<T>)
    requires forall x | x in xs :: p(x) ==> q(x)
    ensures |Filter(p, xs)| <= |Filter(q, xs)|
  {
    if xs != [] {
      assert forall x | x in xs[1..] :: x in xs;
      FilterCounts(p, q, xs[1..]);
    }
  }

  /** The places, among the first n, at which an element has both properties. */
  function Places<T>(p: T -> bool, q: T -> bool, xs: seq<T>, n: nat): (r: set<nat>)
    requires n <= |xs|
    ensures forall i: nat :: i in r <==> i < n && p(xs[i]) && q(xs[i])
  {
    set i: nat | i < n && p(xs[i]) && q(xs[i])
  }

  lemma NextPlace<T>(p: T -> bool, q: T -> bool, xs: seq<T>, n: nat)
    requires n < |xs|
    ensures |Places(p, q, xs, n + 1)| == |Places(p, q, xs, n)| + if p(xs[n]) && q(xs[n]) then 1 else 0
  {
    if p(xs[n]) && q(xs[n]) {
      assert Places(p, q, xs, n + 1) == Places(p, q, xs, n) + {n};
    } else {
      assert Places(p, q, xs, n + 1) == Places(p, q, xs, n);
    }
  }

  lemma FilterSnoc<T>(p: T -> bool, q: T -> bool, xs: seq<T>, x: T)
    ensures |Filter(q, Filter(p, xs + [x]))| == |Filter(q, Filter(p, xs))| + if p(x) && q(x) then 1 else 0
  {
    FilterConcat(p, xs, [x]);
    FilterOne(p, x);
    FilterOne(q, x);
    if p(x) {
      FilterConcat(q, Filter(p, xs), [x]);
    } else {
      assert Filter(p, xs + [x]) == Filter(p, xs);
    }
  }

  /** Filtering counts places. */
  lemma {:induction false} FilterCountsPlaces<T>(p: T -> bool, q: T -> bool, xs: seq<T>, n: nat)
    requires n <= |xs|
    ensures |Filter(q, Filter(p, xs[..n]))| == |Places(p, q, xs, n)|
  {
    if n > 0 {
      FilterCountsPlaces(p, q, xs, n - 1);
      NextPlace(p, q, xs, n - 1);
      FilterSnoc(p, q, xs[..n - 1], xs[n - 1]);
      assert xs[..n] == xs[..n - 1] + [xs[n - 1]];
    }
  }

  lemma {:induction false} FilterFull<T>(p: T -> bool, xs: seq<T>)
    ensures |Filter(p, xs)| == |xs| <==> forall x | x in xs :: p(x)
  {
    if xs != [] {
      FilterFull(p, xs[1..]);
      FilterShrinks(p, xs[1..]);
      assert forall x :: x in xs <==> x == xs[0] || x in xs[1..];
    }
  }

  /** Counting by cases: each element is in exactly one of the classes a and b. */
  lemma {:induction false} FilterByCase<T>(a: T -> bool, b: T -> bool, p: T -> bool, q: T -> bool,
        h: T -> bool, xs: seq<T>)
    requires forall x | x in xs :: a(x) != b(x) && h(x) == if a(x) then p(x) else q(x)
    ensures |Filter(h, xs)| == |Filter(p, Filter(a, xs))| + |Filter(q, Filter(b, xs))|
  {
    if xs != [] {
      FilterByCase(a, b, p, q, h, xs[1..]);
      FilterConcat(p, if a(xs[0]) then [xs[0]] else [], Filter(a, xs[1..]));
      FilterConcat(q, if b(xs[0]) then [xs[0]] else [], Filter(b, xs[1..]));
      FilterOne(p, xs[0]);
      FilterOne(q, xs[0]);
      assert xs[0] in xs;
    }
  }

  lemma FilterOne<T>(p: T -> bool, x: T)
    ensures Filter(p, [x]) == if p(x) then [x] else []
  {
  }

  /** Elements that q rejects, inserted anywhere, do not change what q keeps. */
  lemma FilterIgnores<T>(p: T -> bool, q: T -> bool, before: seq<T>, hidden: seq<T>, after: seq<T>)
    requires forall x | x in hidden :: !q(x)
    requires forall x | x in before + after :: p(x) == q(x)
    ensures Filter(q, before + hidden + after) == Filter(p, before + after)
  {
    FilterConcat(q, before + hidden, after);
    FilterConcat(q, before, hidden);
    FilterNone(q, hidden);
    FilterConcat(q, before, after);
    FilterSame(p, q, before + after);
  }

  // ----- the first element of each key -----

  /** xs[i] repeats the key of an earlier element. */
  predicate Repeats<T, K(==)>(key: T -> K, xs: seq<T>, i: nat)
    requires i < |xs|
  {
    exists j :: 0 <= j < i && key(xs[j]) == key(xs[i])
  }

  /** The first element of each key among the first n. */
  function Firsts<T, K(==)>(key: T -> K, xs: seq<T>, n: nat): seq<T>
    requires n <= |xs|
  {
    if n == 0 then [] else Firsts(key, xs, n - 1) + if Repeats(key, xs, n - 1) then [] else [xs[n - 1]]
  }

  method DropRepeats<T, K(==)>(key: T -> K, xs: seq<T>) returns (kept: seq<T>)
    ensures kept == Firsts(key, xs, |xs|)
  {
    var seen: set<K> := {};
    kept := [];
    var i := 0;
    while i < |xs|
      invariant 0 <= i <= |xs|
      invariant kept == Firsts(key, xs, i)
      invariant seen == set j | 0 <= j < i :: key(xs[j])
    {
      var k := key(xs[i]);
      assert k in seen <==> Repeats(key, xs, i);
      if k !in seen {
        seen := seen + {k};
        kept := kept + [xs[i]];
      }
      i := i + 1;
    }
  }

  /** The survivors are the elements that have no earlier element with their key. */
  lemma {:induction false} SurvivorsAreFirst<T, K>(key: T -> K, xs: seq<T>, n: nat, x: T)
    requires n <= |xs|
    ensures x in Firsts(key, xs, n) <==> exists i: nat :: i < n && xs[i] == x && !Repeats(key, xs, i)
  {
    if n > 0 {
      SurvivorsAreFirst(key, xs, n - 1, x);
    }
  }

  ghost predicate Distinct<T, K>(key: T -> K, xs: seq<T>) {
    forall a, b | 0 <= a < b < |xs| :: key(xs[a]) != key(xs[b])
  }

  lemma AppendDistinct<T, K>(key: T -> K, xs: seq<T>, x: T)
    requires Distinct(key, xs)
    ensures (forall y | y in xs :: key(y) != key(x)) ==> Distinct(key, xs + [x])
  {
  }

  /** No key survives twice. */
  lemma {:induction false} KeysAreDistinct<T, K>(key: T -> K, xs: seq<T>, n: nat)
    requires n <= |xs|
    ensures Distinct(key, Firsts(key, xs, n))
  {
    if n > 0 {
      KeysAreDistinct(key, xs, n - 1);
      forall x | x in Firsts(key, xs, n - 1) ensures !Repeats(key, xs, n - 1) ==> key(x) != key(xs[n - 1]) {
        SurvivorsAreFirst(key, xs, n - 1, x);
      }
      AppendDistinct(key, Firsts(key, xs, n - 1), xs[n - 1]);
    }
  }

  lemma {:induction false} FilterDistinct<T, K>(key: T -> K, p: T -> bool, xs: seq<T>)
    requires Distinct(key, xs)
    ensures Distinct(key, Filter(p, xs))
  {
    if xs != [] {
      FilterDistinct(key, p, xs[1..]);
      forall y | y in Filter(p, xs[1..]) ensures key(y) != key(xs[0]) {
        FilterMember(p, xs[1..], y);
        var k :| 0 <= k < |xs[1..]| && xs[1..][k] == y;
        assert xs[k + 1] == y;
      }
      PrependDistinct(key, xs[0], Filter(p, xs[1..]));
    }
  }

  lemma PrependDistinct<T, K>(key: T -> K, x: T, xs: seq<T>)
    requires Distinct(key, xs) && forall y | y in xs :: key(y) != key(x)
    ensures Distinct(key, [x] + xs)
  {
  }

  /** Splitting distinct elements into two parts and joining the parts leaves them distinct. */
  lemma PartitionDistinct<T, K>(key: T -> K, p: T -> bool, q: T -> bool, xs: seq<T>)
    requires Distinct(key, xs) && forall x | x in xs :: p(x) != q(x)
    ensures Distinct(key, Filter(p, xs) + Filter(q, xs))
  {
    FilterDistinct(key, p, xs);
    FilterDistinct(key, q, xs);
    forall x, y | x in Filter(p, xs) && y in Filter(q, xs) ensures key(x) != key(y) {
      FilterMember(p, xs, x);
      FilterMember(q, xs, y);
      var i :| 0 <= i < |xs| && xs[i] == x;
      var j :| 0 <= j < |xs| && xs[j] == y;
      assert if i < j then key(xs[i]) != key(xs[j]) else key(xs[j]) != key(xs[i]);
    }
    ConcatDistinct(key, Filter(p, xs), Filter(q, xs));
  }

  lemma ConcatDistinct<T, K>(key: T -> K, a: seq<T>, b: seq<T>)
    requires Distinct(key, a) && Distinct(key, b)
    requires forall x, y | x in a && y in b :: key(x) != key(y)
    ensures Distinct(key, a + b)
  {
  }

  ghost predicate HasKey<T, K>(key: T -> K, xs: seq<T>, k: K) {
    exists x :: x in xs && key(x) == k
  }

  lemma HasKeyExtends<T, K>(key: T -> K, xs: seq<T>, more: seq<T>, k: K)
    requires HasKey(key, xs, k)
    ensures HasKey(key, xs + more, k)
  {
    var x :| x in xs && key(x) == k;
    assert x in xs + more;
  }

  lemma HasLastKey<T, K>(key: T -> K, xs: seq<T>, x: T)
    ensures HasKey(key, xs + [x], key(x))
  {
    assert x in xs + [x];
  }

  /** Every key survives. */
  lemma {:induction false} EveryKeySurvives<T, K>(key: T -> K, xs: seq<T>, n: nat, i: nat)
    requires i < n <= |xs|
    ensures HasKey(key, Firsts(key, xs, n), key(xs[i]))
  {
    if Repeats(key, xs, n - 1) {
      var j :| 0 <= j < n - 1 && key(xs[j]) == key(xs[n - 1]);
      EveryKeySurvives(key, xs, n - 1, if i == n - 1 then j else i);
    } else if i < n - 1 {
      EveryKeySurvives(key, xs, n - 1, i);
      HasKeyExtends(key, Firsts(key, xs, n - 1), [xs[n - 1]], key(xs[i]));
    } else {
      HasLastKey(key, Firsts(key, xs, n - 1), xs[i]);
    }
  }

  // ----- stable sort, largest key first -----

  function Insert<T>(x: T, sorted: seq<T>, key: T -> real): seq<T> {
    if sorted == [] || key(x) >= key(sorted[0]) then [x] + sorted else [sorted[0]] + Insert(x, sorted[1..], key)
  }

  /** `sorted(xs, key=key, reverse=True)`: Python's sort is stable, and `reverse` keeps that. */
  function SortDesc<T>(xs: seq<T>, key: T -> real): seq<T> {
    if xs == [] then [] else Insert(xs[0], SortDesc(xs[1..], key), key)
  }

  ghost predicate Descending<T>(xs: seq<T>, key: T -> real) {
    forall i, j | 0 <= i < j < |xs| :: key(xs[i]) >= key(xs[j])
  }

  lemma {:induction false} InsertMember<T>(x: T, sorted: seq<T>, key: T -> real, y: T)
    ensures y in Insert(x, sorted, key) <==> y == x || y in sorted
  {
    if !(sorted == [] || key(x) >= key(sorted[0])) {
      InsertMember(x, sorted[1..], key, y);
    }
  }

  lemma {:induction false} InsertMultiset<T>(x: T, sorted: seq<T>, key: T -> real)
    ensures multiset(Insert(x, sorted, key)) == multiset{x} + multiset(sorted)
  {
    if !(sorted == [] || key(x) >= key(sorted[0])) {
      InsertMultiset(x, sorted[1..], key);
      assert sorted == [sorted[0]] + sorted[1..];
    }
  }

  lemma PrependDescending<T>(x: T, rest: seq<T>, key: T -> real)
    requires Descending(rest, key) && forall y | y in rest :: key(x) >= key(y)
    ensures Descending([x] + rest, key)
  {
  }

  lemma {:induction false} InsertDescending<T>(x: T, sorted: seq<T>, key: T -> real)
    requires Descending(sorted, key)
    ensures Descending(Insert(x, sorted, key), key)
  {
    if sorted == [] || key(x) >= key(sorted[0]) {
      PrependDescending(x, sorted, key);
    } else {
      InsertDescending(x, sorted[1..], key);
      forall y | y in Insert(x, sorted[1..], key) ensures key(sorted[0]) >= key(y) {
        InsertMember(x, sorted[1..], key, y);
      }
      PrependDescending(sorted[0], Insert(x, sorted[1..], key), key);
    }
  }

  /** Sorting permutes and puts larger keys first. */
  lemma {:induction false} SortFacts<T>(xs: seq<T>, key: T -> real)
    ensures Descending(SortDesc(xs, key), key)
    ensures multiset(SortDesc(xs, key)) == multiset(xs)
    ensures |SortDesc(xs, key)| == |xs|
  {
    if xs != [] {
      SortFacts(xs[1..], key);
      InsertDescending(xs[0], SortDesc(xs[1..], key), key);
      InsertMultiset(xs[0], SortDesc(xs[1..], key), key);
      assert xs == [xs[0]] + xs[1..];
    }
    assert |multiset(SortDesc(xs, key))| == |multiset(xs)|;
  }

  lemma SortMember<T>(xs: seq<T>, key: T -> real, x: T)
    ensures x in SortDesc(xs, key) <==> x in xs
  {
    SortFacts(xs, key);
    assert x in SortDesc(xs, key) <==> x in multiset(SortDesc(xs, key));
  }

  /** The elements whose key is v, in order. */
  function Level<T>(xs: seq<T>, key: T -> real, v: real): seq<T> {
    Filter(x => key(x) == v, xs)
  }

  lemma {:induction false} InsertLevel<T>(x: T, sorted: seq<T>, key: T -> real, v: real)
    ensures Descending(sorted, key) ==>
              Level(Insert(x, sorted, key), key, v) == (if key(x) == v then [x] else []) + Level(sorted, key, v)
  {
    if Descending(sorted, key) && !(sorted == [] || key(x) >= key(sorted[0])) {
      InsertLevel(x, sorted[1..], key, v);
      if key(x) == v {
        assert key(sorted[0]) != v;
      }
    }
  }

  /** Sorting is stable: elements with equal keys stay in order. */
  lemma {:induction false} SortIsStable<T>(xs: seq<T>, key: T -> real, v: real)
    ensures Level(SortDesc(xs, key), key, v) == Level(xs, key, v)
  {
    if xs != [] {
      SortIsStable(xs[1..], key, v);
      SortFacts(xs[1..], key);
      InsertLevel(xs[0], SortDesc(xs[1..], key), key, v);
    }
  }

  // ----- positions ranked by a key -----

  /** A larger key, or the same key at an earlier position. */
  predicate Before(key: nat -> real, i: nat, j: nat) {
    key(i) > key(j) || (key(i) == key(j) && i < j)
  }

  ghost predicate InRankOrder(xs: seq<nat>, key: nat -> real) {
    forall a, b | 0 <= a < b < |xs| :: Before(key, xs[a], xs[b])
  }

  ghost predicate Increasing(xs: seq<nat>) {
    forall a, b | 0 <= a < b < |xs| :: xs[a] < xs[b]
  }

  lemma PrependIncreasing(x: nat, xs: seq<nat>)
    requires Increasing(xs) && forall y | y in xs :: x < y
    ensures Increasing([x] + xs)
  {
    var ys := [x] + xs;
    forall a, b | 0 <= a < b < |ys| ensures ys[a] < ys[b] {
      assert ys[b] == xs[b - 1] && xs[b - 1] in xs;
    }
  }

  lemma {:induction false} FilterIncreasing(p: nat -> bool, xs: seq<nat>)
    requires Increasing(xs)
    ensures Increasing(Filter(p, xs))
  {
    if xs != [] {
      FilterIncreasing(p, xs[1..]);
      forall y | y in Filter(p, xs[1..]) ensures xs[0] < y {
        FilterMember(p, xs[1..], y);
        var k :| 0 <= k < |xs[1..]| && xs[1..][k] == y;
        assert xs[k + 1] == y;
      }
      PrependIncreasing(xs[0], Filter(p, xs[1..]));
    }
  }

  lemma PrependRank(x: nat, xs: seq<nat>, key: nat -> real)
    requires InRankOrder(xs, key) && forall y | y in xs :: Before(key, x, y)
    ensures InRankOrder([x] + xs, key)
  {
  }

  lemma {:induction false} InsertRank(x: nat, xs: seq<nat>, key: nat -> real)
    requires InRankOrder(xs, key) && forall y | y in xs :: x < y
    ensures InRankOrder(Insert(x, xs, key), key)
  {
    if xs == [] || key(x) >= key(xs[0]) {
      forall y | y in xs ensures Before(key, x, y) {
        var b :| 0 <= b < |xs| && xs[b] == y;
        assert b > 0 ==> Before(key, xs[0], xs[b]);
      }
      PrependRank(x, xs, key);
    } else {
      var rest := xs[1..];
      assert forall y | y in rest :: y in xs;
      InsertRank(x, rest, key);
      forall y | y in Insert(x, rest, key) ensures Before(key, xs[0], y) {
        InsertMember(x, rest, key, y);
        if y != x {
          var k :| 0 <= k < |rest| && rest[k] == y;
          assert Before(key, xs[0], xs[k + 1]);
        }
      }
      PrependRank(xs[0], Insert(x, rest, key), key);
    }
  }

  /** Sorting positions by a key leaves ties in position order. */
  lemma {:induction false} SortRanks(xs: seq<nat>, key: nat -> real)
    requires Increasing(xs)
    ensures InRankOrder(SortDesc(xs, key), key)
  {
    if xs != [] {
      SortRanks(xs[1..], key);
      forall y | y in SortDesc(xs[1..], key) ensures xs[0] < y {
        SortMember(xs[1..], key, y);
        var k :| 0 <= k < |xs[1..]| && xs[1..][k] == y;
        assert xs[k + 1] == y;
      }
      InsertRank(xs[0], SortDesc(xs[1..], key), key);
    }
  }
}
