/** Rows that each point at no row or at one row: following the links, and when redirecting some of them closes a circle. */
module Links {
  import opened Text

  type Row = Option<nat>

  /** Where n links lead from row i. */
  function Follow(next: seq<Row>, i: nat, n: nat): Row {
    if n == 0 then Some(i)
    else
      match Follow(next, i, n - 1)
      case None => None
      case Some(k) => if k < |next| then next[k] else None
  }

  /** No row is reached from itself by one link or more. */
  ghost predicate Acyclic(next: seq<Row>) {
    forall i: nat, n: nat | i < |next| && n >= 1 :: Follow(next, i, n) != Some(i)
  }

  /** Some row of the set is reached from row i, by any number of links. */
  ghost predicate Reaches(next: seq<Row>, i: nat, targets: set<nat>) {
    exists n: nat :: Hits(next, i, n, targets)
  }

  predicate Hits(next: seq<Row>, i: nat, n: nat, targets: set<nat>) {
    Follow(next, i, n).Some? && Follow(next, i, n).value in targets
  }

  /** Every row of the set now points at row `to`; the others keep their links. */
  function Redirect(next: seq<Row>, rows: set<nat>, to: nat): (after: seq<Row>)
    ensures |after| == |next|
    ensures forall k | 0 <= k < |next| :: after[k] == if k in rows then Some(to) else next[k]
  {
    seq(|next|, k requires 0 <= k < |next| => if k in rows then Some(to) else next[k])
  }

  lemma {:induction false} FollowAdds(next: seq<Row>, i: nat, a: nat, b: nat)
    ensures Follow(next, i, a + b) ==
              match Follow(next, i, a) case None => None case Some(k) => Follow(next, k, b)
  {
    if b > 0 {
      FollowAdds(next, i, a, b - 1);
    }
  }

  /** Up to the first row of the set, redirecting changes no path. */
  lemma {:induction false} SamePath(next: seq<Row>, rows: set<nat>, to: nat, i: nat, n: nat)
    requires forall k: nat | k < n :: !Hits(next, i, k, rows)
    ensures Follow(Redirect(next, rows, to), i, n) == Follow(next, i, n)
  {
    if n > 0 {
      SamePath(next, rows, to, i, n - 1);
      assert !Hits(next, i, n - 1, rows);
    }
  }

  /** The same, seen from the redirected links. */
  lemma {:induction false} SamePathBack(next: seq<Row>, rows: set<nat>, to: nat, i: nat, n: nat)
    requires forall k: nat | k < n :: !Hits(Redirect(next, rows, to), i, k, rows)
    ensures Follow(Redirect(next, rows, to), i, n) == Follow(next, i, n)
  {
    if n > 0 {
      SamePathBack(next, rows, to, i, n - 1);
      assert !Hits(Redirect(next, rows, to), i, n - 1, rows);
    }
  }

  lemma {:induction false} FirstHit(next: seq<Row>, i: nat, n: nat, rows: set<nat>) returns (m: nat)
    requires Hits(next, i, n, rows)
    ensures m <= n && Hits(next, i, m, rows) && forall k: nat | k < m :: !Hits(next, i, k, rows)
  {
    if k: nat :| k < n && Hits(next, i, k, rows) {
      m := FirstHit(next, i, k, rows);
    } else {
      m := n;
    }
  }

  /** A redirected row that `to` reaches closes a circle through `to`. */
  lemma ReachedClosesCircle(next: seq<Row>, rows: set<nat>, to: nat)
    requires to < |next| && to !in rows && (forall k | k in rows :: k < |next|) && Reaches(next, to, rows)
    ensures !Acyclic(Redirect(next, rows, to))
  {
    var n: nat :| Hits(next, to, n, rows);
    var m := FirstHit(next, to, n, rows);
    SamePath(next, rows, to, to, m);
    assert Follow(Redirect(next, rows, to), to, m + 1) == Some(to);
  }

  /** A circle through a redirected row comes back to such a row from `to`. */
  lemma CircleReaches(next: seq<Row>, rows: set<nat>, to: nat, i: nat, n: nat, k: nat)
    requires k < n && forall r | r in rows :: r < |next|
    requires Follow(Redirect(next, rows, to), i, n) == Some(i) && Hits(Redirect(next, rows, to), i, k, rows)
    ensures Reaches(next, to, rows)
  {
    var after := Redirect(next, rows, to);
    FollowAdds(after, i, n, k);
    FollowAdds(after, i, k + 1, n - 1);
    assert Follow(after, i, k + 1) == Some(to);
    assert Hits(after, to, n - 1, rows);
    if forall j: nat | j < n - 1 :: !Hits(next, to, j, rows) {
      SamePath(next, rows, to, to, n - 1);
      assert Hits(next, to, n - 1, rows);
    }
  }

  lemma UnreachedStaysOpen(next: seq<Row>, rows: set<nat>, to: nat, i: nat, n: nat)
    requires Acyclic(next) && !Reaches(next, to, rows) && (forall r | r in rows :: r < |next|) && i < |next| && n >= 1
    ensures Follow(Redirect(next, rows, to), i, n) != Some(i)
  {
    var after := Redirect(next, rows, to);
    if k: nat :| k < n && Hits(after, i, k, rows) {
      if Follow(after, i, n) == Some(i) {
        CircleReaches(next, rows, to, i, n, k);
      }
    } else {
      SamePathBack(next, rows, to, i, n);
    }
  }

  /** Redirecting rows to `to` keeps the links free of circles exactly when none of those rows is reached from `to`. */
  lemma RedirectAcyclicIff(next: seq<Row>, rows: set<nat>, to: nat)
    requires Acyclic(next) && to < |next| && to !in rows && forall k | k in rows :: k < |next|
    ensures Acyclic(Redirect(next, rows, to)) <==> !Reaches(next, to, rows)
  {
    if Reaches(next, to, rows) {
      ReachedClosesCircle(next, rows, to);
    } else {
      forall i: nat, n: nat | i < |next| && n >= 1 ensures Follow(Redirect(next, rows, to), i, n) != Some(i) {
        UnreachedStaysOpen(next, rows, to, i, n);
      }
    }
  }

  lemma {:induction false} ClearedPath(next: seq<Row>, id: nat, i: nat, n: nat)
    requires id < |next|
    ensures Follow(next[id := None], i, n).Some? ==> Follow(next[id := None], i, n) == Follow(next, i, n)
  {
    if n > 0 {
      ClearedPath(next, id, i, n - 1);
    }
  }

  /** Clearing a link closes no circle, and leads nowhere from there. */
  lemma ClearedStaysAcyclic(next: seq<Row>, id: nat, rows: set<nat>)
    requires Acyclic(next) && id < |next| && id !in rows
    ensures Acyclic(next[id := None]) && !Reaches(next[id := None], id, rows)
  {
    var cleared := next[id := None];
    forall i: nat, n: nat | i < |cleared| && n >= 1 ensures Follow(cleared, i, n) != Some(i) {
      ClearedPath(next, id, i, n);
    }
    forall n: nat ensures !Hits(cleared, id, n, rows) {
      if n >= 1 {
        FollowAdds(cleared, id, 1, n - 1);
        assert Follow(cleared, id, 1) == None;
      }
    }
  }

  lemma {:induction false} AppendedPath(next: seq<Row>, i: nat, n: nat)
    requires InRange(next) && i < |next|
    ensures Follow(next + [None], i, n) == Follow(next, i, n)
    ensures Follow(next, i, n).Some? ==> Follow(next, i, n).value < |next|
  {
    if n > 0 {
      AppendedPath(next, i, n - 1);
    }
  }

  predicate InRange(next: seq<Row>) {
    forall k | 0 <= k < |next| && next[k].Some? :: next[k].value < |next|
  }

  /** A new row without a link closes no circle. */
  lemma AppendedStaysAcyclic(next: seq<Row>)
    requires Acyclic(next) && InRange(next)
    ensures Acyclic(next + [None]) && InRange(next + [None])
  {
    var after := next + [None];
    forall i: nat, n: nat | i < |after| && n >= 1 ensures Follow(after, i, n) != Some(i) {
      if i < |next| {
        AppendedPath(next, i, n);
      } else {
        FollowAdds(after, i, 1, n - 1);
        assert Follow(after, i, 1) == None;
      }
    }
  }
}
