/** Why a large finite cost may stand for "no route" in the batch matcher
    (internal/matching/assignment.go:8-14, internal/matching/optimized.go:115-136). */
module Sentinel {
  import opened Hungarian

  /** The pairs the matcher keeps: those whose cost is below the sentinel. */
  function Kept(m: seq<Pair>): seq<Pair>
  {
    if m == [] then [] else
      Kept(m[..|m| - 1]) + if m[|m| - 1].cost < UNREACHABLE then [m[|m| - 1]] else []
  }

  /** Every entry is the sentinel or lies within [-bound, bound]. */
  ghost predicate Costs(c: Matrix, bound: real)
  {
    forall i, j :: 0 <= i < |c| && 0 <= j < |c[i]| ==> c[i][j] == UNREACHABLE || -bound <= c[i][j] <= bound
  }

  /** A matching that uses no sentinel entry. */
  ghost predicate Routable(c: Matrix, m: seq<Pair>)
  {
    IsMatching(c, m) && forall a :: 0 <= a < |m| ==> m[a].cost < UNREACHABLE
  }

  /** No routable matching is larger, and none of the same size is cheaper. */
  ghost predicate BestRoutable(c: Matrix, kept: seq<Pair>)
  {
    Routable(c, kept) &&
    forall m: seq<Pair> :: Routable(c, m) ==> |m| <= |kept| && (|m| == |kept| ==> Total(kept) <= Total(m))
  }

  lemma {:induction false} KeptFrom(m: seq<Pair>)
    ensures |Kept(m)| <= |m|
    ensures forall a :: 0 <= a < |Kept(m)| ==> Kept(m)[a] in m && Kept(m)[a].cost < UNREACHABLE
    ensures forall x :: x in m && x.cost < UNREACHABLE ==> x in Kept(m)
  {
    if m != [] {
      var m' := m[..|m| - 1];
      KeptFrom(m');
      assert m == m' + [m[|m| - 1]];
      forall x | x in m && x.cost < UNREACHABLE
        ensures x in Kept(m)
      {
        if x in m' { assert x in Kept(m'); }
      }
    }
  }

  lemma {:induction false} KeptRoutable(c: Matrix, m: seq<Pair>)
    requires IsMatching(c, m)
    ensures Routable(c, Kept(m))
  {
    if m != [] {
      var m', x := m[..|m| - 1], m[|m| - 1];
      assert IsMatching(c, m');
      hide IsMatching, Routable;
      KeptRoutable(c, m');
      KeptFrom(m');
      if x.cost < UNREACHABLE {
        assert Kept(m) == Kept(m') + [x];
        KeepOne(c, m, Kept(m'));
      }
    }
  }

  lemma KeepOne(c: Matrix, m: seq<Pair>, k: seq<Pair>)
    requires IsMatching(c, m) && m != [] && Routable(c, k) && m[|m| - 1].cost < UNREACHABLE
    requires forall i :: 0 <= i < |k| ==> k[i] in m[..|m| - 1]
    ensures Routable(c, k + [m[|m| - 1]])
  {
    var m', x := m[..|m| - 1], m[|m| - 1];
    assert EntriesOf(c, [x]) by { assert [x][0] == m[|m| - 1]; }
    forall i | 0 <= i < |k|
      ensures k[i].row != x.row && k[i].col != x.col
    {
      assert k[i] in m';
      var j :| 0 <= j < |m'| && m'[j] == k[i];
      assert m[j] == k[i];
    }
    hide IsMatching;
    MatchingInsert(c, k, x, []);
    assert k + [x] + [] == k + [x] && k + [] == k;
  }

  function Times(n: nat, bound: real): real
  {
    n as real * bound
  }

  /** The cost of n sentinel pairs. */
  ghost function Sentinels(n: int): real
  {
    n as real * UNREACHABLE
  }

  lemma AddSentinel(n: int)
    ensures Sentinels(n + 1) == Sentinels(n) + UNREACHABLE
  {
  }

  /** Every dropped pair costs exactly the sentinel. */
  lemma {:induction false} KeptTotal(c: Matrix, m: seq<Pair>, bound: real)
    requires EntriesOf(c, m) && Costs(c, bound) && bound < UNREACHABLE
    ensures Total(m) == Total(Kept(m)) + Sentinels(|m| - |Kept(m)|)
  {
    if m != [] {
      var m', x := m[..|m| - 1], m[|m| - 1];
      KeptTotal(c, m', bound);
      assert x.cost == c[x.row][x.col];
      var dropped, dropped' := |m| - |Kept(m)|, |m'| - |Kept(m')|;
      if x.cost < UNREACHABLE {
        assert Kept(m)[..|Kept(m)| - 1] == Kept(m') && dropped == dropped';
      } else {
        assert x.cost == UNREACHABLE && Kept(m) == Kept(m');
        AddSentinel(dropped');
      }
    }
  }

  lemma {:induction false} TotalWithin(c: Matrix, m: seq<Pair>, bound: real)
    requires Routable(c, m) && Costs(c, bound)
    ensures -Times(|m|, bound) <= Total(m) <= Times(|m|, bound)
  {
    if m != [] {
      var m', x := m[..|m| - 1], m[|m| - 1];
      assert IsMatching(c, m');
      TotalWithin(c, m', bound);
      assert -bound <= x.cost <= bound;
      assert Times(|m|, bound) == Times(|m'|, bound) + bound;
    }
  }

  /** A number below n missing from a shorter list. */
  lemma Missing(s: seq<nat>, n: nat) returns (x: nat)
    requires |s| < n
    ensures x < n && x !in s
  {
    if forall y :: 0 <= y < n ==> y in s {
      AtLeast(s, n);
    }
    x :| 0 <= x < n && x !in s;
  }

  /** A short matching can be completed, each added pair costing at most the sentinel. */
  lemma {:induction false} Complete(c: Matrix, cols: nat, m: seq<Pair>, bound: real) returns (full: seq<Pair>)
    requires Rectangular(c, cols) && IsMatching(c, m) && |m| <= Min(|c|, cols)
    requires Costs(c, bound) && bound < UNREACHABLE
    ensures IsMatching(c, full) && |full| == Min(|c|, cols)
    ensures Total(full) <= Total(m) + Sentinels(|full| - |m|)
    decreases Min(|c|, cols) - |m|
  {
    if |m| == Min(|c|, cols) {
      full := m;
    } else {
      var r := Missing(RowsOf(m), |c|);
      var j := Missing(ColsOf(m), cols);
      var x := Pair(r, j, c[r][j]);
      forall i | 0 <= i < |m|
        ensures m[i].row != r && m[i].col != j
      {
        assert RowsOf(m)[i] != r && ColsOf(m)[i] != j;
      }
      MatchingInsert(c, m, x, []);
      assert m + [x] + [] == m + [x] && m + [] == m && (m + [x])[..|m|] == m;
      full := Complete(c, cols, m + [x], bound);
      AddSentinel(|full| - |m + [x]|);
    }
  }

  /** If the bound is small against the sentinel, a cheapest full assignment keeps a largest
      routable matching, and a cheapest one of that size. */
  lemma KeptIsBest(c: Matrix, cols: nat, m: seq<Pair>, bound: real)
    requires Rectangular(c, cols) && IsMatching(c, m) && |m| == Min(|c|, cols) && Cheapest(c, m)
    requires Costs(c, bound) && bound >= 0.0 && 2.0 * Times(Min(|c|, cols), bound) < UNREACHABLE
    ensures BestRoutable(c, Kept(m))
  {
    KeptRoutable(c, m);
    forall other: seq<Pair> | Routable(c, other)
      ensures |other| <= |Kept(m)| && (|other| == |Kept(m)| ==> Total(Kept(m)) <= Total(other))
    {
      KeptBeats(c, cols, m, other, bound);
    }
  }

  lemma KeptBeats(c: Matrix, cols: nat, m: seq<Pair>, other: seq<Pair>, bound: real)
    requires Rectangular(c, cols) && IsMatching(c, m) && |m| == Min(|c|, cols) && Cheapest(c, m)
    requires Costs(c, bound) && bound >= 0.0 && 2.0 * Times(Min(|c|, cols), bound) < UNREACHABLE
    requires Routable(c, Kept(m)) && Routable(c, other)
    ensures |other| <= |Kept(m)| && (|other| == |Kept(m)| ==> Total(Kept(m)) <= Total(other))
  {
    assert EntriesOf(c, m) && IsMatching(c, other);
    hide *;
    MatchingSize(c, cols, other);
    KeptFrom(m);
    if |m| > 0 {
      BoundBelow(|m|, bound);
      var full := Complete(c, cols, other, bound);
      CheapestAgainst(c, m, full);
      KeptTotal(c, m, bound);
      TotalWithin(c, other, bound);
      TotalWithin(c, Kept(m), bound);
      Compare(|m|, |Kept(m)|, |other|, Total(Kept(m)), Total(other), bound);
    }
  }

  lemma CheapestAgainst(c: Matrix, m: seq<Pair>, full: seq<Pair>)
    requires Cheapest(c, m) && IsMatching(c, full) && |full| == |m|
    ensures Total(m) <= Total(full)
  {
  }

  lemma BoundBelow(n: nat, bound: real)
    requires n > 0 && bound >= 0.0 && 2.0 * Times(n, bound) < UNREACHABLE
    ensures bound < UNREACHABLE
  {
    assert Times(n, bound) == Times(n - 1, bound) + bound;
  }

  /** The arithmetic of the comparison: one more sentinel outweighs every routable cost. */
  lemma Compare(n: nat, k: nat, k': nat, total: real, total': real, bound: real)
    requires k <= n && k' <= n && bound >= 0.0 && 2.0 * Times(n, bound) < UNREACHABLE
    requires total + Sentinels(n - k) <= total' + Sentinels(n - k')
    requires total >= -Times(k, bound) && total' <= Times(k', bound)
    ensures k' <= k && (k' == k ==> total <= total')
  {
    assert Times(k, bound) <= Times(n, bound) && Times(k', bound) <= Times(n, bound);
    assert Sentinels(n - k) - Sentinels(n - k') == Sentinels(k' - k);
    assert k' > k ==> Sentinels(k' - k) >= UNREACHABLE;
  }

  lemma MatchingSize(c: Matrix, cols: nat, m: seq<Pair>)
    requires Rectangular(c, cols) && IsMatching(c, m)
    ensures |m| <= Min(|c|, cols)
  {
    Pigeonhole(RowsOf(m), |c|);
    Pigeonhole(ColsOf(m), cols);
  }
}
