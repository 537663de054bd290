/** Minimum-cost assignment over a rectangular matrix (internal/matching/assignment.go).
    The solver keeps row and column potentials; optimality follows from weak duality. */
module Hungarian {

  /** math.MaxFloat64 / 4, the solver's stand-in for infinity. */
  const INF: real := 44942328371557892703631855932926089199517641881461249149729369200789315195007134690147389658191719542885114738378595616058580331722366045692116886675884379246512477644137820519061372522597332236018967127113783485576145809225805737041452139833030837068699456551036180792184544295229824970312601006546031214592.0

  /** The sentinel cost of a pair that cannot be matched. */
  const UNREACHABLE: real := 1000000000000.0

  type Matrix = seq<seq<real>>

  datatype Pair = Pair(row: nat, col: nat, cost: real)

  ghost predicate Rectangular(c: Matrix, cols: nat)
  {
    forall i :: 0 <= i < |c| ==> |c[i]| == cols
  }

  function Columns(c: Matrix): nat
  {
    if |c| == 0 then 0 else |c[0]|
  }

  /** Every entry is small enough that no slack the solver forms can reach INF. */
  ghost predicate Bounded(c: Matrix)
  {
    forall i, j :: 0 <= i < |c| && 0 <= j < |c[i]| ==> -INF / 4.0 < c[i][j] < INF / 4.0
  }

  ghost predicate DistinctRows(m: seq<Pair>)
  {
    forall a, b :: 0 <= a < b < |m| ==> m[a].row != m[b].row
  }

  ghost predicate DistinctCols(m: seq<Pair>)
  {
    forall a, b :: 0 <= a < b < |m| ==> m[a].col != m[b].col
  }

  ghost predicate EntriesOf(c: Matrix, m: seq<Pair>)
  {
    forall a :: 0 <= a < |m| ==>
      m[a].row < |c| && m[a].col < |c[m[a].row]| && m[a].cost == c[m[a].row][m[a].col]
  }

  /** Pairs of the matrix that use no row and no column twice. */
  ghost predicate IsMatching(c: Matrix, m: seq<Pair>)
  {
    EntriesOf(c, m) && DistinctRows(m) && DistinctCols(m)
  }

  ghost function Total(m: seq<Pair>): real
  {
    if m == [] then 0.0 else Total(m[..|m| - 1]) + m[|m| - 1].cost
  }

  /** No matching with as many pairs costs less. */
  ghost predicate Cheapest(c: Matrix, m: seq<Pair>)
  {
    forall other: seq<Pair> :: IsMatching(c, other) && |other| == |m| ==> Total(m) <= Total(other)
  }

  function Min(a: nat, b: nat): nat { if a <= b then a else b }

  // ---------------------------------------------------------------------------------------------
  // Potentials. Arrays are 1-indexed as in the source: row r is c[r - 1], column 0 is virtual.
  // ---------------------------------------------------------------------------------------------

  ghost predicate Shape(c: Matrix, cols: nat, u: seq<real>, v: seq<real>, p: seq<nat>)
  {
    1 <= |c| <= cols && Rectangular(c, cols) && |u| == |c| + 1 && |v| == cols + 1 && |p| == cols + 1
  }

  ghost function Slack(c: Matrix, u: seq<real>, v: seq<real>, r: nat, j: nat): real
    requires 1 <= r <= |c| && r < |u| && 1 <= j < |v| && j <= |c[r - 1]|
  {
    c[r - 1][j - 1] - u[r] - v[j]
  }

  /** Dual feasibility of rows 1..k. */
  ghost predicate Feasible(c: Matrix, cols: nat, u: seq<real>, v: seq<real>, k: nat)
    requires k <= |c| && Rectangular(c, cols) && |u| == |c| + 1 && |v| == cols + 1
  {
    forall r, j :: 1 <= r <= k && 1 <= j <= cols ==> Slack(c, u, v, r, j) >= 0.0
  }

  ghost predicate Rows(p: seq<nat>, k: nat)
  {
    forall j :: 0 <= j < |p| ==> p[j] <= k
  }

  /** Complementary slackness: matched pairs are tight. Column `hole` is not looked at. */
  ghost predicate Tight(c: Matrix, cols: nat, u: seq<real>, v: seq<real>, p: seq<nat>, hole: nat)
    requires Shape(c, cols, u, v, p) && Rows(p, |c|)
  {
    forall j :: 1 <= j <= cols && j != hole && p[j] != 0 ==> Slack(c, u, v, p[j], j) == 0.0
  }

  /** No row sits in two columns, leaving `hole` out. */
  ghost predicate Injective(p: seq<nat>, hole: nat)
  {
    forall a, b :: 0 <= a < |p| && 0 <= b < |p| && a != hole && b != hole && p[a] == p[b] && p[a] != 0 ==> a == b
  }

  ghost predicate Seated(p: seq<nat>, r: nat, hole: nat)
  {
    exists j :: 0 <= j < |p| && j != hole && p[j] == r
  }

  /** Every row 1..k sits in some column other than `hole`. */
  ghost predicate Covers(p: seq<nat>, k: nat, hole: nat)
  {
    forall r :: 1 <= r <= k ==> Seated(p, r, hole)
  }

  /** v <= 0, and v is 0 on free columns. */
  ghost predicate Signs(v: seq<real>, p: seq<nat>)
    requires |v| == |p|
  {
    forall j :: 1 <= j < |v| ==> v[j] <= 0.0 && (p[j] == 0 ==> v[j] == 0.0)
  }

  ghost predicate Lower(u: seq<real>, k: nat)
    requires k < |u|
  {
    forall r :: 1 <= r <= k ==> u[r] > -INF / 4.0
  }

  /** What the outer loop keeps once rows 1..k are matched (column 0 is the hole). */
  ghost predicate Matched(c: Matrix, cols: nat, u: seq<real>, v: seq<real>, p: seq<nat>, k: nat)
  {
    Shape(c, cols, u, v, p) && k <= |c| && Feasible(c, cols, u, v, k) && Rows(p, |c|) &&
    (forall j :: 1 <= j <= cols ==> p[j] <= k) &&
    Tight(c, cols, u, v, p, 0) && Injective(p, 0) && Covers(p, k, 0) && Signs(v, p) && Lower(u, k) &&
    (forall r :: k < r <= |c| ==> u[r] == 0.0)
  }

  /** What the tree-growing loop keeps while row i, sitting in column 0, is inserted. */
  ghost predicate Growing(c: Matrix, cols: nat, u: seq<real>, v: seq<real>, p: seq<nat>, i: nat, first: bool)
  {
    Shape(c, cols, u, v, p) && 1 <= i <= |c| && Rows(p, i) && p[0] == i &&
    Feasible(c, cols, u, v, if first then i - 1 else i) &&
    Tight(c, cols, u, v, p, 0) && Injective(p, |p|) && Covers(p, i, |p|) && Signs(v, p) && Lower(u, i) &&
    (forall r :: i < r <= |c| ==> u[r] == 0.0)
  }

  /** The alternating tree: used columns hang off `way`, unused ones know their least slack. */
  ghost predicate Tree(c: Matrix, cols: nat, u: seq<real>, v: seq<real>, p: seq<nat>,
                       way: seq<nat>, minv: seq<real>, used: seq<bool>, rank: seq<nat>)
    requires Shape(c, cols, u, v, p) && Rows(p, |c|)
  {
    |way| == cols + 1 && |minv| == cols + 1 && |used| == cols + 1 && |rank| == cols + 1 &&
    (forall j :: 0 <= j <= cols ==> way[j] <= cols) &&
    (forall j :: 0 <= j <= cols && used[j] ==> p[j] != 0) &&
    (forall j :: 1 <= j <= cols && used[j] ==>
      used[way[j]] && rank[way[j]] < rank[j] && Slack(c, u, v, p[way[j]], j) == 0.0) &&
    (forall j :: 1 <= j <= cols && !used[j] && used[0] ==>
      used[way[j]] && minv[j] == Slack(c, u, v, p[way[j]], j)) &&
    (forall j, k :: 1 <= j <= cols && !used[j] && 0 <= k <= cols && used[k] ==>
      minv[j] <= Slack(c, u, v, p[k], j)) &&
    (forall j :: 0 <= j <= cols && used[j] ==> used[0]) &&
    (forall j :: 1 <= j <= cols && !used[0] ==> minv[j] == INF)
  }

  /** The growing invariant and the tree invariant together. */
  ghost predicate InTree(c: Matrix, cols: nat, u: seq<real>, v: seq<real>, p: seq<nat>, way: seq<nat>,
                         minv: seq<real>, used: seq<bool>, rank: seq<nat>, i: nat, first: bool)
  {
    Growing(c, cols, u, v, p, i, first) && Tree(c, cols, u, v, p, way, minv, used, rank)
  }

  // ---------------------------------------------------------------------------------------------
  // Pigeonhole and bounds
  // ---------------------------------------------------------------------------------------------

  ghost predicate DistinctNats(s: seq<nat>)
  {
    forall a, b :: 0 <= a < b < |s| ==> s[a] != s[b]
  }

  /** Distinct numbers below n are at most n many. */
  lemma {:induction false} Pigeonhole(s: seq<nat>, n: nat)
    requires DistinctNats(s)
    requires forall a :: 0 <= a < |s| ==> s[a] < n
    ensures |s| <= n
    decreases n
  {
    if |s| > 0 {
      assert s[0] < n;
      if k :| 0 <= k < |s| && s[k] == n - 1 {
        Pigeonhole(s[..k] + s[k + 1..], n - 1);
      } else {
        Pigeonhole(s, n - 1);
      }
    }
  }

  /** While fewer rows than columns are matched some column is free. */
  lemma FreeColumn(p: seq<nat>, k: nat)
    requires |p| > 0 && Injective(p, 0) && k < |p| - 1
    requires forall j :: 1 <= j < |p| ==> p[j] <= k
    ensures exists j :: 1 <= j < |p| && p[j] == 0
  {
    if forall j :: 1 <= j < |p| ==> p[j] != 0 {
      var s := seq(|p| - 1, x requires 0 <= x < |p| - 1 => (p[x + 1] - 1) as nat);
      Pigeonhole(s, k);
    }
  }

  /** Every slack stays below INF, so scanning always finds a column. */
  lemma SlackBelowInf(c: Matrix, cols: nat, u: seq<real>, v: seq<real>, p: seq<nat>, i: nat, first: bool, free: nat,
                      r: nat, j: nat)
    requires Growing(c, cols, u, v, p, i, first) && Bounded(c)
    requires 1 <= free <= cols && p[free] == 0
    requires 1 <= r <= i && 1 <= j <= cols
    requires p[j] == i ==> !first
    ensures Slack(c, u, v, r, j) < INF
  {
    if p[j] != 0 {
      assert Slack(c, u, v, p[j], free) >= 0.0;
      assert Slack(c, u, v, p[j], j) == 0.0;
      assert c[p[j] - 1][free - 1] < INF / 4.0;
      assert c[p[j] - 1][j - 1] > -INF / 4.0;
    }
    assert c[r - 1][j - 1] < INF / 4.0;
  }

  /** What a scan needs to know before it starts. */
  lemma ScanReady(c: Matrix, cols: nat, u: seq<real>, v: seq<real>, p: seq<nat>, way: seq<nat>, minv: seq<real>,
                  used: seq<bool>, rank: seq<nat>, i: nat, j0: nat, free: nat)
    requires InTree(c, cols, u, v, p, way, minv, used, rank, i, j0 == 0) && Bounded(c)
    requires j0 <= cols && !used[j0] && p[j0] != 0 && 1 <= free <= cols && p[free] == 0
    ensures Shape(c, cols, u, v, p) && Rows(p, |c|) && 1 <= p[j0] <= |c| && !used[free] && free != j0
    ensures forall j :: 1 <= j <= cols ==> Slack(c, u, v, p[j0], j) < INF
  {
    forall j | 1 <= j <= cols
      ensures Slack(c, u, v, p[j0], j) < INF
    {
      SlackBelowInf(c, cols, u, v, p, i, j0 == 0, free, p[j0], j);
    }
  }

  // ---------------------------------------------------------------------------------------------
  // The solver
  // ---------------------------------------------------------------------------------------------

  /** What a scan from the row in column j0 does to `way` and `minv`. */
  ghost predicate Scanned(c: Matrix, cols: nat, u: seq<real>, v: seq<real>, p: seq<nat>, used: seq<bool>, j0: nat,
                          way: seq<nat>, minv: seq<real>, way': seq<nat>, minv': seq<real>)
    requires Shape(c, cols, u, v, p) && |used| == cols + 1 && j0 <= cols && 1 <= p[j0] <= |c|
  {
    |way| == cols + 1 && |way'| == cols + 1 && |minv| == cols + 1 && |minv'| == cols + 1 &&
    (forall j :: 0 <= j <= cols && (j == 0 || used[j]) ==> minv'[j] == minv[j] && way'[j] == way[j]) &&
    (forall j :: 1 <= j <= cols && !used[j] ==>
      var s := Slack(c, u, v, p[j0], j);
      if s < minv[j] then minv'[j] == s && way'[j] == j0 else minv'[j] == minv[j] && way'[j] == way[j])
  }

  /** One scan over the unused columns (assignment.go lines 71-86): relaxes minv against the row
      sitting in column j0 and picks the unused column of least minv. */
  method Scan(c: Matrix, cols: nat, u: array<real>, v: array<real>, p: array<nat>, way: array<nat>,
              minv: array<real>, used: array<bool>, j0: nat, ghost free: nat)
    returns (delta: real, j1: nat)
    requires Shape(c, cols, u[..], v[..], p[..]) && u != v && u != minv && v != minv && p != way
    requires way.Length == cols + 1 && minv.Length == cols + 1 && used.Length == cols + 1
    requires j0 <= cols && 1 <= p[j0] <= |c|
    requires 1 <= free <= cols && !used[free]
    requires forall j :: 1 <= j <= cols && !used[j] ==> Slack(c, u[..], v[..], p[j0], j) < INF
    modifies way, minv
    ensures Scanned(c, cols, u[..], v[..], p[..], used[..], j0, old(way[..]), old(minv[..]), way[..], minv[..])
    ensures 1 <= j1 <= cols && !used[j1] && minv[j1] == delta
    ensures forall j :: 1 <= j <= cols && !used[j] ==> delta <= minv[j]
  {
    var i0 := p[j0];
    delta := INF;
    j1 := 0;
    for j := 1 to cols + 1
      invariant forall k :: j <= k <= cols ==> minv[k] == old(minv[k]) && way[k] == old(way[k])
      invariant forall k :: 0 <= k <= cols && (k == 0 || used[k]) ==> minv[k] == old(minv[k]) && way[k] == old(way[k])
      invariant forall k :: 1 <= k < j && !used[k] ==>
        var s := Slack(c, u[..], v[..], i0, k);
        if s < old(minv[k]) then minv[k] == s && way[k] == j0
        else minv[k] == old(minv[k]) && way[k] == old(way[k])
      invariant forall k :: 1 <= k < j && !used[k] ==> delta <= minv[k]
      invariant j1 == 0 ==> delta == INF
      invariant free < j ==> delta < INF
      invariant j1 != 0 ==> 1 <= j1 < j && !used[j1] && minv[j1] == delta
    {
      if used[j] { continue; }
      var cur := c[i0 - 1][j - 1] - u[i0] - v[j];
      assert cur == Slack(c, u[..], v[..], i0, j);
      if cur < minv[j] {
        minv[j] := cur;
        way[j] := j0;
      }
      if minv[j] < delta {
        delta := minv[j];
        j1 := j;
      }
    }
  }

  ghost predicate Lowered(cols: nat, used: seq<bool>, delta: real, minv: seq<real>, minv': seq<real>)
    requires |used| == cols + 1 && |minv| == cols + 1 && |minv'| == cols + 1
  {
    forall j :: 0 <= j <= cols ==> minv'[j] == if used[j] then minv[j] else minv[j] - delta
  }

  /** The potential update (assignment.go lines 87-94): used rows gain delta, used columns lose it. */
  method Shift(cols: nat, delta: real, u: array<real>, v: array<real>, p: array<nat>, minv: array<real>,
               used: array<bool>)
    requires u != v && u != minv && v != minv
    requires v.Length == cols + 1 && p.Length == cols + 1 && minv.Length == cols + 1 && used.Length == cols + 1
    requires Injective(p[..], cols + 1)
    requires forall j :: 0 <= j <= cols ==> p[j] < u.Length && (used[j] ==> p[j] != 0)
    modifies u, v, minv
    ensures Shifted(cols, p[..], used[..], delta, old(u[..]), old(v[..]), u[..], v[..])
    ensures Lowered(cols, used[..], delta, old(minv[..]), minv[..])
  {
    for j := 0 to cols + 1
      invariant forall k :: 0 <= k <= cols ==> v[k] == if k < j && used[k] then old(v[k]) - delta else old(v[k])
      invariant forall k :: 0 <= k <= cols ==> minv[k] == if k < j && !used[k] then old(minv[k]) - delta
                                                          else old(minv[k])
      invariant forall k :: 0 <= k < j && used[k] ==> u[p[k]] == old(u[p[k]]) + delta
      invariant forall r :: 0 <= r < u.Length && (forall k :: 0 <= k < j && used[k] ==> p[k] != r) ==> u[r] == old(u[r])
    {
      if used[j] {
        assert forall k :: 0 <= k < j && used[k] ==> p[..][k] != p[..][j];
        u[p[j]] := u[p[j]] + delta;
        v[j] := v[j] - delta;
      } else {
        minv[j] := minv[j] - delta;
      }
    }
  }

  /** Entering column j0 into the tree and scanning from its row keeps the tree. */
  lemma ScanKeepsTree(c: Matrix, cols: nat, u: seq<real>, v: seq<real>, p: seq<nat>, way: seq<nat>, minv: seq<real>,
                      used: seq<bool>, rank: seq<nat>, i: nat, j0: nat, n: nat, way': seq<nat>, minv': seq<real>)
    requires InTree(c, cols, u, v, p, way, minv, used, rank, i, j0 == 0)
    requires j0 <= cols && !used[j0] && p[j0] != 0
    requires if j0 == 0 then !used[0] else used[0] && minv[j0] == 0.0
    requires forall k :: 0 <= k <= cols && used[k] ==> rank[k] < n
    requires forall j :: 1 <= j <= cols ==> Slack(c, u, v, p[j0], j) < INF
    requires Scanned(c, cols, u, v, p, used[j0 := true], j0, way, minv, way', minv')
    ensures InTree(c, cols, u, v, p, way', minv', used[j0 := true], rank[j0 := n], i, j0 == 0)
    ensures used[j0 := true][0]
  {
    hide Feasible, Tight, Injective, Covers, Signs, Lower;
  }

  /** What Shift does to the potentials. */
  ghost predicate Shifted(cols: nat, p: seq<nat>, used: seq<bool>, delta: real,
                          u: seq<real>, v: seq<real>, u': seq<real>, v': seq<real>)
    requires |p| == cols + 1 && |used| == cols + 1 && |v| == cols + 1 && |v'| == cols + 1 && |u| == |u'|
    requires forall j :: 0 <= j <= cols ==> p[j] < |u|
  {
    (forall j :: 0 <= j <= cols ==> v'[j] == if used[j] then v[j] - delta else v[j]) &&
    (forall j :: 0 <= j <= cols && used[j] ==> u'[p[j]] == u[p[j]] + delta) &&
    (forall r :: 0 <= r < |u| && (forall j :: 0 <= j <= cols && used[j] ==> p[j] != r) ==> u'[r] == u[r])
  }

  /** A row gains delta exactly when the column it sits in is used. */
  lemma ShiftRow(cols: nat, p: seq<nat>, used: seq<bool>, delta: real, u: seq<real>, v: seq<real>,
                 u': seq<real>, v': seq<real>, k: nat)
    requires |p| == cols + 1 && |used| == cols + 1 && |v| == cols + 1 && |v'| == cols + 1 && |u| == |u'|
    requires forall j :: 0 <= j <= cols ==> p[j] < |u|
    requires Shifted(cols, p, used, delta, u, v, u', v') && Injective(p, |p|) && k <= cols && p[k] != 0
    ensures u'[p[k]] == if used[k] then u[p[k]] + delta else u[p[k]]
  {
  }

  /** How one slack moves. */
  lemma ShiftSlack(c: Matrix, cols: nat, u: seq<real>, v: seq<real>, p: seq<nat>, used: seq<bool>, delta: real,
                   u': seq<real>, v': seq<real>, k: nat, j: nat)
    requires Shape(c, cols, u, v, p) && Shape(c, cols, u', v', p) && Rows(p, |c|) && |used| == cols + 1
    requires Shifted(cols, p, used, delta, u, v, u', v') && Injective(p, |p|)
    requires k <= cols && p[k] != 0 && 1 <= j <= cols
    ensures Slack(c, u', v', p[k], j) ==
      Slack(c, u, v, p[k], j) - (if used[k] then delta else 0.0) + (if used[j] then delta else 0.0)
  {
    ShiftRow(cols, p, used, delta, u, v, u', v', k);
  }

  /** The potential update keeps every slack of rows 1..i non-negative. */
  lemma ShiftKeepsFeasible(c: Matrix, cols: nat, u: seq<real>, v: seq<real>, p: seq<nat>, way: seq<nat>,
                           minv: seq<real>, used: seq<bool>, rank: seq<nat>, i: nat, first: bool, delta: real,
                           u': seq<real>, v': seq<real>)
    requires Growing(c, cols, u, v, p, i, first) && Tree(c, cols, u, v, p, way, minv, used, rank) && used[0]
    requires if first then forall j :: 1 <= j <= cols ==> !used[j] else delta >= 0.0
    requires forall j :: 1 <= j <= cols && !used[j] ==> delta <= minv[j]
    requires Shape(c, cols, u', v', p) && Shifted(cols, p, used, delta, u, v, u', v')
    ensures Feasible(c, cols, u', v', i)
  {
    forall r, j | 1 <= r <= i && 1 <= j <= cols
      ensures Slack(c, u', v', r, j) >= 0.0
    {
      assert Seated(p, r, |p|);
      var k :| 0 <= k < |p| && p[k] == r;
      ShiftedSlackSign(c, cols, u, v, p, way, minv, used, rank, i, first, delta, u', v', k, j);
    }
  }

  lemma ShiftedSlackSign(c: Matrix, cols: nat, u: seq<real>, v: seq<real>, p: seq<nat>, way: seq<nat>, minv: seq<real>,
                         used: seq<bool>, rank: seq<nat>, i: nat, first: bool, delta: real,
                         u': seq<real>, v': seq<real>, k: nat, j: nat)
    requires Growing(c, cols, u, v, p, i, first) && Tree(c, cols, u, v, p, way, minv, used, rank) && used[0]
    requires if first then forall j :: 1 <= j <= cols ==> !used[j] else delta >= 0.0
    requires forall j :: 1 <= j <= cols && !used[j] ==> delta <= minv[j]
    requires Shape(c, cols, u', v', p) && Shifted(cols, p, used, delta, u, v, u', v')
    requires k <= cols && p[k] != 0 && 1 <= j <= cols
    ensures Slack(c, u', v', p[k], j) >= 0.0
  {
    ShiftSlack(c, cols, u, v, p, used, delta, u', v', k, j);
    hide Shifted, Tight, Covers, Signs, Lower;
    if used[k] {
      if !used[j] {
        assert minv[j] <= Slack(c, u, v, p[k], j);
      }
    } else {
      assert p[k] != p[0];
    }
  }

  /** The potential update keeps the rest of the growing invariant. */
  lemma ShiftKeepsGrowing(c: Matrix, cols: nat, u: seq<real>, v: seq<real>, p: seq<nat>,
                          used: seq<bool>, i: nat, first: bool, delta: real, u': seq<real>, v': seq<real>)
    requires Growing(c, cols, u, v, p, i, first) && |used| == cols + 1
    requires forall j :: 1 <= j <= cols && used[j] ==> p[j] != 0
    requires if first then delta > -INF / 4.0 && u[i] == 0.0 && forall j :: 1 <= j <= cols ==> !used[j]
             else delta >= 0.0
    requires Shape(c, cols, u', v', p) && Shifted(cols, p, used, delta, u, v, u', v')
    requires Feasible(c, cols, u', v', i)
    ensures Growing(c, cols, u', v', p, i, false)
  {
    forall j | 1 <= j <= cols && p[j] != 0
      ensures Slack(c, u', v', p[j], j) == 0.0
    {
      ShiftRow(cols, p, used, delta, u, v, u', v', j);
      assert Slack(c, u, v, p[j], j) == 0.0;
    }
    forall r | 1 <= r <= i
      ensures u'[r] > -INF / 4.0
    {
      assert Seated(p, r, |p|);
      var k :| 0 <= k < |p| && p[k] == r;
      ShiftRow(cols, p, used, delta, u, v, u', v', k);
    }
  }

  /** The potential update moves tree slacks and minv together. */
  lemma ShiftKeepsTree(c: Matrix, cols: nat, u: seq<real>, v: seq<real>, p: seq<nat>, way: seq<nat>, minv: seq<real>,
                       used: seq<bool>, rank: seq<nat>, delta: real, u': seq<real>, v': seq<real>, minv': seq<real>)
    requires Shape(c, cols, u, v, p) && Rows(p, |c|) && Injective(p, |p|)
    requires Tree(c, cols, u, v, p, way, minv, used, rank) && used[0]
    requires Shape(c, cols, u', v', p) && Shifted(cols, p, used, delta, u, v, u', v') && |minv'| == cols + 1
    requires Lowered(cols, used, delta, minv, minv')
    ensures Tree(c, cols, u', v', p, way, minv', used, rank)
  {
    forall j, k | 1 <= j <= cols && 0 <= k <= cols && used[k]
      ensures Slack(c, u', v', p[k], j) == Slack(c, u, v, p[k], j) - if used[j] then 0.0 else delta
    {
    }
  }

  /** The augmenting-path walk (assignment.go lines 100-104): seats row p[0] by shifting rows along
      `way`, so that the hole moves from the free column j0 back to column 0. */
  method Augment(c: Matrix, cols: nat, ghost u: seq<real>, ghost v: seq<real>, p: array<nat>, way: array<nat>,
                 ghost minv: seq<real>, ghost used: seq<bool>, ghost rank: seq<nat>, ghost i: nat, start: nat)
    requires p != way && p.Length == cols + 1 && way.Length == cols + 1
    requires InTree(c, cols, u, v, p[..], way[..], minv, used, rank, i, false) && used[0]
    requires 1 <= start <= cols && !used[start] && p[start] == 0 && minv[start] == 0.0
    modifies p
    ensures p[0] == i && Rows(p[..], i)
    ensures Tight(c, cols, u, v, p[..], 0) && Injective(p[..], 0) && Covers(p[..], i, 0) && Signs(v, p[..])
  {
    var j0 := start;
    ghost var seats, paths := p[..], way[..];
    AugmentReady(c, cols, u, v, seats, paths, minv, used, rank, i, start);
    hide InTree, Growing, Shape, Tree, Injective, Covers, Tight, Signs, Rows, Slack;
    while j0 != 0
      invariant j0 <= cols && p[0] == i && way[..] == paths && Rows(p[..], i)
      invariant j0 != start ==> used[j0]
      invariant forall k :: 0 <= k <= cols && used[k] && (used[j0] ==> rank[k] <= rank[j0]) ==> p[k] == seats[k]
      invariant Tight(c, cols, u, v, p[..], j0) && Injective(p[..], j0) && Covers(p[..], i, j0) && Signs(v, p[..])
      decreases if used[j0] then 1 + rank[j0] else 2 + rank[paths[j0]]
    {
      var j1 := way[j0];
      assert j1 == paths[j0];
      WayTight(c, cols, u, v, seats, paths, minv, used, rank, i, j0);
      ghost var before := p[..];
      p[j0] := p[j1];
      assert p[..] == before[j0 := before[j1]];
      AugmentStep(c, cols, u, v, before, p[..], i, j0, j1);
      j0 := j1;
    }
  }

  /** What the augmenting walk needs to know before it starts. */
  lemma AugmentReady(c: Matrix, cols: nat, u: seq<real>, v: seq<real>, p: seq<nat>, way: seq<nat>, minv: seq<real>,
                     used: seq<bool>, rank: seq<nat>, i: nat, start: nat)
    requires InTree(c, cols, u, v, p, way, minv, used, rank, i, false) && used[0]
    requires 1 <= start <= cols && !used[start] && p[start] == 0 && minv[start] == 0.0
    ensures Shape(c, cols, u, v, p) && i <= |c| && p[0] == i && Rows(p, i) && Signs(v, p)
    ensures |used| == cols + 1 && |rank| == cols + 1
    ensures Tight(c, cols, u, v, p, start) && Injective(p, start) && Covers(p, i, start)
    ensures forall j :: 0 <= j <= cols ==> way[j] <= cols
    ensures |u| == |c| + 1 && |v| == cols + 1
  {
    forall r | 1 <= r <= i
      ensures Seated(p, r, start)
    {
      assert Seated(p, r, |p|);
    }
  }

  /** A column on the walk is tight with the row its `way` column holds. */
  lemma WayTight(c: Matrix, cols: nat, u: seq<real>, v: seq<real>, p: seq<nat>, way: seq<nat>, minv: seq<real>,
                 used: seq<bool>, rank: seq<nat>, i: nat, j: nat)
    requires InTree(c, cols, u, v, p, way, minv, used, rank, i, false) && used[0]
    requires 1 <= j <= cols && (used[j] || minv[j] == 0.0)
    ensures Shape(c, cols, u, v, p) && Rows(p, |c|) && used[way[j]] && p[way[j]] != 0
    ensures Slack(c, u, v, p[way[j]], j) == 0.0
    ensures used[j] ==> rank[way[j]] < rank[j]
    ensures way[j] <= cols
  {
  }

  /** One step of the walk moves the hole from j0 to j1. */
  lemma AugmentStep(c: Matrix, cols: nat, u: seq<real>, v: seq<real>, p: seq<nat>, p': seq<nat>, i: nat, j0: nat,
                    j1: nat)
    requires Shape(c, cols, u, v, p) && Rows(p, i) && i <= |c| && 1 <= j0 <= cols && j1 <= cols && j1 != j0
    requires p[j1] != 0 && p' == p[j0 := p[j1]] && Slack(c, u, v, p[j1], j0) == 0.0
    requires Tight(c, cols, u, v, p, j0) && Injective(p, j0) && Covers(p, i, j0) && Signs(v, p)
    ensures Rows(p', i) && Tight(c, cols, u, v, p', j1) && Injective(p', j1) && Covers(p', i, j1) && Signs(v, p')
  {
    forall r | 1 <= r <= i
      ensures Seated(p', r, j1)
    {
      assert Seated(p, r, j0);
      var k :| 0 <= k < |p| && k != j0 && p[k] == r;
      assert p'[if k == j1 then j0 else k] == r;
    }
  }

  /** Putting row i into the virtual column starts an insertion. */
  lemma StartGrowing(c: Matrix, cols: nat, u: seq<real>, v: seq<real>, p: seq<nat>, p': seq<nat>, i: nat)
    requires 1 <= i <= |c| && Matched(c, cols, u, v, p, i - 1) && p' == p[0 := i]
    ensures Growing(c, cols, u, v, p', i, true)
  {
    forall r | 1 <= r <= i
      ensures Seated(p', r, |p'|)
    {
      if r < i {
        assert Seated(p, r, 0);
        var k :| 0 <= k < |p| && k != 0 && p[k] == r;
        assert p'[k] == r;
      } else {
        assert p'[0] == r;
      }
    }
  }

  /** The tree-growing loop (assignment.go lines 68-99), run until it stands on a free tight column. */
  method GrowTree(c: Matrix, cols: nat, i: nat, u: array<real>, v: array<real>, p: array<nat>, way: array<nat>,
                  minv: array<real>, used: array<bool>, ghost rank0: seq<nat>, ghost free: nat)
    returns (j0: nat, ghost rank: seq<nat>)
    requires u.Length == |c| + 1 && v.Length == cols + 1 && p.Length == cols + 1
    requires u != v && u != minv && v != minv && p != way
    requires way.Length == cols + 1 && minv.Length == cols + 1 && used.Length == cols + 1 && Bounded(c)
    requires 1 <= i <= |c| && u[i] == 0.0 && p[0] != 0 && |rank0| == cols + 1
    requires InTree(c, cols, u[..], v[..], p[..], way[..], minv[..], used[..], rank0, i, true)
    requires 1 <= free <= cols && p[free] == 0
    requires forall k :: 0 <= k <= cols ==> !used[k]
    modifies u, v, way, minv, used
    ensures InTree(c, cols, u[..], v[..], p[..], way[..], minv[..], used[..], rank, i, false) && used[0]
    ensures 1 <= j0 <= cols && !used[j0] && p[j0] == 0 && minv[j0] == 0.0
  {
    hide InTree, Bounded;
    j0, rank := 0, rank0;
    ghost var n: nat := 0;
    ghost var seats := p[..];
    CountNone(used[..]);
    while true
      invariant InTree(c, cols, u[..], v[..], seats, way[..], minv[..], used[..], rank, i, j0 == 0)
      invariant j0 <= cols && !used[j0] && p[j0] != 0
      invariant if j0 == 0 then !used[0] && u[i] == 0.0 && n == 0 else used[0] && minv[j0] == 0.0
      invariant |rank| == cols + 1 && forall k :: 0 <= k <= cols && used[k] ==> rank[k] < n
      invariant n == Count(used[..])
      decreases cols + 1 - n
    {
      assert p[..] == seats;
      ghost var before := used[..];
      var delta, j1 := Enter(c, cols, i, u, v, p, way, minv, used, rank, n, j0, free);
      CountTurn(before, used[..], j0, j1);
      rank, n := rank[j0 := n], n + 1;
      Relax(c, cols, i, u, v, p, way[..], minv, used, rank, j0 == 0, delta, j1);
      assert p[..] == seats;
      j0 := j1;
      if p[j0] == 0 { break; }
    }
  }

  /** Entering a column adds one to the used count and leaves it below the number of columns. */
  lemma CountTurn(b: seq<bool>, b': seq<bool>, j0: nat, j1: nat)
    requires j0 < |b| && !b[j0] && b' == b[j0 := true] && j1 < |b| && !b'[j1]
    ensures Count(b') == Count(b) + 1 < |b|
    ensures Count(b) == 0 ==> forall k :: 0 <= k < |b| && b'[k] ==> k == j0
  {
    CountSet(b, j0);
    CountBelow(b', j1);
    NoneCounted(b);
  }

  /** Row insertion (assignment.go lines 60-104): grows the alternating tree from row i until a free
      column is tight, then augments. */
  method InsertRow(c: Matrix, cols: nat, i: nat, u: array<real>, v: array<real>, p: array<nat>, way: array<nat>)
    requires u.Length == |c| + 1 && v.Length == cols + 1 && p.Length == cols + 1
    requires u != v && p != way && way.Length == cols + 1 && Bounded(c)
    requires 1 <= i <= |c| && Matched(c, cols, u[..], v[..], p[..], i - 1)
    requires forall j :: 0 <= j <= cols ==> way[j] <= cols
    modifies u, v, p, way
    ensures Matched(c, cols, u[..], v[..], p[..], i)
    ensures forall j :: 0 <= j <= cols ==> way[j] <= cols
  {
    hide InTree, Matched;
    ghost var u0, v0, p0 := u[..], v[..], p[..];
    p[0] := i;
    var minv := new real[cols + 1](_ => INF);
    var used := new bool[cols + 1](_ => false);
    ghost var rank: seq<nat> := seq(cols + 1, _ => 0);
    ghost var seats := p0[0 := i];
    assert p[..] == seats && u[..] == u0 && v[..] == v0;
    ghost var free := StartTree(c, cols, u0, v0, p0, seats, way[..], minv[..], used[..], rank, i);
    var j0;
    j0, rank := GrowTree(c, cols, i, u, v, p, way, minv, used, rank, free);
    assert p[..] == seats;
    ghost var ways, u1, v1 := way[..], u[..], v[..];
    TreeWays(c, cols, u1, v1, seats, ways, minv[..], used[..], rank, i);
    Augment(c, cols, u1, v1, p, way, minv[..], used[..], rank, i, j0);
    assert way[..] == ways && u[..] == u1 && v[..] == v1;
    Inserted(c, cols, u1, v1, seats, ways, minv[..], used[..], rank, p[..], i);
  }

  /** With row i in the virtual column and no column used the tree invariant holds. */
  lemma StartTree(c: Matrix, cols: nat, u: seq<real>, v: seq<real>, p: seq<nat>, p': seq<nat>, way: seq<nat>,
                  minv: seq<real>, used: seq<bool>, rank: seq<nat>, i: nat)
    returns (free: nat)
    requires 1 <= i <= |c| && Matched(c, cols, u, v, p, i - 1) && p' == p[0 := i]
    requires |way| == cols + 1 && |minv| == cols + 1 && |used| == cols + 1 && |rank| == cols + 1
    requires forall j :: 0 <= j <= cols ==> way[j] <= cols && !used[j] && minv[j] == INF
    ensures InTree(c, cols, u, v, p', way, minv, used, rank, i, true)
    ensures 1 <= free <= cols && p'[free] == 0 && u[i] == 0.0
  {
    FreeColumn(p, i - 1);
    free :| 1 <= free <= cols && p[free] == 0;
    StartGrowing(c, cols, u, v, p, p', i);
  }

  lemma TreeWays(c: Matrix, cols: nat, u: seq<real>, v: seq<real>, p: seq<nat>, way: seq<nat>, minv: seq<real>,
                 used: seq<bool>, rank: seq<nat>, i: nat)
    requires InTree(c, cols, u, v, p, way, minv, used, rank, i, false)
    ensures forall j :: 0 <= j <= cols ==> way[j] <= cols
  {
  }

  /** A finished insertion is a matched prefix one row longer. */
  lemma Inserted(c: Matrix, cols: nat, u: seq<real>, v: seq<real>, p: seq<nat>, way: seq<nat>, minv: seq<real>,
                 used: seq<bool>, rank: seq<nat>, p': seq<nat>, i: nat)
    requires InTree(c, cols, u, v, p, way, minv, used, rank, i, false) && |p'| == |p| && Rows(p', i) && p'[0] == i
    requires Tight(c, cols, u, v, p', 0) && Injective(p', 0) && Covers(p', i, 0) && Signs(v, p')
    ensures Matched(c, cols, u, v, p', i)
  {
  }

  lemma NoneCounted(b: seq<bool>)
    ensures Count(b) == 0 ==> forall k :: 0 <= k < |b| ==> !b[k]
  {
    if k :| 0 <= k < |b| && b[k] {
      CountSet(b[k := false], k);
      assert b == b[k := false][k := true];
    }
  }

  ghost function Count(b: seq<bool>): nat
    ensures Count(b) <= |b|
  {
    if b == [] then 0 else Count(b[..|b| - 1]) + if b[|b| - 1] then 1 else 0
  }

  lemma {:induction false} CountNone(b: seq<bool>)
    requires forall k :: 0 <= k < |b| ==> !b[k]
    ensures Count(b) == 0
  {
    if b != [] {
      CountNone(b[..|b| - 1]);
    }
  }

  lemma {:induction false} CountSet(b: seq<bool>, k: nat)
    requires k < |b| && !b[k]
    ensures Count(b[k := true]) == Count(b) + 1
  {
    var b' := b[k := true];
    if k < |b| - 1 {
      CountSet(b[..|b| - 1], k);
      assert b'[..|b| - 1] == b[..|b| - 1][k := true];
    } else {
      assert b'[..|b| - 1] == b[..|b| - 1];
    }
  }

  lemma {:induction false} CountBelow(b: seq<bool>, k: nat)
    requires k < |b| && !b[k]
    ensures Count(b) < |b|
  {
    if k < |b| - 1 {
      CountBelow(b[..|b| - 1], k);
    }
  }

  /** First half of a turn (assignment.go lines 69-86): column j0 enters the tree and its row is
      scanned. */
  method Enter(c: Matrix, cols: nat, i: nat, u: array<real>, v: array<real>, p: array<nat>, way: array<nat>,
               minv: array<real>, used: array<bool>, ghost rank: seq<nat>, ghost n: nat, j0: nat, ghost free: nat)
    returns (delta: real, j1: nat)
    requires |rank| == cols + 1
    requires u.Length == |c| + 1 && v.Length == cols + 1 && p.Length == cols + 1
    requires u != v && u != minv && v != minv && p != way
    requires way.Length == cols + 1 && minv.Length == cols + 1 && used.Length == cols + 1 && Bounded(c)
    requires InTree(c, cols, u[..], v[..], p[..], way[..], minv[..], used[..], rank, i, j0 == 0)
    requires j0 <= cols && !used[j0] && p[j0] != 0
    requires if j0 == 0 then !used[0] else used[0] && minv[j0] == 0.0
    requires forall k :: 0 <= k <= cols && used[k] ==> rank[k] < n
    requires 1 <= free <= cols && p[free] == 0
    modifies way, minv, used
    ensures used[..] == old(used[..])[j0 := true]
    ensures InTree(c, cols, u[..], v[..], p[..], way[..], minv[..], used[..], rank[j0 := n], i, j0 == 0) && used[0]
    ensures 1 <= j1 <= cols && !used[j1] && minv[j1] == delta
    ensures forall j :: 1 <= j <= cols && !used[j] ==> delta <= minv[j]
  {
    hide *;
    ghost var u0, v0, p0, way0, minv0, used0 := u[..], v[..], p[..], way[..], minv[..], used[..];
    ScanReady(c, cols, u0, v0, p0, way0, minv0, used0, rank, i, j0, free);
    used[j0] := true;
    assert used[..] == used0[j0 := true];
    assert u[..] == u0 && v[..] == v0 && p[..] == p0 && way[..] == way0 && minv[..] == minv0;
    delta, j1 := Scan(c, cols, u, v, p, way, minv, used, j0, free);
    assert u[..] == u0 && v[..] == v0 && p[..] == p0;
    ScanKeepsTree(c, cols, u0, v0, p0, way0, minv0, used0, rank, i, j0, n, way[..], minv[..]);
  }

  /** Second half of a turn (assignment.go lines 87-95): the potentials move by the least slack. */
  method Relax(c: Matrix, cols: nat, i: nat, u: array<real>, v: array<real>, p: array<nat>, ghost way: seq<nat>,
               minv: array<real>, used: array<bool>, ghost rank: seq<nat>, ghost first: bool, delta: real,
               ghost j1: nat)
    requires u.Length == |c| + 1 && v.Length == cols + 1 && p.Length == cols + 1
    requires u != v && u != minv && v != minv
    requires minv.Length == cols + 1 && used.Length == cols + 1 && Bounded(c)
    requires 1 <= i <= |c|
    requires InTree(c, cols, u[..], v[..], p[..], way, minv[..], used[..], rank, i, first) && used[0]
    requires first ==> u[i] == 0.0 && forall j :: 1 <= j <= cols ==> !used[j]
    requires 1 <= j1 <= cols && !used[j1] && minv[j1] == delta
    requires forall j :: 1 <= j <= cols && !used[j] ==> delta <= minv[j]
    modifies u, v, minv
    ensures InTree(c, cols, u[..], v[..], p[..], way, minv[..], used[..], rank, i, false)
    ensures minv[j1] == 0.0
  {
    hide *;
    ghost var u0, v0, minv0, p0, used0 := u[..], v[..], minv[..], p[..], used[..];
    DeltaBound(c, cols, u0, v0, p0, way, minv0, used0, rank, i, first, j1);
    ShiftReady(c, cols, u0, v0, p0, way, minv0, used0, rank, i, first);
    Shift(cols, delta, u, v, p, minv, used);
    assert p[..] == p0 && used[..] == used0;
    RelaxKeeps(c, cols, u0, v0, p0, way, minv0, used0, rank, i, first, delta, j1, u[..], v[..], minv[..]);
  }

  ghost predicate ShapeHolds(c: Matrix, cols: nat, p: seq<nat>)
  {
    1 <= |c| <= cols && Rectangular(c, cols) && |p| == cols + 1
  }

  /** What the potential update needs to know before it starts. */
  lemma ShiftReady(c: Matrix, cols: nat, u: seq<real>, v: seq<real>, p: seq<nat>, way: seq<nat>, minv: seq<real>,
                   used: seq<bool>, rank: seq<nat>, i: nat, first: bool)
    requires InTree(c, cols, u, v, p, way, minv, used, rank, i, first)
    ensures |u| == |c| + 1 && |v| == cols + 1 && |p| == cols + 1 && Injective(p, cols + 1) && Rows(p, |c|)
    ensures forall j :: 0 <= j <= cols ==> p[j] < |u| && (used[j] ==> p[j] != 0)
    ensures ShapeHolds(c, cols, p)
  {
  }

  /** The three preservation facts of the potential update together. */
  lemma RelaxKeeps(c: Matrix, cols: nat, u: seq<real>, v: seq<real>, p: seq<nat>, way: seq<nat>, minv: seq<real>,
                   used: seq<bool>, rank: seq<nat>, i: nat, first: bool, delta: real, j1: nat,
                   u': seq<real>, v': seq<real>, minv': seq<real>)
    requires InTree(c, cols, u, v, p, way, minv, used, rank, i, first) && used[0]
    requires if first then delta > -INF / 4.0 && u[i] == 0.0 && forall j :: 1 <= j <= cols ==> !used[j]
             else delta >= 0.0
    requires forall j :: 1 <= j <= cols && !used[j] ==> delta <= minv[j]
    requires ShapeHolds(c, cols, p) && |u'| == |u| && |v'| == |v| && |minv'| == cols + 1
    requires Shifted(cols, p, used, delta, u, v, u', v')
    requires Lowered(cols, used, delta, minv, minv')
    requires 1 <= j1 <= cols && !used[j1] && minv[j1] == delta
    ensures minv'[j1] == 0.0
    ensures InTree(c, cols, u', v', p, way, minv', used, rank, i, false)
  {
    ShiftKeepsFeasible(c, cols, u, v, p, way, minv, used, rank, i, first, delta, u', v');
    ShiftKeepsGrowing(c, cols, u, v, p, used, i, first, delta, u', v');
    ShiftKeepsTree(c, cols, u, v, p, way, minv, used, rank, delta, u', v', minv');
  }

  /** The least slack is non-negative except on the first turn, where it is still above -INF / 4. */
  lemma DeltaBound(c: Matrix, cols: nat, u: seq<real>, v: seq<real>, p: seq<nat>, way: seq<nat>, minv: seq<real>,
                   used: seq<bool>, rank: seq<nat>, i: nat, first: bool, j1: nat)
    requires InTree(c, cols, u, v, p, way, minv, used, rank, i, first) && Bounded(c) && used[0]
    requires first ==> u[i] == 0.0 && forall j :: 1 <= j <= cols ==> !used[j]
    requires 1 <= j1 <= cols && !used[j1]
    ensures if first then minv[j1] > -INF / 4.0 else minv[j1] >= 0.0
  {
    if first {
      assert c[i - 1][j1 - 1] > -INF / 4.0;
    }
  }

  /** The whole insertion loop (assignment.go lines 54-105): every row matched, with potentials that
      certify it. */
  method Solve(c: Matrix, cols: nat) returns (p: array<nat>, ghost u: seq<real>, ghost v: seq<real>)
    requires 1 <= |c| <= cols && Rectangular(c, cols) && Bounded(c)
    ensures fresh(p) && p.Length == cols + 1 && Matched(c, cols, u, v, p[..], |c|)
  {
    var ua := new real[|c| + 1](_ => 0.0);
    var va := new real[cols + 1](_ => 0.0);
    p := new nat[cols + 1](_ => 0);
    var way := new nat[cols + 1](_ => 0);
    for i := 1 to |c| + 1
      invariant Matched(c, cols, ua[..], va[..], p[..], i - 1)
      invariant forall j :: 0 <= j <= cols ==> way[j] <= cols
    {
      InsertRow(c, cols, i, ua, va, p, way);
    }
    u, v := ua[..], va[..];
  }

  // ---------------------------------------------------------------------------------------------
  // Weak duality
  // ---------------------------------------------------------------------------------------------

  ghost function Sum(f: seq<real>): real
  {
    if f == [] then 0.0 else Sum(f[..|f| - 1]) + f[|f| - 1]
  }

  /** The sum of f over the positions listed in s. */
  ghost function Gather(s: seq<nat>, f: seq<real>): real
    requires forall a :: 0 <= a < |s| ==> s[a] < |f|
  {
    if s == [] then 0.0 else Gather(s[..|s| - 1], f) + f[s[|s| - 1]]
  }

  function Without(s: seq<nat>, k: nat): (r: seq<nat>)
    requires k < |s|
    ensures |r| == |s| - 1
  {
    s[..k] + s[k + 1..]
  }

  lemma {:induction false} GatherRemove(s: seq<nat>, f: seq<real>, k: nat)
    requires forall a :: 0 <= a < |s| ==> s[a] < |f|
    requires k < |s|
    requires forall a :: 0 <= a < |s| - 1 ==> Without(s, k)[a] < |f|
    ensures Gather(s, f) == Gather(Without(s, k), f) + f[s[k]]
  {
    var rest, s' := Without(s, k), s[..|s| - 1];
    if k == |s| - 1 {
      assert rest == s';
    } else {
      assert s'[..k] == s[..k] && s'[k + 1..] == s[k + 1..][..|s| - k - 2];
      assert rest[..|rest| - 1] == Without(s', k);
      GatherRemove(s', f, k);
    }
  }

  lemma {:induction false} GatherShrink(s: seq<nat>, f: seq<real>, n: nat)
    requires n <= |f|
    requires forall a :: 0 <= a < |s| ==> s[a] < n
    ensures Gather(s, f) == Gather(s, f[..n])
  {
    if s != [] {
      GatherShrink(s[..|s| - 1], f, n);
    }
  }

  /** Taking the largest number out of a distinct sequence. */
  lemma WithoutLargest(s: seq<nat>, k: nat, n: nat)
    requires DistinctNats(s) && k < |s| && s[k] == n && forall a :: 0 <= a < |s| ==> s[a] <= n
    ensures DistinctNats(Without(s, k))
    ensures forall a :: 0 <= a < |s| - 1 ==> Without(s, k)[a] < n
    ensures forall x :: x in s && x != n ==> x in Without(s, k)
  {
    var rest := Without(s, k);
    forall x | x in s && x != n
      ensures x in rest
    {
      var i :| 0 <= i < |s| && s[i] == x;
      assert rest[if i < k then i else i - 1] == x;
    }
    forall a | 0 <= a < |rest|
      ensures rest[a] == s[if a < k then a else a + 1]
    {
    }
  }

  /** f has no positive entry outside s. */
  ghost predicate NonPositiveOutside(s: seq<nat>, f: seq<real>)
  {
    forall x :: 0 <= x < |f| && x !in s ==> f[x] <= 0.0
  }

  ghost predicate ZeroOutside(s: seq<nat>, f: seq<real>)
  {
    forall x :: 0 <= x < |f| && x !in s ==> f[x] == 0.0
  }

  /** Leaving out only non-positive entries cannot lower a sum; leaving out zeros keeps it. */
  lemma {:induction false} GatherDistinct(s: seq<nat>, f: seq<real>)
    requires DistinctNats(s)
    requires forall a :: 0 <= a < |s| ==> s[a] < |f|
    ensures NonPositiveOutside(s, f) ==> Gather(s, f) >= Sum(f)
    ensures ZeroOutside(s, f) ==> Gather(s, f) == Sum(f)
    decreases |f|
  {
    assert s == [] || s[0] < |f|;
    if f != [] {
      hide Without;
      var n := |f| - 1;
      if k :| 0 <= k < |s| && s[k] == n {
        var rest := Without(s, k);
        WithoutLargest(s, k, n);
        GatherRemove(s, f, k);
        GatherShrink(rest, f, n);
        GatherDistinct(rest, f[..n]);
      } else {
        GatherShrink(s, f, n);
        GatherDistinct(s, f[..n]);
        assert n !in s;
      }
    }
  }

  function RowsOf(m: seq<Pair>): seq<nat> { seq(|m|, a requires 0 <= a < |m| => m[a].row) }

  function ColsOf(m: seq<Pair>): seq<nat> { seq(|m|, a requires 0 <= a < |m| => m[a].col) }

  /** A matching priced by potentials. */
  lemma {:induction false} TotalAbove(c: Matrix, cols: nat, m: seq<Pair>, u: seq<real>, v: seq<real>)
    requires |u| == |c| && |v| == cols && Rectangular(c, cols) && EntriesOf(c, m)
    requires forall r, j :: 0 <= r < |c| && 0 <= j < cols ==> u[r] + v[j] <= c[r][j]
    ensures Total(m) >= Gather(RowsOf(m), u) + Gather(ColsOf(m), v)
    ensures (forall a :: 0 <= a < |m| ==> m[a].cost == u[m[a].row] + v[m[a].col]) ==>
      Total(m) == Gather(RowsOf(m), u) + Gather(ColsOf(m), v)
  {
    if m != [] {
      var m' := m[..|m| - 1];
      TotalAbove(c, cols, m', u, v);
      assert RowsOf(m)[..|m| - 1] == RowsOf(m') && ColsOf(m)[..|m| - 1] == ColsOf(m');
    }
  }

  lemma AllRowsUsed(m: seq<Pair>, rows: nat, r: nat)
    requires DistinctRows(m) && |m| == rows && r < rows
    requires forall a :: 0 <= a < |m| ==> m[a].row < rows
    ensures r in RowsOf(m)
  {
    if r !in RowsOf(m) {
      assert forall a :: 0 <= a < |m| ==> RowsOf(m)[a] != r;
      Pigeonhole(RowsOf(m) + [r], rows);
    }
  }

  ghost predicate DualFeasible(c: Matrix, cols: nat, u: seq<real>, v: seq<real>)
  {
    |u| == |c| && |v| == cols && Rectangular(c, cols) &&
    (forall r, j :: 0 <= r < |c| && 0 <= j < cols ==> u[r] + v[j] <= c[r][j]) &&
    (forall j :: 0 <= j < cols ==> v[j] <= 0.0)
  }

  /** Weak duality: a row-perfect matching costs at least the sum of the potentials. */
  lemma WeakDuality(c: Matrix, cols: nat, m: seq<Pair>, u: seq<real>, v: seq<real>)
    requires DualFeasible(c, cols, u, v) && IsMatching(c, m) && |m| == |c|
    ensures Total(m) >= Sum(u) + Sum(v)
    ensures (forall a :: 0 <= a < |m| ==> m[a].cost == u[m[a].row] + v[m[a].col]) && ZeroOutside(ColsOf(m), v) ==>
      Total(m) == Sum(u) + Sum(v)
  {
    TotalAbove(c, cols, m, u, v);
    assert EntriesOf(c, m) && DistinctNats(RowsOf(m)) && DistinctNats(ColsOf(m));
    hide IsMatching, DistinctCols, EntriesOf, DistinctNats;
    forall r | 0 <= r < |c|
      ensures r in RowsOf(m)
    {
      AllRowsUsed(m, |c|, r);
    }
    GatherDistinct(RowsOf(m), u);
    GatherDistinct(ColsOf(m), v);
  }

  /** Complementary slackness: a tight row-perfect matching is cheapest. */
  lemma TightIsCheapest(c: Matrix, cols: nat, m: seq<Pair>, u: seq<real>, v: seq<real>)
    requires DualFeasible(c, cols, u, v) && IsMatching(c, m) && |m| == |c|
    requires forall a :: 0 <= a < |m| ==> m[a].cost == u[m[a].row] + v[m[a].col]
    requires ZeroOutside(ColsOf(m), v)
    ensures Cheapest(c, m)
  {
    WeakDuality(c, cols, m, u, v);
    forall other: seq<Pair> | IsMatching(c, other) && |other| == |m|
      ensures Total(m) <= Total(other)
    {
      WeakDuality(c, cols, other, u, v);
    }
  }

  // ---------------------------------------------------------------------------------------------
  // Reading the pairs off the columns
  // ---------------------------------------------------------------------------------------------

  /** The pairs held by columns 1..n, in column order. */
  ghost function Held(c: Matrix, p: seq<nat>, n: nat): seq<Pair>
    requires n < |p| && Rows(p, |c|) && forall i :: 0 <= i < |c| ==> |c[i]| == |p| - 1
  {
    if n == 0 then [] else
      Held(c, p, n - 1) + if p[n] == 0 then [] else [Pair(p[n] - 1, n - 1, c[p[n] - 1][n - 1])]
  }

  /** What the held pairs are: ascending columns, each with the row that sits in it, none missed. */
  ghost predicate HeldSpec(c: Matrix, p: seq<nat>, n: nat, h: seq<Pair>)
    requires n < |p|
  {
    (forall a :: 0 <= a < |h| ==> h[a].col < n && p[h[a].col + 1] == h[a].row + 1) &&
    (forall a, b :: 0 <= a < b < |h| ==> h[a].col < h[b].col) &&
    EntriesOf(c, h) &&
    (forall j :: 1 <= j <= n && p[j] != 0 ==> j - 1 in ColsOf(h))
  }

  lemma HeldStep(c: Matrix, p: seq<nat>, n: nat, h: seq<Pair>, h': seq<Pair>)
    requires 1 <= n < |p| && Rows(p, |c|) && forall i :: 0 <= i < |c| ==> |c[i]| == |p| - 1
    requires HeldSpec(c, p, n - 1, h)
    requires h' == h + if p[n] == 0 then [] else [Pair(p[n] - 1, n - 1, c[p[n] - 1][n - 1])]
    ensures HeldSpec(c, p, n, h')
  {
    forall a | 0 <= a < |h'|
      ensures h'[a].col < n && p[h'[a].col + 1] == h'[a].row + 1
      ensures a < |h| ==> h'[a] == h[a]
      ensures h'[a].row < |c| && h'[a].col < |c[h'[a].row]| && h'[a].cost == c[h'[a].row][h'[a].col]
    {
      assert a < |h| ==> h[a].col < n - 1;
    }
    HeldColumns(p, n, h, h');
  }

  lemma HeldColumns(p: seq<nat>, n: nat, h: seq<Pair>, h': seq<Pair>)
    requires 1 <= n < |p| && h <= h' && |h'| == |h| + if p[n] == 0 then 0 else 1
    requires p[n] != 0 ==> h'[|h|].col == n - 1
    requires forall j :: 1 <= j <= n - 1 && p[j] != 0 ==> j - 1 in ColsOf(h)
    ensures forall j :: 1 <= j <= n && p[j] != 0 ==> j - 1 in ColsOf(h')
  {
    forall j | 1 <= j <= n && p[j] != 0
      ensures j - 1 in ColsOf(h')
    {
      if j < n {
        assert j - 1 in ColsOf(h);
        var a :| 0 <= a < |h| && ColsOf(h)[a] == j - 1;
        assert ColsOf(h')[a] == j - 1;
      } else {
        assert ColsOf(h')[|h|] == j - 1;
      }
    }
  }

  lemma {:induction false} HeldFrom(c: Matrix, p: seq<nat>, n: nat)
    requires n < |p| && Rows(p, |c|) && forall i :: 0 <= i < |c| ==> |c[i]| == |p| - 1
    ensures HeldSpec(c, p, n, Held(c, p, n))
  {
    if n > 0 {
      HeldFrom(c, p, n - 1);
      HeldStep(c, p, n, Held(c, p, n - 1), Held(c, p, n));
    }
  }

  lemma HeldRow(c: Matrix, p: seq<nat>, h: seq<Pair>, r: nat)
    requires |p| > 0 && Covers(p, |c|, 0) && HeldSpec(c, p, |p| - 1, h) && r < |c|
    ensures r in RowsOf(h)
  {
    assert Seated(p, r + 1, 0);
    var j :| 0 <= j < |p| && j != 0 && p[j] == r + 1;
    assert j - 1 in ColsOf(h);
    var a :| 0 <= a < |h| && ColsOf(h)[a] == j - 1;
    assert RowsOf(h)[a] == r;
  }

  /** Pairs read off an injective, covering column array form a matching that uses every row. */
  lemma HeldIsMatching(c: Matrix, p: seq<nat>, h: seq<Pair>)
    requires |p| > 0 && Injective(p, 0) && Covers(p, |c|, 0) && HeldSpec(c, p, |p| - 1, h)
    ensures IsMatching(c, h) && |h| == |c|
  {
    Pigeonhole(RowsOf(h), |c|);
    forall r | 0 <= r < |c|
      ensures r in RowsOf(h)
    {
      HeldRow(c, p, h, r);
    }
    AtLeast(RowsOf(h), |c|);
  }

  /** A sequence listing every number below n has at least n entries. */
  lemma {:induction false} AtLeast(s: seq<nat>, n: nat)
    requires forall x :: 0 <= x < n ==> x in s
    ensures |s| >= n
    decreases n
  {
    if n > 0 {
      assert n - 1 in s;
      var k :| 0 <= k < |s| && s[k] == n - 1;
      var rest := s[..k] + s[k + 1..];
      forall x | 0 <= x < n - 1
        ensures x in rest
      {
        assert x in s;
        var i :| 0 <= i < |s| && s[i] == x;
        assert rest[if i < k then i else i - 1] == x;
      }
      AtLeast(rest, n - 1);
    }
  }

  /** The certificate of a finished solve makes the held pairs cheapest. */
  lemma HeldIsCheapest(c: Matrix, cols: nat, u: seq<real>, v: seq<real>, p: seq<nat>)
    requires 1 <= |c| && Matched(c, cols, u, v, p, |c|)
    ensures |p| == cols + 1 && Rows(p, |c|) && Rectangular(c, cols)
    ensures IsMatching(c, Held(c, p, cols)) && |Held(c, p, cols)| == |c| && Cheapest(c, Held(c, p, cols))
  {
    var m := Held(c, p, cols);
    HeldFrom(c, p, cols);
    HeldIsMatching(c, p, m);
    forall r, j | 0 <= r < |c| && 0 <= j < cols
      ensures u[1..][r] + v[1..][j] <= c[r][j]
    {
      assert Slack(c, u, v, r + 1, j + 1) >= 0.0;
    }
    forall a | 0 <= a < |m|
      ensures m[a].cost == u[1..][m[a].row] + v[1..][m[a].col]
    {
      assert Slack(c, u, v, p[m[a].col + 1], m[a].col + 1) == 0.0;
    }
    forall j | 0 <= j < cols
      ensures v[1..][j] <= 0.0 && (j !in ColsOf(m) ==> v[1..][j] == 0.0)
    {
      assert p[j + 1] != 0 ==> (j + 1) - 1 in ColsOf(m);
    }
    TightIsCheapest(c, cols, m, u[1..], v[1..]);
  }

  // ---------------------------------------------------------------------------------------------
  // Transposition
  // ---------------------------------------------------------------------------------------------

  function Flip(x: Pair): Pair { Pair(x.col, x.row, x.cost) }

  function Flipped(m: seq<Pair>): seq<Pair> { seq(|m|, a requires 0 <= a < |m| => Flip(m[a])) }

  ghost predicate IsTranspose(c: Matrix, t: Matrix)
  {
    |c| > 0 && Rectangular(c, |t|) && Rectangular(t, |c|) &&
    forall i, j :: 0 <= i < |c| && 0 <= j < |t| ==> t[j][i] == c[i][j]
  }

  method Transpose(m: Matrix) returns (t: Matrix)
    requires |m| > 0 && Rectangular(m, |m[0]|)
    ensures |t| == |m[0]| && IsTranspose(m, t)
  {
    t := [];
    for j := 0 to |m[0]|
      invariant |t| == j && Rectangular(t, |m|)
      invariant forall i, k :: 0 <= i < |m| && 0 <= k < j ==> t[k][i] == m[i][k]
    {
      var column := [];
      for i := 0 to |m|
        invariant |column| == i && forall k :: 0 <= k < i ==> column[k] == m[k][j]
      {
        column := column + [m[i][j]];
      }
      t := t + [column];
    }
  }

  lemma {:induction false} FlipTotal(m: seq<Pair>)
    ensures Total(Flipped(m)) == Total(m)
  {
    if m != [] {
      FlipTotal(m[..|m| - 1]);
      assert Flipped(m)[..|m| - 1] == Flipped(m[..|m| - 1]);
    }
  }

  lemma FlipMatching(c: Matrix, t: Matrix, m: seq<Pair>)
    requires IsTranspose(c, t) && IsMatching(t, m)
    ensures IsMatching(c, Flipped(m))
  {
  }

  lemma FlipCheapest(c: Matrix, t: Matrix, m: seq<Pair>)
    requires IsTranspose(c, t) && IsTranspose(t, c) && IsMatching(t, m) && Cheapest(t, m)
    ensures IsMatching(c, Flipped(m)) && Cheapest(c, Flipped(m)) && |Flipped(m)| == |m|
  {
    FlipMatching(c, t, m);
    FlipTotal(m);
    forall other: seq<Pair> | IsMatching(c, other) && |other| == |Flipped(m)|
      ensures Total(Flipped(m)) <= Total(other)
    {
      FlipMatching(t, c, other);
      FlipTotal(other);
    }
  }

  // ---------------------------------------------------------------------------------------------
  // Sorting by row
  // ---------------------------------------------------------------------------------------------

  ghost predicate SortedByRow(m: seq<Pair>)
  {
    forall a, b :: 0 <= a < b < |m| ==> m[a].row <= m[b].row
  }

  lemma {:induction false} TotalInsert(a: seq<Pair>, x: Pair, b: seq<Pair>)
    ensures Total(a + [x] + b) == Total(a + b) + x.cost
  {
    if b == [] {
      assert a + [x] + b == a + [x] && a + b == a && (a + [x])[..|a|] == a;
    } else {
      var b' := b[..|b| - 1];
      TotalInsert(a, x, b');
      assert (a + [x] + b)[..|a| + |b|] == a + [x] + b' && (a + b)[..|a + b| - 1] == a + b';
    }
  }

  /** A pair may stand anywhere in a matching. */
  lemma MatchingInsert(c: Matrix, a: seq<Pair>, x: Pair, b: seq<Pair>)
    ensures IsMatching(c, a + [x] + b) <==>
      IsMatching(c, a + b) && EntriesOf(c, [x]) &&
      (forall i :: 0 <= i < |a + b| ==> (a + b)[i].row != x.row && (a + b)[i].col != x.col)
  {
    var m, m' := a + b, a + [x] + b;
    assert forall i :: 0 <= i < |a| ==> m'[i] == m[i];
    assert forall i :: |a| <= i < |m| ==> m'[i + 1] == m[i];
    assert m'[|a|] == x;
    assert forall i :: |a| < i < |m'| ==> m'[i] == m[i - 1];
    if IsMatching(c, m') {
      assert EntriesOf(c, m);
      assert [x][0] == m'[|a|];
    }
  }

  /** Moving the pair at the border of `done` and `rest` back to position k keeps cost and matching. */
  lemma InsertKeeps(c: Matrix, done: seq<Pair>, x: Pair, rest: seq<Pair>, k: nat)
    requires k <= |done| && IsMatching(c, done + [x] + rest)
    ensures IsMatching(c, done[..k] + [x] + done[k..] + rest)
    ensures Total(done[..k] + [x] + done[k..] + rest) == Total(done + [x] + rest)
  {
    var tail := done[k..] + rest;
    assert done[..k] + [x] + done[k..] + rest == done[..k] + [x] + tail;
    assert done[..k] + tail == done + rest;
    TotalInsert(done[..k], x, tail);
    TotalInsert(done, x, rest);
    MatchingInsert(c, done[..k], x, tail);
    MatchingInsert(c, done, x, rest);
  }

  /** Inserting before the first greater row keeps a sequence sorted. */
  lemma InsertSorted(r: seq<Pair>, x: Pair, k: nat)
    requires SortedByRow(r) && k <= |r|
    requires forall a :: k <= a < |r| ==> r[a].row > x.row
    requires k > 0 ==> r[k - 1].row <= x.row
    ensures SortedByRow(r[..k] + [x] + r[k..])
  {
  }

  function InsertAt(r: seq<Pair>, k: nat, x: Pair): (s: seq<Pair>)
    requires k <= |r|
    ensures |s| == |r| + 1
  {
    r[..k] + [x] + r[k..]
  }

  method FindSlot(r: seq<Pair>, x: Pair) returns (k: nat)
    ensures k <= |r| && (forall a :: k <= a < |r| ==> r[a].row > x.row) && (k > 0 ==> r[k - 1].row <= x.row)
  {
    k := |r|;
    while k > 0 && r[k - 1].row > x.row
      invariant 0 <= k <= |r|
      invariant forall a :: k <= a < |r| ==> r[a].row > x.row
    {
      k := k - 1;
    }
  }

  /** What insertion sort keeps after i pairs: r is sorted and, with the rest of m, still the matching. */
  ghost predicate Sorting(c: Matrix, m: seq<Pair>, i: nat, r: seq<Pair>)
  {
    i <= |m| && |r| == i && SortedByRow(r) && IsMatching(c, r + m[i..]) && Total(r + m[i..]) == Total(m)
  }

  lemma SortStep(c: Matrix, m: seq<Pair>, i: nat, r: seq<Pair>, k: nat)
    requires i < |m| && Sorting(c, m, i, r) && k <= |r|
    requires forall a :: k <= a < |r| ==> r[a].row > m[i].row
    requires k > 0 ==> r[k - 1].row <= m[i].row
    ensures Sorting(c, m, i + 1, InsertAt(r, k, m[i]))
  {
    hide IsMatching, SortedByRow, Total;
    var rest := m[i + 1..];
    assert r + m[i..] == r + [m[i]] + rest;
    InsertKeeps(c, r, m[i], rest, k);
    InsertSorted(r, m[i], k);
  }

  /** sort.Slice by row (assignment.go line 118). */
  method SortByRow(c: Matrix, m: seq<Pair>) returns (r: seq<Pair>)
    requires IsMatching(c, m)
    ensures SortedByRow(r) && IsMatching(c, r) && |r| == |m| && Total(r) == Total(m)
  {
    r := [];
    assert r + m[0..] == m;
    for i := 0 to |m|
      invariant Sorting(c, m, i, r)
    {
      hide Sorting, InsertAt;
      var k := FindSlot(r, m[i]);
      SortStep(c, m, i, r, k);
      r := InsertAt(r, k, m[i]);
    }
    assert r + m[|m|..] == r;
  }

  /** What reading the columns yields. */
  ghost predicate ReadOff(work: Matrix, transposed: bool, p: seq<nat>, pairs: seq<Pair>)
  {
    |p| > 0 && Rows(p, |work|) && Rectangular(work, |p| - 1) &&
    pairs == if transposed then Flipped(Held(work, p, |p| - 1)) else Held(work, p, |p| - 1)
  }

  lemma ReadOffIsCheapest(cost: Matrix, work: Matrix, cols: nat, transposed: bool, u: seq<real>, v: seq<real>,
                          p: seq<nat>, pairs: seq<Pair>)
    requires 1 <= |work| && Matched(work, cols, u, v, p, |work|) && ReadOff(work, transposed, p, pairs)
    requires if transposed then IsTranspose(cost, work) else cost == work
    ensures IsMatching(cost, pairs) && |pairs| == |work| && Cheapest(cost, pairs)
  {
    HeldIsCheapest(work, cols, u, v, p);
    if transposed { FlipCheapest(cost, work, Held(work, p, cols)); }
  }

  /** Lines 107-117: reads the pairs off the columns, flipping them back if the matrix was transposed. */
  method Collect(original: Matrix, work: Matrix, transposed: bool, p: array<nat>) returns (pairs: seq<Pair>)
    requires p.Length > 0 && Rows(p[..], |work|) && Rectangular(work, p.Length - 1)
    requires if transposed then IsTranspose(original, work) && |work| > 0 else original == work
    ensures ReadOff(work, transposed, p[..], pairs)
  {
    pairs := [];
    for j := 1 to p.Length
      invariant pairs == if transposed then Flipped(Held(work, p[..], j - 1)) else Held(work, p[..], j - 1)
    {
      if p[j] == 0 { continue; }
      assert p[..][j] == p[j] <= |work| && |work[p[j] - 1]| == p.Length - 1;
      var r, c := p[j] - 1, j - 1;
      if transposed { r, c := c, r; }
      pairs := pairs + [Pair(r, c, original[r][c])];
    }
  }

  /** Min-cost assignment of a rectangular matrix (assignment.go lines 31-120): min(rows, cols) pairs
      with distinct rows and distinct columns, sorted by row, and no matching of that size is cheaper. */
  method MinCostAssignment(cost: Matrix) returns (pairs: seq<Pair>)
    requires Rectangular(cost, Columns(cost)) && Bounded(cost)
    ensures IsMatching(cost, pairs) && |pairs| == Min(|cost|, Columns(cost))
    ensures SortedByRow(pairs)
    ensures Cheapest(cost, pairs)
  {
    if |cost| == 0 || |cost[0]| == 0 {
      return [];
    }
    if |cost| <= |cost[0]| {
      pairs := Match(cost, cost, |cost[0]|, false);
    } else {
      var work := Transpose(cost);
      pairs := Match(cost, work, |cost|, true);
    }
  }

  /** The part of MinCostAssignment that follows the choice of orientation. */
  method Match(cost: Matrix, work: Matrix, cols: nat, transposed: bool) returns (pairs: seq<Pair>)
    requires 1 <= |work| <= cols && Rectangular(work, cols) && Bounded(cost)
    requires if transposed then IsTranspose(cost, work) else cost == work
    ensures IsMatching(cost, pairs) && |pairs| == |work| && SortedByRow(pairs) && Cheapest(cost, pairs)
  {
    ghost var u, v;
    var p;
    if transposed { BoundedTranspose(cost, work); }
    p, u, v := Solve(work, cols);
    hide *;
    ghost var seats := p[..];
    SolvedShape(work, cols, u, v, seats);
    pairs := Collect(cost, work, transposed, p);
    ReadOffIsCheapest(cost, work, cols, transposed, u, v, seats, pairs);
    ghost var collected := pairs;
    pairs := SortByRow(cost, pairs);
    SameCostCheapest(cost, collected, pairs);
  }

  lemma SolvedShape(c: Matrix, cols: nat, u: seq<real>, v: seq<real>, p: seq<nat>)
    requires Matched(c, cols, u, v, p, |c|)
    ensures |p| == cols + 1 && Rows(p, |c|) && Rectangular(c, |p| - 1)
  {
  }

  lemma BoundedTranspose(c: Matrix, t: Matrix)
    requires IsTranspose(c, t) && Bounded(c) && |t| > 0
    ensures Bounded(t) && IsTranspose(t, c)
  {
    forall j, i | 0 <= j < |t| && 0 <= i < |t[j]|
      ensures -INF / 4.0 < t[j][i] < INF / 4.0
    {
      assert t[j][i] == c[i][j];
    }
  }

  lemma SameCostCheapest(c: Matrix, m: seq<Pair>, m': seq<Pair>)
    requires Cheapest(c, m) && |m| == |m'| && Total(m) == Total(m')
    ensures Cheapest(c, m')
  {
  }
}
