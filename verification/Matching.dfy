/** Drivers and orders (internal/domain/driver.go, internal/domain/order.go). */
module Domain {
  import opened Roads

  type DriverID = string

  /** The number in the source's "order-<n>" ids. */
  type OrderID = nat

  datatype DriverStatus = Idle | EnRouteToPickup | Delivering

  datatype OrderStatus = Pending | Assigned | EnRoute | Delivered | Unassignable

  datatype Driver = Driver(position: NodeID, status: DriverStatus, route: seq<NodeID>, routeIndex: nat,
                           assignedOrder: Option<OrderID>, idleSince: real, routeProgress: real)

  datatype Order = Order(pickup: NodeID, destination: NodeID, createdAt: real, status: OrderStatus,
                         assignedDriver: Option<DriverID>)
}

/** Baseline and batch matching (internal/matching/baseline.go, internal/matching/optimized.go). */
module Matching {
  import opened Roads
  import opened Routing
  import opened Domain
  import opened Ordering
  import opened Spatial
  import opened Hungarian
  import opened Sentinel

  /** Strictly ascending in Go's string order. */
  ghost predicate Ascending(ids: seq<string>)
  {
    forall i, j :: 0 <= i < j < |ids| ==> ids[i] != ids[j] && StrLe(ids[i], ids[j])
  }

  lemma InsertAscending(ids: seq<string>, x: string, k: nat)
    requires Ascending(ids) && k <= |ids| && x !in ids
    requires k < |ids| ==> StrLe(x, ids[k])
    requires k > 0 ==> StrLe(ids[k - 1], x)
    ensures Ascending(ids[..k] + [x] + ids[k..])
  {
    var s := ids[..k] + [x] + ids[k..];
    forall i | 0 <= i < k
      ensures StrLe(ids[i], x)
    {
      if i < k - 1 { StrLeTransitive(ids[i], ids[k - 1], x); }
    }
    forall i | k <= i < |ids|
      ensures StrLe(x, ids[i])
    {
      if k < i { StrLeTransitive(x, ids[k], ids[i]); }
    }
    forall i, j | 0 <= i < j < |s|
      ensures s[i] != s[j] && StrLe(s[i], s[j])
    {
      if i != k && j != k {
        assert s[i] == ids[if i < k then i else i - 1] && s[j] == ids[if j < k then j else j - 1];
      }
    }
  }

  method FindPlace(ids: seq<string>, x: string) returns (k: nat)
    requires Ascending(ids) && x !in ids
    ensures k <= |ids| && (k < |ids| ==> StrLe(x, ids[k])) && (k > 0 ==> StrLe(ids[k - 1], x))
  {
    k := |ids|;
    while k > 0 && StrLe(x, ids[k - 1])
      invariant k <= |ids| && (k < |ids| ==> StrLe(x, ids[k]))
    {
      k := k - 1;
    }
    if k > 0 { StrLeTotal(x, ids[k - 1]); }
  }

  /** The elements of a set in ascending order: the source's sort.Slice over map keys. */
  method SortIds(s: set<string>) returns (ids: seq<string>)
    ensures Ascending(ids) && |ids| == |s| && forall x :: x in s <==> x in ids
  {
    ids := [];
    var rest := s;
    while rest != {}
      invariant rest <= s && Ascending(ids) && |ids| + |rest| == |s|
      invariant forall x :: x in s - rest <==> x in ids
      decreases |rest|
    {
      var x :| x in rest;
      var k := FindPlace(ids, x);
      InsertAscending(ids, x, k);
      InsertMembers(ids, x, k);
      ids := ids[..k] + [x] + ids[k..];
      rest := rest - {x};
    }
  }

  // ---------------------------------------------------------------------------------------------
  // Baseline: the nearest idle driver
  // ---------------------------------------------------------------------------------------------

  ghost predicate HasIdle(drivers: map<DriverID, Driver>)
  {
    exists d :: d in drivers && drivers[d].status.Idle?
  }

  /** No idle driver listed before position n beats d. */
  ghost predicate NearestSoFar(c: City, drivers: map<DriverID, Driver>, pickup: NodeID, ids: seq<DriverID>, n: nat,
                               best: Option<(DriverID, Route)>)
    requires n <= |ids| && forall x :: x in ids ==> x in drivers
  {
    if best.None? then
      forall k :: 0 <= k < n ==> !Reachable(c, drivers[ids[k]].position, pickup)
    else
      var (d, r) := best.value;
      d in ids[..n] && IsBestRoute(c, drivers[d].position, pickup, r) &&
      forall k, r' :: 0 <= k < n && IsBestRoute(c, drivers[ids[k]].position, pickup, r') ==>
        r.distance < r'.distance || (r.distance == r'.distance && StrLe(d, ids[k]))
  }

  lemma {:induction false} StrLeReflexive(a: string)
    ensures StrLe(a, a)
  {
    if a != [] { StrLeReflexive(a[1..]); }
  }

  /** Two best routes between the same nodes are equally long. */
  lemma BestDistanceUnique(c: City, a: NodeID, b: NodeID, r: Route, r': Route)
    requires IsBestRoute(c, a, b, r) && IsBestRoute(c, a, b, r')
    ensures r.distance == r'.distance
  {
  }

  lemma NearestStep(c: City, drivers: map<DriverID, Driver>, pickup: NodeID, ids: seq<DriverID>, n: nat,
                    best: Option<(DriverID, Route)>, route: Option<Route>, best': Option<(DriverID, Route)>)
    requires n < |ids| && Ascending(ids) && forall x :: x in ids ==> x in drivers
    requires NearestSoFar(c, drivers, pickup, ids, n, best)
    requires route.Some? <==> Reachable(c, drivers[ids[n]].position, pickup)
    requires route.Some? ==> IsBestRoute(c, drivers[ids[n]].position, pickup, route.value)
    requires best' == if route.Some? && (best.None? || route.value.distance < best.value.1.distance)
                      then Some((ids[n], route.value)) else best
    ensures NearestSoFar(c, drivers, pickup, ids, n + 1, best')
  {
    if best'.Some? {
      assert ids[..n + 1] == ids[..n] + [ids[n]];
      var (d, r) := best'.value;
      StrLeReflexive(ids[n]);
      forall k, r' | 0 <= k < n + 1 && IsBestRoute(c, drivers[ids[k]].position, pickup, r')
        ensures r.distance < r'.distance || (r.distance == r'.distance && StrLe(d, ids[k]))
      {
        if k == n {
          BestDistanceUnique(c, drivers[ids[k]].position, pickup, r', route.value);
          if best.Some? {
            var j :| 0 <= j < n && ids[..n][j] == best.value.0;
            assert StrLe(ids[j], ids[n]);
          }
        } else if best.Some? {
          assert best.value.1.distance <= r'.distance;
        }
      }
    }
  }

  /** What Baseline promises: nothing only if no idle driver reaches the pickup; otherwise an idle
      driver with a shortest route, the least id among those with equally short ones. */
  ghost predicate IsNearest(c: City, drivers: map<DriverID, Driver>, pickup: NodeID, best: Option<(DriverID, Route)>)
  {
    if best.None? then
      forall d :: d in drivers && drivers[d].status.Idle? ==> !Reachable(c, drivers[d].position, pickup)
    else
      var (d, r) := best.value;
      d in drivers && drivers[d].status.Idle? && IsBestRoute(c, drivers[d].position, pickup, r) &&
      forall d', r' :: d' in drivers && drivers[d'].status.Idle? && IsBestRoute(c, drivers[d'].position, pickup, r') ==>
        r.distance < r'.distance || (r.distance == r'.distance && StrLe(d, d'))
  }

  lemma NearestOfAll(c: City, drivers: map<DriverID, Driver>, pickup: NodeID, ids: seq<DriverID>,
                     best: Option<(DriverID, Route)>)
    requires forall d :: d in ids <==> d in drivers && drivers[d].status.Idle?
    requires NearestSoFar(c, drivers, pickup, ids, |ids|, best)
    ensures IsNearest(c, drivers, pickup, best)
  {
    assert ids[..|ids|] == ids;
    forall d | d in drivers && drivers[d].status.Idle?
      ensures exists k :: 0 <= k < |ids| && ids[k] == d
    {
      assert d in ids;
    }
  }

  /** The idle driver with the shortest route to the pickup (baseline.go lines 15-48). */
  method Baseline(c: City, euclid: (Point, Point) -> real, drivers: map<DriverID, Driver>, pickup: NodeID)
    returns (best: Option<(DriverID, Route)>)
    requires WellFormed(c) && Metric(c, euclid)
    ensures IsNearest(c, drivers, pickup, best)
  {
    var ids := SortIds(set d | d in drivers && drivers[d].status.Idle?);
    best := None;
    assert forall d :: d in ids <==> d in drivers && drivers[d].status.Idle?;
    for n := 0 to |ids|
      invariant NearestSoFar(c, drivers, pickup, ids, n, best)
    {
      assert ids[n] in ids;
      hide *;
      var route := FindRoute(c, euclid, drivers[ids[n]].position, pickup);
      ghost var before := best;
      if route.Some? && (best.None? || route.value.distance < best.value.1.distance) {
        best := Some((ids[n], route.value));
      }
      NearestStep(c, drivers, pickup, ids, n, before, route, best);
    }
    hide *;
    NearestOfAll(c, drivers, pickup, ids, best);
  }

  // ---------------------------------------------------------------------------------------------
  // Optimized: one joint solve
  // ---------------------------------------------------------------------------------------------

  datatype Assignment = Assignment(orderId: OrderID, driverId: DriverID, toPickup: Route)

  datatype Weights = Weights(pickupDistance: real, waitTime: real, driverIdleTime: real)

  /** The matcher's inputs that stay fixed during one batch. */
  datatype Batch = Batch(city: City, drivers: map<DriverID, Driver>, orders: map<OrderID, Order>,
                         ids: seq<OrderID>, weights: Weights, now: real)

  function PairCost(w: Weights, distance: real, createdAt: real, idleSince: real, now: real): real
  {
    w.pickupDistance * distance - w.waitTime * (now - createdAt) - w.driverIdleTime * (now - idleSince)
  }

  function CostOf(b: Batch, i: nat, d: DriverID, distance: real): real
    requires i < |b.ids| && b.ids[i] in b.orders && d in b.drivers
  {
    PairCost(b.weights, distance, b.orders[b.ids[i]].createdAt, b.drivers[d].idleSince, b.now)
  }

  ghost predicate BatchOk(b: Batch)
  {
    WellFormed(b.city) && (forall i :: 0 <= i < |b.ids| ==> b.ids[i] in b.orders) &&
    (forall i, j :: 0 <= i < j < |b.ids| ==> b.ids[i] != b.ids[j])
  }

  /** Order i's pickup can be reached from where driver d stands. */
  ghost predicate Reaches(b: Batch, i: nat, d: DriverID)
    requires i < |b.ids| && b.ids[i] in b.orders && d in b.drivers
  {
    Reachable(b.city, b.drivers[d].position, b.orders[b.ids[i]].pickup)
  }

  ghost predicate BestLeg(b: Batch, i: nat, d: DriverID, r: Route)
    requires i < |b.ids| && b.ids[i] in b.orders && d in b.drivers
  {
    IsBestRoute(b.city, b.drivers[d].position, b.orders[b.ids[i]].pickup, r)
  }

  /** No pair cost comes near the solver's infinity. */
  ghost predicate Representable(b: Batch)
    requires BatchOk(b)
  {
    forall i, d, r :: 0 <= i < |b.ids| && d in b.drivers && BestLeg(b, i, d, r) ==>
      -INF / 4.0 < CostOf(b, i, d, r.distance) < INF / 4.0
  }

  /** The routes found for one order: exactly its reachable candidates, each by a shortest route. */
  ghost predicate RoutesFor(b: Batch, i: nat, candidates: seq<DriverID>, routes: map<DriverID, Route>)
    requires i < |b.ids| && b.ids[i] in b.orders && forall x :: x in candidates ==> x in b.drivers
  {
    (forall d :: d in candidates && Reaches(b, i, d) ==> d in routes) &&
    (forall d :: d in routes ==> d in candidates && BestLeg(b, i, d, routes[d]))
  }

  /** One matrix row: the pair cost where a route was found, the sentinel elsewhere. */
  ghost predicate RowFor(b: Batch, i: nat, columns: seq<DriverID>, routes: map<DriverID, Route>, row: seq<real>)
    requires i < |b.ids| && b.ids[i] in b.orders && forall x :: x in routes ==> x in b.drivers
  {
    |row| == |columns| &&
    forall j :: 0 <= j < |columns| ==>
      row[j] == if columns[j] in routes then CostOf(b, i, columns[j], routes[columns[j]].distance) else UNREACHABLE
  }

  lemma RowStep(b: Batch, i: nat, columns: seq<DriverID>, routes: map<DriverID, Route>, row: seq<real>,
                d: DriverID, j: nat, r: Route)
    requires i < |b.ids| && b.ids[i] in b.orders && forall x :: x in routes ==> x in b.drivers
    requires RowFor(b, i, columns, routes, row) && d in b.drivers && Ascending(columns)
    requires j < |columns| && columns[j] == d
    ensures RowFor(b, i, columns, routes[d := r], row[j := CostOf(b, i, d, r.distance)])
  {
  }

  /** Fills one row of the cost matrix (optimized.go lines 94-111). */
  method CostRow(b: Batch, euclid: (Point, Point) -> real, i: nat, candidates: seq<DriverID>, columns: seq<DriverID>)
    returns (row: seq<real>, routes: map<DriverID, Route>)
    requires BatchOk(b) && Metric(b.city, euclid) && i < |b.ids|
    requires Ascending(columns) && forall x :: x in candidates ==> x in b.drivers && x in columns
    ensures RoutesFor(b, i, candidates, routes)
    ensures RowFor(b, i, columns, routes, row)
  {
    var order := b.orders[b.ids[i]];
    row := seq(|columns|, _ => UNREACHABLE);
    routes := map[];
    for k := 0 to |candidates|
      invariant forall x :: x in routes ==> x in b.drivers && x in candidates
      invariant RoutesFor(b, i, candidates[..k], routes)
      invariant RowFor(b, i, columns, routes, row)
    {
      var d := candidates[k];
      assert d in candidates && candidates[..k + 1] == candidates[..k] + [d];
      var j := IndexOf(columns, d);
      var route := FindRoute(b.city, euclid, b.drivers[d].position, order.pickup);
      if route.Some? {
        RowStep(b, i, columns, routes, row, d, j, route.value);
        routes := routes[d := route.value];
        row := row[j := CostOf(b, i, d, route.value.distance)];
      }
    }
    assert candidates[..|candidates|] == candidates;
  }

  method IndexOf(s: seq<DriverID>, d: DriverID) returns (j: nat)
    requires d in s
    ensures j < |s| && s[j] == d
  {
    j := 0;
    while s[j] != d
      invariant j < |s| && d in s[j..]
      decreases |s| - j
    {
      j := j + 1;
    }
  }

  ghost predicate MatrixFor(b: Batch, perOrder: seq<seq<DriverID>>, columns: seq<DriverID>,
                            routes: seq<map<DriverID, Route>>, cost: Matrix, n: nat)
    requires BatchOk(b) && n <= |b.ids| && |perOrder| == |b.ids|
  {
    |routes| == n && |cost| == n &&
    (forall i, x :: 0 <= i < |b.ids| && x in perOrder[i] ==> x in b.drivers && x in columns) &&
    (forall i :: 0 <= i < n ==> RoutesFor(b, i, perOrder[i], routes[i])) &&
    (forall i, x :: 0 <= i < n && x in routes[i] ==> x in b.drivers) &&
    (forall i :: 0 <= i < n ==> RowFor(b, i, columns, routes[i], cost[i]))
  }

  /** Every candidate pair with a route costs its pair cost, every other pair the sentinel, and no
      entry is too large for the solver. */
  lemma MatrixShape(b: Batch, perOrder: seq<seq<DriverID>>, columns: seq<DriverID>,
                    routes: seq<map<DriverID, Route>>, cost: Matrix)
    requires BatchOk(b) && Representable(b) && |perOrder| == |b.ids|
    requires MatrixFor(b, perOrder, columns, routes, cost, |b.ids|) && b.ids != []
    ensures Rectangular(cost, |columns|) && Bounded(cost)
    ensures Columns(cost) == |columns| && Rectangular(cost, Columns(cost)) && |cost| == |b.ids|
  {
    assert RowFor(b, 0, columns, routes[0], cost[0]);
    forall i, j | 0 <= i < |cost| && 0 <= j < |cost[i]|
      ensures -INF / 4.0 < cost[i][j] < INF / 4.0
    {
      assert RowFor(b, i, columns, routes[i], cost[i]);
      if columns[j] in routes[i] {
        assert RoutesFor(b, i, perOrder[i], routes[i]);
        assert BestLeg(b, i, columns[j], routes[i][columns[j]]);
      }
    }
  }

  /** Every entry of the row is the sentinel or above (optimized.go lines 149-156). */
  ghost predicate Hopeless(row: seq<real>)
  {
    forall j :: 0 <= j < |row| ==> row[j] >= UNREACHABLE
  }

  ghost predicate Affordable(cost: Matrix, rows: set<nat>)
  {
    forall i :: i in rows ==> i < |cost| && !Hopeless(cost[i])
  }

  method RowIsInfeasible(row: seq<real>) returns (b: bool)
    ensures b <==> Hopeless(row)
  {
    for j := 0 to |row|
      invariant forall k :: 0 <= k < j ==> row[k] >= UNREACHABLE
    {
      if row[j] < UNREACHABLE { return false; }
    }
    return true;
  }

  /** The orders among the first n that had candidates and no affordable one. */
  ghost function InfeasibleAmong(b: Batch, perOrder: seq<seq<DriverID>>, cost: Matrix, n: nat): seq<OrderID>
    requires n <= |b.ids| && |perOrder| == |b.ids| && |cost| == |b.ids|
  {
    if n == 0 then [] else
      InfeasibleAmong(b, perOrder, cost, n - 1) +
      if perOrder[n - 1] != [] && Hopeless(cost[n - 1]) then [b.ids[n - 1]] else []
  }

  /** A batch's answer next to the matrix and matching it was read from. */
  datatype Solved = Solved(perOrder: seq<seq<DriverID>>, columns: seq<DriverID>, routes: seq<map<DriverID, Route>>,
                           cost: Matrix, pairs: seq<Pair>)

  ghost predicate SolvedOk(b: Batch, s: Solved)
    requires BatchOk(b)
  {
    |s.perOrder| == |b.ids| && Ascending(s.columns) &&
    MatrixFor(b, s.perOrder, s.columns, s.routes, s.cost, |b.ids|) &&
    (forall x :: x in s.columns ==> x in b.drivers) &&
    Rectangular(s.cost, |s.columns|) &&
    IsMatching(s.cost, s.pairs) && |s.pairs| == Min(|b.ids|, |s.columns|) && Cheapest(s.cost, s.pairs)
  }

  /** Each order's candidates from the index, and their union in ascending order
      (optimized.go lines 72-91). */
  method CandidateSets(b: Batch, index: Grid, candidatesPerOrder: int)
    returns (perOrder: seq<seq<DriverID>>, columns: seq<DriverID>)
    requires BatchOk(b) && index.Valid() && index.points.Keys <= b.drivers.Keys
    ensures |perOrder| == |b.ids| && Ascending(columns)
    ensures forall i :: 0 <= i < |b.ids| ==> Nominated(b, index, candidatesPerOrder, i, perOrder[i])
    ensures forall i, x :: 0 <= i < |b.ids| && x in perOrder[i] ==> x in b.drivers && x in columns
    ensures forall x :: x in columns ==> x in b.drivers && x in index.points
  {
    perOrder := [];
    var candidateSet: set<string> := {};
    for i := 0 to |b.ids|
      invariant |perOrder| == i && candidateSet <= index.points.Keys
      invariant forall k :: 0 <= k < i ==> Nominated(b, index, candidatesPerOrder, k, perOrder[k])
      invariant forall k, x :: 0 <= k < i && x in perOrder[k] ==> x in candidateSet
    {
      var candidates := index.Candidates(At(b.city, b.orders[b.ids[i]].pickup), candidatesPerOrder);
      assert Nominated(b, index, candidatesPerOrder, i, candidates);
      perOrder := perOrder + [candidates];
      candidateSet := candidateSet + (set x | x in candidates);
    }
    columns := SortIds(candidateSet);
  }

  /** The index's answer for order i. */
  ghost predicate Nominated(b: Batch, index: Grid, candidatesPerOrder: int, i: nat, candidates: seq<DriverID>)
    requires i < |b.ids| && b.ids[i] in b.orders
    reads index
  {
    IsAnswer(index.points, At(b.city, b.orders[b.ids[i]].pickup), index.cellSize, candidatesPerOrder, candidates)
  }

  /** Every order's candidates are what an index with these points and cells answers. */
  ghost predicate NominatedFrom(b: Batch, s: Solved, points: map<DriverID, Point>, cellSize: real,
                                candidatesPerOrder: int)
  {
    |s.perOrder| == |b.ids| &&
    forall i ::
      0 <= i < |b.ids| ==>
        b.ids[i] in b.orders &&
        IsAnswer(points, At(b.city, b.orders[b.ids[i]].pickup), cellSize, candidatesPerOrder, s.perOrder[i])
  }

  lemma MatrixStep(b: Batch, perOrder: seq<seq<DriverID>>, columns: seq<DriverID>,
                   routes: seq<map<DriverID, Route>>, cost: Matrix, i: nat, found: map<DriverID, Route>, row: seq<real>)
    requires BatchOk(b) && i < |b.ids| && |perOrder| == |b.ids|
    requires MatrixFor(b, perOrder, columns, routes, cost, i)
    requires RoutesFor(b, i, perOrder[i], found) && RowFor(b, i, columns, found, row)
    ensures MatrixFor(b, perOrder, columns, routes + [found], cost + [row], i + 1)
  {
  }

  /** An affordable entry belongs to a pair with a route. */
  lemma AffordableHasRoute(b: Batch, s: Solved, i: nat, j: nat)
    requires BatchOk(b) && SolvedOk(b, s) && i < |b.ids| && j < |s.columns| && s.cost[i][j] < UNREACHABLE
    ensures s.columns[j] in s.routes[i] && s.columns[j] in s.perOrder[i] && s.columns[j] in b.drivers
    ensures BestLeg(b, i, s.columns[j], s.routes[i][s.columns[j]])
  {
    assert RowFor(b, i, s.columns, s.routes[i], s.cost[i]);
    assert RoutesFor(b, i, s.perOrder[i], s.routes[i]);
  }

  lemma PairInMatrix(b: Batch, s: Solved, k: nat)
    requires BatchOk(b) && SolvedOk(b, s) && k < |s.pairs|
    ensures s.pairs[k].row < |b.ids| && s.pairs[k].col < |s.columns|
    ensures |s.routes| == |b.ids| && |s.cost| == |b.ids| && |s.cost[s.pairs[k].row]| == |s.columns|
    ensures s.pairs[k].cost == s.cost[s.pairs[k].row][s.pairs[k].col]
  {
  }

  /** The assignments are the kept pairs, in order, with the routes found for them. */
  ghost predicate ReadsOff(b: Batch, s: Solved, kept: seq<Pair>, matched: seq<Assignment>)
    requires BatchOk(b) && SolvedOk(b, s)
  {
    |matched| == |kept| &&
    forall k :: 0 <= k < |matched| ==>
      var x := kept[k];
      x.row < |b.ids| && x.col < |s.columns| && s.columns[x.col] in s.routes[x.row] &&
      matched[k] == Assignment(b.ids[x.row], s.columns[x.col], s.routes[x.row][s.columns[x.col]])
  }

  /** Keeps the pairs below the sentinel (optimized.go lines 117-130). */
  method ReadAssignments(b: Batch, columns: seq<DriverID>, routes: seq<map<DriverID, Route>>, pairs: seq<Pair>,
                         ghost s: Solved)
    returns (matched: seq<Assignment>, matchedRows: set<nat>)
    requires BatchOk(b) && SolvedOk(b, s) && columns == s.columns && routes == s.routes && pairs == s.pairs
    ensures ReadsOff(b, s, Kept(s.pairs), matched)
    ensures Affordable(s.cost, matchedRows)
  {
    hide *;
    matched, matchedRows := [], {};
    NothingReadOff(b, s);
    for k := 0 to |pairs|
      invariant ReadsOff(b, s, Kept(pairs[..k]), matched)
      invariant Affordable(s.cost, matchedRows)
    {
      var p := pairs[k];
      PairInMatrix(b, s, k);
      KeptStep(pairs, k);
      if p.cost >= UNREACHABLE { continue; }
      AffordableHasRoute(b, s, p.row, p.col);
      AddAffordable(s.cost, matchedRows, p.row, p.col);
      var driverID := columns[p.col];
      var a := Assignment(b.ids[p.row], driverID, routes[p.row][driverID]);
      ReadsOffStep(b, s, Kept(pairs[..k]), matched, p, a);
      matchedRows := matchedRows + {p.row};
      matched := matched + [a];
    }
    assert pairs[..|pairs|] == pairs;
  }

  lemma NothingReadOff(b: Batch, s: Solved)
    requires BatchOk(b) && SolvedOk(b, s)
    ensures ReadsOff(b, s, Kept(s.pairs[..0]), []) && Affordable(s.cost, {})
  {
  }

  lemma KeptStep(m: seq<Pair>, k: nat)
    requires k < |m|
    ensures Kept(m[..k + 1]) == if m[k].cost < UNREACHABLE then Kept(m[..k]) + [m[k]] else Kept(m[..k])
  {
    assert m[..k + 1][..k] == m[..k];
  }

  lemma AddAffordable(cost: Matrix, rows: set<nat>, i: nat, j: nat)
    requires Affordable(cost, rows) && i < |cost| && j < |cost[i]| && cost[i][j] < UNREACHABLE
    ensures Affordable(cost, rows + {i})
  {
  }

  lemma ReadsOffStep(b: Batch, s: Solved, kept: seq<Pair>, matched: seq<Assignment>, x: Pair, a: Assignment)
    requires BatchOk(b) && SolvedOk(b, s) && ReadsOff(b, s, kept, matched)
    requires x.row < |b.ids| && x.col < |s.columns| && |s.routes| == |b.ids| && s.columns[x.col] in s.routes[x.row]
    requires a == Assignment(b.ids[x.row], s.columns[x.col], s.routes[x.row][s.columns[x.col]])
    ensures ReadsOff(b, s, kept + [x], matched + [a])
  {
    hide SolvedOk, BatchOk;
  }

  /** Lists the orders with candidates none of which could be routed (optimized.go lines 138-144). */
  method ReadInfeasible(b: Batch, perOrder: seq<seq<DriverID>>, cost: Matrix, matchedRows: set<nat>)
    returns (infeasible: seq<OrderID>)
    requires |perOrder| == |b.ids| && |cost| == |b.ids|
    requires Affordable(cost, matchedRows)
    ensures infeasible == InfeasibleAmong(b, perOrder, cost, |b.ids|)
  {
    infeasible := [];
    for i := 0 to |b.ids|
      invariant infeasible == InfeasibleAmong(b, perOrder, cost, i)
    {
      if i !in matchedRows && |perOrder[i]| > 0 {
        var hopeless := RowIsInfeasible(cost[i]);
        if hopeless { infeasible := infeasible + [b.ids[i]]; }
      }
    }
  }

  // ---- the order of the rows (optimized.go lines 66-68) ----

  function Decimal(n: nat): string
  {
    if n < 10 then [Digit(n)] else Decimal(n / 10) + [Digit(n % 10)]
  }

  function Digit(n: nat): char
    requires n < 10
  {
    "0123456789"[n]
  }

  /** The name of an order (simulation.go lines 290-292 and 783). */
  function Name(o: OrderID): string { "order-" + Decimal(o) }

  function ValueOf(digits: string): nat
  {
    if digits == [] then 0 else ValueOf(digits[..|digits| - 1]) * 10 + Place(digits[|digits| - 1])
  }

  function Place(c: char): nat { if '0' <= c <= '9' then (c as int) - ('0' as int) else 0 }

  /** The digits of an order's name are those of its number, so different orders have different names. */
  lemma {:induction false} NameTells(o: OrderID)
    ensures Name(o)[..6] == "order-" && ValueOf(Name(o)[6..]) == o
  {
    DecimalTells(o);
  }

  lemma {:induction false} DecimalTells(n: nat)
    ensures ValueOf(Decimal(n)) == n
  {
    if n >= 10 {
      DecimalTells(n / 10);
      assert Decimal(n)[..|Decimal(n)| - 1] == Decimal(n / 10);
      DigitTells(n % 10);
    } else {
      DigitTells(n);
      assert Decimal(n)[..0] == [];
    }
  }

  lemma DigitTells(n: nat)
    requires n < 10
    ensures Place(Digit(n)) == n
  {
  }

  /** By name "order-10" comes before "order-2". */
  predicate NameLe(a: OrderID, b: OrderID) { StrLe(Name(a), Name(b)) }

  ghost predicate ByName(ids: seq<OrderID>)
  {
    forall i, j :: 0 <= i < j < |ids| ==> NameLe(ids[i], ids[j])
  }

  ghost predicate Different(ids: seq<OrderID>)
  {
    forall i, j :: 0 <= i < j < |ids| ==> ids[i] != ids[j]
  }

  /** The same orders, in order of name. */
  ghost predicate SortedRows(ids: seq<OrderID>, rows: seq<OrderID>)
  {
    ByName(rows) && Different(rows) && |rows| == |ids| && forall o :: o in ids <==> o in rows
  }

  lemma InsertByName(ids: seq<OrderID>, x: OrderID, k: nat)
    requires ByName(ids) && k <= |ids|
    requires k < |ids| ==> NameLe(x, ids[k])
    requires k > 0 ==> NameLe(ids[k - 1], x)
    ensures ByName(ids[..k] + [x] + ids[k..])
  {
    hide NameLe;
    forall i | 0 <= i < k
      ensures NameLe(ids[i], x)
    {
      NameLeTransitive(ids[i], ids[k - 1], x);
    }
    forall i | k <= i < |ids|
      ensures NameLe(x, ids[i])
    {
      NameLeTransitive(x, ids[k], ids[i]);
    }
    forall i, j | 0 <= i < j < |ids| + 1
      ensures NameLe((ids[..k] + [x] + ids[k..])[i], (ids[..k] + [x] + ids[k..])[j])
    {
      InsertedAt(ids, x, k, i);
      InsertedAt(ids, x, k, j);
    }
  }

  lemma NameLeTransitive(a: OrderID, b: OrderID, c: OrderID)
    ensures NameLe(a, b) && NameLe(b, c) ==> NameLe(a, c)
    ensures a == b && NameLe(b, c) ==> NameLe(a, c)
    ensures b == c && NameLe(a, b) ==> NameLe(a, c)
  {
    if NameLe(a, b) && NameLe(b, c) { StrLeTransitive(Name(a), Name(b), Name(c)); }
  }

  lemma InsertedAt(ids: seq<OrderID>, x: OrderID, k: nat, i: nat)
    requires k <= |ids| && i <= |ids|
    ensures (ids[..k] + [x] + ids[k..])[i] == if i < k then ids[i] else if i == k then x else ids[i - 1]
  {
  }

  lemma InsertDifferent(ids: seq<OrderID>, x: OrderID, k: nat)
    requires Different(ids) && k <= |ids| && x !in ids
    ensures Different(ids[..k] + [x] + ids[k..])
    ensures forall o :: o in ids[..k] + [x] + ids[k..] <==> o in ids || o == x
  {
    assert ids == ids[..k] + ids[k..];
  }

  method FindByName(ids: seq<OrderID>, x: OrderID) returns (k: nat)
    requires ByName(ids)
    ensures k <= |ids| && (k < |ids| ==> NameLe(x, ids[k])) && (k > 0 ==> NameLe(ids[k - 1], x))
  {
    k := |ids|;
    while k > 0 && NameLe(x, ids[k - 1])
      invariant k <= |ids| && (k < |ids| ==> NameLe(x, ids[k]))
    {
      k := k - 1;
    }
    if k > 0 { StrLeTotal(Name(x), Name(ids[k - 1])); }
  }

  method SortByName(ids: seq<OrderID>) returns (rows: seq<OrderID>)
    requires Different(ids)
    ensures SortedRows(ids, rows)
  {
    rows := [];
    for n := 0 to |ids|
      invariant SortedRows(ids[..n], rows)
    {
      hide NameLe, ByName;
      var x := ids[n];
      assert ids[..n + 1] == ids[..n] + [x];
      assert x !in ids[..n] by { assert forall i :: 0 <= i < n ==> ids[..n][i] == ids[i]; }
      var k := FindByName(rows, x);
      InsertByName(rows, x, k);
      InsertDifferent(rows, x, k);
      rows := rows[..k] + [x] + rows[k..];
    }
    assert ids[..|ids|] == ids;
  }

  /** A batch with its rows sorted is as good a batch. */
  lemma RowsOk(b: Batch, rows: seq<OrderID>)
    requires BatchOk(b) && SortedRows(b.ids, rows)
    ensures BatchOk(b.(ids := rows))
  {
    forall i | 0 <= i < |rows|
      ensures rows[i] in b.orders
    {
      assert rows[i] in rows;
    }
  }

  lemma RowsRepresentable(b: Batch, rows: seq<OrderID>)
    requires BatchOk(b) && SortedRows(b.ids, rows) && Representable(b)
    ensures BatchOk(b.(ids := rows)) && Representable(b.(ids := rows))
  {
    RowsOk(b, rows);
    var c := b.(ids := rows);
    forall i, d, r | 0 <= i < |rows| && d in c.drivers && BestLeg(c, i, d, r)
      ensures -INF / 4.0 < CostOf(c, i, d, r.distance) < INF / 4.0
    {
      var k := IndexInBatch(b, rows, i);
      assert BestLeg(b, k, d, r);
    }
  }

  lemma IndexInBatch(b: Batch, rows: seq<OrderID>, i: nat) returns (k: nat)
    requires SortedRows(b.ids, rows) && i < |rows|
    ensures k < |b.ids| && b.ids[k] == rows[i]
  {
    assert rows[i] in rows;
    k :| 0 <= k < |b.ids| && b.ids[k] == rows[i];
  }

  lemma RowsWithin(b: Batch, rows: seq<OrderID>, bound: real)
    requires BatchOk(b) && SortedRows(b.ids, rows) && CostsWithin(b, bound)
    ensures BatchOk(b.(ids := rows)) && CostsWithin(b.(ids := rows), bound)
  {
    RowsOk(b, rows);
    var c := b.(ids := rows);
    forall i, d, r | 0 <= i < |rows| && d in c.drivers && BestLeg(c, i, d, r)
      ensures -bound <= CostOf(c, i, d, r.distance) <= bound
    {
      var k := IndexInBatch(b, rows, i);
      assert BestLeg(b, k, d, r);
    }
  }

  /** Matches a batch of orders to indexed drivers (optimized.go lines 52-147): its rows are sorted by
      name and matched. */
  method Optimized(b: Batch, euclid: (Point, Point) -> real, index: Grid, candidatesPerOrder: int)
    returns (matched: seq<Assignment>, infeasible: seq<OrderID>, ghost rows: seq<OrderID>, ghost s: Solved)
    requires BatchOk(b) && Metric(b.city, euclid) && Representable(b)
    requires index.Valid() && index.points.Keys <= b.drivers.Keys
    ensures SortedRows(b.ids, rows) && BatchOk(b.(ids := rows))
    ensures b.ids == [] ==> matched == [] && infeasible == []
    ensures b.ids != [] ==> SolvedOk(b.(ids := rows), s) && ReadsOff(b.(ids := rows), s, Kept(s.pairs), matched)
    ensures b.ids != [] ==> forall i :: 0 <= i < |rows| ==>
      Nominated(b.(ids := rows), index, candidatesPerOrder, i, s.perOrder[i])
    ensures b.ids != [] ==> forall x :: x in s.columns ==> x in index.points
    ensures b.ids != [] ==> infeasible == InfeasibleAmong(b.(ids := rows), s.perOrder, s.cost, |rows|)
  {
    hide Representable, SolvedOk, ReadsOff, Nominated, InfeasibleAmong, ByName, WellFormed, Metric;
    var sorted := SortByName(b.ids);
    RowsRepresentable(b, sorted);
    rows := sorted;
    matched, infeasible, s := MatchRows(b.(ids := sorted), euclid, index, candidatesPerOrder);
  }

  /** The rest of Optimized, with the rows in order (optimized.go lines 70-146). */
  method MatchRows(b: Batch, euclid: (Point, Point) -> real, index: Grid, candidatesPerOrder: int)
    returns (matched: seq<Assignment>, infeasible: seq<OrderID>, ghost s: Solved)
    requires BatchOk(b) && Metric(b.city, euclid) && Representable(b)
    requires index.Valid() && index.points.Keys <= b.drivers.Keys
    ensures b.ids == [] ==> matched == [] && infeasible == []
    ensures b.ids != [] ==> SolvedOk(b, s) && ReadsOff(b, s, Kept(s.pairs), matched)
    ensures b.ids != [] ==> forall i :: 0 <= i < |b.ids| ==> Nominated(b, index, candidatesPerOrder, i, s.perOrder[i])
    ensures b.ids != [] ==> forall x :: x in s.columns ==> x in index.points
    ensures b.ids != [] ==> infeasible == InfeasibleAmong(b, s.perOrder, s.cost, |b.ids|)
  {
    s := Solved([], [], [], [], []);
    if b.ids == [] {
      return [], [], s;
    }
    var perOrder, columns := CandidateSets(b, index, candidatesPerOrder);
    var cost, routes := CostMatrix(b, euclid, perOrder, columns);
    hide *;
    MatrixShape(b, perOrder, columns, routes, cost);
    var pairs := MinCostAssignment(cost);
    s := Solve(b, perOrder, columns, routes, cost, pairs);
    var matchedRows;
    matched, matchedRows := ReadAssignments(b, columns, routes, pairs, s);
    infeasible := ReadInfeasible(b, perOrder, cost, matchedRows);
  }

  /** The matrix loop (optimized.go lines 93-112). */
  method CostMatrix(b: Batch, euclid: (Point, Point) -> real, perOrder: seq<seq<DriverID>>, columns: seq<DriverID>)
    returns (cost: Matrix, routes: seq<map<DriverID, Route>>)
    requires BatchOk(b) && Metric(b.city, euclid) && |perOrder| == |b.ids| && Ascending(columns)
    requires forall i, x :: 0 <= i < |b.ids| && x in perOrder[i] ==> x in b.drivers && x in columns
    ensures MatrixFor(b, perOrder, columns, routes, cost, |b.ids|)
  {
    cost, routes := [], [];
    for i := 0 to |b.ids|
      invariant MatrixFor(b, perOrder, columns, routes, cost, i)
    {
      hide MatrixFor, RoutesFor, RowFor, Metric, BatchOk, WellFormed, Ascending;
      var row, found := CostRow(b, euclid, i, perOrder[i], columns);
      MatrixStep(b, perOrder, columns, routes, cost, i, found, row);
      cost := cost + [row];
      routes := routes + [found];
    }
  }

  lemma Solve(b: Batch, perOrder: seq<seq<DriverID>>, columns: seq<DriverID>, routes: seq<map<DriverID, Route>>,
              cost: Matrix, pairs: seq<Pair>) returns (s: Solved)
    requires BatchOk(b) && |perOrder| == |b.ids| > 0 && Ascending(columns)
    requires MatrixFor(b, perOrder, columns, routes, cost, |b.ids|)
    requires forall x :: x in columns ==> x in b.drivers
    requires Rectangular(cost, |columns|) && Columns(cost) == |columns|
    requires IsMatching(cost, pairs) && |pairs| == Min(|cost|, Columns(cost)) && Cheapest(cost, pairs)
    ensures s == Solved(perOrder, columns, routes, cost, pairs) && SolvedOk(b, s)
  {
    hide MatrixFor, Rectangular, IsMatching, Cheapest, Ascending, Min;
    MatrixLength(b, perOrder, columns, routes, cost);
    s := Solved(perOrder, columns, routes, cost, pairs);
  }

  lemma MatrixLength(b: Batch, perOrder: seq<seq<DriverID>>, columns: seq<DriverID>,
                     routes: seq<map<DriverID, Route>>, cost: Matrix)
    requires BatchOk(b) && |perOrder| == |b.ids| && MatrixFor(b, perOrder, columns, routes, cost, |b.ids|)
    ensures |cost| == |b.ids| && |routes| == |b.ids|
  {
  }

  // ---------------------------------------------------------------------------------------------
  // What a batch achieves
  // ---------------------------------------------------------------------------------------------

  /** Every candidate pair that can be routed costs between -bound and bound. */
  ghost predicate CostsWithin(b: Batch, bound: real)
    requires BatchOk(b)
  {
    forall i, d, r :: 0 <= i < |b.ids| && d in b.drivers && BestLeg(b, i, d, r) ==>
      -bound <= CostOf(b, i, d, r.distance) <= bound
  }

  lemma CostsOfMatrix(b: Batch, s: Solved, bound: real)
    requires BatchOk(b) && SolvedOk(b, s) && CostsWithin(b, bound)
    ensures Costs(s.cost, bound)
  {
    forall i, j | 0 <= i < |s.cost| && 0 <= j < |s.cost[i]|
      ensures s.cost[i][j] == UNREACHABLE || -bound <= s.cost[i][j] <= bound
    {
      assert RowFor(b, i, s.columns, s.routes[i], s.cost[i]);
      if s.columns[j] in s.routes[i] {
        assert RoutesFor(b, i, s.perOrder[i], s.routes[i]);
        assert BestLeg(b, i, s.columns[j], s.routes[i][s.columns[j]]);
      }
    }
  }

  /** With costs below the sentinel, an entry is affordable exactly when the pair is a candidate pair
      that can be routed. */
  lemma AffordableIffRoutable(b: Batch, s: Solved, bound: real, i: nat, j: nat)
    requires BatchOk(b) && SolvedOk(b, s) && CostsWithin(b, bound) && bound < UNREACHABLE
    requires i < |b.ids| && j < |s.columns|
    ensures |s.cost| == |b.ids| && |s.cost[i]| == |s.columns| && s.columns[j] in b.drivers
    ensures s.cost[i][j] < UNREACHABLE <==> s.columns[j] in s.perOrder[i] && Reaches(b, i, s.columns[j])
  {
    var d := s.columns[j];
    assert d in s.columns;
    assert RowFor(b, i, s.columns, s.routes[i], s.cost[i]);
    assert RoutesFor(b, i, s.perOrder[i], s.routes[i]);
    if d in s.routes[i] {
      assert BestLeg(b, i, d, s.routes[i][d]);
    }
  }

  /** No order and no driver is assigned twice. */
  ghost predicate AllDistinct(matched: seq<Assignment>)
  {
    forall x, y :: 0 <= x < y < |matched| ==>
      matched[x].orderId != matched[y].orderId && matched[x].driverId != matched[y].driverId
  }

  /** Every assigned driver is a candidate of its order and its route to the pickup is a shortest one. */
  ghost predicate AllServe(b: Batch, s: Solved, matched: seq<Assignment>)
  {
    forall x :: 0 <= x < |matched| ==> ServesSome(b, s, matched[x])
  }

  ghost predicate ServesSome(b: Batch, s: Solved, a: Assignment)
  {
    BatchOk(b) && |s.perOrder| == |b.ids| && exists i :: 0 <= i < |b.ids| && Serves(b, s, a, i)
  }

  ghost predicate Serves(b: Batch, s: Solved, a: Assignment, i: nat)
    requires i < |b.ids| && b.ids[i] in b.orders && |s.perOrder| == |b.ids|
  {
    a.orderId == b.ids[i] && a.driverId in b.drivers && a.driverId in s.perOrder[i] && a.driverId in s.columns &&
    BestLeg(b, i, a.driverId, a.toPickup) && |s.cost| == |b.ids| && !Hopeless(s.cost[i])
  }

  lemma AssignmentServes(b: Batch, s: Solved, matched: seq<Assignment>, x: nat)
    requires BatchOk(b) && SolvedOk(b, s) && ReadsOff(b, s, Kept(s.pairs), matched) && x < |matched|
    ensures Kept(s.pairs)[x].row < |b.ids| && Serves(b, s, matched[x], Kept(s.pairs)[x].row)
  {
    var p := Kept(s.pairs)[x];
    KeptRoutable(s.cost, s.pairs);
    assert p.cost == s.cost[p.row][p.col] < UNREACHABLE;
    AffordableHasRoute(b, s, p.row, p.col);
  }

  lemma BatchIsSound(b: Batch, s: Solved, matched: seq<Assignment>)
    requires BatchOk(b) && SolvedOk(b, s) && ReadsOff(b, s, Kept(s.pairs), matched)
    ensures AllDistinct(matched) && AllServe(b, s, matched)
  {
    forall x, y | 0 <= x < y < |matched|
      ensures matched[x].orderId != matched[y].orderId && matched[x].driverId != matched[y].driverId
    {
      AssignmentsDiffer(b, s, matched, x, y);
    }
    hide *;
    forall x | 0 <= x < |matched|
      ensures ServesSome(b, s, matched[x])
    {
      AssignmentServesSome(b, s, matched, x);
    }
    AllServeFrom(b, s, matched);
    AllDistinctFrom(matched);
  }

  lemma AllServeFrom(b: Batch, s: Solved, matched: seq<Assignment>)
    requires forall x :: 0 <= x < |matched| ==> ServesSome(b, s, matched[x])
    ensures AllServe(b, s, matched)
  {
  }

  lemma AllDistinctFrom(matched: seq<Assignment>)
    requires forall x, y :: 0 <= x < y < |matched| ==>
      matched[x].orderId != matched[y].orderId && matched[x].driverId != matched[y].driverId
    ensures AllDistinct(matched)
  {
  }

  lemma AssignmentServesSome(b: Batch, s: Solved, matched: seq<Assignment>, x: nat)
    requires BatchOk(b) && SolvedOk(b, s) && ReadsOff(b, s, Kept(s.pairs), matched) && x < |matched|
    ensures ServesSome(b, s, matched[x])
  {
    assert |s.perOrder| == |b.ids|;
    hide SolvedOk, ReadsOff, Serves, Kept;
    AssignmentServes(b, s, matched, x);
  }

  lemma AssignmentsDiffer(b: Batch, s: Solved, matched: seq<Assignment>, x: nat, y: nat)
    requires BatchOk(b) && SolvedOk(b, s) && ReadsOff(b, s, Kept(s.pairs), matched) && x < y < |matched|
    ensures matched[x].orderId != matched[y].orderId && matched[x].driverId != matched[y].driverId
  {
    KeptRoutable(s.cost, s.pairs);
    var p, q := Kept(s.pairs)[x], Kept(s.pairs)[y];
    assert p.row != q.row && p.col != q.col;
    hide RoutesFor, RowFor, MatrixFor, Kept, IsMatching, Cheapest;
    assert b.ids[p.row] != b.ids[q.row] && s.columns[p.col] != s.columns[q.col];
  }

  // ---------------------------------------------------------------------------------------------
  // Optimality, in terms of orders and drivers
  // ---------------------------------------------------------------------------------------------

  /** Giving order i to one of its candidates, along a shortest route to the pickup. */
  ghost predicate Chosen(b: Batch, s: Solved, a: Assignment, i: nat)
  {
    i < |b.ids| && i < |s.perOrder| && b.ids[i] in b.orders && a.orderId == b.ids[i] && a.driverId in s.perOrder[i] &&
    a.driverId in b.drivers && BestLeg(b, i, a.driverId, a.toPickup)
  }

  ghost predicate IsChoice(b: Batch, s: Solved, a: Assignment)
  {
    exists i: nat :: Chosen(b, s, a, i)
  }

  /** Some of the orders given to candidates of theirs, no driver to two of them. */
  ghost predicate Plan(b: Batch, s: Solved, plan: seq<Assignment>)
  {
    AllDistinct(plan) && forall x :: 0 <= x < |plan| ==> IsChoice(b, s, plan[x])
  }

  /** The way to the pickup costs, waiting orders and idle drivers are worth serving. */
  function AssignmentCost(b: Batch, a: Assignment): real
  {
    if a.orderId in b.orders && a.driverId in b.drivers then
      b.weights.pickupDistance * a.toPickup.distance
      - b.weights.waitTime * (b.now - b.orders[a.orderId].createdAt)
      - b.weights.driverIdleTime * (b.now - b.drivers[a.driverId].idleSince)
    else 0.0
  }

  function PlanCost(b: Batch, plan: seq<Assignment>): real
  {
    if plan == [] then 0.0 else PlanCost(b, plan[..|plan| - 1]) + AssignmentCost(b, plan[|plan| - 1])
  }

  /** No plan serves more orders, and none that serves as many costs less. */
  ghost predicate BestPlan(b: Batch, s: Solved, matched: seq<Assignment>)
  {
    Plan(b, s, matched) &&
    forall plan :: Plan(b, s, plan) ==>
      |plan| <= |matched| && (|plan| == |matched| ==> PlanCost(b, matched) <= PlanCost(b, plan))
  }

  /** A batch's assignments serve as many orders as their candidates allow, as cheaply as that can be done. */
  lemma BatchIsOptimal(b: Batch, s: Solved, matched: seq<Assignment>, bound: real)
    requires BatchOk(b) && SolvedOk(b, s) && ReadsOff(b, s, Kept(s.pairs), matched) && CostsWithin(b, bound)
    requires bound >= 0.0
    requires 2.0 * Times(Min(|b.ids|, |s.columns|), bound) < 1000000000000.0
    ensures BestPlan(b, s, matched)
  {
    hide SolvedOk, ReadsOff, Kept, CostsWithin, Plan, Costs, Times, BestRoutable, BatchOk, Min, IsMatching, Cheapest;
    MatchedIsPlan(b, s, matched);
    CostsOfMatrix(b, s, bound);
    SolvedMatching(b, s);
    KeptIsBest(s.cost, |s.columns|, s.pairs, bound);
    MatchedCost(b, s, matched);
    forall plan | Plan(b, s, plan)
      ensures |plan| <= |matched| && (|plan| == |matched| ==> PlanCost(b, matched) <= PlanCost(b, plan))
    {
      PlanBeaten(b, s, matched, plan, bound);
    }
  }

  lemma SolvedMatching(b: Batch, s: Solved)
    requires BatchOk(b) && SolvedOk(b, s)
    ensures Rectangular(s.cost, |s.columns|) && |s.cost| == |b.ids|
    ensures IsMatching(s.cost, s.pairs) && |s.pairs| == Min(|b.ids|, |s.columns|) && Cheapest(s.cost, s.pairs)
  {
  }

  lemma MatchedIsPlan(b: Batch, s: Solved, matched: seq<Assignment>)
    requires BatchOk(b) && SolvedOk(b, s) && ReadsOff(b, s, Kept(s.pairs), matched)
    ensures Plan(b, s, matched)
  {
    hide SolvedOk, ReadsOff, Kept, AllDistinct, BestLeg, Hopeless;
    BatchIsSound(b, s, matched);
    forall x | 0 <= x < |matched|
      ensures IsChoice(b, s, matched[x])
    {
      assert ServesSome(b, s, matched[x]);
      var i :| 0 <= i < |b.ids| && Serves(b, s, matched[x], i);
      assert Chosen(b, s, matched[x], i);
    }
  }

  /** The pair of the matrix that stands for an assignment. */
  ghost predicate StandsFor(b: Batch, s: Solved, p: Pair, a: Assignment)
  {
    p.row < |b.ids| && p.col < |s.columns| && b.ids[p.row] == a.orderId && s.columns[p.col] == a.driverId &&
    p.cost == AssignmentCost(b, a)
  }

  lemma {:induction false} SameTotal(b: Batch, s: Solved, m: seq<Pair>, plan: seq<Assignment>)
    requires |m| == |plan| && forall x :: 0 <= x < |m| ==> StandsFor(b, s, m[x], plan[x])
    ensures Total(m) == PlanCost(b, plan)
  {
    hide StandsFor, AssignmentCost;
    if m != [] {
      var n := |m| - 1;
      SameTotal(b, s, m[..n], plan[..n]);
      assert StandsFor(b, s, m[n], plan[n]);
      CostStands(b, s, m[n], plan[n]);
    }
  }

  lemma CostStands(b: Batch, s: Solved, p: Pair, a: Assignment)
    requires StandsFor(b, s, p, a)
    ensures p.cost == AssignmentCost(b, a)
  {
  }

  lemma MatchedCost(b: Batch, s: Solved, matched: seq<Assignment>)
    requires BatchOk(b) && SolvedOk(b, s) && ReadsOff(b, s, Kept(s.pairs), matched)
    ensures |matched| == |Kept(s.pairs)| && Total(Kept(s.pairs)) == PlanCost(b, matched)
  {
    forall x | 0 <= x < |matched|
      ensures StandsFor(b, s, Kept(s.pairs)[x], matched[x])
    {
      MatchedStands(b, s, matched, x);
    }
    hide StandsFor, SolvedOk;
    SameTotal(b, s, Kept(s.pairs), matched);
  }

  lemma MatchedStands(b: Batch, s: Solved, matched: seq<Assignment>, x: nat)
    requires BatchOk(b) && SolvedOk(b, s) && ReadsOff(b, s, Kept(s.pairs), matched) && x < |matched|
    ensures StandsFor(b, s, Kept(s.pairs)[x], matched[x])
  {
    var p := Kept(s.pairs)[x];
    KeptRoutable(s.cost, s.pairs);
    assert p.cost == s.cost[p.row][p.col];
    hide IsMatching, Cheapest, Kept, AssignmentCost, PairCost, SolvedOk;
    EntryCost(b, s, p.row, p.col);
    CostIs(b, p.row, s.columns[p.col], s.routes[p.row][s.columns[p.col]]);
  }

  lemma CostIs(b: Batch, i: nat, d: DriverID, r: Route)
    requires i < |b.ids| && b.ids[i] in b.orders && d in b.drivers
    ensures CostOf(b, i, d, r.distance) == AssignmentCost(b, Assignment(b.ids[i], d, r))
  {
  }

  lemma EntryCost(b: Batch, s: Solved, i: nat, j: nat)
    requires BatchOk(b) && SolvedOk(b, s) && i < |b.ids| && j < |s.columns|
    ensures i < |s.cost| == |s.routes| == |s.perOrder| && |s.cost[i]| == |s.columns| && s.columns[j] in b.drivers
    ensures s.columns[j] in s.routes[i] ==>
      BestLeg(b, i, s.columns[j], s.routes[i][s.columns[j]]) &&
      s.cost[i][j] == CostOf(b, i, s.columns[j], s.routes[i][s.columns[j]].distance)
  {
    assert s.columns[j] in s.columns;
    assert RowFor(b, i, s.columns, s.routes[i], s.cost[i]);
    assert RoutesFor(b, i, s.perOrder[i], s.routes[i]);
  }

  lemma SameDistance(b: Batch, i: nat, d: DriverID, r: Route, r': Route)
    requires i < |b.ids| && b.ids[i] in b.orders && d in b.drivers && BestLeg(b, i, d, r) && BestLeg(b, i, d, r')
    ensures r.distance == r'.distance && Reaches(b, i, d)
  {
  }

  /** An order's candidates are among the columns. */
  lemma CandidateColumn(b: Batch, s: Solved, i: nat, d: DriverID) returns (j: nat)
    requires BatchOk(b) && SolvedOk(b, s) && i < |b.ids| && i < |s.perOrder| && d in s.perOrder[i]
    ensures j < |s.columns| && s.columns[j] == d
  {
    assert RoutesFor(b, i, s.perOrder[i], s.routes[i]);
    assert d in s.columns;
    j :| 0 <= j < |s.columns| && s.columns[j] == d;
  }

  /** A candidate that can reach the pickup has a route there. */
  ghost function CandidateRoute(b: Batch, s: Solved, i: nat, d: DriverID): (r: Route)
    requires BatchOk(b) && SolvedOk(b, s) && i < |b.ids| && d in s.perOrder[i] && d in b.drivers && Reaches(b, i, d)
    ensures BestLeg(b, i, d, r)
  {
    assert RoutesFor(b, i, s.perOrder[i], s.routes[i]);
    s.routes[i][d]
  }

  lemma ChoicePair(b: Batch, s: Solved, a: Assignment, bound: real) returns (p: Pair)
    requires BatchOk(b) && SolvedOk(b, s) && CostsWithin(b, bound) && bound < UNREACHABLE && IsChoice(b, s, a)
    ensures StandsFor(b, s, p, a) && p.row < |s.cost| && p.col < |s.cost[p.row]| && p.cost == s.cost[p.row][p.col]
    ensures p.cost < UNREACHABLE
  {
    hide SolvedOk, CostsWithin, BestLeg, Reaches, AssignmentCost, PairCost;
    var i: nat :| Chosen(b, s, a, i);
    var j := CandidateColumn(b, s, i, a.driverId);
    EntryCost(b, s, i, j);
    SameDistance(b, i, a.driverId, a.toPickup, a.toPickup);
    AffordableIffRoutable(b, s, bound, i, j);
    AffordableHasRoute(b, s, i, j);
    SameDistance(b, i, a.driverId, a.toPickup, s.routes[i][s.columns[j]]);
    CostIs(b, i, a.driverId, a.toPickup);
    p := Pair(i, j, s.cost[i][j]);
  }

  /** A plan is a matching of affordable pairs that costs the same. */
  lemma {:induction false} PlanPairs(b: Batch, s: Solved, plan: seq<Assignment>, bound: real) returns (m: seq<Pair>)
    requires BatchOk(b) && SolvedOk(b, s) && CostsWithin(b, bound) && (plan != [] ==> bound < UNREACHABLE)
    requires Plan(b, s, plan)
    ensures |m| == |plan| && forall x :: 0 <= x < |m| ==> StandsFor(b, s, m[x], plan[x])
    ensures EntriesOf(s.cost, m) && forall x :: 0 <= x < |m| ==> m[x].cost < UNREACHABLE
  {
    hide SolvedOk, CostsWithin, IsChoice, StandsFor;
    m := [];
    if plan != [] {
      var n := |plan| - 1;
      m := PlanPairs(b, s, plan[..n], bound);
      var p := ChoicePair(b, s, plan[n], bound);
      m := m + [p];
    }
  }

  lemma PlanRoutable(b: Batch, s: Solved, m: seq<Pair>, plan: seq<Assignment>)
    requires AllDistinct(plan) && |m| == |plan| && forall x :: 0 <= x < |m| ==> StandsFor(b, s, m[x], plan[x])
    requires EntriesOf(s.cost, m) && forall x :: 0 <= x < |m| ==> m[x].cost < UNREACHABLE
    ensures Routable(s.cost, m)
  {
    hide AssignmentCost;
    forall x, y | 0 <= x < y < |m|
      ensures m[x].row != m[y].row && m[x].col != m[y].col
    {
      assert StandsFor(b, s, m[x], plan[x]) && StandsFor(b, s, m[y], plan[y]);
      assert plan[x].orderId != plan[y].orderId && plan[x].driverId != plan[y].driverId;
    }
  }

  lemma PlanBeaten(b: Batch, s: Solved, matched: seq<Assignment>, plan: seq<Assignment>, bound: real)
    requires BatchOk(b) && SolvedOk(b, s) && CostsWithin(b, bound) && Plan(b, s, plan)
    requires BestRoutable(s.cost, Kept(s.pairs))
    requires |matched| == |Kept(s.pairs)| && Total(Kept(s.pairs)) == PlanCost(b, matched)
    requires bound >= 0.0 && 2.0 * Times(Min(|b.ids|, |s.columns|), bound) < UNREACHABLE
    ensures |plan| <= |matched| && (|plan| == |matched| ==> PlanCost(b, matched) <= PlanCost(b, plan))
  {
    hide SolvedOk, CostsWithin, StandsFor, Kept, Times, IsChoice, IsMatching;
    if plan != [] {
      SomeColumn(b, s, plan[0]);
      BoundBelow(Min(|b.ids|, |s.columns|), bound);
    }
    var m := PlanPairs(b, s, plan, bound);
    PlanRoutable(b, s, m, plan);
    SameTotal(b, s, m, plan);
  }

  // ---- what a cheapest plan means for orders and drivers (optimized.go lines 24-39) ----

  lemma {:induction false} CostOfExchange(b: Batch, plan: seq<Assignment>, x: nat, a: Assignment)
    requires x < |plan|
    ensures PlanCost(b, plan[x := a]) == PlanCost(b, plan) - AssignmentCost(b, plan[x]) + AssignmentCost(b, a)
  {
    hide AssignmentCost;
    var n := |plan| - 1;
    var changed := plan[x := a];
    if x < n {
      CostOfExchange(b, plan[..n], x, a);
      assert changed[..n] == plan[..n][x := a];
    } else {
      assert changed[..n] == plan[..n];
    }
  }

  /** Assignment a can take the place of the x-th: neither its order nor its driver is another one's. */
  ghost predicate CanReplace(b: Batch, s: Solved, matched: seq<Assignment>, x: nat, a: Assignment)
  {
    x < |matched| && IsChoice(b, s, a) &&
    forall y :: 0 <= y < |matched| && y != x ==> matched[y].orderId != a.orderId && matched[y].driverId != a.driverId
  }

  /** No assignment made costs more than one that could take its place. */
  lemma NoBetterExchange(b: Batch, s: Solved, matched: seq<Assignment>, x: nat, a: Assignment)
    requires BestPlan(b, s, matched) && CanReplace(b, s, matched, x, a)
    ensures AssignmentCost(b, matched[x]) <= AssignmentCost(b, a)
  {
    hide IsChoice, AssignmentCost, PlanCost;
    var plan := matched[x := a];
    CostOfExchange(b, matched, x, a);
    assert Plan(b, s, plan);
  }

  lemma Dearer(w: real, x: real, y: real)
    requires w > 0.0 && x < y
    ensures w * x < w * y
  {
    var d := y - x;
    assert w * d > 0.0;
    assert w * y == w * x + w * d;
  }

  lemma Cheaper(w: real, x: real, y: real)
    requires w > 0.0 && w * x <= w * y
    ensures x <= y
  {
    if y < x { Dearer(w, y, x); }
  }

  /** Where one driver could as well have served another order at the same distance, that order has not
      waited longer: old orders are not passed over for new ones. */
  lemma OlderFirst(b: Batch, s: Solved, matched: seq<Assignment>, x: nat, a: Assignment)
    requires BestPlan(b, s, matched) && CanReplace(b, s, matched, x, a) && b.weights.waitTime > 0.0
    requires a.driverId == matched[x].driverId && a.toPickup.distance == matched[x].toPickup.distance
    ensures matched[x].orderId in b.orders && a.orderId in b.orders
    ensures b.orders[matched[x].orderId].createdAt <= b.orders[a.orderId].createdAt
  {
    hide PlanCost, BestLeg;
    NoBetterExchange(b, s, matched, x, a);
    assert IsChoice(b, s, matched[x]);
    Cheaper(b.weights.waitTime, b.now - b.orders[a.orderId].createdAt, b.now - b.orders[matched[x].orderId].createdAt);
  }

  /** Where an order could as well have gone to another driver at the same distance, that driver has not
      been idle longer: work is spread. */
  lemma LongestIdleFirst(b: Batch, s: Solved, matched: seq<Assignment>, x: nat, a: Assignment)
    requires BestPlan(b, s, matched) && CanReplace(b, s, matched, x, a) && b.weights.driverIdleTime > 0.0
    requires a.orderId == matched[x].orderId && a.toPickup.distance == matched[x].toPickup.distance
    ensures matched[x].driverId in b.drivers && a.driverId in b.drivers
    ensures b.drivers[matched[x].driverId].idleSince <= b.drivers[a.driverId].idleSince
  {
    hide PlanCost, BestLeg;
    NoBetterExchange(b, s, matched, x, a);
    assert IsChoice(b, s, matched[x]);
    Cheaper(b.weights.driverIdleTime, b.now - b.drivers[a.driverId].idleSince,
            b.now - b.drivers[matched[x].driverId].idleSince);
  }

  /** Where an order could have gone to another driver idle just as long, or a driver to another order that
      has waited just as long, the way to the pickup is not shorter. */
  lemma NearestFirstOfEquals(b: Batch, s: Solved, matched: seq<Assignment>, x: nat, a: Assignment)
    requires BestPlan(b, s, matched) && CanReplace(b, s, matched, x, a) && b.weights.pickupDistance > 0.0
    requires matched[x].orderId in b.orders && a.orderId in b.orders
    requires matched[x].driverId in b.drivers && a.driverId in b.drivers
    requires b.orders[matched[x].orderId].createdAt == b.orders[a.orderId].createdAt
    requires b.drivers[matched[x].driverId].idleSince == b.drivers[a.driverId].idleSince
    ensures matched[x].toPickup.distance <= a.toPickup.distance
  {
    hide PlanCost, BestLeg;
    NoBetterExchange(b, s, matched, x, a);
    Cheaper(b.weights.pickupDistance, matched[x].toPickup.distance, a.toPickup.distance);
  }

  /** No order is left without a driver that is free and could have come. */
  lemma NobodyLeftOut(b: Batch, s: Solved, matched: seq<Assignment>, a: Assignment)
    requires BestPlan(b, s, matched) && IsChoice(b, s, a)
    ensures exists y :: 0 <= y < |matched| && (matched[y].orderId == a.orderId || matched[y].driverId == a.driverId)
  {
    hide IsChoice, PlanCost;
    if forall y :: 0 <= y < |matched| ==> matched[y].orderId != a.orderId && matched[y].driverId != a.driverId {
      OneMoreChoice(b, s, matched, a);
    }
  }

  lemma OneMoreChoice(b: Batch, s: Solved, plan: seq<Assignment>, a: Assignment)
    requires Plan(b, s, plan) && IsChoice(b, s, a)
    requires forall y :: 0 <= y < |plan| ==> plan[y].orderId != a.orderId && plan[y].driverId != a.driverId
    ensures Plan(b, s, plan + [a])
  {
    hide IsChoice;
  }

  lemma SomeColumn(b: Batch, s: Solved, a: Assignment)
    requires BatchOk(b) && SolvedOk(b, s) && IsChoice(b, s, a)
    ensures Min(|b.ids|, |s.columns|) > 0
  {
    hide SolvedOk;
    var i: nat :| Chosen(b, s, a, i);
    var j := CandidateColumn(b, s, i, a.driverId);
  }

  /** Order i is reported infeasible exactly when it had candidates and none could be routed. */
  lemma InfeasibleExactly(b: Batch, s: Solved, bound: real, i: nat)
    requires BatchOk(b) && SolvedOk(b, s) && CostsWithin(b, bound) && bound < UNREACHABLE && i < |b.ids|
    ensures |s.cost| == |b.ids|
    ensures b.ids[i] in InfeasibleAmong(b, s.perOrder, s.cost, |b.ids|) <==>
      s.perOrder[i] != [] && forall d :: d in s.perOrder[i] ==> d in b.drivers && !Reaches(b, i, d)
  {
    assert |s.cost| == |b.ids| && |s.cost[i]| == |s.columns|;
    InfeasibleFrom(b, s.perOrder, s.cost, |b.ids|);
    assert forall d :: d in s.perOrder[i] ==> d in b.drivers && d in s.columns;
    hide SolvedOk, InfeasibleAmong;
    forall j | 0 <= j < |s.columns|
      ensures s.columns[j] in b.drivers
      ensures s.cost[i][j] < UNREACHABLE <==> s.columns[j] in s.perOrder[i] && Reaches(b, i, s.columns[j])
    {
      AffordableIffRoutable(b, s, bound, i, j);
    }
  }

  lemma {:induction false} InfeasibleFrom(b: Batch, perOrder: seq<seq<DriverID>>, cost: Matrix, n: nat)
    requires BatchOk(b) && n <= |b.ids| && |perOrder| == |b.ids| && |cost| == |b.ids|
    ensures forall i :: 0 <= i < n ==>
      (b.ids[i] in InfeasibleAmong(b, perOrder, cost, n) <==> perOrder[i] != [] && Hopeless(cost[i]))
    ensures forall o :: o in InfeasibleAmong(b, perOrder, cost, n) ==> exists i :: 0 <= i < n && b.ids[i] == o
  {
    if n > 0 {
      InfeasibleFrom(b, perOrder, cost, n - 1);
    }
  }
}
