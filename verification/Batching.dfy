/** What one batch does to the drivers and orders (internal/simulation/simulation.go lines 874-918). */
module Batching {
  import opened Roads
  import opened Routing
  import opened Domain
  import opened Spatial
  import opened Matching
  import opened Hungarian
  import opened Sentinel
  import opened Fleet
  import opened Dispatch
  import opened Scenes
  import opened Trips
  import opened Closures
  import opened Travel

  // ---------------------------------------------------------------------------------------------
  // The queue without the orders a batch resolved
  // ---------------------------------------------------------------------------------------------

  function Filtered(line: seq<OrderID>, resolved: set<OrderID>): seq<OrderID>
  {
    if line == [] then []
    else Filtered(line[..|line| - 1], resolved) + if line[|line| - 1] in resolved then [] else [line[|line| - 1]]
  }

  lemma {:induction false} FilteredMore(line: seq<OrderID>, resolved: set<OrderID>, o: OrderID)
    ensures Dropped(Filtered(line, resolved), o) == Filtered(line, resolved + {o})
  {
    if line != [] {
      var x := line[|line| - 1];
      var shorter := Filtered(line[..|line| - 1], resolved);
      FilteredMore(line[..|line| - 1], resolved, o);
      assert shorter + [] == shorter;
      if x !in resolved {
        assert (shorter + [x])[..|shorter|] == shorter && (shorter + [x])[|shorter|] == x;
      }
    }
  }

  lemma {:induction false} FilteredNone(line: seq<OrderID>)
    ensures Filtered(line, {}) == line
  {
    if line != [] {
      FilteredNone(line[..|line| - 1]);
    }
  }

  /** Lines 911-917. */
  method Remaining(line: seq<OrderID>, resolved: set<OrderID>) returns (remaining: seq<OrderID>)
    ensures remaining == Filtered(line, resolved)
  {
    remaining := [];
    for k := 0 to |line|
      invariant remaining == Filtered(line[..k], resolved)
    {
      assert line[..k + 1][..k] == line[..k];
      if line[k] !in resolved { remaining := remaining + [line[k]]; }
    }
    assert line[..|line|] == line;
  }

  // ---------------------------------------------------------------------------------------------
  // Half-way through a batch
  // ---------------------------------------------------------------------------------------------

  ghost function DriversOf(matched: seq<Assignment>, k: nat): set<DriverID>
    requires k <= |matched|
  {
    set j | 0 <= j < k :: matched[j].driverId
  }

  ghost function OrdersOf(matched: seq<Assignment>, k: nat): set<OrderID>
    requires k <= |matched|
  {
    set j | 0 <= j < k :: matched[j].orderId
  }

  ghost function FirstOf(ids: seq<OrderID>, n: nat): set<OrderID>
    requires n <= |ids|
  {
    set j | 0 <= j < n :: ids[j]
  }

  /** One assignment carried out: the driver has the order and a route over both legs, or the order is
      given up for want of a way to its destination. */
  ghost predicate CarriedOut(c: City, s0: Scene, s: Scene, a: Assignment)
  {
    a.orderId in s0.orders && a.driverId in s0.drivers && a.orderId in s.orders && a.driverId in s.drivers &&
    a.toPickup.nodes != [] &&
    var order, d := s0.orders[a.orderId], s0.drivers[a.driverId];
    if Reachable(c, order.pickup, order.destination) then
      s.orders[a.orderId] == TakenOrder(d, a.driverId, order) &&
      exists r :: Onward(c, s0, a.orderId, r) && r.nodes != [] &&
        s.drivers[a.driverId] == TakenDriver(d, a.orderId, order, FullRoute(a.toPickup.nodes, r.nodes))
    else s.drivers[a.driverId] == d && s.orders[a.orderId] == order.(status := Unassignable)
  }

  /** The first k assignments were carried out and the first n hopeless orders given up; no other
      driver and no other order was touched. */
  ghost predicate Dispatched(c: City, s0: Scene, s: Scene, matched: seq<Assignment>, k: nat, hopeless: seq<OrderID>,
                             n: nat)
  {
    k <= |matched| && n <= |hopeless| && s.drivers.Keys == s0.drivers.Keys && s.orders.Keys == s0.orders.Keys &&
    (forall j :: 0 <= j < k ==> CarriedOut(c, s0, s, matched[j])) &&
    (forall j :: 0 <= j < n ==> GivenUpOrder(s0, s, hopeless[j])) &&
    (forall x :: x in s0.drivers && x !in DriversOf(matched, k) ==> s.drivers[x] == s0.drivers[x]) &&
    (forall y :: y in s0.orders && y !in OrdersOf(matched, k) && y !in FirstOf(hopeless, n) ==>
     s.orders[y] == s0.orders[y])
  }

  ghost predicate GivenUpOrder(s0: Scene, s: Scene, o: OrderID)
  {
    o in s0.orders && o in s.orders && s.orders[o] == s0.orders[o].(status := Unassignable)
  }

  /** A batch's result fits the scene it was computed for. */
  ghost predicate Fits(c: City, s0: Scene, matched: seq<Assignment>, hopeless: seq<OrderID>)
  {
    AllDistinct(matched) &&
    (forall j :: 0 <= j < |matched| ==> MayTake(c, s0, matched[j].driverId, matched[j].orderId, matched[j].toPickup)) &&
    (forall j :: 0 <= j < |hopeless| ==>
      hopeless[j] in s0.orders && s0.orders[hopeless[j]].status.Pending? &&
      hopeless[j] !in OrdersOf(matched, |matched|)) &&
    Different(hopeless)
  }

  lemma DispatchStart(c: City, s: Scene, matched: seq<Assignment>, hopeless: seq<OrderID>)
    ensures Dispatched(c, s, s, matched, 0, hopeless, 0)
  {
  }

  /** The next assignment can be carried out. */
  lemma NextMayTake(c: City, s0: Scene, s: Scene, matched: seq<Assignment>, k: nat, hopeless: seq<OrderID>)
    requires Dispatched(c, s0, s, matched, k, hopeless, 0) && Fits(c, s0, matched, hopeless) && k < |matched|
    ensures MayTake(c, s, matched[k].driverId, matched[k].orderId, matched[k].toPickup)
  {
    hide IsBestRoute, CarriedOut;
    var a := matched[k];
    assert MayTake(c, s0, a.driverId, a.orderId, a.toPickup);
    assert a.driverId !in DriversOf(matched, k);
    assert a.orderId !in OrdersOf(matched, k);
  }

  /** ... and carrying it out leaves the others as they were. */
  lemma DispatchStep(c: City, s0: Scene, s: Scene, s': Scene, matched: seq<Assignment>, k: nat, hopeless: seq<OrderID>,
                     now: real)
    requires Dispatched(c, s0, s, matched, k, hopeless, 0) && Fits(c, s0, matched, hopeless) && k < |matched|
    requires Assigns(c, s, s', matched[k].driverId, matched[k].orderId, matched[k].toPickup, now)
    ensures Dispatched(c, s0, s', matched, k + 1, hopeless, 0)
  {
    hide IsBestRoute, Reachable, FullRoute, TakenTrips, TakenHistory, MayTake, TakenDriver, TakenOrder, Assigns,
      Onward, CarriedOut;
    var a := matched[k];
    StepShape(c, s0, s, s', matched, k, hopeless, now);
    forall j | 0 <= j < k + 1
      ensures CarriedOut(c, s0, s', matched[j])
    {
      if j < k { StillCarriedOut(c, s0, s, s', matched, k, j); }
    }
    assert DriversOf(matched, k + 1) == DriversOf(matched, k) + {a.driverId};
    assert OrdersOf(matched, k + 1) == OrdersOf(matched, k) + {a.orderId};
  }

  lemma StillCarriedOut(c: City, s0: Scene, s: Scene, s': Scene, matched: seq<Assignment>, k: nat, j: nat)
    requires j < k < |matched| && AllDistinct(matched) && CarriedOut(c, s0, s, matched[j])
    requires s'.drivers.Keys == s.drivers.Keys && s'.orders.Keys == s.orders.Keys
    requires forall x :: x in s.drivers && x != matched[k].driverId ==> s'.drivers[x] == s.drivers[x]
    requires forall y :: y in s.orders && y != matched[k].orderId ==> s'.orders[y] == s.orders[y]
    ensures CarriedOut(c, s0, s', matched[j])
  {
    hide Reachable, Onward, FullRoute, TakenDriver, TakenOrder;
    assert matched[j].driverId != matched[k].driverId && matched[j].orderId != matched[k].orderId;
  }

  lemma StepShape(c: City, s0: Scene, s: Scene, s': Scene, matched: seq<Assignment>, k: nat, hopeless: seq<OrderID>,
                  now: real)
    requires Dispatched(c, s0, s, matched, k, hopeless, 0) && Fits(c, s0, matched, hopeless) && k < |matched|
    requires Assigns(c, s, s', matched[k].driverId, matched[k].orderId, matched[k].toPickup, now)
    ensures CarriedOut(c, s0, s', matched[k])
    ensures s'.drivers.Keys == s0.drivers.Keys && s'.orders.Keys == s0.orders.Keys
    ensures forall x :: x in s.drivers && x != matched[k].driverId ==> s'.drivers[x] == s.drivers[x]
    ensures forall y :: y in s.orders && y != matched[k].orderId ==> s'.orders[y] == s.orders[y]
  {
    hide IsBestRoute, Reachable, FullRoute, TakenTrips, TakenHistory, CarriedOut;
    var a := matched[k];
    assert a.driverId !in DriversOf(matched, k);
    assert a.orderId !in OrdersOf(matched, k);
    CarriedFrom(c, s0, s, s', a, now);
  }

  lemma CarriedFrom(c: City, s0: Scene, s: Scene, s': Scene, a: Assignment, now: real)
    requires a.driverId in s0.drivers && a.orderId in s0.orders && a.driverId in s.drivers && a.orderId in s.orders
    requires s.drivers[a.driverId] == s0.drivers[a.driverId] && s.orders[a.orderId] == s0.orders[a.orderId]
    requires Assigns(c, s, s', a.driverId, a.orderId, a.toPickup, now)
    ensures CarriedOut(c, s0, s', a)
  {
    hide IsBestRoute, Reachable, FullRoute, TakenTrips, TakenHistory;
    if Reachable(c, s.orders[a.orderId].pickup, s.orders[a.orderId].destination) {
      var r :| TakesOver(c, s, s', a.driverId, a.orderId, a.toPickup, r, now);
      assert Onward(c, s0, a.orderId, r);
    }
  }

  /** The next hopeless order is still waiting, and giving it up touches nothing else. */
  lemma GiveUpStep(c: City, s0: Scene, s: Scene, matched: seq<Assignment>, hopeless: seq<OrderID>, n: nat)
    requires Dispatched(c, s0, s, matched, |matched|, hopeless, n) && Fits(c, s0, matched, hopeless) && n < |hopeless|
    ensures hopeless[n] in s.orders && s.orders[hopeless[n]].status.Pending?
    ensures Dispatched(c, s0, GivenUp(s, hopeless[n]), matched, |matched|, hopeless, n + 1)
  {
    hide MayTake, CarriedOut;
    var o := hopeless[n];
    assert o !in FirstOf(hopeless, n) && o !in OrdersOf(matched, |matched|);
    var s' := GivenUp(s, o);
    forall j | 0 <= j < |matched|
      ensures CarriedOut(c, s0, s', matched[j])
    {
      assert matched[j].orderId in OrdersOf(matched, |matched|);
      CarriedKeeps(c, s0, s, matched[j], o);
    }
    assert FirstOf(hopeless, n + 1) == FirstOf(hopeless, n) + {o};
  }

  lemma CarriedKeeps(c: City, s0: Scene, s: Scene, a: Assignment, o: OrderID)
    requires CarriedOut(c, s0, s, a) && o in s.orders && o != a.orderId
    ensures CarriedOut(c, s0, GivenUp(s, o), a)
  {
    hide Reachable, FullRoute, Onward;
  }

  // ---------------------------------------------------------------------------------------------
  // A batch's result fits
  // ---------------------------------------------------------------------------------------------

  /** The pending orders and the indexed drivers make a batch the matcher can solve. */
  lemma BatchReady(b: Batch, s: Scene, line: seq<OrderID>, next: nat, euclid: (Point, Point) -> real, shortest: real,
                   longest: real)
    requires CityOk(b.city, euclid, shortest, longest) && SceneOk(b.city, s, line, next, b.now, {})
    requires b.drivers == s.drivers && b.orders == s.orders && b.ids == line
    requires MaxCost(b.city, b.weights, longest, b.now) < INF / 4.0
    ensures BatchOk(b) && Representable(b) && CostsWithin(b, MaxCost(b.city, b.weights, longest, b.now))
    ensures forall i :: 0 <= i < |line| ==> line[i] in s.orders && s.orders[line[i]].status.Pending?
  {
    hide FleetOk, ClearExcept, Metric, Symmetric, Streets, Paved;
    CityParts(b.city, euclid, shortest, longest);
    assert forall i :: 0 <= i < |line| ==> line[i] in line;
    BatchWithin(b, longest);
  }

  lemma MatchFits(b: Batch, sol: Solved, matched: seq<Assignment>, s: Scene, points: map<DriverID, Point>,
                  lost: set<DriverID>, j: nat)
    requires BatchOk(b) && b.drivers == s.drivers && b.orders == s.orders && AllServe(b, sol, matched) && j < |matched|
    requires forall i :: 0 <= i < |b.ids| ==> s.orders[b.ids[i]].status.Pending?
    requires forall x :: x in sol.columns ==> x in points
    requires IndexShows(points, b.city, s.drivers, lost)
    ensures MayTake(b.city, s, matched[j].driverId, matched[j].orderId, matched[j].toPickup)
  {
    hide IsBestRoute, Hopeless, WellFormed;
    assert ServesSome(b, sol, matched[j]);
    var i :| 0 <= i < |b.ids| && Serves(b, sol, matched[j], i);
    assert matched[j].driverId in IdleDrivers(s.drivers);
  }

  /** Orders reported infeasible belong to the batch and got no driver. */
  lemma HopelessFits(b: Batch, sol: Solved, matched: seq<Assignment>, j: nat)
    requires BatchOk(b) && AllServe(b, sol, matched) && |sol.perOrder| == |b.ids| && |sol.cost| == |b.ids|
    requires j < |InfeasibleAmong(b, sol.perOrder, sol.cost, |b.ids|)|
    ensures var o := InfeasibleAmong(b, sol.perOrder, sol.cost, |b.ids|)[j];
      o !in OrdersOf(matched, |matched|) && exists i :: 0 <= i < |b.ids| && b.ids[i] == o
  {
    hide IsBestRoute, Hopeless, WellFormed, InfeasibleAmong;
    var infeasible := InfeasibleAmong(b, sol.perOrder, sol.cost, |b.ids|);
    InfeasibleFrom(b, sol.perOrder, sol.cost, |b.ids|);
    assert infeasible[j] in infeasible;
    var i :| 0 <= i < |b.ids| && b.ids[i] == infeasible[j];
    assert Hopeless(sol.cost[i]);
    forall k | 0 <= k < |matched|
      ensures matched[k].orderId != infeasible[j]
    {
      assert ServesSome(b, sol, matched[k]);
      var m :| 0 <= m < |b.ids| && Serves(b, sol, matched[k], m);
    }
  }

  lemma DifferentGrow(ids: seq<OrderID>, o: OrderID)
    requires Different(ids) && o !in ids
    ensures Different(ids + [o])
  {
  }

  lemma {:induction false} InfeasibleDistinct(b: Batch, perOrder: seq<seq<DriverID>>, cost: Matrix, n: nat)
    requires BatchOk(b) && n <= |b.ids| && |perOrder| == |b.ids| && |cost| == |b.ids|
    ensures Different(InfeasibleAmong(b, perOrder, cost, n))
  {
    hide Hopeless, WellFormed, Different;
    if n > 0 {
      InfeasibleDistinct(b, perOrder, cost, n - 1);
      InfeasibleFrom(b, perOrder, cost, n - 1);
      var shorter := InfeasibleAmong(b, perOrder, cost, n - 1);
      DifferentGrow(shorter, b.ids[n - 1]);
      assert shorter + [] == shorter;
    } else {
      DifferentEmpty();
    }
  }

  lemma DifferentEmpty()
    ensures Different([])
  {
  }

  lemma BatchFits(b: Batch, sol: Solved, matched: seq<Assignment>, hopeless: seq<OrderID>, s: Scene,
                  points: map<DriverID, Point>, lost: set<DriverID>)
    requires BatchOk(b) && b.drivers == s.drivers && b.orders == s.orders
    requires SolvedOk(b, sol) && ReadsOff(b, sol, Kept(sol.pairs), matched) && |sol.cost| == |b.ids|
    requires |sol.perOrder| == |b.ids| && hopeless == InfeasibleAmong(b, sol.perOrder, sol.cost, |b.ids|)
    requires forall i :: 0 <= i < |b.ids| ==> s.orders[b.ids[i]].status.Pending?
    requires forall x :: x in sol.columns ==> x in points
    requires IndexShows(points, b.city, s.drivers, lost)
    ensures Fits(b.city, s, matched, hopeless)
  {
    hide SolvedOk, ReadsOff, Kept, InfeasibleAmong, AllDistinct, AllServe, IndexShows, MayTake, Hopeless, WellFormed;
    BatchIsSound(b, sol, matched);
    forall j | 0 <= j < |matched|
      ensures MayTake(b.city, s, matched[j].driverId, matched[j].orderId, matched[j].toPickup)
    {
      MatchFits(b, sol, matched, s, points, lost, j);
    }
    forall j | 0 <= j < |hopeless|
      ensures hopeless[j] !in OrdersOf(matched, |matched|) && exists i :: 0 <= i < |b.ids| && b.ids[i] == hopeless[j]
    {
      HopelessFits(b, sol, matched, j);
    }
    InfeasibleDistinct(b, sol.perOrder, sol.cost, |b.ids|);
  }

  /** An order with candidates none of which can be routed: the run is not calm. */
  lemma HopelessNotCalm(b: Batch, sol: Solved, s: Scene, calm: bool, shortest: real, bound: real,
                        hopeless: seq<OrderID>)
    requires BatchOk(b) && b.drivers == s.drivers && b.orders == s.orders && SolvedOk(b, sol)
    requires CostsWithin(b, bound) && bound < UNREACHABLE && |sol.perOrder| == |b.ids| && |sol.cost| == |b.ids|
    requires hopeless == InfeasibleAmong(b, sol.perOrder, sol.cost, |b.ids|) && hopeless != []
    requires TripsOk(b.city, s, b.now, calm, shortest)
    ensures !calm
  {
    hide SolvedOk, CostsWithin, TripsOk, Hopeless, Reachable, InfeasibleAmong;
    InfeasibleFrom(b, sol.perOrder, sol.cost, |b.ids|);
    assert hopeless[0] in hopeless;
    var i :| 0 <= i < |b.ids| && b.ids[i] == hopeless[0];
    InfeasibleExactly(b, sol, bound, i);
    var d := sol.perOrder[i][0];
    assert d in sol.perOrder[i] && !Reaches(b, i, d);
    NotCalm(b.city, s, b.now, calm, shortest, d, b.ids[i]);
  }

  lemma SolvedSizes(b: Batch, sol: Solved)
    requires BatchOk(b) && SolvedOk(b, sol)
    ensures |sol.perOrder| == |b.ids| && |sol.cost| == |b.ids|
  {
  }

  /** The matcher's answer to batch b. */
  ghost predicate BatchResult(b: Batch, sol: Solved, matched: seq<Assignment>, hopeless: seq<OrderID>)
  {
    BatchOk(b) && SolvedOk(b, sol) && ReadsOff(b, sol, Kept(sol.pairs), matched) &&
    |sol.perOrder| == |b.ids| && |sol.cost| == |b.ids| &&
    hopeless == InfeasibleAmong(b, sol.perOrder, sol.cost, |b.ids|)
  }

  /** A batch solved for scene s fits it, and in a calm run no order is hopeless. */
  lemma ResultFits(b: Batch, sol: Solved, matched: seq<Assignment>, hopeless: seq<OrderID>, s: Scene,
                   points: map<DriverID, Point>, lost: set<DriverID>, calm: bool, shortest: real, bound: real)
    requires BatchResult(b, sol, matched, hopeless) && b.drivers == s.drivers && b.orders == s.orders
    requires forall i :: 0 <= i < |b.ids| ==> s.orders[b.ids[i]].status.Pending?
    requires forall x :: x in sol.columns ==> x in points
    requires IndexShows(points, b.city, s.drivers, lost)
    requires CostsWithin(b, bound) && (calm ==> bound < UNREACHABLE) && TripsOk(b.city, s, b.now, calm, shortest)
    ensures Fits(b.city, s, matched, hopeless) && (hopeless != [] ==> !calm)
  {
    hide SolvedOk, ReadsOff, Kept, InfeasibleAmong, IndexShows, Fits, CostsWithin, TripsOk, WellFormed;
    BatchFits(b, sol, matched, hopeless, s, points, lost);
    if hopeless != [] && calm { HopelessNotCalm(b, sol, s, calm, shortest, bound, hopeless); }
  }

  lemma ResultIs(b: Batch, sol: Solved, matched: seq<Assignment>, hopeless: seq<OrderID>)
    requires BatchOk(b) && SolvedOk(b, sol) && ReadsOff(b, sol, Kept(sol.pairs), matched)
    requires |sol.perOrder| == |b.ids| && |sol.cost| == |b.ids|
    requires hopeless == InfeasibleAmong(b, sol.perOrder, sol.cost, |b.ids|)
    ensures BatchResult(b, sol, matched, hopeless)
  {
  }

  lemma IndexedDrivers(points: map<DriverID, Point>, c: City, drivers: Drivers, lost: set<DriverID>)
    requires IndexShows(points, c, drivers, lost)
    ensures points.Keys <= drivers.Keys
  {
  }

  lemma OrdersOfStep(matched: seq<Assignment>, k: nat)
    requires k < |matched|
    ensures OrdersOf(matched, k + 1) == OrdersOf(matched, k) + {matched[k].orderId}
  {
  }

  lemma FirstOfStep(ids: seq<OrderID>, n: nat)
    requires n < |ids|
    ensures FirstOf(ids, n + 1) == FirstOf(ids, n) + {ids[n]}
  {
  }

  lemma RowsPending(orders: Orders, line: seq<OrderID>, rows: seq<OrderID>)
    requires SortedRows(line, rows)
    requires forall i :: 0 <= i < |line| ==> line[i] in orders && orders[line[i]].status.Pending?
    ensures forall i :: 0 <= i < |rows| ==> rows[i] in orders && orders[rows[i]].status.Pending?
  {
    forall i | 0 <= i < |rows|
      ensures rows[i] in orders && orders[rows[i]].status.Pending?
    {
      assert rows[i] in rows;
      var k :| 0 <= k < |line| && line[k] == rows[i];
    }
  }

  /** How dispatch is configured: the pair costs, when a queue becomes a batch, and how many candidates the
      index, with cells of this size, is asked for. */
  datatype Rules = Rules(weights: Weights, minBatchSize: nat, maxWait: real, candidatesPerOrder: int, cellSize: real)

  /** The matcher's answer to the whole queue, its rows in order of name and every order's candidates taken
      from the index of the idle drivers, was carried out, and the queue keeps what it did not resolve. */
  ghost predicate BatchRan(c: City, s0: Scene, s: Scene, line: seq<OrderID>, line': seq<OrderID>, rules: Rules,
                           now: real)
  {
    exists rows, matched, hopeless, sol, points ::
      Solves(c, s0, line, rules, now, rows, matched, hopeless, sol, points) &&
      Dispatched(c, s0, s, matched, |matched|, hopeless, |hopeless|) &&
      line' == Filtered(line, OrdersOf(matched, |matched|) + FirstOf(hopeless, |hopeless|))
  }

  ghost predicate Solves(c: City, s0: Scene, line: seq<OrderID>, rules: Rules, now: real, rows: seq<OrderID>,
                           matched: seq<Assignment>, hopeless: seq<OrderID>, sol: Solved, points: map<DriverID, Point>)
  {
    var b := Batch(c, s0.drivers, s0.orders, rows, rules.weights, now);
    SortedRows(line, rows) && BatchResult(b, sol, matched, hopeless) && IndexShows(points, c, s0.drivers, s0.lost) &&
    NominatedFrom(b, sol, points, rules.cellSize, rules.candidatesPerOrder)
  }

  lemma IndexNominates(b: Batch, s: Solved, index: Grid, candidatesPerOrder: int)
    requires |s.perOrder| == |b.ids|
    requires forall i :: 0 <= i < |b.ids| ==>
      b.ids[i] in b.orders && Nominated(b, index, candidatesPerOrder, i, s.perOrder[i])
    ensures NominatedFrom(b, s, index.points, index.cellSize, candidatesPerOrder)
  {
    hide IsAnswer;
  }

  lemma RanBatch(c: City, s0: Scene, s: Scene, line: seq<OrderID>, line': seq<OrderID>, rules: Rules, now: real,
                 rows: seq<OrderID>, matched: seq<Assignment>, hopeless: seq<OrderID>, sol: Solved,
                 points: map<DriverID, Point>)
    requires Solves(c, s0, line, rules, now, rows, matched, hopeless, sol, points)
    requires Dispatched(c, s0, s, matched, |matched|, hopeless, |hopeless|)
    requires line' == Filtered(line, OrdersOf(matched, |matched|) + FirstOf(hopeless, |hopeless|))
    ensures BatchRan(c, s0, s, line, line', rules, now)
  {
    hide Solves, Filtered, Dispatched;
  }

  /** The costs of the queue's orders are small against the sentinel. */
  ghost predicate SmallCosts(c: City, s: Scene, line: seq<OrderID>, rules: Rules, now: real, bound: real)
  {
    var b := Batch(c, s.drivers, s.orders, line, rules.weights, now);
    BatchOk(b) && CostsWithin(b, bound) && bound >= 0.0 && 2.0 * Times(|line|, bound) < 1000000000000.0
  }

  /** With small costs, what a batch carried out serves as many of the queued orders as their candidates
      allow, as cheaply as that can be done. */
  lemma RanOptimally(c: City, s0: Scene, line: seq<OrderID>, rules: Rules, now: real, bound: real, rows: seq<OrderID>,
                     matched: seq<Assignment>, hopeless: seq<OrderID>, sol: Solved, points: map<DriverID, Point>)
    requires SmallCosts(c, s0, line, rules, now, bound)
    requires Solves(c, s0, line, rules, now, rows, matched, hopeless, sol, points)
    ensures BestPlan(Batch(c, s0.drivers, s0.orders, rows, rules.weights, now), sol, matched)
  {
    hide SolvedOk, ReadsOff, Kept, CostsWithin, BestPlan, SortedRows, InfeasibleAmong, BatchOk, Times, IndexShows,
      NominatedFrom;
    var b := Batch(c, s0.drivers, s0.orders, line, rules.weights, now);
    RowsWithin(b, rows, bound);
    RowsLength(line, rows);
    TimesGrow(Min(|rows|, |sol.columns|), |line|, bound);
    BatchIsOptimal(b.(ids := rows), sol, matched, bound);
  }

  /** The order was given up for want of a way to its destination. */
  ghost predicate NoWayOn(c: City, s0: Scene, s: Scene, o: OrderID)
  {
    o in s0.orders && o in s.orders && s.orders[o].status.Unassignable? &&
    !Reachable(c, s0.orders[o].pickup, s0.orders[o].destination)
  }

  /** After a batch with small costs no driver is left idle that the index names for an order still waiting
      and that can reach its pickup; except one that was matched to an order with no way to its
      destination. */
  lemma NobodyLeftIdle(c: City, s0: Scene, s: Scene, line: seq<OrderID>, line': seq<OrderID>, rules: Rules, now: real,
                       bound: real, o: OrderID, d: DriverID, points: map<DriverID, Point>, candidates: seq<DriverID>)
    requires BatchRan(c, s0, s, line, line', rules, now) && SmallCosts(c, s0, line, rules, now, bound)
    requires rules.cellSize > 0.0 && o in line' && o in s0.orders && d in candidates && d in s0.drivers
    requires IndexShows(points, c, s0.drivers, s0.lost)
    requires IsAnswer(points, At(c, s0.orders[o].pickup), rules.cellSize, rules.candidatesPerOrder, candidates)
    requires Reachable(c, s0.drivers[d].position, s0.orders[o].pickup)
    ensures d in s.drivers
    ensures (s.drivers[d].status.Idle? ==> exists x :: x in line && x !in line' && NoWayOn(c, s0, s, x))
  {
    hide SmallCosts, Solves, Dispatched, IndexShows, IsAnswer, Reachable, BestPlan;
    var rows: seq<OrderID>, matched: seq<Assignment>, hopeless: seq<OrderID>, sol: Solved,
      points': map<DriverID, Point> :|
      Solves(c, s0, line, rules, now, rows, matched, hopeless, sol, points') &&
      Dispatched(c, s0, s, matched, |matched|, hopeless, |hopeless|) &&
      line' == Filtered(line, OrdersOf(matched, |matched|) + FirstOf(hopeless, |hopeless|));
    RanOptimally(c, s0, line, rules, now, bound, rows, matched, hopeless, sol, points');
    var b := Batch(c, s0.drivers, s0.orders, rows, rules.weights, now);
    var a := WouldServe(c, s0, line, rules, now, rows, matched, hopeless, sol, points', o, d, points, candidates);
    FilteredIs(line, OrdersOf(matched, |matched|) + FirstOf(hopeless, |hopeless|));
    NobodyLeftOut(b, sol, matched, a);
    var y :| 0 <= y < |matched| && (matched[y].orderId == o || matched[y].driverId == d);
    assert matched[y].orderId in OrdersOf(matched, |matched|);
    MatchedWaits(c, s0, line, rules, now, rows, matched, hopeless, sol, points', y);
    CarriedMeans(c, s0, s, matched, hopeless, y);
  }

  /** The driver is one of the order's candidates, and a shortest route leads it there. */
  lemma WouldServe(c: City, s0: Scene, line: seq<OrderID>, rules: Rules, now: real, rows: seq<OrderID>,
                   matched: seq<Assignment>, hopeless: seq<OrderID>, sol: Solved, points': map<DriverID, Point>,
                   o: OrderID, d: DriverID, points: map<DriverID, Point>, candidates: seq<DriverID>)
    returns (a: Assignment)
    requires Solves(c, s0, line, rules, now, rows, matched, hopeless, sol, points') && rules.cellSize > 0.0
    requires exists resolved :: o in Filtered(line, resolved)
    requires o in s0.orders && d in s0.drivers && d in candidates && IndexShows(points, c, s0.drivers, s0.lost)
    requires IsAnswer(points, At(c, s0.orders[o].pickup), rules.cellSize, rules.candidatesPerOrder, candidates)
    requires Reachable(c, s0.drivers[d].position, s0.orders[o].pickup)
    ensures a.orderId == o && a.driverId == d
    ensures IsChoice(Batch(c, s0.drivers, s0.orders, rows, rules.weights, now), sol, a)
  {
    hide IsAnswer, IsBestRoute, ReadsOff, Kept, InfeasibleAmong, Cheapest, IsMatching, BatchOk, Reachable;
    var b := Batch(c, s0.drivers, s0.orders, rows, rules.weights, now);
    var resolved :| o in Filtered(line, resolved);
    FilteredIs(line, resolved);
    assert o in rows;
    var i: nat :| i < |rows| && rows[i] == o;
    OneIndex(points, points', c, s0.drivers, s0.lost);
    OneAnswer(points, At(c, s0.orders[o].pickup), rules.cellSize, rules.candidatesPerOrder, candidates,
              sol.perOrder[i]);
    assert Reaches(b, i, d);
    a := Assignment(o, d, CandidateRoute(b, sol, i, d));
    assert Chosen(b, sol, a, i);
  }

  /** The matched orders were in the queue. */
  lemma MatchedWaits(c: City, s0: Scene, line: seq<OrderID>, rules: Rules, now: real, rows: seq<OrderID>,
                     matched: seq<Assignment>, hopeless: seq<OrderID>, sol: Solved, points: map<DriverID, Point>,
                     y: nat)
    requires Solves(c, s0, line, rules, now, rows, matched, hopeless, sol, points) && y < |matched|
    ensures matched[y].orderId in line
  {
    hide SolvedOk, ReadsOff, Kept, InfeasibleAmong, IndexShows, NominatedFrom, Hopeless, IsBestRoute, WellFormed;
    var b := Batch(c, s0.drivers, s0.orders, rows, rules.weights, now);
    BatchIsSound(b, sol, matched);
    assert ServesSome(b, sol, matched[y]);
    var i :| 0 <= i < |rows| && Serves(b, sol, matched[y], i);
    assert rows[i] in rows;
  }

  /** A matched driver is under way, or its order had no way on. */
  lemma CarriedMeans(c: City, s0: Scene, s: Scene, matched: seq<Assignment>, hopeless: seq<OrderID>, y: nat)
    requires Dispatched(c, s0, s, matched, |matched|, hopeless, |hopeless|) && y < |matched|
    ensures matched[y].driverId in s.drivers
    ensures s.drivers[matched[y].driverId].status.Idle? ==> NoWayOn(c, s0, s, matched[y].orderId)
  {
    hide Reachable, Onward, FullRoute;
    assert CarriedOut(c, s0, s, matched[y]);
  }

  lemma OneIndex(points: map<DriverID, Point>, points': map<DriverID, Point>, c: City, drivers: Drivers,
                 lost: set<DriverID>)
    requires IndexShows(points, c, drivers, lost) && IndexShows(points', c, drivers, lost)
    ensures points == points'
  {
  }

  lemma {:induction false} FilteredIs(line: seq<OrderID>, resolved: set<OrderID>)
    ensures forall o :: o in Filtered(line, resolved) <==> o in line && o !in resolved
  {
    if line != [] {
      var shorter := line[..|line| - 1];
      FilteredIs(shorter, resolved);
      assert line == shorter + [line[|line| - 1]];
    }
  }

  lemma TimesGrow(m: nat, n: nat, x: real)
    requires m <= n && x >= 0.0
    ensures Times(m, x) <= Times(n, x)
  {
    var d := n as real - m as real;
    assert d * x >= 0.0;
    assert n as real * x == m as real * x + d * x;
  }

  lemma RowsLength(line: seq<OrderID>, rows: seq<OrderID>)
    requires SortedRows(line, rows)
    ensures |rows| == |line|
  {
  }
}
