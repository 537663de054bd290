/** Concrete cases in which the program does something its documentation does not say. */
module Examples {
  import opened Roads
  import opened Routing
  import opened Domain
  import opened Closures
  import opened Events
  import opened Fleet
  import opened Mirror
  import opened Dispatch
  import opened Travel
  import opened Scenes
  import opened Trips
  import opened Rerouting
  import opened Batching
  import opened Spatial
  import opened Matching
  import opened Simulation
  import opened Recorder
  import opened Stream
  import Replay
  import WebReplay

  const A: NodeID := NodeID(0, 0)
  const B: NodeID := NodeID(0, 1)
  const C: NodeID := NodeID(0, 2)
  const D: NodeID := NodeID(1, 0)

  // ---------------------------------------------------------------------------------------------
  // Closing roads
  // ---------------------------------------------------------------------------------------------

  /** Driver "d" at A takes order 1 from B to C along A, B, C. */
  function OnTheWay(): Scene
  {
    Scene(map["d" := Driver(A, EnRouteToPickup, [A, B, C], 0, Some(1), 0.0, 0.0)],
          map[1 := Order(B, C, 0.0, Assigned, Some("d"))], History({}, map["d" := 1], map[], map[]), {}, map[], false,
          {})
  }

  /** Rerouted to B around by D, the driver hands the order over at B, not at C. */
  lemma ReroutedOrderEndsAtPickup(now: real)
    ensures var s1 := Rerouted(OnTheWay(), "d", 1, [A, D, B]);
      AtWork(s1, "d", 1) &&
      var s2 := ArrivedScene(Hopped(s1, "d"), "d", 1, now);
      AtWork(s2, "d", 1) && s2.drivers["d"].routeIndex + 1 < |s2.drivers["d"].route| &&
      var s3 := ArrivedScene(Hopped(s2, "d"), "d", 1, now);
      1 in s3.orders && s3.orders[1].status.Delivered? && s3.orders[1].destination == C &&
      s3.hist.deliveredAt == map[1 := B] && s3.drivers["d"].position == B
  {
  }

  /** Left without a way, the driver is idle and nowhere in the index. */
  lemma StrandedDriverIsLost(c: City)
    requires At(c, A) == Point(0.0, 0.0)
    ensures Indexes(Batched, map[], c, OnTheWay().drivers, {})
    ensures var s := Stranded(OnTheWay(), "d", 1);
      IdleDrivers(s.drivers) == {"d"} && s.lost == {"d"} && Indexes(Batched, map[], c, s.drivers, s.lost)
  {
    assert IdleDrivers(OnTheWay().drivers) == {};
    assert IdleDrivers(Stranded(OnTheWay(), "d", 1).drivers) == {"d"};
  }

  /** With progress carried over from a longer road a driver passes two nodes in one step, and the replayed
      driver, told of the second only, stays where it was. */
  lemma TwoNodesAtOnce(c: City, d0: Driver, d: Driver, k: nat, shortest: real)
    requires d0.route == [A, B, C, D] && d0.routeIndex == 0 && d0.routeProgress == 30.0
    requires Hop(c, A, B) == 10.0 && Hop(c, B, C) == 10.0 && Hop(c, C, D) == 100.0
    requires Driven(c, d0, d, k, shortest) && d.routeProgress >= 0.0
    ensures d.route == d0.route && d.routeIndex == 2 && Skipped(d, 0)
    ensures Replay.Moved(Shadow(d0), d.route[d.routeIndex]).routeIndex == 0
  {
    hide Hop;
    var route := d0.route;
    assert Left(c, route, 2, 3) == 100.0 && Left(c, route, 1, 3) == 110.0 && Left(c, route, 0, 3) == 120.0;
    assert Left(c, route, 3, 3) == 0.0;
    assert d.route == route;
  }

  // ---------------------------------------------------------------------------------------------
  // Whole runs
  // ---------------------------------------------------------------------------------------------

  /** Offered to the only driver, which stands where it begins and ends, an order gets a one-node route. */
  lemma StandingDriverTakes(c: City, s: Scene, s': Scene, id: DriverID, o: OrderID, now: real, queued: bool)
    requires Streets(c) && Offered(c, s, s', o, now, queued) && s.drivers.Keys == {id} && s.drivers[id].status.Idle?
    requires s.drivers[id].position == s.orders[o].pickup == s.orders[o].destination && s.orders[o].status.Pending?
    ensures Stuck(s', id, o)
  {
    hide Streets, IsBestRoute, Taken, Reachable, Stuck, IsNearest, MayTake, Onward;
    ReachesItself(c, s.drivers[id].position);
    var d, r :| IsNearest(c, s.drivers, s.orders[o].pickup, Some((d, r))) && Assigns(c, s, s', d, o, r, now);
    NearestMayTake(c, s, d, o, r);
    var r' :| TakesOver(c, s, s', id, o, r, r', now);
    TakenStuck(c, s, id, o, r, r', now);
  }

  lemma ReachesItself(c: City, n: NodeID)
    ensures Reachable(c, n, n)
  {
    assert IsWalk(c, n, [], n);
  }

  /** An order that begins and ends where the only driver stands is collected and never delivered,
      whatever happens next short of a reset. */
  method NeverDelivered(sim: Simulation, moves: seq<Move>)
    requires sim.Ready() && sim.strategy.NearestFirst? && sim.home == map["d" := A] && NoReset(moves)
    modifies sim, sim.driverIndex
    ensures sim.Valid() && 1 in sim.orders && sim.orders[1].status.EnRoute? && sim.orders[1].destination == A
    ensures "d" in sim.drivers && sim.drivers["d"].position == A
  {
    hide Simulation.Ready, Simulation.Valid, Keeps, Scenes.Step, Offered, WithOrder, FirstScene, Stuck, OrderTaken,
      Obeyed, Ticked, SnapshotTold, NoneLost, NoClosing, AllGentle, Streets, SceneOk;
    FirstState(sim);
    var events := sim.Start();
    ghost var first := sim.Present();
    sim.HandlePlaceOrder(A, A);
    sim.ValidScene();
    FirstOrder(sim.Plan(), first, sim.Present());
    events := sim.TakePending();
    sim.ValidScene();
    ghost var city, s, line, next, now := sim.city, sim.Now(), sim.pendingOrders, sim.nextOrderID, sim.virtualTime;
    ghost var trace;
    events, trace := sim.Continue(moves);
    StuckStays(city, s, sim.Now(), line, next, now, "d", 1);
    sim.ValidScene();
    StuckIff(sim.city, sim.Now(), sim.pendingOrders, sim.nextOrderID, sim.virtualTime, "d", 1);
  }

  lemma FirstState(sim: Simulation)
    requires sim.Ready()
    ensures sim.Now() == FirstScene(sim.home) && sim.nextOrderID == 0 && sim.pendingOrders == []
  {
    hide CityOk, Indexes, CalmStart, FirstScene;
  }

  lemma FirstOrder(p: Setup, a: Moment, b: Moment)
    requires OrderTaken(p, A, A, a, b) && p.strategy.NearestFirst? && p.home == map["d" := A] && Streets(a.city)
    requires a.scene == FirstScene(p.home) && a.next == 0
    ensures Stuck(b.scene, "d", 1) && AtWork(b.scene, "d", 1)
  {
    hide Streets, Offered, PlacedTold;
    var s0 := a.scene.(orders := a.scene.orders[1 := Order(A, A, a.time, Pending, None)]);
    assert s0.drivers["d"] == Driver(A, Idle, [], 0, None, 0.0, 0.0);
    StandingDriverTakes(a.city, s0, b.scene, "d", 1, a.time, b.line != a.line);
  }

  /** A tick in which nobody can move and nothing waits advances the clock without an event, and the time
      of the folds falls behind. */
  method SilentTick(sim: Simulation)
    requires sim.Ready() && !sim.paused && sim.strategy.NearestFirst? && sim.home == map["d" := A]
    modifies sim, sim.driverIndex
    ensures sim.Valid() && sim.virtualTime == 1.0 && Replay.Fold(Replay.EmptyFrame(), sim.tape.log).time == 0.0
  {
    hide CityOk, Tells, TimeOk, SceneOk, TripsOk, Indexes, ShowsRoads, WebReplay.SameView, Replay.Fold, WebReplay.Fold,
      Ticked, SnapshotTold;
    var events := sim.Start();
    sim.FoldIsLive();
    ghost var moved;
    ghost var log := sim.tape.log;
    events, moved := sim.Advance();
    assert log + [] == log;
  }

  // ---------------------------------------------------------------------------------------------
  // Batches
  // ---------------------------------------------------------------------------------------------

  /** Driver "d" at A; order 1, placed at time 0, leads from A to B, and order 2, placed later, from A to A. */
  function TwoOrders(): Scene
  {
    Scene(map["d" := Driver(A, Idle, [], 0, None, 0.0, 0.0)],
          map[1 := Order(A, B, 0.0, Pending, None), 2 := Order(A, A, 1.0, Pending, None)],
          History({}, map[], map[], map[]), {}, map[], false, {})
  }

  /** With B cut off the older order is matched and given up, and the driver stays idle although the other
      order waits where it stands. */
  lemma IdleThoughWanted(c: City, s: Scene, line': seq<OrderID>, rules: Rules, now: real, bound: real,
                         points: map<DriverID, Point>, candidates: seq<DriverID>)
    requires BatchRan(c, TwoOrders(), s, [1, 2], line', rules, now)
    requires SmallCosts(c, TwoOrders(), [1, 2], rules, now, bound)
    requires rules.cellSize > 0.0 && rules.weights.waitTime > 0.0 && !Reachable(c, A, B) && Reachable(c, A, A)
    requires IndexShows(points, c, TwoOrders().drivers, {}) && "d" in candidates
    requires IsAnswer(points, At(c, A), rules.cellSize, rules.candidatesPerOrder, candidates)
    ensures "d" in s.drivers && s.drivers["d"].status.Idle?
    ensures 1 in s.orders && s.orders[1].status.Unassignable? && 2 in s.orders && s.orders[2].status.Pending?
    ensures 1 !in line' && 2 in line'
  {
    hide SmallCosts, Solves, Dispatched, IndexShows, IsAnswer, Reachable, BestPlan, CarriedOut;
    var s0 := TwoOrders();
    var rows: seq<OrderID>, matched: seq<Assignment>, hopeless: seq<OrderID>, sol: Solved,
      points': map<DriverID, Point> :|
      Solves(c, s0, [1, 2], rules, now, rows, matched, hopeless, sol, points') &&
      Dispatched(c, s0, s, matched, |matched|, hopeless, |hopeless|) &&
      line' == Filtered([1, 2], OrdersOf(matched, |matched|) + FirstOf(hopeless, |hopeless|));
    FilteredIs([1, 2], OrdersOf(matched, |matched|) + FirstOf(hopeless, |hopeless|));
    FilteredIs([1, 2], {});
    assert 1 in Filtered([1, 2], {}) && 2 in Filtered([1, 2], {});
    RanOptimally(c, s0, [1, 2], rules, now, bound, rows, matched, hopeless, sol, points');
    var a1 := WouldServe(c, s0, [1, 2], rules, now, rows, matched, hopeless, sol, points', 1, "d", points, candidates);
    OlderMatched(c, rows, sol, matched, a1, rules.weights, now);
    NotHopeless(c, rows, matched, hopeless, sol, points', points, candidates, rules, now, bound);
    OnlyTheOlder(c, s, matched, hopeless);
  }

  /** Only the older order is matched. */
  lemma OlderMatched(c: City, rows: seq<OrderID>, sol: Solved, matched: seq<Assignment>, a1: Assignment, w: Weights,
                     now: real)
    requires var b := Batch(c, TwoOrders().drivers, TwoOrders().orders, rows, w, now);
      BestPlan(b, sol, matched) && IsChoice(b, sol, a1) && w.waitTime > 0.0
    requires a1.orderId == 1
    ensures |matched| == 1 && matched[0].orderId == 1 && matched[0].driverId == "d"
  {
    hide PlanCost, AssignmentCost, IsBestRoute;
    var b := Batch(c, TwoOrders().drivers, TwoOrders().orders, rows, w, now);
    NobodyLeftOut(b, sol, matched, a1);
    forall y | 0 <= y < |matched|
      ensures matched[y].driverId == "d" && matched[y].orderId in {1, 2}
    {
      assert IsChoice(b, sol, matched[y]);
    }
    AtMostOne(matched);
    if matched[0].orderId == 2 {
      assert IsChoice(b, sol, matched[0]);
      SameLength(c, matched[0].toPickup, a1.toPickup);
      OlderFirst(b, sol, matched, 0, a1);
    }
  }

  lemma AtMostOne(matched: seq<Assignment>)
    requires AllDistinct(matched) && forall y :: 0 <= y < |matched| ==> matched[y].driverId == "d"
    ensures |matched| <= 1
  {
    hide AllDistinct;
    if |matched| > 1 { FirstTwoDiffer(matched); }
  }

  lemma FirstTwoDiffer(matched: seq<Assignment>)
    requires AllDistinct(matched) && |matched| > 1
    ensures matched[0].driverId != matched[1].driverId
  {
  }

  lemma SameLength(c: City, r: Route, r': Route)
    requires IsBestRoute(c, A, A, r) && IsBestRoute(c, A, A, r')
    ensures r.distance == r'.distance
  {
  }

  /** The younger order is not given up. */
  lemma NotHopeless(c: City, rows: seq<OrderID>, matched: seq<Assignment>, hopeless: seq<OrderID>, sol: Solved,
                    points': map<DriverID, Point>, points: map<DriverID, Point>, candidates: seq<DriverID>,
                    rules: Rules, now: real, bound: real)
    requires Solves(c, TwoOrders(), [1, 2], rules, now, rows, matched, hopeless, sol, points')
    requires SmallCosts(c, TwoOrders(), [1, 2], rules, now, bound) && rules.cellSize > 0.0 && Reachable(c, A, A)
    requires IndexShows(points, c, TwoOrders().drivers, {}) && "d" in candidates
    requires IsAnswer(points, At(c, A), rules.cellSize, rules.candidatesPerOrder, candidates)
    ensures 2 !in hopeless
  {
    hide IndexShows, IsAnswer, Reachable, SolvedOk, ReadsOff, InfeasibleAmong, CostsWithin, BatchOk, Filtered,
      NominatedFrom;
    var s0, line := TwoOrders(), [1, 2];
    FilteredIs(line, {});
    assert 2 in Filtered(line, {});
    var a2 := WouldServe(c, s0, line, rules, now, rows, matched, hopeless, sol, points', 2, "d", points, candidates);
    var b := Batch(c, s0.drivers, s0.orders, line, rules.weights, now);
    RowsWithin(b, rows, bound);
    var i: nat :| Chosen(b.(ids := rows), sol, a2, i);
    InfeasibleExactly(b.(ids := rows), sol, bound, i);
  }

  lemma OnlyTheOlder(c: City, s: Scene, matched: seq<Assignment>, hopeless: seq<OrderID>)
    requires Dispatched(c, TwoOrders(), s, matched, |matched|, hopeless, |hopeless|) && 2 !in hopeless
    requires |matched| == 1 && matched[0].orderId == 1 && matched[0].driverId == "d" && !Reachable(c, A, B)
    ensures "d" in s.drivers && s.drivers["d"].status.Idle?
    ensures 1 in s.orders && s.orders[1].status.Unassignable? && 2 in s.orders && s.orders[2].status.Pending?
    ensures 1 in OrdersOf(matched, |matched|) && 2 !in OrdersOf(matched, |matched|) + FirstOf(hopeless, |hopeless|)
  {
    hide Reachable, Onward;
    assert CarriedOut(c, TwoOrders(), s, matched[0]);
  }

  // ---------------------------------------------------------------------------------------------
  // Streams and records
  // ---------------------------------------------------------------------------------------------

  /** A client that subscribes just before a step which emits a snapshot and another event, and asks for
      the current state just after it, is sent the state after both and then the old snapshot. */
  method StaleSnapshotIsSent(old1: Event, new2: Event) returns (stream: Stream)
    requires old1.payload.Snapshot? && old1.sequence == 1 && new2.sequence == 2
    ensures fresh(stream) && stream.Valid() && 0 in stream.clients
    ensures stream.clients[0].snapshot == Some(2) && stream.clients[0].frames == [old1]
  {
    stream := new Stream();
    stream.SubscribeClient(0);
    stream.PublishEvents([old1, new2]);
    stream.SendSnapshot(0);
    stream.RelayOne();
    stream.HandleOne(0);
  }

  /** Cancelled with an event in its queue, the recorder never attempts to store it. */
  method CancelledWithQueue(e: Event) returns (r: Recorder)
    ensures fresh(r) && r.Valid() && r.writer.Cancelled? && r.queue == [e] && r.attempted == []
  {
    r := new Recorder(200, 500, 4096, _ => true);
    r.ReceiveEvent(e);
    r.Stop(true);
  }
}
