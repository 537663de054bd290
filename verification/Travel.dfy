/** Distance along routes: what a driver has left to go, and what one tick's budget takes off it
    (internal/simulation/simulation.go lines 1073-1102). */
module Travel {
  import opened Roads
  import opened Routing
  import opened Domain
  import opened Closures
  import opened Fleet

  /** The weight of the road from a to b. */
  function Hop(c: City, a: NodeID, b: NodeID): real
  {
    var e := EdgeBetween(c, a, b);
    if e.Some? then e.value.weight else 0.0
  }

  /** The length of a route between positions i and j. */
  function Left(c: City, route: seq<NodeID>, i: nat, j: nat): real
    requires j < |route|
    decreases j - i
  {
    if i >= j then 0.0 else Hop(c, route[i], route[i + 1]) + Left(c, route, i + 1, j)
  }

  lemma {:induction false} LeftSplit(c: City, route: seq<NodeID>, i: nat, m: nat, j: nat)
    requires i <= m <= j < |route|
    ensures Left(c, route, i, j) == Left(c, route, i, m) + Left(c, route, m, j)
    decreases m - i
  {
    if i < m {
      LeftSplit(c, route, i + 1, m, j);
    }
  }

  /** Only the hops between i and j matter. */
  lemma {:induction false} LeftShift(c: City, a: seq<NodeID>, i: nat, j: nat, b: seq<NodeID>, m: nat)
    requires i <= j < |a| && j - i + m < |b|
    requires forall k :: i <= k <= j ==> a[k] == b[k - i + m]
    ensures Left(c, a, i, j) == Left(c, b, m, j - i + m)
    decreases j - i
  {
    if i < j {
      LeftShift(c, a, i + 1, j, b, m + 1);
    }
  }

  /** The length of a computed route is its distance. */
  lemma {:induction false} LeftOfWalk(c: City, a: NodeID, es: seq<Edge>, b: NodeID, k: nat)
    requires Streets(c) && IsWalk(c, a, es, b) && k <= |es|
    ensures Left(c, NodesOf(a, es), 0, k) == Length(es[..k])
  {
    hide Streets, IsWalk;
    if k > 0 {
      LeftOfWalk(c, a, es, b, k - 1);
      LeftSplit(c, NodesOf(a, es), 0, k - 1, k);
      WalkHop(c, a, es, b, k - 1);
      LengthStep(es, k - 1);
    }
  }

  lemma RouteLength(c: City, a: NodeID, b: NodeID, r: Route)
    requires Streets(c) && IsRoute(c, a, b, r)
    ensures |r.nodes| > 0 && Left(c, r.nodes, 0, |r.nodes| - 1) == r.distance
  {
    var es: seq<Edge> :| IsWalk(c, a, es, b) && r.nodes == NodesOf(a, es) && r.distance == Length(es);
    assert |NodesOf(a, es)| == |es| + 1;
    assert es[..|es|] == es;
    hide *;
    LeftOfWalk(c, a, es, b, |es|);
  }

  /** The whole trip is as long as its two parts. */
  lemma FullLength(c: City, toPickup: seq<NodeID>, toDestination: seq<NodeID>)
    requires toPickup != [] && toDestination != [] && toPickup[|toPickup| - 1] == toDestination[0]
    ensures var route := FullRoute(toPickup, toDestination);
      Left(c, route, 0, |toPickup| - 1) == Left(c, toPickup, 0, |toPickup| - 1) &&
      Left(c, route, 0, |route| - 1) ==
        Left(c, toPickup, 0, |toPickup| - 1) + Left(c, toDestination, 0, |toDestination| - 1)
  {
    hide Left, Hop;
    var route := FullRoute(toPickup, toDestination);
    var m := |toPickup| - 1;
    LeftShift(c, toPickup, 0, m, route, 0);
    LeftShift(c, toDestination, 0, |toDestination| - 1, route, m);
    LeftSplit(c, route, 0, m, |route| - 1);
  }

  /** Closing and opening roads changes no length. */
  lemma {:induction false} LeftKeeps(c: City, e: Edge, closed: bool, route: seq<NodeID>, i: nat, j: nat)
    requires Streets(c) && HasEdge(c, e) && Symmetric(c) && j < |route|
    ensures Left(BothWays(c, e, closed), route, i, j) == Left(c, route, i, j)
    decreases j - i
  {
    hide Streets, HasEdge, Symmetric, BothWays, EdgeBetween;
    if i < j {
      BothWaysEdge(c, e, closed, route[i], route[i + 1]);
      LeftKeeps(c, e, closed, route, i + 1, j);
    }
  }

  // ---------------------------------------------------------------------------------------------
  // One tick's budget
  // ---------------------------------------------------------------------------------------------

  /** How far a driver is from position j of its route. */
  function To(c: City, d: Driver, j: nat): real
    requires j < |d.route|
  {
    Left(c, d.route, d.routeIndex, j) - d.routeProgress
  }

  /** Part way along the current road, not at its end. */
  ghost predicate OnRoad(c: City, d: Driver)
  {
    d.routeIndex + 1 < |d.route| ==>
      0.0 <= d.routeProgress < Hop(c, d.route[d.routeIndex], d.route[d.routeIndex + 1])
  }

  /** A driver d0 headed for the pickup at position k, having spent some budget and become d: a driver
      still on its route is that much closer to both ends; one that collected or delivered had no
      further to go than that. */
  ghost predicate Gone(c: City, d0: Driver, d: Driver, k: nat, spent: real)
  {
    d0.route != [] &&
    (if d.route == [] then d.status.Idle? && To(c, d0, |d0.route| - 1) <= spent
     else
       d.route == d0.route && d0.routeIndex <= d.routeIndex &&
       To(c, d, |d.route| - 1) == To(c, d0, |d0.route| - 1) - spent) &&
    (d0.status.EnRouteToPickup? ==>
      k < |d0.route| &&
      if d.status.EnRouteToPickup? && d.route != [] then To(c, d, k) == To(c, d0, k) - spent
      else To(c, d0, k) <= spent)
  }

  lemma GoneStart(c: City, d: Driver, k: nat)
    requires d.route != [] && (d.status.EnRouteToPickup? ==> k < |d.route|)
    ensures Gone(c, d, d, k, 0.0)
  {
  }

  /** Budget that does not reach the next node. */
  lemma GoneCreep(c: City, d0: Driver, d: Driver, k: nat, spent: real, budget: real)
    requires Gone(c, d0, d, k, spent) && d.route != [] && budget >= 0.0
    ensures Gone(c, d0, d.(routeProgress := d.routeProgress + budget), k, spent + budget)
  {
  }

  /** Budget that takes the driver over the next node. */
  lemma GoneHop(c: City, d0: Driver, d: Driver, k: nat, spent: real, order: Order, now: real, rerouted: bool)
    requires Gone(c, d0, d, k, spent) && Busy(d) && OnCourse(d, order, rerouted, k) && d.routeIndex + 1 < |d.route|
    requires d == d0 || d.routeProgress <= Hop(c, d.route[d.routeIndex], d.route[d.routeIndex + 1])
    requires Busy(d0)
    ensures var rest := Hop(c, d.route[d.routeIndex], d.route[d.routeIndex + 1]) - d.routeProgress;
      Gone(c, d0, ArrivedDriver(AfterHop(d), order, now), k, spent + rest)
  {
    var rest := Hop(c, d.route[d.routeIndex], d.route[d.routeIndex + 1]) - d.routeProgress;
    var d1 := AfterHop(d);
    CollectsAtLeg(d, order, rerouted, k);
    hide Hop;
    assert To(c, d1, |d.route| - 1) == To(c, d, |d.route| - 1) - rest;
    if d.status.EnRouteToPickup? {
      assert To(c, d1, k) == To(c, d, k) - rest;
    }
  }

  // ---------------------------------------------------------------------------------------------
  // One call of moveDriver
  // ---------------------------------------------------------------------------------------------

  const DRIVER_SPEED := 25.0

  const VIRTUAL_STEP := 1.0

  /** Bounds on the lengths of single roads. */
  ghost predicate Paved(c: City, shortest: real, longest: real)
  {
    0.0 < shortest <= longest &&
    forall n, k :: n in c.edges && 0 <= k < |c.edges[n]| ==> shortest <= c.edges[n][k].weight <= longest
  }

  lemma HopWithin(c: City, a: NodeID, b: NodeID, shortest: real, longest: real)
    requires Paved(c, shortest, longest) && OpenHop(c, a, b)
    ensures shortest <= Hop(c, a, b) <= longest
  {
    var i := FirstToFound(Out(c, a), b);
    assert c.edges[a][i] == EdgeBetween(c, a, b).value;
  }

  /** Between two rounds of the loop: nothing spent yet, just arrived at a node, or all spent. */
  ghost predicate Driving(c: City, d0: Driver, d: Driver, k: nat, budget: real)
  {
    budget >= 0.0 && d0.route != [] && Gone(c, d0, d, k, DRIVER_SPEED - budget) &&
    (d.route != [] ==>
      (d == d0 && budget == DRIVER_SPEED) || (d.routeIndex > d0.routeIndex && d.routeProgress == 0.0) ||
      (budget == 0.0 && OnRoad(c, d)))
  }

  /** With every road at least a tick long, at most one node is passed. */
  ghost predicate OneNode(c: City, d0: Driver, d: Driver, budget: real, shortest: real)
  {
    shortest >= DRIVER_SPEED && OnRoad(c, d0) ==>
      d.route == [] || d.routeIndex == d0.routeIndex ||
      (d.routeIndex == d0.routeIndex + 1 && budget < DRIVER_SPEED && (budget > 0.0 ==> d.routeProgress == 0.0))
  }

  lemma DriveStart(c: City, d: Driver, k: nat, shortest: real)
    requires d.route != [] && (d.status.EnRouteToPickup? ==> k < |d.route|)
    ensures Driving(c, d, d, k, DRIVER_SPEED) && OneNode(c, d, d, DRIVER_SPEED, shortest)
  {
    GoneStart(c, d, k);
  }

  lemma DriveCreep(c: City, d0: Driver, d: Driver, k: nat, budget: real, shortest: real)
    requires Driving(c, d0, d, k, budget) && OneNode(c, d0, d, budget, shortest) && budget > 0.0
    requires d.routeIndex + 1 < |d.route|
    requires budget < Hop(c, d.route[d.routeIndex], d.route[d.routeIndex + 1]) - d.routeProgress
    requires d.routeProgress >= 0.0
    ensures var d' := d.(routeProgress := d.routeProgress + budget);
      Driving(c, d0, d', k, 0.0) && OneNode(c, d0, d', 0.0, shortest)
  {
    hide Gone, Hop;
    GoneCreep(c, d0, d, k, DRIVER_SPEED - budget, budget);
  }

  lemma DriveHop(c: City, d0: Driver, d: Driver, k: nat, budget: real, shortest: real, longest: real,
                 order: Order, now: real, rerouted: bool)
    requires Driving(c, d0, d, k, budget) && OneNode(c, d0, d, budget, shortest) && budget > 0.0
    requires Busy(d0) && Busy(d) && OnCourse(d, order, rerouted, k) && d.routeIndex + 1 < |d.route|
    requires Paved(c, shortest, longest) && OpenHop(c, d.route[d.routeIndex], d.route[d.routeIndex + 1])
    requires budget >= Hop(c, d.route[d.routeIndex], d.route[d.routeIndex + 1]) - d.routeProgress
    ensures var d', budget' := ArrivedDriver(AfterHop(d), order, now),
              budget - (Hop(c, d.route[d.routeIndex], d.route[d.routeIndex + 1]) - d.routeProgress);
      Driving(c, d0, d', k, budget') && OneNode(c, d0, d', budget', shortest)
  {
    HopWithin(c, d.route[d.routeIndex], d.route[d.routeIndex + 1], shortest, longest);
    GoneHop(c, d0, d, k, DRIVER_SPEED - budget, order, now, rerouted);
    var rest := Hop(c, d.route[d.routeIndex], d.route[d.routeIndex + 1]) - d.routeProgress;
    assert DRIVER_SPEED - (budget - rest) == DRIVER_SPEED - budget + rest;
    hide Gone, Hop, OnCourse, Paved, OpenHop;
  }

  /** What one call does to a driver headed for the pickup at position k: 25 units of its route are
      used up, it ends part way along a road, and it passed one node at most if roads are long. */
  ghost predicate Driven(c: City, d0: Driver, d: Driver, k: nat, shortest: real)
  {
    Gone(c, d0, d, k, DRIVER_SPEED) && (d.route != [] ==> OnRoad(c, d)) && OneNode(c, d0, d, 0.0, shortest)
  }

  lemma DriveEnd(c: City, d0: Driver, d: Driver, k: nat, budget: real, shortest: real, longest: real)
    requires Driving(c, d0, d, k, budget) && OneNode(c, d0, d, budget, shortest)
    requires budget == 0.0 || d.route == []
    requires Paved(c, shortest, longest) && ClearFrom(c, d.route, d.routeIndex) && (Busy(d) || d.route == [])
    requires d == d0 ==> budget > 0.0
    ensures Driven(c, d0, d, k, shortest)
  {
    if d.routeIndex + 1 < |d.route| {
      assert OpenHop(c, d.route[d.routeIndex], d.route[d.routeIndex + 1]);
      HopWithin(c, d.route[d.routeIndex], d.route[d.routeIndex + 1], shortest, longest);
    }
  }
}
