/** How long trips take, and what undisturbed runs look like (internal/simulation/simulation.go lines
    929-1002 and 1073-1134). */
module Trips {
  import opened Roads
  import opened Routing
  import opened Domain
  import opened Closures
  import opened Fleet
  import opened Events
  import opened Mirror
  import opened Dispatch
  import opened Travel
  import opened Scenes
  import opened Matching

  /** A distance begun at `since`, with some progress carried over, is covered at time t: at once if there
      is none, at the first step if the progress exceeds it, and otherwise at the first time when 25 units
      a step cover the rest. */
  ghost predicate InTime(distance: real, carried: real, since: real, t: real)
  {
    if distance == 0.0 then t == since
    else if distance <= carried then t == since + VIRTUAL_STEP
    else DRIVER_SPEED * (t - VIRTUAL_STEP - since) < distance - carried <= DRIVER_SPEED * (t - since)
  }

  /** Told the driver's clock, the trip's distances match where the driver is: 25 units of its route
      are behind it for every unit of time, and the progress it carried over besides. */
  ghost predicate Underfoot(c: City, d: Driver, t: Trip, k: nat, clock: real, collected: bool)
  {
    |d.route| > 1 && t.since <= clock && t.total > 0.0 && (t.carried == 0.0 || t.since < clock ==> OnRoad(c, d)) &&
    To(c, d, |d.route| - 1) == t.total - t.carried - DRIVER_SPEED * (clock - t.since) &&
    (!collected ==>
      k < |d.route| && t.toPickup > 0.0 && To(c, d, k) == t.toPickup - t.carried - DRIVER_SPEED * (clock - t.since))
  }

  ghost predicate OnTime(c: City, s: Scene, o: OrderID, t: Trip, clock: real)
  {
    o in s.orders &&
    var order := s.orders[o];
    (Active(order) || order.status.Delivered?) &&
    (Active(order) ==>
      order.assignedDriver.Some? && order.assignedDriver.value in s.drivers &&
      order.assignedDriver.value in s.hist.leg &&
      Underfoot(c, s.drivers[order.assignedDriver.value], t, s.hist.leg[order.assignedDriver.value], clock,
                order.status.EnRoute?)) &&
    t.toPickup >= 0.0 && t.carried >= 0.0 && Whole(t.since) && Whole(t.collected) && Whole(t.delivered) &&
    (!order.status.Assigned? ==> InTime(t.toPickup, t.carried, t.since, t.collected) && t.collected <= clock) &&
    (order.status.Delivered? ==>
      t.total > 0.0 && InTime(t.total, t.carried, t.since, t.delivered) && t.delivered <= clock)
  }

  /** The clock of an active order's driver: one step back for the drivers this tick has not moved yet. */
  ghost function Clock(s: Scene, o: OrderID, now: real, behind: set<DriverID>): real
  {
    if o in s.orders && Active(s.orders[o]) && s.orders[o].assignedDriver.Some? &&
      s.orders[o].assignedDriver.value in behind
    then now - VIRTUAL_STEP else now
  }

  ghost predicate Timed(c: City, s: Scene, now: real, behind: set<DriverID>)
  {
    forall o :: o in s.trips ==> OnTime(c, s, o, s.trips[o], Clock(s, o, now, behind))
  }

  /** The number of steps a distance takes at 25 units a step, with some progress carried over. */
  function StepsFor(distance: real, carried: real): int
  {
    if distance == 0.0 then 0 else if distance <= carried then 1 else Ceiling((distance - carried) / DRIVER_SPEED)
  }

  function Ceiling(x: real): int { -((-x).Floor) }

  lemma FloorIs(y: real, m: int)
    requires m as real <= y < m as real + 1.0
    ensures y.Floor == m
  {
  }

  lemma WholeDifference(since: real, t: real, a: int, b: int)
    requires since == a as real && t == b as real
    ensures t - since == (b - a) as real && since - t == (a - b) as real
  {
  }

  lemma CeilingIs(x: real, since: real, t: real)
    requires Whole(since) && Whole(t)
    ensures x <= t - since < x + 1.0 ==> t - since == Ceiling(x) as real
  {
    var a, b := since.Floor, t.Floor;
    WholeDifference(since, t, a, b);
    if x <= t - since < x + 1.0 { FloorIs(-x, a - b); }
  }

  lemma CeilingAbove(x: real, since: real, t: real)
    requires Whole(since) && Whole(t) && t - since < x
    ensures t - since < Ceiling(x) as real
  {
    var a, b := since.Floor, t.Floor;
    WholeDifference(since, t, a, b);
    assert (-x).Floor as real <= -x;
  }

  /** Covered in time means: after exactly the steps the distance takes. */
  lemma InTimeIs(distance: real, carried: real, since: real, t: real)
    requires Whole(since) && Whole(t) && InTime(distance, carried, since, t)
    ensures t - since == StepsFor(distance, carried) as real
  {
    hide Whole, Ceiling;
    if distance != 0.0 && distance > carried { CeilingIs((distance - carried) / DRIVER_SPEED, since, t); }
  }

  /** The estimate announced with an assignment is kept exactly when carried progress saves no step. */
  lemma EstimateKept(distance: real, carried: real, since: real, collected: real)
    requires Whole(since) && Whole(collected) && 0.0 <= distance && 0.0 <= carried
    requires InTime(distance, carried, since, collected)
    ensures var eta := since + distance / DRIVER_SPEED;
      eta <= collected < eta + 1.0 <==> StepsFor(distance, carried) == Ceiling(distance / DRIVER_SPEED)
  {
    InTimeIs(distance, carried, since, collected);
    hide Whole, InTime, StepsFor;
    var n, x := StepsFor(distance, carried), distance / DRIVER_SPEED;
    CeilingIs(x, since, collected);
    CeilingBounds(x);
  }

  /** With nothing carried over every estimate is kept. */
  lemma NothingCarried(distance: real)
    requires distance >= 0.0
    ensures StepsFor(distance, 0.0) == Ceiling(distance / DRIVER_SPEED)
  {
  }

  lemma CeilingBounds(x: real)
    ensures x <= Ceiling(x) as real < x + 1.0
  {
  }

  // ---------------------------------------------------------------------------------------------
  // Taking, giving up
  // ---------------------------------------------------------------------------------------------

  lemma TakenUnderfoot(c: City, s: Scene, id: DriverID, o: OrderID, toPickup: Route, toDestination: Route, now: real,
                       shortest: real, longest: real)
    requires Streets(c) && Paved(c, shortest, longest) && MayTake(c, s, id, o, toPickup)
    requires Onward(c, s, o, toDestination)
    requires |toPickup.nodes| + |toDestination.nodes| > 2
    ensures toPickup.nodes != [] && toDestination.nodes != []
    ensures var d := TakenDriver(s.drivers[id], o, s.orders[o], FullRoute(toPickup.nodes, toDestination.nodes));
      var t := Trip(now, toPickup.distance, toPickup.distance + toDestination.distance, d.routeProgress, now, now);
      Underfoot(c, d, t, |toPickup.nodes| - 1, now, s.drivers[id].position == s.orders[o].pickup)
    ensures s.drivers[id].position == s.orders[o].pickup ==> toPickup.distance == 0.0
    ensures toPickup.distance >= 0.0
  {
    hide Streets, Paved, ClearFrom, IsBestRoute, Hop, Reachable;
    var a, b := s.drivers[id].position, s.orders[o].pickup;
    BestIsLeg(c, a, b, toPickup);
    BestIsLeg(c, b, s.orders[o].destination, toDestination);
    LeftNonNegative(c, toPickup.nodes, 0, |toPickup.nodes| - 1, shortest, longest);
    FullLength(c, toPickup.nodes, toDestination.nodes);
    TakenIsClear(c, toPickup.nodes, toDestination.nodes);
    var route := FullRoute(toPickup.nodes, toDestination.nodes);
    FirstHop(c, route, shortest, longest);
    LeftPositive(c, route, 0, |route| - 1, shortest, longest);
    if a != b { LeftPositive(c, route, 0, |toPickup.nodes| - 1, shortest, longest); }
  }

  lemma LeftPositive(c: City, route: seq<NodeID>, i: nat, j: nat, shortest: real, longest: real)
    requires ClearFrom(c, route, i) && i < j < |route| && Paved(c, shortest, longest)
    ensures Left(c, route, i, j) > 0.0
  {
    hide OpenHop, Hop;
    assert OpenHop(c, route[i], route[i + 1]);
    HopWithin(c, route[i], route[i + 1], shortest, longest);
    LeftNonNegative(c, route, i + 1, j, shortest, longest);
  }

  lemma FirstHop(c: City, route: seq<NodeID>, shortest: real, longest: real)
    requires ClearFrom(c, route, 0) && |route| > 1 && Paved(c, shortest, longest)
    ensures Hop(c, route[0], route[1]) > 0.0
  {
    assert OpenHop(c, route[0], route[1]);
    HopWithin(c, route[0], route[1], shortest, longest);
  }

  /** The driver of a timed active order is the one that has it. */
  lemma DriverOfTrip(s: Scene, o: OrderID)
    requires Fleet.Matched(s.drivers, s.orders) && o in s.orders && Active(s.orders[o])
    ensures s.orders[o].assignedDriver.Some? && s.orders[o].assignedDriver.value in s.drivers
    ensures s.drivers[s.orders[o].assignedDriver.value].assignedOrder == Some(o)
  {
    assert Owned(o, s.orders[o], s.drivers);
  }

  lemma TakenTimed(c: City, s: Scene, id: DriverID, o: OrderID, toPickup: Route, toDestination: Route, now: real,
                   shortest: real, longest: real)
    requires Streets(c) && Paved(c, shortest, longest) && MayTake(c, s, id, o, toPickup)
    requires Onward(c, s, o, toDestination)
    requires Fleet.Matched(s.drivers, s.orders) && Timed(c, s, now, {}) && Whole(now)
    requires s.drivers[id].routeProgress >= 0.0
    ensures toPickup.nodes != [] && toDestination.nodes != []
    ensures Timed(c, Taken(s, id, o, toPickup, toDestination, now), now, {})
  {
    hide Streets, Paved, Underfoot, IsBestRoute, FullRoute, InTime, Fleet.Matched;
    BestIsLeg(c, s.drivers[id].position, s.orders[o].pickup, toPickup);
    BestIsLeg(c, s.orders[o].pickup, s.orders[o].destination, toDestination);
    var s' := Taken(s, id, o, toPickup, toDestination, now);
    forall x | x in s'.trips
      ensures OnTime(c, s', x, s'.trips[x], Clock(s', x, now, {}))
    {
      if x == o {
        TakenUnderfoot(c, s, id, o, toPickup, toDestination, now, shortest, longest);
        NoDistance(s.drivers[id].routeProgress, now);
      } else {
        assert OnTime(c, s, x, s.trips[x], Clock(s, x, now, {}));
        if Active(s.orders[x]) {
          DriverOfTrip(s, x);
          IdleHasNone(s, id);
        }
      }
    }
  }

  lemma NoDistance(carried: real, now: real)
    ensures InTime(0.0, carried, now, now)
  {
  }

  lemma IdleHasNone(s: Scene, id: DriverID)
    requires Fleet.Matched(s.drivers, s.orders) && id in s.drivers && s.drivers[id].status.Idle?
    ensures s.drivers[id].assignedOrder == None
  {
    assert Engaged(id, s.drivers[id], s.orders);
  }

  lemma GivenUpTimed(c: City, s: Scene, o: OrderID, now: real)
    requires o in s.orders && s.orders[o].status.Pending? && Timed(c, s, now, {})
    ensures Timed(c, GivenUp(s, o), now, {})
  {
    hide Underfoot, InTime;
    var s' := GivenUp(s, o);
    forall x | x in s'.trips
      ensures OnTime(c, s', x, s'.trips[x], Clock(s', x, now, {}))
    {
      assert OnTime(c, s, x, s.trips[x], Clock(s, x, now, {}));
    }
  }

  // ---------------------------------------------------------------------------------------------
  // Moving
  // ---------------------------------------------------------------------------------------------

  lemma {:induction false} LeftNonNegative(c: City, route: seq<NodeID>, i: nat, j: nat, shortest: real, longest: real)
    requires ClearFrom(c, route, i) && j < |route| && Paved(c, shortest, longest)
    ensures Left(c, route, i, j) >= 0.0
    decreases j - i
  {
    hide OpenHop, Hop;
    if i < j {
      assert OpenHop(c, route[i], route[i + 1]);
      HopWithin(c, route[i], route[i + 1], shortest, longest);
      LeftNonNegative(c, route, i + 1, j, shortest, longest);
    }
  }

  /** A driver on its road is short of every later node of its route. */
  lemma NotThereYet(c: City, d: Driver, j: nat, shortest: real, longest: real)
    requires ClearFrom(c, d.route, d.routeIndex) && d.routeIndex < j < |d.route| && Paved(c, shortest, longest)
    requires OnRoad(c, d)
    ensures To(c, d, j) > 0.0
  {
    hide OpenHop, Paved, Hop;
    LeftNonNegative(c, d.route, d.routeIndex + 1, j, shortest, longest);
  }

  /** A trip after its driver's move: the times of what just happened are noted. */
  function Noted(t: Trip, before: Order, after: Order, now: real): Trip
  {
    t.(collected := if before.status.Assigned? && !after.status.Assigned? then now else t.collected,
       delivered := if !before.status.Delivered? && after.status.Delivered? then now else t.delivered)
  }

  function Clocked(s0: Scene, s: Scene, id: DriverID, now: real): map<OrderID, Trip>
    requires id in s0.drivers
  {
    if s0.drivers[id].assignedOrder.Some? then
      var o := s0.drivers[id].assignedOrder.value;
      if o in s.trips && o in s0.orders && o in s.orders then
        s.trips[o := Noted(s.trips[o], s0.orders[o], s.orders[o], now)]
      else s.trips
    else s.trips
  }

  /** One tick's driving keeps an unfinished trip's distances true, and times what it finishes. */
  lemma MovedUnderfoot(c: City, d0: Driver, d: Driver, t: Trip, k: nat, now: real, shortest: real, longest: real,
                       order0: Order, order: Order, o: OrderID, rerouted: bool)
    requires Paved(c, shortest, longest) && ClearFrom(c, d0.route, d0.routeIndex) && Busy(d0)
    requires OnCourse(d0, order0, rerouted, k) && d0.routeIndex + 1 < |d0.route|
    requires Driven(c, d0, d, k, shortest) && SameTrip(d0, d, o, order)
    requires Underfoot(c, d0, t, k, now - VIRTUAL_STEP, d0.status.Delivering?)
    ensures d.route != [] ==> Underfoot(c, d, t, k, now, !(d0.status.EnRouteToPickup? && d.status.EnRouteToPickup?))
    ensures d0.status.EnRouteToPickup? && (d.route == [] || !d.status.EnRouteToPickup?) ==>
      InTime(t.toPickup, t.carried, t.since, now)
    ensures d.route == [] ==> InTime(t.total, t.carried, t.since, now)
  {
    hide Paved, ClearFrom, OpenHop, Hop, OneNode, Left, OnRoad;
    if t.carried == 0.0 || t.since < now - VIRTUAL_STEP {
      NotThereYet(c, d0, |d0.route| - 1, shortest, longest);
      if d0.status.EnRouteToPickup? { NotThereYet(c, d0, k, shortest, longest); }
    }
  }

  lemma MovedTimed(c: City, s0: Scene, s: Scene, line: seq<OrderID>, next: nat, now: real, id: DriverID,
                   shortest: real, longest: real, behind: set<DriverID>)
    requires SceneOk(c, s0, line, next, now, {}) && SceneOk(c, s, line, next, now, {}) && Paved(c, shortest, longest)
    requires id in s0.drivers && MovedOn(c, s0, s, id, shortest) && Timed(c, s0, now, behind) && id in behind
    ensures Timed(c, s.(trips := Clocked(s0, s, id, now)), now, behind - {id})
  {
    hide SceneOk, Paved, MovedOn, OnTime;
    var s' := s.(trips := Clocked(s0, s, id, now));
    forall o | o in s'.trips
      ensures OnTime(c, s', o, s'.trips[o], Clock(s', o, now, behind - {id}))
    {
      MovedKeys(c, s0, s, id, now, shortest);
      assert OnTime(c, s0, o, s0.trips[o], Clock(s0, o, now, behind));
      if s0.drivers[id].assignedOrder == Some(o) {
        OwnTimed(c, s0, s, line, next, now, id, o, shortest, longest, behind);
      } else {
        OtherTimed(c, s0, s, line, next, now, id, o, shortest, behind);
      }
    }
  }

  lemma MovedKeys(c: City, s0: Scene, s: Scene, id: DriverID, now: real, shortest: real)
    requires MovedOn(c, s0, s, id, shortest)
    ensures id in s0.drivers && s.trips == s0.trips && Clocked(s0, s, id, now).Keys == s0.trips.Keys
    ensures forall o :: o in s0.trips && s0.drivers[id].assignedOrder != Some(o) ==>
      Clocked(s0, s, id, now)[o] == s0.trips[o]
  {
    hide Step, SameTrip, Driven, AfterReport;
  }

  lemma OtherTimed(c: City, s0: Scene, s: Scene, line: seq<OrderID>, next: nat, now: real, id: DriverID, o: OrderID,
                   shortest: real, behind: set<DriverID>)
    requires SceneOk(c, s0, line, next, now, {}) && MovedOn(c, s0, s, id, shortest)
    requires o in s0.trips && OnTime(c, s0, o, s0.trips[o], Clock(s0, o, now, behind))
    requires s0.drivers[id].assignedOrder != Some(o)
    ensures OnTime(c, s.(trips := Clocked(s0, s, id, now)), o, s0.trips[o],
                   Clock(s.(trips := Clocked(s0, s, id, now)), o, now, behind - {id}))
  {
    hide Step, SameTrip, Driven, AfterReport, Courses, Deliveries, Line, ClockOk, ClearExcept, Underfoot, InTime,
      Clocked, Fleet.Matched;
    if Active(s0.orders[o]) { DriverOfTrip(s0, o); }
  }

  lemma OwnTimed(c: City, s0: Scene, s: Scene, line: seq<OrderID>, next: nat, now: real, id: DriverID, o: OrderID,
                 shortest: real, longest: real, behind: set<DriverID>)
    requires SceneOk(c, s0, line, next, now, {}) && SceneOk(c, s, line, next, now, {}) && Paved(c, shortest, longest)
    requires MovedOn(c, s0, s, id, shortest) && id in behind
    requires o in s0.trips && OnTime(c, s0, o, s0.trips[o], Clock(s0, o, now, behind))
    requires s0.drivers[id].assignedOrder == Some(o)
    ensures var s' := s.(trips := Clocked(s0, s, id, now));
      o in s'.trips && OnTime(c, s', o, s'.trips[o], Clock(s', o, now, behind - {id}))
  {
    hide SceneOk, Step, Driven, AfterReport, Underfoot, InTime, Paved, OnCourse, ClearFrom;
    var d0, d, t := s0.drivers[id], s.drivers[id], s0.trips[o];
    TripDriver(c, s0, line, next, now, id, o);
    TripAfter(c, s, line, next, now, id, o);
    TimeIsWhole(c, s, line, next, now);
    UnderfootRoad(c, d0, t, s0.hist.leg[id], now - VIRTUAL_STEP, s0.orders[o].status.EnRoute?);
    MovedUnderfoot(c, d0, d, t, s0.hist.leg[id], now, shortest, longest, s0.orders[o], s.orders[o], o,
                   o in s0.hist.rerouted);
    UnderfootTrip(c, d, t, Noted(t, s0.orders[o], s.orders[o], now), s.hist.leg[id], now);
  }

  lemma ProgressKnown(c: City, s: Scene, line: seq<OrderID>, next: nat, now: real, id: DriverID)
    requires SceneOk(c, s, line, next, now, {}) && id in s.drivers
    ensures s.drivers[id].routeProgress >= 0.0
  {
    hide FleetOk, Line, ClearExcept, Whole;
  }

  lemma TimeIsWhole(c: City, s: Scene, line: seq<OrderID>, next: nat, now: real)
    requires SceneOk(c, s, line, next, now, {})
    ensures Whole(now)
  {
    hide FleetOk, Line, ClearExcept, Whole;
  }

  lemma UnderfootRoad(c: City, d: Driver, t: Trip, k: nat, clock: real, collected: bool)
    requires Underfoot(c, d, t, k, clock, collected)
    ensures |d.route| > 1 && t.total > 0.0
  {
  }

  lemma UnderfootTrip(c: City, d: Driver, t: Trip, t': Trip, k: nat, clock: real)
    requires t.since == t'.since && t.toPickup == t'.toPickup && t.total == t'.total && t.carried == t'.carried
    ensures Underfoot(c, d, t, k, clock, true) <==> Underfoot(c, d, t', k, clock, true)
    ensures Underfoot(c, d, t, k, clock, false) <==> Underfoot(c, d, t', k, clock, false)
  {
  }

  lemma TripDriver(c: City, s: Scene, line: seq<OrderID>, next: nat, now: real, id: DriverID, o: OrderID)
    requires SceneOk(c, s, line, next, now, {}) && id in s.drivers && s.drivers[id].assignedOrder == Some(o)
    ensures Busy(s.drivers[id]) && o in s.orders && Active(s.orders[o]) && s.orders[o].assignedDriver == Some(id)
    ensures s.orders[o].status == if s.drivers[id].status.Delivering? then EnRoute else Assigned
    ensures id in s.hist.leg && OnCourse(s.drivers[id], s.orders[o], o in s.hist.rerouted, s.hist.leg[id])
    ensures ClearFrom(c, s.drivers[id].route, s.drivers[id].routeIndex)
    ensures |s.drivers[id].route| > 1 ==> s.drivers[id].routeIndex + 1 < |s.drivers[id].route|
  {
    hide OnCourse, ClearFrom, Line, ClockOk;
    BusyOrder(s.drivers, s.orders, s.hist, id, o);
    EndOfRoad(c, s, line, next, now, id, o);
    assert Engaged(id, s.drivers[id], s.orders);
  }

  lemma TripAfter(c: City, s: Scene, line: seq<OrderID>, next: nat, now: real, id: DriverID, o: OrderID)
    requires SceneOk(c, s, line, next, now, {}) && id in s.drivers
    ensures s.drivers[id].assignedOrder == Some(o) ==>
      o in s.orders && s.orders[o].assignedDriver == Some(id) && Busy(s.drivers[id]) &&
      s.orders[o].status == if s.drivers[id].status.Delivering? then EnRoute else Assigned
  {
    hide Line, ClockOk, ClearExcept;
    assert Engaged(id, s.drivers[id], s.orders);
  }

  /** A trip's order is assigned until the steps to its pickup are over and delivered as soon as the
      steps of the whole route are, not a step earlier or later; until then its driver's distance to
      the end shrinks by 25 units a step. */
  lemma TripStatus(c: City, s: Scene, line: seq<OrderID>, next: nat, now: real, o: OrderID, shortest: real,
                   longest: real)
    requires SceneOk(c, s, line, next, now, {}) && Timed(c, s, now, {}) && Paved(c, shortest, longest) && o in s.trips
    ensures o in s.orders && now >= s.trips[o].since
    ensures var t := s.trips[o];
      (s.orders[o].status.Assigned? <==> now - t.since < StepsFor(t.toPickup, t.carried) as real) &&
      (s.orders[o].status.Delivered? <==> now - t.since >= StepsFor(t.total, t.carried) as real) &&
      (!s.orders[o].status.Assigned? ==> t.collected - t.since == StepsFor(t.toPickup, t.carried) as real) &&
      (s.orders[o].status.Delivered? ==> t.delivered - t.since == StepsFor(t.total, t.carried) as real)
    ensures var t := s.trips[o]; var eta := t.since + t.toPickup / DRIVER_SPEED;
      !s.orders[o].status.Assigned? ==>
        (eta <= t.collected < eta + 1.0 <==> StepsFor(t.toPickup, t.carried) == Ceiling(t.toPickup / DRIVER_SPEED))
    ensures !s.orders[o].status.Delivered? ==>
      Active(s.orders[o]) && s.orders[o].assignedDriver.Some? && s.orders[o].assignedDriver.value in s.drivers &&
      var d, t := s.drivers[s.orders[o].assignedDriver.value], s.trips[o];
      d.route != [] && To(c, d, |d.route| - 1) == t.total - t.carried - DRIVER_SPEED * (now - t.since)
  {
    hide Line, FleetOk, ClearExcept, Underfoot, InTime, StepsFor, Paved, Whole, Ceiling;
    var t, order := s.trips[o], s.orders[o];
    assert OnTime(c, s, o, t, Clock(s, o, now, {}));
    if !order.status.Assigned? {
      InTimeIs(t.toPickup, t.carried, t.since, t.collected);
      EstimateKept(t.toPickup, t.carried, t.since, t.collected);
    }
    if Active(order) {
      UnderWayStatus(c, s, line, next, now, o, shortest, longest);
    } else {
      InTimeIs(t.total, t.carried, t.since, t.delivered);
      StepsPositive(t.total, t.carried);
    }
  }

  lemma StepsPositive(distance: real, carried: real)
    requires distance > 0.0
    ensures StepsFor(distance, carried) >= 1
  {
    if distance > carried { CeilingAbove((distance - carried) / DRIVER_SPEED, 0.0, 0.0); }
  }

  /** A distance not yet covered takes more steps than were made. */
  lemma MoreSteps(distance: real, carried: real, since: real, now: real)
    requires Whole(since) && Whole(now) && since <= now && distance > 0.0
    requires carried == 0.0 || since < now ==> distance - carried - DRIVER_SPEED * (now - since) > 0.0
    ensures now - since < StepsFor(distance, carried) as real
  {
    hide Whole, Ceiling;
    if since == now {
      StepsPositive(distance, carried);
    } else {
      CeilingAbove((distance - carried) / DRIVER_SPEED, since, now);
    }
  }

  lemma UnderWayStatus(c: City, s: Scene, line: seq<OrderID>, next: nat, now: real, o: OrderID, shortest: real,
                       longest: real)
    requires SceneOk(c, s, line, next, now, {}) && Paved(c, shortest, longest) && o in s.trips && o in s.orders
    requires Active(s.orders[o]) && OnTime(c, s, o, s.trips[o], now)
    ensures var t := s.trips[o];
      t.since <= now && now - t.since < StepsFor(t.total, t.carried) as real &&
      (s.orders[o].status.Assigned? ==> now - t.since < StepsFor(t.toPickup, t.carried) as real)
    ensures s.orders[o].assignedDriver.Some? && s.orders[o].assignedDriver.value in s.drivers
    ensures var d, t := s.drivers[s.orders[o].assignedDriver.value], s.trips[o];
      d.route != [] && To(c, d, |d.route| - 1) == t.total - t.carried - DRIVER_SPEED * (now - t.since)
  {
    hide SceneOk, InTime, StepsFor, Paved, Whole, ClearFrom, OnRoad, Left;
    SceneMatched(c, s, line, next, now);
    DriverOfTrip(s, o);
    TimeIsWhole(c, s, line, next, now);
    var id, t := s.orders[o].assignedDriver.value, s.trips[o];
    TripDriver(c, s, line, next, now, id, o);
    var d, k := s.drivers[id], s.hist.leg[id];
    if t.carried == 0.0 || t.since < now {
      NotThereYet(c, d, |d.route| - 1, shortest, longest);
      if s.orders[o].status.Assigned? { NotThereYet(c, d, k, shortest, longest); }
    }
    MoreSteps(t.total, t.carried, t.since, now);
    if s.orders[o].status.Assigned? { MoreSteps(t.toPickup, t.carried, t.since, now); }
  }

  lemma SceneMatched(c: City, s: Scene, line: seq<OrderID>, next: nat, now: real)
    requires SceneOk(c, s, line, next, now, {})
    ensures Fleet.Matched(s.drivers, s.orders)
  {
    hide Fleet.Matched, Line, ClockOk, ClearExcept;
  }

  // ---------------------------------------------------------------------------------------------
  // Undisturbed runs
  // ---------------------------------------------------------------------------------------------

  ghost predicate Connected(c: City)
  {
    forall a, b :: a in c.nodes && b in c.nodes ==> Reachable(c, a, b)
  }

  /** The driver stands at a known node, and waits at it when idle. */
  ghost predicate KnownDriver(c: City, d: Driver)
  {
    d.position in c.nodes && (!Busy(d) ==> d.routeProgress == 0.0)
  }

  /** A driver given an order whose ends are where it stands. */
  ghost predicate Standing(s: Scene, o: OrderID)
  {
    o in s.orders && s.orders[o].assignedDriver.Some? && s.orders[o].assignedDriver.value in s.drivers &&
    |s.drivers[s.orders[o].assignedDriver.value].route| == 1
  }

  /** The order is between known nodes and was not given up; once assigned, its trip is timed, with
      nothing carried over. */
  ghost predicate KnownOrder(c: City, s: Scene, o: OrderID)
    requires o in s.orders
  {
    s.orders[o].pickup in c.nodes && s.orders[o].destination in c.nodes && !s.orders[o].status.Unassignable? &&
    (Active(s.orders[o]) ==> o in s.trips || Standing(s, o)) && (s.orders[o].status.Delivered? ==> o in s.trips) &&
    (o in s.trips ==> s.trips[o].carried == 0.0)
  }

  /** What holds as long as every node can be reached from every other, orders are placed between known
      nodes and no road was closed: nothing is given up, rerouted or lost to the index, every trip is
      timed, and where roads are at least one tick long no move skips a node. */
  ghost predicate Serene(c: City, s: Scene, shortest: real)
  {
    Connected(c) && (forall id :: id in s.drivers ==> KnownDriver(c, s.drivers[id])) &&
    (forall o :: o in s.orders ==> KnownOrder(c, s, o)) && s.lost == {} && s.hist.rerouted == {} &&
    (shortest >= DRIVER_SPEED ==> !s.skipped)
  }

  /** In an undisturbed run both ends of every order can be reached. */
  lemma SereneReaches(c: City, s: Scene, shortest: real, id: DriverID, o: OrderID)
    requires Serene(c, s, shortest) && id in s.drivers && o in s.orders
    ensures Reachable(c, s.drivers[id].position, s.orders[o].pickup)
    ensures Reachable(c, s.orders[o].pickup, s.orders[o].destination)
  {
    hide Reachable;
    assert KnownDriver(c, s.drivers[id]) && KnownOrder(c, s, o);
  }

  lemma TakenSerene(c: City, s: Scene, id: DriverID, o: OrderID, toPickup: Route, toDestination: Route, now: real,
                    shortest: real)
    requires Serene(c, s, shortest) && id in s.drivers && s.drivers[id].status.Idle? && o in s.orders
    requires Fleet.Matched(s.drivers, s.orders) && toPickup.nodes != [] && toDestination.nodes != []
    ensures Serene(c, Taken(s, id, o, toPickup, toDestination, now), shortest)
  {
    hide Connected, Fleet.Matched;
    var s' := Taken(s, id, o, toPickup, toDestination, now);
    assert KnownDriver(c, s.drivers[id]) && KnownOrder(c, s, o);
    forall x | x in s'.orders
      ensures KnownOrder(c, s', x)
    {
      if x != o {
        assert KnownOrder(c, s, x);
        if Active(s.orders[x]) {
          DriverOfTrip(s, x);
          IdleHasNone(s, id);
        }
      }
    }
  }

  /** The nodes of a clear route are known, from its second on. */
  lemma ClearKnown(c: City, route: seq<NodeID>, i: nat, k: nat)
    requires WellFormed(c) && ClearFrom(c, route, i) && i < k < |route|
    ensures route[k] in c.nodes
  {
    assert OpenHop(c, route[k - 1], route[k]);
    var j := FirstToFound(Out(c, route[k - 1]), route[k]);
    assert c.edges[route[k - 1]][j].to == route[k];
  }

  /** A moved driver stands at a node of its route. */
  lemma MovedKnown(c: City, s0: Scene, s: Scene, line: seq<OrderID>, next: nat, now: real, id: DriverID, shortest: real)
    requires WellFormed(c) && SceneOk(c, s0, line, next, now, {}) && SceneOk(c, s, line, next, now, {})
    requires id in s0.drivers && MovedOn(c, s0, s, id, shortest) && KnownDriver(c, s0.drivers[id])
    ensures id in s.drivers && KnownDriver(c, s.drivers[id])
  {
    hide SceneOk, Driven, Step, ClearFrom, AfterReport, OnlyTrip, WellFormed;
    var d0, d := s0.drivers[id], s.drivers[id];
    EndOfRoad(c, s0, line, next, now, id, 0);
    EndOfRoad(c, s, line, next, now, id, 0);
    if d0.routeIndex + 1 < |d0.route| {
      ClearKnown(c, d0.route, d0.routeIndex, |d0.route| - 1);
      if d.route != [] && d.routeIndex > d0.routeIndex {
        ClearKnown(c, d0.route, d0.routeIndex, d.routeIndex);
      }
    }
  }

  /** With long roads an undisturbed driver passes one node at most, so the folds stay in step. */
  lemma MovedInStep(c: City, s0: Scene, s: Scene, now: real, id: DriverID, shortest: real, behind: set<DriverID>)
    requires id in s0.drivers && MovedOn(c, s0, s, id, shortest) && !s0.skipped && shortest >= DRIVER_SPEED
    requires s0.drivers[id].routeIndex + 1 < |s0.drivers[id].route| ==> OnRoad(c, s0.drivers[id])
    ensures !s.skipped
  {
    hide Gone, Step, OnlyTrip, SameTrip, OnRoad;
  }

  lemma TripOnRoad(c: City, s: Scene, line: seq<OrderID>, next: nat, now: real, id: DriverID, behind: set<DriverID>)
    requires SceneOk(c, s, line, next, now, {}) && Timed(c, s, now, behind) && id in s.drivers
    requires s.drivers[id].routeIndex + 1 < |s.drivers[id].route|
    requires s.drivers[id].assignedOrder.Some? && s.drivers[id].assignedOrder.value in s.trips
    requires s.trips[s.drivers[id].assignedOrder.value].carried == 0.0
    ensures OnRoad(c, s.drivers[id])
  {
    hide SceneOk, InTime, OnRoad;
    var o := s.drivers[id].assignedOrder.value;
    TripDriver(c, s, line, next, now, id, o);
    assert OnTime(c, s, o, s.trips[o], Clock(s, o, now, behind));
  }

  /** The order of a moving driver is under way or delivered, and timed. */
  lemma MovedOwn(c: City, s0: Scene, s: Scene, line: seq<OrderID>, next: nat, now: real, id: DriverID, o: OrderID,
                 shortest: real)
    requires SceneOk(c, s0, line, next, now, {}) && SceneOk(c, s, line, next, now, {})
    requires id in s0.drivers && MovedOn(c, s0, s, id, shortest) && s0.drivers[id].assignedOrder == Some(o)
    requires s0.drivers[id].routeIndex + 1 < |s0.drivers[id].route| && o in s0.orders && KnownOrder(c, s0, o)
    ensures o in s0.trips && s0.trips[o].carried == 0.0
    ensures o in s.orders && KnownOrder(c, s.(trips := Clocked(s0, s, id, now)), o)
  {
    hide SceneOk, Driven, AfterReport, OnCourse, ClearFrom;
    TripDriver(c, s0, line, next, now, id, o);
    TripAfter(c, s, line, next, now, id, o);
  }

  lemma MovedOther(c: City, s0: Scene, s: Scene, now: real, id: DriverID, x: OrderID, shortest: real)
    requires id in s0.drivers && MovedOn(c, s0, s, id, shortest) && x in s0.orders && KnownOrder(c, s0, x)
    requires s0.drivers[id].assignedOrder != Some(x) || s0.drivers[id].routeIndex + 1 >= |s0.drivers[id].route|
    ensures x in s.orders && KnownOrder(c, s.(trips := Clocked(s0, s, id, now)), x)
  {
    MovedKeys(c, s0, s, id, now, shortest);
    hide Driven, AfterReport, Step, SameTrip, Clocked;
  }

  lemma MovedSerene(c: City, s0: Scene, s: Scene, line: seq<OrderID>, next: nat, now: real, id: DriverID,
                    shortest: real, behind: set<DriverID>)
    requires WellFormed(c) && SceneOk(c, s0, line, next, now, {}) && SceneOk(c, s, line, next, now, {})
    requires id in s0.drivers && MovedOn(c, s0, s, id, shortest) && Serene(c, s0, shortest) && Timed(c, s0, now, behind)
    ensures Serene(c, s.(trips := Clocked(s0, s, id, now)), shortest)
  {
    hide WellFormed, SceneOk, Timed, Connected, KnownDriver, KnownOrder, Clocked, MovedOn;
    MovedShape(c, s0, s, id, shortest);
    MovedKnown(c, s0, s, line, next, now, id, shortest);
    var d0 := s0.drivers[id];
    if d0.routeIndex + 1 < |d0.route| {
      MovedOwn(c, s0, s, line, next, now, id, d0.assignedOrder.value, shortest);
      TripOnRoad(c, s0, line, next, now, id, behind);
    }
    if shortest >= DRIVER_SPEED { MovedInStep(c, s0, s, now, id, shortest, behind); }
    var s' := s.(trips := Clocked(s0, s, id, now));
    forall x | x in s'.orders
      ensures KnownOrder(c, s', x)
    {
      if d0.assignedOrder != Some(x) || d0.routeIndex + 1 >= |d0.route| { MovedOther(c, s0, s, now, id, x, shortest); }
    }
  }

  lemma MovedShape(c: City, s0: Scene, s: Scene, id: DriverID, shortest: real)
    requires id in s0.drivers && MovedOn(c, s0, s, id, shortest)
    ensures s.drivers.Keys == s0.drivers.Keys && s.orders.Keys == s0.orders.Keys
    ensures forall x :: x in s.drivers && x != id ==> s.drivers[x] == s0.drivers[x]
    ensures s.lost == s0.lost && s.hist.rerouted == s0.hist.rerouted
    ensures s0.drivers[id].routeIndex + 1 < |s0.drivers[id].route| ==>
      s0.drivers[id].assignedOrder.Some? && s0.drivers[id].assignedOrder.value in s0.orders
  {
    hide Driven, AfterReport, SameTrip, Step;
  }

  /** Trips are timed, and the run is undisturbed while it counts as calm. */
  ghost predicate TripsOk(c: City, s: Scene, now: real, calm: bool, shortest: real)
  {
    TripsBehind(c, s, now, {}, calm, shortest)
  }

  /** ... with the clocks of some drivers one step back. */
  ghost predicate TripsBehind(c: City, s: Scene, now: real, behind: set<DriverID>, calm: bool, shortest: real)
  {
    Timed(c, s, now, behind) && (calm ==> Serene(c, s, shortest))
  }

  lemma TripsTaken(c: City, s: Scene, id: DriverID, o: OrderID, toPickup: Route, toDestination: Route, now: real,
                   calm: bool, shortest: real, longest: real)
    requires Streets(c) && Paved(c, shortest, longest) && MayTake(c, s, id, o, toPickup)
    requires Onward(c, s, o, toDestination)
    requires Fleet.Matched(s.drivers, s.orders) && TripsOk(c, s, now, calm, shortest) && Whole(now)
    requires s.drivers[id].routeProgress >= 0.0
    ensures toPickup.nodes != [] && toDestination.nodes != []
    ensures TripsOk(c, Taken(s, id, o, toPickup, toDestination, now), now, calm, shortest)
  {
    hide Streets, Paved, Onward, IsBestRoute, Fleet.Matched, Timed, Serene, Taken;
    TakenTimed(c, s, id, o, toPickup, toDestination, now, shortest, longest);
    if calm { TakenSerene(c, s, id, o, toPickup, toDestination, now, shortest); }
  }

  lemma TripsGivenUp(c: City, s: Scene, o: OrderID, now: real, shortest: real)
    requires o in s.orders && s.orders[o].status.Pending? && TripsOk(c, s, now, false, shortest)
    ensures TripsOk(c, GivenUp(s, o), now, false, shortest)
  {
    hide Timed;
    GivenUpTimed(c, s, o, now);
  }

  lemma NotCalm(c: City, s: Scene, now: real, calm: bool, shortest: real, id: DriverID, o: OrderID)
    requires TripsOk(c, s, now, calm, shortest) && id in s.drivers && o in s.orders
    requires !Reachable(c, s.drivers[id].position, s.orders[o].pickup) ||
      !Reachable(c, s.orders[o].pickup, s.orders[o].destination)
    ensures !calm
  {
    hide Timed, Serene, Reachable;
    if calm { SereneReaches(c, s, shortest, id, o); }
  }

  /** A driver is idle and none reaches the pickup: the run is not calm. */
  lemma NobodyReaches(c: City, s: Scene, now: real, calm: bool, shortest: real, o: OrderID)
    requires TripsOk(c, s, now, calm, shortest) && o in s.orders && HasIdle(s.drivers)
    requires IsNearest(c, s.drivers, s.orders[o].pickup, None)
    ensures !calm
  {
    hide TripsOk, Reachable;
    var id :| id in s.drivers && s.drivers[id].status.Idle?;
    NotCalm(c, s, now, calm, shortest, id, o);
  }

  /** All that committing driver id to order o has to keep. */
  lemma Departs(c: City, s: Scene, line: seq<OrderID>, next: nat, now: real, id: DriverID, o: OrderID,
                toPickup: Route, onward: Route, calm: bool, euclid: (Point, Point) -> real, shortest: real,
                longest: real)
    requires CityOk(c, euclid, shortest, longest) && SceneOk(c, s, line, next, now, {})
    requires TripsOk(c, s, now, calm, shortest)
    requires MayTake(c, s, id, o, toPickup) && Reachable(c, s.orders[o].pickup, s.orders[o].destination)
    requires IsBestRoute(c, s.orders[o].pickup, s.orders[o].destination, onward)
    ensures toPickup.nodes != [] && onward.nodes != [] && Fleet.Matched(s.drivers, s.orders)
    ensures id in s.drivers && o in s.orders && s.drivers[id].status.Idle?
    ensures var s' := Taken(s, id, o, toPickup, onward, now);
      Assigns(c, s, s', id, o, toPickup, now) && SceneOk(c, s', Dropped(line, o), next, now, {}) && Step(s, s') &&
      TripsOk(c, s', now, calm, shortest) && id in s'.drivers && s'.skipped == s.skipped &&
      s'.drivers[id].status == if s.drivers[id].position == s.orders[o].pickup then Delivering else EnRouteToPickup
  {
    CityParts(c, euclid, shortest, longest);
    hide Streets, Reachable, IsBestRoute, Fleet.Matched, ClockOk, Line, ClearExcept, Dropped, TripsOk, Taken, Paved,
      Assigns, SceneOk, CityOk, Step;
    TimeIsWhole(c, s, line, next, now);
    ProgressKnown(c, s, line, next, now, id);
    Begins(c, s, line, next, now, id, o, toPickup, onward);
    TripsTaken(c, s, id, o, toPickup, onward, now, calm, shortest, longest);
    TakenStatus(s, id, o, toPickup, onward, now);
  }

  // ---------------------------------------------------------------------------------------------
  // One tick
  // ---------------------------------------------------------------------------------------------

  /** Time moves on by one step: every driver is one step behind. */
  lemma TickTrips(c: City, s: Scene, now: real, calm: bool, shortest: real)
    requires TripsOk(c, s, now, calm, shortest)
    ensures TripsBehind(c, s, now + VIRTUAL_STEP, s.drivers.Keys, calm, shortest)
  {
    hide Serene, Underfoot, InTime;
    forall o | o in s.trips
      ensures OnTime(c, s, o, s.trips[o], Clock(s, o, now + VIRTUAL_STEP, s.drivers.Keys))
    {
      assert OnTime(c, s, o, s.trips[o], Clock(s, o, now, {}));
    }
  }

  lemma TickScene(c: City, s: Scene, line: seq<OrderID>, next: nat, now: real)
    requires SceneOk(c, s, line, next, now, {})
    ensures SceneOk(c, s, line, next, now + VIRTUAL_STEP, {})
  {
    hide FleetOk, Line, ClearExcept, Whole;
    NextWhole(now);
  }

  lemma NextWhole(now: real)
    requires Whole(now)
    ensures Whole(now + VIRTUAL_STEP)
  {
    FloorIs(now + VIRTUAL_STEP, now.Floor + 1);
  }

  lemma TickTime(tape: Tape, now: real, stale: bool)
    requires TimeOk(tape, now, stale)
    ensures TimeOk(tape, now + VIRTUAL_STEP, true)
  {
  }

  /** A driver's move, with its trip noted, brings its clock up to date. */
  lemma MovedTrips(c: City, s0: Scene, s: Scene, line: seq<OrderID>, next: nat, now: real, id: DriverID,
                   euclid: (Point, Point) -> real, shortest: real, longest: real, behind: set<DriverID>, calm: bool)
    requires CityOk(c, euclid, shortest, longest) && id in s0.drivers && id in behind
    requires SceneOk(c, s0, line, next, now, {}) && SceneOk(c, s, line, next, now, {})
    requires MovedOn(c, s0, s, id, shortest) && TripsBehind(c, s0, now, behind, calm, shortest)
    ensures var s' := s.(trips := Clocked(s0, s, id, now));
      TripsBehind(c, s', now, behind - {id}, calm, shortest) && SceneOk(c, s', line, next, now, {})
  {
    hide FleetOk, ClockOk, Line, ClearExcept, MovedOn, Timed, Serene, Clocked, CityOk, Remembers, Streets, Symmetric,
      Metric, Paved, WellFormed, WeightsBelow, UniqueIds;
    CityParts(c, euclid, shortest, longest);
    MovedTimed(c, s0, s, line, next, now, id, shortest, longest, behind);
    if calm { MovedSerene(c, s0, s, line, next, now, id, shortest, behind); }
    MovedRemembers(c, s0, s, id, shortest, now);
  }

  lemma MovedRemembers(c: City, s0: Scene, s: Scene, id: DriverID, shortest: real, now: real)
    requires id in s0.drivers && MovedOn(c, s0, s, id, shortest) && Remembers(s)
    ensures Remembers(s.(trips := Clocked(s0, s, id, now)))
  {
    hide MovedOn, Clocked;
    MovedKeys(c, s0, s, id, now, shortest);
  }

  /** The driver has no way to go. */
  predicate Parked(d: Driver)
  {
    d.routeIndex + 1 >= |d.route|
  }

  ghost predicate AllParked(drivers: Drivers)
  {
    forall id :: id in drivers ==> Parked(drivers[id])
  }

  // ---------------------------------------------------------------------------------------------
  // What a tick reports
  // ---------------------------------------------------------------------------------------------

  /** The events on the way from d0 to d with order o: it is collected, and it is delivered. */
  ghost function ArrivalPayloads(id: DriverID, o: OrderID, d0: Driver, d: Driver): seq<Payload>
  {
    (if d0.status.EnRouteToPickup? && !d.status.EnRouteToPickup? then [StatusChanged(id, Delivering)] else []) +
    if !d0.status.Idle? && d.status.Idle? then [OrderDelivered(o, id), StatusChanged(id, Idle)] else []
  }

  /** A driver that delivered counts as idle from now on, any other as before. */
  ghost predicate Rested(d0: Driver, d: Driver, now: real)
  {
    d.idleSince == if !d0.status.Idle? && d.status.Idle? then now else d0.idleSince
  }

  /** The driver got from d0 to d with order o, arrivals being reported and nothing else. */
  ghost predicate Arriving(id: DriverID, o: OrderID, d0: Driver, d: Driver, log0: seq<Event>, log: seq<Event>,
                           now: real, cause: Option<string>)
  {
    Adds(log0, log, ArrivalPayloads(id, o, d0, d), now, cause) && Rested(d0, d, now) &&
    (d0.status.Idle? ==> d.status.Idle?) && (d.status.EnRouteToPickup? ==> d0.status.EnRouteToPickup?)
  }

  lemma ArrivingNowhere(id: DriverID, o: OrderID, d: Driver, d': Driver, log: seq<Event>, now: real,
                        cause: Option<string>)
    requires d'.status == d.status && d'.idleSince == d.idleSince
    ensures Arriving(id, o, d, d', log, log, now, cause)
  {
  }

  lemma ArrivingMore(id: DriverID, o: OrderID, a: Driver, b: Driver, c: Driver, log0: seq<Event>, log1: seq<Event>,
                     log2: seq<Event>, now: real, cause: Option<string>)
    requires Arriving(id, o, a, b, log0, log1, now, cause) && Arriving(id, o, b, c, log1, log2, now, cause)
    ensures Arriving(id, o, a, c, log0, log2, now, cause)
  {
    hide Adds;
    AddsMore(log0, log1, log2, ArrivalPayloads(id, o, a, b), ArrivalPayloads(id, o, b, c), now, cause);
    assert ArrivalPayloads(id, o, a, b) + ArrivalPayloads(id, o, b, c) == ArrivalPayloads(id, o, a, c);
  }

  /** handleDriverAtNode reports what the order sees: a driver still to collect ends at the pickup. */
  lemma ArrivingHere(id: DriverID, o: OrderID, d: Driver, order: Order, rerouted: bool, k: nat, log0: seq<Event>,
                     log: seq<Event>, now: real, cause: Option<string>)
    requires Busy(d) && OnCourse(d, order, rerouted, k) && d.routeIndex + 1 < |d.route|
    requires Adds(log0, log, HandledPayloads(id, o, AfterHop(d), order), now, cause)
    ensures Arriving(id, o, d, ArrivedDriver(AfterHop(d), order, now), log0, log, now, cause)
  {
    CollectsAtLeg(d, order, rerouted, k);
    hide Adds, OnCourse, Collects;
    assert HandledPayloads(id, o, AfterHop(d), order) ==
           ArrivalPayloads(id, o, d, ArrivedDriver(AfterHop(d), order, now));
  }

  lemma HopTold(c: City, s: Scene, line: seq<OrderID>, next: nat, now: real, id: DriverID, o: OrderID,
                log0: seq<Event>, log: seq<Event>, cause: Option<string>)
    requires SceneOk(c, s, line, next, now, {}) && AtWork(s, id, o)
    requires s.drivers[id].routeIndex + 1 < |s.drivers[id].route|
    requires Adds(log0, log, HandledPayloads(id, o, AfterHop(s.drivers[id]), s.orders[o]), now, cause)
    ensures AtWork(Hopped(s, id), id, o)
    ensures id in ArrivedScene(Hopped(s, id), id, o, now).drivers
    ensures Arriving(id, o, s.drivers[id], ArrivedScene(Hopped(s, id), id, o, now).drivers[id], log0, log, now, cause)
  {
    hide SceneOk, Adds, HandledPayloads, Arriving, OnCourse, ArrivedScene, Waits, OpenHop;
    ScenePieces(c, s, line, next, now, id, o);
    ArrivedIs(s, id, o, now);
    ArrivingHere(id, o, s.drivers[id], s.orders[o], o in s.hist.rerouted, s.hist.leg[id], log0, log, now, cause);
  }

  /** The events of handleDriverAtNode. */
  ghost function HandledPayloads(id: DriverID, o: OrderID, d: Driver, order: Order): seq<Payload>
  {
    (if Collects(d, order) then [StatusChanged(id, Delivering)] else []) +
    if AtEnd(d) then [OrderDelivered(o, id), StatusChanged(id, Idle)] else []
  }

  lemma HandledIs(id: DriverID, o: OrderID, d: Driver, order: Order, first: seq<Payload>)
    requires first == if Collects(d, order) then [StatusChanged(id, Delivering)] else []
    ensures HandledPayloads(id, o, d, order) ==
      if AtEnd(d) then first + ([OrderDelivered(o, id)] + [StatusChanged(id, Idle)]) else first
  {
    assert first + [] == first;
    assert [OrderDelivered(o, id)] + [StatusChanged(id, Idle)] == [OrderDelivered(o, id), StatusChanged(id, Idle)];
  }

  /** The events of moveDriver: none from a driver with nowhere to go, otherwise its arrivals and then where
      it is. */
  ghost function MovePayloads(id: DriverID, d0: Driver, d: Driver): seq<Payload>
  {
    if Parked(d0) || d0.assignedOrder.None? then []
    else
      ArrivalPayloads(id, d0.assignedOrder.value, d0, d) +
      [PositionUpdated(id, d.position, d.routeIndex, d.routeProgress)]
  }

  /** ... and of these drivers in turn. */
  ghost function DrivePayloads(drivers0: Drivers, drivers: Drivers, ids: seq<DriverID>): seq<Payload>
  {
    if ids == [] then []
    else
      var before, id := DrivePayloads(drivers0, drivers, ids[..|ids| - 1]), ids[|ids| - 1];
      if id in drivers0 && id in drivers then before + MovePayloads(id, drivers0[id], drivers[id]) else before
  }

  lemma {:induction false} DriveSame(drivers0: Drivers, drivers: Drivers, drivers': Drivers, ids: seq<DriverID>)
    requires drivers.Keys == drivers'.Keys && forall x :: x in ids && x in drivers ==> drivers'[x] == drivers[x]
    ensures DrivePayloads(drivers0, drivers', ids) == DrivePayloads(drivers0, drivers, ids)
  {
    hide MovePayloads;
    if ids != [] {
      DriveSame(drivers0, drivers, drivers', ids[..|ids| - 1]);
      assert ids[|ids| - 1] in ids;
    }
  }

  /** The driver's move was reported, and it rests from now on if it delivered. */
  ghost predicate MoveTold(id: DriverID, d0: Driver, d: Driver, log0: seq<Event>, log: seq<Event>, now: real,
                           cause: Option<string>)
  {
    Adds(log0, log, MovePayloads(id, d0, d), now, cause) && Rested(d0, d, now)
  }

  lemma StoodStill(id: DriverID, d: Driver, log: seq<Event>, now: real, cause: Option<string>)
    requires Parked(d)
    ensures MoveTold(id, d, d, log, log, now, cause)
  {
  }

  lemma MoveEnds(id: DriverID, o: OrderID, d0: Driver, d: Driver, log0: seq<Event>, log1: seq<Event>, log: seq<Event>,
                 now: real, cause: Option<string>)
    requires Arriving(id, o, d0, d, log0, log1, now, cause) && !Parked(d0) && d0.assignedOrder == Some(o)
    requires Adds(log1, log, [PositionUpdated(id, d.position, d.routeIndex, d.routeProgress)], now, cause)
    ensures MoveTold(id, d0, d, log0, log, now, cause)
  {
    hide Adds, ArrivalPayloads;
    AddsMore(log0, log1, log, ArrivalPayloads(id, o, d0, d),
             [PositionUpdated(id, d.position, d.routeIndex, d.routeProgress)], now, cause);
  }

  /** The moves of these drivers were reported in turn. */
  ghost predicate DriveTold(drivers0: Drivers, drivers: Drivers, ids: seq<DriverID>, log0: seq<Event>,
                            log: seq<Event>, now: real, cause: Option<string>)
  {
    Adds(log0, log, DrivePayloads(drivers0, drivers, ids), now, cause) && drivers.Keys == drivers0.Keys &&
    forall x :: x in ids && x in drivers0 ==> Rested(drivers0[x], drivers[x], now)
  }

  lemma ToldByAll(drivers0: Drivers, drivers: Drivers, ids: seq<DriverID>, log0: seq<Event>, log: seq<Event>,
                  now: real, cause: Option<string>)
    requires Ascending(ids) && forall x :: x in drivers0.Keys <==> x in ids
    requires DriveTold(drivers0, drivers, ids, log0, log, now, cause)
    ensures AllTold(drivers0, drivers, ids, log0, log, now, cause)
  {
    hide DriveTold, Ascending;
  }

  lemma DriveNobody(drivers: Drivers, log: seq<Event>, now: real, cause: Option<string>)
    ensures DriveTold(drivers, drivers, [], log, log, now, cause)
  {
  }

  lemma DriveOne(drivers0: Drivers, drivers: Drivers, drivers': Drivers, ids: seq<DriverID>, k: nat, log0: seq<Event>,
                 log1: seq<Event>, log: seq<Event>, now: real, cause: Option<string>)
    requires k < |ids| && Ascending(ids) && ids[k] in drivers0
    requires DriveTold(drivers0, drivers, ids[..k], log0, log1, now, cause)
    requires drivers'.Keys == drivers.Keys && drivers[ids[k]] == drivers0[ids[k]]
    requires forall x :: x in drivers && x != ids[k] ==> drivers'[x] == drivers[x]
    requires MoveTold(ids[k], drivers[ids[k]], drivers'[ids[k]], log1, log, now, cause)
    ensures DriveTold(drivers0, drivers', ids[..k + 1], log0, log, now, cause)
  {
    hide Adds, MovePayloads, Rested;
    var done := ids[..k];
    DriveSame(drivers0, drivers, drivers', done);
    AddsMore(log0, log1, log, DrivePayloads(drivers0, drivers, done),
             MovePayloads(ids[k], drivers[ids[k]], drivers'[ids[k]]), now, cause);
    assert ids[..k + 1][..k] == done;
    forall x | x in ids[..k + 1] && x in drivers0
      ensures Rested(drivers0[x], drivers'[x], now)
    {
      if x in done { assert x != ids[k]; }
    }
  }

  /** A tick's driving was reported driver by driver, in order of id. */
  ghost predicate AllTold(drivers0: Drivers, drivers: Drivers, ids: seq<DriverID>, log0: seq<Event>, log: seq<Event>,
                          now: real, cause: Option<string>)
  {
    Ascending(ids) && (forall x :: x in ids <==> x in drivers0) &&
    DriveTold(drivers0, drivers, ids, log0, log, now, cause)
  }

  /** What one tick's driving did to a driver and its order: nothing if it has nowhere to go. */
  ghost predicate Drove(c: City, s0: Scene, s: Scene, id: DriverID, shortest: real)
  {
    id in s0.drivers && id in s.drivers &&
    var d0, d := s0.drivers[id], s.drivers[id];
    if d0.routeIndex + 1 >= |d0.route| then d == d0 && SameOrder(s0, s, d0.assignedOrder)
    else
      d0.assignedOrder.Some? && d0.assignedOrder.value in s.orders && id in s.hist.leg &&
      SameTrip(d0, d, d0.assignedOrder.value, s.orders[d0.assignedOrder.value]) &&
      Driven(c, d0, d, s.hist.leg[id], shortest)
  }

  ghost predicate SameOrder(s0: Scene, s: Scene, o: Option<OrderID>)
  {
    o.Some? && o.value in s0.orders && o.value in s.orders ==> s.orders[o.value] == s0.orders[o.value]
  }

  /** Driver id passed two nodes or more. */
  ghost predicate Skips(s0: Scene, s: Scene, id: DriverID)
  {
    id in s0.drivers && id in s.drivers && s0.drivers[id].routeIndex + 1 < |s0.drivers[id].route| &&
    Skipped(s.drivers[id], s0.drivers[id].routeIndex)
  }

  /** Every driver but those in `rest` drove for one tick; orders not under way did not change, nothing
      was lost or rerouted, and a skipped node was noted. */
  ghost predicate AllDrove(c: City, s0: Scene, s: Scene, rest: set<DriverID>, shortest: real)
  {
    s.drivers.Keys == s0.drivers.Keys && s.orders.Keys == s0.orders.Keys && s.lost == s0.lost &&
    s.hist.rerouted == s0.hist.rerouted && s.trips.Keys == s0.trips.Keys &&
    (s.skipped <==> s0.skipped || exists id :: id !in rest && Skips(s0, s, id)) &&
    (forall id :: id in s0.drivers ==>
      if id in rest then s.drivers[id] == s0.drivers[id] && SameOrder(s0, s, s0.drivers[id].assignedOrder)
      else Drove(c, s0, s, id, shortest)) &&
    (forall o :: o in s0.orders && !Active(s0.orders[o]) ==> s.orders[o] == s0.orders[o])
  }

  lemma NobodyDrove(c: City, s: Scene, shortest: real)
    ensures AllDrove(c, s, s, s.drivers.Keys, shortest)
  {
  }

  lemma OneMoreDrove(c: City, s0: Scene, s: Scene, s': Scene, rest: set<DriverID>, id: DriverID, shortest: real,
                     now: real)
    requires AllDrove(c, s0, s, rest, shortest) && id in rest && id in s.drivers
    requires Fleet.Matched(s0.drivers, s0.orders)
    requires MovedOn(c, s, s', id, shortest)
    ensures AllDrove(c, s0, s'.(trips := Clocked(s, s', id, now)), rest - {id}, shortest)
  {
    MovedShape(c, s, s', id, shortest);
    MovedKeys(c, s, s', id, now, shortest);
    OneMoreSkips(c, s0, s, s', rest, id, shortest, now);
    hide Driven, AfterReport, Step, SameTrip, Clocked, Fleet.Matched, Skips, Drove, SameOrder, MovedOn;
    var t := s'.(trips := Clocked(s, s', id, now));
    forall x | x in s0.drivers
      ensures if x in rest - {id} then t.drivers[x] == s0.drivers[x] && SameOrder(s0, t, s0.drivers[x].assignedOrder)
              else Drove(c, s0, t, x, shortest)
    {
      if x == id { ThisDrove(c, s0, s, s', rest, id, shortest, now); }
      else { OtherDrove(c, s0, s, s', rest, id, x, shortest, now); }
    }
    InactiveStays(c, s0, s, s', rest, id, shortest, now);
  }

  lemma ThisDrove(c: City, s0: Scene, s: Scene, s': Scene, rest: set<DriverID>, id: DriverID, shortest: real, now: real)
    requires AllDrove(c, s0, s, rest, shortest) && id in rest && id in s.drivers && MovedOn(c, s, s', id, shortest)
    ensures Drove(c, s0, s'.(trips := Clocked(s, s', id, now)), id, shortest)
  {
    hide Driven, AfterReport, Step, SameTrip, Clocked, Skips;
    MovedShape(c, s, s', id, shortest);
  }

  lemma OtherDrove(c: City, s0: Scene, s: Scene, s': Scene, rest: set<DriverID>, id: DriverID, x: DriverID,
                   shortest: real, now: real)
    requires AllDrove(c, s0, s, rest, shortest) && id in rest && id in s.drivers && MovedOn(c, s, s', id, shortest)
    requires x in s0.drivers && x != id && Fleet.Matched(s0.drivers, s0.orders)
    ensures var t := s'.(trips := Clocked(s, s', id, now));
      x in t.drivers &&
      if x in rest then t.drivers[x] == s0.drivers[x] && SameOrder(s0, t, s0.drivers[x].assignedOrder)
      else Drove(c, s0, t, x, shortest)
  {
    hide Driven, AfterReport, Step, SameTrip, Clocked, Skips, Fleet.Matched;
    MovedShape(c, s, s', id, shortest);
    OrdersDiffer(s0, x, id);
  }

  lemma InactiveStays(c: City, s0: Scene, s: Scene, s': Scene, rest: set<DriverID>, id: DriverID, shortest: real,
                      now: real)
    requires AllDrove(c, s0, s, rest, shortest) && id in rest && id in s.drivers && MovedOn(c, s, s', id, shortest)
    requires Fleet.Matched(s0.drivers, s0.orders)
    ensures forall o :: o in s0.orders && !Active(s0.orders[o]) ==> o in s'.orders && s'.orders[o] == s0.orders[o]
  {
    hide Driven, AfterReport, Step, SameTrip, Clocked, Skips, Fleet.Matched, Drove, SameOrder;
    MovedShape(c, s, s', id, shortest);
    OwnOrder(s0, id);
  }

  lemma OneMoreSkips(c: City, s0: Scene, s: Scene, s': Scene, rest: set<DriverID>, id: DriverID, shortest: real,
                     now: real)
    requires AllDrove(c, s0, s, rest, shortest) && id in rest && id in s.drivers && MovedOn(c, s, s', id, shortest)
    ensures var t := s'.(trips := Clocked(s, s', id, now));
      t.skipped <==> s0.skipped || exists x :: x !in rest - {id} && Skips(s0, t, x)
  {
    hide Driven, AfterReport, Step, SameTrip, Clocked, Drove, SameOrder;
    MovedShape(c, s, s', id, shortest);
    var t := s'.(trips := Clocked(s, s', id, now));
    assert t.skipped <==> s.skipped || Skips(s0, t, id);
    forall x | x != id
      ensures Skips(s0, t, x) <==> Skips(s0, s, x)
    {
    }
  }

  lemma OrdersDiffer(s: Scene, x: DriverID, id: DriverID)
    requires Fleet.Matched(s.drivers, s.orders) && x in s.drivers && id in s.drivers && x != id
    ensures s.drivers[x].assignedOrder.Some? ==> s.drivers[x].assignedOrder != s.drivers[id].assignedOrder
  {
    assert Engaged(x, s.drivers[x], s.orders) && Engaged(id, s.drivers[id], s.orders);
  }

  lemma OwnOrder(s: Scene, id: DriverID)
    requires Fleet.Matched(s.drivers, s.orders) && id in s.drivers
    ensures s.drivers[id].assignedOrder.Some? ==>
      s.drivers[id].assignedOrder.value in s.orders && Active(s.orders[s.drivers[id].assignedOrder.value])
  {
    assert Engaged(id, s.drivers[id], s.orders);
  }

  lemma NotYetDriven(c: City, s0: Scene, s: Scene, rest: set<DriverID>, id: DriverID, shortest: real)
    requires AllDrove(c, s0, s, rest, shortest) && id in rest && id in s.drivers
    ensures id in s0.drivers && s.drivers[id] == s0.drivers[id]
  {
    hide Drove, Skips;
  }

  lemma MovedOthers(c: City, s: Scene, s': Scene, id: DriverID, shortest: real)
    requires MovedOn(c, s, s', id, shortest)
    ensures s'.drivers.Keys == s.drivers.Keys && forall x :: x in s.drivers && x != id ==> s'.drivers[x] == s.drivers[x]
  {
    hide Driven, SameTrip, AfterReport, Preserved;
  }

  lemma MovedStep(c: City, s0: Scene, s: Scene, s': Scene, id: DriverID, shortest: real, now: real)
    requires Step(s0, s) && MovedOn(c, s, s', id, shortest) && id in s.drivers
    ensures Step(s0, s'.(trips := Clocked(s, s', id, now)))
  {
    hide Driven, SameTrip, OnlyTrip, AfterReport, Clocked, Preserved;
    MovedKeys(c, s, s', id, now, shortest);
    StepSame(s);
    StepTransitive(s0, s, s');
  }

  lemma TellsTrips(t: Tape, town: Town, s: Scene, trips: map<OrderID, Trip>)
    requires Tells(t, town, s, None)
    requires SamePromises(trips, s.trips)
    ensures Tells(t, town, s.(trips := trips), None)
  {
    hide Told, Logged;
    LoggedFewer(s.trips, trips, t.log);
  }

  /** Noting times leaves what a trip was promised. */
  lemma ClockedPromise(s0: Scene, s: Scene, id: DriverID, now: real)
    requires id in s0.drivers
    ensures SamePromises(Clocked(s0, s, id, now), s.trips)
  {
  }

  lemma StepKeys(s: Scene, s': Scene)
    requires Step(s, s')
    ensures s'.drivers.Keys == s.drivers.Keys
  {
  }

  lemma AscendingRest(ids: seq<DriverID>, k: nat)
    requires Ascending(ids) && k < |ids|
    ensures forall x :: x in ids[k + 1..] <==> x in ids[k..] && x != ids[k]
  {
    assert ids[k..] == [ids[k]] + ids[k + 1..];
  }

  // ---------------------------------------------------------------------------------------------
  // Placing an order
  // ---------------------------------------------------------------------------------------------

  function WithOrder(s: Scene, o: OrderID, order: Order): Scene
  {
    s.(orders := s.orders[o := order])
  }

  lemma PlacedOk(c: City, s: Scene, line: seq<OrderID>, next: nat, now: real, order: Order, calm: bool, shortest: real)
    requires SceneOk(c, s, line, next, now, {}) && TripsOk(c, s, now, calm, shortest)
    requires order.status.Pending? && order.createdAt == now && order.assignedDriver == None
    ensures next + 1 !in s.orders
    ensures SceneOk(c, WithOrder(s, next + 1, order), line + [next + 1], next + 1, now, {})
    ensures TripsOk(c, WithOrder(s, next + 1, order), now,
                    calm && order.pickup in c.nodes && order.destination in c.nodes, shortest)
  {
    hide FleetOk, Line, ClearExcept, Timed, Serene, Remembers;
    LineGrow(s.orders, line, next, order);
    PlacedRemembers(s, next + 1, order);
    OrderKeeps(s.drivers, s.orders, s.hist, next + 1, order);
    PlacedTimed(c, s, now, next + 1, order);
    if calm && order.pickup in c.nodes && order.destination in c.nodes {
      PlacedSerene(c, s, shortest, next + 1, order);
    }
  }

  lemma PlacedRemembers(s: Scene, o: OrderID, order: Order)
    requires Remembers(s) && o !in s.orders
    ensures Remembers(WithOrder(s, o, order)) && o !in s.trips
  {
    assert !Begun(s.orders, o);
    forall y | y in s.hist.rerouted || y in s.trips
      ensures Begun(WithOrder(s, o, order).orders, y)
    {
      assert Begun(s.orders, y);
    }
  }

  lemma PlacedTimed(c: City, s: Scene, now: real, o: OrderID, order: Order)
    requires Timed(c, s, now, {}) && o !in s.orders
    ensures Timed(c, WithOrder(s, o, order), now, {})
  {
    hide Underfoot, InTime;
    var s' := WithOrder(s, o, order);
    forall x | x in s'.trips
      ensures OnTime(c, s', x, s'.trips[x], Clock(s', x, now, {}))
    {
      assert OnTime(c, s, x, s.trips[x], Clock(s, x, now, {}));
    }
  }

  lemma PlacedSerene(c: City, s: Scene, shortest: real, o: OrderID, order: Order)
    requires Serene(c, s, shortest) && o !in s.orders && o !in s.trips && order.status.Pending?
    requires order.pickup in c.nodes && order.destination in c.nodes
    ensures Serene(c, WithOrder(s, o, order), shortest)
  {
    hide Connected;
    var s' := WithOrder(s, o, order);
    forall x | x in s'.orders
      ensures KnownOrder(c, s', x)
    {
      if x != o { assert KnownOrder(c, s, x); }
    }
  }

  lemma TellsPlaced(t: Tape, town: Town, s: Scene, e: Event, o: OrderID, order: Order)
    requires Tells(t, town, s, None) && o !in s.orders && e.sequence == |t.log| + 1
    requires e.payload == OrderPlaced(o, order.pickup, order.destination) && order.createdAt == e.time
    requires order.status.Pending? && order.assignedDriver == None
    ensures Tells(Append(t, e), town, WithOrder(s, o, order), None)
  {
    hide Logged, Told, Append;
    LoggedAppend(s.trips, t, e);
    ToldOrder(t, town, s.drivers, s.orders, s.desynced, None, e, o, order);
  }

  lemma PlacedStep(s: Scene, o: OrderID, order: Order)
    requires o !in s.orders
    ensures Step(s, WithOrder(s, o, order)) && o in WithOrder(s, o, order).orders
    ensures WithOrder(s, o, order).orders[o] == order
  {
  }

  lemma PlacedStays(s: Scene, s': Scene, o: OrderID)
    requires Step(s, s') && o in s.orders
    ensures o in s'.orders && s'.orders[o].pickup == s.orders[o].pickup
    ensures s'.orders[o].destination == s.orders[o].destination
  {
  }

  lemma TellsSetting(t: Tape, town: Town, s: Scene, e: Event)
    requires Tells(t, town, s, None) && e.sequence == |t.log| + 1
    ensures e.payload.PausedSet? ==> Tells(Append(t, e), town.(paused := e.payload.paused), s, None)
    ensures e.payload.SpeedSet? ==> Tells(Append(t, e), town.(speed := e.payload.multiplier), s, None)
  {
    hide Logged, Told, Append;
    LoggedAppend(s.trips, t, e);
    ToldSetting(t, town, s.drivers, s.orders, s.desynced, e);
  }

  // ---------------------------------------------------------------------------------------------
  // The beginning of a run
  // ---------------------------------------------------------------------------------------------

  /** Idle drivers at their starting nodes (placeDrivers, lines 271-288). */
  function Placed(home: map<DriverID, NodeID>): Drivers
  {
    map id | id in home :: Driver(home[id], Idle, [], 0, None, 0.0, 0.0)
  }

  function NoHistory(): History { History({}, map[], map[], map[]) }

  /** The part of a scene that is only remembered. */
  datatype Past = Past(hist: History, desynced: set<DriverID>, trips: map<OrderID, Trip>, skipped: bool,
                       lost: set<DriverID>)

  function NoPast(): Past { Past(NoHistory(), {}, map[], false, {}) }

  function FirstScene(home: map<DriverID, NodeID>): Scene
  {
    Scene(Placed(home), map[], NoHistory(), {}, map[], false, {})
  }

  /** A city without dead ends and drivers at known nodes: a calm run can begin. */
  ghost predicate CalmStart(c: City, home: map<DriverID, NodeID>)
  {
    Connected(c) && forall id :: id in home ==> home[id] in c.nodes
  }

  lemma FirstSceneOk(c: City, home: map<DriverID, NodeID>, shortest: real)
    ensures SceneOk(c, FirstScene(home), [], 0, 0.0, {})
    ensures TripsOk(c, FirstScene(home), 0.0, CalmStart(c, home), shortest)
  {
    hide Connected;
    FreshFleet(Placed(home), NoHistory());
    assert forall id :: id in home ==> Placed(home)[id].routeProgress == 0.0;
  }

  lemma TellsSnapshot(t: Tape, town: Town, s: Scene, e: Event)
    requires TapeOk(t) && e.sequence == |t.log| + 1 && town.speed > 0.0 && s.desynced == {} && s.trips == map[]
    requires e.payload.Snapshot? && ShowsRoads(e.payload.edges, town.city)
    requires e.payload.drivers == map d | d in s.drivers :: Shadow(s.drivers[d])
    requires e.payload.orders == map o | o in s.orders :: ShadowOrder(s.orders[o])
    requires e.payload.paused == town.paused && e.payload.speed == town.speed
    ensures Tells(Append(t, e), town, s, None)
  {
    hide Told, Append, ShowsRoads, TapeOk;
    ToldSnapshot(t, town, s.drivers, s.orders, e);
  }

  lemma PlacedKeys(home: map<DriverID, NodeID>)
    ensures Placed(home).Keys == home.Keys
  {
  }

  lemma TellsTape(t: Tape, town: Town, s: Scene)
    requires Tells(t, town, s, None)
    ensures TapeOk(t)
  {
    hide TapeOk, Scalars, Mirrors;
  }
}
