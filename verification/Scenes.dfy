/** The moving parts of a run as one value, and what each step of the actor makes of it
    (internal/simulation/simulation.go lines 484-646 and 781-1134). */
module Scenes {
  import opened Roads
  import opened Routing
  import opened Domain
  import opened Closures
  import opened Events
  import opened Fleet
  import opened Mirror
  import opened Dispatch
  import opened Travel
  import opened Matching
  import Replay
  import WebReplay

  datatype Strategy = NearestFirst | Batched

  /** A city fit for routing, closing roads and driving. */
  ghost predicate CityOk(c: City, euclid: (Point, Point) -> real, shortest: real, longest: real)
  {
    Streets(c) && Symmetric(c) && Metric(c, euclid) && Paved(c, shortest, longest)
  }

  lemma CityParts(c: City, euclid: (Point, Point) -> real, shortest: real, longest: real)
    requires CityOk(c, euclid, shortest, longest)
    ensures WellFormed(c) && Metric(c, euclid) && Streets(c) && Symmetric(c) && Paved(c, shortest, longest)
    ensures UniqueIds(c) && WeightsBelow(c, longest)
  {
  }

  /** The drivers and orders with what is remembered about them; `skipped` is set once a single move has
      passed two nodes or more, and the lost are the idle drivers the index does not know. */
  datatype Scene = Scene(drivers: Drivers, orders: Orders, hist: History, desynced: set<DriverID>,
                         trips: map<OrderID, Trip>, skipped: bool, lost: set<DriverID>)

  /** A trip not rerouted since it began: when its order was assigned, how far its route led to the pickup
      and in all, how much progress its driver carried over from an earlier route, and when the order was
      collected and delivered. */
  datatype Trip = Trip(since: real, toPickup: real, total: real, carried: real, collected: real, delivered: real)

  /** The folds of the log show the scene, and the log has announced every timed trip. */
  ghost predicate Tells(tape: Tape, town: Town, s: Scene, moving: Moving)
  {
    Told(tape, town, s.drivers, s.orders, s.desynced, moving) && Logged(s.trips, tape.log)
  }

  ghost predicate Logged(trips: map<OrderID, Trip>, log: seq<Event>)
  {
    forall o :: o in trips ==> exists k :: Promised(log, k, o, trips[o])
  }

  /** Event k promised order o, when it was assigned, to be collected after its way to the pickup at 25 units
      a unit of time; the event before told the length of the whole route. */
  ghost predicate Promised(log: seq<Event>, k: int, o: OrderID, t: Trip)
  {
    0 < k < |log| && log[k].payload.OrderAssigned? && log[k].payload.order == o && log[k].time == t.since &&
    log[k].payload.pickupEta == t.since + t.toPickup / 25.0 && log[k].payload.pickupDistance == t.toPickup &&
    log[k - 1].payload.RouteComputed? && log[k - 1].payload.driver == log[k].payload.driver &&
    log[k - 1].payload.distance == t.total
  }

  lemma LoggedAppend(trips: map<OrderID, Trip>, t: Tape, e: Event)
    requires Logged(trips, t.log)
    ensures Logged(trips, Append(t, e).log)
  {
    hide Replay.Apply, WebReplay.Apply;
    forall o | o in trips
      ensures exists k :: Promised(Append(t, e).log, k, o, trips[o])
    {
      var k :| Promised(t.log, k, o, trips[o]);
      assert Promised(Append(t, e).log, k, o, trips[o]);
    }
  }

  /** These trips are among those, promised the same. */
  ghost predicate SamePromises(trips': map<OrderID, Trip>, trips: map<OrderID, Trip>)
  {
    trips'.Keys <= trips.Keys && forall o :: o in trips' ==> SamePromise(trips'[o], trips[o])
  }

  predicate SamePromise(t: Trip, u: Trip)
  {
    t.since == u.since && t.toPickup == u.toPickup && t.total == u.total
  }

  lemma LoggedFewer(trips: map<OrderID, Trip>, trips': map<OrderID, Trip>, log: seq<Event>)
    requires Logged(trips, log)
    requires SamePromises(trips', trips)
    ensures Logged(trips', log)
  {
    forall o | o in trips'
      ensures exists k :: Promised(log, k, o, trips'[o])
    {
      var k :| Promised(log, k, o, trips[o]);
      assert Promised(log, k, o, trips'[o]);
    }
  }

  predicate AtWork(s: Scene, id: DriverID, o: OrderID)
  {
    id in s.drivers && o in s.orders && s.drivers[id].assignedOrder == Some(o)
  }

  function Collected(s: Scene, id: DriverID, o: OrderID): Scene
    requires AtWork(s, id, o)
  {
    s.(drivers := s.drivers[id := s.drivers[id].(status := Delivering)],
       orders := s.orders[o := s.orders[o].(status := EnRoute)],
         hist := s.hist.(pickedAt := s.hist.pickedAt[o := s.drivers[id].position]))
  }

  function HandedOver(s: Scene, id: DriverID, o: OrderID): Scene
    requires AtWork(s, id, o)
  {
    s.(orders := s.orders[o := s.orders[o].(status := Delivered)],
       hist := s.hist.(deliveredAt := s.hist.deliveredAt[o := s.drivers[id].position]))
  }

  function Released(s: Scene, id: DriverID, o: OrderID, now: real): Scene
    requires AtWork(s, id, o)
  {
    s.(drivers := s.drivers[id := Freed(s.drivers[id], now)], desynced := s.desynced - {id})
  }

  ghost predicate Waits(s: Scene, id: DriverID, o: OrderID)
  {
    AtWork(s, id, o) && (s.drivers[id].status.EnRouteToPickup? ==> OnlyWaiting(s.orders, id, o))
  }

  function ArrivedScene(s: Scene, id: DriverID, o: OrderID, now: real): Scene
    requires AtWork(s, id, o)
  {
    var s1 := if Collects(s.drivers[id], s.orders[o]) then Collected(s, id, o) else s;
    if AtEnd(s.drivers[id]) then Released(HandedOver(s1, id, o), id, o, now) else s1
  }

  function ArrivedPoints(points: map<DriverID, Point>, c: City, id: DriverID, d: Driver): map<DriverID, Point>
  {
    if AtEnd(d) then points[id := At(c, d.position)] else points
  }

  lemma TellsCollected(t: Tape, town: Town, s: Scene, from: nat, e: Event, id: DriverID, o: OrderID)
    requires Waits(s, id, o) && s.drivers[id].status.EnRouteToPickup? && Tells(t, town, s, Some((id, from)))
    requires e.payload == StatusChanged(id, Delivering) && e.sequence == |t.log| + 1
    ensures Tells(Append(t, e), town, Collected(s, id, o), Some((id, from)))
  {
    hide Logged, Told, Append, OnlyWaiting;
    LoggedAppend(s.trips, t, e);
    ToldDelivering(t, town, s.drivers, s.orders, s.desynced, Some((id, from)), e, id, o);
  }

  lemma TellsHandedOver(t: Tape, town: Town, s: Scene, from: nat, e: Event, id: DriverID, o: OrderID)
    requires AtWork(s, id, o) && Tells(t, town, s, Some((id, from)))
    requires e.payload == OrderDelivered(o, id) && e.sequence == |t.log| + 1
    ensures Tells(Append(t, e), town, HandedOver(s, id, o), Some((id, from)))
  {
    hide Logged, Told, Append;
    LoggedAppend(s.trips, t, e);
    ToldOrder(t, town, s.drivers, s.orders, s.desynced, Some((id, from)), e, o, s.orders[o].(status := Delivered));
  }

  lemma TellsReleased(t: Tape, town: Town, s: Scene, from: nat, e: Event, id: DriverID, o: OrderID, now: real)
    requires AtWork(s, id, o) && Tells(t, town, s, Some((id, from)))
    requires e.payload == StatusChanged(id, Idle) && e.sequence == |t.log| + 1
    ensures Tells(Append(t, e), town, Released(s, id, o, now), Some((id, from)))
  {
    hide Logged, Told, Append;
    LoggedAppend(s.trips, t, e);
    ToldIdle(t, town, s.drivers, s.orders, s.desynced, Some((id, from)), e, id, Freed(s.drivers[id], now));
  }

  // ---------------------------------------------------------------------------------------------
  // What every scene of a run satisfies
  // ---------------------------------------------------------------------------------------------

  ghost predicate SceneOk(c: City, s: Scene, line: seq<OrderID>, next: nat, now: real, except: set<DriverID>)
  {
    FleetOk(s.drivers, s.orders, s.hist) && ClockOk(s.orders, s.drivers, now) && Line(s.orders, line, next) &&
    ClearExcept(c, s.drivers, except) && (!s.skipped ==> s.desynced == {}) && Remembers(s)
  }

  /** Lost drivers are idle; rerouted orders and orders with a trip are not pending. */
  ghost predicate Remembers(s: Scene)
  {
    s.lost <= IdleDrivers(s.drivers) && (forall o :: o in s.hist.rerouted ==> Begun(s.orders, o)) &&
    forall o :: o in s.trips ==> Begun(s.orders, o)
  }

  predicate Begun(orders: Orders, o: OrderID)
  {
    o in orders && !orders[o].status.Pending?
  }

  lemma RemembersUpdate(s: Scene, s': Scene, id: DriverID, o: OrderID)
    requires Remembers(s) && id in s'.drivers && Begun(s'.orders, o)
    requires forall x :: x in s.drivers && x != id ==> x in s'.drivers && s'.drivers[x] == s.drivers[x]
    requires forall y :: y in s.orders && y != o ==> y in s'.orders && s'.orders[y] == s.orders[y]
    requires s'.hist.rerouted <= s.hist.rerouted + {o} && s'.trips.Keys <= s.trips.Keys + {o}
    requires s'.lost <= s.lost + {id} && (id in s'.lost ==> s'.drivers[id].status.Idle?)
    ensures Remembers(s')
  {
    forall d | d in s'.lost
      ensures d in IdleDrivers(s'.drivers)
    {
      if d != id { assert d in IdleDrivers(s.drivers); }
    }
    forall y | y in s'.hist.rerouted || y in s'.trips
      ensures Begun(s'.orders, y)
    {
      if y != o { assert Begun(s.orders, y); }
    }
  }

  /** A driver that was given a one-node route, and its order. */
  ghost predicate Stuck(s: Scene, id: DriverID, o: OrderID)
  {
    id in s.drivers && |s.drivers[id].route| == 1 && s.drivers[id].assignedOrder == Some(o) && o in s.orders
  }

  /** What nothing but a reset does: lose a driver or an order, change a settled order, or move a driver
      on a one-node route. */
  ghost predicate Keeps(s: Scene, s': Scene)
  {
    s'.drivers.Keys == s.drivers.Keys && Preserved(s.orders, s'.orders) &&
    forall id, o :: Stuck(s, id, o) ==> s'.drivers[id] == s.drivers[id] && s'.orders[o] == s.orders[o]
  }

  /** ... and what nothing but closing a road does besides: lose a driver to the index, or turn an order
      into one that was rerouted. */
  ghost predicate Step(s: Scene, s': Scene)
  {
    Keeps(s, s') && s'.lost <= s.lost && s'.hist.rerouted == s.hist.rerouted && s.trips.Keys <= s'.trips.Keys &&
    (s.skipped ==> s'.skipped)
  }

  lemma StepSame(s: Scene)
    ensures Step(s, s)
  {
  }

  lemma KeepsTransitive(a: Scene, b: Scene, c: Scene)
    requires Keeps(a, b) && Keeps(b, c)
    ensures Keeps(a, c)
  {
    PreservedTransitive(a.orders, b.orders, c.orders);
    hide Preserved;
    forall id, o | Stuck(a, id, o)
      ensures c.drivers[id] == a.drivers[id] && c.orders[o] == a.orders[o]
    {
      StillThere(a, b, o);
      assert Stuck(b, id, o);
    }
  }

  lemma KeepsKeys(s: Scene, s': Scene)
    requires Keeps(s, s')
    ensures s'.drivers.Keys == s.drivers.Keys
  {
    hide Preserved, Stuck;
  }

  lemma StillThere(s: Scene, s': Scene, o: OrderID)
    requires Keeps(s, s') && o in s.orders
    ensures o in s'.orders
  {
    hide Stuck;
  }

  lemma StepTransitive(a: Scene, b: Scene, c: Scene)
    requires Step(a, b) && Step(b, c)
    ensures Step(a, c)
  {
    hide Keeps;
    KeepsTransitive(a, b, c);
  }

  /** Changing a driver with no one-node route, and an order that is its own or nobody's, keeps the rest. */
  lemma KeepsUpdate(s: Scene, s': Scene, id: DriverID, o: OrderID)
    requires Matched(s.drivers, s.orders) && id in s.drivers && |s.drivers[id].route| != 1 && o in s.orders
    requires s.drivers[id].assignedOrder == Some(o) || !Active(s.orders[o])
    requires s'.drivers.Keys == s.drivers.Keys && Preserved(s.orders, s'.orders)
    requires forall x :: x in s.drivers && x != id ==> s'.drivers[x] == s.drivers[x]
    requires forall y :: y in s.orders && y != o ==> y in s'.orders && s'.orders[y] == s.orders[y]
    ensures Keeps(s, s')
  {
    hide Preserved;
    forall x, y | Stuck(s, x, y)
      ensures s'.drivers[x] == s.drivers[x] && s'.orders[y] == s.orders[y]
    {
      assert Engaged(x, s.drivers[x], s.orders) && Engaged(id, s.drivers[id], s.orders);
    }
  }

  // ---------------------------------------------------------------------------------------------
  // Moving
  // ---------------------------------------------------------------------------------------------

  function Hopped(s: Scene, id: DriverID): Scene
    requires id in s.drivers && s.drivers[id].routeIndex + 1 < |s.drivers[id].route|
  {
    s.(drivers := s.drivers[id := AfterHop(s.drivers[id])])
  }

  /** The scene after a hop and its handling, in terms of the driver and order that changed. */
  lemma ArrivedIs(s: Scene, id: DriverID, o: OrderID, now: real)
    requires AtWork(s, id, o) && s.drivers[id].routeIndex + 1 < |s.drivers[id].route|
    ensures AtWork(Hopped(s, id), id, o)
    ensures var d, s' := AfterHop(s.drivers[id]), ArrivedScene(Hopped(s, id), id, o, now);
      s'.drivers == s.drivers[id := ArrivedDriver(d, s.orders[o], now)] &&
      s'.orders == s.orders[o := ArrivedOrder(d, s.orders[o])] &&
      s'.hist == ArrivedHistory(d, s.orders[o], o, s.hist) && s'.trips == s.trips && s'.skipped == s.skipped &&
      s'.lost == s.lost && s'.desynced == if AtEnd(d) then s.desynced - {id} else s.desynced
  {
  }

  lemma HopWaits(s: Scene, id: DriverID, o: OrderID)
    requires Matched(s.drivers, s.orders) && id in s.drivers && s.drivers[id].assignedOrder == Some(o)
    requires s.drivers[id].routeIndex + 1 < |s.drivers[id].route|
    ensures AtWork(s, id, o) && Waits(Hopped(s, id), id, o)
  {
    assert Engaged(id, s.drivers[id], s.orders);
    if s.drivers[id].status.EnRouteToPickup? { OnlyWaitingFrom(s.drivers, s.orders, id, o); }
  }

  /** Replacing one driver whose rest of the route is clear keeps the routes clear. */
  lemma ClearUpdate(c: City, drivers: Drivers, except: set<DriverID>, id: DriverID, d: Driver)
    requires ClearExcept(c, drivers, except) && ClearFrom(c, d.route, d.routeIndex) && Varied(d.route)
    ensures ClearExcept(c, drivers[id := d], except)
  {
  }

  lemma HopClear(c: City, d: Driver, order: Order, now: real)
    requires ClearFrom(c, d.route, d.routeIndex) && d.routeIndex + 1 < |d.route|
    ensures OpenHop(c, d.route[d.routeIndex], d.route[d.routeIndex + 1])
    ensures var d' := ArrivedDriver(AfterHop(d), order, now); ClearFrom(c, d'.route, d'.routeIndex)
  {
  }

  lemma ClockUpdate(orders: Orders, drivers: Drivers, now: real, id: DriverID, d: Driver, o: OrderID, order: Order)
    requires ClockOk(orders, drivers, now) && o in orders && order.createdAt == orders[o].createdAt
    requires d.routeProgress >= 0.0 && 0.0 <= d.idleSince <= now
    ensures ClockOk(orders[o := order], drivers[id := d], now)
  {
  }

  lemma PreservedUpdate(orders: Orders, o: OrderID, order: Order)
    requires o in orders && !Settled(orders[o]) && order.pickup == orders[o].pickup
    requires order.destination == orders[o].destination && order.createdAt == orders[o].createdAt
    ensures Preserved(orders, orders[o := order])
  {
  }

  /** A hop and its handling keep all that every scene satisfies. */
  lemma HopKeeps(c: City, s: Scene, line: seq<OrderID>, next: nat, now: real, id: DriverID, o: OrderID)
    requires SceneOk(c, s, line, next, now, {}) && AtWork(s, id, o)
    requires s.drivers[id].routeIndex + 1 < |s.drivers[id].route|
    ensures AtWork(Hopped(s, id), id, o)
    ensures SceneOk(c, ArrivedScene(Hopped(s, id), id, o, now), line, next, now, {})
    ensures Step(s, ArrivedScene(Hopped(s, id), id, o, now))
  {
    hide FleetOk, Line, ClearFrom, Varied, ArrivedScene, ArrivedHistory, Remembers, Keeps;
    var d, order := s.drivers[id], s.orders[o];
    ArrivedIs(s, id, o, now);
    ArriveKeeps(s.drivers, s.orders, s.hist, id, o, now);
    HopClear(c, d, order, now);
    BusyOrder(s.drivers, s.orders, s.hist, id, o);
    var d', order' := ArrivedDriver(AfterHop(d), order, now), ArrivedOrder(AfterHop(d), order);
    ClockUpdate(s.orders, s.drivers, now, id, d', o, order');
    ClearUpdate(c, s.drivers, {}, id, d');
    LineKeeps(s.orders, line, next, o, order');
    HopRemembers(s, id, o, now);
  }

  /** ... and everything remembered. */
  lemma HopRemembers(s: Scene, id: DriverID, o: OrderID, now: real)
    requires FleetOk(s.drivers, s.orders, s.hist) && Remembers(s) && AtWork(s, id, o)
    requires s.drivers[id].routeIndex + 1 < |s.drivers[id].route|
    ensures AtWork(Hopped(s, id), id, o)
    ensures Remembers(ArrivedScene(Hopped(s, id), id, o, now)) && Step(s, ArrivedScene(Hopped(s, id), id, o, now))
  {
    hide ArrivedScene, Remembers, Keeps, Preserved;
    BusyOrder(s.drivers, s.orders, s.hist, id, o);
    var d, order, s' := s.drivers[id], s.orders[o], ArrivedScene(Hopped(s, id), id, o, now);
    ArrivedIs(s, id, o, now);
    ArriveShape(d, order, o, s.hist, now);
    PreservedUpdate(s.orders, o, ArrivedOrder(AfterHop(d), order));
    KeepsUpdate(s, s', id, o);
    NotLost(s, id);
    RemembersUpdate(s, s', id, o);
  }

  lemma NotLost(s: Scene, id: DriverID)
    requires Remembers(s) && id in s.drivers && Busy(s.drivers[id])
    ensures id !in s.lost
  {
  }

  /** The order of a busy driver is under way. */
  lemma BusyOrder(drivers: Drivers, orders: Orders, h: History, id: DriverID, o: OrderID)
    requires FleetOk(drivers, orders, h) && id in drivers && drivers[id].assignedOrder == Some(o)
    ensures Busy(drivers[id]) && o in orders && Active(orders[o])
    ensures orders[o].status == if drivers[id].status.Delivering? then EnRoute else Assigned
    ensures drivers[id].routeIndex < |drivers[id].route|
    ensures drivers[id].route[drivers[id].routeIndex] == drivers[id].position
    ensures id in h.leg && OnCourse(drivers[id], orders[o], o in h.rerouted, h.leg[id])
  {
    assert Engaged(id, drivers[id], orders) && Course(id, drivers[id], orders, h);
  }

  /** Lines 1095-1098: the rest of a tick's budget spent on the way to the next node. */
  function Crept(s: Scene, id: DriverID, budget: real): Scene
    requires id in s.drivers
  {
    s.(drivers := s.drivers[id := s.drivers[id].(routeProgress := s.drivers[id].routeProgress + budget)])
  }

  lemma CreepSceneKeeps(c: City, s: Scene, line: seq<OrderID>, next: nat, now: real, id: DriverID, budget: real)
    requires SceneOk(c, s, line, next, now, {}) && id in s.drivers && budget >= 0.0 && |s.drivers[id].route| > 1
    ensures SceneOk(c, Crept(s, id, budget), line, next, now, {}) && Step(s, Crept(s, id, budget))
  {
    hide FleetOk, Line, ClearFrom, Varied, Stuck;
    CreepKeeps(s.drivers, s.orders, s.hist, id, s.drivers[id].routeProgress + budget);
    ClearUpdate(c, s.drivers, {}, id, s.drivers[id].(routeProgress := s.drivers[id].routeProgress + budget));
    CreepSteps(s, id, budget);
  }

  lemma CreepSteps(s: Scene, id: DriverID, budget: real)
    requires id in s.drivers && |s.drivers[id].route| > 1
    ensures Step(s, Crept(s, id, budget))
  {
  }

  /** A driver d0 busy with an order has become d: still on the same route for the same order, or
      free with the order delivered. */
  ghost predicate SameTrip(d0: Driver, d: Driver, o: OrderID, order: Order)
  {
    d0.assignedOrder == Some(o) &&
    if d.route == [] then
      order.status.Delivered? && d.status.Idle? && d.routeProgress == 0.0 && d0.route != [] &&
      d.position == d0.route[|d0.route| - 1]
    else
      d.assignedOrder == Some(o) && d.route == d0.route && d0.routeIndex <= d.routeIndex &&
      (d0.status.Delivering? ==> d.status.Delivering?)
  }

  /** Only driver id and order o differ between the two scenes. */
  ghost predicate OnlyTrip(s0: Scene, s: Scene, id: DriverID, o: OrderID)
  {
    id in s0.drivers && id in s.drivers && o in s0.orders && o in s.orders &&
    s.drivers == s0.drivers[id := s.drivers[id]] && s.orders == s0.orders[o := s.orders[o]] &&
    s.hist.leg == s0.hist.leg && s.hist.rerouted == s0.hist.rerouted && s.trips == s0.trips
  }

  /** The loop of moveDriver, with `budget` left of driver id's tick. */
  ghost predicate InMotion(c: City, s0: Scene, s: Scene, id: DriverID, o: OrderID, budget: real, shortest: real)
  {
    Step(s0, s) && OnlyTrip(s0, s, id, o) && SameTrip(s0.drivers[id], s.drivers[id], o, s.orders[o]) &&
    Busy(s0.drivers[id]) && id in s.hist.leg && s.skipped == s0.skipped && s.lost == s0.lost &&
    (s.desynced == if s.drivers[id].route == [] then s0.desynced - {id} else s0.desynced) &&
    Driving(c, s0.drivers[id], s.drivers[id], s.hist.leg[id], budget) &&
    OneNode(c, s0.drivers[id], s.drivers[id], budget, shortest)
  }

  lemma MotionStart(c: City, s: Scene, line: seq<OrderID>, next: nat, now: real, id: DriverID, shortest: real)
    requires SceneOk(c, s, line, next, now, {}) && id in s.drivers && s.drivers[id].route != []
    ensures s.drivers[id].assignedOrder.Some?
    ensures InMotion(c, s, s, id, s.drivers[id].assignedOrder.value, DRIVER_SPEED, shortest)
  {
    hide ClearExcept, Line, ClockOk, Driving, OneNode;
    assert Engaged(id, s.drivers[id], s.orders) && Course(id, s.drivers[id], s.orders, s.hist);
    DriveStart(c, s.drivers[id], s.hist.leg[id], shortest);
  }

  lemma MotionHop(c: City, s0: Scene, s: Scene, line: seq<OrderID>, next: nat, now: real, id: DriverID, o: OrderID,
                  budget: real, shortest: real, longest: real)
    requires SceneOk(c, s, line, next, now, {}) && InMotion(c, s0, s, id, o, budget, shortest) && budget > 0.0
    requires Paved(c, shortest, longest) && s.drivers[id].routeIndex + 1 < |s.drivers[id].route|
    requires budget >= Ahead(c, s.drivers[id])
    ensures Waits(Hopped(s, id), id, o)
    ensures var s' := ArrivedScene(Hopped(s, id), id, o, now);
      SceneOk(c, s', line, next, now, {}) && InMotion(c, s0, s', id, o, budget - Ahead(c, s.drivers[id]), shortest)
  {
    hide FleetOk, ClockOk, Line, ClearExcept, ArrivedScene, Driving, OneNode, Waits, Paved, OnCourse, Keeps, OpenHop,
      Hop, ArrivedHistory, Remembers;
    var s', d, order := ArrivedScene(Hopped(s, id), id, o, now), s.drivers[id], s.orders[o];
    ScenePieces(c, s, line, next, now, id, o);
    HopKeeps(c, s, line, next, now, id, o);
    ArrivedIs(s, id, o, now);
    DriveHop(c, s0.drivers[id], d, s.hist.leg[id], budget, shortest, longest, order, now, o in s.hist.rerouted);
    StepTransitive(s0, s, s');
    ArriveShape(d, order, o, s.hist, now);
  }

  /** What is left of the current road. */
  function Ahead(c: City, d: Driver): real
    requires d.routeIndex + 1 < |d.route|
  {
    Hop(c, d.route[d.routeIndex], d.route[d.routeIndex + 1]) - d.routeProgress
  }

  lemma ScenePieces(c: City, s: Scene, line: seq<OrderID>, next: nat, now: real, id: DriverID, o: OrderID)
    requires SceneOk(c, s, line, next, now, {}) && id in s.drivers && s.drivers[id].assignedOrder == Some(o)
    requires s.drivers[id].routeIndex + 1 < |s.drivers[id].route|
    ensures Waits(Hopped(s, id), id, o) && AtWork(s, id, o) && Busy(s.drivers[id]) && id in s.hist.leg
    ensures OnCourse(s.drivers[id], s.orders[o], o in s.hist.rerouted, s.hist.leg[id])
    ensures s.orders[o].status == if s.drivers[id].status.Delivering? then EnRoute else Assigned
    ensures OpenHop(c, s.drivers[id].route[s.drivers[id].routeIndex], s.drivers[id].route[s.drivers[id].routeIndex + 1])
    ensures s.drivers[id].route[s.drivers[id].routeIndex] == s.drivers[id].position
  {
    hide Waits, OnCourse, OpenHop, Line, ClockOk;
    BusyOrder(s.drivers, s.orders, s.hist, id, o);
    HopWaits(s, id, o);
  }

  lemma MotionCreep(c: City, s0: Scene, s: Scene, line: seq<OrderID>, next: nat, now: real, id: DriverID, o: OrderID,
                    budget: real, shortest: real)
    requires SceneOk(c, s, line, next, now, {}) && InMotion(c, s0, s, id, o, budget, shortest) && budget > 0.0
    requires s.drivers[id].routeIndex + 1 < |s.drivers[id].route| && budget < Ahead(c, s.drivers[id])
    ensures SceneOk(c, Crept(s, id, budget), line, next, now, {})
    ensures InMotion(c, s0, Crept(s, id, budget), id, o, 0.0, shortest)
  {
    hide FleetOk, Line, ClearExcept, Driving, OneNode, Keeps, Hop, Remembers;
    CreepSceneKeeps(c, s, line, next, now, id, budget);
    DriveCreep(c, s0.drivers[id], s.drivers[id], s.hist.leg[id], budget, shortest);
    StepTransitive(s0, s, Crept(s, id, budget));
  }

  /** What one call of moveDriver does: nothing to a driver that has nowhere to go; otherwise one tick's
      worth of driving, reported to the folds, which keep up if at most one node was passed. */
  ghost predicate MovedOn(c: City, s0: Scene, s: Scene, id: DriverID, shortest: real)
  {
    id in s0.drivers && id in s.drivers &&
    var d0, d := s0.drivers[id], s.drivers[id];
    if d0.routeIndex + 1 >= |d0.route| then s == s0
    else
      d0.assignedOrder.Some? && Step(s0, s) && OnlyTrip(s0, s, id, d0.assignedOrder.value) &&
      SameTrip(d0, d, d0.assignedOrder.value, s.orders[d0.assignedOrder.value]) &&
      id in s.hist.leg && Driven(c, d0, d, s.hist.leg[id], shortest) &&
      s.desynced == AfterReport(id, d, d0.routeIndex, s0.desynced) &&
      s.skipped == (s0.skipped || Skipped(d, d0.routeIndex)) && s.lost == s0.lost
  }

  /** The scene once a move from route index `from` is reported. */
  ghost function Reported(s: Scene, id: DriverID, from: nat): Scene
    requires id in s.drivers
  {
    s.(desynced := AfterReport(id, s.drivers[id], from, s.desynced),
       skipped := s.skipped || Skipped(s.drivers[id], from))
  }

  /** At the end of the loop the position event can be told. */
  lemma MotionEnd(c: City, s0: Scene, s: Scene, line: seq<OrderID>, next: nat, now: real, id: DriverID, o: OrderID,
                  budget: real, shortest: real, longest: real)
    requires SceneOk(c, s, line, next, now, {}) && InMotion(c, s0, s, id, o, budget, shortest)
    requires budget <= 0.0 || s.drivers[id].routeIndex >= |s.drivers[id].route| - 1
    requires Streets(c) && Paved(c, shortest, longest) && ClearFrom(c, s0.drivers[id].route, s0.drivers[id].routeIndex)
    requires s0.drivers[id].routeIndex + 1 < |s0.drivers[id].route|
    ensures MovedOn(c, s0, Reported(s, id, s0.drivers[id].routeIndex), id, shortest)
    ensures s.drivers[id].route == [] ==> s.drivers[id].routeIndex == 0 && id !in s.desynced
    ensures s.drivers[id].route != [] ==> Underway(s.drivers[id], s0.drivers[id].routeIndex)
  {
    hide FleetOk, Line, ClockOk, OneNode, Keeps, Hop, Streets, Paved, ClearFrom, Driven, ClearExcept, Varied, Remembers;
    var d0, d := s0.drivers[id], s.drivers[id];
    EndOfRoad(c, s, line, next, now, id, o);
    DriveEnd(c, d0, d, s.hist.leg[id], budget, shortest, longest);
    ReportSteps(s0, s, id, d0.routeIndex);
  }

  lemma ReportSteps(s0: Scene, s: Scene, id: DriverID, from: nat)
    requires Step(s0, s) && id in s.drivers
    ensures Step(s0, Reported(s, id, from))
  {
    hide Preserved, AfterReport, Skipped;
  }

  lemma EndOfRoad(c: City, s: Scene, line: seq<OrderID>, next: nat, now: real, id: DriverID, o: OrderID)
    requires SceneOk(c, s, line, next, now, {}) && id in s.drivers
    ensures s.drivers[id].route == [] ==> s.drivers[id].routeIndex == 0 && !Busy(s.drivers[id])
    ensures s.drivers[id].route != [] ==> Busy(s.drivers[id])
    ensures s.drivers[id].route != [] ==> s.drivers[id].routeIndex < |s.drivers[id].route|
    ensures s.drivers[id].route != [] ==> s.drivers[id].route[s.drivers[id].routeIndex] == s.drivers[id].position
    ensures |s.drivers[id].route| > 1 ==> s.drivers[id].routeIndex + 1 < |s.drivers[id].route|
    ensures ClearFrom(c, s.drivers[id].route, s.drivers[id].routeIndex) && Varied(s.drivers[id].route)
  {
    hide ClearFrom, Varied, Line, ClockOk;
    assert Engaged(id, s.drivers[id], s.orders) && Course(id, s.drivers[id], s.orders, s.hist);
  }

  /** The index follows a driver through a hop. */
  lemma IndexArrive(points: map<DriverID, Point>, c: City, s: Scene, lost: set<DriverID>, id: DriverID, o: OrderID,
                    now: real)
    requires IndexShows(points, c, s.drivers, lost) && AtWork(s, id, o) && Busy(s.drivers[id])
    requires s.drivers[id].routeIndex + 1 < |s.drivers[id].route|
    ensures AtWork(Hopped(s, id), id, o)
    ensures IndexShows(ArrivedPoints(points, c, id, AfterHop(s.drivers[id])), c,
                       ArrivedScene(Hopped(s, id), id, o, now).drivers, lost)
  {
    hide IndexShows, ArrivedScene;
    ArrivedIs(s, id, o, now);
    var d := AfterHop(s.drivers[id]);
    var d' := ArrivedDriver(d, s.orders[o], now);
    if AtEnd(d) {
      IndexFree(points, c, s.drivers, lost, id, d');
    } else {
      IndexBusy(points, c, s.drivers, lost, id, d');
    }
  }

  /** Under batching the index shows the idle drivers. */
  ghost predicate Indexes(strategy: Strategy, points: map<DriverID, Point>, c: City, drivers: Drivers,
                          lost: set<DriverID>)
  {
    strategy.Batched? ==> IndexShows(points, c, drivers, lost)
  }

  function Rest(d: Driver): int { |d.route| - d.routeIndex }

  lemma RestKnown(c: City, s: Scene, line: seq<OrderID>, next: nat, now: real, id: DriverID)
    requires SceneOk(c, s, line, next, now, {}) && id in s.drivers
    ensures Rest(s.drivers[id]) >= 0
  {
    EndOfRoad(c, s, line, next, now, id, 0);
  }

  lemma HopShortens(s: Scene, id: DriverID, o: OrderID, now: real)
    requires AtWork(s, id, o) && s.drivers[id].routeIndex + 1 < |s.drivers[id].route|
    ensures AtWork(Hopped(s, id), id, o)
    ensures id in ArrivedScene(Hopped(s, id), id, o, now).drivers
    ensures Rest(ArrivedScene(Hopped(s, id), id, o, now).drivers[id]) < Rest(s.drivers[id])
  {
    hide ArrivedScene;
    ArrivedIs(s, id, o, now);
  }

  /** While on the move a hop may be made without telling the folds. */
  lemma TellsHop(t: Tape, town: Town, s: Scene, id: DriverID, from: nat)
    requires Tells(t, town, s, Some((id, from))) && id in s.drivers
    requires s.drivers[id].routeIndex + 1 < |s.drivers[id].route|
    ensures Tells(t, town, Hopped(s, id), Some((id, from)))
  {
    hide Tells;
    TellsMoving(t, town, s, id, from, AfterHop(s.drivers[id]));
  }

  lemma TellsCreep(t: Tape, town: Town, s: Scene, id: DriverID, from: nat, budget: real)
    requires Tells(t, town, s, Some((id, from))) && id in s.drivers
    ensures Tells(t, town, Crept(s, id, budget), Some((id, from)))
  {
    hide Tells;
    TellsMoving(t, town, s, id, from, s.drivers[id].(routeProgress := s.drivers[id].routeProgress + budget));
  }

  lemma StandsStill(c: City, s: Scene, id: DriverID, shortest: real)
    requires id in s.drivers && s.drivers[id].routeIndex + 1 >= |s.drivers[id].route|
    ensures MovedOn(c, s, s, id, shortest)
  {
  }

  /** A one-node route is what a driver has exactly when it stands where its order begins and ends. */
  lemma StuckIff(c: City, s: Scene, line: seq<OrderID>, next: nat, now: real, id: DriverID, o: OrderID)
    requires SceneOk(c, s, line, next, now, {}) && AtWork(s, id, o)
    ensures Stuck(s, id, o) <==> s.drivers[id].position == s.orders[o].pickup == s.orders[o].destination
  {
    hide Line, ClockOk, ClearExcept;
    BusyOrder(s.drivers, s.orders, s.hist, id, o);
    var d := s.drivers[id];
    if d.status.Delivering? && |d.route| > 1 {
      var rest := d.route[d.routeIndex..];
      assert rest[0] != rest[|rest| - 1];
    }
  }

  /** Such an order stays under way, undelivered, whatever happens short of a reset. */
  lemma StuckStays(c: City, s: Scene, s': Scene, line: seq<OrderID>, next: nat, now: real, id: DriverID, o: OrderID)
    requires SceneOk(c, s, line, next, now, {}) && Keeps(s, s') && Stuck(s, id, o)
    ensures Stuck(s', id, o) && s'.drivers[id] == s.drivers[id] && s'.orders[o] == s.orders[o]
    ensures AtWork(s', id, o) && s'.orders[o].status.EnRoute? && s'.orders[o].assignedDriver == Some(id)
  {
    hide Line, ClockOk, ClearExcept, Preserved;
    BusyOrder(s.drivers, s.orders, s.hist, id, o);
    assert Engaged(id, s.drivers[id], s.orders);
    StillThere(s, s', o);
  }

  lemma TellsStart(t: Tape, town: Town, s: Scene, id: DriverID)
    requires Tells(t, town, s, None) && id in s.drivers && s.drivers[id].route != []
    ensures Tells(t, town, s, Some((id, s.drivers[id].routeIndex)))
  {
    hide Told;
    ToldStart(t, town, s.drivers, s.orders, s.desynced, id, s.drivers[id].routeIndex);
  }

  lemma TellsMoving(t: Tape, town: Town, s: Scene, id: DriverID, from: nat, d: Driver)
    requires Tells(t, town, s, Some((id, from))) && id in s.drivers
    requires d.status == s.drivers[id].status && d.route == s.drivers[id].route
    requires d.assignedOrder == s.drivers[id].assignedOrder
    ensures Tells(t, town, s.(drivers := s.drivers[id := d]), Some((id, from)))
  {
    hide Told;
    ToldMoving(t, town, s.drivers, s.orders, s.desynced, id, from, d);
  }

  /** The next road of a driver that has one is there and open. */
  lemma RoadAhead(c: City, s: Scene, line: seq<OrderID>, next: nat, now: real, id: DriverID)
    requires SceneOk(c, s, line, next, now, {}) && id in s.drivers
    requires s.drivers[id].routeIndex + 1 < |s.drivers[id].route|
    ensures var d := s.drivers[id];
      var e := EdgeBetween(c, d.position, d.route[d.routeIndex + 1]);
      e.Some? && !e.value.closed && e.value.weight - d.routeProgress == Ahead(c, d)
  {
    EndOfRoad(c, s, line, next, now, id, 0);
    var d := s.drivers[id];
    assert OpenHop(c, d.route[d.routeIndex], d.route[d.routeIndex + 1]);
  }

  lemma ReportedInStep(s: Scene, id: DriverID, from: nat)
    requires id in s.drivers && (!s.skipped ==> s.desynced == {})
    ensures !Reported(s, id, from).skipped ==> Reported(s, id, from).desynced == {}
  {
  }

  lemma TellsPosition(t: Tape, town: Town, s0: Scene, s: Scene, line: seq<OrderID>, next: nat, now: real, e: Event,
                      id: DriverID, o: OrderID, budget: real, euclid: (Point, Point) -> real, shortest: real,
                      longest: real)
    requires id in s.drivers && id in s0.drivers && Tells(t, town, s, Some((id, s0.drivers[id].routeIndex)))
    requires e.payload.PositionUpdated? && e.payload.driver == id && e.payload.node == s.drivers[id].position
    requires e.sequence == |t.log| + 1
    requires CityOk(town.city, euclid, shortest, longest) && SceneOk(town.city, s0, line, next, now, {})
    requires SceneOk(town.city, s, line, next, now, {}) && InMotion(town.city, s0, s, id, o, budget, shortest)
    requires budget <= 0.0 || s.drivers[id].routeIndex >= |s.drivers[id].route| - 1
    requires s0.drivers[id].routeIndex + 1 < |s0.drivers[id].route|
    ensures var s' := Reported(s, id, s0.drivers[id].routeIndex);
      Tells(Append(t, e), town, s', None) && SceneOk(town.city, s', line, next, now, {}) &&
      MovedOn(town.city, s0, s', id, shortest)
  {
    hide Logged, Told, Append, InMotion, MovedOn, AfterReport, Underway, FleetOk, ClockOk, Line, ClearExcept;
    LoggedAppend(s.trips, t, e);
    CityParts(town.city, euclid, shortest, longest);
    hide CityOk;
    ReportedInStep(s, id, s0.drivers[id].routeIndex);
    EndOfRoad(town.city, s0, line, next, now, id, o);
    MotionEnd(town.city, s0, s, line, next, now, id, o, budget, shortest, longest);
    ToldPosition(t, town, s.drivers, s.orders, s.desynced, e, id, s0.drivers[id].routeIndex);
  }

  /** A driver with road ahead is at work on the order it started out with. */
  lemma StillAtWork(c: City, s0: Scene, s: Scene, line: seq<OrderID>, next: nat, now: real, id: DriverID, o: OrderID,
                    budget: real, shortest: real)
    requires SceneOk(c, s, line, next, now, {}) && InMotion(c, s0, s, id, o, budget, shortest)
    requires s.drivers[id].routeIndex + 1 < |s.drivers[id].route|
    ensures AtWork(s, id, o) && Busy(s.drivers[id])
  {
    hide ClearExcept, Line, ClockOk, Driving, OneNode, Keeps;
    EndOfRoad(c, s, line, next, now, id, o);
  }

  lemma IndexesArrive(strategy: Strategy, points: map<DriverID, Point>, c: City, s: Scene,
                      id: DriverID, o: OrderID, now: real, points': map<DriverID, Point>)
    requires Indexes(strategy, points, c, s.drivers, s.lost) && AtWork(s, id, o) && Busy(s.drivers[id])
    requires s.drivers[id].routeIndex + 1 < |s.drivers[id].route|
    requires strategy.Batched? ==> points' == ArrivedPoints(points, c, id, Hopped(s, id).drivers[id])
    ensures AtWork(Hopped(s, id), id, o)
    ensures var s' := ArrivedScene(Hopped(s, id), id, o, now); Indexes(strategy, points', c, s'.drivers, s'.lost)
  {
    hide IndexShows, ArrivedScene, ArrivedPoints;
    ArrivedIs(s, id, o, now);
    if strategy.Batched? {
      IndexArrive(points, c, s, s.lost, id, o, now);
    }
  }

  lemma IndexesCreep(strategy: Strategy, points: map<DriverID, Point>, c: City, s: Scene,
                     id: DriverID, budget: real)
    requires Indexes(strategy, points, c, s.drivers, s.lost) && id in s.drivers && Busy(s.drivers[id])
    ensures Indexes(strategy, points, c, Crept(s, id, budget).drivers, s.lost)
  {
    hide IndexShows;
    if strategy.Batched? {
      IndexBusy(points, c, s.drivers, s.lost, id, Crept(s, id, budget).drivers[id]);
    }
  }

  // ---------------------------------------------------------------------------------------------
  // Taking an order
  // ---------------------------------------------------------------------------------------------

  /** The line without order o. */
  function Dropped(line: seq<OrderID>, o: OrderID): seq<OrderID>
  {
    if line == [] then []
    else Dropped(line[..|line| - 1], o) + if line[|line| - 1] == o then [] else [line[|line| - 1]]
  }

  lemma {:induction false} DroppedIs(line: seq<OrderID>, o: OrderID)
    requires forall i, j :: 0 <= i < j < |line| ==> line[i] < line[j]
    ensures var rest := Dropped(line, o);
      (forall i, j :: 0 <= i < j < |rest| ==> rest[i] < rest[j]) && forall x :: x in rest <==> x in line && x != o
  {
    if line != [] {
      var shorter := line[..|line| - 1];
      DroppedIs(shorter, o);
      assert line == shorter + [line[|line| - 1]];
      forall i | 0 <= i < |Dropped(shorter, o)|
        ensures Dropped(shorter, o)[i] < line[|line| - 1]
      {
        assert Dropped(shorter, o)[i] in Dropped(shorter, o);
      }
    }
  }

  /** An order that is no longer pending leaves the line. */
  lemma LineDropped(orders: Orders, line: seq<OrderID>, next: nat, o: OrderID, order: Order)
    requires Line(orders, line, next) && o in orders && !order.status.Pending?
    ensures Line(orders[o := order], Dropped(line, o), next)
  {
    DroppedIs(line, o);
  }

  /** Lines 834-840, 901-909 and 932-938: a pending order is given up. */
  function GivenUp(s: Scene, o: OrderID): Scene
    requires o in s.orders
  {
    s.(orders := s.orders[o := s.orders[o].(status := Unassignable)])
  }

  lemma GiveUpKeeps(c: City, s: Scene, line: seq<OrderID>, next: nat, now: real, o: OrderID)
    requires SceneOk(c, s, line, next, now, {}) && o in s.orders && s.orders[o].status.Pending?
    ensures SceneOk(c, GivenUp(s, o), Dropped(line, o), next, now, {}) && Step(s, GivenUp(s, o))
  {
    hide FleetOk, Line, ClearExcept, Keeps, Remembers;
    OrderKeeps(s.drivers, s.orders, s.hist, o, s.orders[o].(status := Unassignable));
    LineDropped(s.orders, line, next, o, s.orders[o].(status := Unassignable));
    GiveUpSteps(s, o);
  }

  lemma GiveUpSteps(s: Scene, o: OrderID)
    requires FleetOk(s.drivers, s.orders, s.hist) && Remembers(s) && o in s.orders && s.orders[o].status.Pending?
    ensures Remembers(GivenUp(s, o)) && Step(s, GivenUp(s, o))
  {
    hide Courses, Deliveries, Preserved;
    PreservedUpdate(s.orders, o, s.orders[o].(status := Unassignable));
    forall id, y | Stuck(s, id, y)
      ensures y != o
    {
      assert Engaged(id, s.drivers[id], s.orders);
    }
  }

  lemma TellsGivenUp(t: Tape, town: Town, s: Scene, e: Event, o: OrderID)
    requires Tells(t, town, s, None) && o in s.orders && e.payload == OrderUnassignable(o) && e.sequence == |t.log| + 1
    ensures Tells(Append(t, e), town, GivenUp(s, o), None)
  {
    hide Logged, Told, Append;
    LoggedAppend(s.trips, t, e);
    ToldOrder(t, town, s.drivers, s.orders, s.desynced, None, e, o, s.orders[o].(status := Unassignable));
  }

  /** The trip of driver d with order o along both legs, timed unless it has nowhere to go. */
  function TakenTrips(trips: map<OrderID, Trip>, d: Driver, o: OrderID, toPickup: Route, toDestination: Route,
                      now: real): map<OrderID, Trip>
  {
    if |toPickup.nodes| + |toDestination.nodes| > 2 then
      trips[o := Trip(now, toPickup.distance, toPickup.distance + toDestination.distance, d.routeProgress, now, now)]
    else trips - {o}
  }

  /** Lines 941-962: driver id has order o and a route over both legs. */
  function Taken(s: Scene, id: DriverID, o: OrderID, toPickup: Route, toDestination: Route, now: real): Scene
    requires id in s.drivers && o in s.orders && toPickup.nodes != [] && toDestination.nodes != []
  {
    var d, order := s.drivers[id], s.orders[o];
    s.(drivers := s.drivers[id := TakenDriver(d, o, order, FullRoute(toPickup.nodes, toDestination.nodes))],
       orders := s.orders[o := TakenOrder(d, id, order)],
       hist := TakenHistory(d, id, o, order, |toPickup.nodes| - 1, s.hist),
       desynced := s.desynced - {id}, lost := s.lost - {id},
       trips := TakenTrips(s.trips, d, o, toPickup, toDestination, now))
  }

  lemma BestIsLeg(c: City, a: NodeID, b: NodeID, r: Route)
    requires Streets(c) && IsBestRoute(c, a, b, r)
    ensures r.nodes != [] && r.nodes[0] == a && r.nodes[|r.nodes| - 1] == b && Distinct(r.nodes)
    ensures ClearFrom(c, r.nodes, 0) && Left(c, r.nodes, 0, |r.nodes| - 1) == r.distance
  {
    hide Streets, ClearFrom, Left, IsRoute, Distinct;
    RouteIsClear(c, a, b, r);
    RouteLength(c, a, b, r);
  }

  /** Driver id may take order o: it is idle, the order is waiting and both legs are shortest routes. */
  ghost predicate MayTake(c: City, s: Scene, id: DriverID, o: OrderID, toPickup: Route)
  {
    id in s.drivers && s.drivers[id].status.Idle? && o in s.orders && s.orders[o].status.Pending? &&
    IsBestRoute(c, s.drivers[id].position, s.orders[o].pickup, toPickup)
  }

  ghost predicate Onward(c: City, s: Scene, o: OrderID, toDestination: Route)
  {
    o in s.orders && IsBestRoute(c, s.orders[o].pickup, s.orders[o].destination, toDestination)
  }

  /** A driver gets a one-node route exactly when it is given an order that begins and ends where it
      stands. */
  lemma TakenStuck(c: City, s: Scene, id: DriverID, o: OrderID, toPickup: Route, toDestination: Route, now: real)
    requires Streets(c) && MayTake(c, s, id, o, toPickup) && Onward(c, s, o, toDestination)
    ensures toPickup.nodes != [] && toDestination.nodes != []
    ensures Stuck(Taken(s, id, o, toPickup, toDestination, now), id, o) <==>
      s.drivers[id].position == s.orders[o].pickup == s.orders[o].destination
  {
    hide Streets, ClearFrom, Left, IsBestRoute, TakenHistory, TakenTrips;
    var a, b, z := s.drivers[id].position, s.orders[o].pickup, s.orders[o].destination;
    BestIsLeg(c, a, b, toPickup);
    BestIsLeg(c, b, z, toDestination);
    if a == b { assert toPickup.nodes[0] == toPickup.nodes[|toPickup.nodes| - 1]; }
    if b == z { assert toDestination.nodes[0] == toDestination.nodes[|toDestination.nodes| - 1]; }
  }

  lemma TakeSceneKeeps(c: City, s: Scene, line: seq<OrderID>, next: nat, now: real, id: DriverID, o: OrderID,
                       toPickup: Route, toDestination: Route)
    requires Streets(c) && SceneOk(c, s, line, next, now, {})
    requires MayTake(c, s, id, o, toPickup) && Onward(c, s, o, toDestination)
    ensures toPickup.nodes != [] && toDestination.nodes != []
    ensures SceneOk(c, Taken(s, id, o, toPickup, toDestination, now), Dropped(line, o), next, now, {})
    ensures Step(s, Taken(s, id, o, toPickup, toDestination, now))
  {
    hide Streets, FleetOk, Line, ClearFrom, Varied, IsBestRoute, FullRoute, Distinct, TakenHistory, TakenTrips, Keeps,
      Remembers;
    var d, order := s.drivers[id], s.orders[o];
    BestIsLeg(c, d.position, order.pickup, toPickup);
    BestIsLeg(c, order.pickup, order.destination, toDestination);
    TakeKeeps(s.drivers, s.orders, s.hist, id, o, toPickup.nodes, toDestination.nodes);
    TakenIsClear(c, toPickup.nodes, toDestination.nodes);
    TakenIsVaried(toPickup.nodes, toDestination.nodes);
    var d', order' := TakenDriver(d, o, order, FullRoute(toPickup.nodes, toDestination.nodes)),
      TakenOrder(d, id, order);
    ClearUpdate(c, s.drivers, {}, id, d');
    ClockUpdate(s.orders, s.drivers, now, id, d', o, order');
    LineDropped(s.orders, line, next, o, order');
    TakeSteps(s, id, o, toPickup, toDestination, now);
  }

  lemma TakeSteps(s: Scene, id: DriverID, o: OrderID, toPickup: Route, toDestination: Route, now: real)
    requires FleetOk(s.drivers, s.orders, s.hist) && Remembers(s) && id in s.drivers && s.drivers[id].status.Idle?
    requires o in s.orders && s.orders[o].status.Pending? && toPickup.nodes != [] && toDestination.nodes != []
    ensures Remembers(Taken(s, id, o, toPickup, toDestination, now))
    ensures Step(s, Taken(s, id, o, toPickup, toDestination, now))
  {
    hide Courses, Deliveries, FullRoute, Preserved, Keeps;
    assert Engaged(id, s.drivers[id], s.orders);
    var s' := Taken(s, id, o, toPickup, toDestination, now);
    PreservedUpdate(s.orders, o, s'.orders[o]);
    assert !Begun(s.orders, o);
    KeepsUpdate(s, s', id, o);
    RemembersUpdate(s, s', id, o);
  }

  /** What an assignment adds to the log: the whole route with its length, the estimated time of arrival
      at the pickup at 25 units per unit of time, and the driver's new status. */
  function AssignmentPayloads(id: DriverID, o: OrderID, toPickup: Route, toDestination: Route, status: DriverStatus,
                              now: real): seq<Payload>
    requires toDestination.nodes != []
  {
    [RouteComputed(id, FullRoute(toPickup.nodes, toDestination.nodes), toPickup.distance + toDestination.distance),
     OrderAssigned(o, id, now + toPickup.distance / 25.0, toPickup.distance), StatusChanged(id, status)]
  }

  /** The three events of an assignment, in the order they are emitted. */
  ghost predicate Announces(s: Scene, id: DriverID, o: OrderID, route: seq<NodeID>, length: real, toPickup: real,
                            now: real, e1: Event, e2: Event, e3: Event)
  {
    id in s.drivers && o in s.orders && e1.payload == RouteComputed(id, route, length) &&
    e2.payload == OrderAssigned(o, id, now + toPickup / 25.0, toPickup) && e2.time == now &&
    e3.payload == StatusChanged(id, if s.drivers[id].position == s.orders[o].pickup then Delivering
                                    else EnRouteToPickup)
  }

  /** The new trip was announced, and the others still are. */
  lemma LoggedTaken(t: Tape, trips: map<OrderID, Trip>, d: Driver, id: DriverID, o: OrderID, toPickup: Route,
                    toDestination: Route, now: real, e1: Event, e2: Event, e3: Event)
    requires Logged(trips, t.log) && e1.payload.RouteComputed? && e1.payload.driver == id
    requires e1.payload.distance == toPickup.distance + toDestination.distance && e2.time == now
    requires e2.payload == OrderAssigned(o, id, now + toPickup.distance / 25.0, toPickup.distance)
    ensures Logged(TakenTrips(trips, d, o, toPickup, toDestination, now), Append(Append(Append(t, e1), e2), e3).log)
  {
    hide Logged, Replay.Apply, WebReplay.Apply;
    var log := Append(Append(Append(t, e1), e2), e3).log;
    LoggedAppend(trips, t, e1);
    LoggedAppend(trips, Append(t, e1), e2);
    LoggedAppend(trips, Append(Append(t, e1), e2), e3);
    var trips' := TakenTrips(trips, d, o, toPickup, toDestination, now);
    LoggedOne(trips, trips', log, o, |t.log| + 1);
  }

  lemma LoggedOne(trips: map<OrderID, Trip>, trips': map<OrderID, Trip>, log: seq<Event>, o: OrderID, k: nat)
    requires Logged(trips, log) && (o in trips' ==> Promised(log, k, o, trips'[o]))
    requires forall x :: x in trips' && x != o ==> x in trips && trips'[x] == trips[x]
    ensures Logged(trips', log)
  {
  }

  lemma TellsTaken(t: Tape, town: Town, s: Scene, id: DriverID, o: OrderID, toPickup: Route, toDestination: Route,
                   now: real, e1: Event, e2: Event, e3: Event)
    requires Tells(t, town, s, None) && id in s.drivers && o in s.orders
    requires toPickup.nodes != [] && toDestination.nodes != []
    requires Matched(s.drivers, s.orders) && s.drivers[id].status.Idle?
    requires Announces(s, id, o, FullRoute(toPickup.nodes, toDestination.nodes),
                       toPickup.distance + toDestination.distance, toPickup.distance, now, e1, e2, e3)
    requires e1.sequence == |t.log| + 1 && e2.sequence == |t.log| + 2 && e3.sequence == |t.log| + 3
    ensures Tells(Append(Append(Append(t, e1), e2), e3), town, Taken(s, id, o, toPickup, toDestination, now), None)
  {
    hide Told, Matched, FullRoute, TakenHistory, TakenTrips, OnlyWaiting, Replay.Apply, WebReplay.Apply, Logged;
    LoggedTaken(t, s.trips, s.drivers[id], id, o, toPickup, toDestination, now, e1, e2, e3);
    var d, order, route := s.drivers[id], s.orders[o], FullRoute(toPickup.nodes, toDestination.nodes);
    var ds1 := s.drivers[id := d.(route := route, routeIndex := 0)];
    var ds2 := ds1[id := ds1[id].(assignedOrder := Some(o))];
    var os2 := s.orders[o := order.(status := Assigned, assignedDriver := Some(id))];
    var lag := s.desynced - {id};
    ToldRoute(t, town, s.drivers, s.orders, s.desynced, e1, id, route);
    ToldAssigned(Append(t, e1), town, ds1, s.orders, lag, e2, id, o);
    OnlyWaitingTaken(s.drivers, s.orders, id, o, os2[o]);
    var t2, s' := Append(Append(t, e1), e2), Taken(s, id, o, toPickup, toDestination, now);
    if d.position == order.pickup {
      ToldDelivering(t2, town, ds2, os2, lag, None, e3, id, o);
      assert s'.drivers == ds2[id := ds2[id].(status := Delivering)];
      assert s'.orders == os2[o := os2[o].(status := EnRoute)];
    } else {
      ToldEnRoute(t2, town, ds2, os2, lag, e3, id);
      assert s'.drivers == ds2[id := ds2[id].(status := EnRouteToPickup)];
      assert s'.orders == os2;
    }
  }

  lemma IndexesTake(strategy: Strategy, points: map<DriverID, Point>, c: City, s: Scene,
                    id: DriverID, o: OrderID, toPickup: Route, toDestination: Route, now: real,
                    points': map<DriverID, Point>)
    requires Indexes(strategy, points, c, s.drivers, s.lost) && id in s.drivers && o in s.orders
    requires toPickup.nodes != [] && toDestination.nodes != []
    requires strategy.Batched? ==> points' == points - {id}
    ensures Indexes(strategy, points', c, Taken(s, id, o, toPickup, toDestination, now).drivers, s.lost - {id})
  {
    hide IndexShows, FullRoute;
    if strategy.Batched? {
      IndexTake(points, c, s.drivers, s.lost, id, Taken(s, id, o, toPickup, toDestination, now).drivers[id]);
    }
  }

  lemma AppendLength(t: Tape, e: Event)
    ensures |Append(t, e).log| == |t.log| + 1
  {
  }

  /** What an assignment comes to: driver id takes order o along shortest routes, or the order is given
      up because its destination cannot be reached from its pickup. */
  ghost predicate Assigns(c: City, s: Scene, s': Scene, id: DriverID, o: OrderID, toPickup: Route, now: real)
  {
    o in s.orders && id in s.drivers && toPickup.nodes != [] &&
    if Reachable(c, s.orders[o].pickup, s.orders[o].destination) then
      exists r :: TakesOver(c, s, s', id, o, toPickup, r, now)
    else s' == GivenUp(s, o)
  }

  ghost predicate TakesOver(c: City, s: Scene, s': Scene, id: DriverID, o: OrderID, toPickup: Route, r: Route,
                            now: real)
  {
    id in s.drivers && o in s.orders && toPickup.nodes != [] && Onward(c, s, o, r) && r.nodes != [] &&
    s' == Taken(s, id, o, toPickup, r, now) && SetsOut(s, s', id, o, toPickup.nodes + r.nodes[1..])
  }

  /** Driver and order belong together and the driver, with the progress it had, starts out along the route;
      an order collected on the spot is under way. */
  ghost predicate SetsOut(s: Scene, s': Scene, id: DriverID, o: OrderID, route: seq<NodeID>)
  {
    id in s.drivers && id in s'.drivers && o in s.orders && o in s'.orders &&
    var d, d', order, order' := s.drivers[id], s'.drivers[id], s.orders[o], s'.orders[o];
    d'.route == route && d'.routeIndex == 0 && d'.assignedOrder == Some(o) && d'.position == d.position &&
    d'.routeProgress == d.routeProgress && d'.idleSince == d.idleSince && order'.assignedDriver == Some(id) &&
    order'.pickup == order.pickup && order'.destination == order.destination && order'.createdAt == order.createdAt &&
    (d.position == order.pickup ==> d'.status.Delivering? && order'.status.EnRoute?) &&
    (d.position != order.pickup ==> d'.status.EnRouteToPickup? && order'.status.Assigned?)
  }

  /** The events of an assignment: the whole route, who takes the order, when and how far it is to the pickup,
      and the driver's new status; or that the order is given up. */
  ghost predicate Reports(c: City, s: Scene, s': Scene, id: DriverID, o: OrderID, toPickup: Route, log0: seq<Event>,
                          log: seq<Event>, now: real, cause: Option<string>)
  {
    o in s.orders && id in s'.drivers &&
    if Reachable(c, s.orders[o].pickup, s.orders[o].destination) then
      exists r ::
        Onward(c, s, o, r) && r.nodes != [] &&
        Adds(log0, log, AssignmentPayloads(id, o, toPickup, r, s'.drivers[id].status, now), now, cause)
    else Adds(log0, log, [OrderUnassignable(o)], now, cause)
  }

  lemma ReportsGrow(c: City, s: Scene, s': Scene, id: DriverID, o: OrderID, toPickup: Route, log0: seq<Event>,
                    log: seq<Event>, now: real, cause: Option<string>)
    requires Reports(c, s, s', id, o, toPickup, log0, log, now, cause)
    ensures Grows(log0, log, now, cause)
  {
    hide Reachable, Onward, Grows;
  }

  lemma GivesUp(c: City, s: Scene, s': Scene, id: DriverID, o: OrderID, toPickup: Route, now: real)
    requires Streets(c) && MayTake(c, s, id, o, toPickup) && s' == GivenUp(s, o)
    requires !Reachable(c, s.orders[o].pickup, s.orders[o].destination)
    ensures Assigns(c, s, s', id, o, toPickup, now)
  {
    hide Streets, Reachable;
    BestIsLeg(c, s.drivers[id].position, s.orders[o].pickup, toPickup);
  }

  lemma Begins(c: City, s: Scene, line: seq<OrderID>, next: nat, now: real, id: DriverID, o: OrderID,
               toPickup: Route, toDestination: Route)
    requires Streets(c) && SceneOk(c, s, line, next, now, {}) && MayTake(c, s, id, o, toPickup)
    requires Reachable(c, s.orders[o].pickup, s.orders[o].destination)
    requires IsBestRoute(c, s.orders[o].pickup, s.orders[o].destination, toDestination)
    ensures toPickup.nodes != [] && toDestination.nodes != [] && Matched(s.drivers, s.orders)
    ensures Assigns(c, s, Taken(s, id, o, toPickup, toDestination, now), id, o, toPickup, now)
    ensures SceneOk(c, Taken(s, id, o, toPickup, toDestination, now), Dropped(line, o), next, now, {})
    ensures Step(s, Taken(s, id, o, toPickup, toDestination, now))
  {
    hide Streets, Reachable, Taken, IsBestRoute, Matched, Courses, Deliveries, ClockOk, Line, ClearExcept, Dropped,
      SetsOut;
    assert Onward(c, s, o, toDestination);
    BestIsLeg(c, s.drivers[id].position, s.orders[o].pickup, toPickup);
    BestIsLeg(c, s.orders[o].pickup, s.orders[o].destination, toDestination);
    TakenSetsOut(s, id, o, toPickup, toDestination, now);
    assert TakesOver(c, s, Taken(s, id, o, toPickup, toDestination, now), id, o, toPickup, toDestination, now);
    TakeSceneKeeps(c, s, line, next, now, id, o, toPickup, toDestination);
  }

  lemma TakenSetsOut(s: Scene, id: DriverID, o: OrderID, toPickup: Route, toDestination: Route, now: real)
    requires id in s.drivers && o in s.orders && toPickup.nodes != [] && toDestination.nodes != []
    ensures SetsOut(s, Taken(s, id, o, toPickup, toDestination, now), id, o, toPickup.nodes + toDestination.nodes[1..])
  {
  }

  lemma TakenStatus(s: Scene, id: DriverID, o: OrderID, toPickup: Route, toDestination: Route, now: real)
    requires id in s.drivers && o in s.orders && toPickup.nodes != [] && toDestination.nodes != []
    ensures var s' := Taken(s, id, o, toPickup, toDestination, now);
      id in s'.drivers && s'.skipped == s.skipped &&
      s'.drivers[id].status == if s.drivers[id].position == s.orders[o].pickup then Delivering else EnRouteToPickup
  {
  }

  // ---------------------------------------------------------------------------------------------
  // The nearest idle driver
  // ---------------------------------------------------------------------------------------------

  lemma {:induction false} DroppedMiddle(a: seq<OrderID>, o: OrderID, b: seq<OrderID>)
    requires o !in a && o !in b
    ensures Dropped(a + [o] + b, o) == a + b
    decreases |a| + |b|
  {
    var line := a + [o] + b;
    if b != [] {
      var b' := b[..|b| - 1];
      DroppedMiddle(a, o, b');
      assert line[..|line| - 1] == a + [o] + b';
      assert a + b == (a + b') + [b[|b| - 1]];
    } else {
      assert line[..|line| - 1] == a;
      DroppedNothing(a, o);
    }
  }

  lemma {:induction false} DroppedNothing(a: seq<OrderID>, o: OrderID)
    requires o !in a
    ensures Dropped(a, o) == a
  {
    if a != [] {
      DroppedNothing(a[..|a| - 1], o);
    }
  }

  /** An order in line is pending and stands there once. */
  lemma InLine(c: City, s: Scene, a: seq<OrderID>, o: OrderID, b: seq<OrderID>, next: nat, now: real,
               except: set<DriverID>)
    requires SceneOk(c, s, a + [o] + b, next, now, except)
    ensures o in s.orders && s.orders[o].status.Pending? && Dropped(a + [o] + b, o) == a + b
  {
    hide FleetOk, ClockOk, ClearExcept;
    var line := a + [o] + b;
    assert line[|a|] == o;
    forall i | 0 <= i < |line| && i != |a|
      ensures line[i] != o
    {
      assert line[i] < line[|a|] || line[|a|] < line[i];
    }
    forall i | 0 <= i < |a|
      ensures a[i] != o
    {
      assert a[i] == line[i];
    }
    forall i | 0 <= i < |b|
      ensures b[i] != o
    {
      assert b[i] == line[|a| + 1 + i];
    }
    DroppedMiddle(a, o, b);
  }

  /** What offering one order to the nearest idle driver comes to (lines 819-843): the nearest takes it;
      or some driver is idle and none reaches the pickup, and it is given up; or it is queued. */
  ghost predicate Offered(c: City, s: Scene, s': Scene, o: OrderID, now: real, queued: bool)
  {
    o in s.orders &&
    var pickup := s.orders[o].pickup;
    if exists d :: d in s.drivers && s.drivers[d].status.Idle? && Reachable(c, s.drivers[d].position, pickup) then
      !queued && exists d, r :: IsNearest(c, s.drivers, pickup, Some((d, r))) && Assigns(c, s, s', d, o, r, now)
    else if HasIdle(s.drivers) then !queued && s' == GivenUp(s, o)
    else queued && s' == s
  }

  lemma NearestTakes(c: City, s: Scene, s': Scene, d: DriverID, o: OrderID, r: Route, now: real)
    requires o in s.orders && IsNearest(c, s.drivers, s.orders[o].pickup, Some((d, r)))
    requires Assigns(c, s, s', d, o, r, now)
    ensures Offered(c, s, s', o, now, false)
  {
    hide Assigns;
    assert Reachable(c, s.drivers[d].position, s.orders[o].pickup) by {
      var es: seq<Edge> :| IsWalk(c, s.drivers[d].position, es, s.orders[o].pickup);
    }
  }

  lemma NearestMayTake(c: City, s: Scene, d: DriverID, o: OrderID, r: Route)
    requires o in s.orders && s.orders[o].status.Pending? && IsNearest(c, s.drivers, s.orders[o].pickup, Some((d, r)))
    ensures MayTake(c, s, d, o, r)
  {
  }

  lemma NobodyTakes(c: City, s: Scene, s': Scene, o: OrderID, now: real, queued: bool)
    requires o in s.orders && IsNearest(c, s.drivers, s.orders[o].pickup, None)
    requires if HasIdle(s.drivers) then !queued && s' == GivenUp(s, o) else queued && s' == s
    ensures Offered(c, s, s', o, now, queued)
  {
    hide Reachable;
  }

  /** An order is only queued when no driver is idle, and offering one frees no driver. */
  lemma OfferedIdle(c: City, s: Scene, s': Scene, o: OrderID, now: real, queued: bool)
    requires Offered(c, s, s', o, now, queued)
    ensures queued ==> !HasIdle(s'.drivers)
    ensures !HasIdle(s.drivers) ==> queued && !HasIdle(s'.drivers)
  {
    hide Reachable, Assigns;
  }

  /** Orders offered one after the other, first come first served; those queued again keep their order. */
  ghost predicate OfferedInTurn(c: City, s: Scene, s': Scene, queue: seq<OrderID>, left: seq<OrderID>, now: real)
    decreases |queue|
  {
    if queue == [] then s' == s && left == []
    else
      var n := |queue| - 1;
      exists mid, before, again ::
        OfferedInTurn(c, s, mid, queue[..n], before, now) && Offered(c, mid, s', queue[n], now, again) &&
        left == if again then before + [queue[n]] else before
  }

  lemma OfferNone(c: City, s: Scene, queue: seq<OrderID>, now: real)
    ensures OfferedInTurn(c, s, s, queue[..0], [], now)
  {
  }

  lemma OfferNext(c: City, s: Scene, mid: Scene, s': Scene, queue: seq<OrderID>, k: nat, before: seq<OrderID>,
                  left: seq<OrderID>, now: real)
    requires k < |queue| && OfferedInTurn(c, s, mid, queue[..k], before, now)
    requires Offered(c, mid, s', queue[k], now, left != before)
    requires left == before || left == before + [queue[k]]
    ensures OfferedInTurn(c, s, s', queue[..k + 1], left, now)
  {
    hide Offered;
    var q := queue[..k + 1];
    assert q[..k] == queue[..k] && q[k] == queue[k] && |q| - 1 == k;
    var again := left != before;
    assert OfferedInTurn(c, s, mid, q[..k], before, now) && Offered(c, mid, s', q[k], now, again);
    assert left == if again then before + [q[k]] else before;
  }
}
