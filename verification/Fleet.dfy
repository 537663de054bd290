/** What holds of drivers and orders between any two steps of a run, and the steps that change them
    (internal/simulation/simulation.go lines 586-649, 781-982 and 1073-1134). */
module Fleet {
  import opened Roads
  import opened Routing
  import opened Domain
  import opened Closures

  type Drivers = map<DriverID, Driver>
  type Orders = map<OrderID, Order>

  /** What the state itself forgets: orders whose driver was rerouted on the way to the pickup, where on
      its route each driver collects its order, and where orders were collected and delivered. */
  datatype History = History(rerouted: set<OrderID>, leg: map<DriverID, nat>,
                             pickedAt: map<OrderID, NodeID>, deliveredAt: map<OrderID, NodeID>)

  // ---------------------------------------------------------------------------------------------
  // Drivers and orders belong together
  // ---------------------------------------------------------------------------------------------

  /** A driver with a route stands on it, and its status says what its order says. */
  ghost predicate Engaged(id: DriverID, d: Driver, orders: Orders)
  {
    if d.status.Idle? then d.route == [] && d.routeIndex == 0 && d.assignedOrder == None
    else
      d.routeIndex < |d.route| && d.route[d.routeIndex] == d.position && d.assignedOrder.Some? &&
      d.assignedOrder.value in orders && orders[d.assignedOrder.value].assignedDriver == Some(id) &&
      orders[d.assignedOrder.value].status == if d.status.Delivering? then EnRoute else Assigned
  }

  predicate Active(o: Order)
  {
    o.status.Assigned? || o.status.EnRoute?
  }

  /** An active order belongs to the driver that has it. */
  ghost predicate Owned(o: OrderID, order: Order, drivers: Drivers)
  {
    Active(order) ==>
      order.assignedDriver.Some? && order.assignedDriver.value in drivers &&
      drivers[order.assignedDriver.value].assignedOrder == Some(o)
  }

  ghost predicate Matched(drivers: Drivers, orders: Orders)
  {
    (forall id :: id in drivers ==> Engaged(id, drivers[id], orders)) &&
    (forall o :: o in orders ==> Owned(o, orders[o], drivers))
  }

  predicate Busy(d: Driver) { !d.status.Idle? }

  function BusyDrivers(drivers: Drivers): set<DriverID>
  {
    set d | d in drivers && Busy(drivers[d])
  }

  function ActiveOrders(orders: Orders): set<OrderID>
  {
    set o | o in orders && Active(orders[o])
  }

  /** Busy drivers and active orders are in bijection. */
  lemma BusyMatchesActive(drivers: Drivers, orders: Orders)
    requires Matched(drivers, orders)
    ensures forall d :: d in BusyDrivers(drivers) ==> drivers[d].assignedOrder.Some?
    ensures forall d :: d in BusyDrivers(drivers) ==> drivers[d].assignedOrder.value in ActiveOrders(orders)
    ensures forall d :: d in BusyDrivers(drivers) ==> orders[drivers[d].assignedOrder.value].assignedDriver == Some(d)
    ensures forall o :: o in ActiveOrders(orders) ==> orders[o].assignedDriver.Some?
    ensures forall o :: o in ActiveOrders(orders) ==> orders[o].assignedDriver.value in BusyDrivers(drivers)
    ensures forall o :: o in ActiveOrders(orders) ==> drivers[orders[o].assignedDriver.value].assignedOrder == Some(o)
    ensures |BusyDrivers(drivers)| == |ActiveOrders(orders)|
  {
    forall o | o in ActiveOrders(orders)
      ensures orders[o].assignedDriver.Some? && orders[o].assignedDriver.value in BusyDrivers(drivers)
      ensures drivers[orders[o].assignedDriver.value].assignedOrder == Some(o)
    {
      assert Owned(o, orders[o], drivers);
      assert Engaged(orders[o].assignedDriver.value, drivers[orders[o].assignedDriver.value], orders);
    }
    SameSize(drivers, orders, BusyDrivers(drivers), ActiveOrders(orders));
  }

  lemma {:induction false} SameSize(drivers: Drivers, orders: Orders, busy: set<DriverID>, active: set<OrderID>)
    requires busy <= drivers.Keys && active <= orders.Keys
    requires forall d :: d in busy ==> drivers[d].assignedOrder.Some? && drivers[d].assignedOrder.value in active
    requires forall d :: d in busy ==> orders[drivers[d].assignedOrder.value].assignedDriver == Some(d)
    requires forall o :: o in active ==> orders[o].assignedDriver.Some? && orders[o].assignedDriver.value in busy
    requires forall o :: o in active ==> drivers[orders[o].assignedDriver.value].assignedOrder == Some(o)
    ensures |busy| == |active|
    decreases |busy|
  {
    if busy == {} {
      assert active == {};
    } else {
      var d :| d in busy;
      SameSize(drivers, orders, busy - {d}, active - {drivers[d].assignedOrder.value});
    }
  }

  // ---------------------------------------------------------------------------------------------
  // Where a busy driver is headed
  // ---------------------------------------------------------------------------------------------

  /** On the way to the pickup the driver meets it first at position k; unless it was rerouted the route
      then goes on to the destination. A delivering driver is headed for the destination and passes no
      node twice; only a one-node route keeps it standing, and only for an order whose ends coincide. */
  ghost predicate OnCourse(d: Driver, order: Order, rerouted: bool, k: nat)
  {
    var n := |d.route|;
    d.routeIndex < n &&
    if d.status.EnRouteToPickup? then
      d.routeIndex < k < n && d.route[k] == order.pickup &&
      (forall j :: d.routeIndex <= j < k ==> d.route[j] != order.pickup) &&
      (if rerouted then k == n - 1 else Distinct(d.route[k..]) && d.route[n - 1] == order.destination)
    else
      !rerouted && d.route[n - 1] == order.destination && Distinct(d.route[d.routeIndex..]) &&
      (if n == 1 then order.pickup == order.destination else d.routeIndex < n - 1)
  }

  ghost predicate Course(id: DriverID, d: Driver, orders: Orders, h: History)
  {
    Busy(d) ==>
      d.assignedOrder.Some? && d.assignedOrder.value in orders && id in h.leg &&
      OnCourse(d, orders[d.assignedOrder.value], d.assignedOrder.value in h.rerouted, h.leg[id])
  }

  ghost predicate Courses(drivers: Drivers, orders: Orders, h: History)
  {
    forall id :: id in drivers ==> Course(id, drivers[id], orders, h)
  }

  /** Orders under way were collected at their pickup; delivered ones were handed over at their
      destination, or at the pickup if their driver was rerouted before collecting. */
  ghost predicate Handled(o: OrderID, order: Order, h: History)
  {
    (order.status.EnRoute? || order.status.Delivered? ==> o in h.pickedAt && h.pickedAt[o] == order.pickup) &&
    (order.status.Delivered? ==>
      o in h.deliveredAt && h.deliveredAt[o] == if o in h.rerouted then order.pickup else order.destination)
  }

  ghost predicate Deliveries(orders: Orders, h: History)
  {
    forall o :: o in orders ==> Handled(o, orders[o], h)
  }

  ghost predicate FleetOk(drivers: Drivers, orders: Orders, h: History)
  {
    Matched(drivers, orders) && Courses(drivers, orders, h) && Deliveries(orders, h)
  }

  /** The pending orders, in placement order, each once; ids are handed out from 1. */
  ghost predicate Line(orders: Orders, line: seq<OrderID>, next: nat)
  {
    (forall i, j :: 0 <= i < j < |line| ==> line[i] < line[j]) &&
    (forall o :: o in line <==> o in orders && orders[o].status.Pending?) &&
    (forall o :: o in orders <==> 1 <= o <= next)
  }

  /** No node is followed by itself. */
  ghost predicate Varied(route: seq<NodeID>)
  {
    forall k :: 0 <= k < |route| - 1 ==> route[k] != route[k + 1]
  }

  /** No route stands still, and every route but those of `except` runs over open edges from where its
      driver stands. */
  ghost predicate ClearExcept(c: City, drivers: Drivers, except: set<DriverID>)
  {
    forall id :: id in drivers ==>
      Varied(drivers[id].route) && (id !in except ==> ClearFrom(c, drivers[id].route, drivers[id].routeIndex))
  }

  predicate Settled(o: Order)
  {
    o.status.Delivered? || o.status.Unassignable?
  }

  /** No order is lost or re-addressed, and settled ones do not change at all. */
  ghost predicate Preserved(before: Orders, after: Orders)
  {
    forall o :: o in before ==>
      o in after && after[o].pickup == before[o].pickup && after[o].destination == before[o].destination &&
      after[o].createdAt == before[o].createdAt && (Settled(before[o]) ==> after[o] == before[o])
  }

  lemma PreservedTransitive(a: Orders, b: Orders, c: Orders)
    requires Preserved(a, b) && Preserved(b, c)
    ensures Preserved(a, c)
  {
  }

  // ---------------------------------------------------------------------------------------------
  // The steps
  // ---------------------------------------------------------------------------------------------

  /** Changing one driver together with its order leaves the others alone. */
  lemma OthersKeep(drivers: Drivers, orders: Orders, h: History, id: DriverID, o: OrderID, x: DriverID)
    requires Matched(drivers, orders) && x in drivers && x != id && o in orders
    requires orders[o].assignedDriver == Some(id) || !Active(orders[o])
    ensures drivers[x].assignedOrder != Some(o)
  {
    assert Engaged(x, drivers[x], orders);
  }

  /** Replacing driver id and order o, which belong to each other or are both free, keeps the matching. */
  lemma UpdateMatched(drivers: Drivers, orders: Orders, id: DriverID, d: Driver, o: OrderID, order: Order)
    requires Matched(drivers, orders) && id in drivers && o in orders
    requires drivers[id].assignedOrder == Some(o) || (drivers[id].assignedOrder == None && !Active(orders[o]))
    requires Engaged(id, d, orders[o := order])
    requires if Active(order) then order.assignedDriver == Some(id) && d.assignedOrder == Some(o)
             else d.assignedOrder == None
    ensures Matched(drivers[id := d], orders[o := order])
  {
    var drivers', orders' := drivers[id := d], orders[o := order];
    assert Engaged(id, drivers[id], orders);
    forall x | x in drivers'
      ensures Engaged(x, drivers'[x], orders')
    {
      if x != id { assert Engaged(x, drivers[x], orders); }
    }
    forall y | y in orders'
      ensures Owned(y, orders'[y], drivers')
    {
      if y != o { assert Owned(y, orders[y], drivers); }
    }
  }

  /** ... and the courses, if the new driver is on course. */
  lemma UpdateCourses(drivers: Drivers, orders: Orders, h: History, id: DriverID, d: Driver, o: OrderID, order: Order,
                      h': History)
    requires Matched(drivers, orders) && Courses(drivers, orders, h) && id in drivers && o in orders
    requires drivers[id].assignedOrder == Some(o) || (drivers[id].assignedOrder == None && !Active(orders[o]))
    requires Course(id, d, orders[o := order], h')
    requires forall x :: x in h.leg && x != id ==> x in h'.leg && h'.leg[x] == h.leg[x]
    requires forall y :: y != o ==> (y in h'.rerouted <==> y in h.rerouted)
    ensures Courses(drivers[id := d], orders[o := order], h')
  {
    assert Engaged(id, drivers[id], orders);
    forall x | x in drivers && x != id
      ensures Course(x, drivers[x], orders[o := order], h')
    {
      OthersKeep(drivers, orders, h, id, o, x);
      assert Course(x, drivers[x], orders, h);
    }
  }

  lemma UpdateDeliveries(orders: Orders, h: History, o: OrderID, order: Order, h': History)
    requires Deliveries(orders, h) && Handled(o, order, h')
    requires forall y :: y != o ==> (y in h'.rerouted <==> y in h.rerouted)
    requires forall y :: y != o && y in h.pickedAt ==> y in h'.pickedAt && h'.pickedAt[y] == h.pickedAt[y]
    requires forall y :: y != o && y in h.deliveredAt ==> y in h'.deliveredAt && h'.deliveredAt[y] == h.deliveredAt[y]
    ensures Deliveries(orders[o := order], h')
  {
    forall y | y in orders && y != o
      ensures Handled(y, orders[y], h')
    {
      assert Handled(y, orders[y], h);
    }
  }

  // ---- arriving at a node (lines 1091-1094 and 1106-1134) ----

  function AfterHop(d: Driver): Driver
    requires d.routeIndex + 1 < |d.route|
  {
    d.(position := d.route[d.routeIndex + 1], routeIndex := d.routeIndex + 1, routeProgress := 0.0)
  }

  function Freed(d: Driver, now: real): Driver
  {
    d.(status := Idle, route := [], routeIndex := 0, routeProgress := 0.0, assignedOrder := None, idleSince := now)
  }

  predicate Collects(d: Driver, order: Order)
  {
    d.status.EnRouteToPickup? && d.position == order.pickup
  }

  predicate AtEnd(d: Driver) { d.routeIndex + 1 == |d.route| }

  /** The driver, having hopped, after handleDriverAtNode. */
  function ArrivedDriver(d: Driver, order: Order, now: real): Driver
  {
    var d' := if Collects(d, order) then d.(status := Delivering) else d;
    if AtEnd(d) then Freed(d', now) else d'
  }

  function ArrivedOrder(d: Driver, order: Order): Order
  {
    if AtEnd(d) then order.(status := Delivered)
    else if Collects(d, order) then order.(status := EnRoute) else order
  }

  function ArrivedHistory(d: Driver, order: Order, o: OrderID, h: History): History
  {
    var h' := if Collects(d, order) then h.(pickedAt := h.pickedAt[o := d.position]) else h;
    if AtEnd(d) then h'.(deliveredAt := h'.deliveredAt[o := d.position]) else h'
  }

  /** The pickup is met exactly at position k of the course. */
  lemma CollectsAtLeg(d: Driver, order: Order, rerouted: bool, k: nat)
    requires Busy(d) && OnCourse(d, order, rerouted, k) && d.routeIndex + 1 < |d.route|
    ensures Collects(AfterHop(d), order) <==> d.status.EnRouteToPickup? && d.routeIndex + 1 == k
    ensures d.status.EnRouteToPickup? && d.routeIndex + 1 != k ==> !AtEnd(AfterHop(d))
  {
  }

  lemma {:induction false} DistinctSuffix(s: seq<NodeID>, i: nat, j: nat)
    requires i <= j <= |s| && Distinct(s[i..])
    ensures Distinct(s[j..])
  {
    forall a, b | 0 <= a < b < |s| - j
      ensures s[j..][a] != s[j..][b]
    {
      assert s[i..][a + j - i] != s[i..][b + j - i];
    }
  }

  /** After a hop and its handling a driver still busy is still on course. */
  lemma ArriveOnCourse(d: Driver, order: Order, rerouted: bool, k: nat, now: real)
    requires Busy(d) && OnCourse(d, order, rerouted, k) && d.routeIndex + 1 < |d.route|
    ensures !AtEnd(AfterHop(d)) ==>
      OnCourse(ArrivedDriver(AfterHop(d), order, now), ArrivedOrder(AfterHop(d), order), rerouted, k)
  {
    CollectsAtLeg(d, order, rerouted, k);
    if d.status.Delivering? {
      DistinctSuffix(d.route, d.routeIndex, d.routeIndex + 1);
    }
  }

  lemma ArriveHandled(d: Driver, order: Order, o: OrderID, h: History, k: nat)
    requires Busy(d) && OnCourse(d, order, o in h.rerouted, k) && d.routeIndex + 1 < |d.route|
    requires Handled(o, order, h) && (order.status == if d.status.Delivering? then EnRoute else Assigned)
    ensures Handled(o, ArrivedOrder(AfterHop(d), order), ArrivedHistory(AfterHop(d), order, o, h))
  {
    CollectsAtLeg(d, order, o in h.rerouted, k);
  }

  /** One hop along the route keeps everything. */
  lemma ArriveKeeps(drivers: Drivers, orders: Orders, h: History, id: DriverID, o: OrderID, now: real)
    requires FleetOk(drivers, orders, h) && id in drivers && drivers[id].routeIndex + 1 < |drivers[id].route|
    requires drivers[id].assignedOrder == Some(o)
    ensures o in orders
    ensures var d := AfterHop(drivers[id]);
      FleetOk(drivers[id := ArrivedDriver(d, orders[o], now)], orders[o := ArrivedOrder(d, orders[o])],
              ArrivedHistory(d, orders[o], o, h))
  {
    var before := drivers[id];
    assert Engaged(id, before, orders) && Course(id, before, orders, h) && Handled(o, orders[o], h);
    var order := orders[o];
    var d := AfterHop(before);
    var d', order', h' := ArrivedDriver(d, order, now), ArrivedOrder(d, order), ArrivedHistory(d, order, o, h);
    ArriveOnCourse(before, order, o in h.rerouted, h.leg[id], now);
    ArriveHandled(before, order, o, h, h.leg[id]);
    assert Engaged(id, d', orders[o := order']);
    assert Course(id, d', orders[o := order'], h');
    hide OnCourse, Handled, Engaged, ArrivedDriver, ArrivedOrder, AfterHop;
    ArriveShape(before, order, o, h, now);
    UpdateMatched(drivers, orders, id, d', o, order');
    UpdateCourses(drivers, orders, h, id, d', o, order', h');
    UpdateDeliveries(orders, h, o, order', h');
  }

  /** A driver rerouted on the way to the pickup hands its order over there: the new route ends at it. */
  lemma ReroutedEndsAtPickup(d: Driver, order: Order, k: nat, now: real)
    requires d.status.EnRouteToPickup? && OnCourse(d, order, true, k) && d.routeIndex + 1 == k
    ensures AfterHop(d).position == order.pickup && ArrivedOrder(AfterHop(d), order).status.Delivered?
    ensures ArrivedDriver(AfterHop(d), order, now).status.Idle?
  {
    CollectsAtLeg(d, order, true, k);
  }

  lemma ArriveShape(d: Driver, order: Order, o: OrderID, h: History, now: real)
    requires d.routeIndex + 1 < |d.route| && Busy(d) && d.assignedOrder == Some(o)
    requires order.status == if d.status.Delivering? then EnRoute else Assigned
    ensures var d1 := AfterHop(d);
      var d', order', h' := ArrivedDriver(d1, order, now), ArrivedOrder(d1, order), ArrivedHistory(d1, order, o, h);
      order'.assignedDriver == order.assignedDriver && h'.leg == h.leg && h'.rerouted == h.rerouted &&
      (if Active(order') then d'.assignedOrder == Some(o) else d'.assignedOrder == None) &&
      (forall y :: y != o && y in h.pickedAt ==> y in h'.pickedAt && h'.pickedAt[y] == h.pickedAt[y]) &&
      (forall y :: y != o && y in h.deliveredAt ==> y in h'.deliveredAt && h'.deliveredAt[y] == h.deliveredAt[y])
  {
  }

  // ---- taking an order on (lines 929-962) ----

  /** The whole trip: to the pickup, then on to the destination. */
  function FullRoute(toPickup: seq<NodeID>, toDestination: seq<NodeID>): seq<NodeID>
    requires toDestination != []
  {
    toPickup + toDestination[1..]
  }

  function TakenDriver(d: Driver, o: OrderID, order: Order, route: seq<NodeID>): Driver
  {
    d.(route := route, routeIndex := 0, assignedOrder := Some(o),
       status := if d.position == order.pickup then Delivering else EnRouteToPickup)
  }

  function TakenOrder(d: Driver, id: DriverID, order: Order): Order
  {
    order.(assignedDriver := Some(id), status := if d.position == order.pickup then EnRoute else Assigned)
  }

  function TakenHistory(d: Driver, id: DriverID, o: OrderID, order: Order, leg: nat, h: History): History
  {
    h.(rerouted := h.rerouted - {o}, leg := h.leg[id := leg],
       pickedAt := if d.position == order.pickup then h.pickedAt[o := d.position] else h.pickedAt)
  }

  /** Both legs are simple, start and end where they should. */
  ghost predicate Legs(toPickup: seq<NodeID>, toDestination: seq<NodeID>, from: NodeID, order: Order)
  {
    toPickup != [] && toPickup[0] == from && toPickup[|toPickup| - 1] == order.pickup && Distinct(toPickup) &&
    toDestination != [] && toDestination[0] == order.pickup &&
    toDestination[|toDestination| - 1] == order.destination && Distinct(toDestination)
  }

  lemma TakenOnCourse(d: Driver, id: DriverID, o: OrderID, order: Order, toPickup: seq<NodeID>,
                      toDestination: seq<NodeID>)
    requires Legs(toPickup, toDestination, d.position, order)
    ensures var route := FullRoute(toPickup, toDestination);
      route[0] == d.position && OnCourse(TakenDriver(d, o, order, route), order, false, |toPickup| - 1)
  {
    var route := FullRoute(toPickup, toDestination);
    var k := |toPickup| - 1;
    assert route[k..] == toDestination;
    if d.position == order.pickup {
      assert k == 0 by { assert toPickup[0] == toPickup[k]; }
      assert route[0..] == toDestination;
    } else {
      forall j | 0 <= j < k
        ensures route[j] != order.pickup
      {
        assert route[j] == toPickup[j] && route[k] == toPickup[k];
      }
    }
  }

  /** An idle driver takes a pending order. */
  lemma TakeKeeps(drivers: Drivers, orders: Orders, h: History, id: DriverID, o: OrderID,
                  toPickup: seq<NodeID>, toDestination: seq<NodeID>)
    requires FleetOk(drivers, orders, h) && id in drivers && drivers[id].status.Idle?
    requires o in orders && orders[o].status.Pending?
    requires Legs(toPickup, toDestination, drivers[id].position, orders[o])
    ensures var d, order, route := drivers[id], orders[o], FullRoute(toPickup, toDestination);
      FleetOk(drivers[id := TakenDriver(d, o, order, route)], orders[o := TakenOrder(d, id, order)],
              TakenHistory(d, id, o, order, |toPickup| - 1, h))
  {
    var d, order, route := drivers[id], orders[o], FullRoute(toPickup, toDestination);
    var d', order', h' := TakenDriver(d, o, order, route), TakenOrder(d, id, order),
                          TakenHistory(d, id, o, order, |toPickup| - 1, h);
    assert Engaged(id, d, orders);
    TakenOnCourse(d, id, o, order, toPickup, toDestination);
    assert OnCourse(d', order', false, |toPickup| - 1);
    assert Engaged(id, d', orders[o := order']) && Course(id, d', orders[o := order'], h') && Handled(o, order', h');
    hide OnCourse, Handled, Engaged, Legs, FullRoute;
    UpdateMatched(drivers, orders, id, d', o, order');
    UpdateCourses(drivers, orders, h, id, d', o, order', h');
    UpdateDeliveries(orders, h, o, order', h');
  }

  lemma DistinctIsVaried(route: seq<NodeID>)
    requires Distinct(route)
    ensures Varied(route)
  {
  }

  lemma TakenIsVaried(toPickup: seq<NodeID>, toDestination: seq<NodeID>)
    requires toPickup != [] && toDestination != [] && toPickup[|toPickup| - 1] == toDestination[0]
    requires Distinct(toPickup) && Distinct(toDestination)
    ensures Varied(FullRoute(toPickup, toDestination))
  {
    var route := FullRoute(toPickup, toDestination);
    var m := |toPickup| - 1;
    forall k | 0 <= k < |route| - 1
      ensures route[k] != route[k + 1]
    {
      if k < m {
        assert route[k] == toPickup[k] && route[k + 1] == toPickup[k + 1];
      } else {
        assert route[k] == toDestination[k - m] && route[k + 1] == toDestination[k - m + 1];
      }
    }
  }

  lemma TakenIsClear(c: City, toPickup: seq<NodeID>, toDestination: seq<NodeID>)
    requires toPickup != [] && toDestination != [] && toPickup[|toPickup| - 1] == toDestination[0]
    requires ClearFrom(c, toPickup, 0) && ClearFrom(c, toDestination, 0)
    ensures ClearFrom(c, FullRoute(toPickup, toDestination), 0)
  {
    var route := FullRoute(toPickup, toDestination);
    var m := |toPickup| - 1;
    hide OpenHop;
    forall k | 0 <= k < |route| - 1
      ensures OpenHop(c, route[k], route[k + 1])
    {
      if k < m {
        assert OpenHop(c, toPickup[k], toPickup[k + 1]);
      } else {
        assert OpenHop(c, toDestination[k - m], toDestination[k - m + 1]);
      }
    }
  }

  // ---- rerouting (lines 586-625) ----

  /** What a driver is heading for, by its status. */
  function Target(d: Driver, order: Order): NodeID
  {
    if d.status.EnRouteToPickup? then order.pickup else order.destination
  }

  function ReroutedDriver(d: Driver, nodes: seq<NodeID>): Driver
  {
    d.(route := nodes, routeIndex := 0)
  }

  function ReroutedHistory(id: DriverID, d: Driver, o: OrderID, nodes: seq<NodeID>, h: History): History
    requires nodes != []
  {
    if d.status.EnRouteToPickup? then h.(rerouted := h.rerouted + {o}, leg := h.leg[id := |nodes| - 1]) else h
  }

  lemma RerouteKeeps(drivers: Drivers, orders: Orders, h: History, id: DriverID, o: OrderID, nodes: seq<NodeID>)
    requires FleetOk(drivers, orders, h) && id in drivers && Busy(drivers[id])
    requires drivers[id].assignedOrder == Some(o) && o in orders
    requires nodes != [] && Distinct(nodes) && nodes[0] == drivers[id].position
    requires nodes[|nodes| - 1] == Target(drivers[id], orders[o])
    ensures FleetOk(drivers[id := ReroutedDriver(drivers[id], nodes)], orders,
                    ReroutedHistory(id, drivers[id], o, nodes, h))
  {
    var d, order := drivers[id], orders[o];
    var d', h' := ReroutedDriver(d, nodes), ReroutedHistory(id, d, o, nodes, h);
    assert Engaged(id, d, orders) && Course(id, d, orders, h) && Handled(o, order, h);
    RerouteOnCourse(d, order, o in h.rerouted, h.leg[id], nodes);
    assert orders[o := order] == orders;
    assert Engaged(id, d', orders) && Course(id, d', orders, h') && Handled(o, order, h');
    hide OnCourse, Handled, Engaged;
    UpdateMatched(drivers, orders, id, d', o, order);
    UpdateCourses(drivers, orders, h, id, d', o, order, h');
    UpdateDeliveries(orders, h, o, order, h');
  }

  lemma RerouteOnCourse(d: Driver, order: Order, rerouted: bool, k: nat, nodes: seq<NodeID>)
    requires Busy(d) && OnCourse(d, order, rerouted, k) && d.route[d.routeIndex] == d.position
    requires nodes != [] && Distinct(nodes) && nodes[0] == d.position && nodes[|nodes| - 1] == Target(d, order)
    ensures if d.status.EnRouteToPickup? then OnCourse(ReroutedDriver(d, nodes), order, true, |nodes| - 1)
            else OnCourse(ReroutedDriver(d, nodes), order, rerouted, k)
  {
    assert nodes[0..] == nodes;
    if d.status.EnRouteToPickup? {
      assert d.position != order.pickup;
    }
  }

  function StrandedDriver(d: Driver): Driver
  {
    d.(status := Idle, route := [], routeIndex := 0, assignedOrder := None)
  }

  /** A driver cut off from its target goes idle where it stands and its order becomes unassignable. */
  lemma StrandKeeps(drivers: Drivers, orders: Orders, h: History, id: DriverID, o: OrderID)
    requires FleetOk(drivers, orders, h) && id in drivers && Busy(drivers[id])
    requires drivers[id].assignedOrder == Some(o) && o in orders
    ensures FleetOk(drivers[id := StrandedDriver(drivers[id])], orders[o := orders[o].(status := Unassignable)], h)
  {
    var d', order' := StrandedDriver(drivers[id]), orders[o].(status := Unassignable);
    assert Engaged(id, d', orders[o := order']) && Course(id, d', orders[o := order'], h) && Handled(o, order', h);
    hide OnCourse, Handled, Engaged, Course;
    UpdateMatched(drivers, orders, id, d', o, order');
    UpdateCourses(drivers, orders, h, id, d', o, order', h);
    UpdateDeliveries(orders, h, o, order', h);
  }

  // ---- orders alone ----

  /** Adding a pending order, or giving a pending one up. */
  lemma OrderKeeps(drivers: Drivers, orders: Orders, h: History, o: OrderID, order: Order)
    requires FleetOk(drivers, orders, h)
    requires o in orders ==> orders[o].status.Pending?
    requires order.status.Pending? || order.status.Unassignable?
    ensures FleetOk(drivers, orders[o := order], h)
  {
    var orders' := orders[o := order];
    forall x | x in drivers
      ensures Engaged(x, drivers[x], orders') && Course(x, drivers[x], orders', h)
    {
      assert Engaged(x, drivers[x], orders) && Course(x, drivers[x], orders, h);
    }
    forall y | y in orders'
      ensures Owned(y, orders'[y], drivers) && Handled(y, orders'[y], h)
    {
      if y != o { assert Owned(y, orders[y], drivers) && Handled(y, orders[y], h); }
    }
  }

  /** Travelling along an edge changes nothing the invariants speak of. */
  lemma CreepKeeps(drivers: Drivers, orders: Orders, h: History, id: DriverID, progress: real)
    requires FleetOk(drivers, orders, h) && id in drivers
    ensures FleetOk(drivers[id := drivers[id].(routeProgress := progress)], orders, h)
  {
    var drivers' := drivers[id := drivers[id].(routeProgress := progress)];
    forall x | x in drivers'
      ensures Engaged(x, drivers'[x], orders) && Course(x, drivers'[x], orders, h)
    {
      assert Engaged(x, drivers[x], orders) && Course(x, drivers[x], orders, h);
    }
    forall y | y in orders
      ensures Owned(y, orders[y], drivers')
    {
      assert Owned(y, orders[y], drivers);
    }
  }

  /** Idle drivers and no orders: the start of every run. */
  lemma FreshFleet(drivers: Drivers, h: History)
    requires forall id :: id in drivers ==>
      drivers[id].status.Idle? && drivers[id].route == [] && drivers[id].routeIndex == 0 &&
      drivers[id].assignedOrder == None
    ensures FleetOk(drivers, map[], h) && Line(map[], [], 0)
  {
  }

  // ---- the line of pending orders ----

  lemma LineKeeps(orders: Orders, line: seq<OrderID>, next: nat, o: OrderID, order: Order)
    requires Line(orders, line, next) && o in orders && !orders[o].status.Pending? && !order.status.Pending?
    ensures Line(orders[o := order], line, next)
  {
  }

  /** A new order goes to the end. */
  lemma LineGrow(orders: Orders, line: seq<OrderID>, next: nat, order: Order)
    requires Line(orders, line, next) && order.status.Pending?
    ensures next + 1 !in orders && Line(orders[next + 1 := order], line + [next + 1], next + 1)
  {
    forall i | 0 <= i < |line|
      ensures line[i] <= next
    {
      assert line[i] in line;
    }
  }
}
