/** Live state and the two folds of its log, compared event by event (internal/replay/state.go lines
    163-301, apps/web/src/replayState.ts lines 51-156, internal/simulation/simulation.go lines 651-769). */
module Mirror {
  import opened Roads
  import opened Domain
  import opened Events
  import opened Fleet
  import opened Closures
  import Replay
  import WebReplay

  function Shadow(d: Driver): RDriver
  {
    RDriver(Some(d.position), Some(d.status), d.route, d.routeIndex, d.assignedOrder)
  }

  function ShadowOrder(o: Order): ROrder
  {
    ROrder(Some(o.pickup), Some(o.destination), Some(o.status), o.assignedDriver, o.createdAt)
  }

  /** The record shows the driver, but for its place on its route. */
  predicate DriverShown(r: RDriver, d: Driver)
  {
    r.position == Some(d.position) && r.status == Some(d.status) && r.route == d.route &&
    r.assignedOrder == d.assignedOrder
  }

  predicate OrderShown(r: ROrder, o: Order)
  {
    r.pickup == Some(o.pickup) && r.destination == Some(o.destination) && r.status == Some(o.status) &&
    r.assignedDriver == o.assignedDriver && r.createdAt == o.createdAt
  }

  /** A driver in the middle of moveDriver: which one, and its route index when the call began. */
  type Moving = Option<(DriverID, nat)>

  /** A replayed driver shows the live one: its route index is the live one while in step, and otherwise
      at least two behind. */
  ghost predicate Shows(r: RDriver, d: Driver, inStep: bool)
  {
    r.position == Some(d.position) && r.status == Some(d.status) && r.route == d.route &&
    r.assignedOrder == d.assignedOrder &&
    if inStep then r.routeIndex == d.routeIndex else r.routeIndex + 2 <= d.routeIndex
  }

  /** While the live driver moves the replayed one still stands where the move began. */
  ghost predicate Lags(r: RDriver, d: Driver, from: nat, inStep: bool)
  {
    r.status == Some(d.status) && r.route == d.route && r.assignedOrder == d.assignedOrder &&
    if inStep then r.routeIndex == (if d.route == [] then 0 else from) else r.routeIndex + 2 <= from
  }

  ghost predicate ShowsDriver(rs: map<DriverID, RDriver>, id: DriverID, d: Driver, desynced: set<DriverID>,
                              moving: Moving)
  {
    id in rs &&
    if moving.Some? && moving.value.0 == id then Lags(rs[id], d, moving.value.1, id !in desynced)
    else Shows(rs[id], d, id !in desynced)
  }

  ghost predicate ShowsDrivers(rs: map<DriverID, RDriver>, drivers: Drivers, desynced: set<DriverID>, moving: Moving)
  {
    rs.Keys == drivers.Keys && desynced <= drivers.Keys &&
    forall id :: id in drivers ==> ShowsDriver(rs, id, drivers[id], desynced, moving)
  }

  ghost predicate ShowsOrders(rs: map<OrderID, ROrder>, orders: Orders)
  {
    rs.Keys == orders.Keys && forall o :: o in orders ==> rs[o] == ShadowOrder(orders[o])
  }

  ghost predicate WebShowsDriver(t: WebReplay.TDriver, id: DriverID, d: Driver, moving: Moving)
  {
    t.status == Some(d.status) && ((moving.Some? && moving.value.0 == id) || t.position == Some(d.position))
  }

  ghost predicate WebShowsDrivers(ts: map<DriverID, WebReplay.TDriver>, drivers: Drivers, moving: Moving)
  {
    ts.Keys == drivers.Keys && forall id :: id in drivers ==> WebShowsDriver(ts[id], id, drivers[id], moving)
  }

  ghost predicate WebShowsOrders(ts: map<OrderID, WebReplay.TOrder>, orders: Orders)
  {
    ts.Keys == orders.Keys && forall o :: o in orders ==> ts[o] == WebReplay.SnapshotOrder(ShadowOrder(orders[o]))
  }

  /** The two folds show the same drivers. */
  ghost predicate SameDrivers(rs: map<DriverID, RDriver>, ts: map<DriverID, WebReplay.TDriver>)
  {
    rs.Keys == ts.Keys && forall id :: id in ts ==> ts[id] == WebReplay.SnapshotDriver(rs[id])
  }

  lemma SameDriverChange(rs: map<DriverID, RDriver>, ts: map<DriverID, WebReplay.TDriver>, id: DriverID, r: RDriver)
    requires SameDrivers(rs, ts)
    ensures SameDrivers(rs[id := r], ts[id := WebReplay.SnapshotDriver(r)])
  {
  }

  /** Both folds show the live drivers and orders, and the same as each other. */
  ghost predicate Mirrors(f: Replay.Frame, t: WebReplay.TFrame, drivers: Drivers, orders: Orders,
                          desynced: set<DriverID>, moving: Moving)
  {
    ShowsDrivers(f.drivers, drivers, desynced, moving) && ShowsOrders(f.orders, orders) &&
    WebShowsDrivers(t.drivers, drivers, moving) && WebShowsOrders(t.orders, orders) && SameDrivers(f.drivers, t.drivers)
  }

  /** Closures, paused flag and speed of a frame are those of the live state. */
  ghost predicate ShowsRoads(es: map<EdgeID, REdge>, c: City)
  {
    (forall n, i :: n in c.edges && 0 <= i < |c.edges[n]| ==>
      c.edges[n][i].id in es &&
      es[c.edges[n][i].id] == REdge(c.edges[n][i].from, c.edges[n][i].to, c.edges[n][i].closed)) &&
    (forall id :: id in es ==> exists n, i :: n in c.edges && 0 <= i < |c.edges[n]| && c.edges[n][i].id == id)
  }

  ghost predicate Scalars(f: Replay.Frame, t: WebReplay.TFrame, c: City, paused: bool, speed: real)
  {
    ShowsRoads(f.edges, c) && t.edges == f.edges && f.paused == paused && t.paused == paused &&
    f.speed == speed && t.speed == speed && f.sequence == t.sequence && f.time == t.time
  }

  /** The two folds show the same, also while a driver is on the move. */
  lemma FoldsAgree(f: Replay.Frame, t: WebReplay.TFrame, drivers: Drivers, orders: Orders, desynced: set<DriverID>,
                   moving: Moving, c: City, paused: bool, speed: real)
    requires Mirrors(f, t, drivers, orders, desynced, moving) && Scalars(f, t, c, paused, speed)
    ensures WebReplay.SameView(f, t)
  {
    hide ShowsDrivers, WebShowsDrivers, ShowsRoads;
  }

  // ---------------------------------------------------------------------------------------------
  // What each event touches in the two folds
  // ---------------------------------------------------------------------------------------------

  lemma EffectIdle(f: Replay.Frame, t: WebReplay.TFrame, e: Event, id: DriverID)
    requires e.payload == StatusChanged(id, Idle) && id in f.drivers && id in t.drivers
    ensures Replay.Apply(f, e).orders == f.orders && WebReplay.Apply(t, e).orders == t.orders
    ensures Replay.Apply(f, e).drivers ==
      f.drivers[id := f.drivers[id].(status := Some(Idle), route := [], routeIndex := 0, assignedOrder := None)]
    ensures WebReplay.Apply(t, e).drivers == t.drivers[id := t.drivers[id].(status := Some(Idle))]
  {
  }

  lemma EffectEnRoute(f: Replay.Frame, t: WebReplay.TFrame, e: Event, id: DriverID)
    requires e.payload == StatusChanged(id, EnRouteToPickup) && id in f.drivers && id in t.drivers
    ensures Replay.Apply(f, e).orders == f.orders && WebReplay.Apply(t, e).orders == t.orders
    ensures Replay.Apply(f, e).drivers == f.drivers[id := f.drivers[id].(status := Some(EnRouteToPickup))]
    ensures WebReplay.Apply(t, e).drivers == t.drivers[id := t.drivers[id].(status := Some(EnRouteToPickup))]
  {
  }

  lemma EffectDelivering(f: Replay.Frame, e: Event, id: DriverID, o: OrderID)
    requires e.payload == StatusChanged(id, Delivering) && id in f.drivers && f.drivers[id].assignedOrder == Some(o)
    requires o in f.orders
    ensures Replay.Apply(f, e).drivers == f.drivers[id := f.drivers[id].(status := Some(Delivering))]
    ensures Replay.Apply(f, e).orders == f.orders[o := f.orders[o].(status := Some(EnRoute))]
  {
  }

  lemma EffectAssigned(f: Replay.Frame, t: WebReplay.TFrame, e: Event, id: DriverID, o: OrderID)
    requires e.payload.OrderAssigned? && e.payload.driver == id && e.payload.order == o
    requires id in f.drivers && o in f.orders && o in t.orders
    ensures Replay.Apply(f, e).drivers == f.drivers[id := f.drivers[id].(assignedOrder := Some(o))]
    ensures WebReplay.Apply(t, e).drivers == t.drivers
    ensures Replay.Apply(f, e).orders == f.orders[o := f.orders[o].(status := Some(Assigned),
                                                                    assignedDriver := Some(id))]
    ensures WebReplay.Apply(t, e).orders == t.orders[o := t.orders[o].(status := Some(Assigned),
                                                                       assignedDriver := Some(id))]
  {
  }

  lemma EffectRoute(f: Replay.Frame, t: WebReplay.TFrame, e: Event, id: DriverID, nodes: seq<NodeID>)
    requires e.payload.RouteComputed? && e.payload.driver == id && e.payload.nodes == nodes && id in f.drivers
    ensures Replay.Apply(f, e).orders == f.orders && WebReplay.Apply(t, e).orders == t.orders
    ensures Replay.Apply(f, e).drivers == f.drivers[id := f.drivers[id].(route := nodes, routeIndex := 0)]
    ensures WebReplay.Apply(t, e).drivers == t.drivers
  {
  }

  lemma EffectPosition(f: Replay.Frame, t: WebReplay.TFrame, e: Event, id: DriverID, node: NodeID)
    requires e.payload.PositionUpdated? && e.payload.driver == id && e.payload.node == node
    requires id in f.drivers && id in t.drivers
    ensures Replay.Apply(f, e).orders == f.orders && WebReplay.Apply(t, e).orders == t.orders
    ensures Replay.Apply(f, e).drivers == f.drivers[id := Replay.Moved(f.drivers[id], node)]
    ensures WebReplay.Apply(t, e).drivers == t.drivers[id := t.drivers[id].(position := Some(node))]
  {
  }

  /** Orders created or closed by an event, as both folds record them. */
  lemma EffectOrder(f: Replay.Frame, t: WebReplay.TFrame, e: Event, o: OrderID, status: OrderStatus)
    requires o in f.orders && o in t.orders
    requires (e.payload.OrderUnassignable? && e.payload.order == o && status.Unassignable?) ||
             (e.payload.OrderDelivered? && e.payload.order == o && status.Delivered?)
    ensures Replay.Apply(f, e).drivers == f.drivers && WebReplay.Apply(t, e).drivers == t.drivers
    ensures Replay.Apply(f, e).orders == f.orders[o := f.orders[o].(status := Some(status))]
    ensures WebReplay.Apply(t, e).orders == t.orders[o := t.orders[o].(status := Some(status))]
  {
  }

  lemma EffectPlaced(f: Replay.Frame, t: WebReplay.TFrame, e: Event, o: OrderID)
    requires e.payload.OrderPlaced? && e.payload.order == o && o !in f.orders
    ensures Replay.Apply(f, e).drivers == f.drivers && WebReplay.Apply(t, e).drivers == t.drivers
    ensures Replay.Apply(f, e).orders ==
      f.orders[o := ROrder(Some(e.payload.pickup), Some(e.payload.destination), Some(Pending), None, e.time)]
    ensures WebReplay.Apply(t, e).orders ==
      t.orders[o := WebReplay.TOrder(Some(e.payload.pickup), Some(e.payload.destination), Some(Pending), None)]
  {
  }

  /** Sequence and time come from the event; roads, paused flag and speed only change with their own. */
  lemma EffectRest(f: Replay.Frame, e: Event)
    ensures Replay.Apply(f, e).sequence == e.sequence && Replay.Apply(f, e).time == e.time
    ensures Plain(e) ==> Replay.Apply(f, e).edges == f.edges
    ensures Plain(e) ==> Replay.Apply(f, e).paused == f.paused && Replay.Apply(f, e).speed == f.speed
  {
    hide Replay.Apply, Plain;
    EffectClock(f, e);
    if Plain(e) { EffectPlain(f, e); }
  }

  lemma EffectClock(f: Replay.Frame, e: Event)
    ensures Replay.Apply(f, e).sequence == e.sequence && Replay.Apply(f, e).time == e.time
  {
    hide Replay.MarkEdges, Replay.Moved, Replay.OrderIn, Replay.DriverIn;
  }

  lemma EffectPlain(f: Replay.Frame, e: Event)
    requires Plain(e)
    ensures Replay.Apply(f, e).edges == f.edges
    ensures Replay.Apply(f, e).paused == f.paused && Replay.Apply(f, e).speed == f.speed
  {
    hide Replay.MarkEdges, Replay.Moved, Replay.OrderIn, Replay.DriverIn;
  }

  lemma WebEffectRest(t: WebReplay.TFrame, e: Event)
    ensures WebReplay.Apply(t, e).sequence == e.sequence && WebReplay.Apply(t, e).time == e.time
    ensures Plain(e) ==> WebReplay.Apply(t, e).edges == t.edges
    ensures Plain(e) ==> WebReplay.Apply(t, e).paused == t.paused && WebReplay.Apply(t, e).speed == t.speed
  {
    hide WebReplay.Apply, Plain;
    WebEffectClock(t, e);
    if Plain(e) { WebEffectPlain(t, e); }
  }

  lemma WebEffectClock(t: WebReplay.TFrame, e: Event)
    ensures WebReplay.Apply(t, e).sequence == e.sequence && WebReplay.Apply(t, e).time == e.time
  {
    hide Replay.MarkEdges, WebReplay.DriverIn, WebReplay.Waiting;
  }

  lemma WebEffectPlain(t: WebReplay.TFrame, e: Event)
    requires Plain(e)
    ensures WebReplay.Apply(t, e).edges == t.edges
    ensures WebReplay.Apply(t, e).paused == t.paused && WebReplay.Apply(t, e).speed == t.speed
  {
    hide Replay.MarkEdges, WebReplay.DriverIn, WebReplay.Waiting;
  }

  predicate Plain(e: Event)
  {
    !e.payload.Snapshot? && !e.payload.RoadClosed? && !e.payload.RoadReopened? && !e.payload.PausedSet? &&
    !e.payload.SpeedSet?
  }

  // ---------------------------------------------------------------------------------------------
  // Event by event
  // ---------------------------------------------------------------------------------------------

  lemma DriverChange(rs: map<DriverID, RDriver>, drivers: Drivers, desynced: set<DriverID>, moving: Moving,
                     id: DriverID, r: RDriver, d: Driver, desynced': set<DriverID>, moving': Moving)
    requires ShowsDrivers(rs, drivers, desynced, moving) && id in drivers
    requires ShowsDriver(rs[id := r], id, d, desynced', moving')
    requires forall x :: x != id ==> (x in desynced' <==> x in desynced)
    requires moving' == moving || (moving'.None? && moving.Some? && moving.value.0 == id)
    ensures ShowsDrivers(rs[id := r], drivers[id := d], desynced', moving')
  {
    forall x | x in drivers && x != id
      ensures ShowsDriver(rs[id := r], x, drivers[x], desynced', moving')
    {
      assert ShowsDriver(rs, x, drivers[x], desynced, moving);
    }
  }

  lemma WebDriverChange(ts: map<DriverID, WebReplay.TDriver>, drivers: Drivers, moving: Moving,
                        id: DriverID, t: WebReplay.TDriver, d: Driver, moving': Moving)
    requires WebShowsDrivers(ts, drivers, moving) && id in drivers && WebShowsDriver(t, id, d, moving')
    requires moving' == moving || (moving'.None? && moving.Some? && moving.value.0 == id)
    ensures WebShowsDrivers(ts[id := t], drivers[id := d], moving')
  {
    forall x | x in drivers && x != id
      ensures WebShowsDriver(ts[x], x, drivers[x], moving')
    {
      assert WebShowsDriver(ts[x], x, drivers[x], moving);
    }
  }

  lemma OrderChange(rs: map<OrderID, ROrder>, ts: map<OrderID, WebReplay.TOrder>, orders: Orders, o: OrderID,
                    order: Order)
    requires ShowsOrders(rs, orders) && WebShowsOrders(ts, orders)
    ensures ShowsOrders(rs[o := ShadowOrder(order)], orders[o := order])
    ensures WebShowsOrders(ts[o := WebReplay.SnapshotOrder(ShadowOrder(order))], orders[o := order])
  {
  }

  /** A computed route puts the replayed driver back in step. */
  lemma OnRouteComputed(f: Replay.Frame, t: WebReplay.TFrame, drivers: Drivers, orders: Orders, desynced: set<DriverID>,
                        e: Event, id: DriverID, nodes: seq<NodeID>)
    requires Mirrors(f, t, drivers, orders, desynced, None) && id in drivers
    requires e.payload.RouteComputed? && e.payload.driver == id && e.payload.nodes == nodes
    ensures Mirrors(Replay.Apply(f, e), WebReplay.Apply(t, e),
                    drivers[id := drivers[id].(route := nodes, routeIndex := 0)], orders, desynced - {id}, None)
  {
    hide ShowsOrders, WebShowsOrders, Replay.Apply, WebReplay.Apply;
    var d := drivers[id].(route := nodes, routeIndex := 0);
    assert ShowsDriver(f.drivers, id, drivers[id], desynced, None) &&
      WebShowsDriver(t.drivers[id], id, drivers[id], None);
    EffectRoute(f, t, e, id, nodes);
    var r := f.drivers[id].(route := nodes, routeIndex := 0);
    DriverChange(f.drivers, drivers, desynced, None, id, r, d, desynced - {id}, None);
    SameDriverChange(f.drivers, t.drivers, id, r);
    WebDriverChange(t.drivers, drivers, None, id, t.drivers[id], d, None);
    assert t.drivers[id := t.drivers[id]] == t.drivers;
  }

  lemma OnOrderAssigned(f: Replay.Frame, t: WebReplay.TFrame, drivers: Drivers, orders: Orders, desynced: set<DriverID>,
                        e: Event, id: DriverID, o: OrderID)
    requires Mirrors(f, t, drivers, orders, desynced, None) && id in drivers && o in orders
    requires e.payload.OrderAssigned? && e.payload.driver == id && e.payload.order == o
    ensures Mirrors(Replay.Apply(f, e), WebReplay.Apply(t, e), drivers[id := drivers[id].(assignedOrder := Some(o))],
                    orders[o := orders[o].(status := Assigned, assignedDriver := Some(id))], desynced, None)
  {
    hide Replay.Apply, WebReplay.Apply, ShowsDrivers, WebShowsDrivers, SameDrivers, ShowsOrders, WebShowsOrders;
    AssignedShows(f, t, drivers, orders, desynced, id, o);
    EffectAssigned(f, t, e, id, o);
    OrderChange(f.orders, t.orders, orders, o, orders[o].(status := Assigned, assignedDriver := Some(id)));
  }

  lemma AssignedShows(f: Replay.Frame, t: WebReplay.TFrame, drivers: Drivers, orders: Orders, desynced: set<DriverID>,
                      id: DriverID, o: OrderID)
    requires Mirrors(f, t, drivers, orders, desynced, None) && id in drivers && o in orders
    ensures id in f.drivers && o in f.orders && f.orders[o] == ShadowOrder(orders[o])
    ensures o in t.orders && t.orders[o] == WebReplay.SnapshotOrder(ShadowOrder(orders[o]))
    ensures var d, r := drivers[id].(assignedOrder := Some(o)), f.drivers[id].(assignedOrder := Some(o));
      ShowsDrivers(f.drivers[id := r], drivers[id := d], desynced, None) &&
      WebShowsDrivers(t.drivers, drivers[id := d], None) && SameDrivers(f.drivers[id := r], t.drivers)
  {
    var d := drivers[id].(assignedOrder := Some(o));
    assert ShowsDriver(f.drivers, id, drivers[id], desynced, None) &&
      WebShowsDriver(t.drivers[id], id, drivers[id], None);
    var r := f.drivers[id].(assignedOrder := Some(o));
    DriverChange(f.drivers, drivers, desynced, None, id, r, d, desynced, None);
    SameDriverChange(f.drivers, t.drivers, id, r);
    WebDriverChange(t.drivers, drivers, None, id, t.drivers[id], d, None);
    assert t.drivers[id := t.drivers[id]] == t.drivers;
  }

  /** Back to idle, the replayed driver drops its route. */
  lemma OnIdle(f: Replay.Frame, t: WebReplay.TFrame, drivers: Drivers, orders: Orders, desynced: set<DriverID>,
               moving: Moving, e: Event, id: DriverID, d: Driver)
    requires Mirrors(f, t, drivers, orders, desynced, moving) && id in drivers
    requires e.payload == StatusChanged(id, Idle)
    requires d.status.Idle? && d.route == [] && d.routeIndex == 0 && d.assignedOrder == None
    requires d.position == drivers[id].position
    ensures Mirrors(Replay.Apply(f, e), WebReplay.Apply(t, e), drivers[id := d], orders, desynced - {id}, moving)
  {
    hide ShowsOrders, WebShowsOrders, Replay.Apply, WebReplay.Apply;
    assert ShowsDriver(f.drivers, id, drivers[id], desynced, moving) &&
      WebShowsDriver(t.drivers[id], id, drivers[id], moving);
    EffectIdle(f, t, e, id);
    var r := f.drivers[id].(status := Some(Idle), route := [], routeIndex := 0, assignedOrder := None);
    DriverChange(f.drivers, drivers, desynced, moving, id, r, d, desynced - {id}, moving);
    SameDriverChange(f.drivers, t.drivers, id, r);
    WebDriverChange(t.drivers, drivers, moving, id, t.drivers[id].(status := Some(Idle)), d, moving);
  }

  /** Setting out for the pickup changes nothing but the status. */
  lemma OnEnRoute(f: Replay.Frame, t: WebReplay.TFrame, drivers: Drivers, orders: Orders, desynced: set<DriverID>,
                  e: Event, id: DriverID)
    requires Mirrors(f, t, drivers, orders, desynced, None) && id in drivers
    requires e.payload == StatusChanged(id, EnRouteToPickup)
    ensures Mirrors(Replay.Apply(f, e), WebReplay.Apply(t, e), drivers[id := drivers[id].(status := EnRouteToPickup)],
                    orders, desynced, None)
  {
    hide ShowsOrders, WebShowsOrders, Replay.Apply, WebReplay.Apply;
    var d := drivers[id].(status := EnRouteToPickup);
    assert ShowsDriver(f.drivers, id, drivers[id], desynced, None) &&
      WebShowsDriver(t.drivers[id], id, drivers[id], None);
    EffectEnRoute(f, t, e, id);
    var r := f.drivers[id].(status := Some(EnRouteToPickup));
    DriverChange(f.drivers, drivers, desynced, None, id, r, d, desynced, None);
    SameDriverChange(f.drivers, t.drivers, id, r);
    WebDriverChange(t.drivers, drivers, None, id, t.drivers[id].(status := Some(EnRouteToPickup)), d, None);
  }

  /** The only order assigned to id and not yet collected is o. */
  ghost predicate OnlyWaiting(orders: Orders, id: DriverID, o: OrderID)
  {
    o in orders && orders[o].status.Assigned? && orders[o].assignedDriver == Some(id) &&
    forall x :: x in orders && orders[x].status.Assigned? && orders[x].assignedDriver == Some(id) ==> x == o
  }

  /** Starting the delivery puts the driver's order under way: the server looks at the driver's order,
      the browser searches for the waiting one, and both find the same. */
  lemma OnDelivering(f: Replay.Frame, t: WebReplay.TFrame, drivers: Drivers, orders: Orders, desynced: set<DriverID>,
                     moving: Moving, e: Event, id: DriverID, o: OrderID)
    requires Mirrors(f, t, drivers, orders, desynced, moving) && id in drivers
    requires drivers[id].assignedOrder == Some(o) && OnlyWaiting(orders, id, o)
    requires e.payload == StatusChanged(id, Delivering)
    ensures Mirrors(Replay.Apply(f, e), WebReplay.Apply(t, e), drivers[id := drivers[id].(status := Delivering)],
                    orders[o := orders[o].(status := EnRoute)], desynced, moving)
  {
    hide Replay.Apply, WebReplay.Apply, ShowsDrivers, WebShowsDrivers, SameDrivers, WebShowsOrders, ShowsOrders,
      OnlyWaiting;
    DeliveringShows(f, t, drivers, orders, desynced, moving, id, o);
    EffectDelivering(f, e, id, o);
    WebDelivering(t, orders, e, id, o);
  }

  lemma DeliveringShows(f: Replay.Frame, t: WebReplay.TFrame, drivers: Drivers, orders: Orders, desynced: set<DriverID>,
                        moving: Moving, id: DriverID, o: OrderID)
    requires Mirrors(f, t, drivers, orders, desynced, moving) && id in drivers && OnlyWaiting(orders, id, o)
    requires drivers[id].assignedOrder == Some(o)
    ensures id in f.drivers && id in t.drivers && o in f.orders && f.drivers[id].assignedOrder == Some(o)
    ensures var d, r := drivers[id].(status := Delivering), f.drivers[id].(status := Some(Delivering));
      var w := t.drivers[id].(status := Some(Delivering));
      ShowsDrivers(f.drivers[id := r], drivers[id := d], desynced, moving) &&
      WebShowsDrivers(t.drivers[id := w], drivers[id := d], moving) &&
      SameDrivers(f.drivers[id := r], t.drivers[id := w])
    ensures ShowsOrders(f.orders[o := f.orders[o].(status := Some(EnRoute))],
                        orders[o := orders[o].(status := EnRoute)])
  {
    var d, r := drivers[id].(status := Delivering), f.drivers[id].(status := Some(Delivering));
    assert ShowsDriver(f.drivers, id, drivers[id], desynced, moving) &&
      WebShowsDriver(t.drivers[id], id, drivers[id], moving);
    DriverChange(f.drivers, drivers, desynced, moving, id, r, d, desynced, moving);
    SameDriverChange(f.drivers, t.drivers, id, r);
    WebDriverChange(t.drivers, drivers, moving, id, t.drivers[id].(status := Some(Delivering)), d, moving);
    hide ShowsDrivers, WebShowsDrivers, ShowsDriver, WebShowsDriver, WebShowsOrders;
  }

  lemma WebDelivering(t: WebReplay.TFrame, orders: Orders, e: Event, id: DriverID, o: OrderID)
    requires WebShowsOrders(t.orders, orders) && id in t.drivers && OnlyWaiting(orders, id, o)
    requires e.payload == StatusChanged(id, Delivering)
    ensures WebReplay.Apply(t, e).drivers == t.drivers[id := t.drivers[id].(status := Some(Delivering))]
    ensures WebShowsOrders(WebReplay.Apply(t, e).orders, orders[o := orders[o].(status := EnRoute)])
  {
    var t' := t.(sequence := e.sequence, time := e.time,
                 drivers := t.drivers[id := t.drivers[id].(status := Some(Delivering))]);
    assert WebReplay.Waiting(t', id, o);
    forall x | WebReplay.Waiting(t', id, x)
      ensures x == o
    {
      assert t'.orders[x] == WebReplay.SnapshotOrder(ShadowOrder(orders[x]));
    }
  }

  /** Placing, giving up and delivering orders. */
  lemma OnOrderEvent(f: Replay.Frame, t: WebReplay.TFrame, drivers: Drivers, orders: Orders, desynced: set<DriverID>,
                     moving: Moving, e: Event, o: OrderID, order: Order)
    requires Mirrors(f, t, drivers, orders, desynced, moving)
    requires
      (e.payload.OrderPlaced? && e.payload.order == o && o !in orders &&
       order == Order(e.payload.pickup, e.payload.destination, e.time, Pending, None)) ||
      (e.payload.OrderUnassignable? && e.payload.order == o && o in orders &&
       order == orders[o].(status := Unassignable)) ||
      (e.payload.OrderDelivered? && e.payload.order == o && o in orders && order == orders[o].(status := Delivered))
    ensures Mirrors(Replay.Apply(f, e), WebReplay.Apply(t, e), drivers, orders[o := order], desynced, moving)
  {
    hide Replay.Apply, WebReplay.Apply, ShowsDrivers, WebShowsDrivers, SameDrivers;
    if e.payload.OrderPlaced? { EffectPlaced(f, t, e, o); } else { EffectOrder(f, t, e, o, order.status); }
  }

  lemma OnRouteInvalidated(f: Replay.Frame, t: WebReplay.TFrame, drivers: Drivers, orders: Orders,
                           desynced: set<DriverID>, moving: Moving, e: Event)
    requires Mirrors(f, t, drivers, orders, desynced, moving)
    requires e.payload.RouteInvalidated? || e.payload.RoadClosed? || e.payload.RoadReopened? || e.payload.PausedSet? ||
      e.payload.SpeedSet?
    ensures Mirrors(Replay.Apply(f, e), WebReplay.Apply(t, e), drivers, orders, desynced, moving)
  {
    hide ShowsDrivers, WebShowsDrivers, ShowsOrders, WebShowsOrders, SameDrivers, Replay.MarkEdges;
  }

  /** How many nodes a move passed; a delivered driver has no route left to be out of step with. */
  ghost predicate Skipped(d: Driver, from: nat)
  {
    d.route != [] && d.routeIndex > from + 1
  }

  /** The driver stands on its route, at or past `from`, and the route does not stand still. */
  ghost predicate Underway(d: Driver, from: nat)
  {
    from <= d.routeIndex < |d.route| && d.route[d.routeIndex] == d.position && Varied(d.route)
  }

  ghost function AfterReport(id: DriverID, d: Driver, from: nat, desynced: set<DriverID>): set<DriverID>
  {
    if d.route == [] then desynced - {id} else if Skipped(d, from) then desynced + {id} else desynced
  }

  /** The position event at the end of a move: one node at most can be followed. */
  lemma OnPosition(f: Replay.Frame, t: WebReplay.TFrame, drivers: Drivers, orders: Orders, desynced: set<DriverID>,
                   e: Event, id: DriverID, from: nat)
    requires Mirrors(f, t, drivers, orders, desynced, Some((id, from))) && id in drivers
    requires e.payload.PositionUpdated? && e.payload.driver == id && e.payload.node == drivers[id].position
    requires drivers[id].route == [] ==> drivers[id].routeIndex == 0 && id !in desynced
    requires drivers[id].route != [] ==> Underway(drivers[id], from)
    ensures Mirrors(Replay.Apply(f, e), WebReplay.Apply(t, e), drivers, orders,
                    AfterReport(id, drivers[id], from, desynced), None)
  {
    hide ShowsOrders, WebShowsOrders, Replay.Apply, WebReplay.Apply;
    var d := drivers[id];
    var moving := Some((id, from));
    assert ShowsDriver(f.drivers, id, d, desynced, moving) && WebShowsDriver(t.drivers[id], id, d, moving);
    EffectPosition(f, t, e, id, d.position);
    var r := Replay.Moved(f.drivers[id], d.position);
    assert ShowsDriver(f.drivers[id := r], id, d, AfterReport(id, d, from, desynced), None);
    DriverChange(f.drivers, drivers, desynced, moving, id, r, d, AfterReport(id, d, from, desynced), None);
    SameDriverChange(f.drivers, t.drivers, id, r);
    WebDriverChange(t.drivers, drivers, moving, id, t.drivers[id].(position := Some(d.position)), d, None);
    assert drivers[id := d] == drivers;
  }

  /** Exactly when a fold stays in step with a move: the driver passed at most one node, or delivered. */
  lemma InStepIff(r: RDriver, d: Driver, from: nat)
    requires Lags(r, d, from, true)
    requires d.route == [] ==> d.routeIndex == 0
    requires d.route != [] ==> Underway(d, from)
    ensures Replay.Moved(r, d.position).routeIndex == d.routeIndex <==> !Skipped(d, from)
  {
  }

  /** Starting a move: until it reports, the driver counts as moving. */
  lemma StartMove(f: Replay.Frame, t: WebReplay.TFrame, drivers: Drivers, orders: Orders, desynced: set<DriverID>,
                  id: DriverID, d: Driver, from: nat)
    requires Mirrors(f, t, drivers, orders, desynced, None) && id in drivers && drivers[id].routeIndex == from
    requires drivers[id].route != []
    ensures Mirrors(f, t, drivers, orders, desynced, Some((id, from)))
  {
    hide ShowsOrders, WebShowsOrders;
    forall x | x in drivers
      ensures ShowsDriver(f.drivers, x, drivers[x], desynced, Some((id, from)))
    {
      assert ShowsDriver(f.drivers, x, drivers[x], desynced, None);
    }
    forall x | x in drivers
      ensures WebShowsDriver(t.drivers[x], x, drivers[x], Some((id, from)))
    {
      assert WebShowsDriver(t.drivers[x], x, drivers[x], None);
    }
  }

  /** While moving, position, index and progress are free to change. */
  lemma WhileMoving(f: Replay.Frame, t: WebReplay.TFrame, drivers: Drivers, orders: Orders, desynced: set<DriverID>,
                    id: DriverID, from: nat, d: Driver)
    requires Mirrors(f, t, drivers, orders, desynced, Some((id, from))) && id in drivers
    requires d.status == drivers[id].status && d.route == drivers[id].route
    requires d.assignedOrder == drivers[id].assignedOrder
    ensures Mirrors(f, t, drivers[id := d], orders, desynced, Some((id, from)))
  {
    hide ShowsOrders, WebShowsOrders;
    var moving := Some((id, from));
    assert ShowsDriver(f.drivers, id, drivers[id], desynced, moving) &&
      WebShowsDriver(t.drivers[id], id, drivers[id], moving);
    DriverChange(f.drivers, drivers, desynced, moving, id, f.drivers[id], d, desynced, moving);
    WebDriverChange(t.drivers, drivers, moving, id, t.drivers[id], d, moving);
    assert f.drivers[id := f.drivers[id]] == f.drivers && t.drivers[id := t.drivers[id]] == t.drivers;
  }

  /** A snapshot of the live state starts both folds afresh. */
  lemma OnSnapshot(f: Replay.Frame, t: WebReplay.TFrame, drivers: Drivers, orders: Orders, c: City, paused: bool,
                   speed: real, e: Event)
    requires e.payload.Snapshot? && ShowsRoads(e.payload.edges, c) && speed > 0.0
    requires e.payload.drivers == map d | d in drivers :: Shadow(drivers[d])
    requires e.payload.orders == map o | o in orders :: ShadowOrder(orders[o])
    requires e.payload.paused == paused && e.payload.speed == speed
    ensures Mirrors(Replay.Apply(f, e), WebReplay.Apply(t, e), drivers, orders, {}, None)
    ensures Scalars(Replay.Apply(f, e), WebReplay.Apply(t, e), c, paused, speed)
  {
    var f', t' := Replay.Apply(f, e), WebReplay.Apply(t, e);
    forall x | x in drivers
      ensures ShowsDriver(f'.drivers, x, drivers[x], {}, None) && WebShowsDriver(t'.drivers[x], x, drivers[x], None)
    {
    }
  }

  /** Events about drivers and orders leave roads, paused flag and speed alone. */
  lemma ScalarsKeep(f: Replay.Frame, t: WebReplay.TFrame, c: City, paused: bool, speed: real, e: Event)
    requires Scalars(f, t, c, paused, speed)
    requires Plain(e)
    ensures Scalars(Replay.Apply(f, e), WebReplay.Apply(t, e), c, paused, speed)
  {
    hide ShowsRoads, Replay.Apply, WebReplay.Apply;
    EffectRest(f, e);
    WebEffectRest(t, e);
  }

  lemma ScalarsPaused(f: Replay.Frame, t: WebReplay.TFrame, c: City, paused: bool, speed: real, e: Event)
    requires Scalars(f, t, c, paused, speed)
    ensures e.payload.PausedSet? ==> Scalars(Replay.Apply(f, e), WebReplay.Apply(t, e), c, e.payload.paused, speed)
    ensures e.payload.SpeedSet? ==> Scalars(Replay.Apply(f, e), WebReplay.Apply(t, e), c, paused, e.payload.multiplier)
  {
  }

  // ---------------------------------------------------------------------------------------------
  // Roads
  // ---------------------------------------------------------------------------------------------

  /** The ids a closure or reopening lists: the edge and, if there is one, its reverse. */
  function RoadIds(c: City, e: Edge): seq<EdgeID>
  {
    var back := EdgeBetween(c, e.to, e.from);
    [e.id] + if back.Some? then [back.value.id] else []
  }

  /** Marking the listed edges in a frame is what happened to the city. */
  lemma RoadsMarked(es: map<EdgeID, REdge>, c: City, e: Edge, closed: bool)
    requires ShowsRoads(es, c) && Streets(c) && HasEdge(c, e) && Symmetric(c)
    ensures ShowsRoads(Replay.MarkEdges(es, RoadIds(c, e), closed), BothWays(c, e, closed))
  {
    hide ShowsRoads, WithClosed, Streets, EdgeBetween, HasEdge;
    EdgeIsBetween(c, e);
    EdgeBetweenMarked(c, e.id, closed, e.to, e.from);
    var back := EdgeBetween(c, e.to, e.from).value.id;
    assert RoadIds(c, e) == [e.id, back];
    assert BothWays(c, e, closed) == WithClosed(WithClosed(c, e.id, closed), back, closed);
    TwoMarks(c, e.id, back, closed);
    hide Symmetric, BothWays, RoadIds;
    MarkedShows(es, c, WithClosed(WithClosed(c, e.id, closed), back, closed), [e.id, back], closed);
  }

  lemma TwoMarks(c: City, a: EdgeID, b: EdgeID, closed: bool)
    ensures var c2 := WithClosed(WithClosed(c, a, closed), b, closed);
      c2.edges.Keys == c.edges.Keys && (forall n :: n in c.edges ==> |c2.edges[n]| == |c.edges[n]|) &&
      forall n, i :: n in c.edges && 0 <= i < |c.edges[n]| ==>
        c2.edges[n][i] == if c.edges[n][i].id in [a, b] then c.edges[n][i].(closed := closed) else c.edges[n][i]
  {
  }

  lemma MarkedShows(es: map<EdgeID, REdge>, c: City, c2: City, ids: seq<EdgeID>, closed: bool)
    requires ShowsRoads(es, c) && c2.edges.Keys == c.edges.Keys
    requires forall n :: n in c.edges ==> |c2.edges[n]| == |c.edges[n]|
    requires forall n, i :: n in c.edges && 0 <= i < |c.edges[n]| ==>
      c2.edges[n][i] == if c.edges[n][i].id in ids then c.edges[n][i].(closed := closed) else c.edges[n][i]
    ensures ShowsRoads(Replay.MarkEdges(es, ids, closed), c2)
  {
    var es' := Replay.MarkEdges(es, ids, closed);
    forall id | id in es'
      ensures exists n, i :: n in c2.edges && 0 <= i < |c2.edges[n]| && c2.edges[n][i].id == id
    {
      var n, i :| n in c.edges && 0 <= i < |c.edges[n]| && c.edges[n][i].id == id;
      assert c2.edges[n][i].id == id;
    }
  }

  lemma OnRoads(f: Replay.Frame, t: WebReplay.TFrame, c: City, paused: bool, speed: real, e: Event, edge: Edge,
                closed: bool)
    requires Scalars(f, t, c, paused, speed) && Streets(c) && HasEdge(c, edge) && Symmetric(c)
    requires if closed then e.payload.RoadClosed? && e.payload.edgeIds == RoadIds(c, edge)
             else e.payload == RoadReopened(RoadIds(c, edge))
    ensures Scalars(Replay.Apply(f, e), WebReplay.Apply(t, e), BothWays(c, edge, closed), paused, speed)
  {
    hide ShowsRoads, Streets, HasEdge, Symmetric, BothWays, RoadIds, Replay.MarkEdges;
    RoadsMarked(f.edges, c, edge, closed);
  }

  // ---------------------------------------------------------------------------------------------
  // The log and its two folds
  // ---------------------------------------------------------------------------------------------

  /** The emitted events next to what the server's and the browser's fold make of them. */
  datatype Tape = Tape(log: seq<Event>, frame: Replay.Frame, web: WebReplay.TFrame)

  ghost function Append(tape: Tape, e: Event): Tape
  {
    Tape(tape.log + [e], Replay.Apply(tape.frame, e), WebReplay.Apply(tape.web, e))
  }

  function BlankTape(): Tape { Tape([], Replay.EmptyFrame(), WebReplay.EmptyFrame()) }

  /** Folded up to any of its events, the log shows the same on the server and in the browser. */
  ghost predicate SameAlong(log: seq<Event>)
  {
    forall k :: 0 <= k <= |log| ==>
      WebReplay.SameView(Replay.Fold(Replay.EmptyFrame(), log[..k]), WebReplay.Fold(WebReplay.EmptyFrame(), log[..k]))
  }

  /** Sequence numbers count from 1 without gaps, and the frames are the folds of the log. */
  ghost predicate TapeOk(tape: Tape)
  {
    Numbered(tape.log) && SameAlong(tape.log) &&
    tape.frame == Replay.Fold(Replay.EmptyFrame(), tape.log) &&
    tape.web == WebReplay.Fold(WebReplay.EmptyFrame(), tape.log)
  }

  /** The part of the live state that is neither drivers nor orders. */
  datatype Town = Town(city: City, paused: bool, speed: real)

  /** The folds of the log show the live state. */
  ghost predicate Told(tape: Tape, town: Town, drivers: Drivers, orders: Orders, desynced: set<DriverID>,
                       moving: Moving)
  {
    TapeOk(tape) && Scalars(tape.frame, tape.web, town.city, town.paused, town.speed) &&
    Mirrors(tape.frame, tape.web, drivers, orders, desynced, moving)
  }

  /** The folds know the live clock exactly when no tick has passed silently since the last event. */
  ghost predicate TimeOk(tape: Tape, now: real, stale: bool)
  {
    tape.frame.sequence == |tape.log| && tape.frame.time <= now && (stale <==> tape.frame.time < now)
  }

  lemma AppendOk(tape: Tape, e: Event)
    requires TapeOk(tape) && e.sequence == |tape.log| + 1
    requires WebReplay.SameView(Replay.Apply(tape.frame, e), WebReplay.Apply(tape.web, e))
    ensures TapeOk(Append(tape, e))
  {
    hide Replay.Apply, WebReplay.Apply, WebReplay.SameView, Replay.Fold, WebReplay.Fold;
    Replay.FoldStep(Replay.EmptyFrame(), tape.log, e);
    WebReplay.FoldStep(WebReplay.EmptyFrame(), tape.log, e);
    SameOneFurther(tape.log, e);
  }

  lemma SameOneFurther(log: seq<Event>, e: Event)
    requires SameAlong(log)
    requires WebReplay.SameView(Replay.Fold(Replay.EmptyFrame(), log + [e]),
                                WebReplay.Fold(WebReplay.EmptyFrame(), log + [e]))
    ensures SameAlong(log + [e])
  {
    hide WebReplay.SameView, Replay.Fold, WebReplay.Fold;
    var log' := log + [e];
    forall k | 0 <= k <= |log'|
      ensures WebReplay.SameView(Replay.Fold(Replay.EmptyFrame(), log'[..k]),
                                 WebReplay.Fold(WebReplay.EmptyFrame(), log'[..k]))
    {
      if k <= |log| { assert log'[..k] == log[..k]; } else { assert log'[..k] == log'; }
    }
  }

  lemma AppendTime(tape: Tape, e: Event)
    requires e.sequence == |tape.log| + 1
    ensures TimeOk(Append(tape, e), e.time, false)
  {
    hide Replay.Apply, WebReplay.Apply;
    EffectRest(tape.frame, e);
  }

  /** Once an event's effect on both folds is known, the longer log is told. */
  lemma ToldAppend(tape: Tape, e: Event, town: Town, drivers: Drivers, orders: Orders, desynced: set<DriverID>,
                   moving: Moving)
    requires TapeOk(tape) && e.sequence == |tape.log| + 1
    requires Mirrors(Replay.Apply(tape.frame, e), WebReplay.Apply(tape.web, e), drivers, orders, desynced, moving)
    requires Scalars(Replay.Apply(tape.frame, e), WebReplay.Apply(tape.web, e), town.city, town.paused, town.speed)
    ensures Told(Append(tape, e), town, drivers, orders, desynced, moving)
  {
    hide Mirrors, Scalars, TapeOk, Replay.Apply, WebReplay.Apply, WebReplay.SameView;
    var f, t := Replay.Apply(tape.frame, e), WebReplay.Apply(tape.web, e);
    FoldsAgree(f, t, drivers, orders, desynced, moving, town.city, town.paused, town.speed);
    AppendOk(tape, e);
  }

  /** An event about drivers and orders, once its effect on those is known. */
  lemma ToldPlain(tape: Tape, town: Town, drivers: Drivers, orders: Orders, desynced: set<DriverID>, moving: Moving,
                  e: Event, drivers': Drivers, orders': Orders, desynced': set<DriverID>, moving': Moving)
    requires Told(tape, town, drivers, orders, desynced, moving) && Plain(e) && e.sequence == |tape.log| + 1
    requires Mirrors(Replay.Apply(tape.frame, e), WebReplay.Apply(tape.web, e), drivers', orders', desynced', moving')
    ensures Told(Append(tape, e), town, drivers', orders', desynced', moving')
  {
    hide Mirrors, Scalars, Replay.Apply, WebReplay.Apply, Plain, TapeOk;
    ScalarsKeep(tape.frame, tape.web, town.city, town.paused, town.speed, e);
    ToldAppend(tape, e, town, drivers', orders', desynced', moving');
  }

  lemma ToldIdle(tape: Tape, town: Town, drivers: Drivers, orders: Orders, desynced: set<DriverID>, moving: Moving,
                 e: Event, id: DriverID, d: Driver)
    requires Told(tape, town, drivers, orders, desynced, moving) && id in drivers
    requires e.payload == StatusChanged(id, Idle) && e.sequence == |tape.log| + 1
    requires d.status.Idle? && d.route == [] && d.routeIndex == 0 && d.assignedOrder == None
    requires d.position == drivers[id].position
    ensures Told(Append(tape, e), town, drivers[id := d], orders, desynced - {id}, moving)
  {
    hide Mirrors, Scalars, TapeOk;
    OnIdle(tape.frame, tape.web, drivers, orders, desynced, moving, e, id, d);
    ToldPlain(tape, town, drivers, orders, desynced, moving, e, drivers[id := d], orders, desynced - {id}, moving);
  }

  lemma ToldDelivering(tape: Tape, town: Town, drivers: Drivers, orders: Orders, desynced: set<DriverID>,
                       moving: Moving, e: Event, id: DriverID, o: OrderID)
    requires Told(tape, town, drivers, orders, desynced, moving) && id in drivers && o in orders
    requires drivers[id].assignedOrder == Some(o) && OnlyWaiting(orders, id, o)
    requires e.payload == StatusChanged(id, Delivering) && e.sequence == |tape.log| + 1
    ensures Told(Append(tape, e), town, drivers[id := drivers[id].(status := Delivering)],
                 orders[o := orders[o].(status := EnRoute)], desynced, moving)
  {
    hide Mirrors, Scalars, TapeOk, OnlyWaiting;
    OnDelivering(tape.frame, tape.web, drivers, orders, desynced, moving, e, id, o);
    ToldPlain(tape, town, drivers, orders, desynced, moving, e, drivers[id := drivers[id].(status := Delivering)],
              orders[o := orders[o].(status := EnRoute)], desynced, moving);
  }

  lemma ToldOrder(tape: Tape, town: Town, drivers: Drivers, orders: Orders, desynced: set<DriverID>, moving: Moving,
                  e: Event, o: OrderID, order: Order)
    requires Told(tape, town, drivers, orders, desynced, moving) && e.sequence == |tape.log| + 1
    requires
      (e.payload.OrderPlaced? && e.payload.order == o && o !in orders &&
       order == Order(e.payload.pickup, e.payload.destination, e.time, Pending, None)) ||
      (e.payload.OrderUnassignable? && e.payload.order == o && o in orders &&
       order == orders[o].(status := Unassignable)) ||
      (e.payload.OrderDelivered? && e.payload.order == o && o in orders && order == orders[o].(status := Delivered))
    ensures Told(Append(tape, e), town, drivers, orders[o := order], desynced, moving)
  {
    hide Mirrors, Scalars, TapeOk;
    OnOrderEvent(tape.frame, tape.web, drivers, orders, desynced, moving, e, o, order);
    ToldPlain(tape, town, drivers, orders, desynced, moving, e, drivers, orders[o := order], desynced, moving);
  }

  lemma ToldInvalidated(tape: Tape, town: Town, drivers: Drivers, orders: Orders, desynced: set<DriverID>, e: Event)
    requires Told(tape, town, drivers, orders, desynced, None) && e.sequence == |tape.log| + 1
    requires e.payload.RouteInvalidated?
    ensures Told(Append(tape, e), town, drivers, orders, desynced, None)
  {
    hide Mirrors, Scalars, TapeOk;
    OnRouteInvalidated(tape.frame, tape.web, drivers, orders, desynced, None, e);
    ToldPlain(tape, town, drivers, orders, desynced, None, e, drivers, orders, desynced, None);
  }

  lemma ToldRoute(tape: Tape, town: Town, drivers: Drivers, orders: Orders, desynced: set<DriverID>,
                  e: Event, id: DriverID, nodes: seq<NodeID>)
    requires Told(tape, town, drivers, orders, desynced, None) && id in drivers && e.sequence == |tape.log| + 1
    requires e.payload.RouteComputed? && e.payload.driver == id && e.payload.nodes == nodes
    ensures Told(Append(tape, e), town, drivers[id := drivers[id].(route := nodes, routeIndex := 0)], orders,
                 desynced - {id}, None)
  {
    hide Mirrors, Scalars, TapeOk;
    OnRouteComputed(tape.frame, tape.web, drivers, orders, desynced, e, id, nodes);
    ToldPlain(tape, town, drivers, orders, desynced, None, e,
              drivers[id := drivers[id].(route := nodes, routeIndex := 0)], orders, desynced - {id}, None);
  }

  lemma ToldAssigned(tape: Tape, town: Town, drivers: Drivers, orders: Orders, desynced: set<DriverID>,
                     e: Event, id: DriverID, o: OrderID)
    requires Told(tape, town, drivers, orders, desynced, None) && id in drivers && o in orders
    requires e.sequence == |tape.log| + 1
    requires e.payload.OrderAssigned? && e.payload.driver == id && e.payload.order == o
    ensures Told(Append(tape, e), town, drivers[id := drivers[id].(assignedOrder := Some(o))],
                 orders[o := orders[o].(status := Assigned, assignedDriver := Some(id))], desynced, None)
  {
    hide Mirrors, Scalars, TapeOk;
    OnOrderAssigned(tape.frame, tape.web, drivers, orders, desynced, e, id, o);
    ToldPlain(tape, town, drivers, orders, desynced, None, e, drivers[id := drivers[id].(assignedOrder := Some(o))],
              orders[o := orders[o].(status := Assigned, assignedDriver := Some(id))], desynced, None);
  }

  lemma ToldEnRoute(tape: Tape, town: Town, drivers: Drivers, orders: Orders, desynced: set<DriverID>, e: Event,
                    id: DriverID)
    requires Told(tape, town, drivers, orders, desynced, None) && id in drivers && e.sequence == |tape.log| + 1
    requires e.payload == StatusChanged(id, EnRouteToPickup)
    ensures Told(Append(tape, e), town, drivers[id := drivers[id].(status := EnRouteToPickup)], orders, desynced, None)
  {
    hide Mirrors, Scalars, TapeOk;
    OnEnRoute(tape.frame, tape.web, drivers, orders, desynced, e, id);
    ToldPlain(tape, town, drivers, orders, desynced, None, e,
              drivers[id := drivers[id].(status := EnRouteToPickup)], orders, desynced, None);
  }

  lemma ToldPosition(tape: Tape, town: Town, drivers: Drivers, orders: Orders, desynced: set<DriverID>,
                     e: Event, id: DriverID, from: nat)
    requires Told(tape, town, drivers, orders, desynced, Some((id, from))) && id in drivers
    requires e.sequence == |tape.log| + 1
    requires e.payload.PositionUpdated? && e.payload.driver == id && e.payload.node == drivers[id].position
    requires drivers[id].route == [] ==> drivers[id].routeIndex == 0 && id !in desynced
    requires drivers[id].route != [] ==> Underway(drivers[id], from)
    ensures Told(Append(tape, e), town, drivers, orders, AfterReport(id, drivers[id], from, desynced), None)
  {
    hide Mirrors, Scalars, TapeOk, Underway, AfterReport;
    OnPosition(tape.frame, tape.web, drivers, orders, desynced, e, id, from);
    ToldPlain(tape, town, drivers, orders, desynced, Some((id, from)), e, drivers, orders,
              AfterReport(id, drivers[id], from, desynced), None);
  }

  lemma ToldStart(tape: Tape, town: Town, drivers: Drivers, orders: Orders, desynced: set<DriverID>, id: DriverID,
                  from: nat)
    requires Told(tape, town, drivers, orders, desynced, None) && id in drivers
    requires drivers[id].route != [] && drivers[id].routeIndex == from
    ensures Told(tape, town, drivers, orders, desynced, Some((id, from)))
  {
    hide Mirrors, Scalars, TapeOk;
    StartMove(tape.frame, tape.web, drivers, orders, desynced, id, drivers[id], from);
  }

  lemma ToldMoving(tape: Tape, town: Town, drivers: Drivers, orders: Orders, desynced: set<DriverID>,
                   id: DriverID, from: nat, d: Driver)
    requires Told(tape, town, drivers, orders, desynced, Some((id, from))) && id in drivers
    requires d.status == drivers[id].status && d.route == drivers[id].route
    requires d.assignedOrder == drivers[id].assignedOrder
    ensures Told(tape, town, drivers[id := d], orders, desynced, Some((id, from)))
  {
    hide Mirrors, Scalars, TapeOk;
    WhileMoving(tape.frame, tape.web, drivers, orders, desynced, id, from, d);
  }

  lemma ToldRoads(tape: Tape, town: Town, drivers: Drivers, orders: Orders, desynced: set<DriverID>, e: Event,
                  edge: Edge, closed: bool)
    requires Told(tape, town, drivers, orders, desynced, None) && e.sequence == |tape.log| + 1
    requires Streets(town.city) && HasEdge(town.city, edge) && Symmetric(town.city)
    requires if closed then e.payload.RoadClosed? && e.payload.edgeIds == RoadIds(town.city, edge)
             else e.payload == RoadReopened(RoadIds(town.city, edge))
    ensures Told(Append(tape, e), town.(city := BothWays(town.city, edge, closed)), drivers, orders, desynced, None)
  {
    hide Mirrors, Scalars, TapeOk, Streets, HasEdge, Symmetric, BothWays, RoadIds;
    OnRoads(tape.frame, tape.web, town.city, town.paused, town.speed, e, edge, closed);
    OnRouteInvalidated(tape.frame, tape.web, drivers, orders, desynced, None, e);
    ToldAppend(tape, e, town.(city := BothWays(town.city, edge, closed)), drivers, orders, desynced, None);
  }

  lemma ToldSetting(tape: Tape, town: Town, drivers: Drivers, orders: Orders, desynced: set<DriverID>, e: Event)
    requires Told(tape, town, drivers, orders, desynced, None) && e.sequence == |tape.log| + 1
    ensures e.payload.PausedSet? ==>
      Told(Append(tape, e), town.(paused := e.payload.paused), drivers, orders, desynced, None)
    ensures e.payload.SpeedSet? ==>
      Told(Append(tape, e), town.(speed := e.payload.multiplier), drivers, orders, desynced, None)
  {
    hide Mirrors, Scalars, TapeOk;
    ScalarsPaused(tape.frame, tape.web, town.city, town.paused, town.speed, e);
    if e.payload.PausedSet? {
      OnRouteInvalidated(tape.frame, tape.web, drivers, orders, desynced, None, e);
      ToldAppend(tape, e, town.(paused := e.payload.paused), drivers, orders, desynced, None);
    }
    if e.payload.SpeedSet? {
      OnRouteInvalidated(tape.frame, tape.web, drivers, orders, desynced, None, e);
      ToldAppend(tape, e, town.(speed := e.payload.multiplier), drivers, orders, desynced, None);
    }
  }

  lemma ToldSnapshot(tape: Tape, town: Town, drivers: Drivers, orders: Orders, e: Event)
    requires TapeOk(tape) && e.sequence == |tape.log| + 1 && town.speed > 0.0
    requires e.payload.Snapshot? && ShowsRoads(e.payload.edges, town.city)
    requires e.payload.drivers == map d | d in drivers :: Shadow(drivers[d])
    requires e.payload.orders == map o | o in orders :: ShadowOrder(orders[o])
    requires e.payload.paused == town.paused && e.payload.speed == town.speed
    ensures Told(Append(tape, e), town, drivers, orders, {}, None)
  {
    hide Mirrors, Scalars, TapeOk, ShowsRoads;
    OnSnapshot(tape.frame, tape.web, drivers, orders, town.city, town.paused, town.speed, e);
    ToldAppend(tape, e, town, drivers, orders, {}, None);
  }

  /** What a reader of this file is after: at every boundary the server's fold of the whole log has the
      live orders, roads, paused flag and speed, and the live drivers, exactly those out of step with an
      older route index. */
  lemma ToldMeans(tape: Tape, town: Town, drivers: Drivers, orders: Orders, desynced: set<DriverID>)
    requires Told(tape, town, drivers, orders, desynced, None)
    ensures var f := Replay.Fold(Replay.EmptyFrame(), tape.log);
      f.orders == (map o | o in orders :: ShadowOrder(orders[o])) && f.drivers.Keys == drivers.Keys &&
      (forall d :: d in drivers ==> (f.drivers[d] == Shadow(drivers[d]) <==> d !in desynced)) &&
      (forall d :: d in drivers ==> f.drivers[d].(routeIndex := 0) == Shadow(drivers[d]).(routeIndex := 0)) &&
      ShowsRoads(f.edges, town.city) && f.paused == town.paused && f.speed == town.speed
    ensures Replay.Fold(Replay.EmptyFrame(), tape.log).drivers == (map d | d in drivers :: Shadow(drivers[d])) <==>
      desynced == {}
  {
    hide ShowsRoads, WebShowsDrivers, WebShowsOrders, SameDrivers;
    forall d | d in drivers
      ensures ShowsDriver(tape.frame.drivers, d, drivers[d], desynced, None)
    {
    }
    assert desynced <= drivers.Keys;
  }

  /** ... and folded up to any of its events, the log shows the same on the server and in the browser. */
  lemma ToldAlike(tape: Tape, town: Town, drivers: Drivers, orders: Orders, desynced: set<DriverID>, k: nat)
    requires Told(tape, town, drivers, orders, desynced, None) && k <= |tape.log|
    ensures WebReplay.SameView(Replay.Fold(Replay.EmptyFrame(), tape.log[..k]),
                               WebReplay.Fold(WebReplay.EmptyFrame(), tape.log[..k]))
  {
    hide Mirrors, Scalars, Numbered, WebReplay.SameView, Replay.Fold, WebReplay.Fold;
  }

  lemma OnlyWaitingFrom(drivers: Drivers, orders: Orders, id: DriverID, o: OrderID)
    requires Matched(drivers, orders) && id in drivers && drivers[id].status.EnRouteToPickup?
    requires drivers[id].assignedOrder == Some(o)
    ensures OnlyWaiting(orders, id, o)
  {
    assert Engaged(id, drivers[id], orders);
    forall x | x in orders && orders[x].status.Assigned? && orders[x].assignedDriver == Some(id)
      ensures x == o
    {
      assert Owned(x, orders[x], drivers);
    }
  }

  /** A free driver has no waiting order, so the one it takes is the only one. */
  lemma OnlyWaitingTaken(drivers: Drivers, orders: Orders, id: DriverID, o: OrderID, order: Order)
    requires Matched(drivers, orders) && id in drivers && drivers[id].status.Idle?
    requires order.status.Assigned? && order.assignedDriver == Some(id)
    ensures OnlyWaiting(orders[o := order], id, o)
  {
    forall x | x in orders
      ensures !(orders[x].status.Assigned? && orders[x].assignedDriver == Some(id))
    {
      NotWaiting(drivers, orders, id, x);
    }
  }

  lemma NotWaiting(drivers: Drivers, orders: Orders, id: DriverID, x: OrderID)
    requires Matched(drivers, orders) && id in drivers && drivers[id].status.Idle? && x in orders
    ensures !(orders[x].status.Assigned? && orders[x].assignedDriver == Some(id))
  {
    assert Engaged(id, drivers[id], orders) && Owned(x, orders[x], drivers);
  }

  /** The roads of a snapshot (simulation.go lines 707-717), collected edge by edge. */
  method SnapshotEdges(c: City) returns (es: map<EdgeID, REdge>)
    requires UniqueIds(c) && WellFormed(c)
    ensures ShowsRoads(es, c)
  {
    es := map[];
    var rest := c.edges.Keys;
    while rest != {}
      invariant rest <= c.edges.Keys
      invariant forall n :: ListedUpTo(es, c, c.edges.Keys - rest, n, 0)
      decreases |rest|
    {
      var n :| n in rest;
      ghost var done := c.edges.Keys - rest;
      es := ListEdges(es, c, done, n);
      rest := rest - {n};
      assert c.edges.Keys - rest == done + {n};
      forall m
        ensures ListedUpTo(es, c, c.edges.Keys - rest, m, 0)
      {
        ListNext(es, c, done, n, m);
      }
    }
    assert c.edges.Keys - rest == c.edges.Keys;
    ListAll(es, c);
  }

  lemma ListNext(es: map<EdgeID, REdge>, c: City, done: set<NodeID>, n: NodeID, m: NodeID)
    requires n in c.edges && ListedUpTo(es, c, done, n, |c.edges[n]|)
    ensures ListedUpTo(es, c, done + {n}, m, 0)
  {
    forall x, i
      ensures InList(c, done, n, |c.edges[n]|, x, i) <==> InList(c, done + {n}, m, 0, x, i)
    {
    }
  }

  lemma ListAll(es: map<EdgeID, REdge>, c: City)
    requires forall n :: ListedUpTo(es, c, c.edges.Keys, n, 0)
    ensures ShowsRoads(es, c)
  {
    var n := NodeID(0, 0);
    assert ListedUpTo(es, c, c.edges.Keys, n, 0);
    forall m, i | m in c.edges && 0 <= i < |c.edges[m]|
      ensures InList(c, c.edges.Keys, n, 0, m, i)
    {
    }
  }

  method ListEdges(es0: map<EdgeID, REdge>, c: City, ghost done: set<NodeID>, n: NodeID)
    returns (es: map<EdgeID, REdge>)
    requires UniqueIds(c) && done <= c.edges.Keys && n in c.edges && n !in done && ListedUpTo(es0, c, done, n, 0)
    ensures ListedUpTo(es, c, done, n, |c.edges[n]|)
  {
    es := es0;
    for k := 0 to |c.edges[n]|
      invariant ListedUpTo(es, c, done, n, k)
    {
      var e := c.edges[n][k];
      ListStep(es, c, done, n, k);
      es := es[e.id := REdge(e.from, e.to, e.closed)];
    }
  }

  ghost predicate InList(c: City, done: set<NodeID>, n: NodeID, k: nat, m: NodeID, i: int)
  {
    m in c.edges && 0 <= i < |c.edges[m]| && (m in done || (m == n && i < k))
  }

  ghost predicate ListedUpTo(es: map<EdgeID, REdge>, c: City, done: set<NodeID>, n: NodeID, k: nat)
  {
    (forall m, i :: InList(c, done, n, k, m, i) ==>
      c.edges[m][i].id in es &&
      es[c.edges[m][i].id] == REdge(c.edges[m][i].from, c.edges[m][i].to, c.edges[m][i].closed)) &&
    (forall id :: id in es ==> exists m, i :: InList(c, done, n, k, m, i) && c.edges[m][i].id == id)
  }

  lemma ListStep(es: map<EdgeID, REdge>, c: City, done: set<NodeID>, n: NodeID, k: nat)
    requires UniqueIds(c) && n in c.edges && k < |c.edges[n]| && n !in done && ListedUpTo(es, c, done, n, k)
    ensures var e := c.edges[n][k]; ListedUpTo(es[e.id := REdge(e.from, e.to, e.closed)], c, done, n, k + 1)
  {
    var e := c.edges[n][k];
    var es' := es[e.id := REdge(e.from, e.to, e.closed)];
    forall id | id in es'
      ensures exists m, i :: InList(c, done, n, k + 1, m, i) && c.edges[m][i].id == id
    {
      if id == e.id {
        assert InList(c, done, n, k + 1, n, k);
      } else {
        var m, i :| InList(c, done, n, k, m, i) && c.edges[m][i].id == id;
        assert InList(c, done, n, k + 1, m, i);
      }
    }
    forall m, i | InList(c, done, n, k + 1, m, i)
      ensures c.edges[m][i].id in es'
      ensures es'[c.edges[m][i].id] == REdge(c.edges[m][i].from, c.edges[m][i].to, c.edges[m][i].closed)
    {
      if c.edges[m][i].id != e.id { assert InList(c, done, n, k, m, i); }
    }
  }
}
