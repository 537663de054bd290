/** The events a simulation emits (internal/domain/event.go and the payloads built in
    internal/simulation/simulation.go). */
module Events {
  import opened Roads
  import opened Domain

  /** Drivers, orders and roads as snapshots and replayed states carry them (internal/replay/state.go
      lines 17-46). None is the zero value a record created out of nowhere starts with. */
  datatype RDriver = RDriver(position: Option<NodeID>, status: Option<DriverStatus>, route: seq<NodeID>,
                             routeIndex: nat, assignedOrder: Option<OrderID>)

  datatype ROrder = ROrder(pickup: Option<NodeID>, destination: Option<NodeID>, status: Option<OrderStatus>,
                           assignedDriver: Option<DriverID>, createdAt: real)

  datatype REdge = REdge(from: NodeID, to: NodeID, closed: bool)

  datatype Payload =
    | Snapshot(edges: map<EdgeID, REdge>, drivers: map<DriverID, RDriver>, orders: map<OrderID, ROrder>,
               paused: bool, speed: real)
    | OrderPlaced(order: OrderID, pickup: NodeID, destination: NodeID)
    | OrderAssigned(order: OrderID, driver: DriverID, pickupEta: real, pickupDistance: real)
    | OrderUnassignable(order: OrderID)
    | OrderDelivered(order: OrderID, driver: DriverID)
    | PositionUpdated(driver: DriverID, node: NodeID, routeIndex: nat, routeProgress: real)
    | StatusChanged(driver: DriverID, status: DriverStatus)
    | RouteComputed(driver: DriverID, nodes: seq<NodeID>, distance: real)
    | RouteInvalidated(driver: DriverID, order: OrderID)
    | RoadClosed(edgeIds: seq<EdgeID>, affectedRoutes: nat)
    | RoadReopened(edgeIds: seq<EdgeID>)
    | PausedSet(paused: bool)
    | SpeedSet(multiplier: real)

  datatype Event = Event(sequence: nat, time: real, payload: Payload, causation: Option<string>)

  /** The log only grew, by events of one time and cause. */
  ghost predicate Grows(before: seq<Event>, after: seq<Event>, time: real, cause: Option<string>)
  {
    before <= after && forall k :: |before| <= k < |after| ==> after[k].time == time && after[k].causation == cause
  }

  /** ... namely by events with these payloads, in this order. */
  ghost predicate Adds(before: seq<Event>, after: seq<Event>, payloads: seq<Payload>, time: real, cause: Option<string>)
  {
    Grows(before, after, time, cause) && |after| == |before| + |payloads| &&
    forall k :: 0 <= k < |payloads| ==> after[|before| + k].payload == payloads[k]
  }

  lemma AddsNothing(log: seq<Event>, time: real, cause: Option<string>)
    ensures Adds(log, log, [], time, cause)
  {
  }

  lemma AddsOne(log: seq<Event>, e: Event)
    ensures Adds(log, log + [e], [e.payload], e.time, e.causation)
  {
  }

  lemma AddsMore(a: seq<Event>, b: seq<Event>, c: seq<Event>, p: seq<Payload>, q: seq<Payload>, time: real,
                 cause: Option<string>)
    requires Adds(a, b, p, time, cause) && Adds(b, c, q, time, cause)
    ensures Adds(a, c, p + q, time, cause)
  {
    GrowsMore(a, b, c, time, cause);
    forall k | 0 <= k < |p + q|
      ensures c[|a| + k].payload == (p + q)[k]
    {
      if k < |p| { assert c[|a| + k] == b[|a| + k]; } else { assert c[|b| + (k - |p|)].payload == q[k - |p|]; }
    }
  }

  lemma GrowsMore(a: seq<Event>, b: seq<Event>, c: seq<Event>, time: real, cause: Option<string>)
    requires Grows(a, b, time, cause) && Grows(b, c, time, cause)
    ensures Grows(a, c, time, cause)
  {
    forall k | |a| <= k < |c|
      ensures c[k].time == time && c[k].causation == cause
    {
      if k < |b| { assert c[k] == b[k]; }
    }
  }

  lemma AddsGrows(a: seq<Event>, b: seq<Event>, p: seq<Payload>, time: real, cause: Option<string>)
    requires Adds(a, b, p, time, cause)
    ensures Grows(a, b, time, cause)
  {
  }

  lemma GrowsNothing(log: seq<Event>, time: real, cause: Option<string>)
    ensures Grows(log, log, time, cause)
  {
  }

  /** An emitted log is numbered from 1 without gaps. */
  ghost predicate Numbered(log: seq<Event>)
  {
    forall k :: 0 <= k < |log| ==> log[k].sequence == k + 1
  }
}

/** The event fold of the server (internal/replay/state.go). */
module Replay {
  import opened Roads
  import opened Domain
  import opened Events

  datatype Frame = Frame(sequence: nat, time: real, edges: map<EdgeID, REdge>, drivers: map<DriverID, RDriver>,
                         orders: map<OrderID, ROrder>, paused: bool, speed: real)

  function EmptyFrame(): Frame
  {
    Frame(0, 0.0, map[], map[], map[], false, 1.0)
  }

  function DriverIn(f: Frame, id: DriverID): RDriver
  {
    if id in f.drivers then f.drivers[id] else RDriver(None, None, [], 0, None)
  }

  function OrderIn(f: Frame, id: OrderID): ROrder
  {
    if id in f.orders then f.orders[id] else ROrder(None, None, None, None, 0.0)
  }

  function WithDriver(f: Frame, id: DriverID, d: RDriver): Frame { f.(drivers := f.drivers[id := d]) }

  function WithOrder(f: Frame, id: OrderID, o: ROrder): Frame { f.(orders := f.orders[id := o]) }

  function MarkEdges(edges: map<EdgeID, REdge>, ids: seq<EdgeID>, closed: bool): map<EdgeID, REdge>
  {
    map id | id in edges :: if id in ids then edges[id].(closed := closed) else edges[id]
  }

  /** A replayed driver follows its route by at most one node per position event. */
  function Moved(d: RDriver, node: NodeID): RDriver
  {
    d.(position := Some(node),
       routeIndex := if d.routeIndex + 1 < |d.route| && d.route[d.routeIndex + 1] == node then d.routeIndex + 1
                     else d.routeIndex)
  }

  /** One event (state.go lines 163-301). */
  function Apply(before: Frame, e: Event): Frame
  {
    var f := before.(sequence := e.sequence, time := e.time);
    match e.payload
    case Snapshot(edges, drivers, orders, paused, speed) =>
      f.(edges := edges, drivers := drivers, orders := orders, paused := paused,
         speed := if speed == 0.0 then 1.0 else speed)
    case OrderPlaced(o, pickup, destination) =>
      WithOrder(f, o, OrderIn(f, o).(pickup := Some(pickup), destination := Some(destination),
                                     status := Some(Pending), createdAt := e.time))
    case OrderAssigned(o, d, _, _) =>
      WithDriver(WithOrder(f, o, OrderIn(f, o).(status := Some(Assigned), assignedDriver := Some(d))),
                 d, DriverIn(f, d).(assignedOrder := Some(o)))
    case OrderUnassignable(o) => WithOrder(f, o, OrderIn(f, o).(status := Some(Unassignable)))
    case OrderDelivered(o, _) => WithOrder(f, o, OrderIn(f, o).(status := Some(Delivered)))
    case PositionUpdated(d, node, _, _) => WithDriver(f, d, Moved(DriverIn(f, d), node))
    case StatusChanged(d, status) =>
      var r := DriverIn(f, d).(status := Some(status));
      if status.Idle? then WithDriver(f, d, r.(route := [], routeIndex := 0, assignedOrder := None))
      else if status.Delivering? && r.assignedOrder.Some? then
        WithOrder(WithDriver(f, d, r), r.assignedOrder.value,
                  OrderIn(f, r.assignedOrder.value).(status := Some(EnRoute)))
      else WithDriver(f, d, r)
    case RouteComputed(d, nodes, _) => WithDriver(f, d, DriverIn(f, d).(route := nodes, routeIndex := 0))
    case RouteInvalidated(_, _) => f
    case RoadClosed(ids, _) => f.(edges := MarkEdges(f.edges, ids, true))
    case RoadReopened(ids) => f.(edges := MarkEdges(f.edges, ids, false))
    case PausedSet(paused) => f.(paused := paused)
    case SpeedSet(multiplier) => f.(speed := multiplier)
  }

  /** Events applied in order. */
  function Fold(f: Frame, log: seq<Event>): Frame
  {
    if log == [] then f else Apply(Fold(f, log[..|log| - 1]), log[|log| - 1])
  }

  lemma FoldStep(f: Frame, log: seq<Event>, e: Event)
    ensures Fold(f, log + [e]) == Apply(Fold(f, log), e)
  {
    assert (log + [e])[..|log|] == log;
  }

  lemma {:induction false} FoldSplit(f: Frame, a: seq<Event>, b: seq<Event>)
    ensures Fold(f, a + b) == Fold(Fold(f, a), b)
  {
    if b == [] {
      assert a + b == a;
    } else {
      var b' := b[..|b| - 1];
      FoldSplit(f, a, b');
      assert (a + b)[..|a + b| - 1] == a + b';
    }
  }

  /** A frame's time is that of the last event. */
  lemma {:induction false} FoldTime(f: Frame, log: seq<Event>)
    ensures Fold(f, log).time == if log == [] then f.time else log[|log| - 1].time
  {
    if log != [] { ApplyTime(Fold(f, log[..|log| - 1]), log[|log| - 1]); }
  }

  lemma ApplyTime(f: Frame, e: Event)
    ensures Apply(f, e).time == e.time && Apply(f, e).sequence == e.sequence
  {
    hide MarkEdges, DriverIn, OrderIn, Moved;
  }

  /** Two frames that agree but for the route indices of the drivers in `off` and, if `late`, the time. */
  ghost predicate Agree(a: Frame, b: Frame, off: set<DriverID>, late: bool)
  {
    a.sequence == b.sequence && a.edges == b.edges && a.orders == b.orders && a.paused == b.paused &&
    a.speed == b.speed && (!late ==> a.time == b.time) && a.drivers.Keys == b.drivers.Keys &&
    forall d :: d in a.drivers ==> if d in off then SameButIndex(a.drivers[d], b.drivers[d])
                                   else a.drivers[d] == b.drivers[d]
  }

  predicate SameButIndex(a: RDriver, b: RDriver)
  {
    a.(routeIndex := 0) == b.(routeIndex := 0)
  }

  /** The drivers an event leaves out of step: a snapshot mends all, a new route or going idle mends its
      driver. */
  function Mended(off: set<DriverID>, e: Event): set<DriverID>
  {
    match e.payload
    case Snapshot(_, _, _, _, _) => {}
    case RouteComputed(d, _, _) => off - {d}
    case StatusChanged(d, status) => if status.Idle? then off - {d} else off
    case _ => off
  }

  function MendedBy(off: set<DriverID>, log: seq<Event>): set<DriverID>
  {
    if log == [] then off else Mended(MendedBy(off, log[..|log| - 1]), log[|log| - 1])
  }

  lemma AgreeDriver(a: Frame, b: Frame, off: set<DriverID>, late: bool, id: DriverID)
    requires Agree(a, b, off, late)
    ensures if id in off then SameButIndex(DriverIn(a, id), DriverIn(b, id)) else DriverIn(a, id) == DriverIn(b, id)
  {
  }

  lemma AgreeWithDriver(a: Frame, b: Frame, off: set<DriverID>, off': set<DriverID>, id: DriverID, da: RDriver,
                        db: RDriver)
    requires Agree(a, b, off, false) && off - {id} <= off' <= off
    requires if id in off' then SameButIndex(da, db) else da == db
    ensures Agree(WithDriver(a, id, da), WithDriver(b, id, db), off', false)
  {
  }

  lemma AgreeWithOrder(a: Frame, b: Frame, off: set<DriverID>, o: OrderID, order: ROrder)
    requires Agree(a, b, off, false)
    ensures Agree(WithOrder(a, o, order), WithOrder(b, o, order), off, false) && OrderIn(a, o) == OrderIn(b, o)
  {
  }

  lemma AgreeDated(a: Frame, b: Frame, off: set<DriverID>, late: bool, sequence: nat, time: real)
    requires Agree(a, b, off, late)
    ensures Agree(a.(sequence := sequence, time := time), b.(sequence := sequence, time := time), off, false)
  {
  }

  lemma StatusAgrees(a: Frame, b: Frame, off: set<DriverID>, late: bool, e: Event)
    requires Agree(a, b, off, late) && e.payload.StatusChanged?
    ensures Agree(Apply(a, e), Apply(b, e), Mended(off, e), false)
  {
    hide Agree;
    var f, g := a.(sequence := e.sequence, time := e.time), b.(sequence := e.sequence, time := e.time);
    var d, status := e.payload.driver, e.payload.status;
    AgreeDated(a, b, off, late, e.sequence, e.time);
    AgreeDriver(f, g, off, false, d);
    var da, db := DriverIn(f, d).(status := Some(status)), DriverIn(g, d).(status := Some(status));
    if status.Idle? {
      AgreeWithDriver(f, g, off, off - {d}, d, da.(route := [], routeIndex := 0, assignedOrder := None),
                      db.(route := [], routeIndex := 0, assignedOrder := None));
    } else {
      AgreeWithDriver(f, g, off, off, d, da, db);
      if status.Delivering? && da.assignedOrder.Some? {
        var o := da.assignedOrder.value;
        AgreeWithOrder(f, g, off, o, OrderIn(f, o));
        AgreeWithOrder(WithDriver(f, d, da), WithDriver(g, d, db), off, o, OrderIn(f, o).(status := Some(EnRoute)));
      }
    }
  }

  lemma DriverAgrees(a: Frame, b: Frame, off: set<DriverID>, late: bool, e: Event)
    requires Agree(a, b, off, late)
    requires e.payload.PositionUpdated? || e.payload.RouteComputed? || e.payload.OrderAssigned?
    ensures Agree(Apply(a, e), Apply(b, e), Mended(off, e), false)
  {
    hide Agree;
    var f, g := a.(sequence := e.sequence, time := e.time), b.(sequence := e.sequence, time := e.time);
    AgreeDated(a, b, off, late, e.sequence, e.time);
    AgreeDriver(f, g, off, false, e.payload.driver);
    var da, db := DriverIn(f, e.payload.driver), DriverIn(g, e.payload.driver);
    match e.payload
    case PositionUpdated(d, node, _, _) => AgreeWithDriver(f, g, off, off, d, Moved(da, node), Moved(db, node));
    case RouteComputed(d, nodes, _) =>
      AgreeWithDriver(f, g, off, off - {d}, d, da.(route := nodes, routeIndex := 0),
                      db.(route := nodes, routeIndex := 0));
    case OrderAssigned(o, d, _, _) =>
      AgreeWithOrder(f, g, off, o, OrderIn(f, o));
      var order := OrderIn(f, o).(status := Some(Assigned), assignedDriver := Some(d));
      AgreeWithOrder(f, g, off, o, order);
      AgreeWithDriver(WithOrder(f, o, order), WithOrder(g, o, order), off, off, d, da.(assignedOrder := Some(o)),
                      db.(assignedOrder := Some(o)));
  }

  /** Applying an event to both keeps them in agreement: the time is right again at once, and no driver
      gets out of step. */
  lemma ApplyAgrees(a: Frame, b: Frame, off: set<DriverID>, late: bool, e: Event)
    requires Agree(a, b, off, late)
    ensures Agree(Apply(a, e), Apply(b, e), Mended(off, e), false)
  {
    hide Agree, Apply, Mended;
    match e.payload
    case StatusChanged(_, _) => StatusAgrees(a, b, off, late, e);
    case PositionUpdated(_, _, _, _) => DriverAgrees(a, b, off, late, e);
    case RouteComputed(_, _, _) => DriverAgrees(a, b, off, late, e);
    case OrderAssigned(_, _, _, _) => DriverAgrees(a, b, off, late, e);
    case OrderPlaced(_, _, _) => OrderAgrees(a, b, off, late, e);
    case OrderUnassignable(_) => OrderAgrees(a, b, off, late, e);
    case OrderDelivered(_, _) => OrderAgrees(a, b, off, late, e);
    case _ => RestAgrees(a, b, off, late, e);
  }

  lemma OrderAgrees(a: Frame, b: Frame, off: set<DriverID>, late: bool, e: Event)
    requires Agree(a, b, off, late)
    requires e.payload.OrderPlaced? || e.payload.OrderUnassignable? || e.payload.OrderDelivered?
    ensures Agree(Apply(a, e), Apply(b, e), Mended(off, e), false)
  {
    hide Agree;
    var f, g := a.(sequence := e.sequence, time := e.time), b.(sequence := e.sequence, time := e.time);
    var o := e.payload.order;
    AgreeDated(a, b, off, late, e.sequence, e.time);
    AgreeWithOrder(f, g, off, o, OrderIn(Apply(a, e), o));
    AgreeWithOrder(f, g, off, o, OrderIn(f, o));
  }

  lemma RestAgrees(a: Frame, b: Frame, off: set<DriverID>, late: bool, e: Event)
    requires Agree(a, b, off, late)
    requires e.payload.Snapshot? || e.payload.RouteInvalidated? || e.payload.RoadClosed? || e.payload.RoadReopened? ||
      e.payload.PausedSet? || e.payload.SpeedSet?
    ensures Agree(Apply(a, e), Apply(b, e), Mended(off, e), false)
  {
    hide WithDriver, WithOrder, DriverIn, OrderIn, Moved, SameButIndex;
  }

  /** ... and so does folding a whole stretch of the log. */
  lemma {:induction false} FoldAgrees(a: Frame, b: Frame, off: set<DriverID>, late: bool, log: seq<Event>)
    requires Agree(a, b, off, late)
    ensures Agree(Fold(a, log), Fold(b, log), MendedBy(off, log), late && log == [])
  {
    hide Agree, Apply, Mended;
    if log != [] {
      var shorter := log[..|log| - 1];
      FoldAgrees(a, b, off, late, shorter);
      ApplyAgrees(Fold(a, shorter), Fold(b, shorter), MendedBy(off, shorter), late && shorter == [], log[|log| - 1]);
    }
  }

  /** In step and on time, agreement is equality. */
  lemma AgreeIsEqual(a: Frame, b: Frame)
    requires Agree(a, b, {}, false)
    ensures a == b
  {
    assert a.drivers == b.drivers;
  }
}

/** The event fold of the browser (apps/web/src/replayState.ts), on the fields both folds share. */
module WebReplay {
  import opened Roads
  import opened Domain
  import opened Events
  import Replay

  datatype TDriver = TDriver(position: Option<NodeID>, status: Option<DriverStatus>)

  datatype TOrder = TOrder(pickup: Option<NodeID>, destination: Option<NodeID>, status: Option<OrderStatus>,
                           assignedDriver: Option<DriverID>)

  datatype TFrame = TFrame(sequence: nat, time: real, edges: map<EdgeID, REdge>, drivers: map<DriverID, TDriver>,
                           orders: map<OrderID, TOrder>, paused: bool, speed: real)

  function EmptyFrame(): TFrame
  {
    TFrame(0, 0.0, map[], map[], map[], false, 1.0)
  }

  function DriverIn(t: TFrame, id: DriverID): TDriver
  {
    if id in t.drivers then t.drivers[id] else TDriver(None, None)
  }

  function WithStatus(t: TFrame, o: OrderID, status: OrderStatus): TFrame
  {
    if o in t.orders then t.(orders := t.orders[o := t.orders[o].(status := Some(status))]) else t
  }

  /** Some order assigned to d and not yet under way: what the browser's search over all orders finds. */
  ghost predicate Waiting(t: TFrame, d: DriverID, o: OrderID)
  {
    o in t.orders && t.orders[o].assignedDriver == Some(d) && t.orders[o].status == Some(Assigned)
  }

  ghost function StartDelivery(t: TFrame, d: DriverID): TFrame
  {
    if o :| Waiting(t, d, o) then WithStatus(t, o, EnRoute) else t
  }

  function SnapshotDriver(d: RDriver): TDriver { TDriver(d.position, d.status) }

  function SnapshotOrder(o: ROrder): TOrder { TOrder(o.pickup, o.destination, o.status, o.assignedDriver) }

  /** One event (replayState.ts lines 51-156). */
  ghost function Apply(before: TFrame, e: Event): TFrame
  {
    var t := before.(sequence := e.sequence, time := e.time);
    match e.payload
    case Snapshot(edges, drivers, orders, paused, speed) =>
      t.(edges := edges, drivers := map d | d in drivers :: SnapshotDriver(drivers[d]),
         orders := map o | o in orders :: SnapshotOrder(orders[o]), paused := paused, speed := speed)
    case OrderPlaced(o, pickup, destination) =>
      t.(orders := t.orders[o := TOrder(Some(pickup), Some(destination), Some(Pending), None)])
    case OrderAssigned(o, d, _, _) =>
      var prior := if o in t.orders then t.orders[o] else TOrder(None, None, None, None);
      t.(orders := t.orders[o := prior.(status := Some(Assigned), assignedDriver := Some(d))])
    case OrderUnassignable(o) => WithStatus(t, o, Unassignable)
    case OrderDelivered(o, _) => WithStatus(t, o, Delivered)
    case PositionUpdated(d, node, _, _) =>
      t.(drivers := t.drivers[d := DriverIn(t, d).(position := Some(node))])
    case StatusChanged(d, status) =>
      var t' := t.(drivers := t.drivers[d := DriverIn(t, d).(status := Some(status))]);
      if status.Delivering? then StartDelivery(t', d) else t'
    case RouteComputed(_, _, _) => t
    case RouteInvalidated(_, _) => t
    case RoadClosed(ids, _) => t.(edges := Replay.MarkEdges(t.edges, ids, true))
    case RoadReopened(ids) => t.(edges := Replay.MarkEdges(t.edges, ids, false))
    case PausedSet(paused) => t.(paused := paused)
    case SpeedSet(multiplier) => t.(speed := multiplier)
  }

  ghost function Fold(t: TFrame, log: seq<Event>): TFrame
  {
    if log == [] then t else Apply(Fold(t, log[..|log| - 1]), log[|log| - 1])
  }

  lemma FoldStep(t: TFrame, log: seq<Event>, e: Event)
    ensures Fold(t, log + [e]) == Apply(Fold(t, log), e)
  {
    assert (log + [e])[..|log|] == log;
  }

  lemma {:induction false} FoldSplit(t: TFrame, a: seq<Event>, b: seq<Event>)
    ensures Fold(t, a + b) == Fold(Fold(t, a), b)
  {
    if b == [] {
      assert a + b == a;
    } else {
      var b' := b[..|b| - 1];
      FoldSplit(t, a, b');
      assert (a + b)[..|a + b| - 1] == a + b';
    }
  }

  /** What the two folds are compared on: position and status of drivers, pickup, destination, status
      and driver of orders, closures, paused flag and speed. */
  ghost predicate SameView(f: Replay.Frame, t: TFrame)
  {
    f.sequence == t.sequence && f.time == t.time && f.edges == t.edges && f.paused == t.paused && f.speed == t.speed &&
    f.drivers.Keys == t.drivers.Keys && f.orders.Keys == t.orders.Keys &&
    (forall d :: d in t.drivers ==> t.drivers[d] == SnapshotDriver(f.drivers[d])) &&
    (forall o :: o in t.orders ==> t.orders[o] == SnapshotOrder(f.orders[o]))
  }
}
