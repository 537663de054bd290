/** The actor that owns one run (internal/simulation/simulation.go). */
module Simulation {
  import opened Roads
  import opened Routing
  import opened Spatial
  import opened Domain
  import opened Matching
  import opened Hungarian
  import opened Closures
  import opened Events
  import opened Fleet
  import opened Mirror
  import opened Dispatch
  import opened Travel
  import opened Scenes
  import opened Trips
  import opened Batching
  import opened Rerouting
  import opened Sentinel
  import Replay
  import WebReplay

  datatype Command =
    | PlaceOrder(pickup: NodeID, destination: NodeID)
    | SetPaused(paused: bool)
    | SetSpeed(multiplier: real)
    | Reset
    | CloseRoad(edge: EdgeID, commandId: string)
    | ReopenRoad(edge: EdgeID)

  /** Puts every driver into the index (lines 228-232 and 641-645). */
  method IndexAll(index: Grid, c: City, drivers: Drivers)
    requires index.Valid() && index.points == map[]
    requires forall id :: id in drivers ==> drivers[id].status.Idle?
    modifies index
    ensures index.Valid() && IndexShows(index.points, c, drivers, {})
  {
    var rest := drivers.Keys;
    while rest != {}
      invariant rest <= drivers.Keys && index.Valid() && index.points.Keys == drivers.Keys - rest
      invariant forall id :: id in index.points ==> index.points[id] == At(c, drivers[id].position)
      decreases |rest|
    {
      var id :| id in rest;
      index.Set(id, At(c, drivers[id].position));
      rest := rest - {id};
    }
    assert IdleDrivers(drivers) == drivers.Keys;
  }

  /** Every driver stands idle at home, with nothing to do since time zero. */
  ghost predicate AllHome(drivers: Drivers, home: map<DriverID, NodeID>)
  {
    drivers.Keys == home.Keys &&
    forall id :: id in drivers ==>
      drivers[id].position == home[id] && drivers[id].status.Idle? && drivers[id].route == [] &&
      drivers[id].routeIndex == 0 && drivers[id].routeProgress == 0.0 && drivers[id].assignedOrder == None &&
      drivers[id].idleSince == 0.0
  }

  lemma PlacedHome(home: map<DriverID, NodeID>)
    ensures AllHome(Placed(home), home)
  {
  }

  class Simulation {
    const euclid: (Point, Point) -> real
    const strategy: Strategy
    const minBatchSize: nat
    const maxWaitVirtualTime: real
    const candidatesPerOrder: int
    const costWeights: Weights
    const gridCellSize: real
    /** Where placeDrivers puts each driver; the same at every reset. */
    const home: map<DriverID, NodeID>
    ghost const shortest: real
    ghost const longest: real

    var city: City
    var drivers: Drivers
    var orders: Orders
    var pendingOrders: seq<OrderID>
    var nextOrderID: nat
    var driverIndex: Grid
    var virtualTime: real
    var paused: bool
    var speed: real
    var sequence: nat
    var pending: seq<Event>
    var causation: Option<string>

    /** The events emitted so far and what both folds make of them; whether the clock moved since. */
    ghost var tape: Tape
    ghost var stale: bool
    /** The events handed out so far. */
    ghost var taken: seq<Event>
    /** What the fields above do not tell: see Scene. */
    ghost var past: Past
    /** Since the start or the last reset no road changed, orders were placed between known nodes only, in
        a city without dead ends, and no batch had costs that could pass for the sentinel. */
    ghost var calm: bool
    ghost function Now(): Scene
      reads `drivers, `orders, `past
    {
      Scene(drivers, orders, past.hist, past.desynced, past.trips, past.skipped, past.lost)
    }

    /** The size of the index's cells. */
    ghost function CellSize(): real { if gridCellSize <= 0.0 then 1.0 else gridCellSize }

    ghost function Policy(): Rules
    {
      Rules(costWeights, minBatchSize, maxWaitVirtualTime, candidatesPerOrder, CellSize())
    }

    ghost function Plan(): Setup { Setup(strategy, Policy(), home, shortest) }

    ghost function Present(): Moment
      reads `city, `drivers, `orders, `past, `paused, `speed, `pendingOrders, `nextOrderID, `virtualTime, `tape
    {
      Moment(city, Now(), paused, speed, pendingOrders, nextOrderID, virtualTime, tape.log)
    }

    /** Events are counted, and those not yet handed out are waiting in order. */
    ghost predicate Queued()
      reads `sequence, `tape, `pending, `taken
    {
      sequence == |tape.log| && tape.log == taken + pending
    }

    ghost predicate Recording()
      reads `sequence, `tape, `pending, `taken, `virtualTime, `stale
    {
      Queued() && TimeOk(tape, virtualTime, stale)
    }

    /** No pair of a batch run by time `until` costs, or saves, as much as `top`. */
    ghost predicate Cheap(c: City, until: real, top: real)
    {
      strategy.Batched? ==> MaxCost(c, costWeights, longest, until) < top
    }

    /** What holds between the parts of a step, given the orders still in line and the drivers whose
        routes may cross closed roads. */
    ghost predicate Steady(line: seq<OrderID>, except: set<DriverID>)
      reads `city, `drivers, `orders, `nextOrderID, `driverIndex, `virtualTime, `paused, `speed, `sequence, `pending,
            `taken, `tape, `stale, `past, `calm, driverIndex
    {
      CityOk(city, euclid, shortest, longest) && speed > 0.0 && Recording() &&
      Tells(tape, Town(city, paused, speed), Now(), None) &&
      SceneOk(city, Now(), line, nextOrderID, virtualTime, except) &&
        TripsOk(city, Now(), virtualTime, calm, shortest) &&
      IndexOk()
    }

    ghost predicate IndexOk()
      reads `driverIndex, `city, `drivers, `past, driverIndex
    {
      driverIndex.Valid() && driverIndex.cellSize == CellSize() &&
      Indexes(strategy, driverIndex.points, city, drivers, past.lost)
    }

    /** What holds between steps. */
    ghost predicate Valid()
      reads this, driverIndex
    {
      Steady(pendingOrders, {}) && drivers.Keys == home.Keys && causation == None
    }

    /** What holds before Start. */
    ghost predicate Ready()
      reads this, driverIndex
    {
      CityOk(city, euclid, shortest, longest) && tape == BlankTape() && taken == [] && Queued() && !stale &&
      Fresh()
    }

    /** No order yet, every driver at home. */
    ghost predicate Fresh()
      reads this, driverIndex
    {
      Now() == FirstScene(home) && pendingOrders == [] && nextOrderID == 0 && virtualTime == 0.0 && causation == None &&
      calm == CalmStart(city, home) && speed > 0.0 &&
      IndexOk()
    }

    /** NewWithConfig (lines 208-267), with the city and the placement of drivers as parameters. */
    constructor (city: City, euclid: (Point, Point) -> real, home: map<DriverID, NodeID>, strategy: Strategy,
                 minBatchSize: int, maxWaitVirtualTime: real, candidatesPerOrder: int, costWeights: Weights,
                 gridCellSize: real, ghost shortest: real, ghost longest: real)
      requires CityOk(city, euclid, shortest, longest)
      ensures Ready() && fresh(driverIndex) && !paused && speed == 1.0
      ensures this.city == city && this.euclid == euclid && this.home == home && this.strategy == strategy
      ensures this.shortest == shortest && this.longest == longest
      ensures this.minBatchSize == (if minBatchSize <= 0 then 2 else minBatchSize)
      ensures this.maxWaitVirtualTime == (if maxWaitVirtualTime <= 0.0 then 2.0 else maxWaitVirtualTime)
      ensures this.candidatesPerOrder == (if candidatesPerOrder <= 0 then 8 else candidatesPerOrder)
      ensures this.costWeights == if costWeights == Weights(0.0, 0.0, 0.0) then Weights(1.0, 1.0, 0.1) else costWeights
      ensures this.gridCellSize == gridCellSize && AllHome(drivers, home)
    {
      this.city, this.euclid, this.home, this.strategy := city, euclid, home, strategy;
      this.minBatchSize := if minBatchSize <= 0 then 2 else minBatchSize;
      this.maxWaitVirtualTime := if maxWaitVirtualTime <= 0.0 then 2.0 else maxWaitVirtualTime;
      this.candidatesPerOrder := if candidatesPerOrder <= 0 then 8 else candidatesPerOrder;
      this.costWeights := if costWeights == Weights(0.0, 0.0, 0.0) then Weights(1.0, 1.0, 0.1) else costWeights;
      this.gridCellSize, this.shortest, this.longest := gridCellSize, shortest, longest;
      drivers, orders, pendingOrders, nextOrderID := Placed(home), map[], [], 0;
      PlacedHome(home);
      driverIndex := new Grid(gridCellSize);
      virtualTime, paused, speed, sequence, pending, causation := 0.0, false, 1.0, 0, [], None;
      tape, stale, taken := BlankTape(), false, [];
      past := NoPast();
      calm := CalmStart(city, home);
      new;
      if strategy.Batched? {
        IndexAll(driverIndex, city, drivers);
      }
    }

    /** Appends one event (simulation.go lines 757-769). */
    method Emit(p: Payload) returns (ghost e: Event)
      requires Queued()
      modifies `sequence, `pending, `tape, `stale
      ensures e == Event(|old(tape).log| + 1, virtualTime, p, causation)
      ensures tape == Append(old(tape), e) && Recording() && !stale
      ensures Adds(old(tape).log, tape.log, [p], virtualTime, causation)
    {
      hide Replay.Apply, WebReplay.Apply;
      sequence := sequence + 1;
      var event := Event(sequence, virtualTime, p, causation);
      pending := pending + [event];
      e := event;
      AppendTime(tape, e);
      AddsOne(tape.log, e);
      tape, stale := Append(tape, e), false;
    }

    // -------------------------------------------------------------------------------------------
    // Moving
    // -------------------------------------------------------------------------------------------

    /** Lines 1112-1116: the driver, standing on the pickup, collects its order. */
    method Collect(id: DriverID, o: OrderID, ghost from: nat)
      requires Tells(tape, Town(city, paused, speed), Now(), Some((id, from))) && Recording()
      requires Waits(Now(), id, o) && drivers[id].status.EnRouteToPickup?
      modifies `drivers, `orders, `past, `sequence, `pending, `tape, `stale
      ensures Tells(tape, Town(city, paused, speed), Now(), Some((id, from))) && Recording()
      ensures AtWork(old(Now()), id, o) && Now() == Collected(old(Now()), id, o)
      ensures Adds(old(tape).log, tape.log, [StatusChanged(id, Delivering)], virtualTime, causation)
    {
      hide Tells, Append, OnlyWaiting, TimeOk, Queued, Adds;
      ghost var t, before, town := tape, Now(), Town(city, paused, speed);
      past := past.(hist := past.hist.(pickedAt := past.hist.pickedAt[o := drivers[id].position]));
      drivers := drivers[id := drivers[id].(status := Delivering)];
      orders := orders[o := orders[o].(status := EnRoute)];
      ghost var e := Emit(StatusChanged(id, Delivering));
      TellsCollected(t, town, before, from, e, id, o);
    }

    /** Lines 1119-1120: the order of a driver at the end of its route is delivered. */
    method HandOver(id: DriverID, o: OrderID, ghost from: nat)
      requires Tells(tape, Town(city, paused, speed), Now(), Some((id, from))) && Recording()
      requires AtWork(Now(), id, o)
      modifies `orders, `past, `sequence, `pending, `tape, `stale
      ensures Tells(tape, Town(city, paused, speed), Now(), Some((id, from))) && Recording()
      ensures AtWork(old(Now()), id, o) && Now() == HandedOver(old(Now()), id, o)
      ensures Adds(old(tape).log, tape.log, [OrderDelivered(o, id)], virtualTime, causation)
    {
      hide Tells, Append, TimeOk, Queued, Adds;
      ghost var t, before, town := tape, Now(), Town(city, paused, speed);
      orders := orders[o := orders[o].(status := Delivered)];
      past := past.(hist := past.hist.(deliveredAt := past.hist.deliveredAt[o := drivers[id].position]));
      ghost var e := Emit(OrderDelivered(o, id));
      TellsHandedOver(t, town, before, from, e, id, o);
    }

    /** Lines 1127-1130: the index learns where an idle driver stands. */
    method Reindex(id: DriverID, d: Driver)
      requires driverIndex.Valid()
      modifies driverIndex
      ensures driverIndex.Valid()
      ensures strategy.Batched? ==> driverIndex.points == old(driverIndex.points)[id := At(city, d.position)]
    {
      if strategy.Batched? {
        driverIndex.Set(id, At(city, d.position));
      }
    }

    /** Lines 1122-1132: the driver goes idle where it stands and re-enters the index. */
    method Release(id: DriverID, o: OrderID, ghost from: nat)
      requires Tells(tape, Town(city, paused, speed), Now(), Some((id, from))) && Recording()
      requires AtWork(Now(), id, o) && driverIndex.Valid()
      modifies `drivers, `past, `sequence, `pending, `tape, `stale, driverIndex
      ensures Tells(tape, Town(city, paused, speed), Now(), Some((id, from))) && Recording()
      ensures AtWork(old(Now()), id, o) && Now() == Released(old(Now()), id, o, virtualTime) && driverIndex.Valid()
      ensures strategy.Batched? ==>
        driverIndex.points == old(driverIndex.points)[id := At(city, old(drivers)[id].position)]
      ensures Adds(old(tape).log, tape.log, [StatusChanged(id, Idle)], virtualTime, causation)
    {
      hide Tells, Append, TimeOk, Queued, At, Partition, Adds;
      ghost var t, before, town := tape, Now(), Town(city, paused, speed);
      var d := Freed(drivers[id], virtualTime);
      drivers := drivers[id := d];
      past := past.(desynced := past.desynced - {id});
      Reindex(id, d);
      ghost var e := Emit(StatusChanged(id, Idle));
      TellsReleased(t, town, before, from, e, id, o, virtualTime);
    }

    /** Lines 1106-1134: the driver with order o has just reached a node. */
    method HandleDriverAtNode(id: DriverID, o: OrderID, ghost from: nat)
      requires Tells(tape, Town(city, paused, speed), Now(), Some((id, from))) && Recording()
      requires Waits(Now(), id, o) && driverIndex.Valid()
      modifies `drivers, `orders, `past, `sequence, `pending, `tape, `stale, driverIndex
      ensures Tells(tape, Town(city, paused, speed), Now(), Some((id, from))) && Recording()
      ensures AtWork(old(Now()), id, o) && Now() == ArrivedScene(old(Now()), id, o, virtualTime) && driverIndex.Valid()
      ensures strategy.Batched? ==>
        driverIndex.points == ArrivedPoints(old(driverIndex.points), city, id, old(drivers)[id])
      ensures Adds(old(tape).log, tape.log, HandledPayloads(id, o, old(drivers)[id], old(orders)[o]), virtualTime,
                   causation)
    {
      hide Tells, OnlyWaiting, TimeOk, Queued, Partition, At, Adds;
      ghost var log, told := tape.log, [];
      AddsNothing(log, virtualTime, causation);
      if drivers[id].status.EnRouteToPickup? && drivers[id].position == orders[o].pickup {
        Collect(id, o, from);
        told := [StatusChanged(id, Delivering)];
      }
      if drivers[id].routeIndex == |drivers[id].route| - 1 {
        ghost var log1 := tape.log;
        HandOver(id, o, from);
        ghost var log2 := tape.log;
        Release(id, o, from);
        AddsMore(log1, log2, tape.log, [OrderDelivered(o, id)], [StatusChanged(id, Idle)], virtualTime, causation);
        AddsMore(log, log1, tape.log, told, [OrderDelivered(o, id)] + [StatusChanged(id, Idle)], virtualTime,
                 causation);
      }
      HandledIs(id, o, old(drivers)[id], old(orders)[o], told);
    }

    /** moveDriver (lines 1073-1102): one tick's driving. */
    method MoveDriver(id: DriverID)
      requires CityOk(city, euclid, shortest, longest) && id in drivers
      requires Tells(tape, Town(city, paused, speed), Now(), None) && Recording()
      requires SceneOk(city, Now(), pendingOrders, nextOrderID, virtualTime, {})
      requires IndexOk()
      modifies `drivers, `orders, `past, `sequence, `pending, `tape, `stale, driverIndex
      ensures Tells(tape, Town(city, paused, speed), Now(), None) && Recording()
      ensures SceneOk(city, Now(), pendingOrders, nextOrderID, virtualTime, {})
      ensures IndexOk()
      ensures MovedOn(city, old(Now()), Now(), id, shortest)
      ensures MoveTold(id, old(drivers)[id], drivers[id], old(tape).log, tape.log, virtualTime, causation)
      ensures Parked(old(drivers)[id]) ==> tape == old(tape)
    {
      hide CityOk, SceneOk, Tells, TimeOk, Queued, Partition, Indexes, InMotion, MovedOn, MoveTold, Arriving, Adds;
      ghost var s0, from, log := Now(), drivers[id].routeIndex, tape.log;
      if |drivers[id].route| == 0 || drivers[id].routeIndex >= |drivers[id].route| - 1 {
        StandsStill(city, s0, id, shortest);
        StoodStill(id, drivers[id], log, virtualTime, causation);
        return;
      }
      TellsStart(tape, Town(city, paused, speed), s0, id);
      MotionStart(city, s0, pendingOrders, nextOrderID, virtualTime, id, shortest);
      var o := drivers[id].assignedOrder.value;
      var budget := DRIVER_SPEED * VIRTUAL_STEP;
      ArrivingNowhere(id, o, drivers[id], drivers[id], log, virtualTime, causation);
      while budget > 0.0
        invariant id in drivers && IndexOk() && Recording()
        invariant Tells(tape, Town(city, paused, speed), Now(), Some((id, from)))
        invariant SceneOk(city, Now(), pendingOrders, nextOrderID, virtualTime, {})
        invariant InMotion(city, s0, Now(), id, o, budget, shortest)
        invariant Arriving(id, o, s0.drivers[id], drivers[id], log, tape.log, virtualTime, causation)
        decreases Rest(drivers[id]), budget > 0.0
      {
        var stop;
        ghost var d, log1 := drivers[id], tape.log;
        RestKnown(city, Now(), pendingOrders, nextOrderID, virtualTime, id);
        budget, stop := DriveOn(id, o, budget, s0, from);
        ArrivingMore(id, o, s0.drivers[id], d, drivers[id], log, log1, tape.log, virtualTime, causation);
        if stop {
          break;
        }
      }
      ghost var log1 := tape.log;
      ghost var e := EmitDriverPosition(id, o, budget, s0);
      MoveEnds(id, o, s0.drivers[id], drivers[id], log, log1, tape.log, virtualTime, causation);
    }

    /** One round of the loop of moveDriver (lines 1079-1099): up to the next node, or part of the way. */
    method DriveOn(id: DriverID, o: OrderID, budget0: real, ghost s0: Scene, ghost from: nat)
      returns (budget: real, stop: bool)
      requires CityOk(city, euclid, shortest, longest) && id in drivers && budget0 > 0.0
      requires Tells(tape, Town(city, paused, speed), Now(), Some((id, from))) && Recording()
      requires SceneOk(city, Now(), pendingOrders, nextOrderID, virtualTime, {})
      requires IndexOk()
      requires InMotion(city, s0, Now(), id, o, budget0, shortest)
      modifies `drivers, `orders, `past, `sequence, `pending, `tape, `stale, driverIndex
      ensures Tells(tape, Town(city, paused, speed), Now(), Some((id, from))) && Recording()
      ensures SceneOk(city, Now(), pendingOrders, nextOrderID, virtualTime, {})
      ensures IndexOk()
      ensures InMotion(city, s0, Now(), id, o, budget, shortest) && id in drivers
      ensures if stop then drivers[id].routeIndex >= |drivers[id].route| - 1
              else
                Rest(drivers[id]) < Rest(old(drivers)[id]) ||
                (budget == 0.0 && Rest(drivers[id]) == Rest(old(drivers)[id]))
      ensures Arriving(id, o, old(drivers)[id], drivers[id], old(tape).log, tape.log, virtualTime, causation)
    {
      hide CityOk, SceneOk, Tells, TimeOk, Queued, Partition, Indexes, InMotion, EdgeBetween, Waits, ArrivedScene,
        ArrivedPoints, Arriving, Adds, HandledPayloads;
      ghost var s, log := Now(), tape.log;
      var d := drivers[id];
      ArrivingNowhere(id, o, d, d, log, virtualTime, causation);
      budget, stop := budget0, true;
      if d.routeIndex >= |d.route| - 1 {
        return;
      }
      var next := d.route[d.routeIndex + 1];
      var edge: Option<Edge> := EdgeBetween(city, d.position, next);
      RoadAhead(city, s, pendingOrders, nextOrderID, virtualTime, id);
      StillAtWork(city, s0, s, pendingOrders, nextOrderID, virtualTime, id, o, budget0, shortest);
      CityParts(city, euclid, shortest, longest);
      hide Ahead;
      if edge.None? || edge.value.closed {
        return;
      }
      stop := false;
      var remaining := edge.value.weight - d.routeProgress;
      if budget >= remaining {
        budget := budget - remaining;
        drivers := drivers[id := d.(routeProgress := 0.0, routeIndex := d.routeIndex + 1, position := next)];
        assert Now() == Hopped(s, id);
        MotionHop(city, s0, s, pendingOrders, nextOrderID, virtualTime, id, o, budget0, shortest, longest);
        TellsHop(tape, Town(city, paused, speed), s, id, from);
        HopShortens(s, id, o, virtualTime);
        ghost var points := driverIndex.points;
        HandleDriverAtNode(id, o, from);
        HopTold(city, s, pendingOrders, nextOrderID, virtualTime, id, o, log, tape.log, causation);
        IndexesArrive(strategy, points, city, s, id, o, virtualTime, driverIndex.points);
      } else {
        drivers := drivers[id := d.(routeProgress := d.routeProgress + budget)];
        budget := 0.0;
        ArrivingNowhere(id, o, d, drivers[id], log, virtualTime, causation);
        assert Now() == Crept(s, id, budget0);
        MotionCreep(city, s0, s, pendingOrders, nextOrderID, virtualTime, id, o, budget0, shortest);
        TellsCreep(tape, Town(city, paused, speed), s, id, from, budget0);
        IndexesCreep(strategy, driverIndex.points, city, s, id, budget0);
      }
    }

    /** Lines 1101 and 1138-1148, without the interpolated coordinates. */
    method EmitDriverPosition(id: DriverID, ghost o: OrderID, ghost budget: real, ghost s0: Scene)
      returns (ghost e: Event)
      requires CityOk(city, euclid, shortest, longest) && id in drivers && id in s0.drivers
      requires Tells(tape, Town(city, paused, speed), Now(), Some((id, s0.drivers[id].routeIndex))) && Recording()
      requires SceneOk(city, Now(), pendingOrders, nextOrderID, virtualTime, {})
      requires SceneOk(city, s0, pendingOrders, nextOrderID, virtualTime, {})
      requires InMotion(city, s0, Now(), id, o, budget, shortest)
      requires budget <= 0.0 || drivers[id].routeIndex >= |drivers[id].route| - 1
      requires s0.drivers[id].routeIndex + 1 < |s0.drivers[id].route|
      modifies `past, `sequence, `pending, `tape, `stale
      ensures Tells(tape, Town(city, paused, speed), Now(), None) && Recording()
      ensures SceneOk(city, Now(), pendingOrders, nextOrderID, virtualTime, {})
      ensures MovedOn(city, s0, Now(), id, shortest) && tape == Append(old(tape), e) && past.lost == old(past).lost
      ensures Adds(old(tape).log, tape.log,
                   [PositionUpdated(id, drivers[id].position, drivers[id].routeIndex, drivers[id].routeProgress)],
                   virtualTime, causation)
    {
      hide CityOk, SceneOk, Tells, TimeOk, Queued, InMotion, MovedOn, AfterReport, Append, Adds;
      ghost var t, s := tape, Now();
      var d := drivers[id];
      e := Emit(PositionUpdated(id, d.position, d.routeIndex, d.routeProgress));
      ghost var from := s0.drivers[id].routeIndex;
      past := past.(desynced := AfterReport(id, d, from, past.desynced), skipped := past.skipped || Skipped(d, from));
      TellsPosition(t, Town(city, paused, speed), s0, s, pendingOrders, nextOrderID, virtualTime, e, id, o, budget,
                    euclid, shortest, longest);
    }

    // -------------------------------------------------------------------------------------------
    // Assigning
    // -------------------------------------------------------------------------------------------

    /** An order that is waiting is given up (lines 834-840, 901-909 and 932-938). */
    method GiveUp(o: OrderID, ghost line: seq<OrderID>)
      requires Steady(line, {}) && o in orders && orders[o].status.Pending? && !calm
      modifies `orders, `sequence, `pending, `tape, `stale
      ensures Steady(Dropped(line, o), {})
      ensures o in old(orders) && Now() == GivenUp(old(Now()), o) && Step(old(Now()), Now())
      ensures Adds(old(tape).log, tape.log, [OrderUnassignable(o)], virtualTime, causation)
    {
      hide CityOk, Tells, TimeOk, Queued, SceneOk, Append, Dropped, Step, TripsOk, Indexes, Partition, Adds;
      ghost var t, s := tape, Now();
      orders := orders[o := orders[o].(status := Unassignable)];
      ghost var e := Emit(OrderUnassignable(o));
      TellsGivenUp(t, Town(city, paused, speed), s, e, o);
      GiveUpKeeps(city, s, line, nextOrderID, virtualTime, o);
      TripsGivenUp(city, s, o, virtualTime, shortest);
    }

    /** Lines 947-949: a driver that takes an order leaves the index. */
    method Unindex(id: DriverID)
      requires driverIndex.Valid()
      modifies driverIndex
      ensures driverIndex.Valid()
      ensures strategy.Batched? ==> driverIndex.points == old(driverIndex.points) - {id}
    {
      if strategy.Batched? {
        driverIndex.Remove(id);
      }
    }

    /** The events of lines 964-981. */
    method Announce(id: DriverID, o: OrderID, toPickup: Route, toDestination: Route, status: DriverStatus,
                    ghost s: Scene)
      requires id in s.drivers && o in s.orders && toPickup.nodes != [] && toDestination.nodes != []
      requires Tells(tape, Town(city, paused, speed), s, None) && Recording()
      requires Fleet.Matched(s.drivers, s.orders) && s.drivers[id].status.Idle?
      requires status == if s.drivers[id].position == s.orders[o].pickup then Delivering else EnRouteToPickup
      modifies `sequence, `pending, `tape, `stale
      ensures Tells(tape, Town(city, paused, speed), Taken(s, id, o, toPickup, toDestination, virtualTime), None)
      ensures Recording()
      ensures Adds(old(tape).log, tape.log, AssignmentPayloads(id, o, toPickup, toDestination, status, virtualTime),
                   virtualTime, causation)
    {
      hide Tells, TimeOk, Queued, Append, Taken, Fleet.Matched, FullRoute, Adds;
      ghost var t := tape;
      var route := FullRoute(toPickup.nodes, toDestination.nodes);
      ghost var e1 := Emit(RouteComputed(id, route, toPickup.distance + toDestination.distance));
      ghost var log1 := tape.log;
      ghost var e2 := Emit(OrderAssigned(o, id, virtualTime + toPickup.distance / DRIVER_SPEED, toPickup.distance));
      ghost var log2 := tape.log;
      ghost var e3 := Emit(StatusChanged(id, status));
      AddsMore(t.log, log1, log2, [e1.payload], [e2.payload], virtualTime, causation);
      AddsMore(t.log, log2, tape.log, [e1.payload] + [e2.payload], [e3.payload], virtualTime, causation);
      assert AssignmentPayloads(id, o, toPickup, toDestination, status, virtualTime) ==
             [e1.payload] + [e2.payload] + [e3.payload];
      AppendLength(t, e1);
      AppendLength(Append(t, e1), e2);
      TellsTaken(t, Town(city, paused, speed), s, id, o, toPickup, toDestination, virtualTime, e1, e2, e3);
    }

    /** Lines 941-962: the driver and the order are tied together. */
    method Commit(o: OrderID, id: DriverID, toPickup: Route, onward: Route)
      requires id in drivers && o in orders && toPickup.nodes != [] && onward.nodes != []
      requires IndexOk()
      modifies `drivers, `orders, `past, driverIndex
      ensures IndexOk()
      ensures id in old(drivers) && o in old(orders) && Now() == Taken(old(Now()), id, o, toPickup, onward, virtualTime)
    {
      hide Indexes, Partition, FullRoute, TakenHistory, TakenTrips;
      ghost var s, points := Now(), driverIndex.points;
      var driver, order := drivers[id], orders[o];
      var fullRoute := FullRoute(toPickup.nodes, onward.nodes);
      var atPickup := driver.position == order.pickup;
      drivers := drivers[id := driver.(route := fullRoute, routeIndex := 0, assignedOrder := Some(o),
                                       status := if atPickup then Delivering else EnRouteToPickup)];
      orders := orders[o := order.(assignedDriver := Some(id), status := if atPickup then EnRoute else Assigned)];
      past := past.(hist := TakenHistory(driver, id, o, order, |toPickup.nodes| - 1, past.hist),
                    desynced := past.desynced - {id}, lost := past.lost - {id},
                    trips := TakenTrips(past.trips, driver, o, toPickup, onward, virtualTime));
      Unindex(id);
      IndexesTake(strategy, points, city, s, id, o, toPickup, onward, virtualTime, driverIndex.points);
    }

    /** applyAssignment (lines 929-982): the driver takes the order, unless its destination cannot be
        reached from its pickup. */
    method ApplyAssignment(o: OrderID, id: DriverID, toPickup: Route, ghost line: seq<OrderID>)
      requires Steady(line, {}) && MayTake(city, Now(), id, o, toPickup)
      modifies `drivers, `orders, `past, `sequence, `pending, `tape, `stale, driverIndex
      ensures Steady(Dropped(line, o), {})
      ensures Assigns(city, old(Now()), Now(), id, o, toPickup, virtualTime) && Step(old(Now()), Now())
      ensures past.skipped == old(past).skipped
      ensures Reports(city, old(Now()), Now(), id, o, toPickup, old(tape).log, tape.log, virtualTime, causation)
    {
      hide CityOk, Tells, TimeOk, Queued, SceneOk, Indexes, Step, Dropped, Partition, TakenHistory, IsBestRoute,
        Reachable, GivenUp, Assigns, TripsOk, Adds;
      ghost var s := Now();
      CityParts(city, euclid, shortest, longest);
      var order := orders[o];
      var toDestination: Option<Route> := FindRoute(city, euclid, order.pickup, order.destination);
      if toDestination.None? {
        NotCalm(city, s, virtualTime, calm, shortest, id, o);
        GiveUp(o, line);
        GivesUp(city, s, Now(), id, o, toPickup, virtualTime);
      } else {
        TakeOrder(o, id, toPickup, toDestination.value, line);
      }
    }

    /** Lines 941-981. */
    method TakeOrder(o: OrderID, id: DriverID, toPickup: Route, onward: Route, ghost line: seq<OrderID>)
      requires Steady(line, {}) && MayTake(city, Now(), id, o, toPickup)
      requires Reachable(city, orders[o].pickup, orders[o].destination)
      requires IsBestRoute(city, orders[o].pickup, orders[o].destination, onward)
      modifies `drivers, `orders, `past, `sequence, `pending, `tape, `stale, driverIndex
      ensures Steady(Dropped(line, o), {})
      ensures Assigns(city, old(Now()), Now(), id, o, toPickup, virtualTime) && Step(old(Now()), Now())
      ensures past.skipped == old(past).skipped
      ensures Reports(city, old(Now()), Now(), id, o, toPickup, old(tape).log, tape.log, virtualTime, causation)
    {
      hide CityOk, Tells, TimeOk, Queued, SceneOk, Indexes, Step, Dropped, Partition, TakenHistory, IsBestRoute,
        Reachable, Taken, Assigns, TripsOk, MayTake, Fleet.Matched, Recording, Grid.Valid, FullRoute, Adds,
        AssignmentPayloads;
      ghost var s := Now();
      Departs(city, s, line, nextOrderID, virtualTime, id, o, toPickup, onward, calm, euclid, shortest, longest);
      Commit(o, id, toPickup, onward);
      Announce(id, o, toPickup, onward, drivers[id].status, s);
      assert Onward(city, s, o, onward);
    }

    /** hasIdleDriver (lines 845-852). */
    method HasIdleDriver() returns (b: bool)
      ensures b <==> HasIdle(drivers)
    {
      var rest := drivers.Keys;
      while rest != {}
        invariant rest <= drivers.Keys && forall d :: d in drivers && d !in rest ==> !drivers[d].status.Idle?
        decreases |rest|
      {
        var d :| d in rest;
        if drivers[d].status.Idle? {
          return true;
        }
        rest := rest - {d};
      }
      return false;
    }

    /** assignBaseline (lines 819-843) for the order behind those queued already; `rest` waits behind it. */
    method AssignBaseline(o: OrderID, ghost rest: seq<OrderID>)
      requires Steady(pendingOrders + [o] + rest, {})
      modifies `drivers, `orders, `pendingOrders, `past, `sequence, `pending, `tape, `stale, driverIndex
      ensures Steady(pendingOrders + rest, {}) && Step(old(Now()), Now())
      ensures Offered(city, old(Now()), Now(), o, virtualTime, pendingOrders != old(pendingOrders))
      ensures pendingOrders == old(pendingOrders) || pendingOrders == old(pendingOrders) + [o]
      ensures past.skipped == old(past).skipped
      ensures Grows(old(tape).log, tape.log, virtualTime, causation)
    {
      hide CityOk, Tells, TimeOk, Queued, SceneOk, Indexes, Step, Dropped, IsNearest, Assigns, Offered, MayTake,
        GivenUp, HasIdle, Recording, Grid.Valid, TripsOk, Reports, Grows, Adds;
      ghost var s, log := Now(), tape.log;
      CityParts(city, euclid, shortest, longest);
      InLine(city, s, pendingOrders, o, rest, nextOrderID, virtualTime, {});
      var nearest: Option<(DriverID, Route)> := Baseline(city, euclid, drivers, orders[o].pickup);
      if nearest.Some? {
        NearestMayTake(city, s, nearest.value.0, o, nearest.value.1);
        ApplyAssignment(o, nearest.value.0, nearest.value.1, pendingOrders + [o] + rest);
        NearestTakes(city, s, Now(), nearest.value.0, o, nearest.value.1, virtualTime);
        ReportsGrow(city, s, Now(), nearest.value.0, o, nearest.value.1, log, tape.log, virtualTime, causation);
        return;
      }
      var idle := HasIdleDriver();
      if idle {
        NobodyReaches(city, s, virtualTime, calm, shortest, o);
        GiveUp(o, pendingOrders + [o] + rest);
        AddsGrows(log, tape.log, [OrderUnassignable(o)], virtualTime, causation);
      } else {
        pendingOrders := pendingOrders + [o];
        StepSame(s);
        GrowsNothing(log, virtualTime, causation);
      }
      NobodyTakes(city, s, Now(), o, virtualTime, !idle);
    }

    /** retryPendingBaseline (lines 856-872). Queued orders are pending, so none is passed over. */
    method RetryPendingBaseline()
      requires Steady(pendingOrders, {})
      modifies `drivers, `orders, `pendingOrders, `past, `sequence, `pending, `tape, `stale, driverIndex
      ensures Steady(pendingOrders, {}) && Step(old(Now()), Now())
      ensures pendingOrders == [] || !HasIdle(drivers)
      ensures Retried(city, old(Now()), Now(), old(pendingOrders), pendingOrders, virtualTime)
      ensures past.skipped == old(past).skipped
      ensures old(pendingOrders) == [] ==> tape == old(tape)
      ensures Grows(old(tape).log, tape.log, virtualTime, causation)
    {
      hide Steady, Step, HasIdle, Offered, OfferedInTurn, Grows;
      StepSame(Now());
      GrowsNothing(tape.log, virtualTime, causation);
      var idle := HasIdleDriver();
      if |pendingOrders| == 0 || !idle {
        return;
      }
      var queued := pendingOrders;
      pendingOrders := [];
      assert pendingOrders + queued == queued;
      ghost var rest := queued;
      OfferNone(city, Now(), queued, virtualTime);
      for k := 0 to |queued|
        invariant rest == queued[k..] && Steady(pendingOrders + rest, {}) && Step(old(Now()), Now())
        invariant OfferedInTurn(city, old(Now()), Now(), queued[..k], pendingOrders, virtualTime)
        invariant (pendingOrders == [] || !HasIdle(drivers)) && past.skipped == old(past).skipped
        invariant Grows(old(tape).log, tape.log, virtualTime, causation)
      {
        ghost var s, line, log := Now(), pendingOrders, tape.log;
        HeadOf(line, rest);
        AssignBaseline(queued[k], rest[1..]);
        rest := rest[1..];
        GrowsMore(old(tape).log, log, tape.log, virtualTime, causation);
        OfferedIdle(city, s, Now(), queued[k], virtualTime, pendingOrders != line);
        OfferNext(city, old(Now()), s, Now(), queued, k, line, pendingOrders, virtualTime);
        StepTransitive(old(Now()), s, Now());
      }
      assert pendingOrders + rest == pendingOrders && queued[..|queued|] == queued;
    }

    // -------------------------------------------------------------------------------------------
    // Batches
    // -------------------------------------------------------------------------------------------

    /** Lines 896-900: every assignment of the batch is applied. */
    method ApplyAll(matched: seq<Assignment>, ghost hopeless: seq<OrderID>, queue: seq<OrderID>)
      returns (resolved: set<OrderID>)
      requires Steady(queue, {}) && Fits(city, Now(), matched, hopeless)
      modifies `drivers, `orders, `past, `sequence, `pending, `tape, `stale, driverIndex
      ensures Steady(Filtered(queue, resolved), {}) && Step(old(Now()), Now())
      ensures resolved == OrdersOf(matched, |matched|)
      ensures Dispatched(city, old(Now()), Now(), matched, |matched|, hopeless, 0)
      ensures past.skipped == old(past).skipped
      ensures Grows(old(tape).log, tape.log, virtualTime, causation)
    {
      hide Steady, Step, Fits, Dispatched, MayTake, Assigns, Filtered, Dropped, Reports, Grows;
      ghost var s0 := Now();
      GrowsNothing(tape.log, virtualTime, causation);
      resolved := {};
      StepSame(s0);
      FilteredNone(queue);
      DispatchStart(city, s0, matched, hopeless);
      for k := 0 to |matched|
        invariant Steady(Filtered(queue, resolved), {}) && Step(s0, Now()) && resolved == OrdersOf(matched, k)
        invariant Dispatched(city, s0, Now(), matched, k, hopeless, 0) && past.skipped == old(past).skipped
        invariant Grows(old(tape).log, tape.log, virtualTime, causation)
      {
        ghost var s, log := Now(), tape.log;
        var a := matched[k];
        NextMayTake(city, s0, s, matched, k, hopeless);
        ApplyAssignment(a.orderId, a.driverId, a.toPickup, Filtered(queue, resolved));
        ReportsGrow(city, s, Now(), a.driverId, a.orderId, a.toPickup, log, tape.log, virtualTime, causation);
        GrowsMore(old(tape).log, log, tape.log, virtualTime, causation);
        DispatchStep(city, s0, s, Now(), matched, k, hopeless, virtualTime);
        StepTransitive(s0, s, Now());
        FilteredMore(queue, resolved, a.orderId);
        OrdersOfStep(matched, k);
        resolved := resolved + {a.orderId};
      }
    }

    /** Lines 901-909: every hopeless order is given up. */
    method GiveUpAll(ghost matched: seq<Assignment>, hopeless: seq<OrderID>, queue: seq<OrderID>,
                     resolved0: set<OrderID>, ghost s0: Scene)
      returns (resolved: set<OrderID>)
      requires Steady(Filtered(queue, resolved0), {}) && Fits(city, s0, matched, hopeless) && (hopeless != [] ==> !calm)
      requires Dispatched(city, s0, Now(), matched, |matched|, hopeless, 0)
      modifies `orders, `sequence, `pending, `tape, `stale
      ensures Steady(Filtered(queue, resolved), {}) && Step(old(Now()), Now())
      ensures resolved == resolved0 + FirstOf(hopeless, |hopeless|)
      ensures Dispatched(city, s0, Now(), matched, |matched|, hopeless, |hopeless|)
      ensures Grows(old(tape).log, tape.log, virtualTime, causation)
    {
      hide Steady, Step, Fits, Dispatched, GivenUp, Filtered, Dropped, Grows, Adds;
      resolved := resolved0;
      GrowsNothing(tape.log, virtualTime, causation);
      StepSame(Now());
      for n := 0 to |hopeless|
        invariant Steady(Filtered(queue, resolved), {}) && Step(old(Now()), Now())
        invariant resolved == resolved0 + FirstOf(hopeless, n)
        invariant Dispatched(city, s0, Now(), matched, |matched|, hopeless, n)
        invariant Grows(old(tape).log, tape.log, virtualTime, causation)
      {
        ghost var s, log := Now(), tape.log;
        var id := hopeless[n];
        GiveUpStep(city, s0, s, matched, hopeless, n);
        GiveUp(id, Filtered(queue, resolved));
        AddsGrows(log, tape.log, [OrderUnassignable(id)], virtualTime, causation);
        GrowsMore(old(tape).log, log, tape.log, virtualTime, causation);
        StepTransitive(old(Now()), s, Now());
        FilteredMore(queue, resolved, id);
        FirstOfStep(hopeless, n);
        resolved := resolved + {id};
      }
    }

    /** A batch whose costs may pass for the sentinel ends a calm run. */
    ghost method Weigh()
      requires Steady(pendingOrders, {})
      modifies `calm
      ensures Steady(pendingOrders, {}) && calm == (old(calm) && Cheap(city, virtualTime, UNREACHABLE))
    {
      hide CityOk, Tells, TimeOk, Queued, SceneOk, Partition, Indexes, Timed, Serene, MaxCost;
      calm := calm && Cheap(city, virtualTime, UNREACHABLE);
    }

    /** Lines 885-892: the batch and its answer, which fits the current scene. */
    method SolveBatch() returns (matched: seq<Assignment>, hopeless: seq<OrderID>, ghost b: Batch, ghost sol: Solved)
      requires Steady(pendingOrders, {}) && strategy.Batched? && pendingOrders != []
      requires Cheap(city, virtualTime, INF / 4.0)
      requires calm ==> Cheap(city, virtualTime, UNREACHABLE)
      ensures b == Batch(city, drivers, orders, b.ids, costWeights, virtualTime)
      ensures Solves(city, Now(), pendingOrders, Policy(), virtualTime, b.ids, matched, hopeless, sol,
                     driverIndex.points)
      ensures Fits(city, Now(), matched, hopeless)
      ensures (hopeless != [] ==> !calm)
    {
      hide CityOk, Tells, TimeOk, Queued, SceneOk, Partition, Representable, CostsWithin, BatchOk, TripsOk, IndexShows,
        SolvedOk, ReadsOff, Kept, InfeasibleAmong, Nominated, MaxCost, Metric, BatchResult, Fits, SortedRows,
        NominatedFrom;
      CityParts(city, euclid, shortest, longest);
      IndexedDrivers(driverIndex.points, city, drivers, past.lost);
      var batch := Batch(city, drivers, orders, pendingOrders, costWeights, virtualTime);
      BatchReady(batch, Now(), pendingOrders, nextOrderID, euclid, shortest, longest);
      ghost var rows;
      matched, hopeless, rows, sol := Optimized(batch, euclid, driverIndex, candidatesPerOrder);
      b := batch.(ids := rows);
      RowsWithin(batch, rows, MaxCost(city, costWeights, longest, virtualTime));
      RowsPending(orders, pendingOrders, rows);
      RowsLength(pendingOrders, rows);
      SolvedSizes(b, sol);
      ResultIs(b, sol, matched, hopeless);
      IndexNominates(b, sol, driverIndex, candidatesPerOrder);
      ResultFits(b, sol, matched, hopeless, Now(), driverIndex.points, past.lost, calm, shortest,
                 MaxCost(city, costWeights, longest, virtualTime));
    }

    /** runBatch (lines 879-918). */
    method RunBatch()
      requires Steady(pendingOrders, {}) && strategy.Batched? && pendingOrders != []
      requires Cheap(city, virtualTime, INF / 4.0)
      modifies `drivers, `orders, `pendingOrders, `past, `calm, `sequence, `pending, `tape, `stale, driverIndex
      ensures Steady(pendingOrders, {}) && Step(old(Now()), Now())
      ensures BatchRan(city, old(Now()), Now(), old(pendingOrders), pendingOrders, Policy(), virtualTime)
      ensures old(calm) && Cheap(city, virtualTime, UNREACHABLE) ==> calm
      ensures past.skipped == old(past).skipped
      ensures Grows(old(tape).log, tape.log, virtualTime, causation)
    {
      hide Steady, Step, Fits, Dispatched, Solves, Filtered, Cheap, BatchRan, Grows;
      ghost var s0, line, points := Now(), pendingOrders, driverIndex.points;
      var matched, hopeless;
      ghost var b, sol;
      Weigh();
      matched, hopeless, b, sol := SolveBatch();
      var resolved := ApplyAll(matched, hopeless, pendingOrders);
      ghost var s1, log1 := Now(), tape.log;
      resolved := GiveUpAll(matched, hopeless, pendingOrders, resolved, s0);
      StepTransitive(s0, s1, Now());
      GrowsMore(old(tape).log, log1, tape.log, virtualTime, causation);
      pendingOrders := Remaining(pendingOrders, resolved);
      RanBatch(city, s0, Now(), line, pendingOrders, Policy(), virtualTime, b.ids, matched, hopeless, sol, points);
    }

    /** dispatchImmediateBaseline (lines 1056-1068); only ever called with one order in line. */
    method DispatchImmediateBaseline()
      requires Steady(pendingOrders, {}) && |pendingOrders| == 1
      modifies `drivers, `orders, `pendingOrders, `past, `sequence, `pending, `tape, `stale, driverIndex
      ensures Steady(pendingOrders, {}) && Step(old(Now()), Now())
      ensures Offered(city, old(Now()), Now(), old(pendingOrders)[0], virtualTime, pendingOrders != [])
      ensures pendingOrders == [] || pendingOrders == old(pendingOrders)
      ensures past.skipped == old(past).skipped
      ensures Grows(old(tape).log, tape.log, virtualTime, causation)
    {
      hide Steady, Step, Offered, Grows;
      var id := pendingOrders[0];
      assert pendingOrders == [] + [id] + [];
      pendingOrders := pendingOrders[1..];
      assert pendingOrders + [] == pendingOrders;
      AssignBaseline(id, []);
      assert pendingOrders + [] == pendingOrders;
    }

    /** dispatchOptimized (lines 1023-1054): a full queue, or one whose oldest order has waited long
        enough, goes to a batch; a lone order with an idle driver to the nearest one; otherwise nothing. */
    method DispatchOptimized()
      requires Steady(pendingOrders, {}) && strategy.Batched?
      requires Cheap(city, virtualTime, INF / 4.0)
      modifies `drivers, `orders, `pendingOrders, `past, `calm, `sequence, `pending, `tape, `stale, driverIndex
      ensures Steady(pendingOrders, {}) && Step(old(Now()), Now())
      ensures DispatchRan(city, old(Now()), Now(), old(pendingOrders), pendingOrders, Policy(), virtualTime)
      ensures old(calm) && Cheap(city, virtualTime, UNREACHABLE) ==> calm
      ensures old(pendingOrders) == [] ==> tape == old(tape)
      ensures past.skipped == old(past).skipped
      ensures Grows(old(tape).log, tape.log, virtualTime, causation)
    {
      hide Steady, Step, Offered, BatchRan, HasIdle, Cheap, Grows;
      StepSame(Now());
      GrowsNothing(tape.log, virtualTime, causation);
      var n := |pendingOrders|;
      if n == 0 {
        return;
      }
      OldestPending(pendingOrders);
      if n >= minBatchSize {
        RunBatch();
        return;
      }
      var idle := HasIdleDriver();
      if n == 1 && idle {
        DispatchImmediateBaseline();
        return;
      }
      var oldest := orders[pendingOrders[0]];
      if virtualTime - oldest.createdAt < maxWaitVirtualTime {
        return;
      }
      if n >= 2 {
        RunBatch();
        return;
      }
      DispatchImmediateBaseline();
    }

    lemma OldestPending(line: seq<OrderID>)
      requires Steady(line, {}) && line != []
      ensures line[0] in orders && orders[line[0]].status.Pending?
    {
      hide CityOk, Tells, TimeOk, Queued, TripsOk, Indexes, Partition, FleetOk, ClockOk, ClearExcept;
      assert line[0] in line;
    }

    // -------------------------------------------------------------------------------------------
    // Ticks
    // -------------------------------------------------------------------------------------------

    /** Steady, except that the drivers `behind` have still to make this tick's move. */
    ghost predicate Ticking(behind: set<DriverID>)
      reads `city, `drivers, `orders, `nextOrderID, `driverIndex, `virtualTime, `paused, `speed, `sequence, `pending,
            `taken, `tape, `stale, `past, `calm, `pendingOrders, driverIndex
    {
      CityOk(city, euclid, shortest, longest) && speed > 0.0 && Recording() &&
      Tells(tape, Town(city, paused, speed), Now(), None) &&
      SceneOk(city, Now(), pendingOrders, nextOrderID, virtualTime, {}) &&
      TripsBehind(city, Now(), virtualTime, behind, calm, shortest) &&
      IndexOk()
    }

    /** One driver's move, and its trip's times noted. */
    method MoveOne(id: DriverID, ghost behind: set<DriverID>, ghost s0: Scene)
      requires Ticking(behind) && id in behind && id in drivers
      requires AllDrove(city, s0, Now(), behind, shortest) && Fleet.Matched(s0.drivers, s0.orders) && Step(s0, Now())
      modifies `drivers, `orders, `past, `sequence, `pending, `tape, `stale, driverIndex
      ensures Ticking(behind - {id})
      ensures AllDrove(city, s0, Now(), behind - {id}, shortest) && Step(s0, Now())
      ensures Parked(old(drivers)[id]) ==> tape == old(tape)
      ensures drivers.Keys == old(drivers).Keys && forall x :: x in drivers && x != id ==> drivers[x] == old(drivers)[x]
      ensures MoveTold(id, old(drivers)[id], drivers[id], old(tape).log, tape.log, virtualTime, causation)
    {
      hide CityOk, Tells, TimeOk, Queued, SceneOk, Indexes, TripsBehind, Partition, AllDrove, Fleet.Matched, MovedOn,
        Step, Clocked, MoveTold, SamePromises;
      ghost var s := Now();
      MoveDriver(id);
      ghost var s1 := Now();
      MovedOthers(city, s, s1, id, shortest);
      ClockedPromise(s, s1, id, virtualTime);
      MovedTrips(city, s, s1, pendingOrders, nextOrderID, virtualTime, id, euclid, shortest, longest, behind, calm);
      OneMoreDrove(city, s0, s, s1, behind, id, shortest, virtualTime);
      MovedStep(city, s0, s, s1, id, shortest, virtualTime);
      past := past.(trips := Clocked(s, s1, id, virtualTime));
      assert Now() == s1.(trips := past.trips);
      TellsTrips(tape, Town(city, paused, speed), s1, past.trips);
    }

    /** Line 1001 for the k-th of the drivers, those before having moved. */
    method MoveNext(ids: seq<DriverID>, k: nat, ghost rest: set<DriverID>, ghost s0: Scene, ghost log0: seq<Event>)
      requires k < |ids| && Ascending(ids) && Ticking(rest) && Fleet.Matched(s0.drivers, s0.orders)
      requires (forall x :: x in rest <==> x in ids[k..]) && rest <= s0.drivers.Keys
      requires AllDrove(city, s0, Now(), rest, shortest) && Step(s0, Now())
      requires DriveTold(s0.drivers, drivers, ids[..k], log0, tape.log, virtualTime, causation)
      modifies `drivers, `orders, `past, `sequence, `pending, `tape, `stale, driverIndex
      ensures Ticking(rest - {ids[k]}) && forall x :: x in rest - {ids[k]} <==> x in ids[k + 1..]
      ensures AllDrove(city, s0, Now(), rest - {ids[k]}, shortest) && Step(s0, Now())
      ensures DriveTold(s0.drivers, drivers, ids[..k + 1], log0, tape.log, virtualTime, causation)
      ensures ids[k] in s0.drivers && (Parked(s0.drivers[ids[k]]) ==> tape == old(tape))
    {
      hide Ticking, AllDrove, Fleet.Matched, Step, Parked, DriveTold, MoveTold, Ascending;
      ghost var s, log := Now(), tape.log;
      StepKeys(s0, s);
      assert ids[k] in ids[k..];
      AscendingRest(ids, k);
      NotYetDriven(city, s0, s, rest, ids[k], shortest);
      MoveOne(ids[k], rest, s0);
      DriveOne(s0.drivers, s.drivers, drivers, ids, k, log0, log, tape.log, virtualTime, causation);
    }

    /** Lines 994-1002: every driver moves once, in order of id. */
    method MoveAll()
      requires Ticking(drivers.Keys)
      modifies `drivers, `orders, `past, `sequence, `pending, `tape, `stale, driverIndex
      ensures Ticking({}) && AllDrove(city, old(Now()), Now(), {}, shortest) && Step(old(Now()), Now())
      ensures AllParked(old(drivers)) ==> tape == old(tape)
      ensures exists ids :: AllTold(old(drivers), drivers, ids, old(tape).log, tape.log, virtualTime, causation)
    {
      hide Ticking, AllDrove, Fleet.Matched, Step, Parked, DriveTold, MoveTold, Ascending, AllTold;
      ghost var s0, log0 := Now(), tape.log;
      DriveNobody(drivers, log0, virtualTime, causation);
      TickingMatched(drivers.Keys);
      StepSame(s0);
      NobodyDrove(city, s0, shortest);
      var ids := SortIds(drivers.Keys);
      ghost var rest := drivers.Keys;
      for k := 0 to |ids|
        invariant Ticking(rest) && AllDrove(city, s0, Now(), rest, shortest) && Step(s0, Now())
        invariant AllParked(old(drivers)) ==> tape == old(tape)
        invariant (forall x :: x in rest <==> x in ids[k..]) && rest <= s0.drivers.Keys
        invariant DriveTold(s0.drivers, drivers, ids[..k], log0, tape.log, virtualTime, causation)
      {
        MoveNext(ids, k, rest, s0, log0);
        rest := rest - {ids[k]};
      }
      assert rest == {} && ids[..|ids|] == ids;
      ToldByAll(s0.drivers, drivers, ids, log0, tape.log, virtualTime, causation);
    }

    lemma TickingMatched(behind: set<DriverID>)
      requires Ticking(behind)
      ensures Fleet.Matched(drivers, orders)
    {
      hide Fleet.Matched, CityOk, Tells, TimeOk, Queued, Indexes, TripsBehind, Partition;
    }

    /** tick (lines 988-1012). `moved` is the scene between driving and dispatching. */
    method Tick() returns (ghost moved: Scene)
      requires Valid() && Cheap(city, virtualTime + VIRTUAL_STEP, INF / 4.0)
      modifies `drivers, `orders, `pendingOrders, `virtualTime, `past, `calm, `sequence, `pending, `tape, `stale,
               driverIndex
      ensures Valid()
      ensures Step(old(Now()), Now())
      ensures paused ==> Now() == old(Now()) && virtualTime == old(virtualTime) && tape == old(tape)
      ensures !paused ==> virtualTime == old(virtualTime) + VIRTUAL_STEP
      ensures Ticked(Plan(), old(Present()), moved, Present())
      ensures past.skipped == moved.skipped && Step(old(Now()), moved)
      ensures AllParked(old(drivers)) && old(pendingOrders) == [] ==> tape == old(tape)
      ensures old(calm) && (paused || Cheap(city, virtualTime, UNREACHABLE)) ==> calm
    {
      hide Steady, AllDrove, Step, Redispatched, Cheap, AllParked, TickTold;
      if paused {
        moved := Now();
        StepSame(moved);
        return;
      }
      moved := TickOn();
    }

    /** Lines 992-1011. */
    method TickOn() returns (ghost moved: Scene)
      requires Valid() && Cheap(city, virtualTime + VIRTUAL_STEP, INF / 4.0) && !paused
      modifies `drivers, `orders, `pendingOrders, `virtualTime, `past, `calm, `sequence, `pending, `tape, `stale,
               driverIndex
      ensures Valid() && Step(old(Now()), Now())
      ensures Ticked(Plan(), old(Present()), moved, Present())
      ensures past.skipped == moved.skipped && Step(old(Now()), moved)
      ensures AllParked(old(drivers)) && old(pendingOrders) == [] ==> tape == old(tape)
      ensures old(calm) && Cheap(city, virtualTime, UNREACHABLE) ==> calm
    {
      hide Steady, Ticking, AllDrove, Step, Redispatched, Cheap, AllParked, AllTold, Grows, TickTold;
      ghost var s0 := Now();
      StartTick();
      MoveAll();
      moved := Now();
      ghost var log := tape.log;
      TickingDone();
      Redispatch();
      StepTransitive(s0, moved, Now());
      StepKeys(s0, Now());
      TickTells(s0.drivers, moved.drivers, old(tape).log, log, tape.log, virtualTime);
    }

    /** Lines 1004-1011: after driving, the orders in line are looked at again. */
    method Redispatch()
      requires Steady(pendingOrders, {}) && Cheap(city, virtualTime, INF / 4.0)
      modifies `drivers, `orders, `pendingOrders, `past, `calm, `sequence, `pending, `tape, `stale, driverIndex
      ensures Steady(pendingOrders, {}) && Step(old(Now()), Now())
      ensures Redispatched(Plan(), city, old(Now()), Now(), old(pendingOrders), pendingOrders, virtualTime)
      ensures Grows(old(tape).log, tape.log, virtualTime, causation)
      ensures past.skipped == old(past).skipped && (old(pendingOrders) == [] ==> tape == old(tape))
      ensures old(calm) && Cheap(city, virtualTime, UNREACHABLE) ==> calm
    {
      hide Steady, Step, HasIdle, DispatchRan, Retried, Cheap, Grows;
      if strategy.Batched? {
        DispatchOptimized();
      } else {
        RetryPendingBaseline();
      }
    }

    /** Line 992: time moves on by one step. */
    method StartTick()
      requires Steady(pendingOrders, {})
      modifies `virtualTime, `stale
      ensures virtualTime == old(virtualTime) + VIRTUAL_STEP && Ticking(drivers.Keys)
    {
      hide CityOk, Tells, TimeOk, Queued, SceneOk, Indexes, TripsOk, TripsBehind, Partition;
      TickTrips(city, Now(), virtualTime, calm, shortest);
      TickScene(city, Now(), pendingOrders, nextOrderID, virtualTime);
      TickTime(tape, virtualTime, stale);
      virtualTime := virtualTime + VIRTUAL_STEP;
      stale := true;
    }

    lemma TickingDone()
      requires Ticking({})
      ensures Steady(pendingOrders, {})
    {
      hide CityOk, Tells, TimeOk, Queued, SceneOk, Indexes, TripsBehind, Partition;
    }

    // -------------------------------------------------------------------------------------------
    // Roads
    // -------------------------------------------------------------------------------------------

    /** Steady, except that the folds still show the roads of c0 and the drivers `except` may be headed
        for a closed one. */
    ghost predicate Closing(c0: City, except: set<DriverID>)
      reads `city, `drivers, `orders, `nextOrderID, `driverIndex, `virtualTime, `paused, `speed, `sequence, `pending,
            `taken, `tape, `stale, `past, `calm, `pendingOrders, driverIndex
    {
      CityOk(city, euclid, shortest, longest) && speed > 0.0 && Recording() && !calm &&
      Tells(tape, Town(c0, paused, speed), Now(), None) &&
      SceneOk(city, Now(), pendingOrders, nextOrderID, virtualTime, except) &&
      TripsOk(city, Now(), virtualTime, false, shortest) &&
      IndexOk()
    }

    /** Lines 607-608. */
    method StrandOrder(o: OrderID, ghost c0: City)
      requires Recording() && Tells(tape, Town(c0, paused, speed), Now(), None) && o in orders
      modifies `orders, `sequence, `pending, `tape, `stale
      ensures Recording() && Tells(tape, Town(c0, paused, speed), Now(), None)
      ensures o in old(orders) && Now() == GivenUp(old(Now()), o)
      ensures Adds(old(tape).log, tape.log, [OrderUnassignable(o)], virtualTime, causation)
    {
      hide Tells, TimeOk, Queued, Adds, Append;
      ghost var s, t := Now(), tape;
      orders := orders[o := orders[o].(status := Unassignable)];
      ghost var e := Emit(OrderUnassignable(o));
      TellsGivenUp(t, Town(c0, paused, speed), s, e, o);
    }

    /** Lines 610-614. */
    method StrandDriver(id: DriverID, o: OrderID, ghost c0: City)
      requires Recording() && Tells(tape, Town(c0, paused, speed), Now(), None) && id in drivers
      modifies `drivers, `past, `sequence, `pending, `tape, `stale
      ensures Recording() && Tells(tape, Town(c0, paused, speed), Now(), None)
      ensures id in old(drivers) && Now() == StrandedHalf(old(Now()), id, o)
      ensures Adds(old(tape).log, tape.log, [StatusChanged(id, Idle)], virtualTime, causation)
    {
      hide Tells, TimeOk, Queued, Adds, Append;
      ghost var s, t := Now(), tape;
      drivers := drivers[id := drivers[id].(route := [], routeIndex := 0, status := Idle, assignedOrder := None)];
      past := past.(desynced := past.desynced - {id}, trips := past.trips - {o}, lost := past.lost + {id});
      ghost var e := Emit(StatusChanged(id, Idle));
      TellsStrandedHalf(t, Town(c0, paused, speed), s, e, id, o);
    }

    /** Lines 606-616: no way to the target, so the order is given up and the driver is free where it is. */
    method Strand(id: DriverID, o: OrderID, ghost c0: City, ghost except: set<DriverID>)
      requires Closing(c0, except) && Has(Now(), id, o)
      requires !Reachable(city, drivers[id].position, Target(drivers[id], orders[o]))
      modifies `drivers, `orders, `past, `sequence, `pending, `tape, `stale
      ensures Closing(c0, except - {id}) && id in drivers && drivers[id].route == []
      ensures Turned(city, old(Now()), Now(), id) && Keeps(old(Now()), Now())
      ensures Adds(old(tape).log, tape.log, [OrderUnassignable(o), StatusChanged(id, Idle)], virtualTime, causation)
    {
      hide CityOk, Tells, TimeOk, Queued, SceneOk, TripsOk, Indexes, Partition, Adds, Stranded, StrandedHalf, Keeps,
        Turned, Reachable, Grid.Valid, Target;
      ghost var s, log := Now(), tape.log;
      StrandedEmpty(s, id, o);
      StrandOk(city, s, pendingOrders, nextOrderID, virtualTime, except, id, o, shortest, strategy, driverIndex.points);
      StrandedHalves(s, id, o);
      StrandOrder(o, c0);
      ghost var log1 := tape.log;
      StrandDriver(id, o, c0);
      AddsMore(log, log1, tape.log, [OrderUnassignable(o)], [StatusChanged(id, Idle)], virtualTime, causation);
      assert [OrderUnassignable(o), StatusChanged(id, Idle)] == [OrderUnassignable(o)] + [StatusChanged(id, Idle)];
    }

    /** Lines 618-624: the driver follows a new route to what it was heading for. */
    method Redirect(id: DriverID, o: OrderID, route: Route, ghost c0: City, ghost except: set<DriverID>)
      requires Closing(c0, except) && Has(Now(), id, o)
      requires Reachable(city, drivers[id].position, Target(drivers[id], orders[o]))
      requires IsBestRoute(city, drivers[id].position, Target(drivers[id], orders[o]), route)
      modifies `drivers, `past, `sequence, `pending, `tape, `stale
      ensures Closing(c0, except - {id}) && id in drivers && drivers[id].route == route.nodes
      ensures Turned(city, old(Now()), Now(), id) && Keeps(old(Now()), Now())
      ensures Adds(old(tape).log, tape.log, [RouteComputed(id, route.nodes, route.distance)], virtualTime, causation)
    {
      hide CityOk, Tells, TimeOk, Queued, SceneOk, TripsOk, Indexes, Partition, Adds, Append, Keeps, Turned,
        IsBestRoute, Reachable, Grid.Valid, Rerouted, Target;
      ghost var s, t := Now(), tape;
      CityParts(city, euclid, shortest, longest);
      RerouteOk(city, s, pendingOrders, nextOrderID, virtualTime, except, id, o, route, shortest, strategy,
                driverIndex.points);
      Follow(id, o, route.nodes);
      ghost var e := Emit(RouteComputed(id, route.nodes, route.distance));
      TellsRerouted(t, Town(c0, paused, speed), s, e, id, o, route.nodes);
    }

    /** Lines 618-619. */
    method Follow(id: DriverID, ghost o: OrderID, nodes: seq<NodeID>)
      requires id in drivers && nodes != []
      modifies `drivers, `past
      ensures id in old(drivers) && Now() == Rerouted(old(Now()), id, o, nodes)
      ensures id in drivers && drivers[id].route == nodes
    {
      hide ReroutedHistory;
      past := past.(hist := ReroutedHistory(id, drivers[id], o, nodes, past.hist), desynced := past.desynced - {id},
                    trips := past.trips - {o});
      drivers := drivers[id := drivers[id].(route := nodes, routeIndex := 0)];
    }

    /** Line 603. */
    method Invalidate(id: DriverID, o: OrderID, ghost c0: City, ghost except: set<DriverID>)
      requires Closing(c0, except)
      modifies `sequence, `pending, `tape, `stale
      ensures Closing(c0, except)
      ensures Adds(old(tape).log, tape.log, [RouteInvalidated(id, o)], virtualTime, causation)
    {
      hide CityOk, Tells, TimeOk, Queued, SceneOk, TripsOk, Indexes, Partition, Adds, Append, Grid.Valid;
      ghost var t := tape;
      ghost var e := Emit(RouteInvalidated(id, o));
      TellsInvalidated(t, Town(c0, paused, speed), Now(), e);
    }

    /** rerouteDriver (lines 586-625): one invalidated route, then one computed or one order given up. */
    method RerouteDriver(id: DriverID, ghost c0: City, ghost except: set<DriverID>)
      requires Closing(c0, except) && IsBlocked(city, drivers, id)
      modifies `drivers, `orders, `past, `sequence, `pending, `tape, `stale
      ensures Closing(c0, except - {id})
      ensures Turned(city, old(Now()), Now(), id) && Keeps(old(Now()), Now())
      ensures id in drivers && id in old(drivers) && old(drivers)[id].assignedOrder.Some?
      ensures Adds(old(tape).log, tape.log,
                   TurnPayloads(city, id, old(drivers)[id].assignedOrder.value, drivers[id]), virtualTime, causation)
    {
      hide Closing, Adds, Keeps, Turned, IsBestRoute, Reachable, Streets, Metric, WellFormed, Left;
      ghost var s, log := Now(), tape.log;
      ClosingParts(c0, except, id);
      var d := drivers[id];
      var o := d.assignedOrder.value;
      var target := if d.status.EnRouteToPickup? then orders[o].pickup else orders[o].destination;
      Invalidate(id, o, c0, except);
      ghost var log1, told := tape.log, [RouteInvalidated(id, o)];
      var route: Option<Route> := FindRoute(city, euclid, d.position, target);
      if route.None? {
        Strand(id, o, c0, except);
        AddsMore(log, log1, tape.log, told, [OrderUnassignable(o), StatusChanged(id, Idle)], virtualTime, causation);
        assert told + [OrderUnassignable(o), StatusChanged(id, Idle)] == TurnPayloads(city, id, o, drivers[id]);
      } else {
        RouteLength(city, d.position, target, route.value);
        Redirect(id, o, route.value, c0, except);
        AddsMore(log, log1, tape.log, told, [RouteComputed(id, route.value.nodes, route.value.distance)], virtualTime,
                 causation);
        assert told + [RouteComputed(id, route.value.nodes, route.value.distance)] ==
               TurnPayloads(city, id, o, drivers[id]);
      }
    }

    lemma ClosingParts(c0: City, except: set<DriverID>, id: DriverID)
      requires Closing(c0, except) && IsBlocked(city, drivers, id)
      ensures Streets(city) && WellFormed(city) && Metric(city, euclid)
      ensures drivers[id].assignedOrder.Some? && Has(Now(), id, drivers[id].assignedOrder.value)
    {
      hide Tells, TimeOk, Queued, SceneOk, TripsOk, Indexes, Partition;
      CityParts(city, euclid, shortest, longest);
      BlockedHas(city, Now(), pendingOrders, nextOrderID, virtualTime, except, id);
    }

    /** recalculateAffectedRoutes (lines 549-569): every driver whose way is no longer open is rerouted, in
        order of id. */
    method RecalculateAffectedRoutes(ghost c0: City) returns (affected: nat, ghost ids: seq<DriverID>)
      requires Closing(c0, drivers.Keys)
      modifies `drivers, `orders, `past, `sequence, `pending, `tape, `stale
      ensures Closing(c0, {})
      ensures AllRedirected(city, old(Now()), Now(), {}) && Noticed(city, old(Now()), Now(), old(drivers).Keys)
      ensures affected == |Blocked(city, old(drivers), old(drivers).Keys)|
      ensures Ascending(ids) && forall x :: x in ids <==> x in old(drivers)
      ensures Adds(old(tape).log, tape.log, ClosurePayloads(city, old(drivers), drivers, ids), virtualTime, causation)
      ensures Keeps(old(Now()), Now())
    {
      hide Closing, Noticed, AllRedirected, Recalculated, Keeps, Fleet.Matched, Blocked, Adds, ClosurePayloads;
      ghost var s0 := Now();
      ClosingMatched(c0, drivers.Keys);
      RecalculatedStart(city, s0);
      ClosureNobody(city, s0.drivers, s0.drivers, tape.log, virtualTime, causation);
      affected := 0;
      var sorted := SortIds(drivers.Keys);
      ids := sorted;
      ghost var rest := drivers.Keys;
      for k := 0 to |sorted|
        invariant Closing(c0, rest) && Recalculated(city, s0, Now(), rest, affected)
        invariant forall x :: x in rest <==> x in ids[k..]
        invariant Adds(old(tape).log, tape.log, ClosurePayloads(city, s0.drivers, drivers, ids[..k]), virtualTime,
                       causation)
      {
        ghost var before, log := drivers, tape.log;
        assert ids[k] in ids;
        AscendingRest(ids, k);
        affected := Recalculate(sorted[k], affected, s0, c0, rest);
        ClosureOne(city, s0.drivers, before, drivers, ids, k, old(tape).log, log, tape.log, virtualTime, causation);
        rest := rest - {ids[k]};
      }
      assert rest == {} && ids[..|ids|] == ids;
      RecalculatedEnd(city, s0, Now(), rest, affected);
    }

    /** Lines 560-565. */
    method Recalculate(id: DriverID, affected0: nat, ghost s0: Scene, ghost c0: City, ghost rest: set<DriverID>)
      returns (affected: nat)
      requires Closing(c0, rest) && id in rest
      requires Recalculated(city, s0, Now(), rest, affected0) && Fleet.Matched(s0.drivers, s0.orders)
      modifies `drivers, `orders, `past, `sequence, `pending, `tape, `stale
      ensures Closing(c0, rest - {id}) && Recalculated(city, s0, Now(), rest - {id}, affected)
      ensures TurnTold(city, s0.drivers, old(drivers), drivers, id, old(tape).log, tape.log, virtualTime, causation)
    {
      hide Closing, Recalculated, Turned, Keeps, Fleet.Matched, ClearFrom, Adds, TurnPayloads;
      ghost var s, log := Now(), tape.log;
      RecalculatedKnows(city, s0, s, rest, affected0, id);
      var d := drivers[id];
      affected := affected0;
      var crosses := RouteUsesClosedEdge(city, d.route, d.routeIndex);
      NoRouteIsClear(city, d.route, d.routeIndex);
      if |d.route| == 0 || !crosses {
        ClosingPass(c0, rest, id);
        RecalculatedPass(city, s0, s, rest, affected, id);
        AddsNothing(log, virtualTime, causation);
      } else {
        affected := affected + 1;
        RerouteDriver(id, c0, rest);
        TurnedOthers(city, s, Now(), id);
        RecalculatedTurn(city, s0, s, Now(), rest, affected0, id);
      }
    }

    lemma ClosingMatched(c0: City, except: set<DriverID>)
      requires Closing(c0, except)
      ensures Fleet.Matched(drivers, orders)
    {
      hide Fleet.Matched, CityOk, Tells, TimeOk, Queued, Indexes, TripsOk, Partition;
    }

    lemma ClosingPass(c0: City, except: set<DriverID>, id: DriverID)
      requires Closing(c0, except) && id in drivers && ClearFrom(city, drivers[id].route, drivers[id].routeIndex)
      ensures Closing(c0, except - {id})
    {
      hide CityOk, Tells, TimeOk, Queued, SceneOk, TripsOk, Indexes, Partition, ClearFrom;
      ClearPass(city, Now(), pendingOrders, nextOrderID, virtualTime, except, id);
    }

    /** Lines 493-498 and 520-525: both directions of the road are set, and their ids listed. */
    method SetRoad(edge: Edge, closed: bool) returns (edgeIds: seq<EdgeID>)
      requires Streets(city)
      modifies `city
      ensures city == BothWays(old(city), edge, closed) && edgeIds == RoadIds(old(city), edge)
    {
      hide WithClosed, EdgeBetween, WellFormed, Simple;
      ghost var c0 := city;
      edgeIds := [edge.id];
      var found;
      city, found := SetClosed(city, edge.id, closed);
      MarkedStreets(c0, edge.id, closed);
      EdgeBetweenMarked(c0, edge.id, closed, edge.to, edge.from);
      var back: Option<Edge> := EdgeBetween(city, edge.to, edge.from);
      if back.Some? {
        city, found := SetClosed(city, back.value.id, closed);
        edgeIds := edgeIds + [back.value.id];
      }
    }

    lemma SteadyStreets(line: seq<OrderID>)
      requires Steady(line, {})
      ensures Streets(city) && UniqueIds(city)
    {
      hide Tells, TimeOk, Queued, SceneOk, TripsOk, Indexes, Partition;
      CityParts(city, euclid, shortest, longest);
    }

    /** The first half of handleCloseRoad and handleReopenRoad: the road is set, nobody rerouted yet. */
    method ChangeRoad(edge: Edge, closed: bool) returns (edgeIds: seq<EdgeID>)
      requires Steady(pendingOrders, {}) && HasEdge(city, edge)
      modifies `city, `calm
      ensures Closing(old(city), if closed then drivers.Keys else {}) && city == BothWays(old(city), edge, closed)
      ensures edgeIds == RoadIds(old(city), edge)
    {
      hide CityOk, Tells, TimeOk, Queued, SceneOk, TripsOk, Indexes, Partition, BothWays, RoadIds, HasEdge, Streets,
        UniqueIds, Grid.Valid;
      SteadyStreets(pendingOrders);
      RoadsChanged(city, edge, closed, Now(), pendingOrders, nextOrderID, virtualTime, calm, euclid, shortest, longest,
                   strategy, driverIndex.points, past.lost);
      edgeIds := SetRoad(edge, closed);
      calm := false;
    }

    /** The last part of both: the change is announced, after any reroutes it caused. */
    method AnnounceRoad(edge: Edge, closed: bool, p: Payload, ghost c0: City)
      requires Closing(c0, {}) && CityOk(c0, euclid, shortest, longest) && HasEdge(c0, edge)
      requires city == BothWays(c0, edge, closed)
      requires if closed then p.RoadClosed? && p.edgeIds == RoadIds(c0, edge) else p == RoadReopened(RoadIds(c0, edge))
      modifies `sequence, `pending, `tape, `stale
      ensures Steady(pendingOrders, {}) && Adds(old(tape).log, tape.log, [p], virtualTime, causation)
    {
      hide CityOk, Tells, TimeOk, Queued, SceneOk, TripsOk, Indexes, Partition, BothWays, RoadIds, HasEdge, Streets,
        Symmetric, Append, Grid.Valid, Adds;
      ghost var t := tape;
      CityParts(c0, euclid, shortest, longest);
      ghost var e := Emit(p);
      TellsRoads(t, Town(c0, paused, speed), Now(), e, edge, closed);
    }

    /** handleCloseRoad (lines 484-508). */
    method HandleCloseRoad(id: EdgeID, commandId: string)
      requires Valid()
      modifies `city, `drivers, `orders, `past, `calm, `causation, `sequence, `pending, `tape, `stale
      ensures Valid() && Keeps(old(Now()), Now()) && city.nodes == old(city).nodes
      ensures NothingToDo(old(city), id, true) ==> city == old(city) && Now() == old(Now()) && tape == old(tape)
      ensures forall e :: Named(old(city), id, Some(e)) && !e.closed ==>
        RoadShut(old(city), city, old(Now()), Now(), old(tape).log, tape.log, e, virtualTime,
                 if commandId == "" then None else Some(commandId))
    {
      hide Steady, Keeps, RoadShut, HasEdge, UniqueIds, Streets, Named, NothingToDo;
      StepSame(Now());
      SteadyStreets(pendingOrders);
      var edge: Option<Edge> := EdgeByID(city, id);
      IsNamed(city, id, edge);
      OnlyOne(city, id, edge, true);
      if edge.None? || edge.value.closed {
        return;
      }
      causation := if commandId == "" then None else Some(commandId);
      BothWaysNodes(city, edge.value, true);
      ShutOpenRoad(edge.value);
      causation := None;
    }

    /** Lines 493-507. */
    method ShutOpenRoad(edge: Edge)
      requires Steady(pendingOrders, {}) && HasEdge(city, edge) && drivers.Keys == home.Keys
      modifies `city, `drivers, `orders, `past, `calm, `sequence, `pending, `tape, `stale
      ensures Steady(pendingOrders, {}) && Keeps(old(Now()), Now()) && drivers.Keys == home.Keys
      ensures RoadShut(old(city), city, old(Now()), Now(), old(tape).log, tape.log, edge, virtualTime, causation)
      ensures city == BothWays(old(city), edge, true)
    {
      hide Steady, Closing, Keeps, RoadShut, HasEdge, BothWays, RoadIds, AllRedirected, Blocked, CityOk, Noticed, Adds,
        ClosurePayloads;
      ghost var s0, c0 := Now(), city;
      SteadyCity(pendingOrders);
      var edgeIds := ChangeRoad(edge, true);
      var affected;
      ghost var ids;
      affected, ids := RecalculateAffectedRoutes(c0);
      ghost var log1 := tape.log;
      AnnounceRoad(edge, true, RoadClosed(edgeIds, affected), c0);
      ShutRoad(c0, city, s0, Now(), old(tape).log, log1, tape.log, edge, affected, virtualTime, causation, ids);
      KeepsKeys(s0, Now());
    }

    lemma SteadyCity(line: seq<OrderID>)
      requires Steady(line, {})
      ensures CityOk(city, euclid, shortest, longest)
    {
    }

    /** handleReopenRoad (lines 514-532): no route needs to change. */
    method HandleReopenRoad(id: EdgeID)
      requires Valid()
      modifies `city, `calm, `sequence, `pending, `tape, `stale
      ensures Valid() && Now() == old(Now()) && city.nodes == old(city).nodes
      ensures NothingToDo(old(city), id, false) ==> city == old(city) && tape == old(tape)
      ensures forall e :: Named(old(city), id, Some(e)) && e.closed ==>
        city == BothWays(old(city), e, false) &&
        Adds(old(tape).log, tape.log, [RoadReopened(RoadIds(old(city), e))], virtualTime, None)
    {
      hide Steady, HasEdge, UniqueIds, Streets, Named, NothingToDo, BothWays, RoadIds, Adds;
      SteadyStreets(pendingOrders);
      var edge: Option<Edge> := EdgeByID(city, id);
      IsNamed(city, id, edge);
      OnlyOne(city, id, edge, false);
      if edge.None? || !edge.value.closed {
        return;
      }
      BothWaysNodes(city, edge.value, false);
      ReopenShutRoad(edge.value);
    }

    /** Lines 520-531. */
    method ReopenShutRoad(edge: Edge)
      requires Steady(pendingOrders, {}) && HasEdge(city, edge)
      modifies `city, `calm, `sequence, `pending, `tape, `stale
      ensures Steady(pendingOrders, {}) && city == BothWays(old(city), edge, false)
      ensures Adds(old(tape).log, tape.log, [RoadReopened(RoadIds(old(city), edge))], virtualTime, causation)
    {
      hide Steady, Closing, CityOk, BothWays, RoadIds, HasEdge, Adds;
      ghost var c0 := city;
      SteadyCity(pendingOrders);
      var edgeIds := ChangeRoad(edge, false);
      AnnounceRoad(edge, false, RoadReopened(edgeIds), c0);
    }

    // -------------------------------------------------------------------------------------------
    // Other commands
    // -------------------------------------------------------------------------------------------

    /** The arms of handle for SetPaused and SetSpeed (lines 463-470); a multiplier that is not positive
        is ignored. */
    method Pause(on: bool)
      requires Valid()
      modifies `paused, `sequence, `pending, `tape, `stale
      ensures Valid() && paused == on && Adds(old(tape).log, tape.log, [PausedSet(on)], virtualTime, None)
    {
      hide CityOk, Tells, TimeOk, Queued, SceneOk, TripsOk, Indexes, Partition, Grid.Valid, Replay.Apply,
        WebReplay.Apply, Adds;
      ghost var t, town := tape, Town(city, paused, speed);
      paused := on;
      ghost var e := Emit(PausedSet(on));
      TellsSetting(t, town, Now(), e);
    }

    method ChangeSpeed(multiplier: real)
      requires Valid()
      modifies `speed, `sequence, `pending, `tape, `stale
      ensures Valid()
      ensures multiplier <= 0.0 ==> speed == old(speed) && tape == old(tape)
      ensures multiplier > 0.0 ==>
        speed == multiplier && Adds(old(tape).log, tape.log, [SpeedSet(multiplier)], virtualTime, None)
    {
      hide CityOk, Tells, TimeOk, Queued, SceneOk, TripsOk, Indexes, Partition, Grid.Valid, Replay.Apply,
        WebReplay.Apply, Adds;
      if multiplier > 0.0 {
        ghost var t, town := tape, Town(city, paused, speed);
        speed := multiplier;
        ghost var e := Emit(SpeedSet(multiplier));
        TellsSetting(t, town, Now(), e);
      }
    }

    /** handlePlaceOrder (lines 781-812). */
    method HandlePlaceOrder(pickup: NodeID, destination: NodeID)
      requires Valid()
      modifies `drivers, `orders, `pendingOrders, `nextOrderID, `past, `calm, `sequence, `pending, `tape,
               `stale, driverIndex
      ensures Valid() && Step(old(Now()), Now()) && nextOrderID == old(nextOrderID) + 1
      ensures calm == (old(calm) && pickup in city.nodes && destination in city.nodes)
      ensures nextOrderID in orders && orders[nextOrderID].pickup == pickup
      ensures orders[nextOrderID].destination == destination
      ensures OrderTaken(Plan(), pickup, destination, old(Present()), Present())
    {
      hide Steady, Step, TakenIn, HasIdle, WithOrder, Grows, Adds, PlacedTold;
      ghost var s0 := Now();
      PlaceOrder(pickup, destination);
      ghost var log1, s1, o := tape.log, Now(), nextOrderID;
      OfferOrQueue(nextOrderID);
      PlacedTells(old(tape).log, log1, tape.log, o, pickup, destination, virtualTime);
      PlacedMeans(s0, s1, Now(), o, Order(pickup, destination, virtualTime, Pending, None));
    }

    /** Lines 798-811: under batching the order queues up, and is offered only if it is alone in line and somebody
        is idle; otherwise it is offered at once. */
    method OfferOrQueue(orderID: OrderID)
      requires Steady(pendingOrders + [orderID], {})
      modifies `drivers, `orders, `pendingOrders, `past, `sequence, `pending, `tape, `stale, driverIndex
      ensures Steady(pendingOrders, {}) && Step(old(Now()), Now())
      ensures TakenIn(Plan(), city, old(Now()), Now(), orderID, old(pendingOrders), pendingOrders, virtualTime)
      ensures Grows(old(tape).log, tape.log, virtualTime, causation)
    {
      hide Steady, Step, Offered, HasIdle, Grows;
      GrowsNothing(tape.log, virtualTime, causation);
      if strategy.Batched? {
        pendingOrders := pendingOrders + [orderID];
        var idle := HasIdleDriver();
        if |pendingOrders| == 1 && idle {
          DispatchImmediateBaseline();
        } else {
          StepSame(Now());
        }
      } else {
        assert pendingOrders + [orderID] + [] == pendingOrders + [orderID];
        AssignBaseline(orderID, []);
        assert pendingOrders + [] == pendingOrders;
      }
    }

    /** Lines 782-797: the order is recorded, and waits behind those already in line. */
    method PlaceOrder(pickup: NodeID, destination: NodeID)
      requires Steady(pendingOrders, {})
      modifies `orders, `nextOrderID, `calm, `sequence, `pending, `tape, `stale
      ensures nextOrderID == old(nextOrderID) + 1 && Steady(pendingOrders + [nextOrderID], {})
      ensures nextOrderID !in old(orders)
      ensures calm == (old(calm) && pickup in city.nodes && destination in city.nodes)
      ensures Now() == WithOrder(old(Now()), nextOrderID, Order(pickup, destination, virtualTime, Pending, None))
      ensures Adds(old(tape).log, tape.log, [OrderPlaced(nextOrderID, pickup, destination)], virtualTime, causation)
    {
      hide CityOk, Tells, TimeOk, Queued, SceneOk, TripsOk, Indexes, Partition, Grid.Valid, Append, Adds;
      ghost var t, s := tape, Now();
      var order := Order(pickup, destination, virtualTime, Pending, None);
      PlacedOk(city, s, pendingOrders, nextOrderID, virtualTime, order, calm, shortest);
      RecordOrder(order);
      ghost var e := Emit(OrderPlaced(nextOrderID, pickup, destination));
      TellsPlaced(t, Town(city, paused, speed), s, e, nextOrderID, order);
    }

    /** Lines 782-791. */
    method RecordOrder(order: Order)
      modifies `orders, `nextOrderID, `calm
      ensures nextOrderID == old(nextOrderID) + 1 && Now() == WithOrder(old(Now()), nextOrderID, order)
      ensures calm == (old(calm) && order.pickup in city.nodes && order.destination in city.nodes)
    {
      nextOrderID := nextOrderID + 1;
      orders := orders[nextOrderID := order];
      calm := calm && order.pickup in city.nodes && order.destination in city.nodes;
    }

    /** snapshotPayload (lines 695-755), without node coordinates and listing order. */
    method SnapshotPayload() returns (p: Payload)
      requires UniqueIds(city) && WellFormed(city)
      ensures p.Snapshot? && ShowsRoads(p.edges, city) && p.paused == paused && p.speed == speed
      ensures p.drivers == map d | d in drivers :: Shadow(drivers[d])
      ensures p.orders == map o | o in orders :: ShadowOrder(orders[o])
    {
      hide ShowsRoads, UniqueIds, WellFormed;
      var edges := SnapshotEdges(city);
      p := Snapshot(edges, map d | d in drivers :: Shadow(drivers[d]), map o | o in orders :: ShadowOrder(orders[o]),
                    paused, speed);
    }

    /** The first event of a run, and of what follows a reset: a snapshot from which both folds start. */
    method EmitSnapshot()
      requires CityOk(city, euclid, shortest, longest) && Queued() && TapeOk(tape) && Fresh()
      modifies `sequence, `pending, `tape, `stale
      ensures Valid() && Now() == old(Now()) && !stale
      ensures SnapshotTold(old(tape).log, tape.log, city, drivers, orders, paused, speed, virtualTime)
    {
      hide CityOk, Tells, TimeOk, Queued, SceneOk, TripsOk, Indexes, IndexShows, Partition, Grid.Valid, ShowsRoads,
        TapeOk, Placed, CalmStart, Replay.Apply, WebReplay.Apply, UniqueIds, WellFormed, Adds;
      CityParts(city, euclid, shortest, longest);
      FirstSceneOk(city, home, shortest);
      PlacedKeys(home);
      ghost var t := tape;
      var p := SnapshotPayload();
      ghost var e := Emit(p);
      TellsSnapshot(t, Town(city, paused, speed), Now(), e);
      assert IsSnapshot(p, city, drivers, orders, paused, speed);
    }

    /** Start (lines 422-425). */
    method Start() returns (events: seq<Event>)
      requires Ready()
      modifies `sequence, `pending, `tape, `stale, `taken
      ensures Valid() && Now() == old(Now()) && virtualTime == 0.0 && pending == [] && !stale
      ensures tape.log == events && SnapshotTold([], events, city, drivers, orders, paused, speed, 0.0)
    {
      hide CityOk, Placed, CalmStart, Grid.Valid, Partition, Steady, Indexes, SnapshotTold;
      EmitSnapshot();
      events := TakePending();
    }

    /** takePending (lines 682-686): what was emitted since the last call, each event exactly once. */
    method TakePending() returns (events: seq<Event>)
      requires Valid()
      modifies `pending, `taken
      ensures Valid() && pending == [] && taken == tape.log && tape.log == old(taken) + events
    {
      hide CityOk, Tells, TimeOk, SceneOk, TripsOk, Indexes, Partition, Grid.Valid;
      events := pending;
      pending := [];
      taken := taken + events;
    }

    /** reset (lines 630-649): drivers back home, no orders, time zero; roads, speed and pause stay, and
        the numbering of events goes on. */
    method ResetRun()
      requires Valid()
      modifies this
      ensures Valid() && fresh(driverIndex) && taken == old(taken)
      ensures Now() == FirstScene(home) && pendingOrders == [] && virtualTime == 0.0 && nextOrderID == 0
      ensures city == old(city) && paused == old(paused) && speed == old(speed)
      ensures AllHome(drivers, home) && orders == map[] && calm == CalmStart(city, home)
      ensures SnapshotTold(old(tape).log, tape.log, city, drivers, orders, paused, speed, 0.0)
    {
      hide CityOk, Tells, TimeOk, Queued, SceneOk, TripsOk, Indexes, Partition, TapeOk, CalmStart, Placed, Grid.Valid,
        SnapshotTold;
      PlacedHome(home);
      TellsTape(tape, Town(city, paused, speed), Now());
      GoHome();
      EmitSnapshot();
    }

    /** Lines 631-646. */
    method GoHome()
      requires speed > 0.0 && causation == None
      modifies `drivers, `orders, `past, `virtualTime, `nextOrderID, `pendingOrders, `calm, `driverIndex
      ensures Fresh() && fresh(driverIndex)
    {
      hide Indexes, Partition, CalmStart, Placed, Grid.Valid;
      drivers, orders, past := Placed(home), map[], NoPast();
      virtualTime, nextOrderID, pendingOrders := 0.0, 0, [];
      calm := CalmStart(city, home);
      driverIndex := FreshIndex();
    }

    /** Lines 226-233 and 640-646: a new index with every driver in it. */
    method FreshIndex() returns (index: Grid)
      requires drivers == Placed(home)
      ensures fresh(index) && index.Valid() && index.cellSize == CellSize()
      ensures Indexes(strategy, index.points, city, drivers, {})
    {
      index := new Grid(gridCellSize);
      if strategy.Batched? {
        IndexAll(index, city, drivers);
      }
    }

    /** handle (lines 459-478). */
    method Handle(cmd: Command)
      requires Valid()
      modifies this, driverIndex
      ensures Valid() && (driverIndex == old(driverIndex) || fresh(driverIndex)) && taken == old(taken)
      ensures Answered(cmd, city, old(Now()), Now(), home) && city.nodes == old(city).nodes
      ensures virtualTime == if cmd.Reset? then 0.0 else old(virtualTime)
      ensures old(calm) && Gentle(cmd, city, home) ==> calm
      ensures Obeyed(Plan(), cmd, old(Present()), Present())
    {
      hide Steady, Step, Keeps, CalmStart, RoadShut, Named, NothingToDo, BothWays, Adds, SnapshotTold, OrderTaken,
        FirstScene, AllHome, AtHome, RoadIds;
      StepSame(Now());
      CalmConnected();
      match cmd
      case PlaceOrder(pickup, destination) => HandlePlaceOrder(pickup, destination);
      case SetPaused(on) => Pause(on);
      case SetSpeed(multiplier) => ChangeSpeed(multiplier);
      case Reset => ResetRun();
      case CloseRoad(edge, commandId) => HandleCloseRoad(edge, commandId);
      case ReopenRoad(edge) => HandleReopenRoad(edge);
    }

    /** Apply (lines 430-433): the events returned are those the command emitted. */
    method Apply(cmd: Command) returns (events: seq<Event>)
      requires Valid() && pending == []
      modifies this, driverIndex
      ensures Valid() && pending == [] && (driverIndex == old(driverIndex) || fresh(driverIndex))
      ensures tape.log == old(tape).log + events
      ensures Answered(cmd, city, old(Now()), Now(), home) && city.nodes == old(city).nodes
      ensures virtualTime == if cmd.Reset? then 0.0 else old(virtualTime)
      ensures old(calm) && Gentle(cmd, city, home) ==> calm
      ensures Obeyed(Plan(), cmd, old(Present()), Present())
    {
      hide Steady, Answered, Gentle, Obeyed;
      NothingPending();
      Handle(cmd);
      events := TakePending();
    }

    lemma NothingPending()
      requires Valid() && pending == []
      ensures tape.log == taken
    {
      hide CityOk, Tells, TimeOk, SceneOk, TripsOk, Indexes, Partition;
    }

    /** Advance (lines 667-670). */
    method Advance() returns (events: seq<Event>, ghost moved: Scene)
      requires Valid() && pending == []
      requires Cheap(city, virtualTime + VIRTUAL_STEP, INF / 4.0)
      modifies `drivers, `orders, `pendingOrders, `virtualTime, `past, `calm, `sequence, `pending, `tape, `stale,
               `taken, driverIndex
      ensures Valid() && pending == []
      ensures tape.log == old(tape).log + events && Step(old(Now()), Now())
      ensures virtualTime == if paused then old(virtualTime) else old(virtualTime) + VIRTUAL_STEP
      ensures Ticked(Plan(), old(Present()), moved, Present())
      ensures AllParked(old(drivers)) && old(pendingOrders) == [] ==> events == []
      ensures old(calm) && (paused || Cheap(city, virtualTime, UNREACHABLE)) ==> calm
    {
      hide Steady, Step, AllParked, Cheap, Ticked;
      NothingPending();
      moved := Tick();
      events := TakePending();
    }

    /** In a calm run a reset starts another one. */
    lemma CalmConnected()
      requires Valid()
      ensures calm && AtHome(city, home) ==> CalmStart(city, home)
    {
      hide CityOk, Tells, TimeOk, Queued, SceneOk, Timed, Indexes, Partition, Connected;
    }

    /** CurrentSnapshot, Snapshot and buildSnapshotEvent (lines 314-325 and 654-663): the live state under
        the number of the last event. A fold that starts from it differs from the fold of the whole log
        exactly in the route indices of drivers out of step and, if the clock moved since, in the time. */
    method BuildSnapshotEvent() returns (e: Event)
      requires Valid()
      ensures e.sequence == sequence == |tape.log| && e.time == virtualTime
      ensures IsSnapshot(e.payload, city, drivers, orders, paused, speed)
      ensures forall f :: SameButFor(Replay.Apply(f, e), Replay.Fold(Replay.EmptyFrame(), tape.log), past.desynced,
                                     stale)
    {
      hide Steady, Replay.Fold, Replay.Apply, ShowsRoads, UniqueIds, WellFormed, WebReplay.SameView, SameButFor;
      SteadyStreets(pendingOrders);
      SteadySpeed(pendingOrders);
      FoldIsLive();
      DesyncedKnown();
      var p := SnapshotPayload();
      e := Event(sequence, virtualTime, p, None);
      forall f
        ensures SameButFor(Replay.Apply(f, e), Replay.Fold(Replay.EmptyFrame(), tape.log), past.desynced, stale)
      {
        SnapshotIsFold(f, e, Replay.Fold(Replay.EmptyFrame(), tape.log), city, drivers, orders, paused, speed,
                       past.desynced, stale, virtualTime);
      }
    }

    lemma ValidScene()
      requires Valid()
      ensures Streets(city) && SceneOk(city, Now(), pendingOrders, nextOrderID, virtualTime, {})
    {
      hide Tells, TimeOk, Queued, SceneOk, TripsOk, Indexes, Partition;
      CityParts(city, euclid, shortest, longest);
    }

    lemma DesyncedKnown()
      requires Valid()
      ensures past.desynced <= drivers.Keys
    {
      hide CityOk, TimeOk, Queued, SceneOk, TripsOk, Indexes, Partition, Scalars, TapeOk;
    }

    lemma SteadySpeed(line: seq<OrderID>)
      requires Steady(line, {})
      ensures speed > 0.0 && sequence == |tape.log|
    {
      hide CityOk, Tells, TimeOk, SceneOk, TripsOk, Indexes, Partition;
    }

    // -------------------------------------------------------------------------------------------
    // Whole runs
    // -------------------------------------------------------------------------------------------

    /** Any interleaving of commands and ticks from the start on: the events handed out step by step are
        the whole log, the state stays sound, gentle commands keep a calm run calm, and unless a road is
        closed no driver is lost to the index and no order rerouted. */
    method Run(moves: seq<Move>) returns (events: seq<Event>, ghost trace: seq<Moment>)
      requires Ready() && Cheap(city, Steps(|moves|), INF / 4.0)
      modifies this, driverIndex
      ensures Valid() && events == tape.log
      ensures NoClosing(moves) ==> past.lost == {} && past.hist.rerouted == {}
      ensures old(calm) && AllGentle(moves, old(city), home) && Cheap(old(city), Steps(|moves|), UNREACHABLE) ==> calm
      ensures |trace| == |moves| + 1 && trace[|moves|] == Present()
      ensures trace[0] == old(Present()).(log := trace[0].log)
      ensures SnapshotTold([], trace[0].log, old(city), old(drivers), old(orders), old(paused), old(speed), 0.0)
      ensures forall k :: 0 <= k < |moves| ==> Follows(Plan(), moves[k], trace[k], trace[k + 1])
    {
      hide Steady, Gentle, MaxCost, Keeps, Placed, CityOk, Indexes, Grid.Valid, CalmStart, SnapshotTold, Follows;
      events := Start();
      var more;
      more, trace := Continue(moves);
      events := events + more;
    }

    /** One move: a command or a tick. */
    method Make(move: Move) returns (events: seq<Event>)
      requires Valid() && pending == [] && Cheap(city, virtualTime + VIRTUAL_STEP, INF / 4.0)
      modifies this, driverIndex
      ensures Valid() && pending == [] && tape.log == old(tape).log + events && city.nodes == old(city).nodes
      ensures driverIndex == old(driverIndex) || fresh(driverIndex)
      ensures Met(move, city, old(Now()), Now(), home) && Follows(Plan(), move, old(Present()), Present())
      ensures virtualTime <= old(virtualTime) + VIRTUAL_STEP
      ensures (old(calm) && GentleTo(move, old(city), home) &&
               Cheap(old(city), old(virtualTime) + VIRTUAL_STEP, UNREACHABLE)) ==> calm
    {
      hide Steady, Cheap, Gentle, Step, Answered, AllParked, Obeyed, Ticked;
      TimeKnown();
      if move.Do? {
        events := Apply(move.command);
        GentleNodes(move.command, old(city), city, home);
      } else {
        ghost var moved;
        events, moved := Advance();
      }
    }

    /** ... and from any state on: unless there is a reset no order is lost, no settled one changes, and a
        driver that stands where its order begins and ends keeps standing there with it. */
    method Continue(moves: seq<Move>) returns (events: seq<Event>, ghost trace: seq<Moment>)
      requires Valid() && pending == []
      requires Cheap(city, virtualTime + Steps(|moves|), INF / 4.0)
      modifies this, driverIndex
      ensures Valid() && pending == [] && tape.log == old(tape).log + events && city.nodes == old(city).nodes
      ensures driverIndex == old(driverIndex) || fresh(driverIndex)
      ensures NoReset(moves) ==> Keeps(old(Now()), Now())
      ensures NoClosing(moves) ==> NoneLost(old(Now()), Now())
      ensures (old(calm) && AllGentle(moves, old(city), home) &&
               Cheap(old(city), old(virtualTime) + Steps(|moves|), UNREACHABLE)) ==> calm
      ensures |trace| == |moves| + 1 && trace[0] == old(Present()) && trace[|moves|] == Present()
      ensures forall k :: 0 <= k < |moves| ==> Follows(Plan(), moves[k], trace[k], trace[k + 1])
    {
      hide Steady, Cheap, GentleTo, Step, Keeps, NoneLost, NoReset, NoClosing, AllGentle, Met, Steps, Follows;
      ghost var c0, s0, t0, calm0 := city, Now(), virtualTime, calm;
      ghost var small := Cheap(c0, t0 + Steps(|moves|), UNREACHABLE);
      events, trace := [], [Present()];
      StepsGrow(0, |moves|);
      TimeKnown();
      StepSame(s0);
      StepKeepsAll(s0, s0);
      for k := 0 to |moves|
        invariant Valid() && pending == [] && tape.log == old(tape).log + events && city.nodes == c0.nodes
        invariant driverIndex == old(driverIndex) || fresh(driverIndex)
        invariant virtualTime <= t0 + Steps(k)
        invariant (NoReset(moves) ==> Keeps(s0, Now())) && (NoClosing(moves) ==> NoneLost(s0, Now()))
        invariant calm0 && AllGentle(moves, c0, home) && small ==> calm
        invariant |trace| == k + 1 && trace[0] == old(Present()) && trace[k] == Present()
        invariant forall j :: 0 <= j < k ==> Follows(Plan(), moves[j], trace[j], trace[j + 1])
      {
        StepsGrow(k, |moves|);
        ghost var s := Now();
        CostWithin(c0, t0 + Steps(|moves|), INF / 4.0);
        if small { CostWithin(c0, t0 + Steps(|moves|), UNREACHABLE); }
        if AllGentle(moves, c0, home) { GentleMove(moves, k, c0, city, home); }
        var more := Make(moves[k]);
        MoveMeans(moves, k, city, home, s0, s, Now());
        events, trace := events + more, trace + [Present()];
      }
    }

    lemma CostWithin(c0: City, until: real, top: real)
      requires city.nodes == c0.nodes && virtualTime + VIRTUAL_STEP <= until
      requires Cheap(c0, until, top)
      ensures Cheap(city, virtualTime + VIRTUAL_STEP, top)
    {
      hide MaxCost;
      MaxCostGrows(c0, city, costWeights, longest, virtualTime + VIRTUAL_STEP, until);
    }

    lemma TimeKnown()
      requires Valid()
      ensures virtualTime >= 0.0
    {
      hide CityOk, Tells, TimeOk, Queued, TripsOk, Indexes, Partition, FleetOk, Line, ClearExcept;
    }

    // -------------------------------------------------------------------------------------------
    // What holds after every step of every run
    // -------------------------------------------------------------------------------------------

    /** The folds of the log are the live state: orders, closures, paused flag, speed and sequence exactly;
        every driver that is not out of step exactly, and the others but for an older route index; the
        time, that of the last event, exactly unless the clock moved since. Folded up to any of its events
        the log shows the same on the server and in the browser. */
    lemma FoldIsLive()
      requires Valid()
      ensures var f := Replay.Fold(Replay.EmptyFrame(), tape.log);
        f.orders == (map o | o in orders :: ShadowOrder(orders[o])) && f.drivers.Keys == drivers.Keys &&
        (forall d :: d in drivers ==> (f.drivers[d] == Shadow(drivers[d]) <==> d !in past.desynced)) &&
        (forall d :: d in drivers ==> f.drivers[d].(routeIndex := 0) == Shadow(drivers[d]).(routeIndex := 0)) &&
        ShowsRoads(f.edges, city) && f.paused == paused && f.speed == speed && f.sequence == sequence &&
        (f.time < virtualTime <==> stale) && (f.time == virtualTime <==> !stale)
      ensures var f := Replay.Fold(Replay.EmptyFrame(), tape.log);
        f.orders.Keys == orders.Keys && (forall o :: o in orders ==> OrderShown(f.orders[o], orders[o])) &&
        forall d :: d in drivers ==>
          DriverShown(f.drivers[d], drivers[d]) &&
          (f.drivers[d].routeIndex == drivers[d].routeIndex <==> d !in past.desynced)
      ensures Replay.Fold(Replay.EmptyFrame(), tape.log).drivers == (map d | d in drivers :: Shadow(drivers[d])) <==>
        past.desynced == {}
      ensures !past.skipped ==> past.desynced == {}
      ensures tape.log != [] ==> Replay.Fold(Replay.EmptyFrame(), tape.log).time == tape.log[|tape.log| - 1].time
      ensures forall k :: 0 <= k <= |tape.log| ==>
        WebReplay.SameView(Replay.Fold(Replay.EmptyFrame(), tape.log[..k]),
                           WebReplay.Fold(WebReplay.EmptyFrame(), tape.log[..k]))
    {
      hide CityOk, FleetOk, ClockOk, Line, ClearExcept, TripsOk, Indexes, Partition, Scalars, Mirrors, ShowsRoads,
        Remembers, WebReplay.SameView, Replay.Fold, WebReplay.Fold, Numbered, SameAlong;
      ToldMeans(tape, Town(city, paused, speed), drivers, orders, past.desynced);
      AllShown(Replay.Fold(Replay.EmptyFrame(), tape.log), drivers, orders);
      Replay.FoldTime(Replay.EmptyFrame(), tape.log);
      forall k | 0 <= k <= |tape.log|
        ensures WebReplay.SameView(Replay.Fold(Replay.EmptyFrame(), tape.log[..k]),
                                   WebReplay.Fold(WebReplay.EmptyFrame(), tape.log[..k]))
      {
        ToldAlike(tape, Town(city, paused, speed), drivers, orders, past.desynced, k);
      }
    }

    /** Busy drivers and active orders are in bijection with matching statuses, the queue is the pending
        orders in the order they were placed, and every routed driver stands on its route with only open
        roads ahead. */
    lemma FleetInOrder()
      requires Valid()
      ensures forall d :: d in BusyDrivers(drivers) ==> Serving(d, drivers[d], orders)
      ensures forall o :: o in ActiveOrders(orders) ==> ServedBy(o, orders[o], drivers)
      ensures |BusyDrivers(drivers)| == |ActiveOrders(orders)|
      ensures forall o :: o in pendingOrders <==> o in orders && orders[o].status.Pending?
      ensures forall i, j :: 0 <= i < j < |pendingOrders| ==> pendingOrders[i] < pendingOrders[j]
      ensures forall d :: d in drivers && drivers[d].route != [] ==> OnRoute(city, drivers[d])
      ensures Symmetric(city)
    {
      hide Tells, TimeOk, Queued, TripsOk, Indexes, Partition, Courses, Deliveries, ClockOk, ClearFrom, Symmetric,
        Paved, Remembers;
      CityParts(city, euclid, shortest, longest);
      BusyMatchesActive(drivers, orders);
      forall d | d in BusyDrivers(drivers)
        ensures Serving(d, drivers[d], orders)
      {
        assert Engaged(d, drivers[d], orders);
      }
      forall o | o in ActiveOrders(orders)
        ensures ServedBy(o, orders[o], drivers)
      {
        assert Owned(o, orders[o], drivers);
      }
      forall d | d in drivers && drivers[d].route != []
        ensures OnRoute(city, drivers[d])
      {
        assert Engaged(d, drivers[d], orders);
      }
    }

    /** A delivered order was collected at its pickup and handed over at its destination, unless its
        driver was rerouted on the way to the pickup: then it was handed over at the pickup. */
    lemma DeliveredWhere(o: OrderID)
      requires Valid() && o in orders && orders[o].status.Delivered?
      ensures o in past.hist.pickedAt && past.hist.pickedAt[o] == orders[o].pickup && o in past.hist.deliveredAt
      ensures past.hist.deliveredAt[o] == if o in past.hist.rerouted then orders[o].pickup else orders[o].destination
    {
      hide CityOk, Tells, TimeOk, Queued, TripsOk, Indexes, Partition, Fleet.Matched, Courses, ClockOk, Line,
        ClearExcept;
      assert Handled(o, orders[o], past.hist);
    }

    /** A timed trip is collected and delivered after exactly the steps its length takes: the order is
        assigned before the first of these times, under way before the second, and delivered from then on.
        Until then the driver's distance to the end of its route shrinks by 25 units a step. */
    lemma DeliveredWhen(o: OrderID)
      requires Valid() && o in past.trips
      ensures o in orders && virtualTime >= past.trips[o].since
      ensures var t := past.trips[o];
        var pickup, all := StepsFor(t.toPickup, t.carried) as real, StepsFor(t.total, t.carried) as real;
        (orders[o].status.Assigned? <==> virtualTime < t.since + pickup) &&
        (orders[o].status.Delivered? <==> virtualTime >= t.since + all) &&
        (orders[o].status.EnRoute? <==> t.since + pickup <= virtualTime < t.since + all) &&
        (!orders[o].status.Assigned? ==> t.collected == t.since + pickup) &&
        (orders[o].status.Delivered? ==> t.delivered == t.since + all)
      ensures !orders[o].status.Delivered? ==>
        orders[o].assignedDriver.Some? && orders[o].assignedDriver.value in drivers &&
        var d, t := drivers[orders[o].assignedDriver.value], past.trips[o];
        d.route != [] &&
        To(city, d, |d.route| - 1) == t.total - t.carried - 25.0 * (virtualTime - t.since)
    {
      hide Tells, TimeOk, Queued, SceneOk, Indexes, Partition, OnTime, Serene, StepsFor, Ceiling, Left, OnRoad;
      CityParts(city, euclid, shortest, longest);
      TripStatus(city, Now(), pendingOrders, nextOrderID, virtualTime, o, shortest, longest);
    }

    /** In a calm run no order is given up, rerouted or handed over anywhere but at its destination; every
        assigned order's trip is timed from a standing start, but for a driver that stands where its order
        begins and ends; no driver is lost to the index; and with roads at least a tick long the server's
        fold has the live drivers, route indices included. */
    lemma CalmMeans()
      requires Valid() && calm
      ensures forall o :: o in orders ==> !orders[o].status.Unassignable?
      ensures forall o :: o in orders && Active(orders[o]) ==> o in past.trips || Standing(Now(), o)
      ensures forall o :: o in orders && orders[o].status.Delivered? ==> o in past.trips
      ensures forall o :: o in past.trips ==> past.trips[o].carried == 0.0
      ensures past.lost == {} && past.hist.rerouted == {}
      ensures shortest >= DRIVER_SPEED ==>
        Replay.Fold(Replay.EmptyFrame(), tape.log).drivers == map d | d in drivers :: Shadow(drivers[d])
    {
      hide CityOk, SceneOk, Tells, TimeOk, Queued, Timed, Indexes, Partition, ShowsRoads, Connected, Replay.Fold,
        WebReplay.Fold, WebReplay.SameView;
      FoldIsLive();
      forall o | o in orders
        ensures KnownOrder(city, Now(), o)
      {
      }
      TripsKnown();
    }

    lemma TripsKnown()
      requires Valid()
      ensures forall o :: o in past.trips ==> o in orders
    {
      hide CityOk, Tells, TimeOk, Queued, TripsOk, Indexes, Partition, FleetOk, ClockOk, Line, ClearExcept;
      forall o | o in past.trips
        ensures o in orders
      {
        assert Begun(orders, o);
      }
    }

    /** What was announced with an assignment is what the trip was measured by: the log holds the length of the
        whole route and then the way to the pickup and the time it takes from the assignment on. */
    lemma EstimateAnnounced(o: OrderID)
      requires Valid() && o in past.trips
      ensures exists k ::
                0 < k < |tape.log| && tape.log[k].payload.OrderAssigned? && tape.log[k].payload.order == o &&
                tape.log[k].time == past.trips[o].since &&
                tape.log[k].payload.pickupDistance == past.trips[o].toPickup &&
                tape.log[k].payload.pickupEta == past.trips[o].since + past.trips[o].toPickup / 25.0 &&
                tape.log[k - 1].payload.RouteComputed? && tape.log[k - 1].payload.distance == past.trips[o].total
    {
      hide CityOk, TimeOk, Queued, SceneOk, TripsOk, Indexes, Partition, Told;
      var k :| Promised(tape.log, k, o, past.trips[o]);
    }

    /** ... and so a calm run's trips take their lengths at 25 units a step, rounded up: the estimate
        announced with the assignment is always kept. */
    lemma CalmIsPunctual(o: OrderID)
      requires Valid() && calm && o in past.trips
      ensures var t := past.trips[o];
        o in orders &&
        (!orders[o].status.Assigned? ==> t.collected == t.since + Ceiling(t.toPickup / 25.0) as real) &&
        (orders[o].status.Delivered? <==> virtualTime >= t.since + Ceiling(t.total / 25.0) as real) &&
        (orders[o].status.Delivered? ==> t.delivered == t.since + Ceiling(t.total / 25.0) as real)
    {
      hide Valid, StepsFor, Ceiling, To, OnRoad;
      CalmMeans();
      DeliveredWhen(o);
      TripPositive(o);
      NothingCarried(past.trips[o].toPickup);
      NothingCarried(past.trips[o].total);
    }

    lemma TripPositive(o: OrderID)
      requires Valid() && o in past.trips
      ensures past.trips[o].toPickup >= 0.0 && past.trips[o].total >= 0.0
    {
      hide CityOk, Tells, TimeOk, Queued, SceneOk, Indexes, Partition, Serene, InTime;
      assert OnTime(city, Now(), o, past.trips[o], Clock(Now(), o, virtualTime, {}));
    }

    /** Under batching the index holds exactly the idle drivers, where they stand, except those that a
        closure left without a way and that took no order since. */
    lemma IndexInOrder()
      requires Valid() && strategy.Batched?
      ensures driverIndex.points.Keys == IdleDrivers(drivers) - past.lost && past.lost <= IdleDrivers(drivers)
      ensures forall id :: id in driverIndex.points ==> driverIndex.points[id] == At(city, drivers[id].position)
    {
      hide CityOk, Tells, TimeOk, Queued, SceneOk, TripsOk, Partition;
    }
  }

  /** Two frames agree, exactly the desynced drivers have different route indices, and the times differ
      exactly if the clock is stale. */
  ghost predicate SameButFor(a: Replay.Frame, b: Replay.Frame, desynced: set<DriverID>, stale: bool)
  {
    Replay.Agree(a, b, desynced, stale) && (a.time == b.time <==> !stale) &&
    forall d :: d in desynced ==> d in a.drivers && d in b.drivers && a.drivers[d] != b.drivers[d]
  }

  lemma SnapshotIsFold(f: Replay.Frame, e: Event, live: Replay.Frame, c: City, drivers: Drivers, orders: Orders,
                       paused: bool, speed: real, desynced: set<DriverID>, stale: bool, now: real)
    requires e.payload.Snapshot? && ShowsRoads(e.payload.edges, c) && ShowsRoads(live.edges, c) && speed > 0.0
    requires e.payload.drivers == map d | d in drivers :: Shadow(drivers[d])
    requires e.payload.orders == map o | o in orders :: ShadowOrder(orders[o])
    requires e.payload.paused == paused && e.payload.speed == speed && e.sequence == live.sequence && e.time == now
    requires live.orders == (map o | o in orders :: ShadowOrder(orders[o])) && live.drivers.Keys == drivers.Keys
    requires forall d :: d in drivers ==> (live.drivers[d] == Shadow(drivers[d]) <==> d !in desynced)
    requires desynced <= drivers.Keys
    requires forall d :: d in drivers ==> live.drivers[d].(routeIndex := 0) == Shadow(drivers[d]).(routeIndex := 0)
    requires live.paused == paused && live.speed == speed && (live.time == now <==> !stale)
    ensures SameButFor(Replay.Apply(f, e), live, desynced, stale)
  {
    OneShowing(e.payload.edges, live.edges, c);
    hide ShowsRoads;
  }

  lemma OneShowing(a: map<EdgeID, REdge>, b: map<EdgeID, REdge>, c: City)
    requires ShowsRoads(a, c) && ShowsRoads(b, c)
    ensures a == b
  {
    forall id | id in a
      ensures id in b && b[id] == a[id]
    {
      var n, i :| n in c.edges && 0 <= i < |c.edges[n]| && c.edges[n][i].id == id;
    }
    forall id | id in b
      ensures id in a
    {
      var n, i :| n in c.edges && 0 <= i < |c.edges[n]| && c.edges[n][i].id == id;
    }
  }

  datatype Move = Tick | Do(command: Command)

  /** The virtual time n ticks take. */
  function Steps(n: nat): real { n as real * VIRTUAL_STEP }

  lemma StepsGrow(k: nat, n: nat)
    ensures Steps(k) >= 0.0 && Steps(k + 1) == Steps(k) + VIRTUAL_STEP
    ensures (k < n ==> Steps(k) + VIRTUAL_STEP <= Steps(n))
  {
  }

  /** The busy driver's order names it, and is under way with the status that goes with the driver's. */
  predicate Serving(id: DriverID, d: Driver, orders: Orders)
  {
    d.assignedOrder.Some? && d.assignedOrder.value in orders &&
    orders[d.assignedOrder.value].assignedDriver == Some(id) &&
    orders[d.assignedOrder.value].status == if d.status.EnRouteToPickup? then Assigned else EnRoute
  }

  /** ... and the driver of an order under way names the order. */
  predicate ServedBy(o: OrderID, order: Order, drivers: Drivers)
  {
    order.assignedDriver.Some? && order.assignedDriver.value in drivers &&
    drivers[order.assignedDriver.value].assignedOrder == Some(o) &&
    drivers[order.assignedDriver.value].status == if order.status.Assigned? then EnRouteToPickup else Delivering
  }

  /** The driver stands at its place on its route and the rest of it leads over open roads. */
  ghost predicate OnRoute(c: City, d: Driver)
  {
    d.routeIndex < |d.route| && d.route[d.routeIndex] == d.position && ClearFrom(c, d.route, d.routeIndex)
  }

  ghost predicate AllGentle(moves: seq<Move>, c: City, home: map<DriverID, NodeID>)
  {
    forall k :: 0 <= k < |moves| && moves[k].Do? ==> Gentle(moves[k].command, c, home)
  }

  /** A tick, or a gentle command. */
  ghost predicate GentleTo(move: Move, c: City, home: map<DriverID, NodeID>)
  {
    move.Do? ==> Gentle(move.command, c, home)
  }

  lemma GentleMove(moves: seq<Move>, k: nat, c0: City, c: City, home: map<DriverID, NodeID>)
    requires k < |moves| && c.nodes == c0.nodes && AllGentle(moves, c0, home)
    ensures GentleTo(moves[k], c, home)
  {
  }

  lemma GentleNodes(cmd: Command, c0: City, c: City, home: map<DriverID, NodeID>)
    requires c.nodes == c0.nodes
    ensures Gentle(cmd, c0, home) <==> Gentle(cmd, c, home)
  {
  }

  /** What stays the same throughout a run. */
  datatype Setup = Setup(strategy: Strategy, rules: Rules, home: map<DriverID, NodeID>, shortest: real)

  /** What changes in the course of a run. */
  datatype Moment = Moment(city: City, scene: Scene, paused: bool, speed: real, line: seq<OrderID>, next: nat,
                           time: real, log: seq<Event>)

  /** Every move is carried out. */
  ghost predicate Follows(p: Setup, move: Move, a: Moment, b: Moment)
  {
    match move
    case Tick => exists moved :: Ticked(p, a, moved, b)
    case Do(cmd) => Obeyed(p, cmd, a, b)
  }

  /** A tick, `moved` being the scene between driving and dispatching: nothing while paused; otherwise every
      driver drives for one unit of time and its arrivals and place are reported, and then the orders in line
      are dispatched. */
  ghost predicate Ticked(p: Setup, a: Moment, moved: Scene, b: Moment)
  {
    if a.paused then b == a
    else
      b == a.(scene := b.scene, line := b.line, time := a.time + 1.0, log := b.log) &&
      AllDrove(a.city, a.scene, moved, {}, p.shortest) &&
      (exists log :: TickTold(a.scene.drivers, moved.drivers, a.log, log, b.log, b.time)) &&
      Redispatched(p, a.city, moved, b.scene, a.line, b.line, b.time)
  }

  /** Under batching by the dispatch policy, otherwise by offering the orders in turn to whoever is idle. */
  ghost predicate Redispatched(p: Setup, c: City, s: Scene, s': Scene, line: seq<OrderID>, line': seq<OrderID>,
                               now: real)
  {
    if p.strategy.Batched? then DispatchRan(c, s, s', line, line', p.rules, now)
    else Retried(c, s, s', line, line', now) && (line' == [] || !HasIdle(s'.drivers))
  }

  ghost predicate TickTold(drivers0: Drivers, drivers: Drivers, log0: seq<Event>, log1: seq<Event>, log: seq<Event>,
                           now: real)
  {
    (exists ids :: AllTold(drivers0, drivers, ids, log0, log1, now, None)) && Grows(log1, log, now, None)
  }

  lemma TickTells(drivers0: Drivers, drivers: Drivers, log0: seq<Event>, log1: seq<Event>, log: seq<Event>, now: real)
    requires exists ids :: AllTold(drivers0, drivers, ids, log0, log1, now, None)
    requires Grows(log1, log, now, None)
    ensures TickTold(drivers0, drivers, log0, log1, log, now)
  {
    hide AllTold, Grows;
  }

  /** Each command does what it is for, and nothing else. */
  ghost predicate Obeyed(p: Setup, cmd: Command, a: Moment, b: Moment)
  {
    match cmd
    case PlaceOrder(pickup, destination) => OrderTaken(p, pickup, destination, a, b)
    case SetPaused(on) => b == a.(paused := on, log := b.log) && Adds(a.log, b.log, [PausedSet(on)], a.time, None)
    case SetSpeed(m) =>
      if m <= 0.0 then b == a
      else b == a.(speed := m, log := b.log) && Adds(a.log, b.log, [SpeedSet(m)], a.time, None)
    case Reset =>
      b == a.(scene := b.scene, line := [], next := 0, time := 0.0, log := b.log) && b.scene == FirstScene(p.home) &&
      AllHome(b.scene.drivers, p.home) && b.scene.orders == map[] &&
      SnapshotTold(a.log, b.log, b.city, b.scene.drivers, b.scene.orders, b.paused, b.speed, 0.0)
    case CloseRoad(id, commandId) =>
      b == a.(city := b.city, scene := b.scene, log := b.log) && (NothingToDo(a.city, id, true) ==> b == a) &&
      forall e :: Named(a.city, id, Some(e)) && !e.closed ==>
        RoadShut(a.city, b.city, a.scene, b.scene, a.log, b.log, e, a.time,
                 if commandId == "" then None else Some(commandId))
    case ReopenRoad(id) =>
      b == a.(city := b.city, log := b.log) && (NothingToDo(a.city, id, false) ==> b == a) &&
      forall e :: Named(a.city, id, Some(e)) && e.closed ==>
        b.city == BothWays(a.city, e, false) && Adds(a.log, b.log, [RoadReopened(RoadIds(a.city, e))], a.time, None)
  }

  /** An order is recorded under the next number and announced, and then offered or queued. */
  ghost predicate OrderTaken(p: Setup, pickup: NodeID, destination: NodeID, a: Moment, b: Moment)
  {
    b == a.(scene := b.scene, line := b.line, next := a.next + 1, log := b.log) &&
    PlacedTold(a.log, b.log, b.next, pickup, destination, a.time) &&
    var placed := a.scene.(orders := a.scene.orders[b.next := Order(pickup, destination, a.time, Pending, None)]);
    TakenIn(p, a.city, placed, b.scene, b.next, a.line, b.line, a.time)
  }

  /** The first event tells of the new order, the others of what became of it. */
  ghost predicate PlacedTold(log0: seq<Event>, log: seq<Event>, o: OrderID, pickup: NodeID, destination: NodeID,
                             now: real)
  {
    |log| > |log0| && Adds(log0, log[..|log0| + 1], [OrderPlaced(o, pickup, destination)], now, None) &&
    Grows(log0, log, now, None)
  }

  /** Under batching the order is queued or offered, otherwise it is offered. */
  ghost predicate TakenIn(p: Setup, c: City, s: Scene, s': Scene, o: OrderID, line: seq<OrderID>, line': seq<OrderID>,
                          now: real)
  {
    if p.strategy.Batched? then QueuedOrOffered(c, s, s', o, line, line', now)
    else Offered(c, s, s', o, now, line' != line) && (line' == line || line' == line + [o])
  }

  lemma PlacedMeans(s0: Scene, s1: Scene, s: Scene, o: OrderID, order: Order)
    requires s1 == WithOrder(s0, o, order) && o !in s0.orders && Step(s1, s)
    ensures s1 == s0.(orders := s0.orders[o := order]) && Step(s0, s) && s.drivers.Keys == s0.drivers.Keys
    ensures o in s.orders && s.orders[o].pickup == order.pickup && s.orders[o].destination == order.destination
  {
    hide Keeps;
    PlacedStep(s0, o, order);
    StepTransitive(s0, s1, s);
    PlacedStays(s1, s, o);
    StepKeys(s0, s);
  }

  lemma PlacedTells(log0: seq<Event>, log1: seq<Event>, log: seq<Event>, o: OrderID, pickup: NodeID,
                    destination: NodeID, now: real)
    requires Adds(log0, log1, [OrderPlaced(o, pickup, destination)], now, None) && Grows(log1, log, now, None)
    ensures PlacedTold(log0, log, o, pickup, destination, now)
  {
    assert log[..|log0| + 1] == log1;
    GrowsMore(log0, log1, log, now, None);
  }

  /** One snapshot was added, of all that can be seen now. */
  ghost predicate SnapshotTold(log0: seq<Event>, log: seq<Event>, c: City, drivers: Drivers, orders: Orders,
                               paused: bool, speed: real, now: real)
  {
    exists p :: IsSnapshot(p, c, drivers, orders, paused, speed) && Adds(log0, log, [p], now, None)
  }

  ghost predicate IsSnapshot(p: Payload, c: City, drivers: Drivers, orders: Orders, paused: bool, speed: real)
  {
    p.Snapshot? && ShowsRoads(p.edges, c) && p.paused == paused && p.speed == speed &&
    p.drivers.Keys == drivers.Keys && p.orders.Keys == orders.Keys &&
    (forall d :: d in drivers ==>
      DriverShown(p.drivers[d], drivers[d]) && p.drivers[d].routeIndex == drivers[d].routeIndex) &&
    forall o :: o in orders ==> OrderShown(p.orders[o], orders[o])
  }

  lemma AllShown(f: Replay.Frame, drivers: Drivers, orders: Orders)
    requires f.orders == (map o | o in orders :: ShadowOrder(orders[o])) && f.drivers.Keys == drivers.Keys
    requires forall d :: d in drivers ==> f.drivers[d].(routeIndex := 0) == Shadow(drivers[d]).(routeIndex := 0)
    ensures forall o :: o in orders ==> OrderShown(f.orders[o], orders[o])
    ensures forall d :: d in drivers ==>
      DriverShown(f.drivers[d], drivers[d]) &&
      (f.drivers[d].routeIndex == drivers[d].routeIndex <==> f.drivers[d] == Shadow(drivers[d]))
  {
  }

  /** Every driver's starting node is known. */
  ghost predicate AtHome(c: City, home: map<DriverID, NodeID>)
  {
    forall id :: id in home ==> home[id] in c.nodes
  }

  /** A command that leaves the roads alone and places orders between known nodes only. */
  ghost predicate Gentle(cmd: Command, c: City, home: map<DriverID, NodeID>)
  {
    !cmd.CloseRoad? && !cmd.ReopenRoad? && AtHome(c, home) &&
    (cmd.PlaceOrder? ==> cmd.pickup in c.nodes && cmd.destination in c.nodes)
  }

  /** Only a reset loses orders or changes settled ones, and only closing a road loses drivers to the
      index or reroutes orders. */
  ghost predicate Answered(cmd: Command, c: City, s: Scene, s': Scene, home: map<DriverID, NodeID>)
  {
    if cmd.Reset? then s' == FirstScene(home) else if cmd.CloseRoad? then Keeps(s, s') else Step(s, s')
  }

  ghost predicate NoReset(moves: seq<Move>)
  {
    forall k :: 0 <= k < |moves| && moves[k].Do? ==> !moves[k].command.Reset?
  }

  ghost predicate NoClosing(moves: seq<Move>)
  {
    forall k :: 0 <= k < |moves| && moves[k].Do? ==> !moves[k].command.CloseRoad?
  }

  /** No further driver is lost to the index and no further order was rerouted. */
  ghost predicate NoneLost(s: Scene, s': Scene)
  {
    s'.lost <= s.lost && s'.hist.rerouted <= s.hist.rerouted
  }

  lemma StepKeepsAll(a: Scene, b: Scene)
    requires Step(a, b)
    ensures Keeps(a, b) && NoneLost(a, b)
  {
    hide Keeps;
  }

  /** What a move leaves as it was. */
  ghost predicate Met(move: Move, c: City, s: Scene, s': Scene, home: map<DriverID, NodeID>)
  {
    if move.Do? then Answered(move.command, c, s, s', home) else Step(s, s')
  }

  lemma MoveMeans(moves: seq<Move>, k: nat, town: City, home: map<DriverID, NodeID>, a: Scene, b: Scene, c: Scene)
    requires k < |moves| && Met(moves[k], town, b, c, home)
    requires (NoReset(moves) ==> Keeps(a, b)) && (NoClosing(moves) ==> NoneLost(a, b))
    ensures (NoReset(moves) ==> Keeps(a, c)) && (NoClosing(moves) ==> NoneLost(a, c))
  {
    hide Keeps, Placed;
    if NoReset(moves) {
      assert Keeps(b, c);
      KeepsTransitive(a, b, c);
    }
  }

  lemma HeadOf(line: seq<OrderID>, rest: seq<OrderID>)
    ensures rest != [] ==> line + rest == line + [rest[0]] + rest[1..]
  {
  }

  /** Under batching a new order queues up, unless it is alone in line and a driver is idle. */
  ghost predicate QueuedOrOffered(c: City, s: Scene, s': Scene, o: OrderID, line: seq<OrderID>, line': seq<OrderID>,
                                  now: real)
  {
    if line == [] && HasIdle(s.drivers) then Offered(c, s, s', o, now, line' != []) && (line' == [] || line' == [o])
    else s' == s && line' == line + [o]
  }

  /** What retrying the queue amounts to: nothing without an idle driver, otherwise every order is
      offered in turn. */
  ghost predicate Retried(c: City, s: Scene, s': Scene, line: seq<OrderID>, line': seq<OrderID>, now: real)
  {
    if line == [] || !HasIdle(s.drivers) then s' == s && line' == line else OfferedInTurn(c, s, s', line, line', now)
  }

  /** The dispatch policy under batching. */
  ghost predicate DispatchRan(c: City, s0: Scene, s: Scene, line: seq<OrderID>, line': seq<OrderID>, rules: Rules,
                              now: real)
  {
    if line == [] then s == s0 && line' == line
    else
      line[0] in s0.orders &&
      var late := now - s0.orders[line[0]].createdAt >= rules.maxWait;
      if |line| >= rules.minBatchSize then BatchRan(c, s0, s, line, line', rules, now)
      else if |line| == 1 && (HasIdle(s0.drivers) || late) then
        Offered(c, s0, s, line[0], now, line' != []) && (line' == [] || line' == line)
      else if late then BatchRan(c, s0, s, line, line', rules, now)
      else s == s0 && line' == line
  }
}