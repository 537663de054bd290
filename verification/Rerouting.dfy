/** What closing and reopening roads does to drivers and orders (internal/simulation/simulation.go lines
    484-625). */
module Rerouting {
  import opened Roads
  import opened Routing
  import opened Domain
  import opened Matching
  import opened Closures
  import opened Events
  import opened Fleet
  import opened Mirror
  import opened Dispatch
  import opened Travel
  import opened Scenes
  import opened Trips
  import Replay
  import WebReplay

  // ---------------------------------------------------------------------------------------------
  // One driver
  // ---------------------------------------------------------------------------------------------

  /** Lines 618-619: a new route to what the driver was heading for. */
  function Rerouted(s: Scene, id: DriverID, o: OrderID, nodes: seq<NodeID>): Scene
    requires id in s.drivers && nodes != []
  {
    s.(drivers := s.drivers[id := ReroutedDriver(s.drivers[id], nodes)],
       hist := ReroutedHistory(id, s.drivers[id], o, nodes, s.hist),
       desynced := s.desynced - {id}, trips := s.trips - {o})
  }

  /** Lines 607-613: no way there any more, and the index is not told. */
  function Stranded(s: Scene, id: DriverID, o: OrderID): Scene
    requires id in s.drivers && o in s.orders
  {
    s.(drivers := s.drivers[id := StrandedDriver(s.drivers[id])],
       orders := s.orders[o := s.orders[o].(status := Unassignable)],
       desynced := s.desynced - {id}, trips := s.trips - {o}, lost := s.lost + {id})
  }

  /** Driver id has order o and is on its way. */
  ghost predicate Has(s: Scene, id: DriverID, o: OrderID)
  {
    id in s.drivers && o in s.orders && s.drivers[id].assignedOrder == Some(o) && Busy(s.drivers[id]) &&
    |s.drivers[id].route| > 1
  }

  lemma BlockedHas(c: City, s: Scene, line: seq<OrderID>, next: nat, now: real, except: set<DriverID>, id: DriverID)
    requires SceneOk(c, s, line, next, now, except) && id in s.drivers
    requires !ClearFrom(c, s.drivers[id].route, s.drivers[id].routeIndex)
    ensures s.drivers[id].assignedOrder.Some? && Has(s, id, s.drivers[id].assignedOrder.value)
  {
    hide Line, ClockOk, ClearExcept, OpenHop, Remembers;
    assert Engaged(id, s.drivers[id], s.orders);
  }

  lemma ReroutedKeeps(c: City, s: Scene, line: seq<OrderID>, next: nat, now: real, except: set<DriverID>,
                      id: DriverID, o: OrderID, r: Route)
    requires Streets(c) && SceneOk(c, s, line, next, now, except) && Has(s, id, o)
    requires IsBestRoute(c, s.drivers[id].position, Target(s.drivers[id], s.orders[o]), r)
    ensures r.nodes != [] && SceneOk(c, Rerouted(s, id, o, r.nodes), line, next, now, except - {id})
    ensures Keeps(s, Rerouted(s, id, o, r.nodes))
  {
    hide Streets, FleetOk, Line, ClearFrom, IsBestRoute, Distinct, ReroutedHistory, Target, Keeps, Remembers, Varied;
    BestIsLeg(c, s.drivers[id].position, Target(s.drivers[id], s.orders[o]), r);
    RerouteKeeps(s.drivers, s.orders, s.hist, id, o, r.nodes);
    DistinctIsVaried(r.nodes);
    assert s.orders[o := s.orders[o]] == s.orders;
    ClockUpdate(s.orders, s.drivers, now, id, ReroutedDriver(s.drivers[id], r.nodes), o, s.orders[o]);
    ClearFewer(c, s.drivers, except, id, ReroutedDriver(s.drivers[id], r.nodes));
    ReroutedRemembers(s, id, o, r.nodes);
  }

  lemma ReroutedRemembers(s: Scene, id: DriverID, o: OrderID, nodes: seq<NodeID>)
    requires FleetOk(s.drivers, s.orders, s.hist) && Remembers(s) && Has(s, id, o) && nodes != []
    ensures Remembers(Rerouted(s, id, o, nodes)) && Keeps(s, Rerouted(s, id, o, nodes))
  {
    BusyOrder(s.drivers, s.orders, s.hist, id, o);
    hide Courses, Deliveries, Remembers, Keeps, OnCourse;
    NotLost(s, id);
    KeepsUpdate(s, Rerouted(s, id, o, nodes), id, o);
    RemembersUpdate(s, Rerouted(s, id, o, nodes), id, o);
  }

  lemma StrandedKeeps(c: City, s: Scene, line: seq<OrderID>, next: nat, now: real, except: set<DriverID>,
                      id: DriverID, o: OrderID)
    requires SceneOk(c, s, line, next, now, except) && Has(s, id, o)
    ensures SceneOk(c, Stranded(s, id, o), line, next, now, except - {id}) && Keeps(s, Stranded(s, id, o))
  {
    BusyOrder(s.drivers, s.orders, s.hist, id, o);
    hide FleetOk, Line, OnCourse, Keeps, Remembers;
    var d', order' := StrandedDriver(s.drivers[id]), s.orders[o].(status := Unassignable);
    StrandKeeps(s.drivers, s.orders, s.hist, id, o);
    ClockUpdate(s.orders, s.drivers, now, id, d', o, order');
    ClearFewer(c, s.drivers, except, id, d');
    LineKeeps(s.orders, line, next, o, order');
    StrandedRemembers(s, id, o);
  }

  lemma StrandedRemembers(s: Scene, id: DriverID, o: OrderID)
    requires FleetOk(s.drivers, s.orders, s.hist) && Remembers(s) && Has(s, id, o)
    ensures Remembers(Stranded(s, id, o)) && Keeps(s, Stranded(s, id, o))
  {
    BusyOrder(s.drivers, s.orders, s.hist, id, o);
    hide Courses, Deliveries, Remembers, Keeps, OnCourse, Preserved;
    PreservedUpdate(s.orders, o, s.orders[o].(status := Unassignable));
    KeepsUpdate(s, Stranded(s, id, o), id, o);
    RemembersUpdate(s, Stranded(s, id, o), id, o);
  }

  lemma ClearFewer(c: City, drivers: Drivers, except: set<DriverID>, id: DriverID, d: Driver)
    requires ClearExcept(c, drivers, except) && ClearFrom(c, d.route, d.routeIndex) && Varied(d.route)
    ensures ClearExcept(c, drivers[id := d], except - {id})
  {
    hide OpenHop;
  }

  /** Other drivers' trips do not notice. */
  lemma TimedElsewhere(c: City, s: Scene, s': Scene, now: real, id: DriverID, o: OrderID)
    requires Timed(c, s, now, {}) && Fleet.Matched(s.drivers, s.orders) && Has(s, id, o)
    requires s'.trips == s.trips - {o} && s'.drivers.Keys == s.drivers.Keys && s'.orders.Keys == s.orders.Keys
    requires forall x :: x in s.drivers && x != id ==> s'.drivers[x] == s.drivers[x]
    requires forall y :: y in s.orders && y != o ==> s'.orders[y] == s.orders[y]
    requires forall x :: x in s.hist.leg && x != id ==> x in s'.hist.leg && s'.hist.leg[x] == s.hist.leg[x]
    ensures Timed(c, s', now, {})
  {
    hide Underfoot, InTime, Fleet.Matched;
    forall x | x in s'.trips
      ensures OnTime(c, s', x, s'.trips[x], Clock(s', x, now, {}))
    {
      assert OnTime(c, s, x, s.trips[x], Clock(s, x, now, {}));
      if Active(s.orders[x]) { DriverOfTrip(s, x); }
    }
  }

  lemma ReroutedTrips(c: City, s: Scene, now: real, shortest: real, id: DriverID, o: OrderID, nodes: seq<NodeID>)
    requires TripsOk(c, s, now, false, shortest) && Fleet.Matched(s.drivers, s.orders) && Has(s, id, o) && nodes != []
    ensures TripsOk(c, Rerouted(s, id, o, nodes), now, false, shortest)
  {
    hide Timed, Fleet.Matched;
    TimedElsewhere(c, s, Rerouted(s, id, o, nodes), now, id, o);
  }

  lemma StrandedTrips(c: City, s: Scene, now: real, shortest: real, id: DriverID, o: OrderID)
    requires TripsOk(c, s, now, false, shortest) && Fleet.Matched(s.drivers, s.orders) && Has(s, id, o)
    ensures TripsOk(c, Stranded(s, id, o), now, false, shortest)
  {
    hide Timed, Fleet.Matched;
    TimedElsewhere(c, s, Stranded(s, id, o), now, id, o);
  }

  lemma TellsInvalidated(t: Tape, town: Town, s: Scene, e: Event)
    requires Tells(t, town, s, None) && e.payload.RouteInvalidated? && e.sequence == |t.log| + 1
    ensures Tells(Append(t, e), town, s, None)
  {
    hide Logged, Told, Append;
    LoggedAppend(s.trips, t, e);
    ToldInvalidated(t, town, s.drivers, s.orders, s.desynced, e);
  }

  lemma TellsRerouted(t: Tape, town: Town, s: Scene, e: Event, id: DriverID, o: OrderID, nodes: seq<NodeID>)
    requires Tells(t, town, s, None) && id in s.drivers && nodes != [] && e.sequence == |t.log| + 1
    requires e.payload.RouteComputed? && e.payload.driver == id && e.payload.nodes == nodes
    ensures Tells(Append(t, e), town, Rerouted(s, id, o, nodes), None)
  {
    hide Logged, Told, Append;
    LoggedAppend(s.trips, t, e);
    LoggedFewer(s.trips, s.trips - {o}, Append(t, e).log);
    ToldRoute(t, town, s.drivers, s.orders, s.desynced, e, id, nodes);
  }

  lemma RerouteIndexes(strategy: Strategy, points: map<DriverID, Point>, c: City, s: Scene, lost: set<DriverID>,
                       id: DriverID, o: OrderID, nodes: seq<NodeID>)
    requires Indexes(strategy, points, c, s.drivers, lost) && Has(s, id, o) && nodes != []
    ensures Indexes(strategy, points, c, Rerouted(s, id, o, nodes).drivers, lost)
    ensures Indexes(strategy, points, c, Stranded(s, id, o).drivers, lost + {id})
  {
    hide IndexShows;
    if strategy.Batched? {
      IndexBusy(points, c, s.drivers, lost, id, ReroutedDriver(s.drivers[id], nodes));
      IndexStrand(points, c, s.drivers, lost, id, StrandedDriver(s.drivers[id]));
    }
  }

  // ---------------------------------------------------------------------------------------------
  // All drivers
  // ---------------------------------------------------------------------------------------------

  /** What a closure does to one driver and its order: nothing if its way is still open; otherwise a
      shortest open route to where it was heading, or, if there is none, its order is given up and it
      goes idle. */
  ghost predicate Redirected(c: City, s0: Scene, s: Scene, id: DriverID)
  {
    id in s0.drivers && id in s.drivers &&
    var d := s0.drivers[id];
    if ClearFrom(c, d.route, d.routeIndex) then s.drivers[id] == d && SameOrder(s0, s, d.assignedOrder)
    else
      d.assignedOrder.Some? && d.assignedOrder.value in s0.orders && d.assignedOrder.value in s.orders &&
      RedirectedTo(c, d, s.drivers[id], s0.orders[d.assignedOrder.value], s.orders[d.assignedOrder.value])
  }

  ghost predicate RedirectedTo(c: City, d: Driver, d': Driver, order: Order, order': Order)
  {
    if Reachable(c, d.position, Target(d, order)) then
      order' == order && exists r :: IsBestRoute(c, d.position, Target(d, order), r) && Detours(d, d', r.nodes)
    else Gives(d, d') && order' == order.(status := Unassignable)
  }

  /** The driver is on a new route from where it stands, with the progress it had. */
  ghost predicate Detours(d: Driver, d': Driver, nodes: seq<NodeID>)
  {
    d'.route == nodes && d'.routeIndex == 0 && d'.position == d.position && d'.routeProgress == d.routeProgress &&
    d'.idleSince == d.idleSince && d'.status == d.status && d'.assignedOrder == d.assignedOrder
  }

  /** The driver is idle where it stands, with the progress it had, and counts as idle since it last was. */
  ghost predicate Gives(d: Driver, d': Driver)
  {
    d'.status.Idle? && d'.route == [] && d'.routeIndex == 0 && d'.assignedOrder == None && d'.position == d.position &&
    d'.routeProgress == d.routeProgress && d'.idleSince == d.idleSince
  }

  lemma ReroutedDetours(d: Driver, nodes: seq<NodeID>)
    ensures Detours(d, ReroutedDriver(d, nodes), nodes)
  {
  }

  lemma StrandedEmpty(s: Scene, id: DriverID, o: OrderID)
    requires Has(s, id, o)
    ensures id in Stranded(s, id, o).drivers && Stranded(s, id, o).drivers[id].route == []
  {
  }

  lemma StrandedGives(d: Driver)
    ensures Gives(d, StrandedDriver(d))
  {
  }

  /** What is left to a rerouted driver is the shortest way to where it was heading, less the progress it had
      made on the road it was on. */
  lemma DetourLength(c: City, d: Driver, d': Driver, order: Order, order': Order)
    requires Streets(c) && RedirectedTo(c, d, d', order, order') && Reachable(c, d.position, Target(d, order))
    ensures d'.route != []
    ensures exists es ::
              IsWalk(c, d.position, es, Target(d, order)) && To(c, d', |d'.route| - 1) == Length(es) - d.routeProgress
    ensures forall es ::
              IsWalk(c, d.position, es, Target(d, order)) ==>
                To(c, d', |d'.route| - 1) <= Length(es) - d.routeProgress
  {
    hide Streets, Left, Reachable, Target;
    var r :| IsBestRoute(c, d.position, Target(d, order), r) && Detours(d, d', r.nodes);
    RouteLength(c, d.position, Target(d, order), r);
  }

  /** What rerouting one driver adds to the log: its route is invalid, and then the new one with its length,
      or its order is given up and it is idle. */
  ghost function TurnPayloads(c: City, id: DriverID, o: OrderID, d': Driver): seq<Payload>
  {
    if d'.route != [] then
      [RouteInvalidated(id, o), RouteComputed(id, d'.route, Left(c, d'.route, 0, |d'.route| - 1))]
    else [RouteInvalidated(id, o), OrderUnassignable(o), StatusChanged(id, Idle)]
  }

  /** ... and rerouting the blocked ones among these drivers in turn. */
  ghost function ClosurePayloads(c: City, drivers0: Drivers, drivers: Drivers, ids: seq<DriverID>): seq<Payload>
  {
    if ids == [] then []
    else
      var before, id := ClosurePayloads(c, drivers0, drivers, ids[..|ids| - 1]), ids[|ids| - 1];
      if IsBlocked(c, drivers0, id) && drivers0[id].assignedOrder.Some? && id in drivers then
        before + TurnPayloads(c, id, drivers0[id].assignedOrder.value, drivers[id])
      else before
  }

  lemma {:induction false} ClosureSame(c: City, drivers0: Drivers, drivers: Drivers, drivers': Drivers,
                                       ids: seq<DriverID>)
    requires drivers.Keys == drivers'.Keys && forall x :: x in ids && x in drivers ==> drivers'[x] == drivers[x]
    ensures ClosurePayloads(c, drivers0, drivers', ids) == ClosurePayloads(c, drivers0, drivers, ids)
  {
    hide IsBlocked, TurnPayloads;
    if ids != [] {
      ClosureSame(c, drivers0, drivers, drivers', ids[..|ids| - 1]);
      assert ids[|ids| - 1] in ids;
    }
  }

  lemma ClosureStep(c: City, drivers0: Drivers, drivers: Drivers, ids: seq<DriverID>, k: nat)
    requires k < |ids|
    ensures ClosurePayloads(c, drivers0, drivers, ids[..k + 1]) ==
      ClosurePayloads(c, drivers0, drivers, ids[..k]) +
      if IsBlocked(c, drivers0, ids[k]) && drivers0[ids[k]].assignedOrder.Some? && ids[k] in drivers then
        TurnPayloads(c, ids[k], drivers0[ids[k]].assignedOrder.value, drivers[ids[k]])
      else []
  {
    hide IsBlocked, TurnPayloads;
    assert ids[..k + 1][..k] == ids[..k];
    assert ClosurePayloads(c, drivers0, drivers, ids[..k]) + [] == ClosurePayloads(c, drivers0, drivers, ids[..k]);
  }

  lemma ClosureNobody(c: City, drivers0: Drivers, drivers: Drivers, log: seq<Event>, time: real, cause: Option<string>)
    ensures forall ids: seq<DriverID> ::
              Adds(log, log, ClosurePayloads(c, drivers0, drivers, ids[..0]), time, cause)
  {
  }

  /** What happened to one driver was reported, and the other drivers are as before. */
  ghost predicate TurnTold(c: City, drivers0: Drivers, drivers: Drivers, drivers': Drivers, id: DriverID,
                           log0: seq<Event>, log: seq<Event>, time: real, cause: Option<string>)
  {
    drivers'.Keys == drivers.Keys && (forall x :: x in drivers && x != id ==> drivers'[x] == drivers[x]) &&
    Adds(log0, log,
         if IsBlocked(c, drivers0, id) && drivers0[id].assignedOrder.Some? && id in drivers' then
           TurnPayloads(c, id, drivers0[id].assignedOrder.value, drivers'[id])
         else [], time, cause)
  }

  lemma ClosureOne(c: City, drivers0: Drivers, drivers: Drivers, drivers': Drivers, ids: seq<DriverID>, k: nat,
                   log0: seq<Event>, log1: seq<Event>, log: seq<Event>, time: real, cause: Option<string>)
    requires k < |ids| && Ascending(ids)
    requires Adds(log0, log1, ClosurePayloads(c, drivers0, drivers, ids[..k]), time, cause)
    requires TurnTold(c, drivers0, drivers, drivers', ids[k], log1, log, time, cause)
    ensures Adds(log0, log, ClosurePayloads(c, drivers0, drivers', ids[..k + 1]), time, cause)
  {
    hide Adds, ClosurePayloads, TurnPayloads, ClearFrom;
    ClosureSame(c, drivers0, drivers, drivers', ids[..k]);
    ClosureStep(c, drivers0, drivers', ids, k);
    AddsMore(log0, log1, log, ClosurePayloads(c, drivers0, drivers, ids[..k]),
             if IsBlocked(c, drivers0, ids[k]) && drivers0[ids[k]].assignedOrder.Some? && ids[k] in drivers' then
               TurnPayloads(c, ids[k], drivers0[ids[k]].assignedOrder.value, drivers'[ids[k]])
             else [], time, cause);
  }

  ghost predicate AllRedirected(c: City, s0: Scene, s: Scene, rest: set<DriverID>)
  {
    s.drivers.Keys == s0.drivers.Keys && s.orders.Keys == s0.orders.Keys &&
    (forall id :: id in s0.drivers ==> if id in rest then s.drivers[id] == s0.drivers[id]
                                       else Redirected(c, s0, s, id)) &&
    (forall o :: o in s0.orders && !Active(s0.orders[o]) ==> s.orders[o] == s0.orders[o]) &&
    (forall id :: id in rest && id in s0.drivers ==> SameOrder(s0, s, s0.drivers[id].assignedOrder))
  }

  ghost predicate IsBlocked(c: City, drivers: Drivers, id: DriverID)
  {
    id in drivers && !ClearFrom(c, drivers[id].route, drivers[id].routeIndex)
  }

  ghost function Blocked(c: City, drivers: Drivers, among: set<DriverID>): set<DriverID>
  {
    set id | id in among && IsBlocked(c, drivers, id)
  }

  /** There is still a way for driver id to where it is heading. */
  ghost predicate FindsWay(c: City, s: Scene, id: DriverID)
  {
    id in s.drivers && s.drivers[id].assignedOrder.Some? && s.drivers[id].assignedOrder.value in s.orders &&
    Reachable(c, s.drivers[id].position, Target(s.drivers[id], s.orders[s.drivers[id].assignedOrder.value]))
  }

  /** The blocked drivers that are left without a way, and go missing from the index. */
  ghost function CutOff(c: City, s: Scene, among: set<DriverID>): set<DriverID>
  {
    set id | id in among && IsBlocked(c, s.drivers, id) && !FindsWay(c, s, id)
  }

  /** The order of a blocked driver that is rerouted on the way to the pickup. */
  ghost predicate IsDetour(c: City, s: Scene, id: DriverID, o: OrderID)
  {
    IsBlocked(c, s.drivers, id) && FindsWay(c, s, id) && s.drivers[id].status.EnRouteToPickup? &&
    s.drivers[id].assignedOrder == Some(o)
  }

  /** The order of a blocked driver: its trip is no longer timed. */
  ghost predicate IsBroken(c: City, s: Scene, id: DriverID, o: OrderID)
  {
    IsBlocked(c, s.drivers, id) && s.drivers[id].assignedOrder == Some(o)
  }

  ghost predicate Detoured(c: City, s: Scene, among: set<DriverID>, o: OrderID)
  {
    exists id :: id in among && IsDetour(c, s, id, o)
  }

  ghost predicate Broken(c: City, s: Scene, among: set<DriverID>, o: OrderID)
  {
    exists id :: id in among && IsBroken(c, s, id, o)
  }

  /** What is remembered of a closure: exactly the drivers cut off are lost, exactly the orders rerouted
      before their pickup count as rerouted, and exactly the blocked drivers' trips lose their times. */
  ghost predicate Noticed(c: City, s0: Scene, s: Scene, done: set<DriverID>)
  {
    s.skipped == s0.skipped && s.lost == s0.lost + CutOff(c, s0, done) &&
    (forall o :: o in s.hist.rerouted <==> o in s0.hist.rerouted || Detoured(c, s0, done, o)) &&
    (forall o :: o in s.trips <==> o in s0.trips && !Broken(c, s0, done, o)) &&
    forall o :: o in s.trips ==> s.trips[o] == s0.trips[o]
  }

  lemma NothingNoticed(c: City, s: Scene)
    ensures Noticed(c, s, s, {})
  {
    hide IsBlocked, FindsWay;
  }

  lemma NoticedPass(c: City, s0: Scene, s: Scene, done: set<DriverID>, id: DriverID)
    requires Noticed(c, s0, s, done) && !IsBlocked(c, s0.drivers, id)
    ensures Noticed(c, s0, s, done + {id})
  {
    hide IsBlocked, FindsWay;
    forall o
      ensures Detoured(c, s0, done + {id}, o) <==> Detoured(c, s0, done, o)
      ensures Broken(c, s0, done + {id}, o) <==> Broken(c, s0, done, o)
    {
    }
  }

  /** What one rerouting adds to that. */
  ghost predicate TurnNoticed(c: City, s: Scene, s': Scene, id: DriverID, o: OrderID)
  {
    s'.skipped == s.skipped && s'.trips == s.trips - {o} && id in s.drivers &&
    s'.lost == s.lost + (if FindsWay(c, s, id) then {} else {id}) &&
    s'.hist.rerouted ==
      s.hist.rerouted + (if FindsWay(c, s, id) && s.drivers[id].status.EnRouteToPickup? then {o} else {})
  }

  lemma NoticedTurn(c: City, s0: Scene, s: Scene, s': Scene, done: set<DriverID>, id: DriverID, o: OrderID)
    requires Noticed(c, s0, s, done) && TurnNoticed(c, s, s', id, o) && IsBlocked(c, s0.drivers, id)
    requires s0.drivers[id] == s.drivers[id] && s0.drivers[id].assignedOrder == Some(o)
    requires FindsWay(c, s, id) <==> FindsWay(c, s0, id)
    ensures Noticed(c, s0, s', done + {id})
  {
    hide IsBlocked, FindsWay;
    forall y
      ensures Detoured(c, s0, done + {id}, y) <==> Detoured(c, s0, done, y) || IsDetour(c, s0, id, y)
      ensures Broken(c, s0, done + {id}, y) <==> Broken(c, s0, done, y) || y == o
    {
      assert IsBroken(c, s0, id, y) <==> y == o;
    }
    assert CutOff(c, s0, done + {id}) == CutOff(c, s0, done) + if FindsWay(c, s0, id) then {} else {id};
  }

  lemma PassedOver(c: City, s0: Scene, s: Scene, rest: set<DriverID>, id: DriverID)
    requires AllRedirected(c, s0, s, rest) && id in rest && id in s0.drivers
    requires ClearFrom(c, s0.drivers[id].route, s0.drivers[id].routeIndex)
    ensures AllRedirected(c, s0, s, rest - {id})
  {
    hide RedirectedTo, ClearFrom;
    forall x | x in s0.drivers && x !in rest - {id}
      ensures Redirected(c, s0, s, x)
    {
      if x != id { assert Redirected(c, s0, s, x); }
    }
  }

  lemma OneRedirected(c: City, s0: Scene, s: Scene, s': Scene, rest: set<DriverID>, id: DriverID, o: OrderID)
    requires AllRedirected(c, s0, s, rest) && id in rest && Fleet.Matched(s0.drivers, s0.orders) && Has(s0, id, o)
    requires !ClearFrom(c, s0.drivers[id].route, s0.drivers[id].routeIndex)
    requires s'.drivers.Keys == s.drivers.Keys && s'.orders.Keys == s.orders.Keys
    requires forall x :: x in s.drivers && x != id ==> s'.drivers[x] == s.drivers[x]
    requires forall y :: y in s.orders && y != o ==> s'.orders[y] == s.orders[y]
    requires RedirectedTo(c, s0.drivers[id], s'.drivers[id], s0.orders[o], s'.orders[o])
    ensures AllRedirected(c, s0, s', rest - {id})
  {
    hide RedirectedTo, ClearFrom, Fleet.Matched;
    OwnOrder(s0, id);
    forall x | x in s0.drivers && x != id
      ensures s0.drivers[x].assignedOrder != Some(o)
    {
      OrdersDiffer(s0, x, id);
    }
    forall x | x in s0.drivers && x !in rest - {id}
      ensures Redirected(c, s0, s', x)
    {
      if x != id { assert Redirected(c, s0, s, x); }
    }
  }

  lemma BlockedStep(c: City, drivers: Drivers, done: set<DriverID>, id: DriverID)
    requires id in drivers && id !in done
    ensures Blocked(c, drivers, done + {id}) ==
      if ClearFrom(c, drivers[id].route, drivers[id].routeIndex) then Blocked(c, drivers, done)
      else Blocked(c, drivers, done) + {id}
    ensures id !in Blocked(c, drivers, done)
  {
    hide ClearFrom;
  }

  lemma SetGrows(s: set<DriverID>, id: DriverID)
    requires id !in s
    ensures |s + {id}| == |s| + 1
  {
  }

  // ---------------------------------------------------------------------------------------------
  // Roads change
  // ---------------------------------------------------------------------------------------------

  lemma BothWaysPaved(c: City, e: Edge, closed: bool, shortest: real, longest: real)
    requires Paved(c, shortest, longest)
    ensures Paved(BothWays(c, e, closed), shortest, longest)
  {
    hide EdgeBetween;
    MarkedPaved(c, e.id, closed, shortest, longest);
    var c1 := WithClosed(c, e.id, closed);
    var back := EdgeBetween(c1, e.to, e.from);
    if back.Some? { MarkedPaved(c1, back.value.id, closed, shortest, longest); }
  }

  lemma MarkedPaved(c: City, id: EdgeID, closed: bool, shortest: real, longest: real)
    requires Paved(c, shortest, longest)
    ensures Paved(WithClosed(c, id, closed), shortest, longest)
  {
    var c' := WithClosed(c, id, closed);
    forall n, k | n in c'.edges && 0 <= k < |c'.edges[n]|
      ensures shortest <= c'.edges[n][k].weight <= longest
    {
      assert c'.edges[n][k] == Marked(c.edges[n][k], id, closed);
    }
  }

  lemma RoadsCity(c: City, e: Edge, closed: bool, euclid: (Point, Point) -> real, shortest: real, longest: real)
    requires CityOk(c, euclid, shortest, longest) && HasEdge(c, e)
    ensures CityOk(BothWays(c, e, closed), euclid, shortest, longest) && BothWays(c, e, closed).nodes == c.nodes
  {
    hide Streets, Symmetric, Metric, Paved, BothWays, HasEdge;
    BothWaysKeeps(c, e, closed, euclid);
    BothWaysPaved(c, e, closed, shortest, longest);
  }

  lemma HopLength(c: City, e: Edge, closed: bool, a: NodeID, b: NodeID)
    requires Streets(c) && HasEdge(c, e) && Symmetric(c)
    ensures Hop(BothWays(c, e, closed), a, b) == Hop(c, a, b)
  {
    hide Streets, HasEdge, Symmetric, BothWays, EdgeBetween;
    BothWaysEdge(c, e, closed, a, b);
  }

  lemma UnderfootKeeps(c: City, e: Edge, closed: bool, d: Driver, t: Trip, k: nat, clock: real, collected: bool)
    requires Streets(c) && HasEdge(c, e) && Symmetric(c) && Underfoot(c, d, t, k, clock, collected)
    ensures Underfoot(BothWays(c, e, closed), d, t, k, clock, collected)
  {
    hide Streets, HasEdge, Symmetric, BothWays, Left, Hop;
    LeftKeeps(c, e, closed, d.route, d.routeIndex, |d.route| - 1);
    if k < |d.route| { LeftKeeps(c, e, closed, d.route, d.routeIndex, k); }
    if d.routeIndex + 1 < |d.route| {
      HopLength(c, e, closed, d.route[d.routeIndex], d.route[d.routeIndex + 1]);
    }
  }

  /** Roads opening or closing change no distance. */
  lemma RoadsTrips(c: City, e: Edge, closed: bool, s: Scene, now: real, calm: bool, shortest: real)
    requires Streets(c) && HasEdge(c, e) && Symmetric(c) && TripsOk(c, s, now, calm, shortest)
    ensures TripsOk(BothWays(c, e, closed), s, now, false, shortest)
  {
    hide Streets, HasEdge, Symmetric, BothWays, InTime, Underfoot, Serene;
    var c' := BothWays(c, e, closed);
    forall o | o in s.trips
      ensures OnTime(c', s, o, s.trips[o], Clock(s, o, now, {}))
    {
      var t := s.trips[o];
      assert OnTime(c, s, o, t, Clock(s, o, now, {}));
      if Active(s.orders[o]) {
        var id := s.orders[o].assignedDriver.value;
        UnderfootKeeps(c, e, closed, s.drivers[id], t, s.hist.leg[id], now, s.orders[o].status.EnRoute?);
      }
    }
  }

  lemma RoadsScene(c: City, c': City, s: Scene, line: seq<OrderID>, next: nat, now: real)
    requires SceneOk(c, s, line, next, now, {})
    ensures SceneOk(c', s, line, next, now, s.drivers.Keys)
  {
    hide FleetOk, ClockOk, Line;
  }

  /** Reopening blocks nobody. */
  lemma ReopenedScene(c: City, e: Edge, s: Scene, line: seq<OrderID>, next: nat, now: real)
    requires Streets(c) && HasEdge(c, e) && Symmetric(c) && SceneOk(c, s, line, next, now, {})
    ensures SceneOk(BothWays(c, e, false), s, line, next, now, {})
  {
    hide FleetOk, ClockOk, Line, Streets, HasEdge, Symmetric, BothWays, ClearFrom, Varied, Remembers;
    forall id | id in s.drivers
      ensures ClearFrom(BothWays(c, e, false), s.drivers[id].route, s.drivers[id].routeIndex)
    {
      ReopenKeepsClear(c, e, s.drivers[id].route, s.drivers[id].routeIndex);
    }
  }

  lemma RoadsIndexes(strategy: Strategy, points: map<DriverID, Point>, c: City, c': City, drivers: Drivers,
                     lost: set<DriverID>)
    requires Indexes(strategy, points, c, drivers, lost) && c'.nodes == c.nodes
    ensures Indexes(strategy, points, c', drivers, lost)
  {
    hide IndexShows;
    if strategy.Batched? { IndexCity(points, c, c', drivers, lost); }
  }

  lemma TellsRoads(t: Tape, town: Town, s: Scene, e: Event, edge: Edge, closed: bool)
    requires Tells(t, town, s, None) && e.sequence == |t.log| + 1
    requires Streets(town.city) && HasEdge(town.city, edge) && Symmetric(town.city)
    requires if closed then e.payload.RoadClosed? && e.payload.edgeIds == RoadIds(town.city, edge)
             else e.payload == RoadReopened(RoadIds(town.city, edge))
    ensures Tells(Append(t, e), town.(city := BothWays(town.city, edge, closed)), s, None)
  {
    hide Logged, Told, Append, Streets, HasEdge, Symmetric, RoadIds, BothWays;
    LoggedAppend(s.trips, t, e);
    ToldRoads(t, town, s.drivers, s.orders, s.desynced, e, edge, closed);
  }

  /** What one rerouting comes to, other drivers and orders staying as they are. */
  ghost predicate Turned(c: City, s: Scene, s': Scene, id: DriverID)
  {
    id in s.drivers && s'.drivers.Keys == s.drivers.Keys && s'.orders.Keys == s.orders.Keys &&
    var d := s.drivers[id];
    d.assignedOrder.Some? && Has(s, id, d.assignedOrder.value) &&
    (forall x :: x in s.drivers && x != id ==> s'.drivers[x] == s.drivers[x]) &&
    (forall y :: y in s.orders && y != d.assignedOrder.value ==> s'.orders[y] == s.orders[y]) &&
    TurnNoticed(c, s, s', id, d.assignedOrder.value) &&
    RedirectedTo(c, d, s'.drivers[id], s.orders[d.assignedOrder.value], s'.orders[d.assignedOrder.value])
  }

  lemma TurnedOthers(c: City, s: Scene, s': Scene, id: DriverID)
    requires Turned(c, s, s', id)
    ensures s'.drivers.Keys == s.drivers.Keys && forall x :: x in s.drivers && x != id ==> s'.drivers[x] == s.drivers[x]
  {
    hide RedirectedTo, TurnNoticed;
  }

  /** Stranding keeps all that has to be kept. */
  lemma StrandOk(c: City, s: Scene, line: seq<OrderID>, next: nat, now: real, except: set<DriverID>, id: DriverID,
                 o: OrderID, shortest: real, strategy: Strategy, points: map<DriverID, Point>)
    requires SceneOk(c, s, line, next, now, except) && TripsOk(c, s, now, false, shortest) && Has(s, id, o)
    requires !Reachable(c, s.drivers[id].position, Target(s.drivers[id], s.orders[o]))
    requires Indexes(strategy, points, c, s.drivers, s.lost)
    ensures var s' := Stranded(s, id, o);
      SceneOk(c, s', line, next, now, except - {id}) && TripsOk(c, s', now, false, shortest) && Keeps(s, s') &&
      Turned(c, s, s', id) && Indexes(strategy, points, c, s'.drivers, s'.lost)
  {
    hide TripsOk, Courses, Deliveries, Line, ClearExcept, ClockOk, Indexes, Reachable, Fleet.Matched, Keeps,
      StrandedDriver, Target, Remembers;
    StrandedGives(s.drivers[id]);
    StrandedKeeps(c, s, line, next, now, except, id, o);
    StrandedTrips(c, s, now, shortest, id, o);
    RerouteIndexes(strategy, points, c, s, s.lost, id, o, [s.drivers[id].position]);
  }

  /** ... and so does rerouting. */
  lemma RerouteOk(c: City, s: Scene, line: seq<OrderID>, next: nat, now: real, except: set<DriverID>, id: DriverID,
                  o: OrderID, r: Route, shortest: real, strategy: Strategy, points: map<DriverID, Point>)
    requires Streets(c) && SceneOk(c, s, line, next, now, except) && TripsOk(c, s, now, false, shortest)
    requires Has(s, id, o)
    requires Reachable(c, s.drivers[id].position, Target(s.drivers[id], s.orders[o]))
    requires IsBestRoute(c, s.drivers[id].position, Target(s.drivers[id], s.orders[o]), r)
    requires Indexes(strategy, points, c, s.drivers, s.lost)
    ensures r.nodes != []
    ensures var s' := Rerouted(s, id, o, r.nodes);
      SceneOk(c, s', line, next, now, except - {id}) && TripsOk(c, s', now, false, shortest) && Keeps(s, s') &&
      Turned(c, s, s', id) && Indexes(strategy, points, c, s'.drivers, s'.lost)
  {
    hide Streets, TripsOk, Courses, Deliveries, Line, ClearExcept, ClockOk, Indexes, Reachable, Fleet.Matched, Keeps,
      IsBestRoute, ReroutedDriver, Target, Remembers;
    ReroutedDetours(s.drivers[id], r.nodes);
    ReroutedKeeps(c, s, line, next, now, except, id, o, r);
    ReroutedTrips(c, s, now, shortest, id, o, r.nodes);
    RerouteIndexes(strategy, points, c, s, s.lost, id, o, r.nodes);
  }

  /** Lines 610-613, the second half of stranding. */
  lemma StrandedHalves(s: Scene, id: DriverID, o: OrderID)
    requires Has(s, id, o)
    ensures Stranded(s, id, o) == StrandedHalf(GivenUp(s, o), id, o)
  {
  }

  function StrandedHalf(s: Scene, id: DriverID, o: OrderID): Scene
    requires id in s.drivers
  {
    s.(drivers := s.drivers[id := StrandedDriver(s.drivers[id])], desynced := s.desynced - {id}, trips := s.trips - {o},
       lost := s.lost + {id})
  }

  lemma TellsStrandedHalf(t: Tape, town: Town, s: Scene, e: Event, id: DriverID, o: OrderID)
    requires Tells(t, town, s, None) && id in s.drivers && e.payload == StatusChanged(id, Idle)
    requires e.sequence == |t.log| + 1
    ensures Tells(Append(t, e), town, StrandedHalf(s, id, o), None)
  {
    hide Logged, Told, Append;
    LoggedAppend(s.trips, t, e);
    LoggedFewer(s.trips, s.trips - {o}, Append(t, e).log);
    ToldIdle(t, town, s.drivers, s.orders, s.desynced, None, e, id, StrandedDriver(s.drivers[id]));
  }

  lemma TurnedRedirected(c: City, s0: Scene, s: Scene, s': Scene, rest: set<DriverID>, id: DriverID)
    requires AllRedirected(c, s0, s, rest) && id in rest && id in s0.drivers && Fleet.Matched(s0.drivers, s0.orders)
    requires Turned(c, s, s', id) && !ClearFrom(c, s0.drivers[id].route, s0.drivers[id].routeIndex)
    ensures AllRedirected(c, s0, s', rest - {id})
  {
    hide RedirectedTo, ClearFrom, Fleet.Matched, Redirected;
    OwnOrder(s0, id);
    OneRedirected(c, s0, s, s', rest, id, s0.drivers[id].assignedOrder.value);
  }

  /** Drivers still to be looked at are as they were. */
  lemma StillTheSame(c: City, s0: Scene, s: Scene, rest: set<DriverID>, id: DriverID)
    requires AllRedirected(c, s0, s, rest) && id in rest && id in s0.drivers
    ensures id in s.drivers && s.drivers[id] == s0.drivers[id]
  {
    hide Redirected;
  }

  lemma ClearPass(c: City, s: Scene, line: seq<OrderID>, next: nat, now: real, except: set<DriverID>, id: DriverID)
    requires SceneOk(c, s, line, next, now, except) && id in s.drivers
    requires ClearFrom(c, s.drivers[id].route, s.drivers[id].routeIndex)
    ensures SceneOk(c, s, line, next, now, except - {id})
  {
    hide FleetOk, ClockOk, Line, OpenHop;
  }

  lemma NoRouteIsClear(c: City, route: seq<NodeID>, i: nat)
    ensures route == [] ==> ClearFrom(c, route, i)
  {
  }

  /** Half-way through: the drivers in `rest` have still to be looked at. */
  ghost predicate Recalculated(c: City, s0: Scene, s: Scene, rest: set<DriverID>, affected: nat)
  {
    AllRedirected(c, s0, s, rest) && Noticed(c, s0, s, s0.drivers.Keys - rest) && Keeps(s0, s) &&
    rest <= s0.drivers.Keys && affected == |Blocked(c, s0.drivers, s0.drivers.Keys - rest)|
  }

  lemma NobodyRedirected(c: City, s: Scene)
    ensures AllRedirected(c, s, s, s.drivers.Keys)
  {
    hide Redirected;
  }

  lemma NoneDone(ids: set<DriverID>)
    ensures ids - ids == {}
  {
  }

  lemma NothingDone(c: City, s: Scene)
    ensures Noticed(c, s, s, {}) && Blocked(c, s.drivers, {}) == {}
  {
    hide Noticed;
    NothingNoticed(c, s);
  }

  lemma RecalculatedStart(c: City, s: Scene)
    ensures Recalculated(c, s, s, s.drivers.Keys, 0)
  {
    hide AllRedirected, Noticed, Keeps, Blocked;
    NobodyRedirected(c, s);
    NothingDone(c, s);
    NoneDone(s.drivers.Keys);
    StepSame(s);
  }

  lemma RecalculatedPass(c: City, s0: Scene, s: Scene, rest: set<DriverID>, affected: nat, id: DriverID)
    requires Recalculated(c, s0, s, rest, affected) && id in rest
    requires id in s.drivers && ClearFrom(c, s.drivers[id].route, s.drivers[id].routeIndex)
    ensures Recalculated(c, s0, s, rest - {id}, affected)
  {
    hide ClearFrom, AllRedirected, Keeps, Blocked, Noticed;
    StillTheSame(c, s0, s, rest, id);
    PassedOver(c, s0, s, rest, id);
    NoticedPass(c, s0, s, s0.drivers.Keys - rest, id);
    BlockedStep(c, s0.drivers, s0.drivers.Keys - rest, id);
    assert s0.drivers.Keys - (rest - {id}) == s0.drivers.Keys - rest + {id};
  }

  lemma RecalculatedTurn(c: City, s0: Scene, s: Scene, s': Scene, rest: set<DriverID>, affected: nat,
                         id: DriverID)
    requires Recalculated(c, s0, s, rest, affected) && id in rest && Fleet.Matched(s0.drivers, s0.orders)
    requires id in s.drivers && !ClearFrom(c, s.drivers[id].route, s.drivers[id].routeIndex)
    requires Turned(c, s, s', id) && Keeps(s, s')
    ensures Recalculated(c, s0, s', rest - {id}, affected + 1)
  {
    hide ClearFrom, AllRedirected, Keeps, Blocked, Turned, Fleet.Matched, Noticed;
    StillTheSame(c, s0, s, rest, id);
    TurnedRedirected(c, s0, s, s', rest, id);
    TurnedNoticed(c, s0, s, s', rest, id);
    KeepsTransitive(s0, s, s');
    BlockedStep(c, s0.drivers, s0.drivers.Keys - rest, id);
    SetGrows(Blocked(c, s0.drivers, s0.drivers.Keys - rest), id);
    assert s0.drivers.Keys - (rest - {id}) == s0.drivers.Keys - rest + {id};
  }

  lemma TurnedNoticed(c: City, s0: Scene, s: Scene, s': Scene, rest: set<DriverID>, id: DriverID)
    requires AllRedirected(c, s0, s, rest) && Noticed(c, s0, s, s0.drivers.Keys - rest) && id in rest
    requires id in s0.drivers
    requires Turned(c, s, s', id) && IsBlocked(c, s0.drivers, id) && Fleet.Matched(s0.drivers, s0.orders)
    ensures Noticed(c, s0, s', s0.drivers.Keys - rest + {id})
  {
    hide RedirectedTo, Redirected, IsBlocked, Noticed, Reachable, TurnNoticed, Fleet.Matched;
    OwnOrder(s0, id);
    NoticedTurn(c, s0, s, s', s0.drivers.Keys - rest, id, s0.drivers[id].assignedOrder.value);
  }

  lemma RecalculatedEnd(c: City, s0: Scene, s: Scene, rest: set<DriverID>, affected: nat)
    requires Recalculated(c, s0, s, rest, affected) && rest == {}
    ensures AllRedirected(c, s0, s, {}) && Noticed(c, s0, s, s0.drivers.Keys) && Keeps(s0, s)
    ensures affected == |Blocked(c, s0.drivers, s0.drivers.Keys)|
  {
    hide AllRedirected, Keeps, Blocked, Noticed;
    assert s0.drivers.Keys - rest == s0.drivers.Keys;
  }

  lemma RecalculatedKnows(c: City, s0: Scene, s: Scene, rest: set<DriverID>, affected: nat, id: DriverID)
    requires Recalculated(c, s0, s, rest, affected) && id in rest
    ensures id in s.drivers && id in s0.drivers && s.drivers[id] == s0.drivers[id]
  {
    hide Keeps, Blocked, Noticed;
  }

  /** The id names no road, or one already in the wanted state. */
  ghost predicate NothingToDo(c: City, id: EdgeID, closed: bool)
  {
    exists e: Option<Edge> :: Named(c, id, e) && (e.None? || e.value.closed == closed)
  }

  /** The edge of that id, if there is one. */
  ghost predicate Named(c: City, id: EdgeID, e: Option<Edge>)
  {
    if e.Some? then e.value.id == id && HasEdge(c, e.value)
    else forall n, i :: n in c.edges && 0 <= i < |c.edges[n]| ==> c.edges[n][i].id != id
  }

  lemma NamedOnce(c: City, id: EdgeID, a: Option<Edge>, b: Option<Edge>)
    requires UniqueIds(c) && Named(c, id, a) && Named(c, id, b)
    ensures a == b
  {
  }

  /** What a command that closes a road amounts to. */
  ghost predicate RoadShut(c0: City, c: City, s0: Scene, s: Scene, log0: seq<Event>, log: seq<Event>, e: Edge,
                           time: real, cause: Option<string>)
  {
    c == BothWays(c0, e, true) && AllRedirected(c, s0, s, {}) && Noticed(c, s0, s, s0.drivers.Keys) &&
    exists ids :: ClosureReported(c0, c, s0, s, log0, log, e, time, cause, ids)
  }

  /** The blocked drivers were reported in order of id, and then how many there were. */
  ghost predicate ClosureReported(c0: City, c: City, s0: Scene, s: Scene, log0: seq<Event>, log: seq<Event>, e: Edge,
                                  time: real, cause: Option<string>, ids: seq<DriverID>)
  {
    Ascending(ids) && (forall x :: x in ids <==> x in s0.drivers) &&
    Adds(log0, log, ClosurePayloads(c, s0.drivers, s.drivers, ids) +
                    [RoadClosed(RoadIds(c0, e), |Blocked(c, s0.drivers, s0.drivers.Keys)|)], time, cause)
  }

  lemma ShutRoad(c0: City, c: City, s0: Scene, s: Scene, log0: seq<Event>, log1: seq<Event>, log: seq<Event>, e: Edge,
                 affected: nat, time: real, cause: Option<string>, ids: seq<DriverID>)
    requires c == BothWays(c0, e, true) && AllRedirected(c, s0, s, {}) && Noticed(c, s0, s, s0.drivers.Keys)
    requires affected == |Blocked(c, s0.drivers, s0.drivers.Keys)|
    requires Ascending(ids) && forall x :: x in ids <==> x in s0.drivers
    requires Adds(log0, log1, ClosurePayloads(c, s0.drivers, s.drivers, ids), time, cause)
    requires Adds(log1, log, [RoadClosed(RoadIds(c0, e), affected)], time, cause)
    ensures RoadShut(c0, c, s0, s, log0, log, e, time, cause)
  {
    hide AllRedirected, BothWays, RoadIds, Blocked, Noticed, ClosurePayloads, Adds;
    AddsMore(log0, log1, log, ClosurePayloads(c, s0.drivers, s.drivers, ids), [RoadClosed(RoadIds(c0, e), affected)],
             time, cause);
    assert ClosureReported(c0, c, s0, s, log0, log, e, time, cause, ids);
  }

  ghost function Among(ids: seq<DriverID>): set<DriverID> { set x | x in ids }

  /** Every blocked driver is told of by one invalidated route, followed by a new one or by its order being
      given up. */
  lemma {:induction false} ClosureCounts(c: City, drivers0: Drivers, drivers: Drivers, ids: seq<DriverID>)
    requires Ascending(ids) && drivers.Keys == drivers0.Keys && forall x :: x in ids ==> x in drivers0
    requires forall x :: x in ids && IsBlocked(c, drivers0, x) ==> drivers0[x].assignedOrder.Some?
    ensures var t := TallyOf(ClosurePayloads(c, drivers0, drivers, ids));
      t.invalidated == |Blocked(c, drivers0, Among(ids))| && t.computed + t.unassignable == t.invalidated
  {
    hide ClearFrom, TurnPayloads, TallyOf, Counted;
    if ids == [] {
      TallyNone(ClosurePayloads(c, drivers0, drivers, ids));
      assert Blocked(c, drivers0, Among(ids)) == {};
    } else {
      var n := |ids| - 1;
      var before, id := ids[..n], ids[n];
      ClosureCounts(c, drivers0, drivers, before);
      assert Among(ids) == Among(before) + {id};
      BlockedStep(c, drivers0, Among(before), id);
      if IsBlocked(c, drivers0, id) {
        var o, payloads := drivers0[id].assignedOrder.value, ClosurePayloads(c, drivers0, drivers, before);
        SetGrows(Blocked(c, drivers0, Among(before)), id);
        TallySplit(payloads, TurnPayloads(c, id, o, drivers[id]));
        TurnCounts(c, id, o, drivers[id]);
      }
    }
  }

  /** A closure announces as many affected routes as it invalidated, and each of them led to a new route or to
      an order given up. */
  lemma ShutCounts(c0: City, c: City, s0: Scene, s: Scene, log0: seq<Event>, log: seq<Event>, e: Edge, time: real,
                   cause: Option<string>) returns (payloads: seq<Payload>)
    requires RoadShut(c0, c, s0, s, log0, log, e, time, cause) && Fleet.Matched(s0.drivers, s0.orders)
    ensures Adds(log0, log, payloads, time, cause)
    ensures var t := TallyOf(payloads);
      payloads != [] && payloads[|payloads| - 1] == RoadClosed(RoadIds(c0, e), t.invalidated) &&
      t.computed + t.unassignable == t.invalidated == |Blocked(c, s0.drivers, s0.drivers.Keys)|
  {
    hide BothWays, Redirected, Noticed, Adds, ClosurePayloads, TallyOf, Counted, RoadIds, Fleet.Matched, ClearFrom,
      Blocked;
    var ids :| ClosureReported(c0, c, s0, s, log0, log, e, time, cause, ids);
    var turns := ClosurePayloads(c, s0.drivers, s.drivers, ids);
    var last := RoadClosed(RoadIds(c0, e), |Blocked(c, s0.drivers, s0.drivers.Keys)|);
    BlockedBusy(c, s0);
    ClosureCounts(c, s0.drivers, s.drivers, ids);
    assert Among(ids) == s0.drivers.Keys;
    TallySplit(turns, [last]);
    TallyOne(last);
    KindCounts(last);
    payloads := turns + [last];
  }

  lemma BlockedBusy(c: City, s: Scene)
    requires Fleet.Matched(s.drivers, s.orders)
    ensures forall x :: IsBlocked(c, s.drivers, x) ==> s.drivers[x].assignedOrder.Some?
  {
    hide OpenHop;
    forall x | IsBlocked(c, s.drivers, x)
      ensures s.drivers[x].assignedOrder.Some?
    {
      assert Engaged(x, s.drivers[x], s.orders);
    }
  }

  lemma TurnCounts(c: City, id: DriverID, o: OrderID, d: Driver)
    ensures TallyOf(TurnPayloads(c, id, o, d)) == if d.route != [] then Tally(1, 1, 0) else Tally(1, 0, 1)
  {
    hide Left, TallyOf;
    if d.route != [] {
      TwoCounts(RouteInvalidated(id, o), RouteComputed(id, d.route, Left(c, d.route, 0, |d.route| - 1)));
    } else {
      ThreeCounts(RouteInvalidated(id, o), OrderUnassignable(o), StatusChanged(id, Idle));
    }
  }

  /** Right after the roads changed: everyone may be blocked, and the folds show the old roads. */
  lemma RoadsChanged(c: City, e: Edge, closed: bool, s: Scene, line: seq<OrderID>, next: nat, now: real, calm: bool,
                     euclid: (Point, Point) -> real, shortest: real, longest: real, strategy: Strategy,
                     points: map<DriverID, Point>, lost: set<DriverID>)
    requires CityOk(c, euclid, shortest, longest) && HasEdge(c, e) && SceneOk(c, s, line, next, now, {})
    requires TripsOk(c, s, now, calm, shortest) && Indexes(strategy, points, c, s.drivers, lost)
    ensures var c' := BothWays(c, e, closed);
      CityOk(c', euclid, shortest, longest) && SceneOk(c', s, line, next, now, s.drivers.Keys) &&
      TripsOk(c', s, now, false, shortest) && Indexes(strategy, points, c', s.drivers, lost) &&
      (!closed ==> SceneOk(c', s, line, next, now, {}))
  {
    CityParts(c, euclid, shortest, longest);
    hide CityOk, SceneOk, TripsOk, Indexes, BothWays, HasEdge, Streets, Symmetric, Metric, Paved, WeightsBelow,
      UniqueIds;
    RoadsCity(c, e, closed, euclid, shortest, longest);
    RoadsScene(c, BothWays(c, e, closed), s, line, next, now);
    RoadsTrips(c, e, closed, s, now, calm, shortest);
    RoadsIndexes(strategy, points, c, BothWays(c, e, closed), s.drivers, lost);
    if !closed { ReopenedScene(c, e, s, line, next, now); }
  }

  lemma OnlyOne(c: City, id: EdgeID, found: Option<Edge>, closed: bool)
    requires UniqueIds(c) && Named(c, id, found)
    ensures NothingToDo(c, id, closed) <==> found.None? || found.value.closed == closed
    ensures forall e :: Named(c, id, Some(e)) ==> found == Some(e)
  {
    hide UniqueIds, Named;
    forall e: Option<Edge> | Named(c, id, e)
      ensures e == found
    {
      NamedOnce(c, id, e, found);
    }
  }

  lemma IsNamed(c: City, id: EdgeID, found: Option<Edge>)
    requires found.Some? ==> found.value.id == id && HasEdge(c, found.value)
    requires found.None? ==> forall n, i :: n in c.edges && 0 <= i < |c.edges[n]| ==> c.edges[n][i].id != id
    ensures Named(c, id, found)
  {
    hide HasEdge;
  }

  lemma BothWaysNodes(c: City, e: Edge, closed: bool)
    ensures BothWays(c, e, closed).nodes == c.nodes
  {
  }
}
