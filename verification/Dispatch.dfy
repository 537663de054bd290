/** The index of idle drivers, clocks, batch costs and the count of rerouting events
    (internal/simulation/simulation.go lines 151-163, 227-233, 549-649, 879-949 and 1122-1131). */
module Dispatch {
  import opened Roads
  import opened Routing
  import opened Domain
  import opened Fleet
  import opened Events
  import opened Matching
  import opened Hungarian

  // ---------------------------------------------------------------------------------------------
  // The index of idle drivers
  // ---------------------------------------------------------------------------------------------

  function IdleDrivers(drivers: Drivers): set<DriverID>
  {
    set d | d in drivers && drivers[d].status.Idle?
  }

  /** The index holds exactly the idle drivers, at their nodes, but for the lost ones. */
  ghost predicate IndexShows(points: map<DriverID, Point>, c: City, drivers: Drivers, lost: set<DriverID>)
  {
    lost <= IdleDrivers(drivers) && points.Keys == IdleDrivers(drivers) - lost &&
    forall id :: id in points ==> points[id] == At(c, drivers[id].position)
  }

  /** An idle driver taking an order leaves the index and is no longer lost. */
  lemma IndexTake(points: map<DriverID, Point>, c: City, drivers: Drivers, lost: set<DriverID>, id: DriverID, d: Driver)
    requires IndexShows(points, c, drivers, lost) && id in drivers && Busy(d)
    ensures IndexShows(points - {id}, c, drivers[id := d], lost - {id})
  {
    assert IdleDrivers(drivers[id := d]) == IdleDrivers(drivers) - {id};
  }

  /** A busy driver that stays busy does not concern the index. */
  lemma IndexBusy(points: map<DriverID, Point>, c: City, drivers: Drivers, lost: set<DriverID>, id: DriverID, d: Driver)
    requires IndexShows(points, c, drivers, lost) && id in drivers && Busy(drivers[id]) && Busy(d)
    ensures IndexShows(points, c, drivers[id := d], lost)
  {
    assert IdleDrivers(drivers[id := d]) == IdleDrivers(drivers);
  }

  /** A driver that delivered re-enters the index where it stands. */
  lemma IndexFree(points: map<DriverID, Point>, c: City, drivers: Drivers, lost: set<DriverID>, id: DriverID, d: Driver)
    requires IndexShows(points, c, drivers, lost) && id in drivers && Busy(drivers[id]) && d.status.Idle?
    ensures IndexShows(points[id := At(c, d.position)], c, drivers[id := d], lost)
  {
    assert IdleDrivers(drivers[id := d]) == IdleDrivers(drivers) + {id};
  }

  /** A stranded driver goes idle without re-entering the index. */
  lemma IndexStrand(points: map<DriverID, Point>, c: City, drivers: Drivers, lost: set<DriverID>, id: DriverID,
                    d: Driver)
    requires IndexShows(points, c, drivers, lost) && id in drivers && Busy(drivers[id]) && d.status.Idle?
    ensures IndexShows(points, c, drivers[id := d], lost + {id})
  {
    assert IdleDrivers(drivers[id := d]) == IdleDrivers(drivers) + {id};
  }

  lemma IndexCity(points: map<DriverID, Point>, c: City, c': City, drivers: Drivers, lost: set<DriverID>)
    requires IndexShows(points, c, drivers, lost) && c'.nodes == c.nodes
    ensures IndexShows(points, c', drivers, lost)
  {
  }

  // ---------------------------------------------------------------------------------------------
  // Clocks
  // ---------------------------------------------------------------------------------------------

  /** Time passes in whole steps. */
  ghost predicate Whole(time: real) { time == time.Floor as real }

  /** Orders were placed, and drivers went idle, between time zero and now; nobody drives backwards. */
  ghost predicate ClockOk(orders: Orders, drivers: Drivers, now: real)
  {
    now >= 0.0 && Whole(now) && (forall o :: o in orders ==> 0.0 <= orders[o].createdAt <= now) &&
    (forall d :: d in drivers ==> 0.0 <= drivers[d].idleSince <= now && drivers[d].routeProgress >= 0.0)
  }

  // ---------------------------------------------------------------------------------------------
  // Batch costs stay small
  // ---------------------------------------------------------------------------------------------

  ghost predicate WeightsBelow(c: City, longest: real)
  {
    longest >= 0.0 && forall n, k :: n in c.edges && 0 <= k < |c.edges[n]| ==> 0.0 <= c.edges[n][k].weight <= longest
  }

  ghost function Many(n: nat, x: real): real { n as real * x }

  lemma ManyStep(n: nat, x: real)
    ensures Many(n + 1, x) == Many(n, x) + x && Many(0, x) == 0.0
  {
  }

  lemma WeightWithin(c: City, n: NodeID, e: Edge, longest: real)
    requires e in Out(c, n) && WeightsBelow(c, longest)
    ensures 0.0 <= e.weight <= longest
  {
    var i :| 0 <= i < |Out(c, n)| && Out(c, n)[i] == e;
  }

  lemma {:induction false} PrefixWithin(c: City, a: NodeID, es: seq<Edge>, b: NodeID, longest: real, k: nat)
    requires IsWalk(c, a, es, b) && WeightsBelow(c, longest) && k <= |es|
    ensures 0.0 <= Length(es[..k]) <= Many(k, longest)
  {
    hide WeightsBelow, Many;
    if k == 0 {
      ManyStep(0, longest);
    } else {
      PrefixWithin(c, a, es, b, longest, k - 1);
      LengthStep(es, k - 1);
      WeightWithin(c, NodeAt(a, es, k - 1), es[k - 1], longest);
      ManyStep(k - 1, longest);
    }
  }

  lemma LengthWithin(c: City, a: NodeID, es: seq<Edge>, b: NodeID, longest: real)
    requires IsWalk(c, a, es, b) && WeightsBelow(c, longest)
    ensures 0.0 <= Length(es) <= Many(|es|, longest)
  {
    PrefixWithin(c, a, es, b, longest, |es|);
    assert es[..|es|] == es;
  }

  lemma {:induction false} DistinctWithin(s: seq<NodeID>, all: set<NodeID>)
    requires Distinct(s) && forall k :: 0 <= k < |s| ==> s[k] in all
    ensures |s| <= |all|
    decreases |s|
  {
    if s != [] {
      var k := |s| - 1;
      DistinctWithin(s[..k], all - {s[k]});
    }
  }

  lemma WalkNodesKnown(c: City, a: NodeID, es: seq<Edge>, b: NodeID, k: nat)
    requires WellFormed(c) && IsWalk(c, a, es, b) && es != [] && k <= |es|
    ensures NodeAt(a, es, k) in c.nodes
  {
    if k == 0 {
      WalkEdge(c, a, es, b, 0);
    } else {
      WalkEdge(c, a, es, b, k - 1);
    }
  }

  /** A best route is no longer than the number of nodes times the longest road. */
  lemma RouteWithin(c: City, a: NodeID, b: NodeID, r: Route, longest: real)
    requires WellFormed(c) && WeightsBelow(c, longest) && IsBestRoute(c, a, b, r)
    ensures 0.0 <= r.distance <= Many(|c.nodes|, longest)
  {
    var es: seq<Edge> :| IsWalk(c, a, es, b) && r.nodes == NodesOf(a, es) && r.distance == Length(es);
    LengthWithin(c, a, es, b, longest);
    if es != [] {
      forall k | 0 <= k < |r.nodes|
        ensures r.nodes[k] in c.nodes.Keys
      {
        WalkNodesKnown(c, a, es, b, k);
      }
      DistinctWithin(r.nodes, c.nodes.Keys);
      assert |c.nodes.Keys| == |c.nodes|;
      ManyMonotone(|es|, |c.nodes|, longest);
    } else {
      ManyMonotone(0, |c.nodes|, longest);
    }
  }

  lemma ManyMonotone(m: nat, n: nat, x: real)
    requires m <= n && x >= 0.0
    ensures Many(m, x) <= Many(n, x)
  {
    var d := n as real - m as real;
    assert d * x >= 0.0;
    assert n as real * x == m as real * x + d * x;
  }

  ghost function Abs(x: real): real { if x < 0.0 then -x else x }

  /** The most a pair can cost, or save, by time now. */
  ghost function MaxCost(c: City, w: Weights, longest: real, now: real): real
  {
    Abs(w.pickupDistance) * Many(|c.nodes|, longest) + Abs(w.waitTime) * now + Abs(w.driverIdleTime) * now
  }

  lemma ProductWithin(w: real, x: real, top: real)
    requires 0.0 <= x <= top
    ensures -(Abs(w) * top) <= w * x <= Abs(w) * top
  {
    assert Abs(w) * (top - x) >= 0.0;
    assert Abs(w) * x >= 0.0;
    assert Abs(w) * (top - x) == Abs(w) * top - Abs(w) * x;
  }

  lemma PairCostWithin(c: City, w: Weights, longest: real, distance: real, createdAt: real, idleSince: real, now: real)
    requires 0.0 <= distance <= Many(|c.nodes|, longest) && 0.0 <= createdAt <= now && 0.0 <= idleSince <= now
    ensures -MaxCost(c, w, longest, now) <= PairCost(w, distance, createdAt, idleSince, now)
    ensures PairCost(w, distance, createdAt, idleSince, now) <= MaxCost(c, w, longest, now)
  {
    ProductWithin(w.pickupDistance, distance, Many(|c.nodes|, longest));
    ProductWithin(w.waitTime, now - createdAt, now);
    ProductWithin(w.driverIdleTime, now - idleSince, now);
  }

  /** Costs can only grow with time. */
  lemma MaxCostGrows(c: City, c': City, w: Weights, longest: real, now: real, later: real)
    requires c'.nodes == c.nodes && now <= later
    ensures MaxCost(c', w, longest, now) <= MaxCost(c, w, longest, later)
  {
    var d := later - now;
    assert Abs(w.waitTime) * d >= 0.0 && Abs(w.driverIdleTime) * d >= 0.0;
    assert Abs(w.waitTime) * later == Abs(w.waitTime) * now + Abs(w.waitTime) * d;
    assert Abs(w.driverIdleTime) * later == Abs(w.driverIdleTime) * now + Abs(w.driverIdleTime) * d;
  }

  lemma MaxCostNonNegative(c: City, w: Weights, longest: real, now: real)
    requires longest >= 0.0 && now >= 0.0
    ensures MaxCost(c, w, longest, now) >= 0.0
  {
    ProductWithin(w.pickupDistance, 0.0, Many(|c.nodes|, longest)) by { ManyMonotone(0, |c.nodes|, longest); }
    ProductWithin(w.waitTime, 0.0, now);
    ProductWithin(w.driverIdleTime, 0.0, now);
  }

  /** Every cost of a batch lies within MaxCost, hence far below the solver's infinity. */
  lemma BatchWithin(b: Batch, longest: real)
    requires BatchOk(b) && WeightsBelow(b.city, longest) && ClockOk(b.orders, b.drivers, b.now)
    requires MaxCost(b.city, b.weights, longest, b.now) < INF / 4.0
    ensures MaxCost(b.city, b.weights, longest, b.now) >= 0.0
    ensures CostsWithin(b, MaxCost(b.city, b.weights, longest, b.now)) && Representable(b)
  {
    var bound := MaxCost(b.city, b.weights, longest, b.now);
    MaxCostNonNegative(b.city, b.weights, longest, b.now);
    forall i, d, r | 0 <= i < |b.ids| && d in b.drivers && BestLeg(b, i, d, r)
      ensures -bound <= CostOf(b, i, d, r.distance) <= bound
    {
      RouteWithin(b.city, b.drivers[d].position, b.orders[b.ids[i]].pickup, r, longest);
      PairCostWithin(b.city, b.weights, longest, r.distance, b.orders[b.ids[i]].createdAt, b.drivers[d].idleSince,
                     b.now);
    }
    assert UNREACHABLE < INF / 4.0;
  }

  // ---------------------------------------------------------------------------------------------
  // Counting what a closure sets off
  // ---------------------------------------------------------------------------------------------

  datatype Tally = Tally(invalidated: nat, computed: nat, unassignable: nat)

  function Counted(p: Payload): Tally
  {
    Tally(if p.RouteInvalidated? then 1 else 0,
          if p.RouteComputed? then 1 else 0,
          if p.OrderUnassignable? then 1 else 0)
  }

  function Plus(a: Tally, b: Tally): Tally
  {
    Tally(a.invalidated + b.invalidated, a.computed + b.computed, a.unassignable + b.unassignable)
  }

  /** How many routes these events invalidate and compute, and how many orders they give up. */
  function TallyOf(payloads: seq<Payload>): Tally
  {
    if payloads == [] then Tally(0, 0, 0)
    else Plus(TallyOf(payloads[..|payloads| - 1]), Counted(payloads[|payloads| - 1]))
  }

  lemma {:induction false} TallySplit(a: seq<Payload>, b: seq<Payload>)
    ensures TallyOf(a + b) == Plus(TallyOf(a), TallyOf(b))
    decreases |b|
  {
    hide Counted, TallyOf;
    if b == [] {
      assert a + b == a;
      TallyNone(b);
    } else {
      var n, w := |b| - 1, a + b;
      TallySplit(a, b[..n]);
      assert w[..|w| - 1] == a + b[..n] && w[|w| - 1] == b[n];
      TallyLast(w);
      TallyLast(b);
    }
  }

  lemma TallyNone(b: seq<Payload>)
    requires b == []
    ensures TallyOf(b) == Tally(0, 0, 0)
  {
  }

  lemma TallyLast(b: seq<Payload>)
    requires b != []
    ensures TallyOf(b) == Plus(TallyOf(b[..|b| - 1]), Counted(b[|b| - 1]))
  {
    hide Counted;
  }

  lemma TallyOne(p: Payload)
    ensures TallyOf([p]) == Counted(p)
  {
    hide TallyOf, Counted;
    var none: seq<Payload> := [];
    TallyNone(none);
    assert [p][..0] == none;
    TallyLast([p]);
  }

  lemma TallyTwo(p: Payload, q: Payload)
    ensures TallyOf([p, q]) == Plus(Counted(p), Counted(q))
  {
    hide TallyOf, Counted;
    TallyOne(p);
    TallyOne(q);
    assert [p, q] == [p] + [q];
    TallySplit([p], [q]);
  }

  lemma KindCounts(p: Payload)
    ensures p.RouteInvalidated? ==> Counted(p) == Tally(1, 0, 0)
    ensures p.RouteComputed? ==> Counted(p) == Tally(0, 1, 0)
    ensures p.OrderUnassignable? ==> Counted(p) == Tally(0, 0, 1)
    ensures p.StatusChanged? || p.RoadClosed? ==> Counted(p) == Tally(0, 0, 0)
  {
  }

  lemma TwoCounts(p: Payload, q: Payload)
    requires p.RouteInvalidated? && q.RouteComputed?
    ensures TallyOf([p, q]) == Tally(1, 1, 0)
  {
    hide TallyOf, Counted;
    TallyTwo(p, q);
    KindCounts(p);
    KindCounts(q);
  }

  lemma ThreeCounts(p: Payload, q: Payload, r: Payload)
    requires p.RouteInvalidated? && q.OrderUnassignable? && r.StatusChanged?
    ensures TallyOf([p, q, r]) == Tally(1, 0, 1)
  {
    hide TallyOf, Counted;
    var start, end := [p, q], [r];
    assert start + end == [p, q, r];
    TallySplit(start, end);
    TallyTwo(p, q);
    TallyOne(r);
    KindCounts(p);
    KindCounts(q);
    KindCounts(r);
  }
}
