/** Rebuilding past states from stored snapshots and events (internal/replay/state.go lines 67-321,
    internal/replay/reader.go lines 95-145, apps/web/src/replayState.ts lines 158-172). */
module Reader {
  import opened Roads
  import opened Domain
  import opened Events
  import opened Store
  import Replay
  import WebReplay

  // ---------------------------------------------------------------------------------------------
  // The state builder
  // ---------------------------------------------------------------------------------------------

  class StateBuilder {
    var sequence: nat
    var virtualTime: real
    var edges: map<EdgeID, REdge>
    var drivers: map<DriverID, RDriver>
    var orders: map<OrderID, ROrder>
    var paused: bool
    var speed: real

    function Frame(): Replay.Frame
      reads this
    {
      Replay.Frame(sequence, virtualTime, edges, drivers, orders, paused, speed)
    }

    /** newStateBuilder and the base snapshot (state.go lines 89-111). */
    constructor (base: Option<Saved>)
      ensures Frame() == Start(base)
    {
      if base.Some? {
        var f := base.value.frame;
        sequence, virtualTime, edges := base.value.sequence, f.time, f.edges;
        drivers, orders, paused, speed := f.drivers, f.orders, f.paused, f.speed;
      } else {
        sequence, virtualTime, edges, drivers, orders, paused, speed := 0, 0.0, map[], map[], map[], false, 1.0;
      }
    }

    /** applySnapshot (state.go lines 127-157). */
    method ApplySnapshot(p: Payload)
      requires p.Snapshot?
      modifies this
      ensures Frame() == Replay.Frame(old(sequence), old(virtualTime), p.edges, p.drivers, p.orders, p.paused,
                                      if p.speed == 0.0 then 1.0 else p.speed)
    {
      edges, drivers, orders, paused, speed := p.edges, p.drivers, p.orders, p.paused, p.speed;
      if speed == 0.0 {
        speed := 1.0;
      }
    }

    method UpdateDriver(id: DriverID, d: RDriver)
      modifies `drivers
      ensures drivers == old(drivers)[id := d]
    {
      drivers := drivers[id := d];
    }

    method UpdateOrder(id: OrderID, o: ROrder)
      modifies `orders
      ensures orders == old(orders)[id := o]
    {
      orders := orders[id := o];
    }

    /** driver and order (lines 303-321): a record not seen before starts out empty. */
    function DriverIn(id: DriverID): RDriver
      reads this
    {
      if id in drivers then drivers[id] else RDriver(None, None, [], 0, None)
    }

    function OrderIn(id: OrderID): ROrder
      reads this
    {
      if id in orders then orders[id] else ROrder(None, None, None, None, 0.0)
    }

    /** Lines 230-251: going idle drops route and order, starting a delivery moves the order on. */
    method ChangeStatus(id: DriverID, status: DriverStatus)
      modifies `drivers, `orders
      ensures Frame() == Replay.Apply(old(Frame()), Event(sequence, virtualTime, StatusChanged(id, status), None))
    {
      var d := DriverIn(id).(status := Some(status));
      if status.Idle? {
        d := d.(route := [], routeIndex := 0, assignedOrder := None);
      }
      UpdateDriver(id, d);
      if status.Delivering? && d.assignedOrder.Some? {
        UpdateOrder(d.assignedOrder.value, OrderIn(d.assignedOrder.value).(status := Some(EnRoute)));
      }
    }

    /** Lines 216-230: the route index follows by one node at most. */
    method Move(id: DriverID, node: NodeID)
      modifies `drivers
      ensures drivers == old(drivers)[id := Replay.Moved(old(DriverIn(id)), node)]
    {
      var d := DriverIn(id).(position := Some(node));
      if d.routeIndex + 1 < |d.route| && d.route[d.routeIndex + 1] == node {
        d := d.(routeIndex := d.routeIndex + 1);
      }
      UpdateDriver(id, d);
    }

    /** apply (lines 163-301). */
    method Apply(e: Event)
      modifies this
      ensures Frame() == Replay.Apply(old(Frame()), e)
    {
      sequence, virtualTime := e.sequence, e.time;
      match e.payload
      case Snapshot(_, _, _, _, _) => ApplySnapshot(e.payload);
      case OrderPlaced(o, pickup, destination) =>
        UpdateOrder(o, OrderIn(o).(pickup := Some(pickup), destination := Some(destination), status := Some(Pending),
                                   createdAt := e.time));
      case OrderAssigned(o, d, _, _) =>
        UpdateOrder(o, OrderIn(o).(status := Some(Assigned), assignedDriver := Some(d)));
        UpdateDriver(d, DriverIn(d).(assignedOrder := Some(o)));
      case OrderUnassignable(o) => UpdateOrder(o, OrderIn(o).(status := Some(Unassignable)));
      case OrderDelivered(o, _) => UpdateOrder(o, OrderIn(o).(status := Some(Delivered)));
      case PositionUpdated(d, node, _, _) => Move(d, node);
      case StatusChanged(d, status) => ChangeStatus(d, status);
      case RouteComputed(d, nodes, _) => UpdateDriver(d, DriverIn(d).(route := nodes, routeIndex := 0));
      case RouteInvalidated(_, _) =>
      case RoadClosed(ids, _) => edges := Replay.MarkEdges(edges, ids, true);
      case RoadReopened(ids) => edges := Replay.MarkEdges(edges, ids, false);
      case PausedSet(on) => paused := on;
      case SpeedSet(multiplier) => speed := multiplier;
    }
  }

  /** Where folding begins: the snapshot's frame, or nothing. */
  function Start(base: Option<Saved>): Replay.Frame
  {
    if base.Some? then base.value.frame.(sequence := base.value.sequence) else Replay.EmptyFrame()
  }

  function Above(base: Option<Saved>): nat
  {
    if base.Some? then base.value.sequence else 0
  }

  /** The events above lo, up to hi if hi is positive. */
  function Span(log: seq<Event>, lo: int, hi: int): seq<Event>
  {
    if log == [] then []
    else
      var e := log[|log| - 1];
      Span(log[..|log| - 1], lo, hi) + if e.sequence > lo && (hi > 0 ==> e.sequence <= hi) then [e] else []
  }

  /** StateAt over events in order (state.go lines 102-125); without a snapshot nothing is skipped. */
  method StateAt(base: Option<Saved>, events: seq<Event>, target: int) returns (f: Replay.Frame)
    requires Ascending(events)
    ensures f == Replay.Fold(Start(base), Span(events, if base.Some? then base.value.sequence else -1, target))
  {
    hide Replay.Fold, Replay.Apply, Start;
    var b := new StateBuilder(base);
    ghost var lo := if base.Some? then base.value.sequence else -1;
    FoldNothing(Start(base));
    for k := 0 to |events|
      invariant b.Frame() == Replay.Fold(Start(base), Span(events[..k], lo, target))
    {
      var e := events[k];
      assert events[..k + 1][..k] == events[..k];
      if target > 0 && e.sequence > target {
        SpanBeyond(events, lo, target, k);
        break;
      }
      if base.Some? && e.sequence <= base.value.sequence {
        assert Span(events[..k + 1], lo, target) == Span(events[..k], lo, target);
        continue;
      }
      Replay.FoldStep(Start(base), Span(events[..k], lo, target), e);
      b.Apply(e);
    }
    assert events[..|events|] == events;
    f := b.Frame();
  }

  lemma FoldNothing(f: Replay.Frame)
    ensures Replay.Fold(f, []) == f
  {
  }

  /** Past the first event beyond the target there are only more of them. */
  lemma {:induction false} SpanBeyond(log: seq<Event>, lo: int, hi: int, k: nat)
    requires Ascending(log) && hi > 0 && k < |log| && log[k].sequence > hi
    ensures Span(log, lo, hi) == Span(log[..k], lo, hi)
    decreases |log|
  {
    if k < |log| - 1 {
      SpanBeyond(log[..|log| - 1], lo, hi, k);
      assert log[..|log| - 1][..k] == log[..k];
    }
  }

  // ---------------------------------------------------------------------------------------------
  // Reading page by page
  // ---------------------------------------------------------------------------------------------

  /** The k-th event is the first one above lo. */
  ghost predicate Splits(log: seq<Event>, lo: int, k: nat)
  {
    k <= |log| && (forall i :: 0 <= i < k ==> log[i].sequence <= lo) &&
    forall i :: k <= i < |log| ==> log[i].sequence > lo
  }

  /** The pages read so far are the log from a to b, and the next page starts above `from`. */
  ghost predicate ReadUpTo(log: seq<Event>, base: nat, from: nat, events: seq<Event>, a: nat, b: nat)
  {
    a <= b <= |log| && events == log[a..b] && Splits(log, base, a) && Splits(log, from, b) && base <= from
  }

  lemma NextPage(log: seq<Event>, base: nat, from: nat, events: seq<Event>, a: nat, b: nat, limit: int,
                 page: seq<Event>)
    requires Ascending(log) && ReadUpTo(log, base, from, events, a, b) && IsPage(log, from, limit, page) && limit > 0
    ensures b + |page| <= |log| && (page == [] ==> b == |log|)
    ensures page != [] ==> ReadUpTo(log, base, page[|page| - 1].sequence, events + page, a, b + |page|)
  {
    var k: nat :| IsPageAt(log, from, limit, page, k);
    var atK := if k < |log| then log[k].sequence else 0;
    var atB := if b < |log| then log[b].sequence else 0;
    if page != [] {
      assert page[|page| - 1] == log[b + |page| - 1];
      assert events + page == log[a..b + |page|];
    }
  }

  lemma {:induction false} SpanOfSlice(log: seq<Event>, lo: int, hi: int, a: nat)
    requires Ascending(log) && Splits(log, lo, a)
    ensures Span(log[a..], lo, hi) == Span(log, lo, hi)
    decreases |log|
  {
    if |log| > a {
      var shorter := log[..|log| - 1];
      SpanOfSlice(shorter, lo, hi, a);
      assert log[a..][..|log[a..]| - 1] == shorter[a..];
    } else {
      SpanNothing(log, lo, hi);
    }
  }

  lemma {:induction false} SpanNothing(log: seq<Event>, lo: int, hi: int)
    requires forall i :: 0 <= i < |log| ==> log[i].sequence <= lo
    ensures Span(log, lo, hi) == []
  {
    if log != [] { SpanNothing(log[..|log| - 1], lo, hi); }
  }

  /** Reading can stop at the target: what lies beyond it is not considered. */
  lemma {:induction false} SpanStops(log: seq<Event>, lo: int, hi: int, b: nat)
    requires Ascending(log) && hi > 0 && b <= |log| && forall i :: b <= i < |log| ==> log[i].sequence > hi
    ensures Span(log[..b], lo, hi) == Span(log, lo, hi)
  {
    if b < |log| { SpanBeyond(log, lo, hi, b); } else { assert log[..b] == log; }
  }

  lemma SliceAscending(log: seq<Event>, a: nat, b: nat)
    requires Ascending(log) && a <= b <= |log|
    ensures Ascending(log[a..b])
  {
  }

  /** The events read are all that matter to the target. */
  lemma EnoughRead(log: seq<Event>, base: nat, from: nat, events: seq<Event>, a: nat, b: nat, target: int)
    requires Ascending(log) && ReadUpTo(log, base, from, events, a, b)
    requires b == |log| || (target > 0 && from >= target)
    ensures Ascending(events) && Span(events, base, target) == Span(log, base, target)
  {
    SliceAscending(log, a, b);
    SliceAscending(log, 0, b);
    assert log[0..b] == log[..b];
    assert log[..b][a..] == log[a..b];
    SpanOfSlice(log[..b], base, target, a);
    if b < |log| { SpanStops(log, base, target, b); } else { assert log[..b] == log; }
  }

  /** Numbers start at 1, so a fold from nothing skips nothing. */
  lemma {:induction false} SpanFromOne(log: seq<Event>, hi: int)
    requires forall i :: 0 <= i < |log| ==> log[i].sequence > 0
    ensures Span(log, -1, hi) == Span(log, 0, hi)
  {
    if log != [] { SpanFromOne(log[..|log| - 1], hi); }
  }

  /** Reader.StateAt (reader.go lines 99-145). `known` says whether the run has a metadata row; pages
      hold up to pageSize events. */
  method StateOf(mem: Memory, sim: string, known: bool, sequence: int, pageSize: nat)
    returns (state: Option<Replay.Frame>)
    requires mem.Valid() && pageSize > 0
    requires forall e :: e in LogOf(mem.events, sim) ==> e.sequence > 0
    ensures state.None? <==> !known && LogOf(mem.events, sim) == []
    ensures state.Some? ==>
      exists base, target ::
        Asked(LogOf(mem.events, sim), sequence, target) && Newest(SavedOf(mem.snapshots, sim), target, base) &&
        state.value == Replay.Fold(Start(base), Span(LogOf(mem.events, sim), Above(base), target))
  {
    ghost var log := LogOf(mem.events, sim);
    assert Ascending(log);
    var latest := mem.LatestSequence(sim);
    LatestIs(log, latest);
    if !known && latest == 0 {
      return None;
    }
    var target := if sequence <= 0 then latest else sequence;
    var base := mem.SnapshotAtOrBefore(sim, target);
    var events := FetchFrom(mem, sim, Above(base), target, pageSize);
    if base.None? {
      AllNumbered(events, log);
      SpanFromOne(events, target);
    }
    var f := StateAt(base, events, target);
    state := Some(f);
    assert Asked(log, sequence, target);
  }

  /** What sequence number a request means: its own, or the latest for one that is not positive. */
  ghost predicate Asked(log: seq<Event>, sequence: int, target: int)
  {
    if sequence > 0 then target == sequence
    else target >= 0 && (forall e :: e in log ==> e.sequence <= target) && (log == [] ==> target == 0) &&
         (log != [] ==> target in Sequences(log))
  }

  lemma LatestIs(log: seq<Event>, latest: nat)
    requires forall e :: e in log ==> e.sequence > 0
    requires log == [] ==> latest == 0
    requires log != [] ==> latest in Sequences(log)
    ensures latest == 0 <==> log == []
  {
  }

  lemma AllNumbered(events: seq<Event>, log: seq<Event>)
    requires (forall e :: e in log ==> e.sequence > 0) && forall e :: e in events ==> e in log
    ensures forall i :: 0 <= i < |events| ==> events[i].sequence > 0
  {
  }

  /** The paging loop (lines 128-142). */
  method FetchFrom(mem: Memory, sim: string, base: nat, target: int, pageSize: nat) returns (events: seq<Event>)
    requires mem.Valid() && pageSize > 0
    requires target > 0 || LogOf(mem.events, sim) == []
    ensures Ascending(events) && Span(events, base, target) == Span(LogOf(mem.events, sim), base, target)
    ensures forall e :: e in events ==> e in LogOf(mem.events, sim)
  {
    hide ReadUpTo, Span, IsPage, Splits;
    ghost var log := LogOf(mem.events, sim);
    assert Ascending(log);
    var from: nat := base;
    events := [];
    ghost var a := FirstAbove(log, base);
    ghost var b: nat := a;
    NothingRead(log, base, a);
    while true
      invariant ReadUpTo(log, base, from, events, a, b)
      decreases |log| - b
    {
      var page := mem.Events(sim, from, pageSize);
      NextPage(log, base, from, events, a, b, pageSize, page);
      if |page| == 0 {
        break;
      }
      events := events + page;
      from := page[|page| - 1].sequence;
      b := b + |page|;
      if from >= target {
        break;
      }
    }
    EnoughRead(log, base, from, events, a, b, target);
    ReadFromLog(log, base, from, events, a, b);
  }

  lemma NothingRead(log: seq<Event>, base: nat, a: nat)
    requires Splits(log, base, a)
    ensures ReadUpTo(log, base, base, [], a, a)
  {
  }

  lemma ReadFromLog(log: seq<Event>, base: nat, from: nat, events: seq<Event>, a: nat, b: nat)
    requires ReadUpTo(log, base, from, events, a, b)
    ensures forall e :: e in events ==> e in log
  {
  }

  lemma FirstAbove(log: seq<Event>, lo: nat) returns (k: nat)
    requires Ascending(log)
    ensures Splits(log, lo, k)
  {
    k := 0;
    while k < |log| && log[k].sequence <= lo
      invariant k <= |log| && forall i :: 0 <= i < k ==> log[i].sequence <= lo
    {
      k := k + 1;
    }
  }

  // ---------------------------------------------------------------------------------------------
  // What a rebuilt state is
  // ---------------------------------------------------------------------------------------------

  /** The stored log holds nothing else, and everything up to number n. */
  ghost predicate HoldsUpTo(full: seq<Event>, log: seq<Event>, n: nat)
  {
    Ascending(log) && (forall e :: e in log ==> 1 <= e.sequence <= |full| && full[e.sequence - 1] == e) &&
    forall k :: 0 <= k < |full| && k < n ==> full[k] in log
  }

  /** The snapshot agrees with the fold of the log up to its own number, but for the route indices of the
      drivers in `off` and, if `late`, the time. */
  ghost predicate IsFoldBut(full: seq<Event>, s: Saved, off: set<DriverID>, late: bool)
  {
    s.sequence <= |full| &&
    Replay.Agree(Start(Some(s)), Replay.Fold(Replay.EmptyFrame(), full[..s.sequence]), off, late)
  }

  /** What is saved of a snapshot event that agrees with the whole log so far is such a snapshot. */
  lemma SavedIsFoldBut(full: seq<Event>, f: Replay.Frame, e: Event, off: set<DriverID>, late: bool)
    requires e.payload.Snapshot? && e.sequence == |full|
    requires Replay.Agree(Replay.Apply(f, e), Replay.Fold(Replay.EmptyFrame(), full), off, late)
    ensures IsFoldBut(full, Saved(e.sequence, Replay.Apply(f, e)), off, late)
  {
    hide Replay.Fold, Replay.Agree;
    assert full[..e.sequence] == full;
  }

  lemma {:induction false} SpanMembers(log: seq<Event>, lo: int, hi: int)
    requires Ascending(log) && hi > 0
    ensures Ascending(Span(log, lo, hi))
    ensures forall e :: e in Span(log, lo, hi) <==> e in log && lo < e.sequence <= hi
  {
    if log != [] {
      var shorter, e := log[..|log| - 1], log[|log| - 1];
      SpanMembers(shorter, lo, hi);
      assert log == shorter + [e];
      forall i | 0 <= i < |Span(shorter, lo, hi)|
        ensures Span(shorter, lo, hi)[i].sequence < e.sequence
      {
        assert Span(shorter, lo, hi)[i] in shorter;
      }
    }
  }

  ghost predicate NumberedWithin(full: seq<Event>, lo: nat, m: nat, e: Event)
    requires m <= |full|
  {
    lo < e.sequence <= m && full[e.sequence - 1] == e
  }

  lemma SliceMember(full: seq<Event>, lo: nat, m: nat, e: Event)
    requires Numbered(full) && lo <= m <= |full|
    ensures e in full[lo..m] <==> NumberedWithin(full, lo, m, e)
  {
    var slice := full[lo..m];
    if e in slice {
      var i :| 0 <= i < |slice| && slice[i] == e;
      assert full[lo + i] == e;
    }
    if NumberedWithin(full, lo, m, e) {
      assert slice[e.sequence - 1 - lo] == e;
    }
  }

  lemma SliceInOrder(full: seq<Event>, lo: nat, m: nat)
    requires Numbered(full) && lo <= m <= |full|
    ensures Ascending(full[lo..m])
  {
  }

  lemma Considered(full: seq<Event>, log: seq<Event>, lo: nat, hi: nat, m: nat, e: Event)
    requires Numbered(full) && HoldsUpTo(full, log, hi) && m == if hi <= |full| then hi else |full|
    ensures e in log && lo < e.sequence <= hi <==> NumberedWithin(full, lo, m, e)
  {
    if NumberedWithin(full, lo, m, e) {
      assert full[e.sequence - 1] in log;
    }
  }

  /** Up to the target, the considered part of a complete stored log is that of the emitted one. */
  lemma SpanIsSlice(full: seq<Event>, log: seq<Event>, lo: nat, hi: nat)
    requires Numbered(full) && HoldsUpTo(full, log, hi) && lo <= hi && hi > 0 && lo <= |full|
    ensures Span(log, lo, hi) == full[lo..if hi <= |full| then hi else |full|]
  {
    var m := if hi <= |full| then hi else |full|;
    var span, slice := Span(log, lo, hi), full[lo..m];
    hide Span, Numbered, Ascending, NumberedWithin;
    SpanMembers(log, lo, hi);
    SliceInOrder(full, lo, m);
    forall e
      ensures e in span <==> e in slice
    {
      SliceMember(full, lo, m, e);
      Considered(full, log, lo, hi, m, e);
    }
    SameLog(span, slice);
  }

  /** Whatever snapshot reading starts from, and however the events are paged, the state rebuilt at a
      target agrees with the fold of the whole emitted log up to it: the drivers the snapshot had out of
      step are, until they get a new route or go idle, and the time is right from the next event on. */
  lemma RebuiltIsFold(full: seq<Event>, log: seq<Event>, base: Option<Saved>, target: nat, off: set<DriverID>,
                      late: bool)
    requires Numbered(full) && target > 0 && HoldsUpTo(full, log, target)
    requires if base.Some? then base.value.sequence <= target && IsFoldBut(full, base.value, off, late)
             else off == {} && !late
    ensures var m := if target <= |full| then target else |full|;
      Above(base) <= m &&
      Replay.Agree(Replay.Fold(Start(base), Span(log, Above(base), target)),
                   Replay.Fold(Replay.EmptyFrame(), full[..m]), Replay.MendedBy(off, full[Above(base)..m]),
                   late && Above(base) == m)
  {
    hide Replay.Fold, Span, Replay.Agree, Replay.MendedBy;
    var m := if target <= |full| then target else |full|;
    SpanIsSlice(full, log, Above(base), target);
    Replay.FoldSplit(Replay.EmptyFrame(), full[..Above(base)], full[Above(base)..m]);
    assert full[..Above(base)] + full[Above(base)..m] == full[..m];
    FoldNothing(Replay.EmptyFrame());
    if base.None? {
      assert full[..0] == [];
      SameAgrees(Replay.EmptyFrame());
    }
    Replay.FoldAgrees(Start(base), Replay.Fold(Replay.EmptyFrame(), full[..Above(base)]), off, late,
                      full[Above(base)..m]);
  }

  lemma SameAgrees(f: Replay.Frame)
    ensures Replay.Agree(f, f, {}, false)
  {
  }

  /** ... so from a snapshot with every driver in step and the right time it is that fold. */
  lemma RebuiltExactly(full: seq<Event>, log: seq<Event>, base: Option<Saved>, target: nat)
    requires Numbered(full) && target > 0 && HoldsUpTo(full, log, target)
    requires base.Some? ==> base.value.sequence <= target && IsFoldBut(full, base.value, {}, false)
    ensures Replay.Fold(Start(base), Span(log, Above(base), target)) ==
      Replay.Fold(Replay.EmptyFrame(), full[..if target <= |full| then target else |full|])
  {
    hide Replay.Fold, Span, Replay.Agree, Replay.MendedBy;
    var m := if target <= |full| then target else |full|;
    RebuiltIsFold(full, log, base, target, {}, false);
    NoneToMend(full[Above(base)..m]);
    Replay.AgreeIsEqual(Replay.Fold(Start(base), Span(log, Above(base), target)),
                        Replay.Fold(Replay.EmptyFrame(), full[..m]));
  }

  lemma {:induction false} NoneToMend(log: seq<Event>)
    ensures Replay.MendedBy({}, log) == {}
  {
    if log != [] { NoneToMend(log[..|log| - 1]); }
  }

  // ---------------------------------------------------------------------------------------------
  // The browser's cached frames
  // ---------------------------------------------------------------------------------------------

  datatype Cached = Cached(frame: WebReplay.TFrame, index: nat)

  /** foldTo (replayState.ts lines 161-172): from a frame that is the fold of its own prefix, the result
      is the fold from nothing. */
  ghost method FoldTo(events: seq<Event>, count: nat, from: Option<Cached>) returns (frame: WebReplay.TFrame)
    requires from.Some? ==> from.value.index <= |events| &&
                            from.value.frame == WebReplay.Fold(WebReplay.EmptyFrame(), events[..from.value.index])
    ensures frame == WebReplay.Fold(WebReplay.EmptyFrame(), events[..if count <= |events| then count else |events|])
  {
    hide WebReplay.Fold, WebReplay.Apply;
    frame := WebReplay.EmptyFrame();
    var start := 0;
    WebFoldNothing();
    assert events[..0] == [];
    if from.Some? && from.value.index <= count {
      frame, start := from.value.frame, from.value.index;
    }
    var i := start;
    while i < count && i < |events|
      invariant start <= i && i <= |events| && (i <= count)
      invariant frame == WebReplay.Fold(WebReplay.EmptyFrame(), events[..i])
    {
      assert events[..i + 1] == events[..i] + [events[i]];
      WebReplay.FoldStep(WebReplay.EmptyFrame(), events[..i], events[i]);
      frame := WebReplay.Apply(frame, events[i]);
      i := i + 1;
    }
  }

  lemma WebFoldNothing()
    ensures WebReplay.Fold(WebReplay.EmptyFrame(), []) == WebReplay.EmptyFrame()
  {
  }
}
