/** The in-memory event store (internal/store/memory.go). */
module Store {
  import opened Roads
  import opened Events
  import Replay

  datatype Record = Record(simulation: string, event: Event)

  /** A stored snapshot: the frame it decodes to, at a sequence number. */
  datatype Saved = Saved(sequence: nat, frame: Replay.Frame)

  ghost predicate Ascending(log: seq<Event>)
  {
    forall i, j :: 0 <= i < j < |log| ==> log[i].sequence < log[j].sequence
  }

  /** No sequence number is taken twice. */
  ghost predicate Apart(log: seq<Event>)
  {
    forall i, j :: 0 <= i < j < |log| ==> log[i].sequence != log[j].sequence
  }

  function Sequences(log: seq<Event>): set<nat>
  {
    set i | 0 <= i < |log| :: log[i].sequence
  }

  function LogOf(events: map<string, seq<Event>>, sim: string): seq<Event>
  {
    if sim in events then events[sim] else []
  }

  function SeenOf(seen: map<string, set<nat>>, sim: string): set<nat>
  {
    if sim in seen then seen[sim] else {}
  }

  // ---------------------------------------------------------------------------------------------
  // Appending
  // ---------------------------------------------------------------------------------------------

  /** A log after a batch was offered to it: what was there stays, whatever is new was offered, and
      every sequence number offered is taken. */
  ghost predicate Takes(before: seq<Event>, after: seq<Event>, batch: seq<Record>, sim: string)
  {
    (forall e :: e in before ==> e in after) &&
    (forall e :: e in after ==> e in before || Record(sim, e) in batch) &&
    (forall r :: r in batch && r.simulation == sim ==> r.event.sequence in Sequences(after))
  }

  /** ... in order of sequence number. */
  ghost predicate Extends(before: seq<Event>, after: seq<Event>, batch: seq<Record>, sim: string)
  {
    Ascending(after) && Takes(before, after, batch, sim)
  }

  ghost predicate AllApart(events: map<string, seq<Event>>, seen: map<string, set<nat>>)
  {
    forall sim :: Apart(LogOf(events, sim)) && Sequences(LogOf(events, sim)) == SeenOf(seen, sim)
  }

  ghost predicate AllTake(before: map<string, seq<Event>>, after: map<string, seq<Event>>, batch: seq<Record>)
  {
    forall sim :: Takes(LogOf(before, sim), LogOf(after, sim), batch, sim)
  }

  ghost predicate AllExtend(before: map<string, seq<Event>>, after: map<string, seq<Event>>, batch: seq<Record>)
  {
    forall sim :: Extends(LogOf(before, sim), LogOf(after, sim), batch, sim)
  }

  lemma TakeNew(before: seq<Event>, log: seq<Event>, batch: seq<Record>, sim: string, e: Event)
    requires Takes(before, log, batch, sim) && Apart(log) && e.sequence !in Sequences(log)
    ensures Takes(before, log + [e], batch + [Record(sim, e)], sim) && Apart(log + [e])
    ensures Sequences(log + [e]) == Sequences(log) + {e.sequence}
  {
    var log' := log + [e];
    forall n | n in Sequences(log) + {e.sequence}
      ensures n in Sequences(log')
    {
      if n in Sequences(log) {
        var i :| 0 <= i < |log| && log[i].sequence == n;
        assert log'[i].sequence == n;
      } else {
        assert log'[|log|].sequence == n;
      }
    }
  }

  lemma TakeOther(before: seq<Event>, log: seq<Event>, batch: seq<Record>, sim: string, r: Record)
    requires Takes(before, log, batch, sim) && (r.simulation != sim || r.event.sequence in Sequences(log))
    ensures Takes(before, log, batch + [r], sim)
  {
  }

  lemma SameMembers(before: seq<Event>, log: seq<Event>, sorted: seq<Event>, batch: seq<Record>, sim: string)
    requires Takes(before, log, batch, sim) && forall e :: e in log <==> e in sorted
    ensures Takes(before, sorted, batch, sim) && Sequences(sorted) == Sequences(log)
  {
    forall n
      ensures n in Sequences(sorted) <==> n in Sequences(log)
    {
      if n in Sequences(log) {
        var i :| 0 <= i < |log| && log[i].sequence == n;
        assert log[i] in sorted;
      }
      if n in Sequences(sorted) {
        var i :| 0 <= i < |sorted| && sorted[i].sequence == n;
        assert sorted[i] in log;
      }
    }
  }

  lemma AscendingApart(log: seq<Event>)
    requires Ascending(log)
    ensures Apart(log)
  {
  }

  /** The contract of sort.Slice by sequence number, on a list without repeated numbers. */
  method SortBySequence(list: seq<Event>) returns (sorted: seq<Event>)
    requires Apart(list)
    ensures Ascending(sorted) && forall e :: e in list <==> e in sorted
  {
    sorted := [];
    for k := 0 to |list|
      invariant Ascending(sorted) && forall e :: e in list[..k] <==> e in sorted
    {
      var e := list[k];
      assert list[..k + 1] == list[..k] + [e];
      assert forall i :: 0 <= i < |sorted| ==> sorted[i] in sorted;
      var m := Find(sorted, e.sequence);
      sorted := InsertAt(sorted, m, e);
    }
    assert list[..|list|] == list;
  }

  method InsertAt(log: seq<Event>, m: nat, e: Event) returns (r: seq<Event>)
    requires Ascending(log) && m <= |log|
    requires forall i :: 0 <= i < m ==> log[i].sequence < e.sequence
    requires forall i :: m <= i < |log| ==> log[i].sequence > e.sequence
    ensures Ascending(r) && forall x :: x in r <==> x in log || x == e
  {
    r := log[..m] + [e] + log[m..];
    assert log == log[..m] + log[m..];
  }

  /** How many of an ascending log come before sequence number n. */
  method Find(log: seq<Event>, n: nat) returns (k: nat)
    requires Ascending(log)
    ensures k <= |log| && (forall i :: 0 <= i < k ==> log[i].sequence < n)
    ensures forall i :: k <= i < |log| ==> log[i].sequence >= n
  {
    k := 0;
    while k < |log| && log[k].sequence < n
      invariant k <= |log| && forall i :: 0 <= i < k ==> log[i].sequence < n
    {
      k := k + 1;
    }
  }

  // ---------------------------------------------------------------------------------------------
  // Retries
  // ---------------------------------------------------------------------------------------------

  lemma {:induction false} SameLog(a: seq<Event>, b: seq<Event>)
    requires Ascending(a) && Ascending(b) && forall e :: e in a <==> e in b
    ensures a == b
  {
    assert a != [] ==> a[0] in b;
    assert b != [] ==> b[0] in a;
    if a != [] && b != [] {
      var x, y := a[|a| - 1], b[|b| - 1];
      assert x in b && y in a;
      assert x == y;
      var a', b' := a[..|a| - 1], b[..|b| - 1];
      forall e
        ensures e in a' <==> e in b'
      {
        Shorter(a, e);
        Shorter(b, e);
      }
      SameLog(a', b');
    }
  }

  lemma Shorter(log: seq<Event>, e: Event)
    requires Ascending(log) && log != []
    ensures e in log[..|log| - 1] <==> e in log && e != log[|log| - 1]
  {
    var last := log[|log| - 1];
    assert log == log[..|log| - 1] + [last];
  }

  /** Offering events that are there already changes nothing. */
  lemma RetryChangesNothing(before: seq<Event>, after: seq<Event>, batch: seq<Record>, sim: string)
    requires Ascending(before) && Extends(before, after, batch, sim)
    requires forall r :: r in batch && r.simulation == sim ==> r.event.sequence in Sequences(before)
    ensures after == before
  {
    forall e | e in after
      ensures e in before
    {
      if Record(sim, e) in batch {
        assert Record(sim, e).event.sequence in Sequences(before);
        var i :| 0 <= i < |before| && before[i].sequence == e.sequence;
        assert before[i] in after;
      }
    }
    SameLog(before, after);
  }

  /** When only one event was ever emitted under each number, batches that overlap, repeat or come out
      of order leave just what was offered, in order, whichever way they were cut. */
  lemma OrderOfBatchesIsIrrelevant(log1: seq<Event>, log2: seq<Event>, batch1: seq<Record>, batch2: seq<Record>,
                                   sim: string, truth: map<nat, Event>)
    requires Extends([], log1, batch1, sim) && Extends([], log2, batch2, sim)
    requires forall r :: r in batch1 && r.simulation == sim ==>
      r.event.sequence in truth && truth[r.event.sequence] == r.event
    requires forall e :: Record(sim, e) in batch1 <==> Record(sim, e) in batch2
    ensures log1 == log2
  {
    forall e
      ensures e in log1 <==> Record(sim, e) in batch1
    {
      Offered(log1, batch1, sim, truth, e);
    }
    forall e
      ensures e in log2 <==> Record(sim, e) in batch2
    {
      Offered(log2, batch2, sim, truth, e);
    }
    SameLog(log1, log2);
  }

  lemma Offered(log: seq<Event>, batch: seq<Record>, sim: string, truth: map<nat, Event>, e: Event)
    requires Extends([], log, batch, sim)
    requires forall x :: Record(sim, x) in batch ==> x.sequence in truth && truth[x.sequence] == x
    ensures e in log <==> Record(sim, e) in batch
  {
    if Record(sim, e) in batch {
      assert Record(sim, e).event.sequence in Sequences(log);
      var i :| 0 <= i < |log| && log[i].sequence == e.sequence;
      assert log[i] in log;
    }
  }

  /** Two appends are one append of both batches. */
  lemma AppendTwice(a: seq<Event>, b: seq<Event>, c: seq<Event>, batch1: seq<Record>, batch2: seq<Record>, sim: string)
    requires Extends(a, b, batch1, sim) && Extends(b, c, batch2, sim)
    ensures Extends(a, c, batch1 + batch2, sim)
  {
    forall r | r in batch1 && r.simulation == sim
      ensures r.event.sequence in Sequences(c)
    {
      var i :| 0 <= i < |b| && b[i].sequence == r.event.sequence;
      assert b[i] in c;
      var j :| 0 <= j < |c| && c[j] == b[i];
    }
  }

  // ---------------------------------------------------------------------------------------------
  // The store
  // ---------------------------------------------------------------------------------------------

  /** The first events after a sequence number: all of them, or as many as a positive limit asks for. */
  ghost predicate IsPage(log: seq<Event>, from: int, limit: int, page: seq<Event>)
  {
    exists k :: IsPageAt(log, from, limit, page, k)
  }

  ghost predicate IsPageAt(log: seq<Event>, from: int, limit: int, page: seq<Event>, k: nat)
  {
    k + |page| <= |log| && page == log[k..k + |page|] && (forall i :: 0 <= i < k ==> log[i].sequence <= from) &&
    (forall i :: k <= i < |log| ==> log[i].sequence > from) &&
    (k + |page| == |log| || (limit > 0 && |page| == limit)) && (limit > 0 ==> |page| <= limit)
  }

  ghost predicate SavedAscending(list: seq<Saved>)
  {
    forall i, j :: 0 <= i < j < |list| ==> list[i].sequence < list[j].sequence
  }

  function SavedOf(snapshots: map<string, seq<Saved>>, sim: string): seq<Saved>
  {
    if sim in snapshots then snapshots[sim] else []
  }

  /** The snapshot with the greatest sequence number not above n. */
  ghost predicate Newest(list: seq<Saved>, n: int, best: Option<Saved>)
  {
    if best.Some? then
      best.value in list && best.value.sequence <= n &&
      forall s :: s in list && s.sequence <= n ==> s.sequence <= best.value.sequence
    else forall s :: s in list ==> s.sequence > n
  }

  /** Half-way through: the events from start to k are on the page, those before start are too old. */
  ghost predicate Paging(log: seq<Event>, from: int, start: nat, k: nat, page: seq<Event>)
  {
    start <= k <= |log| && page == log[start..k] && (forall i :: 0 <= i < start ==> log[i].sequence <= from) &&
    forall i :: start <= i < k ==> log[i].sequence > from
  }

  lemma PagingSkip(log: seq<Event>, from: int, start: nat, k: nat, page: seq<Event>)
    requires Ascending(log) && Paging(log, from, start, k, page) && k < |log| && log[k].sequence <= from
    ensures page == [] && Paging(log, from, k + 1, k + 1, page)
  {
    var first := log[start].sequence;
  }

  lemma PagingTake(log: seq<Event>, from: int, start: nat, k: nat, page: seq<Event>)
    requires Paging(log, from, start, k, page) && k < |log| && log[k].sequence > from
    ensures Paging(log, from, start, k + 1, page + [log[k]])
  {
  }

  lemma PagingEnds(log: seq<Event>, from: int, limit: int, start: nat, k: nat, page: seq<Event>)
    requires Ascending(log) && Paging(log, from, start, k, page)
    requires (k == |log| && (limit > 0 ==> |page| <= limit)) || (limit > 0 && |page| == limit)
    ensures IsPage(log, from, limit, page)
  {
    forall i | start <= i < |log|
      ensures log[i].sequence > from
    {
      assert k <= i && start < k ==> log[start].sequence <= log[i].sequence;
    }
    assert IsPageAt(log, from, limit, page, start);
  }

  /** Lines 179-189. */
  method PageOf(log: seq<Event>, from: int, limit: int) returns (page: seq<Event>)
    requires Ascending(log)
    ensures IsPage(log, from, limit, page)
  {
    hide Ascending, Paging, IsPage;
    page := [];
    ghost var start: nat := 0;
    NothingPaged(log, from);
    for k := 0 to |log|
      invariant Paging(log, from, start, k, page) && (limit > 0 ==> |page| < limit)
    {
      if log[k].sequence <= from {
        PagingSkip(log, from, start, k, page);
        start := k + 1;
        continue;
      }
      PagingTake(log, from, start, k, page);
      page := page + [log[k]];
      if limit > 0 && |page| >= limit {
        PagingEnds(log, from, limit, start, k + 1, page);
        return;
      }
    }
    PagingEnds(log, from, limit, start, |log|, page);
  }

  lemma NothingPaged(log: seq<Event>, from: int)
    ensures Paging(log, from, 0, 0, [])
  {
  }

  class Memory {
    var events: map<string, seq<Event>>
    var seen: map<string, set<nat>>
    var snapshots: map<string, seq<Saved>>

    ghost predicate Valid()
      reads this
    {
      AllApart(events, seen) && (forall sim :: Ascending(LogOf(events, sim))) &&
      forall sim :: SavedAscending(SavedOf(snapshots, sim))
    }

    constructor ()
      ensures Valid() && events == map[] && snapshots == map[]
    {
      events, seen, snapshots := map[], map[], map[];
    }

    /** AppendEvents (memory.go lines 150-173): an event whose sequence number is taken is ignored. */
    method AppendEvents(batch: seq<Record>)
      requires Valid()
      modifies `events, `seen
      ensures Valid() && AllExtend(old(events), events, batch)
    {
      hide Apart, Takes, Sequences, SavedAscending, Ascending, LogOf, SeenOf;
      ghost var before := events;
      var touched: set<string> := {};
      NothingTaken(events);
      for k := 0 to |batch|
        invariant AllApart(events, seen) && AllTake(before, events, batch[..k])
        invariant forall sim :: sim !in touched ==> Ascending(LogOf(events, sim))
      {
        var e := batch[k];
        assert batch[..k + 1] == batch[..k] + [e];
        var id, n := e.simulation, e.event.sequence;
        var list, taken := LogOf(events, id), SeenOf(seen, id);
        if n in taken {
          TakenAlready(before, events, seen, batch[..k], e);
          continue;
        }
        TakenNow(before, events, seen, batch[..k], e);
        seen := seen[id := taken + {n}];
        events := events[id := list + [e.event]];
        touched := touched + {id};
      }
      assert batch[..|batch|] == batch;
      SortTouched(touched, batch, before);
    }

    /** Lines 168-171. */
    method SortTouched(touched: set<string>, ghost batch: seq<Record>, ghost before: map<string, seq<Event>>)
      requires AllApart(events, seen) && AllTake(before, events, batch)
      requires forall sim :: sim !in touched ==> Ascending(LogOf(events, sim))
      modifies `events
      ensures AllApart(events, seen) && AllExtend(before, events, batch)
      ensures forall sim :: Ascending(LogOf(events, sim))
    {
      hide Apart, Takes, Sequences, Ascending, SeenOf;
      var rest := touched;
      while rest != {}
        invariant AllApart(events, seen) && AllTake(before, events, batch)
        invariant forall sim :: sim !in rest ==> Ascending(LogOf(events, sim))
        decreases |rest|
      {
        var id :| id in rest;
        var list := LogOf(events, id);
        assert Takes(LogOf(before, id), list, batch, id);
        var sorted := SortBySequence(list);
        SortedOne(before, events, seen, batch, id, sorted);
        events := events[id := sorted];
        rest := rest - {id};
      }
    }

    /** Events (lines 175-190). */
    method Events(sim: string, from: int, limit: int) returns (page: seq<Event>)
      requires Valid()
      ensures IsPage(LogOf(events, sim), from, limit, page)
    {
      assert Ascending(LogOf(events, sim));
      page := PageOf(LogOf(events, sim), from, limit);
    }

    /** LatestSequence (lines 192-200). */
    method LatestSequence(sim: string) returns (n: nat)
      requires Valid()
      ensures LogOf(events, sim) == [] ==> n == 0
      ensures forall e :: e in LogOf(events, sim) ==> e.sequence <= n
      ensures LogOf(events, sim) != [] ==> n in Sequences(LogOf(events, sim))
    {
      var log := LogOf(events, sim);
      assert Ascending(log);
      n := if |log| == 0 then 0 else log[|log| - 1].sequence;
    }

    /** SaveSnapshot (lines 202-216): at most one per sequence number, the last one saved. */
    method SaveSnapshot(sim: string, s: Saved)
      requires Valid()
      modifies `snapshots
      ensures Valid()
      ensures forall x :: x in SavedOf(snapshots, sim) <==>
        x == s || (x in SavedOf(old(snapshots), sim) && x.sequence != s.sequence)
      ensures forall other :: other != sim ==> SavedOf(snapshots, other) == SavedOf(old(snapshots), other)
    {
      hide AllApart, Ascending;
      var list := SavedOf(snapshots, sim);
      assert SavedAscending(list);
      var k := FindSaved(list, s.sequence);
      if k < |list| && list[k].sequence == s.sequence {
        var list' := list[k := s];
        Replaced(list, k, s);
        snapshots := snapshots[sim := list'];
      } else {
        assert forall i :: k < i < |list| ==> list[k].sequence < list[i].sequence;
        Inserted(list, k, s);
        snapshots := snapshots[sim := list[..k] + [s] + list[k..]];
      }
      forall x
        ensures SavedAscending(SavedOf(snapshots, x))
      {
        assert SavedAscending(SavedOf(old(snapshots), x));
      }
    }

    /** SnapshotAtOrBefore (lines 218-235). */
    method SnapshotAtOrBefore(sim: string, n: int) returns (best: Option<Saved>)
      requires Valid()
      ensures Newest(SavedOf(snapshots, sim), n, best)
    {
      var list := SavedOf(snapshots, sim);
      assert SavedAscending(list);
      best := None;
      for k := 0 to |list|
        invariant k == 0 ==> best == None
        invariant k > 0 ==> best == Some(list[k - 1]) && list[k - 1].sequence <= n
      {
        if list[k].sequence <= n {
          best := Some(list[k]);
        } else {
          break;
        }
      }
    }
  }

  lemma SortedOne(before: map<string, seq<Event>>, events: map<string, seq<Event>>, seen: map<string, set<nat>>,
                  batch: seq<Record>, id: string, sorted: seq<Event>)
    requires AllApart(events, seen) && AllTake(before, events, batch)
    requires Ascending(sorted) && forall e :: e in LogOf(events, id) <==> e in sorted
    ensures AllApart(events[id := sorted], seen) && AllTake(before, events[id := sorted], batch)
    ensures LogOf(events[id := sorted], id) == sorted
    ensures forall sim :: sim != id ==> LogOf(events[id := sorted], sim) == LogOf(events, sim)
  {
    hide Takes, Sequences, Ascending, Apart;
    var events' := events[id := sorted];
    assert Takes(LogOf(before, id), LogOf(events, id), batch, id);
    assert Sequences(LogOf(events, id)) == SeenOf(seen, id);
    SameMembers(LogOf(before, id), LogOf(events, id), sorted, batch, id);
    AscendingApart(sorted);
    forall sim
      ensures Apart(LogOf(events', sim)) && Sequences(LogOf(events', sim)) == SeenOf(seen, sim)
    {
      assert Apart(LogOf(events, sim)) && Sequences(LogOf(events, sim)) == SeenOf(seen, sim);
    }
    forall sim
      ensures Takes(LogOf(before, sim), LogOf(events', sim), batch, sim)
    {
      assert Takes(LogOf(before, sim), LogOf(events, sim), batch, sim);
    }
  }

  lemma NothingTaken(events: map<string, seq<Event>>)
    ensures AllTake(events, events, [])
  {
  }

  lemma TakenAlready(before: map<string, seq<Event>>, events: map<string, seq<Event>>, seen: map<string, set<nat>>,
                     batch: seq<Record>, r: Record)
    requires AllApart(events, seen) && AllTake(before, events, batch) && r.event.sequence in SeenOf(seen, r.simulation)
    ensures AllTake(before, events, batch + [r])
  {
    hide Takes, Sequences, Apart;
    forall sim
      ensures Takes(LogOf(before, sim), LogOf(events, sim), batch + [r], sim)
    {
      assert Sequences(LogOf(events, r.simulation)) == SeenOf(seen, r.simulation);
      TakeOther(LogOf(before, sim), LogOf(events, sim), batch, sim, r);
    }
  }

  lemma TakenNow(before: map<string, seq<Event>>, events: map<string, seq<Event>>, seen: map<string, set<nat>>,
                 batch: seq<Record>, r: Record)
    requires AllApart(events, seen) && AllTake(before, events, batch) && r.event.sequence !in SeenOf(seen, r.simulation)
    ensures var id := r.simulation;
      var events' := events[id := LogOf(events, id) + [r.event]];
      AllApart(events', seen[id := SeenOf(seen, id) + {r.event.sequence}]) && AllTake(before, events', batch + [r]) &&
      forall sim :: sim != id ==> LogOf(events', sim) == LogOf(events, sim)
  {
    hide Takes, Sequences, Apart;
    var id := r.simulation;
    var events' := events[id := LogOf(events, id) + [r.event]];
    assert Sequences(LogOf(events, id)) == SeenOf(seen, id);
    TakeNew(LogOf(before, id), LogOf(events, id), batch, id, r.event);
    assert Record(id, r.event) == r;
    forall sim
      ensures Takes(LogOf(before, sim), LogOf(events', sim), batch + [r], sim)
    {
      if sim != id { TakeOther(LogOf(before, sim), LogOf(events, sim), batch, sim, r); }
    }
  }

  method FindSaved(list: seq<Saved>, n: nat) returns (k: nat)
    requires SavedAscending(list)
    ensures k <= |list| && (forall i :: 0 <= i < k ==> list[i].sequence < n)
    ensures forall i :: k <= i < |list| ==> list[i].sequence >= n
  {
    k := 0;
    while k < |list| && list[k].sequence < n
      invariant k <= |list| && forall i :: 0 <= i < k ==> list[i].sequence < n
    {
      k := k + 1;
    }
  }

  lemma Replaced(list: seq<Saved>, k: nat, s: Saved)
    requires SavedAscending(list) && k < |list| && list[k].sequence == s.sequence
    ensures SavedAscending(list[k := s])
    ensures forall x :: x in list[k := s] <==> x == s || (x in list && x.sequence != s.sequence)
  {
    forall x | x in list && x.sequence != s.sequence
      ensures x in list[k := s]
    {
      var i :| 0 <= i < |list| && list[i] == x;
      assert list[k := s][i] == x;
    }
    assert list[k := s][k] == s;
  }

  lemma Inserted(list: seq<Saved>, k: nat, s: Saved)
    requires SavedAscending(list) && k <= |list|
    requires forall i :: 0 <= i < k ==> list[i].sequence < s.sequence
    requires forall i :: k <= i < |list| ==> list[i].sequence > s.sequence
    ensures SavedAscending(list[..k] + [s] + list[k..])
    ensures forall x :: x in list[..k] + [s] + list[k..] <==> x == s || (x in list && x.sequence != s.sequence)
  {
    assert list == list[..k] + list[k..];
  }
}