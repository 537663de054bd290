/** The live stream from the simulation through the hub to its clients (internal/transport/ws/hub.go
    lines 35-76, internal/transport/ws/handler.go lines 84-116, internal/simulation/simulation.go lines
    314-318 and 382-408). Every method of Stream is one step of one goroutine; Run interleaves them. */
module Stream {
  import opened Roads
  import opened Events

  const SUB_BUFFER: nat := 64

  /** One connection: its channel from the hub, the number of the snapshot it was sent first, the last
      number it let pass and the frames sent after the snapshot. For the record it also keeps how many
      events the hub had relayed when it subscribed, what it took from its channel, how many events the hub
      dropped for it, and the most that were unread when the hub had an event for it. */
  datatype Client = Client(sub: seq<Event>, snapshot: Option<nat>, lastSeq: nat, frames: seq<Event>, joinedAt: nat,
                           taken: seq<Event>, missed: nat, backlog: nat)

  // ---------------------------------------------------------------------------------------------
  // The filter
  // ---------------------------------------------------------------------------------------------

  /** The number to beat after these events (handler.go lines 108-110). */
  function Latest(n: nat, s: seq<Event>): nat
  {
    if s == [] then n
    else
      var before, e := Latest(n, s[..|s| - 1]), s[|s| - 1];
      if e.sequence > before then e.sequence else before
  }

  function Skips(e: Event, latest: nat): bool
  {
    e.sequence <= latest && !e.payload.Snapshot?
  }

  /** The events of s sent on after a snapshot numbered n (lines 101-113). */
  function Passed(n: nat, s: seq<Event>): seq<Event>
  {
    if s == [] then []
    else
      Passed(n, s[..|s| - 1]) + if Skips(s[|s| - 1], Latest(n, s[..|s| - 1])) then [] else [s[|s| - 1]]
  }

  lemma PassedStep(n: nat, s: seq<Event>, e: Event)
    ensures Passed(n, s + [e]) == Passed(n, s) + if Skips(e, Latest(n, s)) then [] else [e]
    ensures Latest(n, s + [e]) == if e.sequence > Latest(n, s) then e.sequence else Latest(n, s)
  {
    assert (s + [e])[..|s|] == s;
  }

  /** Each frame that is not a snapshot has a number above every earlier frame's, and above the first
      snapshot's. */
  ghost predicate Rising(n: nat, frames: seq<Event>)
  {
    (forall j :: 0 <= j < |frames| && !frames[j].payload.Snapshot? ==> frames[j].sequence > n) &&
    forall i, j :: 0 <= i < j < |frames| && !frames[j].payload.Snapshot? ==> frames[i].sequence < frames[j].sequence
  }

  lemma {:induction false} PassedRising(n: nat, s: seq<Event>)
    ensures Rising(n, Passed(n, s)) && Latest(n, s) >= n
    ensures forall i :: 0 <= i < |Passed(n, s)| ==> Passed(n, s)[i].sequence <= Latest(n, s)
  {
    if s != [] {
      PassedRising(n, s[..|s| - 1]);
    }
  }

  /** The filter lets a snapshot pass however old it is, and nothing else that is old. */
  lemma StaleSnapshotPasses(n: nat, s: seq<Event>, e: Event)
    requires e.sequence <= Latest(n, s)
    ensures Passed(n, s + [e]) == if e.payload.Snapshot? then Passed(n, s) + [e] else Passed(n, s)
  {
    PassedStep(n, s, e);
    assert Passed(n, s) + [] == Passed(n, s);
  }

  /** The events numbered above n. */
  function Newer(n: nat, s: seq<Event>): seq<Event>
  {
    if s == [] then [] else Newer(n, s[..|s| - 1]) + if s[|s| - 1].sequence > n then [s[|s| - 1]] else []
  }

  lemma NewerStep(n: nat, s: seq<Event>, e: Event)
    ensures Newer(n, s + [e]) == Newer(n, s) + if e.sequence > n then [e] else []
  {
    assert (s + [e])[..|s|] == s;
  }

  /** From a stretch of the log the filter sends everything above the snapshot's number, in order and
      once; what else it sends are snapshots. */
  lemma {:induction false} PassedStretch(log: seq<Event>, n: nat, a: nat, b: nat)
    requires Numbered(log) && a <= b <= |log|
    ensures Latest(n, log[a..b]) == if b > a && b > n then b else n
    ensures Newer(n, Passed(n, log[a..b])) == Newer(n, log[a..b])
    ensures OnlySnapshotsBelow(n, Passed(n, log[a..b]))
    decreases b - a
  {
    hide Latest, Passed, Newer, OnlySnapshotsBelow;
    if a < b {
      PassedStretch(log, n, a, b - 1);
      var s, e := log[a..b - 1], log[b - 1];
      assert log[a..b] == s + [e];
      PassedStep(n, s, e);
      NewerStep(n, s, e);
      NewerStep(n, Passed(n, s), e);
      OneMoreFrame(n, Passed(n, s), e);
      assert Passed(n, s) + [] == Passed(n, s) && Newer(n, s) + [] == Newer(n, s);
    } else {
      assert log[a..b] == [];
      NothingPassed(n);
    }
  }

  ghost predicate OnlySnapshotsBelow(n: nat, frames: seq<Event>)
  {
    forall e :: e in frames ==> e.sequence > n || e.payload.Snapshot?
  }

  lemma OneMoreFrame(n: nat, frames: seq<Event>, e: Event)
    requires OnlySnapshotsBelow(n, frames)
    ensures e.sequence > n || e.payload.Snapshot? ==> OnlySnapshotsBelow(n, frames + [e])
  {
  }

  lemma NothingPassed(n: nat)
    ensures Passed(n, []) == [] && Newer(n, []) == [] && Latest(n, []) == n && OnlySnapshotsBelow(n, [])
  {
  }

  lemma {:induction false} NewerSlice(log: seq<Event>, n: nat, a: nat, b: nat)
    requires Numbered(log) && a <= n <= b <= |log|
    ensures Newer(n, log[a..b]) == log[n..b]
    decreases b
  {
    if a < b {
      var s := log[a..b];
      assert s[..|s| - 1] == log[a..b - 1];
      if n < b {
        NewerSlice(log, n, a, b - 1);
        assert log[n..b] == log[n..b - 1] + [log[b - 1]];
      } else {
        NewerNone(log, n, a, b);
      }
    }
  }

  lemma {:induction false} NewerNone(log: seq<Event>, n: nat, a: nat, b: nat)
    requires Numbered(log) && a <= b <= n && b <= |log|
    ensures Newer(n, log[a..b]) == []
    decreases b
  {
    if a < b {
      NewerNone(log, n, a, b - 1);
      var s, shorter := log[a..b], log[a..b - 1];
      assert s == shorter + [log[b - 1]];
      assert s[..|s| - 1] == shorter;
    }
  }

  // ---------------------------------------------------------------------------------------------
  // What holds of a client at every moment
  // ---------------------------------------------------------------------------------------------

  /** The client's channel carries what the hub relayed since it subscribed, less what was dropped; it
      has sent on what its filter lets pass. */
  ghost predicate ClientOk(c: Client, log: seq<Event>, relayed: nat)
  {
    c.joinedAt <= relayed <= |log| && (c.missed == 0 ==> c.taken + c.sub == log[c.joinedAt..relayed]) &&
    |c.sub| <= SUB_BUFFER && (c.missed == 0 <==> c.backlog < 64) &&
    if c.snapshot.Some? then
      c.joinedAt <= c.snapshot.value <= |log| && c.frames == Passed(c.snapshot.value, c.taken) &&
      c.lastSeq == Latest(c.snapshot.value, c.taken)
    else c.taken == [] && c.frames == []
  }

  /** What a client receives: numbers rise; and if the hub dropped nothing for it, the frames numbered
      above its snapshot are exactly the events that followed it, as far as it has read, with no gap and
      no duplicate, any other frame being a snapshot. */
  lemma ClientReceives(c: Client, log: seq<Event>, relayed: nat)
    requires Numbered(log) && ClientOk(c, log, relayed) && c.snapshot.Some?
    ensures Rising(c.snapshot.value, c.frames)
    ensures c.missed == 0 <==> c.backlog < 64
    ensures c.missed == 0 ==> c.joinedAt + |c.taken| + |c.sub| == relayed <= |log|
    ensures c.missed == 0 && c.snapshot.value <= c.joinedAt + |c.taken| ==>
      Newer(c.snapshot.value, c.frames) == log[c.snapshot.value..c.joinedAt + |c.taken|]
    ensures c.missed == 0 && c.joinedAt + |c.taken| <= c.snapshot.value ==> Newer(c.snapshot.value, c.frames) == []
    ensures c.missed == 0 ==> OnlySnapshotsBelow(c.snapshot.value, c.frames)
  {
    hide Newer, Passed, Latest, OnlySnapshotsBelow, Rising;
    var n := c.snapshot.value;
    PassedRising(n, c.taken);
    if c.missed == 0 {
      var b := c.joinedAt + |c.taken|;
      assert c.taken == (c.taken + c.sub)[..|c.taken|] == log[c.joinedAt..b];
      PassedStretch(log, n, c.joinedAt, b);
      if n <= b { NewerSlice(log, n, c.joinedAt, b); }
      if b <= n { NewerNone(log, n, c.joinedAt, b); }
    }
  }

  // ---------------------------------------------------------------------------------------------
  // The steps
  // ---------------------------------------------------------------------------------------------

  /** The hub's attempt to send (hub.go lines 54-61). */
  function Sent(c: Client, e: Event): Client
  {
    var seen := c.(backlog := if |c.sub| > c.backlog then |c.sub| else c.backlog);
    if |c.sub| < SUB_BUFFER then seen.(sub := c.sub + [e]) else seen.(missed := c.missed + 1)
  }

  /** What relaying an event means for a client: while fewer than 64 events are unread it gets the event
      behind those, and nothing is missed; with 64 unread the event is missed and nothing else changes. */
  ghost predicate Reaches(c: Client, c': Client, e: Event)
  {
    c'.snapshot == c.snapshot && c'.lastSeq == c.lastSeq && c'.frames == c.frames && c'.joinedAt == c.joinedAt &&
    c'.taken == c.taken && c'.backlog == (if |c.sub| > c.backlog then |c.sub| else c.backlog) &&
    (|c.sub| < 64 ==> c'.sub == c.sub + [e] && c'.missed == c.missed) &&
    (|c.sub| >= 64 ==> c'.sub == c.sub && c'.missed == c.missed + 1)
  }

  lemma SentOk(c: Client, log: seq<Event>, relayed: nat)
    requires ClientOk(c, log, relayed) && relayed < |log|
    ensures ClientOk(Sent(c, log[relayed]), log, relayed + 1)
  {
    assert c.taken + (c.sub + [log[relayed]]) == (c.taken + c.sub) + [log[relayed]];
    assert log[c.joinedAt..relayed] + [log[relayed]] == log[c.joinedAt..relayed + 1];
  }

  /** The handler's loop body (handler.go lines 101-113). */
  function Handled(c: Client): Client
    requires c.sub != []
  {
    var e := c.sub[0];
    c.(sub := c.sub[1..], taken := c.taken + [e], lastSeq := if e.sequence > c.lastSeq then e.sequence else c.lastSeq,
       frames := if Skips(e, c.lastSeq) then c.frames else c.frames + [e])
  }

  lemma HandledOk(c: Client, log: seq<Event>, relayed: nat)
    requires ClientOk(c, log, relayed) && c.snapshot.Some? && c.sub != []
    ensures ClientOk(Handled(c), log, relayed)
  {
    PassedStep(c.snapshot.value, c.taken, c.sub[0]);
    assert (c.taken + [c.sub[0]]) + c.sub[1..] == c.taken + c.sub;
  }

  lemma LongerLog(c: Client, log: seq<Event>, more: seq<Event>, relayed: nat)
    requires ClientOk(c, log, relayed)
    ensures ClientOk(c, log + more, relayed)
  {
    assert (log + more)[c.joinedAt..relayed] == log[c.joinedAt..relayed];
  }

  /** Lines 54-61: every subscriber in turn. */
  method FanOut(clients: map<nat, Client>, event: Event) returns (after: map<nat, Client>)
    ensures after.Keys == clients.Keys && forall id :: id in clients ==> Reaches(clients[id], after[id], event)
    ensures forall id :: id in clients ==> after[id] == Sent(clients[id], event)
  {
    forall c: Client
      ensures Reaches(c, Sent(c, event), event)
    {
    }
    hide Sent, Reaches;
    after := clients;
    var rest := clients.Keys;
    while rest != {}
      invariant rest <= clients.Keys == after.Keys
      invariant forall id :: id in clients ==> after[id] == if id in rest then clients[id] else Sent(clients[id], event)
      decreases |rest|
    {
      var id :| id in rest;
      after := after[id := Sent(after[id], event)];
      rest := rest - {id};
    }
  }

  lemma AllSent(clients: map<nat, Client>, log: seq<Event>, relayed: nat)
    requires relayed < |log| && forall id :: id in clients ==> ClientOk(clients[id], log, relayed)
    ensures forall id :: id in clients ==> ClientOk(Sent(clients[id], log[relayed]), log, relayed + 1)
  {
    hide ClientOk, Sent;
    forall id | id in clients
      ensures ClientOk(Sent(clients[id], log[relayed]), log, relayed + 1)
    {
      SentOk(clients[id], log, relayed);
    }
  }

  datatype Step =
    | Publish(events: seq<Event>)
    | Relay
    | Subscribe(id: nat)
    | TakeSnapshot(id: nat)
    | Handle(id: nat)
    | Unsubscribe(id: nat)

  class Stream {
    /** What the simulation published, how much of it the hub relayed, and the connections. */
    var log: seq<Event>
    var relayed: nat
    var clients: map<nat, Client>

    ghost predicate Valid()
      reads this
    {
      Numbered(log) && relayed <= |log| && forall id :: id in clients ==> ClientOk(clients[id], log, relayed)
    }

    constructor ()
      ensures Valid() && log == [] && clients == map[]
    {
      log, relayed, clients := [], 0, map[];
    }

    /** publish (simulation.go lines 674-678): a step's events go out together. */
    method PublishEvents(events: seq<Event>)
      requires Valid() && forall k :: 0 <= k < |events| ==> events[k].sequence == |log| + k + 1
      modifies `log
      ensures Valid() && log == old(log) + events
    {
      forall id | id in clients
        ensures ClientOk(clients[id], log + events, relayed)
      {
        LongerLog(clients[id], log, events, relayed);
      }
      log := log + events;
    }

    /** One event through the hub to every subscriber (hub.go lines 47-61). */
    method RelayOne()
      requires Valid() && relayed < |log|
      modifies `relayed, `clients
      ensures Valid() && relayed == old(relayed) + 1
      ensures clients.Keys == old(clients).Keys
      ensures forall id :: id in clients ==> Reaches(old(clients)[id], clients[id], log[old(relayed)])
    {
      hide ClientOk, Sent, Reaches, Numbered;
      assert forall id :: id in clients ==> ClientOk(clients[id], log, relayed);
      AllSent(clients, log, relayed);
      clients := FanOut(clients, log[relayed]);
      relayed := relayed + 1;
    }

    /** Subscribe (hub.go lines 40-41 and 67-71). */
    method SubscribeClient(id: nat)
      requires Valid() && id !in clients
      modifies `clients
      ensures Valid() && clients == old(clients)[id := Client([], None, 0, [], relayed, [], 0, 0)]
    {
      assert log[relayed..relayed] == [];
      clients := clients[id := Client([], None, 0, [], relayed, [], 0, 0)];
    }

    /** CurrentSnapshot, answered between two steps of the simulation: it carries the number of the last
        event published (handler.go lines 91-95, simulation.go lines 314-318). */
    method SendSnapshot(id: nat)
      requires Valid() && id in clients && clients[id].snapshot.None?
      modifies `clients
      ensures Valid() && clients == old(clients)[id := old(clients)[id].(snapshot := Some(|log|), lastSeq := |log|)]
    {
      clients := clients[id := clients[id].(snapshot := Some(|log|), lastSeq := |log|)];
    }

    method HandleOne(id: nat)
      requires Valid() && id in clients && clients[id].snapshot.Some? && clients[id].sub != []
      modifies `clients
      ensures Valid() && clients == old(clients)[id := Handled(old(clients)[id])]
    {
      HandledOk(clients[id], log, relayed);
      clients := clients[id := Handled(clients[id])];
    }

    method UnsubscribeClient(id: nat)
      requires Valid()
      modifies `clients
      ensures Valid() && clients == old(clients) - {id}
    {
      clients := clients - {id};
    }

    ghost function Now(): Hub
      reads this
    {
      Hub(log, relayed, clients)
    }

    /** Whether a step can happen now. */
    predicate CanHappen(s: Step)
      reads this
      ensures CanHappen(s) <==> Enabled(Now(), s)
    {
      match s
      case Publish(events) => forall k :: 0 <= k < |events| ==> events[k].sequence == |log| + k + 1
      case Relay => relayed < |log|
      case Subscribe(id) => id !in clients
      case TakeSnapshot(id) => id in clients && clients[id].snapshot.None?
      case Handle(id) => id in clients && clients[id].snapshot.Some? && clients[id].sub != []
      case Unsubscribe(_) => true
    }

    /** One step that can happen. */
    method Take(s: Step)
      requires Valid() && Enabled(Now(), s)
      modifies this
      ensures Valid() && Follows(old(Now()), s, Now())
    {
      hide ClientOk, Reaches, Numbered;
      match s
      case Publish(events) => PublishEvents(events);
      case Relay => RelayOne();
      case Subscribe(id) => SubscribeClient(id);
      case TakeSnapshot(id) => SendSnapshot(id);
      case Handle(id) => HandleOne(id);
      case Unsubscribe(id) => UnsubscribeClient(id);
    }

    /** Over any interleaving of simulation, hub and clients every step that can happen does what it should,
        and frames rise; a client that never had 64 events unread when one was relayed missed nothing. */
    method Run(schedule: seq<Step>) returns (ghost trace: seq<Hub>)
      requires Valid()
      modifies this
      ensures Valid()
      ensures |trace| == |schedule| + 1 && trace[0] == old(Now()) && trace[|schedule|] == Now()
      ensures forall k :: 0 <= k < |schedule| ==> Next(trace[k], schedule[k], trace[k + 1])
      ensures forall id :: id in clients && clients[id].snapshot.Some? ==>
        Rising(clients[id].snapshot.value, clients[id].frames)
      ensures forall id :: id in clients && clients[id].snapshot.Some? && clients[id].backlog < 64 ==>
        clients[id].missed == 0 && Complete(clients[id], log, relayed)
    {
      trace := [Now()];
      for k := 0 to |schedule|
        invariant Valid() && |trace| == k + 1 && trace[0] == old(Now()) && trace[k] == Now()
        invariant forall i :: 0 <= i < k ==> Next(trace[i], schedule[i], trace[i + 1])
      {
        hide Follows, Enabled, ClientOk, Numbered;
        var possible := CanHappen(schedule[k]);
        if possible {
          Take(schedule[k]);
        }
        trace := trace + [Now()];
      }
      forall id | id in clients && clients[id].snapshot.Some?
        ensures Rising(clients[id].snapshot.value, clients[id].frames)
        ensures clients[id].backlog < 64 ==> clients[id].missed == 0 && Complete(clients[id], log, relayed)
      {
        ClientReceives(clients[id], log, relayed);
      }
    }
  }

  /** The stream's fields at one moment. */
  datatype Hub = Hub(log: seq<Event>, relayed: nat, clients: map<nat, Client>)

  /** Whether a step can happen in state a. */
  ghost predicate Enabled(a: Hub, s: Step)
  {
    match s
    case Publish(events) => forall k :: 0 <= k < |events| ==> events[k].sequence == |a.log| + k + 1
    case Relay => a.relayed < |a.log|
    case Subscribe(id) => id !in a.clients
    case TakeSnapshot(id) => id in a.clients && a.clients[id].snapshot.None?
    case Handle(id) => id in a.clients && a.clients[id].snapshot.Some? && a.clients[id].sub != []
    case Unsubscribe(_) => true
  }

  /** What each step makes of state a. */
  ghost predicate Follows(a: Hub, s: Step, b: Hub)
    requires Enabled(a, s)
  {
    match s
    case Publish(events) => b == a.(log := a.log + events)
    case Relay =>
      b.log == a.log && b.relayed == a.relayed + 1 && b.clients.Keys == a.clients.Keys &&
      forall id :: id in a.clients ==> Reaches(a.clients[id], b.clients[id], a.log[a.relayed])
    case Subscribe(id) => b == a.(clients := a.clients[id := Client([], None, 0, [], a.relayed, [], 0, 0)])
    case TakeSnapshot(id) =>
      b == a.(clients := a.clients[id := a.clients[id].(snapshot := Some(|a.log|), lastSeq := |a.log|)])
    case Handle(id) =>
      id in b.clients && b == a.(clients := a.clients[id := b.clients[id]]) && Took(a.clients[id], b.clients[id])
    case Unsubscribe(id) => b == a.(clients := a.clients - {id})
  }

  /** A step that cannot happen changes nothing. */
  ghost predicate Next(a: Hub, s: Step, b: Hub)
  {
    if Enabled(a, s) then Follows(a, s, b) else b == a
  }

  /** The oldest unread event is taken; it is sent on if its number is above every earlier one's and the
      snapshot's, or if it is itself a snapshot. */
  ghost predicate Took(c: Client, c': Client)
    requires c.sub != []
  {
    var e := c.sub[0];
    c'.sub == c.sub[1..] && c'.taken == c.taken + [e] && c'.snapshot == c.snapshot && c'.joinedAt == c.joinedAt &&
    c'.missed == c.missed && c'.backlog == c.backlog &&
    (e.sequence > c.lastSeq || e.payload.Snapshot? ==> c'.frames == c.frames + [e]) &&
    (e.sequence <= c.lastSeq && !e.payload.Snapshot? ==> c'.frames == c.frames) &&
    c'.lastSeq == if e.sequence > c.lastSeq then e.sequence else c.lastSeq
  }

  /** The frames above the snapshot are the events that followed it, as far as the client has read, which is
      all that was relayed once nothing is left unread. */
  ghost predicate Complete(c: Client, log: seq<Event>, relayed: nat)
    requires c.snapshot.Some?
  {
    var n, b := c.snapshot.value, c.joinedAt + |c.taken|;
    b <= |log| && Newer(n, c.frames) == (if n <= b then log[n..b] else []) && OnlySnapshotsBelow(n, c.frames) &&
    b + |c.sub| == relayed
  }
}
