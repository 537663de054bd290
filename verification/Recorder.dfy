/** The recorder between the simulation and the hub (internal/replay/recorder.go). Its two goroutines
    share a bounded queue; every method below is one step of one of them, and Run interleaves them in any
    order. */
module Recorder {
  import opened Events

  /** The events that can be encoded for the store, in order. */
  function Encodable(s: seq<Event>, encodes: Event -> bool): seq<Event>
  {
    if s == [] then []
    else Encodable(s[..|s| - 1], encodes) + if encodes(s[|s| - 1]) then [s[|s| - 1]] else []
  }

  lemma EncodableStep(s: seq<Event>, e: Event, encodes: Event -> bool)
    ensures Encodable(s + [e], encodes) == Encodable(s, encodes) + if encodes(e) then [e] else []
  {
    assert (s + [e])[..|s|] == s;
  }

  /** The events of s that were not dropped, in order: `dropped` holds their positions. */
  function Without(s: seq<Event>, dropped: set<nat>): seq<Event>
  {
    if s == [] then []
    else Without(s[..|s| - 1], dropped) + if |s| - 1 in dropped then [] else [s[|s| - 1]]
  }

  lemma {:induction false} WithoutLater(s: seq<Event>, dropped: set<nat>, n: nat)
    requires n >= |s|
    ensures Without(s, dropped + {n}) == Without(s, dropped)
  {
    if s != [] { WithoutLater(s[..|s| - 1], dropped, n); }
  }

  lemma WithoutStep(s: seq<Event>, e: Event, dropped: set<nat>)
    requires |s| !in dropped
    ensures Without(s + [e], dropped) == Without(s, dropped) + [e]
    ensures Without(s + [e], dropped + {|s|}) == Without(s, dropped)
  {
    assert (s + [e])[..|s|] == s;
    WithoutLater(s, dropped, |s|);
    assert Without(s, dropped) + [] == Without(s, dropped);
  }

  /** One step of one of the goroutines; the flag says whether the store accepts a write made in it. */
  datatype Step =
    | Receive(event: Event)
    | CloseInput
    | TakeEvent(stores: bool)
    | TakeClose(stores: bool)
    | Tick(stores: bool)
    | AcceptFlush
    | DrainEvent(stores: bool)
    | DrainDone(stores: bool)
    | Cancel(stores: bool)

  datatype Writer = Running | Draining | Closed | Cancelled

  /** The recorder's fields at one moment. */
  datatype State = State(queue: seq<Event>, closed: bool, batch: seq<Event>, sinceSnapshot: nat, snapshotDue: bool,
                         dropped: nat, errors: nat, writer: Writer, received: seq<Event>, forwarded: seq<Event>,
                         attempted: seq<Event>, persisted: nat)

  class Recorder {
    const batchSize: nat
    const snapshotEvery: nat
    const bufferSize: nat
    /** Whether an event can be encoded. */
    const encodes: Event -> bool

    var queue: seq<Event>
    var closed: bool
    var batch: seq<Event>
    var sinceSnapshot: nat
    var snapshotDue: bool
    var dropped: nat
    var errors: nat
    var writer: Writer

    /** Everything that came in, where it was dropped, what went on to the hub, what the writer took out
        of the queue and what it tried to write, with how much of that was stored in all, and how much when
        a snapshot was last asked for. */
    ghost var received: seq<Event>
    ghost var droppedAt: set<nat>
    ghost var forwarded: seq<Event>
    ghost var processed: seq<Event>
    ghost var attempted: seq<Event>
    ghost var persisted: nat
    ghost var marked: nat

    ghost function Now(): State
      reads this
    {
      State(queue, closed, batch, sinceSnapshot, snapshotDue, dropped, errors, writer, received, forwarded, attempted,
            persisted)
    }

    /** What came out of the queue, what is in it and what was dropped make up what came in; what was
        attempted and the batch make up what came out and could be encoded. */
    ghost predicate Kept()
      reads this
    {
      batchSize > 0 && snapshotEvery > 0 && forwarded == received &&
      processed + queue == Without(received, droppedAt) && |droppedAt| == dropped &&
      (forall n :: n in droppedAt ==> n < |received|) &&
      attempted + batch == Encodable(processed, encodes) &&
      |queue| <= bufferSize && persisted <= |attempted| && marked + sinceSnapshot == persisted &&
      sinceSnapshot < snapshotEvery && (snapshotDue <==> marked > 0)
    }

    ghost predicate Valid()
      reads this
    {
      Kept() && |batch| < batchSize &&
      (writer.Closed? ==> closed && queue == [] && batch == []) && (writer.Cancelled? ==> batch == [])
    }

    /** NewRecorder (lines 43-59 and 82-91). */
    constructor (batchSize: nat, snapshotEvery: nat, bufferSize: nat, encodes: Event -> bool)
      ensures Valid() && received == [] && writer == Running && !closed
      ensures this.batchSize == if batchSize == 0 then 200 else batchSize
      ensures this.snapshotEvery == if snapshotEvery == 0 then 500 else snapshotEvery
      ensures this.bufferSize == if bufferSize == 0 then 4096 else bufferSize
    {
      this.batchSize := if batchSize == 0 then 200 else batchSize;
      this.snapshotEvery := if snapshotEvery == 0 then 500 else snapshotEvery;
      this.bufferSize := if bufferSize == 0 then 4096 else bufferSize;
      this.encodes := encodes;
      queue, closed, batch, writer := [], false, [], Running;
      sinceSnapshot, snapshotDue, dropped, errors := 0, false, 0, 0;
      received, droppedAt, forwarded, processed, attempted, persisted, marked := [], {}, [], [], [], 0, 0;
    }

    /** One round of forwardAndQueue (lines 153-162): a full queue drops the event, the stream never. */
    method ReceiveEvent(e: Event)
      requires Valid() && !closed
      modifies `queue, `dropped, `droppedAt, `received, `forwarded
      ensures Valid() && received == old(received) + [e] && forwarded == old(forwarded) + [e]
      ensures |old(queue)| < bufferSize ==> queue == old(queue) + [e] && dropped == old(dropped)
      ensures |old(queue)| >= bufferSize ==> queue == old(queue) && dropped == old(dropped) + 1
    {
      hide Without, Encodable;
      assert |received| !in droppedAt;
      WithoutStep(received, e, droppedAt);
      if |queue| < bufferSize {
        assert processed + (queue + [e]) == (processed + queue) + [e];
        queue := queue + [e];
      } else {
        dropped := dropped + 1;
        droppedAt := droppedAt + {|received|};
      }
      received := received + [e];
      forwarded := forwarded + [e];
    }

    /** Line 163. */
    method CloseQueue()
      requires Valid()
      modifies `closed
      ensures Valid() && closed
    {
      closed := true;
    }

    /** What writing the batch comes to: it is attempted whole and emptied, whatever comes of it; what was
        stored counts towards the next snapshot, which is asked for once snapshotEvery events were stored. */
    ghost predicate Flushed(a: State, b: State, stores: bool)
    {
      var written := if stores then |a.batch| else 0;
      b.queue == a.queue && b.closed == a.closed && b.dropped == a.dropped && b.received == a.received &&
      b.forwarded == a.forwarded && b.batch == [] && b.attempted == a.attempted + a.batch &&
      b.persisted == a.persisted + written &&
      b.errors == a.errors + (if stores || a.batch == [] then 0 else 1) &&
      if a.sinceSnapshot + written >= snapshotEvery then b.sinceSnapshot == 0 && b.snapshotDue
      else b.sinceSnapshot == a.sinceSnapshot + written && b.snapshotDue == a.snapshotDue
    }

    /** write and requestSnapshot (lines 176-187 and 253-279). */
    method Flush(stores: bool)
      requires Kept()
      modifies `batch, `attempted, `persisted, `marked, `sinceSnapshot, `snapshotDue, `errors
      ensures Kept() && batch == [] && Flushed(old(Now()), Now(), stores)
    {
      hide Without, Encodable;
      if |batch| == 0 {
        assert attempted + batch == attempted;
        return;
      }
      var written := if stores then |batch| else 0;
      if !stores { errors := errors + 1; }
      attempted, persisted := attempted + batch, persisted + written;
      batch := [];
      sinceSnapshot := sinceSnapshot + written;
      if sinceSnapshot >= snapshotEvery {
        sinceSnapshot := 0;
        snapshotDue, marked := true, persisted;
      }
    }

    /** What taking the head of the queue comes to: an event that cannot be encoded is one more error; any
        other joins the batch, which is written once it is full. */
    ghost predicate Enqueued(a: State, b: State, stores: bool)
    {
      a.queue != [] && b.queue == a.queue[1..] && b.writer == a.writer &&
      var e, rest := a.queue[0], a.(queue := a.queue[1..]);
      if !encodes(e) then b == rest.(errors := a.errors + 1)
      else if |a.batch| + 1 < batchSize then b == rest.(batch := a.batch + [e])
      else Flushed(rest.(batch := a.batch + [e]), b, stores)
    }

    /** enqueue (lines 192-208) for the event at the head of the queue. */
    method Enqueue(stores: bool)
      requires Valid() && queue != [] && (writer.Running? || writer.Draining?)
      modifies `queue, `processed, `batch, `attempted, `persisted, `marked, `sinceSnapshot, `snapshotDue, `errors
      ensures Valid() && queue == old(queue)[1..] && processed == old(processed) + [old(queue)[0]]
      ensures Enqueued(old(Now()), Now(), stores)
    {
      hide Without, Encodable;
      var event := queue[0];
      EncodableStep(processed, event, encodes);
      assert processed + queue == (processed + [event]) + queue[1..];
      queue := queue[1..];
      processed := processed + [event];
      if !encodes(event) {
        errors := errors + 1;
        return;
      }
      assert attempted + (batch + [event]) == (attempted + batch) + [event];
      batch := batch + [event];
      if |batch| >= batchSize {
        Flush(stores);
      }
    }

    /** A received event, or the end of the queue (lines 212-216). */
    method TakeOne(stores: bool)
      requires Valid() && writer.Running? && (queue != [] || closed)
      modifies this
      ensures Valid() && received == old(received) && droppedAt == old(droppedAt) && closed == old(closed)
      ensures old(queue) != [] ==> writer.Running? && processed == old(processed) + [old(queue)[0]]
      ensures old(queue) != [] ==> Enqueued(old(Now()), Now(), stores)
      ensures old(queue) == [] ==>
        writer.Closed? && batch == [] && attempted == Encodable(Without(received, droppedAt), encodes)
      ensures old(queue) == [] ==> Flushed(old(Now()), Now(), stores)
    {
      if queue != [] {
        Enqueue(stores);
      } else {
        Flush(stores);
        writer := Closed;
        AllAttempted();
      }
    }

    /** With queue and batch empty everything not dropped was attempted, if it could be encoded. */
    lemma AllAttempted()
      requires Kept() && queue == [] && batch == []
      ensures attempted == Encodable(Without(received, droppedAt), encodes)
    {
      assert processed + queue == processed && attempted + batch == attempted;
    }

    /** Lines 217-218. */
    method TickFlush(stores: bool)
      requires Valid() && writer.Running?
      modifies `batch, `attempted, `persisted, `marked, `sinceSnapshot, `snapshotDue, `errors
      ensures Valid() && batch == [] && Flushed(old(Now()), Now(), stores)
    {
      Flush(stores);
    }

    /** Lines 219-224: a flush request is taken up. */
    method StartDrain()
      requires Valid() && writer.Running?
      modifies `writer
      ensures Valid() && writer.Draining?
    {
      writer := Draining;
    }

    /** Lines 226-236: what is in the queue is drained, event by event. */
    method DrainOne(stores: bool)
      requires Valid() && writer.Draining? && queue != []
      modifies `queue, `processed, `batch, `attempted, `persisted, `marked, `sinceSnapshot, `snapshotDue, `errors
      ensures Enqueued(old(Now()), Now(), stores)
      ensures Valid() && processed == old(processed) + [old(queue)[0]]
    {
      Enqueue(stores);
    }

    /** Lines 233-241: the queue is drained, the batch written and the request answered. By then all that
        came in and was not dropped was attempted, whatever was queued before the request included. */
    method Reply(stores: bool)
      requires Valid() && writer.Draining? && queue == []
      modifies `batch, `attempted, `persisted, `marked, `sinceSnapshot, `snapshotDue, `errors, `writer
      ensures Flushed(old(Now()), Now(), stores)
      ensures Valid() && batch == [] && attempted == Encodable(Without(received, droppedAt), encodes)
      ensures writer == if closed then Closed else Running
    {
      Flush(stores);
      AllAttempted();
      writer := if closed then Closed else Running;
    }

    /** Lines 242-244: cancelling writes the batch, not the queue. */
    method Stop(stores: bool)
      requires Valid() && writer.Running?
      modifies `batch, `attempted, `persisted, `marked, `sinceSnapshot, `snapshotDue, `errors, `writer
      ensures Flushed(old(Now()), Now(), stores)
      ensures Valid() && writer.Cancelled? && attempted == Encodable(processed, encodes) && queue == old(queue)
    {
      Flush(stores);
      assert attempted + batch == attempted;
      writer := Cancelled;
    }

    /** Whether a step can happen in state a. */
    predicate Enabled(a: State, s: Step)
    {
      match s
      case Receive(_) => !a.closed
      case CloseInput => !a.closed
      case TakeEvent(_) => a.writer.Running? && a.queue != []
      case TakeClose(_) => a.writer.Running? && a.queue == [] && a.closed
      case Tick(_) => a.writer.Running?
      case AcceptFlush => a.writer.Running?
      case DrainEvent(_) => a.writer.Draining? && a.queue != []
      case DrainDone(_) => a.writer.Draining? && a.queue == []
      case Cancel(_) => a.writer.Running?
    }

    /** What each step makes of state a. */
    ghost predicate Follows(a: State, s: Step, b: State)
    {
      match s
      case Receive(e) =>
        var passed := a.(received := a.received + [e], forwarded := a.forwarded + [e]);
        b == if |a.queue| < bufferSize then passed.(queue := a.queue + [e]) else passed.(dropped := a.dropped + 1)
      case CloseInput => b == a.(closed := true)
      case TakeEvent(stores) => Enqueued(a, b, stores)
      case TakeClose(stores) => Flushed(a, b, stores) && b.writer.Closed?
      case Tick(stores) => Flushed(a, b, stores) && b.writer == a.writer
      case AcceptFlush => b == a.(writer := Draining)
      case DrainEvent(stores) => Enqueued(a, b, stores)
      case DrainDone(stores) => Flushed(a, b, stores) && b.writer == if a.closed then Closed else Running
      case Cancel(stores) => Flushed(a, b, stores) && b.writer.Cancelled?
    }

    /** A step that cannot happen changes nothing. */
    ghost predicate Next(a: State, s: Step, b: State)
    {
      if Enabled(a, s) then Follows(a, s, b) else b == a
    }

    /** One step that can happen. */
    method Take(s: Step)
      requires Valid() && Enabled(Now(), s)
      modifies this
      ensures Valid() && Follows(old(Now()), s, Now())
    {
      hide Kept, Enqueued, Flushed;
      match s
      case Receive(e) => ReceiveEvent(e);
      case CloseInput => CloseQueue();
      case TakeEvent(stores) => TakeOne(stores);
      case TakeClose(stores) => TakeOne(stores);
      case Tick(stores) => TickFlush(stores);
      case AcceptFlush => StartDrain();
      case DrainEvent(stores) => DrainOne(stores);
      case DrainDone(stores) => Reply(stores);
      case Cancel(stores) => Stop(stores);
    }

    /** Any interleaving: every step that can happen does what it should, nothing is lost but what is
        counted as dropped, and nothing is reordered. */
    method Run(schedule: seq<Step>) returns (ghost trace: seq<State>)
      requires Valid()
      modifies this
      ensures Valid()
      ensures |trace| == |schedule| + 1 && trace[0] == old(Now()) && trace[|schedule|] == Now()
      ensures forall k :: 0 <= k < |schedule| ==> Next(trace[k], schedule[k], trace[k + 1])
      ensures writer.Closed? ==> attempted == Encodable(Without(received, droppedAt), encodes)
    {
      trace := [Now()];
      for k := 0 to |schedule|
        invariant Valid() && |trace| == k + 1 && trace[0] == old(Now()) && trace[k] == Now()
        invariant forall i :: 0 <= i < k ==> Next(trace[i], schedule[i], trace[i + 1])
      {
        hide Kept, Enqueued, Flushed, Follows, Enabled;
        if CanHappen(schedule[k]) {
          Take(schedule[k]);
        }
        trace := trace + [Now()];
      }
      if writer.Closed? { AllAttempted(); }
    }

    /** Whether a step can happen now. */
    predicate CanHappen(s: Step)
      reads this
      ensures CanHappen(s) <==> Enabled(Now(), s)
    {
      match s
      case Receive(_) => !closed
      case CloseInput => !closed
      case TakeEvent(_) => writer.Running? && queue != []
      case TakeClose(_) => writer.Running? && queue == [] && closed
      case Tick(_) => writer.Running?
      case AcceptFlush => writer.Running?
      case DrainEvent(_) => writer.Draining? && queue != []
      case DrainDone(_) => writer.Draining? && queue == []
      case Cancel(_) => writer.Running?
    }
  }
}
