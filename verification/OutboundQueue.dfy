/**
 The outbound pipeline of a connection: Enqueue puts a message on one channel, QueuePump moves
 it through an in-memory queue to a second channel, WritePump takes it from there to the socket.
 The connection is open throughout.
 */
module OutboundQueue {
  const CHANNEL_SIZE := 256
  const MAX_QUEUE_SIZE := 10000

  /**
   `produced` and `dropped` are history variables: every message ever enqueued, and the positions
   in `produced` of those QueuePump threw away.
   */
  datatype Pipe<T> = Pipe(enqueue: seq<T>, queue: seq<T>, send: seq<T>, written: seq<T>,
                          produced: seq<T>, dropped: set<nat>)

  datatype Event<T> = Enqueue(msg: T) | PumpTakes | PumpSends | Write

  /** A channel operation that would block is not enabled. */
  predicate Enabled<T>(p: Pipe<T>, e: Event<T>) {
    match e
    case Enqueue(_) => |p.enqueue| < CHANNEL_SIZE
    case PumpTakes => p.enqueue != []
    case PumpSends => p.queue != [] && |p.send| < CHANNEL_SIZE
    case Write => p.send != []
  }

  function Apply<T>(p: Pipe<T>, e: Event<T>): Pipe<T>
    requires Enabled(p, e)
  {
    match e
    case Enqueue(m) => p.(enqueue := p.enqueue + [m], produced := p.produced + [m])
    case PumpTakes => Take(p)
    case PumpSends => p.(send := p.send + [p.queue[0]], queue := p.queue[1..])
    case Write => p.(written := p.written + [p.send[0]], send := p.send[1..])
  }

  /** QueuePump receives a message: an empty queue always takes it, a full one drops it. */
  function Take<T>(p: Pipe<T>): Pipe<T>
    requires p.enqueue != []
  {
    if p.queue == [] || |p.queue| < MAX_QUEUE_SIZE then
      p.(enqueue := p.enqueue[1..], queue := p.queue + [p.enqueue[0]])
    else
      p.(enqueue := p.enqueue[1..], dropped := p.dropped + {if |p.produced| >= |p.enqueue| then |p.produced| - |p.enqueue| else 0})
  }

  /** The sequence without the given positions. */
  function Without<T>(s: seq<T>, dropped: set<nat>): (kept: seq<T>)
    ensures |kept| <= |s|
  {
    if s == [] then []
    else Without(s[..|s| - 1], dropped) + if |s| - 1 in dropped then [] else [s[|s| - 1]]
  }

  /** Everything on its way, oldest first. */
  function Flow<T>(p: Pipe<T>): seq<T> {
    p.written + p.send + p.queue + p.enqueue
  }

  /** The part of the history that has left the first channel. */
  function Taken<T>(p: Pipe<T>): seq<T> {
    if |p.enqueue| <= |p.produced| then p.produced[..|p.produced| - |p.enqueue|] else []
  }

  ghost predicate Conserved<T>(p: Pipe<T>) {
    && |p.enqueue| <= |p.produced|
    && p.produced == Taken(p) + p.enqueue
    && p.written + p.send + p.queue == Without(Taken(p), p.dropped)
    && (forall i | i in p.dropped :: i < |Taken(p)|)
    && |p.queue| <= MAX_QUEUE_SIZE && |p.send| <= CHANNEL_SIZE && |p.enqueue| <= CHANNEL_SIZE
  }

  lemma {:induction false} WithoutIgnoresLater<T>(s: seq<T>, dropped: set<nat>, i: nat)
    requires i >= |s|
    ensures Without(s, dropped + {i}) == Without(s, dropped)
  {
    if s != [] { WithoutIgnoresLater(s[..|s| - 1], dropped, i); }
  }

  lemma {:induction false} WithoutKeepsRest<T>(s: seq<T>, rest: seq<T>, dropped: set<nat>)
    requires forall i | i in dropped :: i < |s|
    ensures Without(s + rest, dropped) == Without(s, dropped) + rest
  {
    if rest == [] {
      assert s + rest == s;
    } else {
      var init, last := rest[..|rest| - 1], rest[|rest| - 1];
      assert (s + rest)[..|s + rest| - 1] == s + init;
      assert Without(s, dropped) + init + [last] == Without(s, dropped) + rest;
      WithoutKeepsRest(s, init, dropped);
    }
  }

  lemma WithoutKeepsLast<T>(s: seq<T>, m: T, dropped: set<nat>)
    ensures Without(s + [m], dropped) == Without(s, dropped) + if |s| in dropped then [] else [m]
  {
    assert (s + [m])[..|s|] == s;
  }

  lemma TakenGrows<T>(p: Pipe<T>, t: Pipe<T>)
    requires Conserved(p) && p.enqueue != [] && t.produced == p.produced && t.enqueue == p.enqueue[1..]
    ensures Taken(t) == Taken(p) + [p.enqueue[0]] && t.produced == Taken(t) + t.enqueue
  {
  }

  lemma TakeConserves<T>(p: Pipe<T>)
    requires Conserved(p) && p.enqueue != []
    ensures Conserved(Take(p))
  {
    var t := Take(p);
    var m := p.enqueue[0];
    TakenGrows(p, t);
    WithoutKeepsLast(Taken(p), m, t.dropped);
    if p.queue == [] || |p.queue| < MAX_QUEUE_SIZE {
      assert t.written + t.send + t.queue == (p.written + p.send + p.queue) + [m];
    } else {
      WithoutIgnoresLater(Taken(p), p.dropped, |Taken(p)|);
      assert Without(Taken(p), t.dropped) + [] == Without(Taken(p), t.dropped);
    }
  }

  lemma MoveHead<T>(a: seq<T>, b: seq<T>, c: seq<T>)
    requires b != []
    ensures a + b + c == (a + [b[0]]) + b[1..] + c
  {
  }

  lemma StepConserves<T>(p: Pipe<T>, e: Event<T>)
    requires Conserved(p) && Enabled(p, e)
    ensures Conserved(Apply(p, e))
    ensures Apply(p, e).dropped != p.dropped ==> e.PumpTakes? && |p.queue| == MAX_QUEUE_SIZE
  {
    match e
    case Enqueue(m) => assert Taken(Apply(p, e)) == Taken(p);
    case PumpTakes => TakeConserves(p);
    case PumpSends =>
      MoveHead(p.send, p.queue, []);
      assert p.written + (p.send + p.queue) == p.written + p.send + p.queue;
      assert p.written + (p.send + [p.queue[0]] + p.queue[1..]) == p.written + (p.send + [p.queue[0]]) + p.queue[1..];
      assert p.send + p.queue + [] == p.send + p.queue;
      assert p.send + [p.queue[0]] + p.queue[1..] + [] == p.send + [p.queue[0]] + p.queue[1..];
    case Write =>
      MoveHead(p.written, p.send, p.queue);
  }

  predicate IsRun<T>(p: Pipe<T>, events: seq<Event<T>>)
    decreases |events|
  {
    events == [] || (Enabled(p, events[0]) && IsRun(Apply(p, events[0]), events[1..]))
  }

  function After<T>(p: Pipe<T>, events: seq<Event<T>>): Pipe<T>
    requires IsRun(p, events)
    decreases |events|
  {
    if events == [] then p else After(Apply(p, events[0]), events[1..])
  }

  lemma {:induction false} RunConserves<T>(p: Pipe<T>, events: seq<Event<T>>)
    requires Conserved(p) && IsRun(p, events)
    ensures Conserved(After(p, events))
    decreases |events|
  {
    if events != [] {
      StepConserves(p, events[0]);
      RunConserves(Apply(p, events[0]), events[1..]);
    }
  }

  /**
   Conservation: whatever the interleaving, the messages written, on both channels and in the
   queue are the produced ones, in order, without those dropped; the queue never exceeds its cap.
   */
  lemma PipelineConserves<T>(p: Pipe<T>, events: seq<Event<T>>)
    requires p == Pipe([], [], [], [], [], {}) && IsRun(p, events)
    ensures var t := After(p, events); Flow(t) == Without(t.produced, t.dropped) && |t.queue| <= MAX_QUEUE_SIZE
  {
    RunConserves(p, events);
    var t := After(p, events);
    WithoutKeepsRest(Taken(t), t.enqueue, t.dropped);
    assert Flow(t) == (t.written + t.send + t.queue) + t.enqueue;
  }

  /** While the queue stays below the cap nothing is dropped: every message gets through in order. */
  lemma {:induction false} NothingDroppedBelowCap<T>(p: Pipe<T>, events: seq<Event<T>>)
    requires Conserved(p) && p.dropped == {} && IsRun(p, events)
    requires forall n :: 0 <= n <= |events| && IsRun(p, events[..n]) ==> |After(p, events[..n]).queue| < MAX_QUEUE_SIZE
    ensures After(p, events).dropped == {} && Flow(After(p, events)) == After(p, events).produced
    decreases |events|
  {
    if events == [] {
      assert events[..0] == [];
      WithoutKeepsRest(Taken(p), p.enqueue, {});
      WithoutNothing(p.produced);
      assert Flow(p) == (p.written + p.send + p.queue) + p.enqueue;
    } else {
      assert events[..0] == [];
      StepConserves(p, events[0]);
      var q := Apply(p, events[0]);
      forall n | 0 <= n <= |events[1..]| && IsRun(q, events[1..][..n])
        ensures |After(q, events[1..][..n]).queue| < MAX_QUEUE_SIZE
      {
        assert events[..n + 1][1..] == events[1..][..n] && events[..n + 1][0] == events[0];
        assert IsRun(p, events[..n + 1]) && After(p, events[..n + 1]) == After(q, events[1..][..n]);
      }
      NothingDroppedBelowCap(q, events[1..]);
    }
  }

  lemma {:induction false} WithoutNothing<T>(s: seq<T>)
    ensures Without(s, {}) == s
  {
    if s != [] { WithoutNothing(s[..|s| - 1]); }
  }

  /** The connection's channels and queue, updated in place by three goroutines. */
  class Client<T> {
    var enqueue: seq<T>
    var queue: seq<T>
    var send: seq<T>
    var written: seq<T>
    ghost var produced: seq<T>
    ghost var dropped: set<nat>

    ghost function Model(): Pipe<T>
      reads this
    {
      Pipe(enqueue, queue, send, written, produced, dropped)
    }

    constructor ()
      ensures Model() == Pipe([], [], [], [], [], {}) && Conserved(Model())
    {
      enqueue, queue, send, written := [], [], [], [];
      produced, dropped := [], {};
    }

    method Enqueue(msg: T)
      requires Conserved(Model()) && Enabled(Model(), Event.Enqueue(msg))
      modifies this
      ensures Conserved(Model()) && Model() == Apply(old(Model()), Event.Enqueue(msg))
    {
      StepConserves(Model(), Event.Enqueue(msg));
      enqueue := enqueue + [msg];
      produced := produced + [msg];
    }

    /** One round of QueuePump; `sendFirst` is the scheduler's choice when both cases are ready. */
    method PumpOnce(sendFirst: bool) returns (done: bool)
      requires Conserved(Model())
      modifies this
      ensures Conserved(Model())
      ensures done <==> old(Enabled(Model(), PumpTakes) || Enabled(Model(), PumpSends))
      ensures !done ==> Model() == old(Model())
      ensures done ==>
                Model() == Apply(old(Model()), if old(Enabled(Model(), PumpSends)) && (sendFirst || !old(Enabled(Model(), PumpTakes)))
                                               then PumpSends else PumpTakes)
    {
      var canSend := |queue| > 0 && |send| < CHANNEL_SIZE;
      var canTake := |enqueue| > 0;
      done := canSend || canTake;
      if canSend && (sendFirst || !canTake) {
        SendHead();
      } else if canTake {
        TakeNext();
      }
    }

    method SendHead()
      requires Conserved(Model()) && Enabled(Model(), PumpSends)
      modifies this
      ensures Conserved(Model()) && Model() == Apply(old(Model()), PumpSends)
    {
      StepConserves(Model(), PumpSends);
      send := send + [queue[0]];
      queue := queue[1..];
    }

    method TakeNext()
      requires Conserved(Model()) && Enabled(Model(), PumpTakes)
      modifies this
      ensures Conserved(Model()) && Model() == Apply(old(Model()), PumpTakes)
    {
      StepConserves(Model(), PumpTakes);
      var msg := enqueue[0];
      if |queue| == 0 || |queue| < MAX_QUEUE_SIZE {
        queue := queue + [msg];
      } else {
        dropped := dropped + {|produced| - |enqueue|};
      }
      enqueue := enqueue[1..];
    }

    method WriteOne()
      requires Conserved(Model()) && Enabled(Model(), Write)
      modifies this
      ensures Conserved(Model()) && Model() == Apply(old(Model()), Write)
    {
      StepConserves(Model(), Write);
      written := written + [send[0]];
      send := send[1..];
    }
  }
}
