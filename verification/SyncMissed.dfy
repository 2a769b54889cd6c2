/**
 A run, from the start, in which a failing relay leaves a subscribed, connected device without a
 stored and acknowledged snapshot, with nothing under way that would bring it.
 */
module SyncMissed {
  import opened Wrappers
  import opened DocumentLog
  import opened SyncProtocol
  import opened SyncInvariant
  import opened SyncGuarantees
  import opened SyncCompaction
  import opened SyncStale

  /** Device 1 is caught up with the empty log. */
  function Listening(): State {
    TwoDevices().(hub := {1}, conns := map[1 := LoneConn(1, [], Idle, [])], replicas := TwoDevices().replicas[1 := Subscriber()])
  }

  /** The server registers the subscriber, reads an empty history and says so. */
  lemma ServesEmptyLog(s: State)
    requires s.log == [] && s.hub == {} && s.conns == map[1 := LoneConn(1, [Subscribe(0)], Idle, [])]
    ensures var events := [Register(1)] + [ReadHistory(1)] + [ReplayDone(1)];
      IsRun(s, events) &&
      After(s, events) == s.(hub := {1}, conns := map[1 := LoneConn(1, [], Idle, [CaughtUp(0)])])
  {
    RunOne(s, Register(1));
    var u := OnRegister(s, 1);
    assert u.conns[1] == LoneConn(1, [], Registered(0), []);
    RunExtends(s, [Register(1)], ReadHistory(1));
    NothingRead();
    var v := OnReadHistory(u, 1);
    assert v.conns[1] == LoneConn(1, [], Replaying([], 0), []);
    RunExtends(s, [Register(1)] + [ReadHistory(1)], ReplayDone(1));
    var none: seq<Reply> := [];
    assert none + [CaughtUp(0)] == [CaughtUp(0)];
    assert Apply(v, ReplayDone(1)).conns == map[1 := LoneConn(1, [], Idle, [CaughtUp(0)])];
    assert {} + {1} == {1};
  }

  lemma NothingRead()
    ensures Since([], 0) == [] && LatestOf([], 0) == 0
  {
  }

  lemma Listens() returns (events: seq<Event>)
    ensures IsRun(TwoDevices(), events) && After(TwoDevices(), events) == Listening()
  {
    var s := TwoDevices();
    var first, s1 := FirstAsks(s);
    ServesEmptyLog(s1);
    var second := [Register(1)] + [ReadHistory(1)] + [ReplayDone(1)];
    var s2 := After(s1, second);
    Joined(s, first, s1, second, s2);
    RunExtends(s, first + second, Deliver(1));
    assert [CaughtUp(0)][1..] == [];
    assert OnDeliver(s2, 1).conns == map[1 := LoneConn(1, [], Idle, [])];
    assert OnDeliver(s2, 1).replicas == s.replicas[1 := Subscriber()];
    events := first + second + [Deliver(1)];
  }

  /** The state once device 2 has pushed and its push is acknowledged. */
  function Acknowledged(handler: Handler): State {
    Listening().(log := [Row(1, 2, {20})], history := [Row(1, 2, {20})],
                 conns := map[1 := LoneConn(1, [], Idle, []), 2 := LoneConn(2, [], handler, [Ack(1)])],
                 replicas := Listening().replicas[2 := LoneReplica(20, multiset{}, multiset{}, Some(2))])
  }

  /** Device 2 has connected and sent its push. */
  function Pushed(): State {
    Listening().(conns := map[1 := LoneConn(1, [], Idle, []), 2 := LoneConn(2, [Push({20})], Idle, [])],
                 replicas := Listening().replicas[2 := LoneReplica(20, multiset{}, multiset{}, Some(2))])
  }

  lemma PushIsSent() returns (events: seq<Event>)
    ensures IsRun(Listening(), events) && After(Listening(), events) == Pushed()
  {
    ConnectAndPush(Listening(), 2, 2, 20);
    events := [Connect(2, 2)] + [TakeSnapshot(2)] + [SendPush(2, {20})];
    assert Listening().conns[2 := LoneConn(2, [Push({20})], Idle, [])] == Pushed().conns;
  }

  function Compacting(): State {
    Acknowledged(Idle).(conns := map[1 := LoneConn(1, [], Idle, []), 2 := LoneConn(2, [], Compacted(Row(1, 2, {20})), [])])
  }

  lemma PushIsStored()
    ensures IsRun(Pushed(), [StorePush(2)] + [CompactLog(2)])
    ensures After(Pushed(), [StorePush(2)] + [CompactLog(2)]) == Compacting()
  {
    StoreAndCompact(Pushed(), 2, 2, {20});
    OneRow(2, {20});
    var none: Log := [];
    assert none + [Row(1, 2, {20})] == [Row(1, 2, {20})];
    assert Pushed().conns[2 := LoneConn(2, [], Compacted(Row(1, 2, {20})), [])] == Compacting().conns;
  }

  lemma PushIsAcknowledged() returns (events: seq<Event>)
    ensures IsRun(Listening(), events) && After(Listening(), events) == Acknowledged(Acked(Row(1, 2, {20})))
  {
    var first := PushIsSent();
    var second := [StorePush(2)] + [CompactLog(2)];
    PushIsStored();
    Joined(Listening(), first, Pushed(), second, Compacting());
    RunExtends(Listening(), first + second, AckPush(2));
    AckIsQueued(Compacting(), 2, 2, Row(1, 2, {20}));
    events := first + second + [AckPush(2)];
    assert OnAckPush(Compacting(), 2).conns == Acknowledged(Acked(Row(1, 2, {20}))).conns;
  }

  /** The lookup of the members fails, or the relay panics before it gets to device 1. */
  function FailingRelay(panics: bool): seq<Event> {
    if panics then [StartRelay(2)] + [RelayPanics(2)] else [RelayFails(2)] + [EndRelay(2)]
  }

  lemma RelayIsLost(panics: bool)
    ensures var s := Acknowledged(Acked(Row(1, 2, {20})));
      IsRun(s, FailingRelay(panics)) &&
      After(s, FailingRelay(panics)) == Acknowledged(if panics then Panicked else Idle)
  {
    var s := Acknowledged(Acked(Row(1, 2, {20})));
    var first := if panics then StartRelay(2) else RelayFails(2);
    var second := if panics then RelayPanics(2) else EndRelay(2);
    HandlerMoves(Acked(Row(1, 2, {20})), first);
    var targets := if panics then Targets(s, 2) else {};
    HandlerMoves(Relaying(Row(1, 2, {20}), targets), second);
    RunOne(s, first);
    RunExtends(s, [first], second);
  }

  /** These events only change the handler of connection 2. */
  lemma HandlerMoves(handler: Handler, e: Event)
    requires Enabled(Acknowledged(handler), e) && (e.StartRelay? || e.RelayFails? || e.RelayPanics? || e.EndRelay?) && e.conn == 2
    ensures Apply(Acknowledged(handler), e) ==
      Acknowledged(if e.StartRelay? then Relaying(handler.row, Targets(Acknowledged(handler), 2))
                   else if e.RelayFails? then Relaying(handler.row, {})
                   else if e.RelayPanics? then Panicked else Idle)
  {
    var s := Acknowledged(handler);
    assert Apply(s, e).conns == map[1 := LoneConn(1, [], Idle, []), 2 := s.conns[2].(handler := Apply(s, e).conns[2].handler)];
  }

  lemma RelayFailsFromStart(panics: bool) returns (events: seq<Event>)
    ensures IsRun(TwoDevices(), events) && After(TwoDevices(), events) == Acknowledged(if panics then Panicked else Idle)
  {
    var s := TwoDevices();
    var acked, last := Acknowledged(Acked(Row(1, 2, {20}))), Acknowledged(if panics then Panicked else Idle);
    var first := Listens();
    var second := PushIsAcknowledged();
    Joined(s, first, Listening(), second, acked);
    RelayIsLost(panics);
    Joined(s, first + second, acked, FailingRelay(panics), last);
    events := first + second + FailingRelay(panics);
  }

  /** Device 1 misses the stored row, with its queue empty and its handler idle. */
  ghost predicate Misses(t: State) {
    && t.history == [Row(1, 2, {20})] && Subscribed(t, 1)
    && t.conns[1].outbox == [] && t.conns[1].inbox == [] && t.conns[1].handler.Idle?
    && 1 in t.replicas && t.replicas[1].doc == {10} && !Reaches(t, 1, 1)
  }

  /**
   Device 1 is subscribed and connected, its queue is empty and its handler idle, but the stored,
   acknowledged edit of device 2 is neither in its document nor on its way.
   */
  lemma RelayCanMiss(panics: bool) returns (s: State, events: seq<Event>)
    ensures Init(s) && IsRun(s, events) && Misses(After(s, events))
  {
    s := TwoDevices();
    events := RelayFailsFromStart(panics);
    NotOnItsWay(if panics then Panicked else Idle);
  }

  lemma NotOnItsWay(handler: Handler)
    requires handler.Panicked? || handler.Idle?
    ensures Misses(Acknowledged(handler))
  {
    var t := Acknowledged(handler);
    assert 20 in t.history[0].snap && 20 !in t.replicas[1].doc;
    assert !Held(t, 1, 1);
  }
}
