/** A run, from the start, in which a late caught_up makes a device record an unmerged number. */
module SyncStale {
  import opened Wrappers
  import opened DocumentLog
  import opened SyncProtocol
  import opened SyncInvariant
  import opened SyncCompaction
  import opened SyncReopen

  /** Device 2 has pushed its edit, and device 1 has not connected yet. */
  lemma SecondPushes() returns (events: seq<Event>, t: State)
    ensures IsRun(TwoDevices(), events) && After(TwoDevices(), events) == t
    ensures t.log == t.history == [Row(1, 2, {20})] && 1 !in t.conns
    ensures 1 in t.replicas && t.replicas[1] == LoneReplica(10, multiset{}, multiset{}, None)
  {
    var s := TwoDevices();
    ConnectAndPush(s, 2, 2, 20);
    var first := [Connect(2, 2)] + [TakeSnapshot(2)] + [SendPush(2, {20})];
    var u := After(s, first);
    RunOne(u, StorePush(2));
    OneRow(2, {20});
    Joined(s, first, u, [StorePush(2)], OnStorePush(u, 2));
    events, t := first + [StorePush(2)], OnStorePush(u, 2);
  }

  /** The replica of device 1, connected, with number 0 in the sync client. */
  function Subscriber(): Replica {
    LoneReplica(10, multiset{}, multiset{}, Some(1)).(memSeq := Some(0))
  }

  /** Device 1 connects and sends its subscribe request. */
  lemma FirstAsks(s: State) returns (events: seq<Event>, t: State)
    requires 1 !in s.conns && 1 in s.replicas && s.replicas[1] == LoneReplica(10, multiset{}, multiset{}, None)
    ensures IsRun(s, events) && After(s, events) == t
    ensures t == s.(conns := s.conns[1 := LoneConn(1, [Subscribe(0)], Idle, [])], replicas := s.replicas[1 := Subscriber()])
  {
    var u := OnConnect(s, 1, 1);
    RunOne(s, Connect(1, 1));
    var lookup := SeqRead(0, false);
    RunExtends(s, [Connect(1, 1)], ReadSeq(1, false));
    var v := OnReadSeq(u, 1, false);
    assert v.replicas[1].lookups == multiset{lookup};
    events := [Connect(1, 1)] + [ReadSeq(1, false)];
    RunExtends(s, events, SendSubscribe(1, lookup));
    t := OnSubscribe(v, 1, lookup);
    assert Subscribing(v.replicas[1], lookup) == Subscriber();
    var inbox: seq<Request> := [Subscribe(0)];
    assert [] + inbox == inbox;
    events := events + [SendSubscribe(1, lookup)];
    assert t.conns == s.conns[1 := LoneConn(1, [Subscribe(0)], Idle, [])];
    assert t.replicas == s.replicas[1 := Subscriber()];
  }

  /** The server replays the snapshot and reports it caught up. */
  lemma ServerReplays(s: State) returns (events: seq<Event>, t: State)
    requires s.log == [Row(1, 2, {20})] && 1 in s.conns && s.conns[1] == LoneConn(1, [Subscribe(0)], Idle, [])
    ensures IsRun(s, events) && After(s, events) == t && t.history == s.history && t.replicas == s.replicas
    ensures 1 in t.conns && t.conns[1] == LoneConn(1, [], Idle, [Sync(1, {20}), CaughtUp(1)])
  {
    RunOne(s, Register(1));
    var u := OnRegister(s, 1);
    assert u.conns[1] == LoneConn(1, [], Registered(0), []);
    RunExtends(s, [Register(1)], ReadHistory(1));
    AllRowsRead(Row(1, 2, {20}));
    var v := OnReadHistory(u, 1);
    assert v.conns[1] == LoneConn(1, [], Replaying([Row(1, 2, {20})], 1), []);
    events := [Register(1)] + [ReadHistory(1)];
    RunExtends(s, events, ReplayNext(1));
    var w := OnReplayNext(v, 1);
    var none: seq<Reply> := [];
    assert [Row(1, 2, {20})][1..] == [] && none + [Sync(1, {20})] == [Sync(1, {20})];
    assert w.conns[1] == LoneConn(1, [], Replaying([], 1), [Sync(1, {20})]);
    events := events + [ReplayNext(1)];
    RunExtends(s, events, ReplayDone(1));
    t := Apply(w, ReplayDone(1));
    events := events + [ReplayDone(1)];
  }

  lemma AllRowsRead(row: Row)
    requires row.seqNo == 1
    ensures Since([row], 0) == [row] && LatestOf([row], 0) == 1
  {
    var none: Log := [];
    assert [row][..0] == none && AtLeast(none, 1) == none && none + [row] == [row];
  }

  /** The replay for device 1 is under way. */
  lemma ReplayUnderWay() returns (events: seq<Event>, t: State)
    ensures IsRun(TwoDevices(), events) && After(TwoDevices(), events) == t && t.history == [Row(1, 2, {20})]
    ensures 1 in t.conns && t.conns[1] == LoneConn(1, [], Idle, [Sync(1, {20}), CaughtUp(1)])
    ensures 1 in t.replicas && t.replicas[1] == Subscriber()
  {
    var s := TwoDevices();
    var first, s1 := SecondPushes();
    var second, s2 := FirstAsks(s1);
    var third, s3 := ServerReplays(s2);
    Joined(s, first, s1, second, s2);
    Joined(s, first + second, s2, third, s3);
    events, t := first + second + third, s3;
  }

  // ---- from the protocol to its extension

  function Lifted(events: seq<Event>): seq<Step> {
    if events == [] then [] else [Base(events[0])] + Lifted(events[1..])
  }

  lemma {:induction false} LiftedRun(s: State, events: seq<Event>)
    requires IsRun(s, events)
    ensures IsSteps(Ext(s, {}, multiset{}), Lifted(events))
    ensures End(Ext(s, {}, multiset{}), Lifted(events)) == Ext(After(s, events), {}, multiset{})
    decreases |events|
  {
    if events != [] {
      LiftedRun(Apply(s, events[0]), events[1..]);
      assert Do(Ext(s, {}, multiset{}), Base(events[0])) == Ext(Apply(s, events[0]), {}, multiset{});
      StepFirst(Ext(s, {}, multiset{}), Base(events[0]), Lifted(events[1..]));
    }
  }

  /** The document is closed before the replay arrives, and open again when its end arrives. */
  lemma SwitchesAway(x: Ext) returns (steps: seq<Step>, y: Ext)
    requires x.closed == {} && 1 in x.base.conns && x.base.conns[1] == LoneConn(1, [], Idle, [Sync(1, {20}), CaughtUp(1)])
    requires 1 in x.base.replicas && x.base.replicas[1] == Subscriber()
    ensures IsSteps(x, steps) && End(x, steps) == y && y.base.history == x.base.history
    ensures 1 in y.base.replicas && y.base.replicas[1].doc == {10} && y.base.replicas[1].lastSeq == 1 && y.closed == {}
  {
    var x1 := OnUnsubscribe(x, 1);
    var x2 := x1.(closed := {1});
    assert x1.closed + {1} == {1};
    var x3 := x2.(base := OnIgnore(x2.base, 1));
    assert x3.base.conns[1].outbox == [CaughtUp(1)] && x3.base.replicas[1].doc == {10};
    var x4 := x3.(closed := {});
    assert x3.closed - {1} == {};
    y := x4.(base := OnDeliver(x4.base, 1));
    StepFirst(x4, Base(Deliver(1)), []);
    StepFirst(x3, Reopen(1), [Base(Deliver(1))] + []);
    StepFirst(x2, Ignore(1), [Reopen(1)] + ([Base(Deliver(1))] + []));
    StepFirst(x1, Close(1), [Ignore(1)] + ([Reopen(1)] + ([Base(Deliver(1))] + [])));
    steps := [Close(1)] + ([Ignore(1)] + ([Reopen(1)] + ([Base(Deliver(1))] + [])));
    StepFirst(x, Unsubscribe(1), steps);
    steps := [Unsubscribe(1)] + steps;
  }

  /**
   Device 1 asks for the history, switches away and back, and handles the end of the replay it has
   ignored: it records number 1 although it never merged snapshot 1.
   */
  lemma StaleCaughtUpRecordsUnmerged() returns (x: Ext, steps: seq<Step>)
    ensures Start(x) && IsSteps(x, steps)
    ensures var y := End(x, steps);
      1 in y.base.replicas && 1 !in y.closed && y.base.history == [Row(1, 2, {20})]
      && y.base.replicas[1].lastSeq == 1 && y.base.replicas[1].doc == {10} && !NumbersCovered(y, 1)
  {
    var events, t := ReplayUnderWay();
    x := Ext(TwoDevices(), {}, multiset{});
    LiftedRun(TwoDevices(), events);
    var last, y := SwitchesAway(Ext(t, {}, multiset{}));
    StepsJoin(x, Lifted(events), last);
    steps := Lifted(events) + last;
    StaleNumber(y);
  }

  lemma StaleNumber(y: Ext)
    requires 1 in y.base.replicas && y.base.history == [Row(1, 2, {20})]
    requires y.base.replicas[1].lastSeq == 1 && y.base.replicas[1].doc == {10}
    ensures !NumbersCovered(y, 1)
  {
    assert 20 in y.base.history[0].snap;
  }
}
