/**
 What compaction can lose. The log keeps one snapshot, so an acknowledged edit stays in it exactly
 as long as every push contains the snapshot that was newest when it was stored.
 */
module SyncCompaction {
  import opened Wrappers
  import opened DocumentLog
  import opened SyncProtocol
  import opened SyncInvariant
  import opened SyncGuarantees
  import opened SyncReconverge

  /** The newest snapshot holds every snapshot stored so far. */
  ghost predicate Complete(s: State) {
    forall i :: 0 <= i < |s.history| ==> s.history[i].snap <= s.history[|s.history| - 1].snap
  }

  /** The push that waits for the handler of `c` contains the newest snapshot. */
  predicate PushHasNewest(s: State, c: ConnId)
    requires Waiting(s, c) && s.conns[c].inbox[0].Push?
  {
    s.history == [] || s.history[|s.history| - 1].snap <= s.conns[c].inbox[0].snap
  }

  /** Storing a push keeps the newest snapshot complete if and only if the push has the newest one. */
  lemma StoreKeepsCompleteIff(s: State, c: ConnId)
    requires Complete(s) && Waiting(s, c) && s.conns[c].inbox[0].Push?
    ensures Complete(OnStorePush(s, c)) <==> PushHasNewest(s, c)
  {
    var t := OnStorePush(s, c);
    var n := |s.history|;
    NewRowOf(s, c);
    assert t.history[n].snap == s.conns[c].inbox[0].snap;
    if Complete(t) && n > 0 {
      assert t.history[n - 1].snap <= t.history[n].snap;
    }
    if PushHasNewest(s, c) {
      forall i | 0 <= i < |t.history| ensures t.history[i].snap <= t.history[n].snap {
        if i < n { assert t.history[i].snap == s.history[i].snap; }
      }
    }
  }

  ghost predicate CompleteThroughout(s: State, events: seq<Event>)
    requires IsRun(s, events)
    decreases |events|
  {
    Complete(s) && (events != [] ==> CompleteThroughout(Apply(s, events[0]), events[1..]))
  }

  /** Every push of the run contains the snapshot that is newest when it is stored. */
  ghost predicate PushesHaveNewest(s: State, events: seq<Event>)
    requires IsRun(s, events)
    decreases |events|
  {
    events == [] ||
      ((events[0].StorePush? ==> PushHasNewest(s, events[0].conn)) && PushesHaveNewest(Apply(s, events[0]), events[1..]))
  }

  lemma OtherStepKeepsComplete(s: State, e: Event)
    requires Complete(s) && Enabled(s, e) && !e.StorePush?
    ensures Complete(Apply(s, e))
  {
    StepGrows(s, e);
  }

  lemma {:induction false} RunKeepsCompleteIff(s: State, events: seq<Event>)
    requires Complete(s) && IsRun(s, events)
    ensures CompleteThroughout(s, events) <==> PushesHaveNewest(s, events)
    decreases |events|
  {
    if events != [] {
      var e := events[0];
      if e.StorePush? {
        StoreKeepsCompleteIff(s, e.conn);
      } else {
        OtherStepKeepsComplete(s, e);
      }
      if Complete(Apply(s, e)) {
        RunKeepsCompleteIff(Apply(s, e), events[1..]);
      }
    }
  }

  /** Over every run from the start, no stored edit is ever missing from the newest snapshot iff every push had it. */
  lemma NewestIsCompleteIff(s: State, events: seq<Event>)
    requires Init(s) && IsRun(s, events)
    ensures CompleteThroughout(s, events) <==> PushesHaveNewest(s, events)
  {
    RunKeepsCompleteIff(s, events);
  }

  /** Every edit that was ever stored is in some row of the log. */
  ghost predicate LogHoldsAll(s: State) {
    forall i, x :: 0 <= i < |s.history| && x in s.history[i].snap ==> exists r :: r in s.log && x in r.snap
  }

  /** Once every push has compacted, the log still has all stored edits iff its one row is complete. */
  lemma CompactedLogHoldsAllIff(s: State, events: seq<Event>)
    requires Init(s) && IsRun(s, events)
    requires forall e | e in events :: !e.CompactFails?
    requires forall c | c in After(s, events).conns :: !After(s, events).conns[c].handler.Stored?
    ensures LogHoldsAll(After(s, events)) <==> Complete(After(s, events))
  {
    CompactedLogIsNewestRow(s, events);
    var t := After(s, events);
    if t.history != [] {
      var newest := t.history[|t.history| - 1];
      assert t.log == [newest] && newest in t.log;
      if LogHoldsAll(t) {
        forall i, x | 0 <= i < |t.history| && x in t.history[i].snap ensures x in newest.snap {
          var r :| r in t.log && x in r.snap;
        }
      }
    }
  }

  /**
   The guard on the device: its snapshot has the newest one, when no push is stored in between, if
   and only if the newest one was merged when it was taken. Having recorded the newest number is
   enough for that.
   */
  lemma PushHasNewestIff(s: State, d: DeviceId, events: seq<Event>, c: ConnId)
    requires Reachable(s) && d in s.replicas && IsRun(s, events) && NoStore(events)
    requires Waiting(After(s, events), c) && After(s, events).conns[c].inbox[0] == Push(s.replicas[d].doc)
    ensures PushHasNewest(After(s, events), c) <==> Covers(s.history, s.replicas[d].doc, |s.history|)
    ensures s.replicas[d].lastSeq == |s.history| ==> PushHasNewest(After(s, events), c)
  {
    RunWithoutStore(s, events);
    SnapshotHasNewestIff(After(s, events), c, s.history, s.replicas[d].doc);
    RecordedSeqIsCovered(s, d, SeqRead(0, false));
  }

  lemma SnapshotHasNewestIff(t: State, c: ConnId, history: Log, doc: set<Change>)
    requires t.history == history && Waiting(t, c) && t.conns[c].inbox[0] == Push(doc)
    ensures PushHasNewest(t, c) <==> Covers(history, doc, |history|)
  {
  }

  // ---- a run that loses an acknowledged edit

  lemma RunExtends(s: State, events: seq<Event>, e: Event)
    requires IsRun(s, events) && Enabled(After(s, events), e)
    ensures IsRun(s, events + [e]) && After(s, events + [e]) == Apply(After(s, events), e)
  {
    RunSplits(s, events, [e]);
  }

  lemma RunOne(s: State, e: Event)
    requires Enabled(s, e)
    ensures IsRun(s, [e]) && After(s, [e]) == Apply(s, e)
  {
    assert [e][1..] == [];
  }

  function LoneReplica(change: Change, drafts: multiset<set<Change>>, seqWrites: multiset<nat>, link: Option<ConnId>): Replica {
    Replica({change}, 0, None, multiset{}, seqWrites, drafts, link)
  }

  function LoneConn(device: DeviceId, inbox: seq<Request>, handler: Handler, outbox: seq<Reply>): Conn {
    Conn(device, true, inbox, handler, outbox)
  }

  /** A device with one offline edit connects and pushes it. */
  lemma ConnectAndPush(s: State, d: DeviceId, c: ConnId, x: Change)
    requires d in s.replicas && s.replicas[d] == LoneReplica(x, multiset{}, multiset{}, None) && c !in s.conns
    ensures var events := [Connect(d, c)] + [TakeSnapshot(d)] + [SendPush(d, {x})];
            IsRun(s, events) &&
            After(s, events) == s.(conns := s.conns[c := LoneConn(d, [Push({x})], Idle, [])],
                                   replicas := s.replicas[d := LoneReplica(x, multiset{}, multiset{}, Some(c))])
  {
    var e := [Connect(d, c)];
    RunOne(s, Connect(d, c));
    RunExtends(s, e, TakeSnapshot(d));
    var t := After(s, e + [TakeSnapshot(d)]);
    assert t.replicas[d] == LoneReplica(x, multiset{{x}}, multiset{}, Some(c));
    assert t.conns == s.conns[c := LoneConn(d, [], Idle, [])];
    RunExtends(s, e + [TakeSnapshot(d)], SendPush(d, {x}));
    var u := Apply(t, SendPush(d, {x}));
    assert u.replicas[d] == LoneReplica(x, multiset{}, multiset{}, Some(c));
    assert u.replicas == s.replicas[d := LoneReplica(x, multiset{}, multiset{}, Some(c))];
    var inbox: seq<Request> := [Push({x})];
    assert [] + inbox == inbox;
    assert u.conns == s.conns[c := LoneConn(d, [Push({x})], Idle, [])];
  }

  lemma StoreAndCompact(s: State, c: ConnId, d: DeviceId, snap: set<Change>)
    requires c in s.conns && s.conns[c] == LoneConn(d, [Push(snap)], Idle, [])
    ensures var row := NewRow(s.log, d, snap);
            IsRun(s, [StorePush(c)] + [CompactLog(c)]) &&
            After(s, [StorePush(c)] + [CompactLog(c)]) ==
              s.(log := Compact(Store(s.log, d, snap)), history := s.history + [row],
                 conns := s.conns[c := LoneConn(d, [], Compacted(row), [])])
  {
    RunOne(s, StorePush(c));
    PushIsStored(s, c, d, snap);
    RunExtends(s, [StorePush(c)], CompactLog(c));
  }

  lemma PushIsStored(s: State, c: ConnId, d: DeviceId, snap: set<Change>)
    requires c in s.conns && s.conns[c] == LoneConn(d, [Push(snap)], Idle, [])
    ensures var row := NewRow(s.log, d, snap);
      OnStorePush(s, c) == s.(log := Store(s.log, d, snap), history := s.history + [row],
                              conns := s.conns[c := LoneConn(d, [], Stored(row), [])])
  {
    assert [Push(snap)][1..] == [];
  }

  lemma AckIsQueued(s: State, c: ConnId, d: DeviceId, row: Row)
    requires c in s.conns && s.conns[c] == LoneConn(d, [], Compacted(row), [])
    ensures OnAckPush(s, c) == s.(conns := s.conns[c := LoneConn(d, [], Acked(row), [Ack(row.seqNo)])])
  {
    var none: seq<Reply> := [];
    assert none + [Ack(row.seqNo)] == [Ack(row.seqNo)];
  }

  lemma AckIsDelivered(s: State, c: ConnId, d: DeviceId, row: Row)
    requires c in s.conns && s.conns[c] == LoneConn(d, [], Acked(row), [Ack(row.seqNo)]) && d in s.replicas
    ensures OnDeliver(s, c) == s.(conns := s.conns[c := LoneConn(d, [], Acked(row), [])],
                                  replicas := s.replicas[d := Handle(s.replicas[d], Ack(row.seqNo))])
  {
    assert [Ack(row.seqNo)][1..] == [];
  }

  lemma AckAndDeliver(s: State, c: ConnId, d: DeviceId, row: Row)
    requires c in s.conns && s.conns[c] == LoneConn(d, [], Compacted(row), []) && d in s.replicas
    ensures IsRun(s, [AckPush(c)] + [Deliver(c)])
    ensures After(s, [AckPush(c)] + [Deliver(c)]) ==
              s.(conns := s.conns[c := LoneConn(d, [], Acked(row), [])],
                 replicas := s.replicas[d := Handle(s.replicas[d], Ack(row.seqNo))])
  {
    RunOne(s, AckPush(c));
    AckIsQueued(s, c, d, row);
    RunExtends(s, [AckPush(c)], Deliver(c));
    AckIsDelivered(Apply(s, AckPush(c)), c, d, row);
    assert s.conns[c := LoneConn(d, [], Acked(row), [Ack(row.seqNo)])][c := LoneConn(d, [], Acked(row), [])]
        == s.conns[c := LoneConn(d, [], Acked(row), [])];
  }

  /** Two devices, each with an offline edit. */
  function TwoDevices(): State {
    State([], [], {}, map[], map[1 := LoneReplica(10, multiset{}, multiset{}, None), 2 := LoneReplica(20, multiset{}, multiset{}, None)])
  }

  /** Both connect and send their push. */
  lemma BothPush() returns (events: seq<Event>, t: State)
    ensures IsRun(TwoDevices(), events) && After(TwoDevices(), events) == t
    ensures t == TwoDevices().(conns := map[1 := LoneConn(1, [Push({10})], Idle, []), 2 := LoneConn(2, [Push({20})], Idle, [])],
                               replicas := map[1 := LoneReplica(10, multiset{}, multiset{}, Some(1)),
                                               2 := LoneReplica(20, multiset{}, multiset{}, Some(2))])
  {
    var s := TwoDevices();
    ConnectAndPush(s, 1, 1, 10);
    var first := [Connect(1, 1)] + [TakeSnapshot(1)] + [SendPush(1, {10})];
    var s1 := After(s, first);
    ConnectAndPush(s1, 2, 2, 20);
    var second := [Connect(2, 2)] + [TakeSnapshot(2)] + [SendPush(2, {20})];
    RunSplits(s, first, second);
    events, t := first + second, After(s1, second);
    assert t.conns == map[1 := LoneConn(1, [Push({10})], Idle, []), 2 := LoneConn(2, [Push({20})], Idle, [])];
    assert t.replicas == map[1 := LoneReplica(10, multiset{}, multiset{}, Some(1)), 2 := LoneReplica(20, multiset{}, multiset{}, Some(2))];
  }

  /** The first push is stored, compacted and acknowledged. */
  lemma FirstIsAcked(s: State) returns (events: seq<Event>, t: State)
    requires s.log == [] && s.history == [] && 1 in s.conns && s.conns[1] == LoneConn(1, [Push({10})], Idle, [])
    requires 1 in s.replicas && 2 in s.conns
    ensures IsRun(s, events) && After(s, events) == t
    ensures t.log == t.history == [Row(1, 1, {10})] && 2 in t.conns && t.conns[2] == s.conns[2]
    ensures 1 in t.replicas && t.replicas[1] == Handle(s.replicas[1], Ack(1))
  {
    StoreAndCompact(s, 1, 1, {10});
    OneRow(1, {10});
    var first := [StorePush(1)] + [CompactLog(1)];
    var u := After(s, first);
    AckAndDeliver(u, 1, 1, Row(1, 1, {10}));
    var second := [AckPush(1)] + [Deliver(1)];
    RunSplits(s, first, second);
    events, t := first + second, After(u, second);
  }

  /** The second push replaces the first in the log. */
  lemma SecondIsStored(s: State) returns (events: seq<Event>, t: State)
    requires s.log == s.history == [Row(1, 1, {10})] && 2 in s.conns && s.conns[2] == LoneConn(2, [Push({20})], Idle, [])
    ensures IsRun(s, events) && After(s, events) == t && t.replicas == s.replicas
    ensures t.history == [Row(1, 1, {10}), Row(2, 2, {20})] && t.log == [Row(2, 2, {20})]
  {
    StoreAndCompact(s, 2, 2, {20});
    TwoRows(Row(1, 1, {10}), 2, {20});
    events := [StorePush(2)] + [CompactLog(2)];
    t := After(s, events);
  }

  lemma Joined(s: State, first: seq<Event>, t: State, second: seq<Event>, u: State)
    requires IsRun(s, first) && After(s, first) == t && IsRun(t, second) && After(t, second) == u
    ensures IsRun(s, first + second) && After(s, first + second) == u
  {
    RunSplits(s, first, second);
  }

  /** The first edit is stored and acknowledged, yet the compacted log ends up without it. */
  lemma AckedEditCanLeaveLog() returns (s: State, events: seq<Event>)
    ensures Init(s) && IsRun(s, events)
    ensures var t := After(s, events);
            1 in t.replicas && t.replicas[1].seqWrites == multiset{1} &&
            t.history == [Row(1, 1, {10}), Row(2, 2, {20})] && t.log == [Row(2, 2, {20})]
  {
    s := TwoDevices();
    var first, s1 := BothPush();
    var second, s2 := FirstIsAcked(s1);
    var third, s3 := SecondIsStored(s2);
    Joined(s, first, s1, second, s2);
    Joined(s, first + second, s2, third, s3);
    events := first + second + third;
  }

  lemma OneRow(d: DeviceId, snap: set<Change>)
    ensures NewRow([], d, snap) == Row(1, d, snap) && Compact(Store([], d, snap)) == [Row(1, d, snap)]
  {
    StoreKeepsLog([], [], d, snap);
    CompactKeepsLog(Store([], d, snap), [Row(1, d, snap)]);
  }

  lemma TwoRows(first: Row, d: DeviceId, snap: set<Change>)
    requires first.seqNo == 1
    ensures NewRow([first], d, snap) == Row(2, d, snap) && Compact(Store([first], d, snap)) == [Row(2, d, snap)]
  {
    StoreKeepsLog([first], [first], d, snap);
    CompactKeepsLog(Store([first], d, snap), [first, Row(2, d, snap)]);
  }
}
