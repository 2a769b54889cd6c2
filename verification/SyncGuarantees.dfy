/**
 What the protocol guarantees over whole runs: numbering, catch-up completeness, no gap at
 subscribe, and live convergence.
 */
module SyncGuarantees {
  import opened Wrappers
  import opened DocumentLog
  import opened SyncProtocol
  import opened SyncInvariant

  // ---- what each kind of step leaves alone

  /** Connections stay, keep their device, and stay up unless dropped. */
  ghost predicate ConnsStay(s: State, t: State) {
    forall c | c in s.conns :: c in t.conns && t.conns[c].device == s.conns[c].device
  }

  /** In the middle of a request. */
  predicate Busy(h: Handler) {
    !h.Idle? && !h.Panicked?
  }

  ghost predicate BusyHandlersStay(s: State, t: State) {
    forall c | c in s.conns && Busy(s.conns[c].handler) :: c in t.conns && t.conns[c].handler == s.conns[c].handler
  }

  lemma SendFrame(s: State, d: DeviceId, m: Request)
    requires d in s.replicas
    ensures var t := Send(s, d, m);
            t.replicas == s.replicas && t.log == s.log && t.history == s.history && t.hub == s.hub
            && t.conns.Keys == s.conns.Keys && forall c | c in s.conns :: t.conns[c] == s.conns[c].(inbox := t.conns[c].inbox)
  {
  }

  lemma SendEventFrame(s: State, e: Event)
    requires Enabled(s, e) && (e.SendPush? || e.SendSubscribe?)
    ensures var t := Apply(s, e);
            && t.log == s.log && t.history == s.history && t.hub == s.hub
            && ConnsStay(s, t) && BusyHandlersStay(s, t) && DocsGrow(s.replicas, t.replicas)
  {
    var d := e.device;
    var r := s.replicas[d];
    if e.SendPush? {
      SendFrame(SetReplica(s, d, r.(drafts := r.drafts - multiset{e.snap})), d, Push(e.snap));
    } else {
      SendFrame(SetReplica(s, d, Subscribing(r, e.lookup)), d, Subscribe(e.lookup.seqNo));
    }
  }

  lemma DeviceFrame(s: State, e: Event)
    requires Enabled(s, e) && DeviceStep(e)
    ensures var t := Apply(s, e);
            && t.log == s.log && t.history == s.history && t.hub == s.hub
            && ConnsStay(s, t) && BusyHandlersStay(s, t) && DocsGrow(s.replicas, t.replicas)
  {
    if e.SendPush? || e.SendSubscribe? { SendEventFrame(s, e); }
  }

  lemma LinkFrame(s: State, e: Event)
    requires Enabled(s, e) && !DeviceStep(e) && !HandlerStep(e)
    ensures var t := Apply(s, e);
            && t.log == s.log && t.history == s.history
            && ConnsStay(s, t) && BusyHandlersStay(s, t) && DocsGrow(s.replicas, t.replicas)
  {
  }

  /** What a step of a handler leaves alone. */
  ghost predicate HandlerFramed(s: State, e: Event, t: State)
    requires HandlerStep(e)
  {
    && t.replicas == s.replicas && ConnsStay(s, t) && s.history <= t.history
    && (!e.StorePush? ==> t.history == s.history && (!e.CompactLog? ==> t.log == s.log))
    && (forall c | c in s.conns && c != e.conn :: t.conns[c].handler == s.conns[c].handler)
  }

  lemma SubscribeFrame(s: State, e: Event)
    requires Enabled(s, e) && SubscribeStep(e)
    ensures HandlerFramed(s, e, Apply(s, e))
  {
  }

  lemma PushFrame(s: State, e: Event)
    requires Enabled(s, e) && PushStep(e)
    ensures HandlerFramed(s, e, Apply(s, e))
  {
  }

  lemma RelayFrame(s: State, e: Event)
    requires Enabled(s, e) && RelayStep(e)
    ensures HandlerFramed(s, e, Apply(s, e))
  {
  }

  lemma HandlerFrame(s: State, e: Event)
    requires Enabled(s, e) && HandlerStep(e)
    ensures HandlerFramed(s, e, Apply(s, e))
  {
    if SubscribeStep(e) { SubscribeFrame(s, e); } else if PushStep(e) { PushFrame(s, e); } else { RelayFrame(s, e); }
  }

  // ---- numbering

  /** Numbers are never reused, and the newest row survives every compaction. */
  lemma Numbering(s: State)
    requires Reachable(s)
    ensures LogOk(s.log, s.history)
    ensures MaxSeq(s.log) == |s.history|
  {
    ReachableInv(s);
    MaxSeqIsNewest(s.log, s.history);
  }

  /** Every row but the oldest of the log belongs to a push that has not compacted yet. */
  ghost predicate Uncompacted(s: State) {
    forall i :: 0 < i < |s.log| ==> HasPusher(s, s.log[i])
  }

  ghost predicate HasPusher(s: State, row: Row) {
    exists c :: c in s.conns && s.conns[c].handler == Stored(row)
  }

  /** Every push under way that is still to compact stays so. */
  ghost predicate PushersStay(s: State, t: State) {
    forall c | c in s.conns && s.conns[c].handler.Stored? :: c in t.conns && t.conns[c].handler == s.conns[c].handler
  }

  lemma SameLogKeepsUncompacted(s: State, t: State)
    requires Uncompacted(s) && t.log == s.log
    requires PushersStay(s, t)
    ensures Uncompacted(t)
  {
    forall i | 0 < i < |t.log| ensures HasPusher(t, t.log[i]) {
      assert HasPusher(s, s.log[i]);
      var c :| c in s.conns && s.conns[c].handler == Stored(s.log[i]);
      assert t.conns[c].handler == Stored(t.log[i]);
    }
  }

  lemma StorePushKeepsUncompacted(s: State, x: ConnId)
    requires Uncompacted(s) && Waiting(s, x) && s.conns[x].inbox[0].Push?
    ensures Uncompacted(OnStorePush(s, x))
  {
    var t := OnStorePush(s, x);
    forall i | 0 < i < |t.log| ensures HasPusher(t, t.log[i]) {
      if i == |s.log| {
        assert t.conns[x].handler == Stored(t.log[i]);
      } else {
        assert HasPusher(s, s.log[i]);
        var c :| c in s.conns && s.conns[c].handler == Stored(s.log[i]);
        assert t.conns[c].handler == Stored(t.log[i]);
      }
    }
  }

  lemma OtherStepKeepsPushers(s: State, e: Event)
    requires Enabled(s, e) && !e.StorePush? && !e.CompactLog? && !e.CompactFails?
    ensures Apply(s, e).log == s.log && PushersStay(s, Apply(s, e))
  {
    if HandlerStep(e) { HandlerFrame(s, e); } else if DeviceStep(e) { DeviceFrame(s, e); } else { LinkFrame(s, e); }
  }

  lemma CompactKeepsUncompacted(s: State, c: ConnId)
    requires Inv(s) && c in s.conns && s.conns[c].handler.Stored?
    ensures Uncompacted(OnCompactFails(s, c).(log := Compact(s.log)))
  {
    CompactKeepsLog(s.log, s.history);
  }

  lemma StepKeepsUncompacted(s: State, e: Event)
    requires Inv(s) && Uncompacted(s) && Enabled(s, e) && !e.CompactFails?
    ensures Uncompacted(Apply(s, e))
  {
    if e.StorePush? {
      StorePushKeepsUncompacted(s, e.conn);
    } else if e.CompactLog? {
      CompactKeepsUncompacted(s, e.conn);
    } else {
      OtherStepKeepsPushers(s, e);
      SameLogKeepsUncompacted(s, Apply(s, e));
    }
  }

  lemma {:induction false} RunKeepsUncompacted(s: State, events: seq<Event>)
    requires Inv(s) && Uncompacted(s) && IsRun(s, events)
    requires forall e | e in events :: !e.CompactFails?
    ensures Uncompacted(After(s, events))
    decreases |events|
  {
    if events != [] {
      StepKeepsInv(s, events[0]);
      StepKeepsUncompacted(s, events[0]);
      RunKeepsUncompacted(Apply(s, events[0]), events[1..]);
    }
  }

  /** When no compaction fails and every push under way has compacted, only the newest row is left. */
  lemma CompactedLogIsNewestRow(s: State, events: seq<Event>)
    requires Init(s) && IsRun(s, events)
    requires forall e | e in events :: !e.CompactFails?
    requires forall c | c in After(s, events).conns :: !After(s, events).conns[c].handler.Stored?
    ensures After(s, events).log == Newest(After(s, events).history)
  {
    InitOk(s);
    RunKeepsUncompacted(s, events);
    RunKeepsInv(s, events);
    NoPusherMeansOneRow(After(s, events));
  }

  lemma NoPusherMeansOneRow(s: State)
    requires LogOk(s.log, s.history) && Uncompacted(s)
    requires forall c | c in s.conns :: !s.conns[c].handler.Stored?
    ensures s.log == Newest(s.history)
  {
    assert forall i :: 0 < i < |s.log| ==> !HasPusher(s, s.log[i]);
  }

  // ---- documents only grow

  lemma StepGrows(s: State, e: Event)
    requires Enabled(s, e)
    ensures DocsGrow(s.replicas, Apply(s, e).replicas)
    ensures s.history <= Apply(s, e).history
    ensures !e.StorePush? ==> Apply(s, e).history == s.history
    ensures ConnsStay(s, Apply(s, e))
  {
    if HandlerStep(e) { HandlerFrame(s, e); } else if DeviceStep(e) { DeviceFrame(s, e); } else { LinkFrame(s, e); }
  }

  lemma {:induction false} RunGrows(s: State, events: seq<Event>)
    requires IsRun(s, events)
    ensures DocsGrow(s.replicas, After(s, events).replicas)
    ensures s.history <= After(s, events).history
    decreases |events|
  {
    if events != [] {
      StepGrows(s, events[0]);
      RunGrows(Apply(s, events[0]), events[1..]);
    }
  }

  // ---- catch-up completeness

  /**
   While the document stays open, a recorded number stands for a snapshot it contains, and so does
   every number the device reads to subscribe with and has not sent yet.
   */
  lemma RecordedSeqIsCovered(s: State, d: DeviceId, lookup: SeqRead)
    requires Reachable(s) && d in s.replicas
    ensures Covers(s.history, s.replicas[d].doc, s.replicas[d].lastSeq)
    ensures Covers(s.history, s.replicas[d].doc, SubscribeSeq(s.replicas[d], true))
    ensures lookup in s.replicas[d].lookups ==> Covers(s.history, s.replicas[d].doc, lookup.seqNo)
  {
    ReachableInv(s);
    assert ReplicaOk(s.history, s.replicas[d]);
  }

  /** Every caught_up on its way to the device of `c` reports `h`. */
  ghost predicate Reports(s: State, c: ConnId, h: nat) {
    && c in s.conns
    && (forall m | m in s.conns[c].outbox && m.CaughtUp? :: m.latestSeq == h)
    && (s.conns[c].handler.Replaying? ==> s.conns[c].handler.latestSeq == h)
  }

  lemma StepKeepsReports(s: State, e: Event, c: ConnId, h: nat)
    requires Reports(s, c, h) && Enabled(s, e) && e != ReadHistory(c)
    ensures Reports(Apply(s, e), c, h)
  {
    var t := Apply(s, e);
    forall m | m in t.conns[c].outbox && m.CaughtUp? ensures m.latestSeq == h {
      if m !in s.conns[c].outbox {
        assert e == ReplayDone(c);
      }
    }
  }

  lemma {:induction false} RunKeepsReports(s: State, events: seq<Event>, c: ConnId, h: nat)
    requires Reports(s, c, h) && IsRun(s, events) && ReadHistory(c) !in events
    ensures Reports(After(s, events), c, h)
    decreases |events|
  {
    if events != [] {
      StepKeepsReports(s, events[0], c, h);
      RunKeepsReports(Apply(s, events[0]), events[1..], c, h);
    }
  }

  lemma ReadReportsNewest(s: State, c: ConnId)
    requires Inv(s) && c in s.conns && s.conns[c].handler.Registered?
    requires forall m | m in s.conns[c].outbox :: !m.CaughtUp?
    ensures Inv(OnReadHistory(s, c)) && Reports(OnReadHistory(s, c), c, |s.history|)
  {
    ReadHistoryOk(s, c);
  }

  lemma CaughtUpHandled(s: State, c: ConnId, h: nat)
    requires Inv(s) && Reports(s, c, h) && s.conns[c].device in s.replicas
    requires s.conns[c].outbox != [] && s.conns[c].outbox[0].CaughtUp?
    ensures var t := OnDeliver(s, c);
            var d := s.conns[c].device;
            t.replicas[d].lastSeq == h && Covers(t.history, t.replicas[d].doc, h)
  {
    DeliverOk(s, c);
    assert s.conns[c].outbox[0] in s.conns[c].outbox;
    assert ReplicaOk(s.history, OnDeliver(s, c).replicas[s.conns[c].device]);
  }

  /**
   Catch-up completeness. A subscribe handler reads the history; later the device handles the
   caught_up of that read (none was under way before, and the connection reads no history
   again). The device then records exactly the newest number as of the read, and its document
   contains that newest snapshot.
   */
  lemma CatchUpIsComplete(s: State, c: ConnId, events: seq<Event>, t: State)
    requires Reachable(s) && Enabled(s, ReadHistory(c))
    requires forall m | m in s.conns[c].outbox :: !m.CaughtUp?
    requires ReadHistory(c) !in events
    requires IsRun(OnReadHistory(s, c), events) && t == After(OnReadHistory(s, c), events)
    requires Enabled(t, Deliver(c)) && t.conns[c].outbox[0].CaughtUp?
    ensures var u := OnDeliver(t, c);
            var d := t.conns[c].device;
            u.replicas[d].lastSeq == |s.history| && Covers(u.history, u.replicas[d].doc, |s.history|)
  {
    ReachableInv(s);
    ReadReportsNewest(s, c);
    RunKeepsReports(OnReadHistory(s, c), events, c, |s.history|);
    RunKeepsInv(OnReadHistory(s, c), events);
    CaughtUpHandled(t, c, |s.history|);
  }

  // ---- no gap at subscribe

  /** Connection `c` is open and in the hub. */
  predicate Subscribed(s: State, c: ConnId) {
    c in s.conns && s.conns[c].up && c in s.hub && s.conns[c].device in s.replicas
  }

  /** The handler of `x` still has to relay row `q` to `c`. */
  ghost predicate RelayPending(s: State, x: ConnId, c: ConnId, q: nat) {
    x in s.conns && c in s.conns &&
    match s.conns[x].handler
    case Stored(row) => row.seqNo == q && s.conns[x].device != s.conns[c].device
    case Compacted(row) => row.seqNo == q && s.conns[x].device != s.conns[c].device
    case Acked(row) => row.seqNo == q && s.conns[x].device != s.conns[c].device
    case Relaying(row, targets) => row.seqNo == q && c in targets
    case _ => false
  }

  ghost predicate Merged(s: State, c: ConnId, q: nat) {
    && c in s.conns && s.conns[c].device in s.replicas && 1 <= q <= |s.history|
    && s.history[q - 1].snap <= s.replicas[s.conns[c].device].doc
  }

  ghost predicate Queued(s: State, c: ConnId, q: nat) {
    c in s.conns && 1 <= q <= |s.history| && Sync(q, s.history[q - 1].snap) in s.conns[c].outbox
  }

  ghost predicate InReplay(s: State, c: ConnId, q: nat) {
    && c in s.conns && 1 <= q <= |s.history|
    && s.conns[c].handler.Replaying? && s.history[q - 1] in s.conns[c].handler.rows
  }

  /** Snapshot `q` is in the device's document or certain to get there while the socket is open. */
  ghost predicate Held(s: State, c: ConnId, q: nat) {
    Merged(s, c, q) || Queued(s, c, q) || InReplay(s, c, q)
  }

  /** The same, or a handler still has to relay it. */
  ghost predicate Reaches(s: State, c: ConnId, q: nat) {
    Held(s, c, q) || exists x :: RelayPending(s, x, c, q)
  }

  /** The relay that fails is all that would have brought row `q` to the device of `c`. */
  ghost predicate Loses(s: State, e: Event, c: ConnId, q: nat) {
    && FailsRelay(e) && RelayPending(s, e.conn, c, q) && !Held(s, c, q)
    && forall x | x != e.conn :: !RelayPending(s, x, c, q)
  }

  predicate Drops(e: Event, c: ConnId) {
    e.Drop? && e.conn == c
  }

  /** The connection stays open and in the hub. */
  ghost predicate StaysSubscribed(s: State, t: State, c: ConnId) {
    Subscribed(s, c) ==> Subscribed(t, c) && t.conns[c].device == s.conns[c].device
  }

  lemma HandlerKeepsSubscribed(s: State, e: Event, c: ConnId)
    requires Enabled(s, e) && HandlerStep(e)
    ensures StaysSubscribed(s, Apply(s, e), c)
  {
    if SubscribeStep(e) {
      SubscribingKeepsSubscribed(s, e, c);
    } else if PushStep(e) {
      PushingKeepsSubscribed(s, e, c);
    }
  }

  lemma SubscribingKeepsSubscribed(s: State, e: Event, c: ConnId)
    requires Enabled(s, e) && SubscribeStep(e)
    ensures StaysSubscribed(s, Apply(s, e), c)
  {
  }

  lemma PushingKeepsSubscribed(s: State, e: Event, c: ConnId)
    requires Enabled(s, e) && PushStep(e)
    ensures StaysSubscribed(s, Apply(s, e), c)
  {
  }

  lemma DeviceKeepsSubscribed(s: State, e: Event, c: ConnId)
    requires Enabled(s, e) && DeviceStep(e)
    ensures StaysSubscribed(s, Apply(s, e), c)
  {
    if (e.SendPush? || e.SendSubscribe?) && c in s.conns {
      SendKeepsUp(s, e, c);
      SendEventFrame(s, e);
    }
  }

  lemma SendKeepsUp(s: State, e: Event, c: ConnId)
    requires Enabled(s, e) && (e.SendPush? || e.SendSubscribe?) && c in s.conns
    ensures Apply(s, e).conns[c] == s.conns[c].(inbox := Apply(s, e).conns[c].inbox)
  {
  }

  lemma LinkKeepsSubscribed(s: State, e: Event, c: ConnId)
    requires Enabled(s, e) && !DeviceStep(e) && !HandlerStep(e) && !Drops(e, c)
    ensures StaysSubscribed(s, Apply(s, e), c)
  {
  }

  lemma StepKeepsSubscribed(s: State, e: Event, c: ConnId)
    requires Subscribed(s, c) && Enabled(s, e) && !Drops(e, c)
    ensures Subscribed(Apply(s, e), c)
    ensures Apply(s, e).conns[c].device == s.conns[c].device
  {
    if HandlerStep(e) {
      HandlerKeepsSubscribed(s, e, c);
    } else if DeviceStep(e) {
      DeviceKeepsSubscribed(s, e, c);
    } else {
      LinkKeepsSubscribed(s, e, c);
    }
  }

  lemma DeliveredIsMerged(s: State, c: ConnId, q: nat)
    requires Queued(s, c, q) && s.conns[c].device in s.replicas
    ensures Merged(OnDeliver(s, c), c, q) || Queued(OnDeliver(s, c), c, q)
  {
    var m := Sync(q, s.history[q - 1].snap);
    var before, after := s.conns[c].outbox, OnDeliver(s, c).conns[c].outbox;
    var i :| 0 <= i < |before| && before[i] == m;
    assert i > 0 ==> after[i - 1] == m;
  }

  ghost predicate OutboxGrows(s: State, t: State, c: ConnId) {
    c in s.conns ==> c in t.conns && s.conns[c].outbox <= t.conns[c].outbox
  }

  lemma HandlerOutboxFrame(s: State, e: Event, c: ConnId)
    requires Enabled(s, e) && HandlerStep(e)
    ensures OutboxGrows(s, Apply(s, e), c)
  {
    if SubscribeStep(e) {
      SubscribeOutboxFrame(s, e, c);
    } else if PushStep(e) {
      PushOutboxFrame(s, e, c);
    }
  }

  lemma SubscribeOutboxFrame(s: State, e: Event, c: ConnId)
    requires Enabled(s, e) && SubscribeStep(e)
    ensures OutboxGrows(s, Apply(s, e), c)
  {
  }

  lemma PushOutboxFrame(s: State, e: Event, c: ConnId)
    requires Enabled(s, e) && PushStep(e)
    ensures OutboxGrows(s, Apply(s, e), c)
  {
  }

  lemma DeviceOutboxFrame(s: State, e: Event, c: ConnId)
    requires Enabled(s, e) && DeviceStep(e)
    ensures OutboxGrows(s, Apply(s, e), c)
  {
    if (e.SendPush? || e.SendSubscribe?) && c in s.conns { SendKeepsUp(s, e, c); }
  }

  /** Only a delivery or the loss of the socket takes something out of a queue. */
  lemma OutboxFrame(s: State, e: Event, c: ConnId)
    requires c in s.conns && Enabled(s, e) && !Drops(e, c) && e != Deliver(c)
    ensures c in Apply(s, e).conns && s.conns[c].outbox <= Apply(s, e).conns[c].outbox
  {
    if HandlerStep(e) { HandlerOutboxFrame(s, e, c); } else if DeviceStep(e) { DeviceOutboxFrame(s, e, c); }
  }

  lemma QueuedFrame(s: State, t: State, c: ConnId, q: nat)
    requires Queued(s, c, q) && s.history <= t.history && c in t.conns && s.conns[c].outbox <= t.conns[c].outbox
    ensures Queued(t, c, q)
  {
    var i :| 0 <= i < |s.conns[c].outbox| && s.conns[c].outbox[i] == Sync(q, s.history[q - 1].snap);
    assert t.conns[c].outbox[i] == s.conns[c].outbox[i];
  }

  lemma QueuedStays(s: State, e: Event, c: ConnId, q: nat)
    requires Subscribed(s, c) && Enabled(s, e) && !Drops(e, c) && Queued(s, c, q)
    ensures Merged(Apply(s, e), c, q) || Queued(Apply(s, e), c, q)
  {
    if e == Deliver(c) {
      DeliveredIsMerged(s, c, q);
    } else {
      StepGrows(s, e);
      OutboxFrame(s, e, c);
      QueuedFrame(s, Apply(s, e), c, q);
    }
  }

  lemma ReplayNextQueues(s: State, c: ConnId, q: nat)
    requires Inv(s) && Subscribed(s, c) && InReplay(s, c, q)
    ensures s.conns[c].handler.rows != []
    ensures Queued(OnReplayNext(s, c), c, q) || InReplay(OnReplayNext(s, c), c, q)
  {
    var row := s.conns[c].handler.rows[0];
    var after := OnReplayNext(s, c).conns[c].outbox;
    assert after[|after| - 1] == Sync(row.seqNo, row.snap);
    NumberOf(s, q);
  }

  lemma NumberOf(s: State, q: nat)
    requires Inv(s) && 1 <= q <= |s.history|
    ensures s.history[q - 1].seqNo == q
  {
  }

  lemma BusyFrame(s: State, e: Event, c: ConnId)
    requires c in s.conns && Enabled(s, e) && Busy(s.conns[c].handler)
    requires HandlerStep(e) ==> e.conn != c
    ensures c in Apply(s, e).conns && Apply(s, e).conns[c].handler == s.conns[c].handler
  {
    if HandlerStep(e) { HandlerFrame(s, e); } else if DeviceStep(e) { DeviceFrame(s, e); } else { LinkFrame(s, e); }
  }

  /** While rows are left to replay, the handler's only step is to send the next one. */
  lemma OwnStepReplays(s: State, e: Event, c: ConnId)
    requires c in s.conns && s.conns[c].handler.Replaying? && s.conns[c].handler.rows != []
    requires Enabled(s, e) && HandlerStep(e) && e.conn == c
    ensures e == ReplayNext(c)
  {
    assert !s.conns[c].handler.Idle?;
  }

  lemma InReplayStays(s: State, e: Event, c: ConnId, q: nat)
    requires Inv(s) && Subscribed(s, c) && Enabled(s, e) && InReplay(s, c, q)
    ensures Queued(Apply(s, e), c, q) || InReplay(Apply(s, e), c, q)
  {
    if HandlerStep(e) && e.conn == c {
      OwnStepReplays(s, e, c);
      ReplayNextQueues(s, c, q);
    } else {
      StepGrows(s, e);
      BusyFrame(s, e, c);
      InReplayFrame(s, Apply(s, e), c, q);
    }
  }

  lemma InReplayFrame(s: State, t: State, c: ConnId, q: nat)
    requires InReplay(s, c, q) && s.history <= t.history
    requires c in t.conns && t.conns[c].handler == s.conns[c].handler
    ensures InReplay(t, c, q)
  {
  }

  lemma RelayedRowIsStored(s: State, x: ConnId)
    requires Inv(s) && x in s.conns && s.conns[x].handler.Relaying?
    ensures InHistory(s.history, s.conns[x].handler.row)
  {
    assert ConnOk(s.history, s.replicas[s.conns[x].device].doc, s.conns[x]);
  }

  lemma RelayIsEnqueued(s: State, c: ConnId, x: ConnId)
    requires c in s.conns && s.conns[c].up && x in s.conns && s.conns[x].handler.Relaying?
    ensures var t := OnRelayTo(s, x, c); var row := s.conns[x].handler.row;
      t.history == s.history && c in t.conns && Sync(row.seqNo, row.snap) in t.conns[c].outbox
  {
    var row := s.conns[x].handler.row;
    var after := OnRelayTo(s, x, c).conns[c].outbox;
    assert after[|after| - 1] == Sync(row.seqNo, row.snap);
  }

  lemma RelayToDelivers(s: State, c: ConnId, x: ConnId)
    requires Inv(s) && Subscribed(s, c) && x in s.conns && s.conns[x].handler.Relaying?
    ensures Queued(OnRelayTo(s, x, c), c, s.conns[x].handler.row.seqNo)
  {
    RelayedRowIsStored(s, x);
    RelayIsEnqueued(s, c, x);
  }

  lemma OwnStepKeepsRelay(s: State, e: Event, c: ConnId, x: ConnId, q: nat)
    requires Subscribed(s, c) && Enabled(s, e) && HandlerStep(e) && e.conn == x && e != RelayTo(x, c) && !FailsRelay(e)
    requires RelayPending(s, x, c, q)
    ensures RelayPending(Apply(s, e), x, c, q)
  {
    assert e.CompactLog? || e.CompactFails? || e.AckPush? || e.StartRelay? || e.RelayTo?;
  }

  lemma RelayPendingStays(s: State, e: Event, c: ConnId, x: ConnId, q: nat)
    requires Inv(s) && Subscribed(s, c) && Enabled(s, e) && !Drops(e, c) && RelayPending(s, x, c, q)
    requires FailsRelay(e) ==> e.conn != x
    ensures Queued(Apply(s, e), c, q) || RelayPending(Apply(s, e), x, c, q)
  {
    if e == RelayTo(x, c) {
      RelayToDelivers(s, c, x);
    } else if HandlerStep(e) && e.conn == x {
      OwnStepKeepsRelay(s, e, c, x, q);
    } else {
      StepGrows(s, e);
      BusyFrame(s, e, x);
    }
  }

  /** What the device has, or is certain to get, stays so. */
  lemma StepKeepsHeld(s: State, e: Event, c: ConnId, q: nat)
    requires Inv(s) && Subscribed(s, c) && Enabled(s, e) && !Drops(e, c)
    requires Held(s, c, q)
    ensures Held(Apply(s, e), c, q)
  {
    if Merged(s, c, q) {
      StepGrows(s, e);
    } else if Queued(s, c, q) {
      QueuedStays(s, e, c, q);
    } else {
      InReplayStays(s, e, c, q);
    }
  }

  lemma LosingLoses(s: State, e: Event, c: ConnId, q: nat)
    requires Enabled(s, e) && Loses(s, e, c, q)
    ensures !Reaches(Apply(s, e), c, q)
  {
    var t := Apply(s, e);
    forall x ensures !RelayPending(t, x, c, q) {
      if x != e.conn { assert !RelayPending(s, x, c, q); }
    }
  }

  /** No event but the loss of the socket takes a snapshot off its way to the device, except a failing relay. */
  lemma StepKeepsReachesIff(s: State, e: Event, c: ConnId, q: nat)
    requires Inv(s) && Subscribed(s, c) && Enabled(s, e) && !Drops(e, c)
    requires Reaches(s, c, q)
    ensures Reaches(Apply(s, e), c, q) <==> !Loses(s, e, c, q)
  {
    if Loses(s, e, c, q) {
      LosingLoses(s, e, c, q);
    } else if Held(s, c, q) {
      StepKeepsHeld(s, e, c, q);
    } else {
      var x :| RelayPending(s, x, c, q) && (FailsRelay(e) ==> e.conn != x);
      RelayPendingStays(s, e, c, x, q);
    }
  }

  /** Some event of the run loses row `q` for `c`. */
  ghost predicate LostIn(s: State, events: seq<Event>, c: ConnId, q: nat)
    requires IsRun(s, events)
    decreases |events|
  {
    events != [] && (Loses(s, events[0], c, q) || LostIn(Apply(s, events[0]), events[1..], c, q))
  }

  /** Row `q` is on its way to `c`, or there, before and after every event of the run. */
  ghost predicate ReachesThroughout(s: State, events: seq<Event>, c: ConnId, q: nat)
    requires IsRun(s, events)
    decreases |events|
  {
    Reaches(s, c, q) && (events != [] ==> ReachesThroughout(Apply(s, events[0]), events[1..], c, q))
  }

  /** A row on its way stays on its way throughout if and only if no failing relay loses it. */
  lemma {:induction false} RunKeepsReachesIff(s: State, events: seq<Event>, c: ConnId, q: nat)
    requires Inv(s) && Subscribed(s, c) && IsRun(s, events) && forall e | e in events :: !Drops(e, c)
    requires Reaches(s, c, q)
    ensures ReachesThroughout(s, events, c, q) <==> !LostIn(s, events, c, q)
    decreases |events|
  {
    if events != [] {
      StepKeepsInv(s, events[0]);
      StepKeepsSubscribed(s, events[0], c);
      StepKeepsReachesIff(s, events[0], c, q);
      if Reaches(Apply(s, events[0]), c, q) {
        RunKeepsReachesIff(Apply(s, events[0]), events[1..], c, q);
      }
    }
  }

  /** A row is on its way to every other subscriber from the moment it is stored. */
  lemma StoredRowReaches(s: State, x: ConnId, c: ConnId)
    requires Inv(s) && Subscribed(s, c) && Waiting(s, x) && s.conns[x].inbox[0].Push?
    requires s.conns[x].device != s.conns[c].device
    ensures Reaches(OnStorePush(s, x), c, |s.history| + 1)
  {
    StoreKeepsLog(s.log, s.history, s.conns[x].device, s.conns[x].inbox[0].snap);
    assert RelayPending(OnStorePush(s, x), x, c, |s.history| + 1);
  }

  lemma NewRowOf(s: State, x: ConnId)
    requires Waiting(s, x) && s.conns[x].inbox[0].Push?
    ensures OnStorePush(s, x).history == s.history + [NewRow(s.log, s.conns[x].device, s.conns[x].inbox[0].snap)]
  {
  }

  /** Row `q` is of another device, and reaches `c` unless it is still to be stored. */
  ghost predicate OnItsWay(s: State, c: ConnId, q: nat)
    requires c in s.conns
  {
    0 < q <= |s.history| && s.history[q - 1].device != s.conns[c].device ==> Reaches(s, c, q)
  }

  lemma StepKeepsOnItsWay(s: State, e: Event, c: ConnId, q: nat)
    requires Inv(s) && Subscribed(s, c) && Enabled(s, e) && !Drops(e, c) && OnItsWay(s, c, q)
    ensures Subscribed(Apply(s, e), c) && (OnItsWay(Apply(s, e), c, q) || Loses(s, e, c, q))
  {
    StepKeepsSubscribed(s, e, c);
    StepGrows(s, e);
    if 0 < q <= |s.history| {
      assert Apply(s, e).history[q - 1] == s.history[q - 1];
      if Reaches(s, c, q) { StepKeepsReachesIff(s, e, c, q); }
    } else if e.StorePush? && q == |s.history| + 1 {
      NewRowOf(s, e.conn);
      if s.conns[e.conn].device != s.conns[c].device { StoredRowReaches(s, e.conn, c); }
    }
  }

  /** Over a run, a row stored by another device reaches `c` unless a failing relay has lost it. */
  lemma {:induction false} RowReachesUnlessLost(s: State, events: seq<Event>, c: ConnId, q: nat)
    requires Inv(s) && Subscribed(s, c) && IsRun(s, events) && OnItsWay(s, c, q)
    requires forall e | e in events :: !Drops(e, c)
    ensures Subscribed(After(s, events), c)
    ensures LostIn(s, events, c, q) || OnItsWay(After(s, events), c, q)
    decreases |events|
  {
    if events != [] {
      var t := Apply(s, events[0]);
      StepKeepsInv(s, events[0]);
      StepKeepsOnItsWay(s, events[0], c, q);
      if Loses(s, events[0], c, q) {
        RunKeepsSubscribed(t, events[1..], c);
      } else {
        RowReachesUnlessLost(t, events[1..], c, q);
      }
    }
  }

  lemma {:induction false} RunKeepsSubscribed(s: State, events: seq<Event>, c: ConnId)
    requires Subscribed(s, c) && IsRun(s, events) && forall e | e in events :: !Drops(e, c)
    ensures Subscribed(After(s, events), c)
    decreases |events|
  {
    if events != [] {
      StepKeepsSubscribed(s, events[0], c);
      RunKeepsSubscribed(Apply(s, events[0]), events[1..], c);
    }
  }

  lemma {:induction false} RunKeepsHeld(s: State, events: seq<Event>, c: ConnId, q: nat)
    requires Inv(s) && Subscribed(s, c) && IsRun(s, events)
    requires forall e | e in events :: !Drops(e, c)
    requires Held(s, c, q)
    ensures Held(After(s, events), c, q)
    decreases |events|
  {
    if events != [] {
      StepKeepsInv(s, events[0]);
      StepKeepsSubscribed(s, events[0], c);
      StepKeepsHeld(s, events[0], c, q);
      RunKeepsHeld(Apply(s, events[0]), events[1..], c, q);
    }
  }

  /** Once stored by another device, row `q` reaches `c` at the end of the run, or it has been lost. */
  ghost predicate RowReached(s: State, events: seq<Event>, c: ConnId, q: nat)
    requires IsRun(s, events)
  {
    c in After(s, events).conns && (LostIn(s, events, c, q) || OnItsWay(After(s, events), c, q))
  }

  /** So does every row after row `r`. */
  ghost predicate NoGapAfter(s: State, events: seq<Event>, c: ConnId, r: nat)
    requires IsRun(s, events)
  {
    forall q :: r < q ==> RowReached(s, events, c, q)
  }

  /**
   No gap at subscribe. A handler registers the client, some events later (state `u`) it reads
   the history, and the socket stays open until state `t`. Then the newest snapshot of the read,
   which supersedes all before it, gets to the client whatever fails, and every snapshot that
   another device stored after the read reaches it unless a failing relay has lost it.
   */
  lemma NoGapAtSubscribe(s: State, c: ConnId, between: seq<Event>, u: State, afterwards: seq<Event>, t: State)
    requires Reachable(s) && Enabled(s, Register(c)) && s.conns[c].up
    requires IsRun(OnRegister(s, c), between) && u == After(OnRegister(s, c), between)
    requires Enabled(u, ReadHistory(c))
    requires IsRun(OnReadHistory(u, c), afterwards) && t == After(OnReadHistory(u, c), afterwards)
    requires forall e | e in between + afterwards :: !Drops(e, c)
    ensures Subscribed(t, c)
    ensures u.history != [] ==> Held(t, c, |u.history|)
    ensures NoGapAfter(OnReadHistory(u, c), afterwards, c, |u.history|)
  {
    ReachableInv(s);
    RegisterOk(s, c);
    RunKeepsInv(OnRegister(s, c), between);
    RunKeepsSubscribed(OnRegister(s, c), between, c);
    ReadHistoryOk(u, c);
    ReadReaches(u, c, afterwards);
    RunKeepsSubscribed(OnReadHistory(u, c), afterwards, c);
    if u.history != [] {
      NewestIsHeld(u, c);
      RunKeepsHeld(OnReadHistory(u, c), afterwards, c, |u.history|);
    }
  }

  lemma ReadReaches(u: State, c: ConnId, events: seq<Event>)
    requires Inv(u) && Subscribed(u, c) && u.conns[c].handler.Registered? && IsRun(OnReadHistory(u, c), events)
    requires forall e | e in events :: !Drops(e, c)
    ensures NoGapAfter(OnReadHistory(u, c), events, c, |u.history|)
  {
    var v := OnReadHistory(u, c);
    ReadHistoryOk(u, c);
    forall q | |v.history| < q ensures RowReached(v, events, c, q) {
      RowReachesUnlessLost(v, events, c, q);
    }
  }

  /** Reading the history puts the newest snapshot on its way, unless it is already merged. */
  lemma NewestIsHeld(s: State, c: ConnId)
    requires Inv(s) && Subscribed(s, c) && s.conns[c].handler.Registered? && s.history != []
    ensures Subscribed(OnReadHistory(s, c), c)
    ensures Held(OnReadHistory(s, c), c, |s.history|)
  {
    assert HandlerOk(s.history, s.replicas[s.conns[c].device].doc, s.conns[c]);
    if s.conns[c].handler.lastSeq == |s.history| {
      NewestIsMerged(s, c);
    } else {
      NewestIsInReplay(s, c);
    }
  }

  lemma NewestIsMerged(s: State, c: ConnId)
    requires Inv(s) && Subscribed(s, c) && s.conns[c].handler.Registered? && s.history != []
    requires s.conns[c].handler.lastSeq == |s.history|
    ensures Merged(OnReadHistory(s, c), c, |s.history|)
  {
    assert HandlerOk(s.history, s.replicas[s.conns[c].device].doc, s.conns[c]);
  }

  lemma NewestIsInReplay(s: State, c: ConnId)
    requires LogOk(s.log, s.history) && c in s.conns && s.conns[c].handler.Registered?
    requires s.conns[c].handler.lastSeq < |s.history|
    ensures InReplay(OnReadHistory(s, c), c, |s.history|)
  {
    LatestIsNewest(s.log, s.history, s.conns[c].handler.lastSeq);
  }

  // ---- live convergence

  /** Every device has an open connection that is in the hub. */
  ghost predicate AllSubscribed(s: State) {
    forall d | d in s.replicas :: exists c :: Subscribed(s, c) && s.conns[c].device == d
  }

  /** Nothing is under way on the server or towards the devices. */
  ghost predicate Drained(s: State) {
    forall c | c in s.conns :: s.conns[c].outbox == [] && (s.conns[c].handler.Idle? || s.conns[c].handler.Closed?)
  }

  ghost predicate EditsStored(s: State) {
    forall x | x in AllChanges(s) :: exists i :: 0 <= i < |s.history| && x in s.history[i].snap
  }

  ghost predicate AllOnTheirWay(s: State, c: ConnId)
    requires c in s.conns
  {
    forall q :: OnItsWay(s, c, q)
  }

  ghost predicate HasRow(s: State, d: DeviceId, q: nat)
    requires d in s.replicas && 0 < q <= |s.history|
  {
    s.history[q - 1].snap <= s.replicas[d].doc
  }

  ghost predicate HasAllRows(s: State, d: DeviceId)
    requires d in s.replicas
  {
    forall q :: 0 < q <= |s.history| ==> HasRow(s, d, q)
  }

  /** A drained connection has every row that was on its way to it. */
  lemma DrainedHasAll(s: State, c: ConnId)
    requires Inv(s) && Subscribed(s, c) && Drained(s) && AllOnTheirWay(s, c)
    ensures HasAllRows(s, s.conns[c].device)
  {
    forall q | 0 < q <= |s.history| ensures HasRow(s, s.conns[c].device, q) {
      assert OnItsWay(s, c, q);
      DrainedHasRow(s, c, q);
    }
  }

  lemma DrainedHasRow(s: State, c: ConnId, q: nat)
    requires Inv(s) && Subscribed(s, c) && Drained(s) && 0 < q <= |s.history| && OnItsWay(s, c, q)
    ensures HasRow(s, s.conns[c].device, q)
  {
    if s.history[q - 1].device != s.conns[c].device {
      assert Reaches(s, c, q);
    }
  }

  lemma StoredIsAll(t: State, d: DeviceId)
    requires EditsStored(t) && d in t.replicas && HasAllRows(t, d)
    ensures t.replicas[d].doc == AllChanges(t)
  {
    forall x | x in AllChanges(t) ensures x in t.replicas[d].doc {
      var i :| 0 <= i < |t.history| && x in t.history[i].snap;
      assert HasRow(t, d, i + 1);
    }
  }

  ghost predicate NothingLost(s: State, events: seq<Event>, c: ConnId)
    requires IsRun(s, events)
  {
    forall q :: !LostIn(s, events, c, q)
  }

  /**
   Live convergence. Take a device subscribed on connection `c` before the first push and connected
   since. Once every edit is in a stored push and all queues are drained, its replica is the union
   of all edits, whatever the interleaving, unless a failing relay has lost a row for `c`.
   */
  lemma ReplicaConverges(s: State, events: seq<Event>, c: ConnId)
    requires Reachable(s) && s.history == [] && Subscribed(s, c)
    requires IsRun(s, events) && forall e | e in events :: !Drops(e, c)
    requires Drained(After(s, events)) && EditsStored(After(s, events))
    requires NothingLost(s, events, c)
    ensures var t := After(s, events); Subscribed(t, c) && t.replicas[t.conns[c].device].doc == AllChanges(t)
  {
    ReachableInv(s);
    RunKeepsInv(s, events);
    RunKeepsSubscribed(s, events, c);
    NothingLostReaches(s, events, c);
    DrainedHasAll(After(s, events), c);
    StoredIsAll(After(s, events), After(s, events).conns[c].device);
  }

  lemma NothingLostReaches(s: State, events: seq<Event>, c: ConnId)
    requires Inv(s) && s.history == [] && Subscribed(s, c) && IsRun(s, events)
    requires forall e | e in events :: !Drops(e, c)
    requires NothingLost(s, events, c)
    ensures Subscribed(After(s, events), c) && AllOnTheirWay(After(s, events), c)
  {
    RunKeepsSubscribed(s, events, c);
    forall q ensures OnItsWay(After(s, events), c, q) {
      RowReachesUnlessLost(s, events, c, q);
    }
  }

  lemma {:induction false} NoFailureNotLost(s: State, events: seq<Event>, c: ConnId, q: nat)
    requires IsRun(s, events) && forall e | e in events :: !FailsRelay(e)
    ensures !LostIn(s, events, c, q)
    decreases |events|
  {
    if events != [] { NoFailureNotLost(Apply(s, events[0]), events[1..], c, q); }
  }

  lemma NoFailureLosesNothing(s: State, events: seq<Event>, c: ConnId)
    requires IsRun(s, events) && forall e | e in events :: !FailsRelay(e)
    ensures NothingLost(s, events, c)
  {
    forall q ensures !LostIn(s, events, c, q) { NoFailureNotLost(s, events, c, q); }
  }

  /** So when every device is subscribed from the start and no relay fails, all replicas become equal. */
  lemma LiveConvergence(s: State, events: seq<Event>)
    requires Reachable(s) && s.history == [] && AllSubscribed(s)
    requires IsRun(s, events) && forall e | e in events :: !e.Drop? && !FailsRelay(e)
    requires Drained(After(s, events)) && EditsStored(After(s, events))
    ensures var t := After(s, events); forall d | d in t.replicas :: t.replicas[d].doc == AllChanges(t)
  {
    RunGrows(s, events);
    var t := After(s, events);
    forall d | d in t.replicas ensures t.replicas[d].doc == AllChanges(t) {
      var c :| Subscribed(s, c) && s.conns[c].device == d;
      NoFailureLosesNothing(s, events, c);
      ReplicaConverges(s, events, c);
      RunKeepsDevice(s, events, c);
    }
  }

  lemma {:induction false} RunKeepsDevice(s: State, events: seq<Event>, c: ConnId)
    requires IsRun(s, events) && c in s.conns
    ensures c in After(s, events).conns && After(s, events).conns[c].device == s.conns[c].device
    decreases |events|
  {
    if events != [] {
      assert c in Apply(s, events[0]).conns && Apply(s, events[0]).conns[c].device == s.conns[c].device;
      RunKeepsDevice(Apply(s, events[0]), events[1..], c);
    }
  }
}
