/**
 Closing and reopening the document. Switching to another recipe unsubscribes, closes the document
 and opens it again later; messages that arrive in between are not merged. The module extends the
 protocol by these steps and shows exactly when the recorded numbers stay truthful.
 */
module SyncReopen {
  import opened Wrappers
  import opened DocumentLog
  import opened SyncProtocol
  import opened SyncInvariant

  /** `leaving` holds the unsubscribe requests under way. */
  datatype Ext = Ext(base: State, closed: set<DeviceId>, leaving: multiset<ConnId>)

  datatype Step =
    | Base(event: Event)
    | Unsubscribe(device: DeviceId)
    | Close(device: DeviceId)
    | Reopen(device: DeviceId)
    // a message for a closed document
    | Ignore(conn: ConnId)
    // server, handleUnsubscribe
    | Leave(conn: ConnId)

  /** handleMessage without an open document: only the sync client's map and acks are updated. */
  function Ignoring(r: Replica, m: Reply): Replica {
    match m
    case Sync(_, _) => r
    case CaughtUp(latestSeq) => r.(memSeq := Some(latestSeq))
    case Ack(seqNo) => r.(seqWrites := r.seqWrites + multiset{seqNo})
    case Notice => r
  }

  predicate Can(x: Ext, st: Step) {
    var s := x.base;
    match st
    case Base(e) => Enabled(s, e) && !NeedsOpen(s, e, x.closed)
    case Unsubscribe(d) => d in s.replicas
    case Close(d) => d in s.replicas && d !in x.closed
    case Reopen(d) => d in s.replicas && d in x.closed
    case Ignore(c) =>
      c in s.conns && s.conns[c].device in s.replicas && s.conns[c].outbox != [] && s.conns[c].device in x.closed
    case Leave(c) => c in x.leaving
  }

  function OnIgnore(s: State, c: ConnId): State
    requires c in s.conns && s.conns[c].device in s.replicas && s.conns[c].outbox != []
  {
    var conn := s.conns[c];
    SetReplica(SetConn(s, c, conn.(outbox := conn.outbox[1..])), conn.device,
               Ignoring(s.replicas[conn.device], conn.outbox[0]))
  }

  function Do(x: Ext, st: Step): Ext
    requires Can(x, st)
  {
    var s := x.base;
    match st
    case Base(e) => x.(base := Apply(s, e))
    case Unsubscribe(d) => OnUnsubscribe(x, d)
    case Close(d) => x.(closed := x.closed + {d})
    case Reopen(d) => x.(closed := x.closed - {d})
    case Ignore(c) => x.(base := OnIgnore(s, c))
    case Leave(c) => x.(base := s.(hub := s.hub - {c}), leaving := x.leaving - multiset{c})
  }

  function OnUnsubscribe(x: Ext, d: DeviceId): Ext
    requires d in x.base.replicas
  {
    var r := x.base.replicas[d];
    x.(base := SetReplica(x.base, d, r.(memSeq := None)),
       leaving := if r.link.Some? then x.leaving + multiset{r.link.value} else x.leaving)
  }

  predicate IsSteps(x: Ext, steps: seq<Step>)
    decreases |steps|
  {
    steps == [] || (Can(x, steps[0]) && IsSteps(Do(x, steps[0]), steps[1..]))
  }

  function End(x: Ext, steps: seq<Step>): Ext
    requires IsSteps(x, steps)
    decreases |steps|
  {
    if steps == [] then x else End(Do(x, steps[0]), steps[1..])
  }

  // ---- what is under way when the document is reopened

  /** All messages that still reach the device over the connection, oldest first. */
  ghost function Stream(c: Conn): seq<Reply> {
    if c.handler.Replaying? && c.up then c.outbox + Replay(c.handler.rows, c.handler.latestSeq) else c.outbox
  }

  ghost function SnapshotsIn(msgs: seq<Reply>): set<Change> {
    if msgs == [] then {} else Brings(msgs[0]) + SnapshotsIn(msgs[1..])
  }

  /** Each caught_up names a snapshot that the document has, or that comes before it in the stream. */
  ghost predicate NoneMissing(history: Log, doc: set<Change>, msgs: seq<Reply>) {
    forall i :: 0 <= i < |msgs| && msgs[i].CaughtUp? ==>
      Covers(history, doc + SnapshotsIn(msgs[..i]), msgs[i].latestSeq)
  }

  /** Nothing under way for the device would make it record a number it does not cover. */
  ghost predicate Settled(s: State, d: DeviceId)
    requires d in s.replicas
  {
    && (s.replicas[d].memSeq.Some? ==> Covers(s.history, s.replicas[d].doc, s.replicas[d].memSeq.value))
    && forall c | c in s.conns && s.conns[c].device == d :: NoneMissing(s.history, s.replicas[d].doc, Stream(s.conns[c]))
  }

  lemma {:induction false} TruthfulIff(h: Log, doc: set<Change>, msgs: seq<Reply>)
    requires Sound(h, doc, msgs)
    ensures Truthful(h, doc, msgs) <==> NoneMissing(h, doc, msgs)
    decreases |msgs|
  {
    if msgs != [] {
      var m, rest, doc' := msgs[0], msgs[1..], doc + Brings(msgs[0]);
      assert SoundMessage(h, doc, m);
      SoundGrows(h, h, doc, doc', rest);
      TruthfulIff(h, doc', rest);
      NoneMissingRest(h, doc, msgs);
      assert doc + {} == doc;
    }
  }

  lemma SnapshotsAhead(msgs: seq<Reply>, i: nat)
    requires msgs != [] && i < |msgs|
    ensures SnapshotsIn(msgs[..i + 1]) == Brings(msgs[0]) + SnapshotsIn(msgs[1..][..i])
  {
    assert msgs[..i + 1][1..] == msgs[1..][..i];
  }

  lemma NoneMissingRest(h: Log, doc: set<Change>, msgs: seq<Reply>)
    requires msgs != []
    ensures NoneMissing(h, doc, msgs) <==>
      (msgs[0].CaughtUp? ==> Covers(h, doc, msgs[0].latestSeq)) && NoneMissing(h, doc + Brings(msgs[0]), msgs[1..])
  {
    var rest, doc' := msgs[1..], doc + Brings(msgs[0]);
    assert SnapshotsIn(msgs[..0]) == {} && doc + {} == doc;
    forall i | 0 <= i < |rest| ensures doc + SnapshotsIn(msgs[..i + 1]) == doc' + SnapshotsIn(rest[..i]) {
      SnapshotsAhead(msgs, i);
    }
    if NoneMissing(h, doc', rest) && (msgs[0].CaughtUp? ==> Covers(h, doc, msgs[0].latestSeq)) {
      forall i | 0 <= i < |msgs| && msgs[i].CaughtUp? ensures Covers(h, doc + SnapshotsIn(msgs[..i]), msgs[i].latestSeq) {
        if i > 0 { assert rest[i - 1] == msgs[i]; }
      }
    }
    if NoneMissing(h, doc, msgs) {
      forall i | 0 <= i < |rest| && rest[i].CaughtUp? ensures Covers(h, doc' + SnapshotsIn(rest[..i]), rest[i].latestSeq) {
        assert rest[i] == msgs[i + 1];
      }
    }
  }

  /** Without a caught_up under way, and without a stale number in the sync client, all is settled. */
  lemma NoCaughtUpIsSettled(s: State, d: DeviceId)
    requires d in s.replicas && s.replicas[d].memSeq == None
    requires forall c, m | c in s.conns && s.conns[c].device == d && m in Stream(s.conns[c]) :: !m.CaughtUp?
    ensures Settled(s, d)
  {
    forall c | c in s.conns && s.conns[c].device == d
      ensures NoneMissing(s.history, s.replicas[d].doc, Stream(s.conns[c]))
    {
      assert forall i :: 0 <= i < |Stream(s.conns[c])| ==> Stream(s.conns[c])[i] in Stream(s.conns[c]);
    }
  }

  // ---- each step

  lemma StreamSound(h: Log, doc: set<Change>, c: Conn)
    requires ConnOk(h, doc, c, false)
    ensures Sound(h, doc, Stream(c))
  {
    if c.handler.Replaying? && c.up { ReplaySound(h, doc, c.handler.rows, c.handler.latestSeq); }
  }

  lemma {:induction false} ReplaySound(h: Log, doc: set<Change>, rows: Log, latestSeq: nat)
    requires forall r | r in rows :: InHistory(h, r)
    ensures Sound(h, doc, Replay(rows, latestSeq))
  {
    if rows != [] {
      assert rows[0] in rows;
      ReplaySound(h, doc, rows[1..], latestSeq);
    }
  }

  /** A connection of a closed document is fit for an open one if its stream is settled. */
  lemma ConnReopens(h: Log, doc: set<Change>, c: Conn)
    requires ConnOk(h, doc, c, false) && NoneMissing(h, doc, Stream(c))
    ensures ConnOk(h, doc, c)
  {
    StreamSound(h, doc, c);
    TruthfulIff(h, doc, Stream(c));
    if c.handler.Replaying? && c.up {
      TruthfulPrefix(h, doc, Stream(c), |c.outbox|);
      assert Stream(c)[..|c.outbox|] == c.outbox;
    }
  }

  lemma ReopenOk(s: State, d: DeviceId, closed: set<DeviceId>)
    requires Inv(s, closed) && d in s.replicas && Settled(s, d)
    ensures Inv(s, closed - {d})
  {
    forall c | c in s.conns
      ensures ConnOk(s.history, s.replicas[s.conns[c].device].doc, s.conns[c], s.conns[c].device !in closed - {d})
    {
      if s.conns[c].device == d && d in closed { ConnReopens(s.history, s.replicas[d].doc, s.conns[c]); }
    }
    forall k | k in s.replicas ensures ReplicaOk(s.history, s.replicas[k], k !in closed - {d}) {
      assert ReplicaOk(s.history, s.replicas[k], k !in closed);
    }
  }

  lemma CloseDocOk(s: State, d: DeviceId, closed: set<DeviceId>)
    requires Inv(s, closed)
    ensures Inv(s, closed + {d})
  {
    forall k | k in s.replicas ensures ReplicaOk(s.history, s.replicas[k], k !in closed + {d}) {
      assert ReplicaOk(s.history, s.replicas[k], k !in closed);
    }
  }

  lemma IgnoredConnOk(h: Log, doc: set<Change>, c: Conn)
    requires ConnOk(h, doc, c, false) && c.outbox != []
    ensures ConnOk(h, doc, c.(outbox := c.outbox[1..]), false)
  {
    assert forall m :: m in c.outbox[1..] ==> m in c.outbox;
  }

  lemma IgnoredReplicaOk(h: Log, r: Replica, m: Reply)
    requires ReplicaOk(h, r, false) && SoundMessage(h, r.doc, m)
    ensures ReplicaOk(h, Ignoring(r, m), false)
  {
  }

  lemma IgnoreOk(s: State, c: ConnId, closed: set<DeviceId>)
    requires Inv(s, closed) && c in s.conns && s.conns[c].device in s.replicas && s.conns[c].outbox != []
    requires s.conns[c].device in closed
    ensures Inv(OnIgnore(s, c), closed)
  {
    var conn := s.conns[c];
    var d := conn.device;
    assert conn.outbox[0] in conn.outbox && SoundMessage(s.history, s.replicas[d].doc, conn.outbox[0]);
    IgnoredConnOk(s.history, s.replicas[d].doc, conn);
    OneConnOk(s, c, conn.(outbox := conn.outbox[1..]), closed);
    IgnoredReplicaOk(s.history, s.replicas[d], conn.outbox[0]);
    LocalOk(SetConn(s, c, conn.(outbox := conn.outbox[1..])), d, Ignoring(s.replicas[d], conn.outbox[0]), closed);
  }

  lemma UnsubscribeOk(x: Ext, d: DeviceId)
    requires Inv(x.base, x.closed) && d in x.base.replicas
    ensures Inv(OnUnsubscribe(x, d).base, x.closed)
  {
    LocalOk(x.base, d, x.base.replicas[d].(memSeq := None), x.closed);
  }

  lemma StepKeeps(x: Ext, st: Step)
    requires Inv(x.base, x.closed) && Can(x, st)
    requires st.Reopen? ==> Settled(x.base, st.device)
    ensures Inv(Do(x, st).base, Do(x, st).closed)
  {
    match st
    case Base(e) => StepKeepsInv(x.base, e, x.closed);
    case Unsubscribe(d) => UnsubscribeOk(x, d);
    case Close(d) => CloseDocOk(x.base, d, x.closed);
    case Reopen(d) => ReopenOk(x.base, d, x.closed);
    case Ignore(c) => IgnoreOk(x.base, c, x.closed);
    case Leave(c) => HubOk(x.base, x.base.hub - {c}, x.closed);
  }

  // ---- whole runs

  ghost predicate Start(x: Ext) {
    Init(x.base) && x.leaving == multiset{}
  }

  /** Whenever the document is reopened, everything under way for it is settled. */
  ghost predicate SettledReopens(x: Ext, steps: seq<Step>)
    requires IsSteps(x, steps)
    decreases |steps|
  {
    steps == [] ||
      ((steps[0].Reopen? ==> Settled(x.base, steps[0].device)) && SettledReopens(Do(x, steps[0]), steps[1..]))
  }

  lemma {:induction false} RunKeeps(x: Ext, steps: seq<Step>)
    requires Inv(x.base, x.closed) && IsSteps(x, steps) && SettledReopens(x, steps)
    ensures Inv(End(x, steps).base, End(x, steps).closed)
    decreases |steps|
  {
    if steps != [] {
      StepKeeps(x, steps[0]);
      RunKeeps(Do(x, steps[0]), steps[1..]);
    }
  }

  /** The recorded number, and the one an open document would resubscribe with, are covered. */
  ghost predicate NumbersCovered(x: Ext, d: DeviceId) {
    d in x.base.replicas ==>
      var r := x.base.replicas[d];
      && Covers(x.base.history, r.doc, r.lastSeq)
      && (d !in x.closed ==> Covers(x.base.history, r.doc, SubscribeSeq(r, true)))
  }

  lemma InvCovers(x: Ext, d: DeviceId)
    requires Inv(x.base, x.closed)
    ensures NumbersCovered(x, d)
  {
    if d in x.base.replicas { assert ReplicaOk(x.base.history, x.base.replicas[d], d !in x.closed); }
  }

  /** Over every run that reopens the document only when all is settled, the numbers stay covered. */
  lemma SettledReopensKeepCovers(x: Ext, steps: seq<Step>, d: DeviceId)
    requires Start(x) && IsSteps(x, steps) && SettledReopens(x, steps)
    ensures NumbersCovered(End(x, steps), d)
  {
    InitOk(x.base, x.closed);
    RunKeeps(x, steps);
    InvCovers(End(x, steps), d);
  }

  // ---- an unsettled reopening breaks the numbers

  ghost predicate NoReopen(steps: seq<Step>) {
    forall st | st in steps :: !st.Reopen?
  }

  lemma {:induction false} NoReopenIsSettled(x: Ext, steps: seq<Step>)
    requires IsSteps(x, steps) && NoReopen(steps)
    ensures SettledReopens(x, steps)
    decreases |steps|
  {
    if steps != [] {
      assert steps[0] in steps;
      NoReopenIsSettled(Do(x, steps[0]), steps[1..]);
    }
  }

  lemma StepFirst(x: Ext, st: Step, steps: seq<Step>)
    requires Can(x, st) && IsSteps(Do(x, st), steps)
    ensures IsSteps(x, [st] + steps) && End(x, [st] + steps) == End(Do(x, st), steps)
  {
    assert ([st] + steps)[1..] == steps;
  }

  lemma {:induction false} StepsJoin(x: Ext, first: seq<Step>, second: seq<Step>)
    requires IsSteps(x, first) && IsSteps(End(x, first), second)
    ensures IsSteps(x, first + second) && End(x, first + second) == End(End(x, first), second)
    decreases |first|
  {
    if first == [] {
      assert first + second == second;
    } else {
      assert (first + second)[0] == first[0] && (first + second)[1..] == first[1..] + second;
      StepsJoin(Do(x, first[0]), first[1..], second);
    }
  }

  lemma StreamStays(c: Conn)
    requires c.handler.Replaying? && c.up
    ensures c.handler.rows != [] ==> Stream(Replayed(c)) == Stream(c)
    ensures c.handler.rows == [] ==> Stream(Enqueue(c.(handler := Idle), CaughtUp(c.handler.latestSeq))) == Stream(c)
  {
  }

  /** One step of a replay under way moves the stream on into the queue. */
  function ReplayStep(s: State, c: ConnId): Event
    requires c in s.conns && s.conns[c].handler.Replaying?
  {
    if s.conns[c].handler.rows != [] then ReplayNext(c) else ReplayDone(c)
  }

  lemma ReplayStepEffect(s: State, c: ConnId)
    requires c in s.conns && s.conns[c].handler.Replaying? && s.conns[c].up
    ensures var e := ReplayStep(s, c);
      && Enabled(s, e) && !NeedsOpen(s, e, {})
      && var t := Apply(s, e);
      && t.history == s.history && t.replicas == s.replicas && c in t.conns && t.conns[c].device == s.conns[c].device
      && Stream(t.conns[c]) == Stream(s.conns[c]) && RowsLeft(t.conns[c]) < RowsLeft(s.conns[c])
  {
    StreamStays(s.conns[c]);
    if s.conns[c].handler.rows != [] {
      assert OnReplayNext(s, c).conns[c] == Replayed(s.conns[c]);
    }
  }

  function RowsLeft(c: Conn): nat {
    if c.handler.Replaying? then |c.handler.rows| + 1 else 0
  }

  /** The handler can finish its replay: the whole stream is then in the queue. */
  lemma {:induction false} ReplayCanFinish(x: Ext, c: ConnId) returns (steps: seq<Step>, y: Ext)
    requires c in x.base.conns
    ensures IsSteps(x, steps) && End(x, steps) == y && NoReopen(steps) && y.closed == x.closed
    ensures y.base.history == x.base.history && y.base.replicas == x.base.replicas
    ensures c in y.base.conns && y.base.conns[c].device == x.base.conns[c].device
    ensures y.base.conns[c].outbox == Stream(x.base.conns[c])
    decreases RowsLeft(x.base.conns[c])
  {
    steps, y := [], x;
    if x.base.conns[c].handler.Replaying? && x.base.conns[c].up {
      var e := ReplayStep(x.base, c);
      ReplayStepEffect(x.base, c);
      steps, y := ReplayCanFinish(x.(base := Apply(x.base, e)), c);
      StepFirst(x, Base(e), steps);
      steps := [Base(e)] + steps;
    }
  }

  /** Handling an unsettled queue in order ends with an uncovered number. */
  lemma {:induction false} QueueBreaks(x: Ext, c: ConnId) returns (steps: seq<Step>)
    requires c in x.base.conns && x.base.conns[c].device in x.base.replicas && x.base.conns[c].device !in x.closed
    requires var doc := x.base.replicas[x.base.conns[c].device].doc;
      Sound(x.base.history, doc, x.base.conns[c].outbox) && !Truthful(x.base.history, doc, x.base.conns[c].outbox)
    ensures IsSteps(x, steps) && NoReopen(steps) && !NumbersCovered(End(x, steps), x.base.conns[c].device)
    decreases |x.base.conns[c].outbox|
  {
    var conn := x.base.conns[c];
    var d, m, rest := conn.device, conn.outbox[0], conn.outbox[1..];
    var y := x.(base := OnDeliver(x.base, c));
    assert m in conn.outbox && SoundMessage(x.base.history, x.base.replicas[d].doc, m);
    DeliverEffect(x.base, c);
    if m.CaughtUp? && !Covers(x.base.history, x.base.replicas[d].doc, m.latestSeq) {
      steps := [];
    } else {
      var doc' := x.base.replicas[d].doc + Brings(m);
      SoundGrows(x.base.history, x.base.history, x.base.replicas[d].doc, doc', conn.outbox);
      assert forall k :: k in rest ==> k in conn.outbox;
      assert x.base.replicas[d].doc + {} == x.base.replicas[d].doc;
      steps := QueueBreaks(y, c);
    }
    StepFirst(x, Base(Deliver(c)), steps);
    steps := [Base(Deliver(c))] + steps;
  }

  lemma DeliverEffect(s: State, c: ConnId)
    requires c in s.conns && s.conns[c].device in s.replicas && s.conns[c].outbox != []
    ensures var t := OnDeliver(s, c); var m := s.conns[c].outbox[0]; var d := s.conns[c].device;
      && t.history == s.history && c in t.conns && t.conns[c] == s.conns[c].(outbox := s.conns[c].outbox[1..])
      && t.replicas.Keys == s.replicas.Keys && t.replicas[d].doc == s.replicas[d].doc + Brings(m)
      && (m.CaughtUp? ==> t.replicas[d].lastSeq == m.latestSeq)
  {
  }

  lemma UnsettledBreaks(x: Ext, d: DeviceId) returns (steps: seq<Step>)
    requires Inv(x.base, x.closed) && Can(x, Reopen(d)) && !Settled(x.base, d)
    ensures IsSteps(Do(x, Reopen(d)), steps) && NoReopen(steps) && !NumbersCovered(End(Do(x, Reopen(d)), steps), d)
  {
    var y := Do(x, Reopen(d));
    var r := x.base.replicas[d];
    if r.memSeq.Some? && !Covers(x.base.history, r.doc, r.memSeq.value) {
      steps := [];
    } else {
      var c :| c in x.base.conns && x.base.conns[c].device == d && !NoneMissing(x.base.history, r.doc, Stream(x.base.conns[c]));
      assert ConnOk(x.base.history, r.doc, x.base.conns[c], false);
      StreamSound(x.base.history, r.doc, x.base.conns[c]);
      TruthfulIff(x.base.history, r.doc, Stream(x.base.conns[c]));
      var first, z := ReplayCanFinish(y, c);
      var second := QueueBreaks(z, c);
      StepsJoin(y, first, second);
      steps := first + second;
    }
  }

  /**
   The exact condition. In a state reached by settled reopenings, with the document closed:
   reopening it keeps the numbers covered, whatever happens until the next reopening, if and only
   if each caught_up under way names a snapshot that the document has or that comes before it in
   its stream, and the sync client has no uncovered number left from a caught_up it ignored.
   */
  lemma ReopenKeepsCoversIff(start: Ext, before: seq<Step>, d: DeviceId)
    requires Start(start) && IsSteps(start, before) && SettledReopens(start, before)
    requires Can(End(start, before), Reopen(d))
    ensures var x := End(start, before);
      Settled(x.base, d) <==>
        forall steps :: IsSteps(Do(x, Reopen(d)), steps) && NoReopen(steps) ==>
          NumbersCovered(End(Do(x, Reopen(d)), steps), d)
  {
    InitOk(start.base, start.closed);
    RunKeeps(start, before);
    var x := End(start, before);
    if Settled(x.base, d) {
      forall steps | IsSteps(Do(x, Reopen(d)), steps) && NoReopen(steps)
        ensures NumbersCovered(End(Do(x, Reopen(d)), steps), d)
      {
        SettledKeeps(x, d, steps);
      }
    } else {
      var steps := UnsettledBreaks(x, d);
    }
  }

  lemma SettledKeeps(x: Ext, d: DeviceId, steps: seq<Step>)
    requires Inv(x.base, x.closed) && Can(x, Reopen(d)) && Settled(x.base, d)
    requires IsSteps(Do(x, Reopen(d)), steps) && NoReopen(steps)
    ensures NumbersCovered(End(Do(x, Reopen(d)), steps), d)
  {
    StepKeeps(x, Reopen(d));
    NoReopenIsSettled(Do(x, Reopen(d)), steps);
    RunKeeps(Do(x, Reopen(d)), steps);
    InvCovers(End(Do(x, Reopen(d)), steps), d);
  }
}
