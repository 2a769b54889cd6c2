/**
 What every event of the protocol keeps: recorded sequence numbers are truthful wherever they
 are, on a device, on the wire, or in a handler. Catch-up completeness follows.
 */
module SyncInvariant {
  import opened Wrappers
  import opened DocumentLog
  import opened SyncProtocol

  /** A document holding `doc` is allowed to record the number `q`: it contains snapshot q. */
  ghost predicate Covers(history: Log, doc: set<Change>, q: nat) {
    q == 0 || (q <= |history| && history[q - 1].snap <= doc)
  }

  /** Handled in order, the messages never make a document record a number it does not cover. */
  ghost predicate Truthful(history: Log, doc: set<Change>, msgs: seq<Reply>)
    decreases |msgs|
  {
    if msgs == [] then true
    else match msgs[0]
      case Sync(q, snap) => 1 <= q <= |history| && history[q - 1].snap == snap && Truthful(history, doc + snap, msgs[1..])
      case CaughtUp(q) => Covers(history, doc, q) && Truthful(history, doc, msgs[1..])
      case Ack(q) => Covers(history, doc, q) && Truthful(history, doc, msgs[1..])
      case Notice => Truthful(history, doc, msgs[1..])
  }

  /** What a handler in the middle of a replay is still going to enqueue. */
  ghost function Replay(rows: Log, latestSeq: nat): seq<Reply> {
    if rows == [] then [CaughtUp(latestSeq)]
    else [Sync(rows[0].seqNo, rows[0].snap)] + Replay(rows[1..], latestSeq)
  }

  /** Each message by itself is one the server may send to a document holding `doc`. */
  ghost predicate Sound(history: Log, doc: set<Change>, msgs: seq<Reply>) {
    forall m | m in msgs :: SoundMessage(history, doc, m)
  }

  ghost predicate SoundMessage(history: Log, doc: set<Change>, m: Reply) {
    match m
    case Sync(q, snap) => 1 <= q <= |history| && history[q - 1].snap == snap
    case Ack(q) => Covers(history, doc, q)
    case _ => true
  }

  /** With `strict`, the document is open and handles what it is sent. */
  ghost predicate HandlerOk(history: Log, doc: set<Change>, c: Conn, strict: bool := true) {
    match c.handler
    case Registered(q) => Covers(history, doc, q)
    case Replaying(rows, q) =>
      && (forall r | r in rows :: InHistory(history, r))
      && (strict && c.up ==> Truthful(history, doc, c.outbox + Replay(rows, q)))
    case Stored(row) => InHistory(history, row) && row.device == c.device
    case Compacted(row) => InHistory(history, row) && row.device == c.device
    case Acked(row) => InHistory(history, row) && row.device == c.device
    case Relaying(row, _) => InHistory(history, row) && row.device == c.device
    case _ => true
  }

  ghost predicate RequestOk(history: Log, doc: set<Change>, m: Request) {
    match m
    case Subscribe(q) => Covers(history, doc, q)
    case Push(snap) => snap <= doc
  }

  ghost predicate ConnOk(history: Log, doc: set<Change>, c: Conn, strict: bool := true) {
    && (forall i :: 0 <= i < |c.inbox| ==> RequestOk(history, doc, c.inbox[i]))
    && Sound(history, doc, c.outbox)
    && (strict ==> Truthful(history, doc, c.outbox))
    && HandlerOk(history, doc, c, strict)
  }

  ghost predicate ReplicaOk(history: Log, r: Replica, strict: bool := true) {
    && Covers(history, r.doc, r.lastSeq)
    && (strict && r.memSeq.Some? ==> Covers(history, r.doc, r.memSeq.value))
    && (forall read | read in r.lookups :: Covers(history, r.doc, read.seqNo))
    && (forall q | q in r.seqWrites :: Covers(history, r.doc, q))
    && (forall snap | snap in r.drafts :: snap <= r.doc)
  }

  ghost predicate LinkOk(conns: map<ConnId, Conn>, d: DeviceId, r: Replica) {
    r.link.Some? ==> r.link.value in conns && conns[r.link.value].device == d && conns[r.link.value].up
  }

  /** Every stored snapshot is still held by the device that pushed it. */
  ghost predicate AuthorsHold(history: Log, replicas: map<DeviceId, Replica>) {
    forall i :: 0 <= i < |history| ==>
      history[i].device in replicas && history[i].snap <= replicas[history[i].device].doc
  }

  ghost predicate ConnsOk(history: Log, replicas: map<DeviceId, Replica>, conns: map<ConnId, Conn>,
                          closed: set<DeviceId> := {}) {
    forall c | c in conns ::
      conns[c].device in replicas && ConnOk(history, replicas[conns[c].device].doc, conns[c], conns[c].device !in closed)
  }

  ghost predicate ReplicasOk(history: Log, replicas: map<DeviceId, Replica>, closed: set<DeviceId> := {}) {
    forall d | d in replicas :: ReplicaOk(history, replicas[d], d !in closed)
  }

  ghost predicate LinksOk(replicas: map<DeviceId, Replica>, conns: map<ConnId, Conn>) {
    forall d | d in replicas :: LinkOk(conns, d, replicas[d])
  }

  /** The invariant when the devices in `closed` have the document closed. */
  ghost predicate Inv(s: State, closed: set<DeviceId> := {}) {
    && LogOk(s.log, s.history)
    && AuthorsHold(s.history, s.replicas)
    && ReplicasOk(s.history, s.replicas, closed)
    && LinksOk(s.replicas, s.conns)
    && ConnsOk(s.history, s.replicas, s.conns, closed)
    && s.hub <= s.conns.Keys
  }

  // ---- the stream of messages to one device

  lemma {:induction false} TruthfulGrows(h: Log, h': Log, doc: set<Change>, doc': set<Change>, msgs: seq<Reply>)
    requires Truthful(h, doc, msgs) && h <= h' && doc <= doc'
    ensures Truthful(h', doc', msgs)
    decreases |msgs|
  {
    if msgs != [] {
      match msgs[0]
      case Sync(_, snap) => TruthfulGrows(h, h', doc + snap, doc' + snap, msgs[1..]);
      case CaughtUp(_) => TruthfulGrows(h, h', doc, doc', msgs[1..]);
      case Ack(_) => TruthfulGrows(h, h', doc, doc', msgs[1..]);
      case Notice => TruthfulGrows(h, h', doc, doc', msgs[1..]);
    }
  }

  lemma {:induction false} TruthfulPrefix(h: Log, doc: set<Change>, msgs: seq<Reply>, n: nat)
    requires Truthful(h, doc, msgs) && n <= |msgs|
    ensures Truthful(h, doc, msgs[..n])
    decreases n
  {
    if n != 0 {
      assert msgs[..n][1..] == msgs[1..][..n - 1];
      match msgs[0]
      case Sync(_, snap) => TruthfulPrefix(h, doc + snap, msgs[1..], n - 1);
      case CaughtUp(_) => TruthfulPrefix(h, doc, msgs[1..], n - 1);
      case Ack(_) => TruthfulPrefix(h, doc, msgs[1..], n - 1);
      case Notice => TruthfulPrefix(h, doc, msgs[1..], n - 1);
    }
  }

  /** A message that is truthful for the document may be put anywhere in the stream. */
  lemma {:induction false} TruthfulInsert(h: Log, doc: set<Change>, first: seq<Reply>, m: Reply, second: seq<Reply>)
    requires Truthful(h, doc, first + second)
    requires Truthful(h, doc, [m])
    ensures Truthful(h, doc, first + [m] + second)
    decreases |first|
  {
    if first == [] {
      assert first + second == second && first + [m] + second == [m] + second;
      assert ([m] + second)[1..] == second;
      if m.Sync? { TruthfulGrows(h, h, doc, doc + m.snap, second); }
    } else {
      assert (first + second)[1..] == first[1..] + second;
      assert (first + [m] + second)[1..] == first[1..] + [m] + second;
      var doc' := if first[0].Sync? then doc + first[0].snap else doc;
      TruthfulGrows(h, h, doc, doc', [m]);
      TruthfulInsert(h, doc', first[1..], m, second);
    }
  }

  lemma {:induction false} ReplayTruthful(h: Log, doc: set<Change>, rows: Log, latestSeq: nat)
    requires forall r | r in rows :: InHistory(h, r)
    requires if rows == [] then Covers(h, doc, latestSeq) else rows[|rows| - 1].seqNo == latestSeq
    ensures Truthful(h, doc, Replay(rows, latestSeq))
    decreases rows
  {
    var whole := Replay(rows, latestSeq);
    if rows == [] {
      assert whole[1..] == [];
    } else {
      assert rows[0] in rows && whole[1..] == Replay(rows[1..], latestSeq);
      assert rows[1..] != [] ==> rows[1..][|rows| - 2] == rows[|rows| - 1];
      ReplayTruthful(h, doc + rows[0].snap, rows[1..], latestSeq);
    }
  }

  // ---- what growth of the history and of the documents leaves alone

  lemma SoundGrows(h: Log, h': Log, doc: set<Change>, doc': set<Change>, msgs: seq<Reply>)
    requires Sound(h, doc, msgs) && h <= h' && doc <= doc'
    ensures Sound(h', doc', msgs)
  {
    forall m | m in msgs ensures SoundMessage(h', doc', m) {
      assert SoundMessage(h, doc, m);
    }
  }

  lemma ConnGrows(h: Log, h': Log, doc: set<Change>, doc': set<Change>, c: Conn, strict: bool := true)
    requires ConnOk(h, doc, c, strict) && h <= h' && doc <= doc'
    ensures ConnOk(h', doc', c, strict)
  {
    SoundGrows(h, h', doc, doc', c.outbox);
    if strict {
      TruthfulGrows(h, h', doc, doc', c.outbox);
      if c.handler.Replaying? && c.up {
        TruthfulGrows(h, h', doc, doc', c.outbox + Replay(c.handler.rows, c.handler.latestSeq));
      }
    }
  }

  ghost predicate DocsGrow(before: map<DeviceId, Replica>, after: map<DeviceId, Replica>) {
    && before.Keys == after.Keys
    && forall d | d in before :: before[d].doc <= after[d].doc
  }

  lemma ConnsGrow(h: Log, h': Log, before: map<DeviceId, Replica>, after: map<DeviceId, Replica>, conns: map<ConnId, Conn>,
                  closed: set<DeviceId> := {})
    requires ConnsOk(h, before, conns, closed) && h <= h' && DocsGrow(before, after)
    ensures ConnsOk(h', after, conns, closed)
  {
    forall c | c in conns
      ensures conns[c].device in after && ConnOk(h', after[conns[c].device].doc, conns[c], conns[c].device !in closed)
    {
      ConnGrows(h, h', before[conns[c].device].doc, after[conns[c].device].doc, conns[c], conns[c].device !in closed);
    }
  }

  /** A message that may come anywhere in the stream to a document holding `doc`. */
  ghost predicate Welcome(h: Log, doc: set<Change>, m: Reply) {
    Truthful(h, doc, [m]) && SoundMessage(h, doc, m)
  }

  lemma SoundSnoc(h: Log, doc: set<Change>, msgs: seq<Reply>, m: Reply)
    requires Sound(h, doc, msgs) && SoundMessage(h, doc, m)
    ensures Sound(h, doc, msgs + [m])
  {
  }

  lemma EnqueueOk(h: Log, doc: set<Change>, c: Conn, m: Reply, strict: bool := true)
    requires ConnOk(h, doc, c, strict) && Welcome(h, doc, m)
    ensures ConnOk(h, doc, Enqueue(c, m), strict)
  {
    if c.up {
      SoundSnoc(h, doc, c.outbox, m);
      if strict {
        assert c.outbox + [] == c.outbox && c.outbox + [m] + [] == c.outbox + [m];
        TruthfulInsert(h, doc, c.outbox, m, []);
        if c.handler.Replaying? {
          TruthfulInsert(h, doc, c.outbox, m, Replay(c.handler.rows, c.handler.latestSeq));
        }
      }
    }
  }

  lemma HandleReplicaOk(h: Log, r: Replica, m: Reply, rest: seq<Reply>)
    requires ReplicaOk(h, r) && Truthful(h, r.doc, [m] + rest)
    ensures ReplicaOk(h, Handle(r, m)) && r.doc <= Handle(r, m).doc
    ensures Truthful(h, Handle(r, m).doc, rest)
  {
    assert ([m] + rest)[1..] == rest;
  }

  /** Handling the first message of the stream keeps the device's numbers truthful. */
  lemma HandleOk(h: Log, r: Replica, c: Conn)
    requires ReplicaOk(h, r) && ConnOk(h, r.doc, c) && c.outbox != []
    ensures ReplicaOk(h, Handle(r, c.outbox[0]))
    ensures r.doc <= Handle(r, c.outbox[0]).doc
    ensures ConnOk(h, Handle(r, c.outbox[0]).doc, c.(outbox := c.outbox[1..]))
  {
    var m, rest := c.outbox[0], c.outbox[1..];
    assert c.outbox == [m] + rest;
    HandleReplicaOk(h, r, m, rest);
    ConnGrows(h, h, r.doc, Handle(r, m).doc, c);
    assert forall x :: x in rest ==> x in c.outbox;
    if c.handler.Replaying? && c.up {
      var more := Replay(c.handler.rows, c.handler.latestSeq);
      assert c.outbox + more == [m] + (rest + more);
      HandleReplicaOk(h, r, m, rest + more);
    }
  }

  // ---- every event keeps the invariant

  lemma InitOk(s: State, closed: set<DeviceId> := {})
    requires Init(s)
    ensures Inv(s, closed)
  {
  }

  lemma ConnStays(replicas: map<DeviceId, Replica>, conns: map<ConnId, Conn>, c: ConnId, conn: Conn)
    requires LinksOk(replicas, conns)
    requires c in conns ==> conn.device == conns[c].device
    requires c in conns && conn.up != conns[c].up ==>
      conn.device in replicas && replicas[conn.device].link != Some(c)
    ensures LinksOk(replicas, conns[c := conn])
  {
    forall d | d in replicas ensures LinkOk(conns[c := conn], d, replicas[d]) {
      assert LinkOk(conns, d, replicas[d]);
    }
  }

  lemma ConnsStayOk(history: Log, replicas: map<DeviceId, Replica>, conns: map<ConnId, Conn>, c: ConnId, conn: Conn,
                    closed: set<DeviceId> := {})
    requires ConnsOk(history, replicas, conns, closed) && conn.device in replicas
    requires ConnOk(history, replicas[conn.device].doc, conn, conn.device !in closed)
    ensures ConnsOk(history, replicas, conns[c := conn], closed)
  {
  }

  /** Events that change one connection, and neither the history nor a document. */
  lemma OneConnOk(s: State, c: ConnId, conn: Conn, closed: set<DeviceId> := {})
    requires Inv(s, closed)
    requires conn.device in s.replicas
    requires ConnOk(s.history, s.replicas[conn.device].doc, conn, conn.device !in closed)
    requires c in s.conns ==> conn.device == s.conns[c].device && conn.up == s.conns[c].up
    ensures Inv(SetConn(s, c, conn), closed)
  {
    ConnStays(s.replicas, s.conns, c, conn);
    ConnsStayOk(s.history, s.replicas, s.conns, c, conn, closed);
  }

  lemma AuthorsStay(history: Log, before: map<DeviceId, Replica>, after: map<DeviceId, Replica>)
    requires AuthorsHold(history, before) && DocsGrow(before, after)
    ensures AuthorsHold(history, after)
  {
  }

  lemma DocsGrowOne(replicas: map<DeviceId, Replica>, d: DeviceId, r: Replica)
    requires d in replicas && replicas[d].doc <= r.doc
    ensures DocsGrow(replicas, replicas[d := r])
  {
  }

  lemma LinksStay(replicas: map<DeviceId, Replica>, conns: map<ConnId, Conn>, d: DeviceId, r: Replica)
    requires LinksOk(replicas, conns) && LinkOk(conns, d, r)
    ensures LinksOk(replicas[d := r], conns)
  {
  }

  lemma ReplicasStay(h: Log, replicas: map<DeviceId, Replica>, d: DeviceId, r: Replica, closed: set<DeviceId>)
    requires ReplicasOk(h, replicas, closed) && ReplicaOk(h, r, d !in closed)
    ensures ReplicasOk(h, replicas[d := r], closed)
  {
  }

  /** Events that change one device whose document may grow. */
  lemma OneReplicaOk(s: State, d: DeviceId, r: Replica, closed: set<DeviceId> := {})
    requires Inv(s, closed) && d in s.replicas
    requires ReplicaOk(s.history, r, d !in closed) && LinkOk(s.conns, d, r) && s.replicas[d].doc <= r.doc
    ensures Inv(SetReplica(s, d, r), closed)
  {
    ReplicasStay(s.history, s.replicas, d, r, closed);
    DocsGrowOne(s.replicas, d, r);
    AuthorsStay(s.history, s.replicas, s.replicas[d := r]);
    LinksStay(s.replicas, s.conns, d, r);
    ConnsGrow(s.history, s.history, s.replicas, s.replicas[d := r], s.conns, closed);
  }

  lemma SendOk(s: State, d: DeviceId, m: Request, closed: set<DeviceId> := {})
    requires Inv(s, closed) && d in s.replicas && RequestOk(s.history, s.replicas[d].doc, m)
    ensures Inv(Send(s, d, m), closed)
  {
    if s.replicas[d].link.Some? {
      var c := s.replicas[d].link.value;
      assert LinkOk(s.conns, d, s.replicas[d]);
      OneConnOk(s, c, s.conns[c].(inbox := s.conns[c].inbox + [m]), closed);
    }
  }

  lemma DeliverOk(s: State, c: ConnId, closed: set<DeviceId> := {})
    requires Inv(s, closed) && c in s.conns && s.conns[c].device in s.replicas && s.conns[c].outbox != []
    requires s.conns[c].device !in closed
    ensures Inv(OnDeliver(s, c), closed)
  {
    var conn := s.conns[c];
    var d := conn.device;
    HandleOk(s.history, s.replicas[d], conn);
    var r := Handle(s.replicas[d], conn.outbox[0]);
    assert LinkOk(s.conns, d, s.replicas[d]);
    OneReplicaOk(s, d, r, closed);
    OneConnOk(SetReplica(s, d, r), c, conn.(outbox := conn.outbox[1..]), closed);
    assert OnDeliver(s, c) == SetConn(SetReplica(s, d, r), c, conn.(outbox := conn.outbox[1..]));
  }

  /** Closing a connection: only the device that was linked to it loses its link. */
  lemma CloseOk(s: State, c: ConnId, conn: Conn, closed: set<DeviceId> := {})
    requires Inv(s, closed) && c in s.conns && conn.device == s.conns[c].device
    requires ConnOk(s.history, s.replicas[conn.device].doc, conn, conn.device !in closed)
    requires s.replicas[conn.device].link != Some(c)
    ensures Inv(SetConn(s, c, conn), closed)
  {
    ConnStays(s.replicas, s.conns, c, conn);
    ConnsStayOk(s.history, s.replicas, s.conns, c, conn, closed);
  }

  /** What is left of a connection when its socket is lost. */
  function Dropped(c: Conn, read: nat, received: nat): Conn
    requires read <= |c.inbox| && received <= |c.outbox|
  {
    c.(up := false, inbox := c.inbox[..read], outbox := c.outbox[..received])
  }

  lemma DroppedOk(h: Log, doc: set<Change>, c: Conn, read: nat, received: nat, strict: bool := true)
    requires ConnOk(h, doc, c, strict) && read <= |c.inbox| && received <= |c.outbox|
    ensures ConnOk(h, doc, Dropped(c, read, received), strict)
  {
    if strict { TruthfulPrefix(h, doc, c.outbox, received); }
    assert forall m :: m in c.outbox[..received] ==> m in c.outbox;
  }

  lemma DropOk(s: State, c: ConnId, read: nat, received: nat, closed: set<DeviceId> := {})
    requires Inv(s, closed) && c in s.conns && s.conns[c].device in s.replicas
    requires read <= |s.conns[c].inbox| && received <= |s.conns[c].outbox|
    ensures Inv(OnDrop(s, c, read, received), closed)
  {
    var conn := s.conns[c];
    var d := conn.device;
    DroppedOk(s.history, s.replicas[d].doc, conn, read, received, d !in closed);
    var r := s.replicas[d].(link := if s.replicas[d].link == Some(c) then None else s.replicas[d].link);
    assert LinkOk(s.conns, d, s.replicas[d]);
    OneReplicaOk(s, d, r, closed);
    CloseOk(SetReplica(s, d, r), c, Dropped(conn, read, received), closed);
    assert OnDrop(s, c, read, received) == SetConn(SetReplica(s, d, r), c, Dropped(conn, read, received));
  }

  lemma StoreRowOk(s: State, d: DeviceId, snap: set<Change>, closed: set<DeviceId> := {})
    requires Inv(s, closed) && d in s.replicas && snap <= s.replicas[d].doc
    ensures Inv(s.(log := Store(s.log, d, snap), history := s.history + [NewRow(s.log, d, snap)]), closed)
  {
    StoreKeepsLog(s.log, s.history, d, snap);
    var t := s.(log := Store(s.log, d, snap), history := s.history + [NewRow(s.log, d, snap)]);
    ConnsGrow(s.history, t.history, s.replicas, s.replicas, s.conns, closed);
    forall x | x in t.replicas ensures ReplicaOk(t.history, t.replicas[x], x !in closed) {
      ReplicaGrows(s.history, t.history, s.replicas[x], x !in closed);
    }
  }

  lemma ReplicaGrows(h: Log, h': Log, r: Replica, strict: bool)
    requires ReplicaOk(h, r, strict) && h <= h'
    ensures ReplicaOk(h', r, strict)
  {
  }

  lemma StorePushOk(s: State, c: ConnId, closed: set<DeviceId> := {})
    requires Inv(s, closed) && Waiting(s, c) && s.conns[c].inbox[0].Push?
    ensures Inv(OnStorePush(s, c), closed)
  {
    var conn := s.conns[c];
    var d, snap := conn.device, conn.inbox[0].snap;
    assert RequestOk(s.history, s.replicas[d].doc, conn.inbox[0]);
    StoreKeepsLog(s.log, s.history, d, snap);
    StoreRowOk(s, d, snap, closed);
    var row := NewRow(s.log, d, snap);
    var t := s.(log := Store(s.log, d, snap), history := s.history + [row]);
    OneConnOk(t, c, conn.(inbox := conn.inbox[1..], handler := Stored(row)), closed);
    assert OnStorePush(s, c) == SetConn(t, c, conn.(inbox := conn.inbox[1..], handler := Stored(row)));
  }

  lemma ReadHistoryOk(s: State, c: ConnId, closed: set<DeviceId> := {})
    requires Inv(s, closed) && c in s.conns && s.conns[c].handler.Registered?
    ensures Inv(OnReadHistory(s, c), closed)
    ensures OnReadHistory(s, c).conns[c].handler.latestSeq == |s.history|
  {
    var conn := s.conns[c];
    var doc := s.replicas[conn.device].doc;
    var rows := Since(s.log, conn.handler.lastSeq);
    var latest := LatestOf(rows, conn.handler.lastSeq);
    LatestIsNewest(s.log, s.history, conn.handler.lastSeq);
    if conn.up && conn.device !in closed { TruthfulAppend(s.history, doc, conn.outbox, rows, latest); }
    OneConnOk(s, c, conn.(handler := Replaying(rows, latest)), closed);
  }

  lemma {:induction false} TruthfulAppend(h: Log, doc: set<Change>, outbox: seq<Reply>, rows: Log, latest: nat)
    requires Truthful(h, doc, outbox)
    requires forall r | r in rows :: InHistory(h, r)
    requires if rows == [] then Covers(h, doc, latest) else rows[|rows| - 1].seqNo == latest
    ensures Truthful(h, doc, outbox + Replay(rows, latest))
    decreases |outbox|
  {
    var rest := Replay(rows, latest);
    if outbox == [] {
      assert outbox + rest == rest;
      ReplayTruthful(h, doc, rows, latest);
    } else {
      assert (outbox + rest)[1..] == outbox[1..] + rest;
      TruthfulAppend(h, if outbox[0].Sync? then doc + outbox[0].snap else doc, outbox[1..], rows, latest);
    }
  }

  /** The next row of a replay goes from the handler's part of the stream to the queue's. */
  lemma ReplayNextConn(h: Log, doc: set<Change>, c: Conn, strict: bool := true)
    requires ConnOk(h, doc, c, strict) && c.handler.Replaying? && c.handler.rows != []
    ensures ConnOk(h, doc, Replayed(c), strict)
  {
    var row := c.handler.rows[0];
    var conn := Replayed(c);
    assert forall r :: r in conn.handler.rows ==> r in c.handler.rows;
    assert row in c.handler.rows;
    if c.up {
      SoundSnoc(h, doc, c.outbox, Sync(row.seqNo, row.snap));
      if strict {
        var whole := c.outbox + Replay(c.handler.rows, c.handler.latestSeq);
        assert whole == conn.outbox + Replay(conn.handler.rows, c.handler.latestSeq);
        TruthfulPrefix(h, doc, whole, |conn.outbox|);
        assert whole[..|conn.outbox|] == conn.outbox;
      }
    }
  }

  function Replayed(c: Conn): Conn
    requires c.handler.Replaying? && c.handler.rows != []
  {
    var row := c.handler.rows[0];
    Enqueue(c.(handler := Replaying(c.handler.rows[1..], c.handler.latestSeq)), Sync(row.seqNo, row.snap))
  }

  lemma ReplayNextOk(s: State, c: ConnId, closed: set<DeviceId> := {})
    requires Inv(s, closed) && c in s.conns && s.conns[c].handler.Replaying? && s.conns[c].handler.rows != []
    ensures Inv(OnReplayNext(s, c), closed)
  {
    var d := s.conns[c].device;
    ReplayNextConn(s.history, s.replicas[d].doc, s.conns[c], d !in closed);
    OneConnOk(s, c, Replayed(s.conns[c]), closed);
  }

  lemma ReplayDoneOk(s: State, c: ConnId, closed: set<DeviceId> := {})
    requires Inv(s, closed) && c in s.conns && s.conns[c].handler.Replaying? && s.conns[c].handler.rows == []
    ensures Inv(SetConn(s, c, Enqueue(s.conns[c].(handler := Idle), CaughtUp(s.conns[c].handler.latestSeq))), closed)
  {
    var conn := s.conns[c];
    var m := CaughtUp(conn.handler.latestSeq);
    assert Replay(conn.handler.rows, conn.handler.latestSeq) == [m];
    if conn.up { SoundSnoc(s.history, s.replicas[conn.device].doc, conn.outbox, m); }
    OneConnOk(s, c, Enqueue(conn.(handler := Idle), m), closed);
  }

  lemma RelayToOk(s: State, c: ConnId, x: ConnId, closed: set<DeviceId> := {})
    requires Inv(s, closed) && c in s.conns && s.conns[c].handler.Relaying? && x in s.conns
    ensures Inv(OnRelayTo(s, c, x), closed)
  {
    var row := s.conns[c].handler.row;
    var conn := s.conns[c].(handler := Relaying(row, s.conns[c].handler.targets - {x}));
    OneConnOk(s, c, conn, closed);
    SyncIsWelcome(s.history, s.replicas[s.conns[x].device].doc, row);
    EnqueueStepOk(SetConn(s, c, conn), x, Sync(row.seqNo, row.snap), closed);
  }

  lemma SyncIsWelcome(h: Log, doc: set<Change>, row: Row)
    requires InHistory(h, row)
    ensures Welcome(h, doc, Sync(row.seqNo, row.snap))
  {
    assert [Sync(row.seqNo, row.snap)][1..] == [];
  }

  /** Enqueueing a message that is truthful for the receiving document. */
  lemma EnqueueStepOk(s: State, c: ConnId, m: Reply, closed: set<DeviceId> := {})
    requires Inv(s, closed) && c in s.conns
    requires Welcome(s.history, s.replicas[s.conns[c].device].doc, m)
    ensures Inv(SetConn(s, c, Enqueue(s.conns[c], m)), closed)
  {
    EnqueueOk(s.history, s.replicas[s.conns[c].device].doc, s.conns[c], m, s.conns[c].device !in closed);
    OneConnOk(s, c, Enqueue(s.conns[c], m), closed);
  }

  lemma RegisterOk(s: State, c: ConnId, closed: set<DeviceId> := {})
    requires Inv(s, closed) && Waiting(s, c) && s.conns[c].inbox[0].Subscribe?
    ensures Inv(OnRegister(s, c), closed)
  {
    var conn := s.conns[c];
    assert RequestOk(s.history, s.replicas[conn.device].doc, conn.inbox[0]);
    var conn' := conn.(inbox := conn.inbox[1..], handler := Registered(conn.inbox[0].lastSeq));
    OneConnOk(s, c, conn', closed);
    HubOk(SetConn(s, c, conn'), s.hub + {c}, closed);
  }

  lemma HubOk(s: State, hub: set<ConnId>, closed: set<DeviceId> := {})
    requires Inv(s, closed) && hub <= s.conns.Keys
    ensures Inv(s.(hub := hub), closed)
  {
  }

  /** The handler moves on without changing anything else. */
  lemma MoveOk(s: State, c: ConnId, handler: Handler, closed: set<DeviceId> := {})
    requires Inv(s, closed) && c in s.conns && !handler.Replaying?
    requires HandlerOk(s.history, s.replicas[s.conns[c].device].doc, s.conns[c].(handler := handler))
    ensures Inv(SetConn(s, c, s.conns[c].(handler := handler)), closed)
  {
    OneConnOk(s, c, s.conns[c].(handler := handler), closed);
  }

  lemma CompactOk(s: State, c: ConnId, closed: set<DeviceId> := {})
    requires Inv(s, closed) && c in s.conns && s.conns[c].handler.Stored?
    ensures Inv(OnCompactFails(s, c), closed) && Inv(OnCompactFails(s, c).(log := Compact(s.log)), closed)
  {
    MoveOk(s, c, Compacted(s.conns[c].handler.row), closed);
    CompactKeepsLog(s.log, s.history);
  }

  function Acking(c: Conn): Conn
    requires c.handler.Compacted?
  {
    Enqueue(c.(handler := Acked(c.handler.row)), Ack(c.handler.row.seqNo))
  }

  lemma AckingOk(h: Log, doc: set<Change>, c: Conn, strict: bool := true)
    requires ConnOk(h, doc, c, strict) && c.handler.Compacted? && Covers(h, doc, c.handler.row.seqNo)
    ensures ConnOk(h, doc, Acking(c), strict)
  {
    assert [Ack(c.handler.row.seqNo)][1..] == [];
    EnqueueOk(h, doc, c.(handler := Acked(c.handler.row)), Ack(c.handler.row.seqNo), strict);
  }

  lemma AckPushOk(s: State, c: ConnId, closed: set<DeviceId> := {})
    requires Inv(s, closed) && c in s.conns && s.conns[c].handler.Compacted?
    ensures Inv(OnAckPush(s, c), closed)
  {
    var conn := s.conns[c];
    assert Covers(s.history, s.replicas[conn.device].doc, conn.handler.row.seqNo);
    AckingOk(s.history, s.replicas[conn.device].doc, conn, conn.device !in closed);
    OneConnOk(s, c, Acking(conn), closed);
  }

  lemma NoticeIsWelcome(h: Log, doc: set<Change>)
    ensures Welcome(h, doc, Notice)
  {
    var m: Reply := Notice;
    assert [m][1..] == [];
  }

  lemma RefuseOk(s: State, c: ConnId, closed: set<DeviceId> := {})
    requires Inv(s, closed) && Waiting(s, c)
    ensures Inv(SetConn(s, c, Enqueue(s.conns[c].(inbox := s.conns[c].inbox[1..]), Notice)), closed)
  {
    var conn := s.conns[c].(inbox := s.conns[c].inbox[1..]);
    NoticeIsWelcome(s.history, s.replicas[conn.device].doc);
    EnqueueOk(s.history, s.replicas[conn.device].doc, conn, Notice, conn.device !in closed);
    OneConnOk(s, c, Enqueue(conn, Notice), closed);
  }

  lemma ReadFailsOk(s: State, c: ConnId, closed: set<DeviceId> := {})
    requires Inv(s, closed) && c in s.conns && s.conns[c].handler.Registered?
    ensures Inv(SetConn(s, c, Enqueue(s.conns[c].(handler := Idle), Notice)), closed)
  {
    var conn := s.conns[c].(handler := Idle);
    NoticeIsWelcome(s.history, s.replicas[conn.device].doc);
    EnqueueOk(s.history, s.replicas[conn.device].doc, conn, Notice, conn.device !in closed);
    OneConnOk(s, c, Enqueue(conn, Notice), closed);
  }

  lemma TeardownOk(s: State, c: ConnId, closed: set<DeviceId> := {})
    requires Inv(s, closed) && c in s.conns
    ensures Inv(OnTeardown(s, c), closed)
  {
    var conn := s.conns[c].(handler := Closed, inbox := []);
    OneConnOk(s, c, conn, closed);
    HubOk(SetConn(s, c, conn), s.hub - {c}, closed);
  }

  lemma DraftOk(s: State, d: DeviceId, snap: set<Change>, closed: set<DeviceId> := {})
    requires Inv(s, closed) && d in s.replicas && snap in s.replicas[d].drafts
    ensures Inv(Send(SetReplica(s, d, s.replicas[d].(drafts := s.replicas[d].drafts - multiset{snap})), d, Push(snap)), closed)
  {
    var r := s.replicas[d].(drafts := s.replicas[d].drafts - multiset{snap});
    LocalOk(s, d, r, closed);
    SendOk(SetReplica(s, d, r), d, Push(snap), closed);
  }

  lemma SubscribeOk(s: State, d: DeviceId, read: SeqRead, closed: set<DeviceId> := {})
    requires Inv(s, closed) && d in s.replicas && read in s.replicas[d].lookups
    ensures Inv(OnSubscribe(s, d, read), closed)
  {
    var r := Subscribing(s.replicas[d], read);
    LocalOk(s, d, r, closed);
    SendOk(SetReplica(s, d, r), d, Subscribe(read.seqNo), closed);
  }

  lemma ConnectOk(s: State, d: DeviceId, c: ConnId, closed: set<DeviceId> := {})
    requires Inv(s, closed) && d in s.replicas && s.replicas[d].link.None? && c !in s.conns
    ensures Inv(OnConnect(s, d, c), closed)
  {
    var conn := Conn(d, true, [], Idle, []);
    OneConnOk(s, c, conn, closed);
    OneReplicaOk(SetConn(s, c, conn), d, s.replicas[d].(link := Some(c)), closed);
  }

  /** Edits, snapshots taken, and numbers read or written. */
  lemma LocalOk(s: State, d: DeviceId, r: Replica, closed: set<DeviceId> := {})
    requires Inv(s, closed) && d in s.replicas
    requires r.link == s.replicas[d].link && s.replicas[d].doc <= r.doc && ReplicaOk(s.history, r, d !in closed)
    ensures Inv(SetReplica(s, d, r), closed)
  {
    assert LinkOk(s.conns, d, s.replicas[d]);
    OneReplicaOk(s, d, r, closed);
  }

  /** What a device does only with the document open. */
  predicate NeedsOpen(s: State, e: Event, closed: set<DeviceId>)
    requires Enabled(s, e)
  {
    match e
    case Edit(d, _) => d in closed
    case TakeSnapshot(d) => d in closed
    case ReadSeq(d, _) => d in closed
    case Deliver(c) => s.conns[c].device in closed
    case _ => false
  }

  lemma StepKeepsInv(s: State, e: Event, closed: set<DeviceId> := {})
    requires Inv(s, closed) && Enabled(s, e) && !NeedsOpen(s, e, closed)
    ensures Inv(Apply(s, e), closed)
  {
    if HandlerStep(e) {
      HandlerStepKeepsInv(s, e, closed);
    } else if DeviceStep(e) {
      DeviceStepKeepsInv(s, e, closed);
    } else {
      match e
      case Deliver(c) => DeliverOk(s, c, closed);
      case Drop(c, read, received) => DropOk(s, c, read, received, closed);
      case Refuse(c) => RefuseOk(s, c, closed);
      case Teardown(c) => TeardownOk(s, c, closed);
    }
  }

  lemma LookupOk(h: Log, r: Replica, resume: bool)
    requires ReplicaOk(h, r)
    ensures ReplicaOk(h, r.(lookups := r.lookups + multiset{SeqRead(SubscribeSeq(r, resume), resume)}))
  {
  }

  lemma ReadSeqOk(s: State, d: DeviceId, resume: bool, closed: set<DeviceId> := {})
    requires Inv(s, closed) && d in s.replicas && d !in closed
    ensures Inv(OnReadSeq(s, d, resume), closed)
  {
    LookupOk(s.history, s.replicas[d], resume);
    LocalOk(s, d, OnReadSeq(s, d, resume).replicas[d], closed);
  }

  lemma DeviceStepKeepsInv(s: State, e: Event, closed: set<DeviceId> := {})
    requires Inv(s, closed) && Enabled(s, e) && DeviceStep(e) && !NeedsOpen(s, e, closed)
    ensures Inv(Apply(s, e), closed)
  {
    if e.SendPush? || e.SendSubscribe? {
      SendStepKeepsInv(s, e, closed);
    } else if e.ReadSeq? {
      ReadSeqOk(s, e.device, e.resume, closed);
    } else if e.Connect? {
      ConnectOk(s, e.device, e.conn, closed);
    } else {
      LocalStepKeepsInv(s, e, closed);
    }
  }

  lemma SendStepKeepsInv(s: State, e: Event, closed: set<DeviceId> := {})
    requires Inv(s, closed) && Enabled(s, e) && (e.SendPush? || e.SendSubscribe?)
    ensures Inv(Apply(s, e), closed)
  {
    match e
    case SendPush(d, snap) => DraftOk(s, d, snap, closed);
    case SendSubscribe(d, lookup) => SubscribeOk(s, d, lookup, closed);
  }

  lemma EditedOk(h: Log, r: Replica, x: Change)
    requires ReplicaOk(h, r)
    ensures ReplicaOk(h, r.(doc := r.doc + {x}))
  {
  }

  lemma DraftedOk(h: Log, r: Replica)
    requires ReplicaOk(h, r)
    ensures ReplicaOk(h, r.(drafts := r.drafts + multiset{r.doc}))
  {
  }

  lemma CommittedOk(h: Log, r: Replica, q: nat, strict: bool)
    requires ReplicaOk(h, r, strict) && q in r.seqWrites
    ensures ReplicaOk(h, r.(lastSeq := q, seqWrites := r.seqWrites - multiset{q}), strict)
  {
  }

  lemma LocalStepKeepsInv(s: State, e: Event, closed: set<DeviceId> := {})
    requires Inv(s, closed) && Enabled(s, e) && (e.Edit? || e.TakeSnapshot? || e.CommitSeq?) && !NeedsOpen(s, e, closed)
    ensures Inv(Apply(s, e), closed)
  {
    match e
    case Edit(d, x) =>
      EditedOk(s.history, s.replicas[d], x);
      LocalOk(s, d, s.replicas[d].(doc := s.replicas[d].doc + {x}), closed);
    case TakeSnapshot(d) =>
      DraftedOk(s.history, s.replicas[d]);
      LocalOk(s, d, s.replicas[d].(drafts := s.replicas[d].drafts + multiset{s.replicas[d].doc}), closed);
    case CommitSeq(d, q) =>
      CommittedOk(s.history, s.replicas[d], q, d !in closed);
      LocalOk(s, d, s.replicas[d].(lastSeq := q, seqWrites := s.replicas[d].seqWrites - multiset{q}), closed);
  }

  lemma HandlerStepKeepsInv(s: State, e: Event, closed: set<DeviceId> := {})
    requires Inv(s, closed) && Enabled(s, e) && HandlerStep(e)
    ensures Inv(Apply(s, e), closed)
  {
    if SubscribeStep(e) {
      SubscribeStepKeepsInv(s, e, closed);
    } else if PushStep(e) {
      PushStepKeepsInv(s, e, closed);
    } else {
      RelayStepKeepsInv(s, e, closed);
    }
  }

  lemma SubscribeStepKeepsInv(s: State, e: Event, closed: set<DeviceId> := {})
    requires Inv(s, closed) && Enabled(s, e) && SubscribeStep(e)
    ensures Inv(Apply(s, e), closed)
  {
    if e.Register? {
      RegisterOk(s, e.conn, closed);
    } else if e.ReadHistory? {
      ReadHistoryOk(s, e.conn, closed);
    } else if e.ReadFails? {
      ReadFailsOk(s, e.conn, closed);
    } else if e.ReplayNext? {
      ReplayNextOk(s, e.conn, closed);
    } else {
      ReplayDoneOk(s, e.conn, closed);
    }
  }

  lemma PushStepKeepsInv(s: State, e: Event, closed: set<DeviceId> := {})
    requires Inv(s, closed) && Enabled(s, e) && PushStep(e)
    ensures Inv(Apply(s, e), closed)
  {
    if e.StorePush? {
      StorePushOk(s, e.conn, closed);
    } else if e.AckPush? {
      AckPushOk(s, e.conn, closed);
    } else {
      CompactOk(s, e.conn, closed);
    }
  }

  lemma StartRelayOk(s: State, c: ConnId, closed: set<DeviceId> := {})
    requires Inv(s, closed) && c in s.conns && s.conns[c].handler.Acked?
    ensures Inv(OnStartRelay(s, c), closed)
  {
    MoveOk(s, c, Relaying(s.conns[c].handler.row, Targets(s, s.conns[c].device)), closed);
  }

  lemma FailedRelayOk(s: State, e: Event, closed: set<DeviceId> := {})
    requires Inv(s, closed) && Enabled(s, e) && FailsRelay(e)
    ensures Inv(Apply(s, e), closed)
  {
    MoveOk(s, e.conn, if e.RelayFails? then Relaying(s.conns[e.conn].handler.row, {}) else Panicked, closed);
  }

  lemma RelayStepKeepsInv(s: State, e: Event, closed: set<DeviceId> := {})
    requires Inv(s, closed) && Enabled(s, e) && RelayStep(e)
    ensures Inv(Apply(s, e), closed)
  {
    if e.StartRelay? {
      StartRelayOk(s, e.conn, closed);
    } else if FailsRelay(e) {
      FailedRelayOk(s, e, closed);
    } else if e.RelayTo? {
      RelayToOk(s, e.conn, e.target, closed);
    } else {
      MoveOk(s, e.conn, Idle, closed);
    }
  }

  lemma {:induction false} RunKeepsInv(s: State, events: seq<Event>)
    requires Inv(s) && IsRun(s, events)
    ensures Inv(After(s, events))
    decreases |events|
  {
    if events != [] {
      StepKeepsInv(s, events[0]);
      RunKeepsInv(Apply(s, events[0]), events[1..]);
    }
  }

  ghost predicate Reachable(s: State) {
    exists start, events :: Init(start) && IsRun(start, events) && After(start, events) == s
  }

  lemma ReachableInv(s: State)
    requires Reachable(s)
    ensures Inv(s)
  {
    var start, events :| Init(start) && IsRun(start, events) && After(start, events) == s;
    InitOk(start);
    RunKeepsInv(start, events);
  }
}
