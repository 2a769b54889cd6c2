/**
 The synchronisation of one document between the server and any number of devices, as a
 state machine. Each event is one step that the real system takes without interruption: one
 SQL statement, one change of the hub, one message put on a connection's queue, or one
 synchronous stretch of client code between two awaits. Events interleave freely.
 All devices stay members with write access, and payloads always decrypt and verify.
 */
module SyncProtocol {
  import opened Wrappers
  import opened DocumentLog

  type ConnId = nat

  datatype Request = Subscribe(lastSeq: nat) | Push(snap: set<Change>)

  /** `Notice` stands for every reply that changes neither a document nor a sequence number. */
  datatype Reply = Sync(seqNo: nat, snap: set<Change>) | CaughtUp(latestSeq: nat) | Ack(seqNo: nat) | Notice

  /** Where the read pump of a connection stands in handleSubscribe or handlePush. */
  datatype Handler =
    | Idle
    | Registered(lastSeq: nat)
    | Replaying(rows: Log, latestSeq: nat)
    | Stored(row: Row)
    | Compacted(row: Row)
    | Acked(row: Row)
    | Relaying(row: Row, targets: set<ConnId>)
    | Panicked
    | Closed

  /** `outbox` holds what the server enqueued and the device has not handled yet. */
  datatype Conn = Conn(device: DeviceId, up: bool, inbox: seq<Request>, handler: Handler, outbox: seq<Reply>)

  /**
   One device. `lastSeq` is the number kept in IndexedDB, `memSeq` the entry of the sync
   client's lastSeqs map, `lookups` the numbers read to subscribe with and not sent yet, `seqWrites`
   the writes of acked numbers still to reach IndexedDB, `drafts` the snapshots taken by pushes
   that have not reached the socket.
   */
  datatype Replica = Replica(doc: set<Change>, lastSeq: nat, memSeq: Option<nat>, lookups: multiset<SeqRead>,
                             seqWrites: multiset<nat>, drafts: multiset<set<Change>>, link: Option<ConnId>)

  /** A number read by resubscribeAll (`resume`) or by subscribe. */
  datatype SeqRead = SeqRead(seqNo: nat, resume: bool)

  /** `history` is a history variable: every row ever stored, in order. */
  datatype State = State(log: Log, history: Log, hub: set<ConnId>,
                         conns: map<ConnId, Conn>, replicas: map<DeviceId, Replica>)

  datatype Event =
    // devices
    | Edit(device: DeviceId, change: Change)
    | TakeSnapshot(device: DeviceId)
    | SendPush(device: DeviceId, snap: set<Change>)
    | ReadSeq(device: DeviceId, resume: bool)
    | SendSubscribe(device: DeviceId, lookup: SeqRead)
    | CommitSeq(device: DeviceId, seqNo: nat)
    | Connect(device: DeviceId, conn: ConnId)
    | Deliver(conn: ConnId)
    // the network loses the end of what is under way in either direction
    | Drop(conn: ConnId, read: nat, received: nat)
    // server, handleSubscribe
    | Register(conn: ConnId)
    | ReadHistory(conn: ConnId)
    | ReadFails(conn: ConnId)
    | ReplayNext(conn: ConnId)
    | ReplayDone(conn: ConnId)
    // server, handlePush
    | StorePush(conn: ConnId)
    | CompactLog(conn: ConnId)
    | CompactFails(conn: ConnId)
    | AckPush(conn: ConnId)
    | StartRelay(conn: ConnId)
    | RelayFails(conn: ConnId)
    | RelayPanics(conn: ConnId)
    | RelayTo(conn: ConnId, target: ConnId)
    | EndRelay(conn: ConnId)
    // server, read pump
    | Refuse(conn: ConnId)
    | Teardown(conn: ConnId)

  /** Steps of handleSubscribe. */
  predicate SubscribeStep(e: Event) {
    e.Register? || e.ReadHistory? || e.ReadFails? || e.ReplayNext? || e.ReplayDone?
  }

  /** Steps of handlePush up to the ack. */
  predicate PushStep(e: Event) {
    e.StorePush? || e.CompactLog? || e.CompactFails? || e.AckPush?
  }

  /** Steps of handlePush after the ack. */
  predicate RelayStep(e: Event) {
    e.StartRelay? || e.RelayFails? || e.RelayPanics? || e.RelayTo? || e.EndRelay?
  }

  /** The member lookup fails and its empty list is used, or a log line of the hub panics. */
  predicate FailsRelay(e: Event) {
    e.RelayFails? || e.RelayPanics?
  }

  predicate HandlerStep(e: Event) {
    SubscribeStep(e) || PushStep(e) || RelayStep(e)
  }

  /** Steps of a device that leave the server's queues towards it alone. */
  predicate DeviceStep(e: Event) {
    e.Edit? || e.TakeSnapshot? || e.SendPush? || e.ReadSeq? || e.SendSubscribe? || e.CommitSeq? || e.Connect?
  }

  /** Enqueue: a message for a connection that is down is discarded. */
  function Enqueue(c: Conn, m: Reply): Conn {
    if c.up then c.(outbox := c.outbox + [m]) else c
  }

  /** handleMessage and the callbacks onRemoteChange, onCaughtUp and onAck. */
  function Handle(r: Replica, m: Reply): Replica {
    match m
    case Sync(seqNo, snap) => r.(doc := r.doc + snap, lastSeq := seqNo)
    case CaughtUp(latestSeq) => r.(memSeq := Some(latestSeq), lastSeq := latestSeq)
    case Ack(seqNo) => r.(seqWrites := r.seqWrites + multiset{seqNo})
    case Notice => r
  }

  /** What a message adds to the document of an open device. */
  function Brings(m: Reply): set<Change> {
    if m.Sync? then m.snap else {}
  }

  /** The number that resubscribeAll (`resume`) or subscribe reads. */
  function SubscribeSeq(r: Replica, resume: bool): nat {
    if resume then r.memSeq.GetOr(r.lastSeq) else r.lastSeq
  }

  function SetConn(s: State, c: ConnId, conn: Conn): State {
    s.(conns := s.conns[c := conn])
  }

  function SetReplica(s: State, d: DeviceId, r: Replica): State {
    s.(replicas := s.replicas[d := r])
  }

  /** Put a request on the device's socket, if it has an open one. */
  function Send(s: State, d: DeviceId, m: Request): State
    requires d in s.replicas
  {
    match s.replicas[d].link
    case Some(c) => if c in s.conns then SetConn(s, c, s.conns[c].(inbox := s.conns[c].inbox + [m])) else s
    case None => s
  }

  /** The subscribers a relay of `sender` goes to: all but those of the sending device. */
  function Targets(s: State, sender: DeviceId): set<ConnId> {
    set c | c in s.hub && c in s.conns && s.conns[c].device != sender
  }

  predicate Waiting(s: State, c: ConnId) {
    c in s.conns && s.conns[c].handler.Idle? && s.conns[c].inbox != []
  }

  predicate Enabled(s: State, e: Event) {
    match e
    case Edit(d, _) => d in s.replicas
    case TakeSnapshot(d) => d in s.replicas
    case SendPush(d, snap) => d in s.replicas && snap in s.replicas[d].drafts
    case ReadSeq(d, _) => d in s.replicas
    case SendSubscribe(d, read) => d in s.replicas && read in s.replicas[d].lookups
    case CommitSeq(d, q) => d in s.replicas && q in s.replicas[d].seqWrites
    case Connect(d, c) => d in s.replicas && s.replicas[d].link.None? && c !in s.conns
    case Deliver(c) => c in s.conns && s.conns[c].device in s.replicas && s.conns[c].outbox != []
    case Drop(c, read, received) =>
      && c in s.conns && s.conns[c].up && s.conns[c].device in s.replicas
      && read <= |s.conns[c].inbox| && received <= |s.conns[c].outbox|
    case Register(c) => Waiting(s, c) && s.conns[c].inbox[0].Subscribe?
    case ReadHistory(c) => c in s.conns && s.conns[c].handler.Registered?
    case ReadFails(c) => c in s.conns && s.conns[c].handler.Registered?
    case ReplayNext(c) => c in s.conns && s.conns[c].handler.Replaying? && s.conns[c].handler.rows != []
    case ReplayDone(c) => c in s.conns && s.conns[c].handler.Replaying? && s.conns[c].handler.rows == []
    case StorePush(c) => Waiting(s, c) && s.conns[c].inbox[0].Push?
    case CompactLog(c) => c in s.conns && s.conns[c].handler.Stored?
    case CompactFails(c) => c in s.conns && s.conns[c].handler.Stored?
    case AckPush(c) => c in s.conns && s.conns[c].handler.Compacted?
    case StartRelay(c) => c in s.conns && s.conns[c].handler.Acked?
    case RelayFails(c) => c in s.conns && s.conns[c].handler.Acked?
    case RelayPanics(c) => c in s.conns && s.conns[c].handler.Relaying?
    case RelayTo(c, x) =>
      c in s.conns && s.conns[c].handler.Relaying? && x in s.conns[c].handler.targets && x in s.conns
    case EndRelay(c) => c in s.conns && s.conns[c].handler.Relaying? && s.conns[c].handler.targets == {}
    case Refuse(c) => Waiting(s, c)
    case Teardown(c) => c in s.conns && !s.conns[c].up && (s.conns[c].handler.Idle? || s.conns[c].handler.Panicked?)
  }

  function Apply(s: State, e: Event): State
    requires Enabled(s, e)
  {
    match e
    case Edit(d, x) => SetReplica(s, d, s.replicas[d].(doc := s.replicas[d].doc + {x}))
    case TakeSnapshot(d) =>
      SetReplica(s, d, s.replicas[d].(drafts := s.replicas[d].drafts + multiset{s.replicas[d].doc}))
    case SendPush(d, snap) =>
      Send(SetReplica(s, d, s.replicas[d].(drafts := s.replicas[d].drafts - multiset{snap})), d, Push(snap))
    case ReadSeq(d, resume) => OnReadSeq(s, d, resume)
    case SendSubscribe(d, read) => OnSubscribe(s, d, read)
    case CommitSeq(d, q) =>
      SetReplica(s, d, s.replicas[d].(lastSeq := q, seqWrites := s.replicas[d].seqWrites - multiset{q}))
    case Connect(d, c) => OnConnect(s, d, c)
    case Deliver(c) => OnDeliver(s, c)
    case Drop(c, read, received) => OnDrop(s, c, read, received)
    case Register(c) => OnRegister(s, c)
    case ReadHistory(c) => OnReadHistory(s, c)
    case ReadFails(c) => SetConn(s, c, Enqueue(s.conns[c].(handler := Idle), Notice))
    case ReplayNext(c) => OnReplayNext(s, c)
    case ReplayDone(c) => SetConn(s, c, Enqueue(s.conns[c].(handler := Idle), CaughtUp(s.conns[c].handler.latestSeq)))
    case StorePush(c) => OnStorePush(s, c)
    case CompactLog(c) => OnCompactFails(s, c).(log := Compact(s.log))
    case CompactFails(c) => OnCompactFails(s, c)
    case AckPush(c) => OnAckPush(s, c)
    case StartRelay(c) => OnStartRelay(s, c)
    case RelayFails(c) => SetConn(s, c, s.conns[c].(handler := Relaying(s.conns[c].handler.row, {})))
    case RelayPanics(c) => SetConn(s, c, s.conns[c].(handler := Panicked))
    case RelayTo(c, x) => OnRelayTo(s, c, x)
    case EndRelay(c) => SetConn(s, c, s.conns[c].(handler := Idle))
    case Refuse(c) => SetConn(s, c, Enqueue(s.conns[c].(inbox := s.conns[c].inbox[1..]), Notice))
    case Teardown(c) => OnTeardown(s, c)
  }

  function OnReadSeq(s: State, d: DeviceId, resume: bool): State
    requires d in s.replicas
  {
    var r := s.replicas[d];
    SetReplica(s, d, r.(lookups := r.lookups + multiset{SeqRead(SubscribeSeq(r, resume), resume)}))
  }

  /** The device once the number has been sent; only subscribe enters it in lastSeqs. */
  function Subscribing(r: Replica, read: SeqRead): Replica {
    r.(lookups := r.lookups - multiset{read}, memSeq := if read.resume then r.memSeq else Some(read.seqNo))
  }

  function OnSubscribe(s: State, d: DeviceId, read: SeqRead): State
    requires d in s.replicas
  {
    Send(SetReplica(s, d, Subscribing(s.replicas[d], read)), d, Subscribe(read.seqNo))
  }

  function OnConnect(s: State, d: DeviceId, c: ConnId): State
    requires d in s.replicas
  {
    SetReplica(SetConn(s, c, Conn(d, true, [], Idle, [])), d, s.replicas[d].(link := Some(c)))
  }

  function OnDeliver(s: State, c: ConnId): State
    requires c in s.conns && s.conns[c].device in s.replicas && s.conns[c].outbox != []
  {
    var conn := s.conns[c];
    SetReplica(SetConn(s, c, conn.(outbox := conn.outbox[1..])), conn.device,
               Handle(s.replicas[conn.device], conn.outbox[0]))
  }

  /** The socket closes: what was still under way is lost, what either side had received is not. */
  function OnDrop(s: State, c: ConnId, read: nat, received: nat): State
    requires c in s.conns && s.conns[c].device in s.replicas
    requires read <= |s.conns[c].inbox| && received <= |s.conns[c].outbox|
  {
    var conn := s.conns[c];
    var r := s.replicas[conn.device];
    SetReplica(SetConn(s, c, conn.(up := false, inbox := conn.inbox[..read], outbox := conn.outbox[..received])),
               conn.device, r.(link := if r.link == Some(c) then None else r.link))
  }

  /** Hub.Subscribe, before the history is read. */
  function OnRegister(s: State, c: ConnId): State
    requires Waiting(s, c) && s.conns[c].inbox[0].Subscribe?
  {
    var conn := s.conns[c];
    SetConn(s, c, conn.(inbox := conn.inbox[1..], handler := Registered(conn.inbox[0].lastSeq))).(hub := s.hub + {c})
  }

  function OnReadHistory(s: State, c: ConnId): State
    requires c in s.conns && s.conns[c].handler.Registered?
  {
    var lastSeq := s.conns[c].handler.lastSeq;
    var rows := Since(s.log, lastSeq);
    SetConn(s, c, s.conns[c].(handler := Replaying(rows, LatestOf(rows, lastSeq))))
  }

  function OnReplayNext(s: State, c: ConnId): State
    requires c in s.conns && s.conns[c].handler.Replaying? && s.conns[c].handler.rows != []
  {
    var conn := s.conns[c];
    var row := conn.handler.rows[0];
    SetConn(s, c, Enqueue(conn.(handler := Replaying(conn.handler.rows[1..], conn.handler.latestSeq)),
                          Sync(row.seqNo, row.snap)))
  }

  function OnStorePush(s: State, c: ConnId): State
    requires Waiting(s, c) && s.conns[c].inbox[0].Push?
  {
    var conn := s.conns[c];
    var row := NewRow(s.log, conn.device, conn.inbox[0].snap);
    SetConn(s, c, conn.(inbox := conn.inbox[1..], handler := Stored(row)))
      .(log := Store(s.log, conn.device, conn.inbox[0].snap), history := s.history + [row])
  }

  /** A failed compaction is only logged; the push goes on. */
  function OnCompactFails(s: State, c: ConnId): State
    requires c in s.conns && s.conns[c].handler.Stored?
  {
    SetConn(s, c, s.conns[c].(handler := Compacted(s.conns[c].handler.row)))
  }

  function OnAckPush(s: State, c: ConnId): State
    requires c in s.conns && s.conns[c].handler.Compacted?
  {
    var row := s.conns[c].handler.row;
    SetConn(s, c, Enqueue(s.conns[c].(handler := Acked(row)), Ack(row.seqNo)))
  }

  function OnStartRelay(s: State, c: ConnId): State
    requires c in s.conns && s.conns[c].handler.Acked?
  {
    var conn := s.conns[c];
    SetConn(s, c, conn.(handler := Relaying(conn.handler.row, Targets(s, conn.device))))
  }

  function OnRelayTo(s: State, c: ConnId, x: ConnId): State
    requires c in s.conns && s.conns[c].handler.Relaying? && x in s.conns
  {
    var row := s.conns[c].handler.row;
    var t := SetConn(s, c, s.conns[c].(handler := Relaying(row, s.conns[c].handler.targets - {x})));
    SetConn(t, x, Enqueue(t.conns[x], Sync(row.seqNo, row.snap)))
  }

  /** The read pump ends, after a panic or once its socket is closed, and unregisters the client. */
  function OnTeardown(s: State, c: ConnId): State
    requires c in s.conns
  {
    SetConn(s, c, s.conns[c].(handler := Closed, inbox := [])).(hub := s.hub - {c})
  }

  /** Before the first connection: an empty log, and devices holding whatever they edited offline. */
  ghost predicate Init(s: State) {
    && s.log == [] && s.history == [] && s.hub == {} && s.conns == map[]
    && forall d | d in s.replicas ::
         var r := s.replicas[d];
         r.lastSeq == 0 && r.memSeq == None && r.lookups == multiset{} && r.seqWrites == multiset{} && r.drafts == multiset{} && r.link == None
  }

  /** `s` is the first state and `events[i]` leads from state i to state i + 1. */
  predicate IsRun(s: State, events: seq<Event>)
    decreases |events|
  {
    events == [] || (Enabled(s, events[0]) && IsRun(Apply(s, events[0]), events[1..]))
  }

  function After(s: State, events: seq<Event>): State
    requires IsRun(s, events)
    decreases |events|
  {
    if events == [] then s else After(Apply(s, events[0]), events[1..])
  }

  lemma {:induction false} RunSplits(s: State, first: seq<Event>, second: seq<Event>)
    ensures IsRun(s, first + second) <==> IsRun(s, first) && IsRun(After(s, first), second)
    ensures IsRun(s, first + second) ==> After(s, first + second) == After(After(s, first), second)
    decreases |first|
  {
    if first == [] {
      assert first + second == second;
    } else {
      assert (first + second)[1..] == first[1..] + second;
      if Enabled(s, first[0]) {
        RunSplits(Apply(s, first[0]), first[1..], second);
      }
    }
  }

  /** Every change some device holds. */
  function AllChanges(s: State): set<Change> {
    set d, x | d in s.replicas && x in s.replicas[d].doc :: x
  }
}
