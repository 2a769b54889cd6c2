/**
 The push queue inside its client, as a state machine: open documents, flags in IndexedDB,
 pushes under way, the socket and the clock. Events arrive in any order between awaits.
 */
module PushWorld {
  import opened Wrappers
  import opened PushQueueSpec

  type Change = nat
  type PushId = nat

  /**
   pushDoc: waiting for writes to reach IndexedDB, or carrying the snapshot it has saved, when
   `edits` local changes of the document had been made. It is `checked` once the sync client has
   found the socket open and encrypts the snapshot.
   */
  datatype Push = Waiting(doc: DocId) | Saved(doc: DocId, snap: set<Change>, edits: nat, checked: bool)

  /** A push message that an open socket has been handed. */
  datatype Frame = Frame(doc: DocId, snap: set<Change>, edits: nat)

  /** A run of debounce timer `burst` (the times of its calls of markDirty) that ended at `at`. */
  datatype Fire = Fire(doc: DocId, burst: seq<nat>, at: nat)

  /** Clearing a flag in IndexedDB comes some awaits before the queue forgets the document. */
  datatype Clearing = ByAck(doc: DocId) | ByCaughtUp(doc: DocId)

  /**
   `local`, `sent`, `covered`, `bursts` and `fired` are history variables: the changes made on this
   device, in order; the snapshots handed to the socket, also in earlier sessions; how many local
   changes had been made when the latest snapshot of those was saved; and the calls of markDirty.
   So are `frames`, the messages handed to an open socket, and `stored`, those the server has stored.
   `heads` is what the stored pushHeads say. Heads determine the set of changes of a document.
   `polls` are the flags that polls have read and are still to act on, and `checking` the documents
   whose push heads a caught_up is reading.
   */
  datatype World = World(q: State, open: bool, clock: nat,
                         docs: map<DocId, set<Change>>, local: map<DocId, seq<Change>>,
                         sent: map<DocId, set<Change>>, covered: map<DocId, nat>,
                         frames: set<Frame>, stored: set<Frame>,
                         flags: set<DocId>, unwritten: multiset<DocId>, heads: map<DocId, set<Change>>,
                         pushes: map<PushId, Push>, clearing: multiset<Clearing>,
                         polls: multiset<set<DocId>>, checking: multiset<DocId>,
                         batch: seq<DocId>, awaiting: Option<PushId>,
                         bursts: map<DocId, seq<nat>>, fired: seq<Fire>)

  /** Steps that change a document, a timer or a push. */
  datatype Move =
    | Edit(doc: DocId, change: Change, push: PushId)
    | Merge(doc: DocId, snap: set<Change>)
    | TimerFires(doc: DocId, push: PushId)
    | FlushNow(doc: DocId, push: PushId)
    | SaveSnapshot(push: PushId)
    | CheckSocket(push: PushId)
    | SendSnapshot(push: PushId)
    | FindNoKey(push: PushId)
    | FindSocketClosed(push: PushId)
    | FlushNext(push: PushId)

  /** What the client does with an answer of the server. */
  datatype Reply =
    | AckClears(doc: DocId)
    | CaughtUp(doc: DocId)
    | CaughtUpClears(doc: DocId)
    | ClearingDone(what: Clearing)
    | Reject(doc: DocId, insufficientPermissions: bool, discard: bool)
    | RateLimit(retryAfterMs: nat)
    | DropOrphan(doc: DocId)

  /** The other steps: flags, counters, the clock and the socket. */
  datatype Note =
    | WriteFlag(doc: DocId)
    | Advance(time: nat)
    | BackoffTimer
    | BeginFlush(batch: seq<DocId>)
    | EndFlush
    | PollReads
    | PollMarks(found: set<DocId>)
    | ServerStores(frame: Frame)
    | VaultsChanged
    | UpdateRefs
    | SetPending(vaults: set<string>)
    | CloseSocket
    | OpenSocket

  datatype Event = Moves(move: Move) | Replies(reply: Reply) | Notes(note: Note)

  function Of(m: map<DocId, set<Change>>, d: DocId): set<Change> {
    if d in m then m[d] else {}
  }

  function Add(m: map<DocId, set<Change>>, d: DocId, x: set<Change>): map<DocId, set<Change>> {
    m[d := Of(m, d) + x]
  }

  function LocalOf(w: World, d: DocId): seq<Change> {
    if d in w.local then w.local[d] else []
  }

  function Covered(w: World, d: DocId): nat {
    if d in w.covered then w.covered[d] else 0
  }

  function Burst(w: World, d: DocId): seq<nat> {
    if d in w.bursts then w.bursts[d] else []
  }

  /** pushDoc starts, unless the socket is closed. */
  function StartPush(w: World, d: DocId, p: PushId): World {
    w.(pushes := if w.open then w.pushes[p := Waiting(d)] else w.pushes)
  }

  /** The timer of `d` is gone, and its burst is over. */
  function EndBurst(w: World, d: DocId): World {
    w.(q := CancelTimer(w.q, d), bursts := w.bursts - {d},
       fired := if d in w.bursts then w.fired + [Fire(d, w.bursts[d], w.clock)] else w.fired)
  }

  /** A call of markDirty now; if it fires at once, it ends its burst and starts a push. */
  function Marked(w: World, d: DocId, p: PushId): World {
    var burst, fires := Burst(w, d) + [w.clock], FiresNow(w.q, d, w.clock);
    w.(q := MarkDirty(w.q, d, w.clock),
       bursts := if fires then w.bursts - {d} else w.bursts[d := burst],
       fired := if fires then w.fired + [Fire(d, burst, w.clock)] else w.fired,
       pushes := if fires && w.open then w.pushes[p := Waiting(d)] else w.pushes)
  }

  /** One round of the loop of flushAllDirty. */
  function NextOfBatch(w: World, p: PushId): World
    requires w.batch != []
  {
    var d := w.batch[0];
    var stop := !w.open || w.q.ratePaused;
    var push := !stop && d in w.q.dirty && !Skipped(w.q, d);
    w.(pushes := if push then w.pushes[p := Waiting(d)] else w.pushes,
       batch := if stop then [] else w.batch[1..],
       awaiting := if push then Some(p) else w.awaiting)
  }

  function Finished(w: World, p: PushId): World {
    w.(pushes := w.pushes - {p}, awaiting := if w.awaiting == Some(p) then None else w.awaiting)
  }

  predicate CanMove(w: World, e: Move) {
    match e
    case Edit(d, x, p) => p !in w.pushes && x !in Of(w.docs, d)
    case Merge(_, _) => true
    case TimerFires(d, p) => d in w.q.timers && w.q.timers[d] == w.clock && p !in w.pushes
    case FlushNow(_, p) => p !in w.pushes
    case SaveSnapshot(p) => p in w.pushes && w.pushes[p].Waiting?
    case CheckSocket(p) => p in w.pushes && w.pushes[p].Saved? && !w.pushes[p].checked && w.open
    case SendSnapshot(p) => p in w.pushes && w.pushes[p].Saved? && w.pushes[p].checked
    case FindNoKey(p) => p in w.pushes && w.pushes[p].Saved? && !w.pushes[p].checked
    case FindSocketClosed(p) => p in w.pushes && w.pushes[p].Saved? && !w.open
    case FlushNext(p) => w.q.flushing && w.batch != [] && w.awaiting == None && p !in w.pushes
  }

  function ApplyMove(w: World, e: Move): World
    requires CanMove(w, e)
  {
    match e
    case Edit(d, x, p) => OnEdit(w, d, x, p)
    case Merge(d, snap) => w.(docs := Add(w.docs, d, snap))
    case TimerFires(d, p) => StartPush(EndBurst(w, d), d, p)
    case FlushNow(d, p) => OnFlushNow(w, d, p)
    case SaveSnapshot(p) => OnSave(w, p)
    case CheckSocket(p) => w.(pushes := w.pushes[p := w.pushes[p].(checked := true)])
    case SendSnapshot(p) => OnSend(w, p)
    case FindNoKey(p) => Finished(w.(q := w.q.(deferredNoKey := w.q.deferredNoKey + {w.pushes[p].doc})), p)
    case FindSocketClosed(p) => Finished(w.(batch := if w.awaiting == Some(p) then [] else w.batch), p)
    case FlushNext(p) => NextOfBatch(w, p)
  }

  /** A local change, whose write to IndexedDB is queued. */
  function Changed(w: World, d: DocId, x: Change): World {
    w.(docs := Add(w.docs, d, {x}), local := w.local[d := LocalOf(w, d) + [x]], unwritten := w.unwritten + multiset{d})
  }

  /** A local change and the call of markDirty that reports it. */
  function OnEdit(w: World, d: DocId, x: Change, p: PushId): World {
    Marked(Changed(w, d, x), d, p)
  }

  function OnSave(w: World, p: PushId): World
    requires p in w.pushes
  {
    var d := w.pushes[p].doc;
    w.(pushes := w.pushes[p := Saved(d, Of(w.docs, d), |LocalOf(w, d)|, false)])
  }

  function OnFlushNow(w: World, d: DocId, p: PushId): World {
    var w' := EndBurst(w, d);
    StartPush(w'.(q := w'.q.(dirty := w'.q.dirty + {d})), d, p)
  }

  /** A socket that has closed during the encryption discards the message; the push heads are stored anyway. */
  function OnSend(w: World, p: PushId): World
    requires p in w.pushes && w.pushes[p].Saved?
  {
    var d, snap, edits := w.pushes[p].doc, w.pushes[p].snap, w.pushes[p].edits;
    Finished(w.(sent := if w.open then Add(w.sent, d, snap) else w.sent,
                covered := if w.open then w.covered[d := Max(Covered(w, d), edits)] else w.covered,
                frames := if w.open then w.frames + {Frame(d, snap, edits)} else w.frames,
                heads := w.heads[d := snap]), p)
  }

  /** Timers fire on time: the clock does not pass the deadline of an armed timer. */
  predicate CanNote(w: World, e: Note) {
    match e
    case WriteFlag(d) => d in w.unwritten
    case Advance(t) => w.clock <= t && forall d | d in w.q.timers :: t <= w.q.timers[d]
    case BackoffTimer => w.q.backoffArmed
    case BeginFlush(batch) =>
      !w.q.flushing && w.open && w.q.ready && (set d | d in batch) == w.q.dirty
    case EndFlush => w.q.flushing && w.batch == [] && w.awaiting == None
    case PollReads => !w.q.flushing && w.open
    case PollMarks(found) => found in w.polls
    case ServerStores(frame) => frame in w.frames
    case VaultsChanged => true
    case UpdateRefs => true
    case SetPending(_) => true
    case CloseSocket => w.open
    case OpenSocket => !w.open
  }

  function ApplyNote(w: World, e: Note): World {
    match e
    case WriteFlag(d) => w.(flags := w.flags + {d}, unwritten := w.unwritten - multiset{d})
    case Advance(t) => w.(clock := t)
    case BackoffTimer => w.(q := BackoffFires(w.q))
    case BeginFlush(batch) => w.(q := w.q.(flushing := true, ratePaused := false), batch := batch)
    case EndFlush => w.(q := FlushEnds(w.q, w.open))
    case PollReads => w.(polls := w.polls + multiset{w.flags})
    case PollMarks(found) => w.(q := PollFinds(w.q, found), polls := w.polls - multiset{found})
    case ServerStores(frame) => w.(stored := w.stored + {frame})
    case VaultsChanged => w.(q := w.q.(ready := true, deferredNoKey := {}, failedVaults := {}))
    case UpdateRefs => w.(q := w.q.(ready := false))
    case SetPending(vaults) => w.(q := w.q.(pendingVaults := vaults))
    case CloseSocket => w.(open := false)
    case OpenSocket => w.(open := true)
  }

  predicate CanReply(w: World, e: Reply) {
    match e
    case CaughtUp(d) => d in w.q.dirty
    case CaughtUpClears(d) => d in w.checking && d in w.heads && w.heads[d] == Of(w.docs, d)
    case ClearingDone(c) => c in w.clearing
    case DropOrphan(d) => d in w.q.dirty && d.vault != ""
    case _ => true
  }

  function ApplyReply(w: World, e: Reply): World {
    match e
    case AckClears(d) => Unflag(w, d, ByAck(d))
    case CaughtUp(d) => w.(checking := w.checking + multiset{d})
    case CaughtUpClears(d) => Unflag(w.(checking := w.checking - multiset{d}), d, ByCaughtUp(d))
    case ClearingDone(c) => w.(clearing := w.clearing - multiset{c}, q := Forget(w.q, c))
    case Reject(d, insufficient, discard) => OnReject(w, d, insufficient, discard)
    case RateLimit(ms) => w.(q := RateLimited(w.q, ms))
    case DropOrphan(d) => w.(q := w.q.(dirty := w.q.dirty - {d}), flags := w.flags - {d}, heads := w.heads - {d})
  }

  /** The queue forgets a document whose flag has been cleared. */
  function Forget(q: State, c: Clearing): State {
    match c
    case ByAck(d) => AckDone(q, d)
    case ByCaughtUp(d) => q.(dirty := q.dirty - {d})
  }

  /** clearDirty: the flag and the stored heads are deleted. */
  function Unflag(w: World, d: DocId, c: Clearing): World {
    w.(flags := w.flags - {d}, heads := w.heads - {d}, clearing := w.clearing + multiset{c})
  }

  /** clearDirtyFlag for each of the documents. */
  function DropFlags(w: World, gone: set<DocId>): World {
    w.(flags := w.flags - gone, heads := w.heads - gone)
  }

  /** The documents whose flag a rejection deletes. */
  function Discarded(q: State, d: DocId, insufficient: bool, discard: bool): set<DocId> {
    if insufficient && d.vault != "" then
      if discard && d.vault !in q.pendingVaults && d.vault !in q.failedVaults then DirtyIn(q, d.vault) else {}
    else if GivesUp(q, d) then {d} else {}
  }

  function OnReject(w: World, d: DocId, insufficient: bool, discard: bool): World {
    DropFlags(w.(q := if insufficient && d.vault != "" then Forbidden(w.q, d, discard) else Rejected(w.q, d)),
              Discarded(w.q, d, insufficient, discard))
  }

  predicate Enabled(w: World, e: Event) {
    match e
    case Moves(m) => CanMove(w, m)
    case Replies(r) => CanReply(w, r)
    case Notes(n) => CanNote(w, n)
  }

  function Apply(w: World, e: Event): World
    requires Enabled(w, e)
  {
    match e
    case Moves(m) => ApplyMove(w, m)
    case Replies(r) => ApplyReply(w, r)
    case Notes(n) => ApplyNote(w, n)
  }

  predicate IsRun(w: World, events: seq<Event>)
    decreases |events|
  {
    events == [] || (Enabled(w, events[0]) && IsRun(Apply(w, events[0]), events[1..]))
  }

  function After(w: World, events: seq<Event>): World
    requires IsRun(w, events)
    decreases |events|
  {
    if events == [] then w else After(Apply(w, events[0]), events[1..])
  }

  lemma {:induction false} RunSnoc(w: World, events: seq<Event>, e: Event)
    requires IsRun(w, events) && Enabled(After(w, events), e)
    ensures IsRun(w, events + [e]) && After(w, events + [e]) == Apply(After(w, events), e)
    decreases |events|
  {
    if events == [] {
      assert [] + [e] == [e] && [e][1..] == [];
    } else {
      assert (events + [e])[1..] == events[1..] + [e];
      RunSnoc(Apply(w, events[0]), events[1..], e);
    }
  }

  /** A fresh queue that has loaded these flags. */
  function Fresh(flags: set<DocId>): State {
    State(flags, map[], map[], false, false, BACKOFF_INITIAL, false, map[], {}, {}, {}, true)
  }

  /**
   A client that has just started. Documents, flags, push heads and what was sent are those of
   earlier sessions.
   */
  ghost predicate Init(w: World) {
    && w.q == Fresh(w.flags)
    && (forall d :: Of(w.sent, d) <= Of(w.docs, d)) && (forall d | d in w.heads :: w.heads[d] <= Of(w.docs, d))
    && (forall f | f in w.frames :: f.edits == 0 && f.snap <= Of(w.docs, f.doc)) && w.stored <= w.frames
    && w.local == map[] && w.covered == map[] && w.pushes == map[]
    && w.unwritten == multiset{} && w.clearing == multiset{} && w.polls == multiset{} && w.checking == multiset{}
    && w.batch == [] && w.awaiting == None
    && w.bursts == map[] && w.fired == []
  }

  // ---- what each kind of step leaves alone

  /** `t` has the documents, timers, pushes and sent snapshots of `w`. */
  ghost predicate SameChanges(w: World, t: World) {
    && t.docs == w.docs && t.local == w.local && t.sent == w.sent && t.covered == w.covered
    && t.frames == w.frames && t.pushes == w.pushes
    && t.q.timers == w.q.timers && t.q.firstChange == w.q.firstChange
    && t.bursts == w.bursts && t.fired == w.fired
  }

  ghost predicate HeadsShrink(w: World, t: World) {
    forall d | d in t.heads :: d in w.heads && t.heads[d] == w.heads[d]
  }

  ghost predicate SameTimers(q: State, r: State) {
    r.timers == q.timers && r.firstChange == q.firstChange
  }

  lemma ForbiddenFrame(q: State, d: DocId, discard: bool)
    ensures SameTimers(q, Forbidden(q, d, discard))
  {
  }

  lemma RejectedFrame(q: State, d: DocId)
    ensures SameTimers(q, Rejected(q, d))
  {
  }

  lemma DropFlagsFrame(w: World, q: State, gone: set<DocId>)
    requires SameTimers(w.q, q)
    ensures var t := DropFlags(w.(q := q), gone);
            SameChanges(w, t) && t.stored == w.stored && t.polls == w.polls && t.open == w.open && t.clock == w.clock && HeadsShrink(w, t)
  {
  }

  lemma RejectFrame(w: World, d: DocId, insufficient: bool, discard: bool)
    ensures var t := OnReject(w, d, insufficient, discard);
            SameChanges(w, t) && t.stored == w.stored && t.polls == w.polls && t.open == w.open && t.clock == w.clock && HeadsShrink(w, t)
  {
    ForbiddenFrame(w.q, d, discard);
    RejectedFrame(w.q, d);
    DropFlagsFrame(w, if insufficient && d.vault != "" then Forbidden(w.q, d, discard) else Rejected(w.q, d),
                   Discarded(w.q, d, insufficient, discard));
  }

  lemma ForgetFrame(q: State, c: Clearing)
    ensures SameTimers(q, Forget(q, c))
  {
  }

  /** Replies leave documents, timers, pushes and sent snapshots alone. */
  lemma ReplyFrame(w: World, e: Reply)
    ensures var t := ApplyReply(w, e);
            SameChanges(w, t) && t.stored == w.stored && t.polls == w.polls && t.open == w.open && t.clock == w.clock && HeadsShrink(w, t)
  {
    if e.Reject? {
      RejectFrame(w, e.doc, e.insufficientPermissions, e.discard);
    } else if e.ClearingDone? {
      ForgetFrame(w.q, e.what);
    } else if e.DropOrphan? || e.RateLimit? {
    } else {
      UnflagFrame(w, e);
    }
  }

  lemma UnflagFrame(w: World, e: Reply)
    requires e.AckClears? || e.CaughtUp? || e.CaughtUpClears?
    ensures var t := ApplyReply(w, e);
      t == w.(flags := t.flags, heads := t.heads, clearing := t.clearing, checking := t.checking) && HeadsShrink(w, t)
  {
  }

  /** So do notes. */
  lemma NoteFrame(w: World, e: Note)
    ensures var t := ApplyNote(w, e);
            SameChanges(w, t) && (w.open && !e.CloseSocket? ==> t.open) && (t.stored == w.stored || e.ServerStores?)
            && t.clock == (if e.Advance? then e.time else w.clock) && t.heads == w.heads
            && (e.PollReads? || e.PollMarks? || t.polls == w.polls)
  {
    if QueueNote(e) {
      QueueNoteFrame(w, e);
    } else {
      OtherNoteFrame(w, e);
    }
  }

  /** Notes that only change the queue. */
  predicate QueueNote(e: Note) {
    e.BackoffTimer? || e.BeginFlush? || e.EndFlush? || e.PollMarks? || e.VaultsChanged? || e.UpdateRefs? || e.SetPending?
  }

  lemma QueueNoteFrame(w: World, e: Note)
    requires QueueNote(e)
    ensures var t := ApplyNote(w, e);
      t == w.(q := t.q, batch := t.batch, polls := t.polls) && SameTimers(w.q, t.q) && (e.PollMarks? || t.polls == w.polls)
  {
    match e
    case BackoffTimer =>
    case BeginFlush(_) =>
    case EndFlush =>
    case PollMarks(_) =>
    case VaultsChanged =>
    case UpdateRefs =>
    case SetPending(_) =>
  }

  lemma OtherNoteFrame(w: World, e: Note)
    requires !QueueNote(e)
    ensures var t := ApplyNote(w, e);
      t == w.(flags := t.flags, unwritten := t.unwritten, clock := t.clock, polls := t.polls, stored := t.stored, open := t.open)
      && (w.open && !e.CloseSocket? ==> t.open) && (t.stored == w.stored || e.ServerStores?)
      && t.clock == (if e.Advance? then e.time else w.clock) && (e.PollReads? || t.polls == w.polls)
  {
    match e
    case WriteFlag(_) =>
    case Advance(_) =>
    case PollReads =>
    case ServerStores(_) =>
    case CloseSocket =>
    case OpenSocket =>
  }

  /** Only the pushes, and where the flush loop stands, may differ. */
  ghost predicate SameButPushes(w: World, t: World) {
    t == w.(pushes := t.pushes, batch := t.batch, awaiting := t.awaiting)
  }

  lemma StartPushFrame(w: World, d: DocId, p: PushId)
    ensures SameButPushes(w, StartPush(w, d, p))
    ensures p !in w.pushes ==> forall x | x in w.pushes :: x in StartPush(w, d, p).pushes && StartPush(w, d, p).pushes[x] == w.pushes[x]
  {
  }

  /** What a call of markDirty does to timers and pushes. */
  lemma MarkedEffect(w: World, d: DocId, p: PushId)
    ensures var t := Marked(w, d, p); var fires := FiresNow(w.q, d, w.clock);
      && t.q.timers == (if fires then w.q.timers - {d}
                        else w.q.timers[d := Deadline(BurstStart(w.q, d, w.clock), w.clock)])
      && t.pushes == (if fires && w.open then w.pushes[p := Waiting(d)] else w.pushes)
      && t.q.dirty == w.q.dirty + {d}
  {
  }

  lemma NextOfBatchFrame(w: World, p: PushId)
    requires w.batch != [] && p !in w.pushes
    ensures SameButPushes(w, NextOfBatch(w, p))
    ensures forall x | x in w.pushes :: x in NextOfBatch(w, p).pushes && NextOfBatch(w, p).pushes[x] == w.pushes[x]
  {
  }

  lemma MarkedFrame(w: World, d: DocId, p: PushId)
    ensures var t := Marked(w, d, p);
            SameButPushes(w.(q := t.q, bursts := t.bursts, fired := t.fired), t)
    ensures p !in w.pushes ==> forall x | x in w.pushes :: x in Marked(w, d, p).pushes && Marked(w, d, p).pushes[x] == w.pushes[x]
  {
  }

  /** Documents and sent snapshots only grow, and the socket stays as it is. */
  ghost predicate Grows(w: World, t: World) {
    && t.open == w.open && t.clock == w.clock && t.polls == w.polls
    && forall d :: Of(w.docs, d) <= Of(t.docs, d) && Of(w.sent, d) <= Of(t.sent, d)
  }

  /** Nothing about changes, sends and heads differs. */
  ghost predicate SameSends(w: World, t: World) {
    && t.docs == w.docs && t.local == w.local && t.sent == w.sent && t.covered == w.covered
    && t.frames == w.frames && t.heads == w.heads
  }

  lemma EditFrame(w: World, d: DocId, x: Change, p: PushId)
    ensures var t := OnEdit(w, d, x, p);
            && Grows(w, t) && t.sent == w.sent && t.covered == w.covered && t.frames == w.frames && t.heads == w.heads
            && t.docs == Add(w.docs, d, {x}) && t.local == w.local[d := LocalOf(w, d) + [x]]
  {
    MarkedFrame(Changed(w, d, x), d, p);
  }

  lemma SendFrame(w: World, p: PushId)
    requires p in w.pushes && w.pushes[p].Saved?
    ensures var t := OnSend(w, p);
            Grows(w, t) && t.docs == w.docs && t.local == w.local
  {
  }

  lemma OtherMoveFrame(w: World, e: Move)
    requires CanMove(w, e) && !e.Edit? && !e.SendSnapshot? && !e.Merge?
    ensures Grows(w, ApplyMove(w, e)) && SameSends(w, ApplyMove(w, e))
  {
    match e
    case FlushNext(p) => NextOfBatchFrame(w, p);
    case TimerFires(d, p) => StartPushFrame(EndBurst(w, d), d, p);
    case FlushNow(d, p) =>
      var w' := EndBurst(w, d);
      StartPushFrame(w'.(q := w'.q.(dirty := w'.q.dirty + {d})), d, p);
    case SaveSnapshot(_) =>
    case CheckSocket(_) =>
    case FindNoKey(_) =>
    case FindSocketClosed(_) =>
  }

  lemma MoveFrame(w: World, e: Move)
    requires CanMove(w, e)
    ensures var t := ApplyMove(w, e);
            && Grows(w, t)
            && t.local == (if e.Edit? then w.local[e.doc := LocalOf(w, e.doc) + [e.change]] else w.local)
            && (!e.SendSnapshot? ==> t.heads == w.heads && t.sent == w.sent && t.covered == w.covered && t.frames == w.frames)
  {
    match e
    case Edit(d, x, p) => EditFrame(w, d, x, p);
    case SendSnapshot(p) => SendFrame(w, p);
    case Merge(_, _) =>
    case _ => OtherMoveFrame(w, e);
  }

  predicate EndsBurst(e: Move) {
    e.Edit? || e.TimerFires? || e.FlushNow?
  }

  /** Timers and bursts stay unless a burst ends or grows. */
  lemma PushFrame(w: World, e: Move)
    requires CanMove(w, e) && !EndsBurst(e)
    ensures var t := ApplyMove(w, e);
            SameTimers(w.q, t.q) && t.bursts == w.bursts && t.fired == w.fired
  {
    match e
    case FlushNext(p) => NextOfBatchFrame(w, p);
    case Merge(_, _) =>
    case SaveSnapshot(_) =>
    case CheckSocket(_) =>
    case SendSnapshot(_) =>
    case FindNoKey(_) =>
    case FindSocketClosed(_) =>
  }
}
