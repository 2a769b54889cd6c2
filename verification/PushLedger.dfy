/**
 Two ledgers over every run of the push queue. No local change is forgotten while the socket is
 open, and what the socket has been handed and the server has stored is known exactly.
 */
module PushLedger {
  import opened Wrappers
  import opened PushQueueSpec
  import opened PushWorld

  // ---- the push ledger

  /** A push under way that has taken, or is still to take, a snapshot with the change. */
  ghost predicate Carries(w: World, p: PushId, d: DocId, x: Change) {
    p in w.pushes && w.pushes[p].doc == d && (w.pushes[p].Saved? ==> x in w.pushes[p].snap)
  }

  ghost predicate Tracked(w: World, d: DocId, x: Change) {
    x in Of(w.sent, d) || d in w.q.timers || exists p :: Carries(w, p, d, x)
  }

  /** Every local change is in its document, and sent, or behind a timer, or carried by a push. */
  ghost predicate Ledger(w: World) {
    forall d, x :: x in LocalOf(w, d) ==> x in Of(w.docs, d) && Tracked(w, d, x)
  }

  /** The socket stays open, and no push finds its key missing. */
  predicate Unhindered(e: Event) {
    e != Notes(CloseSocket) && !(e.Moves? && e.move.FindNoKey?)
  }

  /** Timers and pushes after a burst has ended and its push has started. */
  lemma FiredEffect(w: World, d: DocId, p: PushId)
    ensures var t := StartPush(EndBurst(w, d), d, p);
      t.q.timers == w.q.timers - {d} && t.pushes == if w.open then w.pushes[p := Waiting(d)] else w.pushes
  {
  }

  /** The timers of `t` are those of `w`, but for that of a document whose push has started. */
  ghost predicate TimerOrPush(w: World, t: World, d: DocId, p: PushId) {
    (d in w.q.timers ==> d in t.q.timers) || (p in t.pushes && t.pushes[p] == Waiting(d))
  }

  lemma TimerOrCarried(w: World, t: World, d: DocId, p: PushId, x: Change)
    requires d in w.q.timers && TimerOrPush(w, t, d, p)
    ensures d in t.q.timers || exists p :: Carries(t, p, d, x)
  {
    assert d !in t.q.timers ==> Carries(t, p, d, x);
  }

  /** An armed timer either stays or starts a push that is still to take its snapshot. */
  lemma TimerStays(w: World, e: Move, d: DocId, x: Change)
    requires CanMove(w, e) && w.open && d in w.q.timers
    ensures d in ApplyMove(w, e).q.timers || exists p :: Carries(ApplyMove(w, e), p, d, x)
  {
    match e
    case Edit(k, c, p) =>
      MarkedEffect(Changed(w, k, c), k, p);
      TimerOrCarried(w, ApplyMove(w, e), d, p, x);
    case TimerFires(k, p) =>
      FiredEffect(w, k, p);
      TimerOrCarried(w, ApplyMove(w, e), d, p, x);
    case FlushNow(k, p) =>
      FlushNowEffect(w, k, p);
      TimerOrCarried(w, ApplyMove(w, e), d, p, x);
    case _ => PushFrame(w, e);
  }

  lemma FlushNowEffect(w: World, d: DocId, p: PushId)
    ensures var t := OnFlushNow(w, d, p);
      t.q.timers == w.q.timers - {d} && t.pushes == if w.open then w.pushes[p := Waiting(d)] else w.pushes
  {
  }

  /** A push under way keeps carrying the change until it has sent it. */
  lemma PushStays(w: World, e: Move, p: PushId, d: DocId, x: Change)
    requires CanMove(w, e) && w.open && !e.FindNoKey? && x in Of(w.docs, d)
    requires Carries(w, p, d, x)
    ensures x in Of(ApplyMove(w, e).sent, d) || Carries(ApplyMove(w, e), p, d, x)
  {
    match e
    case Edit(d', x', p') =>
      MarkedFrame(Changed(w, d', x'), d', p');
    case FlushNext(p') => NextOfBatchFrame(w, p');
    case _ =>
  }

  lemma MoveKeepsTracked(w: World, e: Move, d: DocId, x: Change)
    requires CanMove(w, e) && w.open && !e.FindNoKey? && x in Of(w.docs, d) && Tracked(w, d, x)
    ensures x in Of(ApplyMove(w, e).docs, d) && Tracked(ApplyMove(w, e), d, x)
  {
    MoveFrame(w, e);
    if x in Of(w.sent, d) {
    } else if d in w.q.timers {
      TimerStays(w, e, d, x);
    } else {
      var p :| Carries(w, p, d, x);
      PushStays(w, e, p, d, x);
    }
  }

  lemma TrackedFrame(w: World, t: World, d: DocId, x: Change)
    requires Tracked(w, d, x) && t.sent == w.sent && t.pushes == w.pushes && t.q.timers == w.q.timers
    ensures Tracked(t, d, x)
  {
    if p :| Carries(w, p, d, x) { assert Carries(t, p, d, x); }
  }

  lemma MarkedIsTracked(w: World, d: DocId, x: Change, p: PushId)
    requires w.open
    ensures Tracked(Marked(w, d, p), d, x)
  {
    MarkedEffect(w, d, p);
    var t := Marked(w, d, p);
    assert d !in t.q.timers ==> Carries(t, p, d, x);
  }

  lemma EditIsTracked(w: World, d: DocId, x: Change, p: PushId)
    requires w.open && p !in w.pushes
    ensures x in Of(OnEdit(w, d, x, p).docs, d) && Tracked(OnEdit(w, d, x, p), d, x)
  {
    EditFrame(w, d, x, p);
    MarkedIsTracked(Changed(w, d, x), d, x, p);
  }

  lemma MoveKeepsLedger(w: World, e: Move)
    requires CanMove(w, e) && !e.FindNoKey? && w.open && Ledger(w)
    ensures ApplyMove(w, e).open && Ledger(ApplyMove(w, e))
  {
    MoveFrame(w, e);
    forall d, x | x in LocalOf(ApplyMove(w, e), d) ensures x in Of(ApplyMove(w, e).docs, d) && Tracked(ApplyMove(w, e), d, x) {
      if e.Edit? && d == e.doc && x == e.change {
        EditIsTracked(w, d, x, e.push);
      } else {
        assert x in LocalOf(w, d);
        MoveKeepsTracked(w, e, d, x);
      }
    }
  }

  lemma ReplyKeepsLedger(w: World, e: Reply)
    requires w.open && Ledger(w)
    ensures ApplyReply(w, e).open && Ledger(ApplyReply(w, e))
  {
    ReplyFrame(w, e);
    forall d, x | x in LocalOf(w, d) ensures Tracked(ApplyReply(w, e), d, x) {
      TrackedFrame(w, ApplyReply(w, e), d, x);
    }
  }

  lemma NoteKeepsLedger(w: World, e: Note)
    requires !e.CloseSocket? && w.open && Ledger(w)
    ensures ApplyNote(w, e).open && Ledger(ApplyNote(w, e))
  {
    NoteFrame(w, e);
    forall d, x | x in LocalOf(w, d) ensures Tracked(ApplyNote(w, e), d, x) {
      TrackedFrame(w, ApplyNote(w, e), d, x);
    }
  }

  /** Nothing takes a change off the ledger. */
  lemma StepKeepsLedger(w: World, e: Event)
    requires Enabled(w, e) && Unhindered(e) && w.open && Ledger(w)
    ensures Apply(w, e).open && Ledger(Apply(w, e))
  {
    match e
    case Moves(m) => MoveKeepsLedger(w, m);
    case Replies(r) => ReplyKeepsLedger(w, r);
    case Notes(n) => NoteKeepsLedger(w, n);
  }

  /**
   The push ledger: over every run with the socket open and keys at hand, each local change is in
   a snapshot handed to the socket, or its timer is armed, or a push under way will carry it,
   whatever acks, rejections, flushes and polls do to the dirty set.
   */
  lemma {:induction false} PushLedgerHolds(w: World, events: seq<Event>)
    requires w.open && Ledger(w) && IsRun(w, events) && forall e | e in events :: Unhindered(e)
    ensures After(w, events).open && Ledger(After(w, events))
    decreases |events|
  {
    if events != [] {
      StepKeepsLedger(w, events[0]);
      PushLedgerHolds(Apply(w, events[0]), events[1..]);
    }
  }

  // ---- what has been sent

  /** Exactly the first `covered` local changes of a document have been sent. */
  ghost predicate DocOk(doc: set<Change>, local: seq<Change>, sent: set<Change>, covered: nat) {
    && covered <= |local| && sent <= doc
    && forall i :: 0 <= i < |local| ==> local[i] in doc && (local[i] in sent <==> i < covered)
  }

  /** A saved snapshot has exactly the local changes made before it was saved. */
  ghost predicate SavedOk(doc: set<Change>, local: seq<Change>, push: Push) {
    push.Saved? ==>
      && push.edits <= |local| && push.snap <= doc
      && forall i :: 0 <= i < |local| ==> (local[i] in push.snap <==> i < push.edits)
  }

  ghost predicate DocsOk(w: World) {
    forall d :: DocOk(Of(w.docs, d), LocalOf(w, d), Of(w.sent, d), Covered(w, d))
  }

  ghost predicate PushesOk(w: World) {
    forall p | p in w.pushes :: SavedOk(Of(w.docs, w.pushes[p].doc), LocalOf(w, w.pushes[p].doc), w.pushes[p])
  }

  /** A message has exactly the local changes made before its snapshot was saved. */
  ghost predicate FrameOk(doc: set<Change>, local: seq<Change>, f: Frame) {
    && f.edits <= |local| && f.snap <= doc
    && forall i :: 0 <= i < |local| ==> (local[i] in f.snap <==> i < f.edits)
  }

  ghost predicate FramesOk(w: World) {
    w.stored <= w.frames && forall f | f in w.frames :: FrameOk(Of(w.docs, f.doc), LocalOf(w, f.doc), f)
  }

  ghost predicate SendsOk(w: World) {
    DocsOk(w) && PushesOk(w) && FramesOk(w)
  }

  lemma FreshEdit(doc: set<Change>, local: seq<Change>, sent: set<Change>, covered: nat, x: Change)
    requires DocOk(doc, local, sent, covered) && x !in doc
    ensures DocOk(doc + {x}, local + [x], sent, covered)
  {
  }

  lemma FreshEditAndFrame(doc: set<Change>, local: seq<Change>, f: Frame, x: Change)
    requires FrameOk(doc, local, f) && x !in doc
    ensures FrameOk(doc + {x}, local + [x], f)
  {
  }

  lemma FreshEditAndPush(doc: set<Change>, local: seq<Change>, push: Push, x: Change)
    requires SavedOk(doc, local, push) && x !in doc
    ensures SavedOk(doc + {x}, local + [x], push)
  {
  }

  /** The pushes of `t` are those of `w`, or have still to take their snapshot. */
  ghost predicate NoNewSnapshot(w: World, t: World) {
    forall p | p in t.pushes :: t.pushes[p].Waiting? || (p in w.pushes && SameSnapshot(w.pushes[p], t.pushes[p]))
  }

  predicate SameSnapshot(a: Push, b: Push) {
    a.Saved? && b.Saved? && b == a.(checked := b.checked)
  }

  lemma SameSendsOk(w: World, t: World)
    requires SendsOk(w) && SameSends(w, t) && NoNewSnapshot(w, t) && t.stored <= t.frames
    ensures SendsOk(t)
  {
    forall d ensures DocOk(Of(t.docs, d), LocalOf(t, d), Of(t.sent, d), Covered(t, d)) {
      assert DocOk(Of(w.docs, d), LocalOf(w, d), Of(w.sent, d), Covered(w, d));
    }
  }

  lemma ChangedSendsOk(w: World, d: DocId, x: Change)
    requires SendsOk(w) && x !in Of(w.docs, d)
    ensures SendsOk(Changed(w, d, x))
  {
    var t := Changed(w, d, x);
    forall k ensures DocOk(Of(t.docs, k), LocalOf(t, k), Of(t.sent, k), Covered(t, k)) {
      assert DocOk(Of(w.docs, k), LocalOf(w, k), Of(w.sent, k), Covered(w, k));
      if k == d { FreshEdit(Of(w.docs, d), LocalOf(w, d), Of(w.sent, d), Covered(w, d), x); }
    }
    forall p | p in t.pushes ensures SavedOk(Of(t.docs, t.pushes[p].doc), LocalOf(t, t.pushes[p].doc), t.pushes[p]) {
      var k := w.pushes[p].doc;
      assert SavedOk(Of(w.docs, k), LocalOf(w, k), w.pushes[p]);
      if k == d { FreshEditAndPush(Of(w.docs, d), LocalOf(w, d), w.pushes[p], x); }
    }
    forall f | f in t.frames ensures FrameOk(Of(t.docs, f.doc), LocalOf(t, f.doc), f) {
      assert FrameOk(Of(w.docs, f.doc), LocalOf(w, f.doc), f);
      if f.doc == d { FreshEditAndFrame(Of(w.docs, d), LocalOf(w, d), f, x); }
    }
  }

  lemma EditSendsOk(w: World, d: DocId, x: Change, p: PushId)
    requires SendsOk(w) && x !in Of(w.docs, d) && p !in w.pushes
    ensures SendsOk(OnEdit(w, d, x, p))
  {
    ChangedSendsOk(w, d, x);
    EditFrame(w, d, x, p);
    MarkedPushes(Changed(w, d, x), d, p);
    SameSendsOk(Changed(w, d, x), OnEdit(w, d, x, p));
  }

  lemma MarkedPushes(w: World, d: DocId, p: PushId)
    requires p !in w.pushes
    ensures NoNewSnapshot(w, Marked(w, d, p))
  {
    MarkedEffect(w, d, p);
  }

  lemma MergeSendsOk(w: World, d: DocId, snap: set<Change>)
    requires SendsOk(w)
    ensures SendsOk(w.(docs := Add(w.docs, d, snap)))
  {
    var t := w.(docs := Add(w.docs, d, snap));
    forall k ensures DocOk(Of(t.docs, k), LocalOf(t, k), Of(t.sent, k), Covered(t, k)) {
      assert DocOk(Of(w.docs, k), LocalOf(w, k), Of(w.sent, k), Covered(w, k));
      assert Of(w.docs, k) <= Of(t.docs, k);
    }
    forall p | p in t.pushes ensures SavedOk(Of(t.docs, t.pushes[p].doc), LocalOf(t, t.pushes[p].doc), t.pushes[p]) {
      assert SavedOk(Of(w.docs, w.pushes[p].doc), LocalOf(w, w.pushes[p].doc), w.pushes[p]);
      assert Of(w.docs, w.pushes[p].doc) <= Of(t.docs, w.pushes[p].doc);
    }
    forall f | f in t.frames ensures FrameOk(Of(t.docs, f.doc), LocalOf(t, f.doc), f) {
      assert FrameOk(Of(w.docs, f.doc), LocalOf(w, f.doc), f) && Of(w.docs, f.doc) <= Of(t.docs, f.doc);
    }
  }

  lemma SaveSendsOk(w: World, p: PushId)
    requires SendsOk(w) && p in w.pushes
    ensures SendsOk(OnSave(w, p))
  {
    var t := OnSave(w, p);
    var d := w.pushes[p].doc;
    assert DocOk(Of(w.docs, d), LocalOf(w, d), Of(w.sent, d), Covered(w, d));
    assert SavedOk(Of(w.docs, d), LocalOf(w, d), t.pushes[p]);
    forall k ensures DocOk(Of(t.docs, k), LocalOf(t, k), Of(t.sent, k), Covered(t, k)) {
      assert DocOk(Of(w.docs, k), LocalOf(w, k), Of(w.sent, k), Covered(w, k));
    }
  }

  lemma SendDocOk(doc: set<Change>, local: seq<Change>, sent: set<Change>, covered: nat, push: Push)
    requires DocOk(doc, local, sent, covered) && push.Saved? && SavedOk(doc, local, push)
    ensures DocOk(doc, local, sent + push.snap, Max(covered, push.edits))
  {
  }

  lemma SendFrameOk(doc: set<Change>, local: seq<Change>, push: Push)
    requires push.Saved? && SavedOk(doc, local, push)
    ensures FrameOk(doc, local, Frame(push.doc, push.snap, push.edits))
  {
  }

  /** The same documents, messages and sends, and fewer pushes. */
  ghost predicate SameWithFewerPushes(w: World, t: World) {
    && t.docs == w.docs && t.local == w.local && t.sent == w.sent && t.covered == w.covered
    && t.frames == w.frames && t.stored == w.stored
    && forall p | p in t.pushes :: p in w.pushes && t.pushes[p] == w.pushes[p]
  }

  lemma FewerPushesOk(w: World, t: World)
    requires SendsOk(w) && SameWithFewerPushes(w, t)
    ensures SendsOk(t)
  {
    forall k ensures DocOk(Of(t.docs, k), LocalOf(t, k), Of(t.sent, k), Covered(t, k)) {
      assert DocOk(Of(w.docs, k), LocalOf(w, k), Of(w.sent, k), Covered(w, k));
    }
  }

  /** The document, with the message that an open socket is handed. */
  function HandedOver(w: World, push: Push): World
    requires push.Saved?
  {
    w.(sent := Add(w.sent, push.doc, push.snap), covered := w.covered[push.doc := Max(Covered(w, push.doc), push.edits)],
       frames := w.frames + {Frame(push.doc, push.snap, push.edits)})
  }

  lemma HandedOverOk(w: World, push: Push)
    requires SendsOk(w) && push.Saved? && SavedOk(Of(w.docs, push.doc), LocalOf(w, push.doc), push)
    ensures SendsOk(HandedOver(w, push))
  {
    var t, d := HandedOver(w, push), push.doc;
    SendFrameOk(Of(w.docs, d), LocalOf(w, d), push);
    forall k ensures DocOk(Of(t.docs, k), LocalOf(t, k), Of(t.sent, k), Covered(t, k)) {
      assert DocOk(Of(w.docs, k), LocalOf(w, k), Of(w.sent, k), Covered(w, k));
      if k == d { SendDocOk(Of(w.docs, d), LocalOf(w, d), Of(w.sent, d), Covered(w, d), push); }
    }
  }

  lemma SendSendsOk(w: World, p: PushId)
    requires SendsOk(w) && p in w.pushes && w.pushes[p].Saved?
    ensures SendsOk(OnSend(w, p))
  {
    assert SavedOk(Of(w.docs, w.pushes[p].doc), LocalOf(w, w.pushes[p].doc), w.pushes[p]);
    if w.open {
      HandedOverOk(w, w.pushes[p]);
      FewerPushesOk(HandedOver(w, w.pushes[p]), OnSend(w, p));
    } else {
      FewerPushesOk(w, OnSend(w, p));
    }
  }

  lemma OtherPushes(w: World, e: Move)
    requires CanMove(w, e) && !e.Edit? && !e.Merge? && !e.SaveSnapshot? && !e.SendSnapshot?
    ensures NoNewSnapshot(w, ApplyMove(w, e)) && ApplyMove(w, e).stored == w.stored
  {
    if e.FlushNext? {
      NextOfBatchFrame(w, e.push);
    } else if e.TimerFires? {
    } else if e.FlushNow? {
    } else {
    }
  }

  lemma OtherSendsOk(w: World, e: Move)
    requires CanMove(w, e) && SendsOk(w) && !e.Edit? && !e.Merge? && !e.SaveSnapshot? && !e.SendSnapshot?
    ensures SendsOk(ApplyMove(w, e))
  {
    OtherMoveFrame(w, e);
    OtherPushes(w, e);
    SameSendsOk(w, ApplyMove(w, e));
  }

  lemma SameChangesOk(w: World, t: World)
    requires SendsOk(w) && SameChanges(w, t) && t.stored <= t.frames
    ensures SendsOk(t)
  {
    forall d ensures DocOk(Of(t.docs, d), LocalOf(t, d), Of(t.sent, d), Covered(t, d)) {
      assert DocOk(Of(w.docs, d), LocalOf(w, d), Of(w.sent, d), Covered(w, d));
    }
  }

  lemma MoveKeepsSends(w: World, e: Move)
    requires CanMove(w, e) && SendsOk(w)
    ensures SendsOk(ApplyMove(w, e))
  {
    match e
    case Edit(d, x, p) => EditSendsOk(w, d, x, p);
    case Merge(d, snap) => MergeSendsOk(w, d, snap);
    case SaveSnapshot(p) => SaveSendsOk(w, p);
    case SendSnapshot(p) => SendSendsOk(w, p);
    case _ => OtherSendsOk(w, e);
  }

  lemma StepKeepsSends(w: World, e: Event)
    requires Enabled(w, e) && SendsOk(w)
    ensures SendsOk(Apply(w, e))
  {
    match e
    case Replies(r) =>
      ReplyFrame(w, r);
      StoredFrame(w, e);
      SameChangesOk(w, Apply(w, e));
    case Notes(n) =>
      NoteFrame(w, n);
      StoredFrame(w, e);
      SameChangesOk(w, Apply(w, e));
    case Moves(m) => MoveKeepsSends(w, m);
  }

  /** The server stores only messages it has been sent. */
  lemma StoredFrame(w: World, e: Event)
    requires Enabled(w, e) && !e.Moves? && w.stored <= w.frames
    ensures Apply(w, e).stored <= w.frames
  {
    match e
    case Replies(r) => ReplyFrame(w, r);
    case Notes(n) => NoteFrame(w, n);
  }

  lemma {:induction false} RunKeepsSends(w: World, events: seq<Event>)
    requires SendsOk(w) && IsRun(w, events)
    ensures SendsOk(After(w, events))
    decreases |events|
  {
    if events != [] {
      StepKeepsSends(w, events[0]);
      RunKeepsSends(Apply(w, events[0]), events[1..]);
    }
  }

  /** Every local change of the document has been handed to the socket. */
  ghost predicate AllSent(w: World, d: DocId) {
    forall x :: x in LocalOf(w, d) ==> x in Of(w.sent, d)
  }

  lemma AllSentIff(w: World, d: DocId)
    requires SendsOk(w)
    ensures AllSent(w, d) <==> Covered(w, d) == |LocalOf(w, d)|
  {
    assert DocOk(Of(w.docs, d), LocalOf(w, d), Of(w.sent, d), Covered(w, d));
    if Covered(w, d) < |LocalOf(w, d)| {
      assert LocalOf(w, d)[|LocalOf(w, d)| - 1] in LocalOf(w, d);
    }
  }

  /**
   Over every run, the local changes that have been handed to the socket are exactly those made
   before the latest snapshot that was sent had been saved. So everything is sent if and only if
   no edit came after that.
   */
  lemma SentExactly(w: World, events: seq<Event>, d: DocId)
    requires Init(w) && IsRun(w, events)
    ensures var t := After(w, events);
      && (forall i :: 0 <= i < |LocalOf(t, d)| ==> (LocalOf(t, d)[i] in Of(t.sent, d) <==> i < Covered(t, d)))
      && (AllSent(t, d) <==> Covered(t, d) == |LocalOf(t, d)|)
  {
    RunKeepsSends(w, events);
    var t := After(w, events);
    assert DocOk(Of(t.docs, d), LocalOf(t, d), Of(t.sent, d), Covered(t, d));
    AllSentIff(t, d);
  }

  // ---- what the server has stored

  /** Every local change of the document is in a message the server has stored. */
  ghost predicate AllStored(w: World, d: DocId) {
    forall x :: x in LocalOf(w, d) ==> exists f :: f in w.stored && f.doc == d && x in f.snap
  }

  /** The server has stored a message whose snapshot was saved after the latest local edit. */
  ghost predicate LatestStored(w: World, d: DocId) {
    exists f :: f in w.stored && f.doc == d && f.edits == |LocalOf(w, d)|
  }

  lemma AllStoredIff(w: World, d: DocId)
    requires SendsOk(w)
    ensures AllStored(w, d) <==> LocalOf(w, d) == [] || LatestStored(w, d)
  {
    var local := LocalOf(w, d);
    if local != [] && AllStored(w, d) {
      var last := local[|local| - 1];
      assert last in local;
      var f :| f in w.stored && f.doc == d && last in f.snap;
      assert FrameOk(Of(w.docs, d), local, f);
    }
    if f :| f in w.stored && f.doc == d && f.edits == |local| {
      assert FrameOk(Of(w.docs, d), local, f);
    }
  }

  /**
   What a caught_up whose heads match knows. Matching heads only show that some push had saved
   every change. All changes were handed to the socket if and only if no edit came after the save
   of a snapshot that was, and the server has them all if and only if it has stored a message
   saved after the latest edit.
   */
  lemma CaughtUpClearsIff(w: World, events: seq<Event>, d: DocId)
    requires Init(w) && IsRun(w, events) && Enabled(After(w, events), Replies(CaughtUpClears(d)))
    ensures var t := After(w, events);
      && (forall x :: x in LocalOf(t, d) ==> x in t.heads[d])
      && (AllSent(t, d) <==> Covered(t, d) == |LocalOf(t, d)|)
      && (AllStored(t, d) <==> LocalOf(t, d) == [] || LatestStored(t, d))
  {
    RunKeepsSends(w, events);
    var t := After(w, events);
    assert DocOk(Of(t.docs, d), LocalOf(t, d), Of(t.sent, d), Covered(t, d));
    AllSentIff(t, d);
    AllStoredIff(t, d);
  }
}
