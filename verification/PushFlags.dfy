/**
 The dirty set and the flags in IndexedDB: what keeps a document with unsent changes in them,
 whatever the socket does, and what an ack takes away.
 */
module PushFlags {
  import opened Wrappers
  import opened PushQueueSpec
  import opened PushWorld
  import opened PushLedger

  /** A flag that is in IndexedDB, or whose write is queued. */
  predicate Flagged(w: World, d: DocId) {
    d in w.flags || d in w.unwritten
  }

  /** The queue will push the document, now and after a reload. */
  predicate Held(w: World, d: DocId) {
    d in w.q.dirty && Flagged(w, d)
  }

  /** Does the event take a held document off the queue or out of IndexedDB? */
  predicate Takes(w: World, e: Event, d: DocId) {
    e.Replies? &&
    match e.reply
    case AckClears(x) => x == d && d !in w.unwritten
    case CaughtUpClears(x) => x == d && d !in w.unwritten
    case ClearingDone(c) => c.doc == d
    case Reject(x, insufficient, discard) =>
      if insufficient && x.vault != "" then d in TakenOut(w.q, x, discard) else x == d
    case CaughtUp(_) => false
    case RateLimit(_) => false
    case DropOrphan(x) => x == d
  }

  // ---- only acks, rejections and caught_ups take a document off

  lemma MoveKeepsMarks(w: World, e: Move, d: DocId)
    requires CanMove(w, e)
    ensures w.q.dirty <= ApplyMove(w, e).q.dirty
    ensures ApplyMove(w, e).flags == w.flags && w.unwritten <= ApplyMove(w, e).unwritten
  {
    match e
    case Edit(k, x, p) => MarkedEffect(Changed(w, k, x), k, p);
    case FlushNext(p) => NextOfBatchFrame(w, p);
    case _ =>
  }

  lemma NoteKeepsMarks(w: World, e: Note, d: DocId)
    requires CanNote(w, e)
    ensures w.q.dirty <= ApplyNote(w, e).q.dirty
    ensures Flagged(ApplyNote(w, e), d) <==> Flagged(w, d)
  {
    if e.WriteFlag? {
      assert d != e.doc ==> (w.unwritten - multiset{e.doc})[d] == w.unwritten[d];
    }
  }

  lemma RejectTakesIff(w: World, x: DocId, insufficient: bool, discard: bool, d: DocId)
    requires Held(w, d)
    ensures Held(OnReject(w, x, insufficient, discard), d) <==> !Takes(w, Replies(Reject(x, insufficient, discard)), d)
  {
  }

  lemma ReplyTakesIff(w: World, e: Reply, d: DocId)
    requires Held(w, d) && CanReply(w, e)
    ensures Held(ApplyReply(w, e), d) <==> !Takes(w, Replies(e), d)
  {
    match e
    case Reject(x, insufficient, discard) => RejectTakesIff(w, x, insufficient, discard, d);
    case ClearingDone(c) => assert Forget(w.q, c).dirty == w.q.dirty - {c.doc};
    case AckClears(x) =>
    case CaughtUp(_) =>
    case CaughtUpClears(x) =>
    case RateLimit(_) =>
    case DropOrphan(_) =>
  }

  /** A held document stays held except for exactly these events. */
  lemma StepTakesIff(w: World, e: Event, d: DocId)
    requires Held(w, d) && Enabled(w, e)
    ensures Held(Apply(w, e), d) <==> !Takes(w, e, d)
  {
    match e
    case Moves(m) => MoveKeepsMarks(w, m, d);
    case Replies(r) => ReplyTakesIff(w, r, d);
    case Notes(n) => NoteKeepsMarks(w, n, d);
  }

  /** No event of the run takes the document off. */
  ghost predicate NeverTaken(w: World, events: seq<Event>, d: DocId)
    requires IsRun(w, events)
    decreases |events|
  {
    events == [] || (!Takes(w, events[0], d) && NeverTaken(Apply(w, events[0]), events[1..], d))
  }

  lemma {:induction false} RunKeepsHeld(w: World, events: seq<Event>, d: DocId)
    requires Held(w, d) && IsRun(w, events) && NeverTaken(w, events, d)
    ensures Held(After(w, events), d)
    decreases |events|
  {
    if events != [] {
      StepTakesIff(w, events[0], d);
      RunKeepsHeld(Apply(w, events[0]), events[1..], d);
    }
  }

  /**
   An edited document stays dirty, and flagged or about to be, until an ack, a caught_up or a
   rejection takes it off, however often the socket closes and opens.
   */
  lemma EditStaysHeld(w: World, before: seq<Event>, d: DocId, x: Change, p: PushId, afterwards: seq<Event>)
    requires Init(w) && IsRun(w, before) && CanMove(After(w, before), Edit(d, x, p))
    requires var u := OnEdit(After(w, before), d, x, p); IsRun(u, afterwards) && NeverTaken(u, afterwards, d)
    ensures Held(After(OnEdit(After(w, before), d, x, p), afterwards), d)
  {
    var u := Changed(After(w, before), d, x);
    MarkedEffect(u, d, p);
    MarkedFrame(u, d, p);
    RunKeepsHeld(OnEdit(After(w, before), d, x, p), afterwards, d);
  }

  /** So does a document whose flag an earlier session left. */
  lemma OldFlagStaysHeld(w: World, events: seq<Event>, d: DocId)
    requires Init(w) && d in w.flags && IsRun(w, events) && NeverTaken(w, events, d)
    ensures Held(After(w, events), d)
  {
    RunKeepsHeld(w, events, d);
  }

  // ---- what an ack takes away

  /** The event neither reports a change of the document nor deletes its flag. */
  predicate Quiet(e: Event, d: DocId) {
    match e
    case Moves(Edit(x, _, _)) => x != d
    case Moves(FlushNow(x, _)) => x != d
    case Replies(AckClears(x)) => x != d
    case Replies(CaughtUpClears(x)) => x != d
    case Replies(Reject(x, insufficient, _)) => x != d && !(insufficient && x.vault == d.vault)
    case Replies(DropOrphan(x)) => x != d
    case _ => true
  }

  lemma QuietReplyFlags(w: World, e: Reply, d: DocId)
    requires CanReply(w, e) && Quiet(Replies(e), d)
    ensures Flagged(ApplyReply(w, e), d) <==> Flagged(w, d)
    ensures d in ApplyReply(w, e).q.dirty <==> d in w.q.dirty && !(e.ClearingDone? && e.what.doc == d)
  {
    match e
    case Reject(x, insufficient, discard) =>
    case ClearingDone(c) => assert Forget(w.q, c).dirty == w.q.dirty - {c.doc};
    case AckClears(x) =>
    case CaughtUp(_) =>
    case CaughtUpClears(x) =>
    case RateLimit(_) =>
    case DropOrphan(_) =>
  }

  lemma QuietMoveFlags(w: World, e: Move, d: DocId)
    requires CanMove(w, e) && Quiet(Moves(e), d)
    ensures Flagged(ApplyMove(w, e), d) <==> Flagged(w, d)
    ensures d in ApplyMove(w, e).q.dirty <==> d in w.q.dirty
    ensures LocalOf(ApplyMove(w, e), d) == LocalOf(w, d)
  {
    match e
    case Edit(k, x, p) =>
      MarkedEffect(Changed(w, k, x), k, p);
      MarkedFrame(Changed(w, k, x), k, p);
    case FlushNext(p) => NextOfBatchFrame(w, p);
    case _ => MoveFrame(w, e);
  }

  lemma QuietNoteFlags(w: World, e: Note, d: DocId)
    requires CanNote(w, e)
    ensures Flagged(ApplyNote(w, e), d) <==> Flagged(w, d)
    ensures LocalOf(ApplyNote(w, e), d) == LocalOf(w, d)
    ensures d in ApplyNote(w, e).q.dirty ==> d in w.q.dirty || Finds(Notes(e), d)
  {
    NoteKeepsMarks(w, e, d);
    match e
    case WriteFlag(_) =>
    case Advance(_) =>
    case BackoffTimer =>
    case BeginFlush(_) =>
    case EndFlush =>
    case PollReads =>
    case PollMarks(_) =>
    case ServerStores(_) =>
    case VaultsChanged =>
    case UpdateRefs =>
    case SetPending(_) =>
    case CloseSocket =>
    case OpenSocket =>
  }

  /** A poll marks the document, whose flag it has read. */
  predicate Finds(e: Event, d: DocId) {
    e.Notes? && e.note.PollMarks? && d in e.note.found
  }

  predicate Unfound(events: seq<Event>, d: DocId) {
    forall e | e in events :: !Finds(e, d)
  }

  /** Deleting the flag is over, and the queue forgets the document. */
  predicate Finishes(e: Event, d: DocId) {
    e.Replies? && e.reply.ClearingDone? && e.reply.what.doc == d
  }

  lemma QuietStepFlags(w: World, e: Event, d: DocId)
    requires Enabled(w, e) && Quiet(e, d)
    ensures Flagged(Apply(w, e), d) <==> Flagged(w, d)
    ensures LocalOf(Apply(w, e), d) == LocalOf(w, d)
    ensures d in Apply(w, e).q.dirty ==> (d in w.q.dirty && !Finishes(e, d)) || Finds(e, d)
  {
    match e
    case Moves(m) => QuietMoveFlags(w, m, d);
    case Replies(r) =>
      QuietReplyFlags(w, r, d);
      ReplyFrame(w, r);
    case Notes(n) => QuietNoteFlags(w, n, d);
  }

  lemma {:induction false} QuietRunFlags(w: World, events: seq<Event>, d: DocId)
    requires IsRun(w, events) && forall e | e in events :: Quiet(e, d)
    ensures Flagged(After(w, events), d) <==> Flagged(w, d)
    ensures LocalOf(After(w, events), d) == LocalOf(w, d)
    ensures Unfound(events, d) && (d !in w.q.dirty || Replies(ClearingDone(ByAck(d))) in events) ==>
              d !in After(w, events).q.dirty
    decreases |events|
  {
    if events != [] {
      QuietStepFlags(w, events[0], d);
      QuietRunFlags(Apply(w, events[0]), events[1..], d);
    }
  }

  /** A reload now would push the document again, or has nothing to push. */
  ghost predicate SurvivesReload(w: World, d: DocId) {
    d in w.flags || AllSent(w, d)
  }

  /**
   What an ack leaves. From the start, `before` leads to the moment at which the flag is deleted;
   afterwards the ack is handled to its end, nothing else happens to the document, and the writes
   queued for it land. Then the flag is back exactly when a flag write was still queued at that
   moment, unless a poll finds it the document is not dirty, and a reload loses no change exactly when
   that write was queued or no edit came after the save of a snapshot that was sent.
   */
  lemma AckForgetsIff(w: World, before: seq<Event>, d: DocId, afterwards: seq<Event>)
    requires Init(w) && IsRun(w, before)
    requires var v := ApplyReply(After(w, before), AckClears(d));
      && IsRun(v, afterwards) && Replies(ClearingDone(ByAck(d))) in afterwards
      && (forall e | e in afterwards :: Quiet(e, d)) && d !in After(v, afterwards).unwritten
    ensures var u := After(w, before);
      var t := After(ApplyReply(u, AckClears(d)), afterwards);
      && (d in t.flags <==> d in u.unwritten)
      && (Unfound(afterwards, d) ==> d !in t.q.dirty)
      && (AllSent(t, d) <==> Covered(t, d) == |LocalOf(u, d)|)
      && (SurvivesReload(t, d) <==> d in u.unwritten || Covered(t, d) == |LocalOf(u, d)|)
  {
    var v := ApplyReply(After(w, before), AckClears(d));
    QuietRunFlags(v, afterwards, d);
    SendsAfterAck(w, before, d, afterwards);
    AllSentIff(After(v, afterwards), d);
    AckUnflags(After(w, before), d);
  }

  lemma AckUnflags(u: World, d: DocId)
    ensures var v := ApplyReply(u, AckClears(d));
      (Flagged(v, d) <==> d in u.unwritten) && LocalOf(v, d) == LocalOf(u, d) && d !in v.flags
  {
  }

  lemma SendsAfterAck(w: World, before: seq<Event>, d: DocId, afterwards: seq<Event>)
    requires Init(w) && IsRun(w, before) && IsRun(ApplyReply(After(w, before), AckClears(d)), afterwards)
    ensures SendsOk(After(ApplyReply(After(w, before), AckClears(d)), afterwards))
  {
    RunKeepsSends(w, before);
    StepKeepsSends(After(w, before), Replies(AckClears(d)));
    RunKeepsSends(ApplyReply(After(w, before), AckClears(d)), afterwards);
  }

  // ---- a change that is never pushed

  /** A change is unsent, and nothing the queue does by itself will push the document. */
  ghost predicate Forgotten(w: World, d: DocId, x: Change) {
    && x in LocalOf(w, d) && x !in Of(w.sent, d)
    && d !in w.q.dirty && !Flagged(w, d) && d !in w.q.timers && Unread(w, d)
    && forall p | p in w.pushes :: w.pushes[p].doc != d
  }

  /** Nothing has been sent of the change, and no timer or push can send it. */
  ghost predicate Unsendable(w: World, d: DocId, x: Change) {
    x !in Of(w.sent, d) && d !in w.q.timers && forall p | p in w.pushes :: w.pushes[p].doc != d
  }

  lemma ForgottenBurst(w: World, e: Move, d: DocId, x: Change)
    requires CanMove(w, e) && EndsBurst(e) && Unsendable(w, d, x) && Quiet(Moves(e), d)
    ensures Unsendable(ApplyMove(w, e), d, x)
  {
    match e
    case Edit(k, c, p) =>
      EditFrame(w, k, c, p);
      MarkedEffect(Changed(w, k, c), k, p);
    case TimerFires(k, p) => FiredEffect(w, k, p);
    case FlushNow(k, p) => FlushNowEffect(w, k, p);
  }

  lemma ForgottenPush(w: World, e: Move, d: DocId, x: Change)
    requires CanMove(w, e) && !EndsBurst(e) && Unsendable(w, d, x) && d !in w.q.dirty
    ensures x !in Of(ApplyMove(w, e).sent, d)
    ensures forall p | p in ApplyMove(w, e).pushes :: ApplyMove(w, e).pushes[p].doc != d
  {
    match e
    case Merge(_, _) =>
    case SaveSnapshot(_) =>
    case CheckSocket(_) =>
    case SendSnapshot(_) =>
    case FindNoKey(_) =>
    case FindSocketClosed(_) =>
    case FlushNext(p) => NextOfBatchFrame(w, p);
  }

  lemma ForgottenMove(w: World, e: Move, d: DocId, x: Change)
    requires CanMove(w, e) && Forgotten(w, d, x) && Quiet(Moves(e), d)
    ensures Forgotten(ApplyMove(w, e), d, x)
  {
    QuietMoveFlags(w, e, d);
    if EndsBurst(e) {
      ForgottenBurst(w, e, d, x);
    } else {
      PushFrame(w, e);
      ForgottenPush(w, e, d, x);
    }
  }

  /** A forgotten change stays forgotten until the document is edited or flushed again. */
  lemma ForgottenStays(w: World, e: Event, d: DocId, x: Change)
    requires Enabled(w, e) && Forgotten(w, d, x) && Quiet(e, d)
    ensures Forgotten(Apply(w, e), d, x)
  {
    match e
    case Moves(m) => ForgottenMove(w, m, d, x);
    case Replies(r) =>
      QuietStepFlags(w, e, d);
      ReplyFrame(w, r);
    case Notes(n) =>
      QuietStepFlags(w, e, d);
      NoteFrame(w, n);
      UnreadStays(w, n, d);
  }

  /** No poll has read the flag of the document. */
  ghost predicate Unread(w: World, d: DocId) {
    forall found | found in w.polls :: d !in found
  }

  lemma UnreadStays(w: World, e: Note, d: DocId)
    requires CanNote(w, e) && Unread(w, d) && d !in w.flags
    ensures Unread(ApplyNote(w, e), d)
  {
    if e.PollReads? {
    } else if e.PollMarks? {
    } else {
    }
  }
}
