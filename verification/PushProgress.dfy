/** The push queue never stalls, and its back-off stays within bounds, over every run. */
module PushProgress {
  import opened Wrappers
  import opened PushQueueSpec
  import opened PushWorld

  /** A flush waits for a push that is under way, and a paused queue has its timer armed. */
  ghost predicate Running(w: World) {
    && (w.awaiting.Some? ==> w.q.flushing && w.awaiting.value in w.pushes)
    && (w.batch != [] ==> w.q.flushing)
    && (w.q.ratePaused ==> w.q.backoffArmed)
  }

  lemma MoveKeepsRunning(w: World, e: Move)
    requires CanMove(w, e) && Running(w)
    ensures Running(ApplyMove(w, e))
  {
    match e
    case Edit(d, x, p) => MarkedEffect(Changed(w, d, x), d, p);
    case FlushNext(p) => NextOfBatchFrame(w, p);
    case _ =>
  }

  lemma RejectedKeepsPause(w: World, d: DocId, insufficient: bool, discard: bool)
    ensures var t := OnReject(w, d, insufficient, discard);
      && t.q.flushing == w.q.flushing && t.q.ratePaused == w.q.ratePaused && t.q.backoffArmed == w.q.backoffArmed
      && t.q.backoffMs == w.q.backoffMs && t.batch == w.batch && t.awaiting == w.awaiting && t.pushes == w.pushes
  {
  }

  lemma ReplyKeepsRunning(w: World, e: Reply)
    requires Running(w)
    ensures Running(ApplyReply(w, e))
  {
    match e
    case Reject(d, insufficient, discard) => RejectedKeepsPause(w, d, insufficient, discard);
    case AckClears(_) =>
    case CaughtUp(_) =>
    case CaughtUpClears(_) =>
    case ClearingDone(_) =>
    case RateLimit(_) =>
    case DropOrphan(_) =>
  }

  lemma NoteKeepsRunning(w: World, e: Note)
    requires CanNote(w, e) && Running(w)
    ensures Running(ApplyNote(w, e))
  {
    match e
    case WriteFlag(_) =>
    case Advance(_) =>
    case BackoffTimer =>
    case BeginFlush(_) =>
    case EndFlush =>
    case PollReads =>
    case PollMarks(_) =>
    case ServerStores(_) =>
    case VaultsChanged =>
    case UpdateRefs =>
    case SetPending(_) =>
    case CloseSocket =>
    case OpenSocket =>
  }

  lemma StepKeepsRunning(w: World, e: Event)
    requires Enabled(w, e) && Running(w)
    ensures Running(Apply(w, e))
  {
    match e
    case Moves(m) => MoveKeepsRunning(w, m);
    case Replies(r) => ReplyKeepsRunning(w, r);
    case Notes(n) => NoteKeepsRunning(w, n);
  }

  lemma {:induction false} RunKeepsRunning(w: World, events: seq<Event>)
    requires Running(w) && IsRun(w, events)
    ensures Running(After(w, events))
    decreases |events|
  {
    if events != [] {
      StepKeepsRunning(w, events[0]);
      RunKeepsRunning(Apply(w, events[0]), events[1..]);
    }
  }

  // ---- the queue can always go on by itself

  /** Steps the queue takes without an edit, an answer of the server, or a change of the socket. */
  predicate OwnStep(e: Event) {
    match e
    case Moves(m) => m.SaveSnapshot? || m.CheckSocket? || m.SendSnapshot? || m.FlushNext?
    case Notes(n) => n.BackoffTimer? || n.BeginFlush? || n.EndFlush? || n.PollReads? || n.PollMarks?
    case Replies(_) => false
  }

  /** The events can happen one after another from `w`, are the queue's own, and lead to `t`. */
  ghost predicate Own(w: World, events: seq<Event>, t: World) {
    IsRun(w, events) && After(w, events) == t && forall e | e in events :: OwnStep(e)
  }

  lemma OwnStart(w: World)
    ensures Own(w, [], w)
  {
  }

  lemma OwnThen(w: World, events: seq<Event>, u: World, e: Event)
    requires Own(w, events, u) && Enabled(u, e) && OwnStep(e)
    ensures Own(w, events + [e], Apply(u, e))
  {
    RunSnoc(w, events, e);
  }

  lemma {:induction false} FreshPush(pushes: set<PushId>) returns (p: PushId)
    ensures p !in pushes && forall x | x in pushes :: x < p
    decreases |pushes|
  {
    if pushes == {} {
      p := 0;
    } else {
      var x :| x in pushes;
      var y := FreshPush(pushes - {x});
      p := Max(x + 1, y);
      forall z | z in pushes ensures z < p {
        assert z == x || z in pushes - {x};
      }
    }
  }

  /** What finishing a flush leaves alone. */
  ghost predicate SameWork(w: World, t: World) {
    && t.open == w.open && t.q.ready == w.q.ready && t.q.dirty == w.q.dirty && t.flags == w.flags
    && t.q.deferredNoKey == w.q.deferredNoKey && t.q.pendingVaults == w.q.pendingVaults && t.q.failedVaults == w.q.failedVaults
  }

  /** The flush still waits for push `p`, and nothing else of its work has changed. */
  ghost predicate StillAwaits(u: World, t: World, p: PushId) {
    && Running(t) && t.open && SameWork(u, t) && t.awaiting == u.awaiting == Some(p)
    && t.batch == u.batch && t.q.flushing == u.q.flushing && p in t.pushes
  }

  lemma AwaitedPushMoves(w: World, events: seq<Event>, u: World, e: Move, p: PushId) returns (longer: seq<Event>, t: World)
    requires Own(w, events, u) && Running(u) && u.open && u.awaiting == Some(p)
    requires CanMove(u, e) && (e == SaveSnapshot(p) || e == CheckSocket(p))
    ensures Own(w, longer, t) && StillAwaits(u, t, p) && t.pushes == ApplyMove(u, e).pushes
  {
    OwnThen(w, events, u, Moves(e));
    StepKeepsRunning(u, Moves(e));
    longer, t := events + [Moves(e)], ApplyMove(u, e);
  }

  lemma AwaitedPushSaves(w: World, events: seq<Event>, u: World) returns (longer: seq<Event>, t: World)
    requires Own(w, events, u) && Running(u) && u.open && u.awaiting.Some?
    ensures Own(w, longer, t) && StillAwaits(u, t, u.awaiting.value) && t.pushes[u.awaiting.value].Saved?
  {
    var p := u.awaiting.value;
    longer, t := events, u;
    if u.pushes[p].Waiting? {
      longer, t := AwaitedPushMoves(w, events, u, SaveSnapshot(p), p);
    }
  }

  lemma AwaitedPushChecks(w: World, events: seq<Event>, u: World) returns (longer: seq<Event>, t: World)
    requires Own(w, events, u) && Running(u) && u.open && u.awaiting.Some?
    ensures Own(w, longer, t) && StillAwaits(u, t, u.awaiting.value)
    ensures t.pushes[u.awaiting.value].Saved? && t.pushes[u.awaiting.value].checked
  {
    var p := u.awaiting.value;
    longer, t := AwaitedPushSaves(w, events, u);
    if !t.pushes[p].checked {
      longer, t := AwaitedPushMoves(w, longer, t, CheckSocket(p), p);
    }
  }

  /** The push a flush waits for can save its snapshot and send it. */
  lemma AwaitedPushEnds(w: World, events: seq<Event>, u: World) returns (longer: seq<Event>, t: World)
    requires Own(w, events, u) && Running(u) && u.open && u.awaiting.Some?
    ensures Own(w, longer, t) && Running(t) && SameWork(u, t)
    ensures t.awaiting == None && t.batch == u.batch && t.q.flushing == u.q.flushing
  {
    var p := u.awaiting.value;
    longer, t := AwaitedPushChecks(w, events, u);
    OwnThen(w, longer, t, Moves(SendSnapshot(p)));
    StepKeepsRunning(t, Moves(SendSnapshot(p)));
    longer, t := longer + [Moves(SendSnapshot(p))], OnSend(t, p);
  }

  lemma BatchGoesOn(w: World, events: seq<Event>, u: World) returns (longer: seq<Event>, t: World)
    requires Own(w, events, u) && Running(u) && u.batch != [] && u.awaiting == None
    ensures Own(w, longer, t) && Running(t) && SameWork(u, t)
    ensures |t.batch| < |u.batch| && t.q.flushing == u.q.flushing
  {
    var p := FreshPush(u.pushes.Keys);
    OwnThen(w, events, u, Moves(FlushNext(p)));
    StepKeepsRunning(u, Moves(FlushNext(p)));
    longer, t := events + [Moves(FlushNext(p))], NextOfBatch(u, p);
    NextOfBatchFrame(u, p);
  }

  /** A flush under way can always come to its end. */
  lemma {:induction false} FlushCanEnd(w: World, events: seq<Event>, u: World) returns (longer: seq<Event>, t: World)
    requires Own(w, events, u) && Running(u) && u.open
    ensures Own(w, longer, t) && Running(t) && SameWork(u, t) && !t.q.flushing
    decreases |u.batch|, u.awaiting.Some?
  {
    if !u.q.flushing {
      longer, t := events, u;
    } else if u.awaiting.Some? {
      longer, t := AwaitedPushEnds(w, events, u);
      longer, t := FlushCanEnd(w, longer, t);
    } else if u.batch != [] {
      longer, t := BatchGoesOn(w, events, u);
      longer, t := FlushCanEnd(w, longer, t);
    } else {
      OwnThen(w, events, u, Notes(EndFlush));
      StepKeepsRunning(u, Notes(EndFlush));
      longer, t := events + [Notes(EndFlush)], ApplyNote(u, EndFlush);
    }
  }

  /** Without a flush, a poll can start one; the back-off timer fires first if it is armed. */
  lemma PollCanStart(w: World, events: seq<Event>, u: World, d: DocId) returns (longer: seq<Event>, t: World)
    requires Own(w, events, u) && u.open && u.q.ready && !u.q.flushing && Wanted(u, d)
    ensures Own(w, longer, t) && t.open && t.q.ready && !t.q.flushing && t.pushes == u.pushes && d in Pushable(t.q)
    ensures !t.q.backoffArmed && t.awaiting == u.awaiting
  {
    longer, t := events, u;
    if t.q.backoffArmed {
      OwnThen(w, longer, t, Notes(BackoffTimer));
      longer, t := longer + [Notes(BackoffTimer)], ApplyNote(t, BackoffTimer);
    }
    longer, t := PollCanMark(w, longer, t, d);
  }

  /** A poll reads the flags and marks what it has found. */
  lemma PollCanMark(w: World, events: seq<Event>, u: World, d: DocId) returns (longer: seq<Event>, t: World)
    requires Own(w, events, u) && u.open && !u.q.flushing && Wanted(u, d)
    ensures Own(w, longer, t) && d in Pushable(t.q) && t == u.(q := t.q, polls := t.polls)
    ensures t.q == u.q.(dirty := t.q.dirty)
  {
    OwnThen(w, events, u, Notes(PollReads));
    t := ApplyNote(u, PollReads);
    OwnThen(w, events + [Notes(PollReads)], t, Notes(PollMarks(u.flags)));
    longer, t := events + [Notes(PollReads)] + [Notes(PollMarks(u.flags))], ApplyNote(t, PollMarks(u.flags));
  }

  /** The document is dirty or flagged, and nothing makes a flush skip it. */
  predicate Wanted(w: World, d: DocId) {
    (d in w.q.dirty || d in w.flags) && !Skipped(w.q, d)
  }

  /** Some order of the documents. */
  lemma {:induction false} SomeOrder(s: set<DocId>) returns (list: seq<DocId>)
    ensures (set x | x in list) == s
    decreases |s|
  {
    list := [];
    if s != {} {
      var x :| x in s;
      var rest := SomeOrder(s - {x});
      list := [x] + rest;
      assert forall y :: y in list <==> y == x || y in s - {x};
    }
  }

  lemma ListOf(s: set<DocId>, d: DocId) returns (list: seq<DocId>)
    requires d in s
    ensures list != [] && list[0] == d && (set x | x in list) == s
  {
    var rest := SomeOrder(s);
    list := [d] + rest;
    assert forall y :: y in list <==> y == d || y in rest;
    assert forall y :: y in rest <==> y in set x | x in rest;
  }

  lemma FlushPushesFirst(w: World, events: seq<Event>, u: World, d: DocId) returns (longer: seq<Event>, t: World, p: PushId)
    requires Own(w, events, u) && u.open && u.q.ready && !u.q.flushing && d in Pushable(u.q)
    requires u.awaiting == None
    ensures Own(w, longer, t) && p in t.pushes && t.pushes[p] == Waiting(d)
  {
    var batch := ListOf(u.q.dirty, d);
    OwnThen(w, events, u, Notes(BeginFlush(batch)));
    longer, t := events + [Notes(BeginFlush(batch))], ApplyNote(u, BeginFlush(batch));
    p := FreshPush(t.pushes.Keys);
    OwnThen(w, longer, t, Moves(FlushNext(p)));
    longer, t := longer + [Moves(FlushNext(p))], NextOfBatch(t, p);
  }

  /**
   No stall. From every state the client can reach with an open socket and a ready queue, a
   document that is dirty or flagged, and not skipped, is pushed by steps of the queue alone,
   whatever flush, push or back-off is under way.
   */
  lemma NoStall(w: World, before: seq<Event>, d: DocId) returns (events: seq<Event>, t: World, p: PushId)
    requires Init(w) && IsRun(w, before)
    requires var u := After(w, before); u.open && u.q.ready && Wanted(u, d)
    ensures Own(After(w, before), events, t) && p in t.pushes && t.pushes[p] == Waiting(d)
  {
    InitIsRunning(w, 0);
    RunKeepsRunning(w, before);
    events, t, p := NoStallFrom(After(w, before), d);
  }

  lemma NoStallFrom(u: World, d: DocId) returns (events: seq<Event>, t: World, p: PushId)
    requires Running(u) && u.open && u.q.ready && Wanted(u, d)
    ensures Own(u, events, t) && p in t.pushes && t.pushes[p] == Waiting(d)
  {
    OwnStart(u);
    events, t := FlushCanEnd(u, [], u);
    WantedStays(u, t, d);
    events, t := PollCanStart(u, events, t, d);
    events, t, p := FlushPushesFirst(u, events, t, d);
  }

  lemma WantedStays(u: World, t: World, d: DocId)
    requires Wanted(u, d) && SameWork(u, t)
    ensures Wanted(t, d)
  {
  }

  // ---- the back-off

  ghost predicate BackoffWithin(w: World, r: nat) {
    BACKOFF_INITIAL <= w.q.backoffMs <= Max(BACKOFF_MAX, r)
  }

  /** The delays the server asks for are at most `r`. */
  predicate AsksAtMost(e: Event, r: nat) {
    e.Replies? && e.reply.RateLimit? ==> e.reply.retryAfterMs <= r
  }

  lemma MoveKeepsBackoff(w: World, e: Move)
    requires CanMove(w, e)
    ensures ApplyMove(w, e).q.backoffMs == w.q.backoffMs
  {
    match e
    case Edit(d, x, p) =>
    case FlushNext(p) => NextOfBatchFrame(w, p);
    case _ =>
  }

  lemma ReplyKeepsBackoff(w: World, e: Reply, r: nat)
    requires BackoffWithin(w, r) && AsksAtMost(Replies(e), r)
    ensures BackoffWithin(ApplyReply(w, e), r)
  {
    match e
    case Reject(d, insufficient, discard) => RejectedKeepsPause(w, d, insufficient, discard);
    case AckClears(_) =>
    case CaughtUp(_) =>
    case CaughtUpClears(_) =>
    case ClearingDone(_) =>
    case RateLimit(_) =>
    case DropOrphan(_) =>
  }

  lemma NoteKeepsBackoff(w: World, e: Note, r: nat)
    requires BackoffWithin(w, r)
    ensures BackoffWithin(ApplyNote(w, e), r)
  {
    match e
    case WriteFlag(_) =>
    case Advance(_) =>
    case BackoffTimer =>
    case BeginFlush(_) =>
    case EndFlush =>
    case PollReads =>
    case PollMarks(_) =>
    case ServerStores(_) =>
    case VaultsChanged =>
    case UpdateRefs =>
    case SetPending(_) =>
    case CloseSocket =>
    case OpenSocket =>
  }

  lemma StepKeepsBackoff(w: World, e: Event, r: nat)
    requires Enabled(w, e) && BackoffWithin(w, r) && AsksAtMost(e, r)
    ensures BackoffWithin(Apply(w, e), r)
  {
    match e
    case Moves(m) => MoveKeepsBackoff(w, m);
    case Replies(reply) => ReplyKeepsBackoff(w, reply, r);
    case Notes(n) => NoteKeepsBackoff(w, n, r);
  }

  lemma {:induction false} RunKeepsBackoff(w: World, events: seq<Event>, r: nat)
    requires BackoffWithin(w, r) && IsRun(w, events) && forall e | e in events :: AsksAtMost(e, r)
    ensures BackoffWithin(After(w, events), r)
    decreases |events|
  {
    if events != [] {
      StepKeepsBackoff(w, events[0], r);
      RunKeepsBackoff(Apply(w, events[0]), events[1..], r);
    }
  }

  /**
   The back-off is never below its first value, and never above its cap or the longest delay the
   server has asked for; and a queue paused by the server always has the timer that resumes it.
   */
  lemma BackoffIsBounded(w: World, events: seq<Event>, r: nat)
    requires Init(w) && IsRun(w, events) && forall e | e in events :: AsksAtMost(e, r)
    ensures BackoffWithin(After(w, events), r)
    ensures After(w, events).q.ratePaused ==> After(w, events).q.backoffArmed
  {
    InitIsRunning(w, r);
    RunKeepsBackoff(w, events, r);
    RunKeepsRunning(w, events);
  }

  lemma InitIsRunning(w: World, r: nat)
    requires Init(w)
    ensures Running(w) && BackoffWithin(w, r)
  {
  }
}
