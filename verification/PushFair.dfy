/**
 Under every fair schedule the queue pushes what is dirty. A schedule is an infinite run; it is fair
 if no push, flush or start of a flush that stays possible is put off for ever.
 */
module PushFair {
  import opened Wrappers
  import opened PushQueueSpec
  import opened PushWorld
  import opened PushProgress

  /** What the queue does by itself: go on with a push, go on with a flush, begin a flush. */
  datatype Task = PushTask(push: PushId) | FlushTask | BeginTask

  predicate Can(w: World, task: Task) {
    match task
    case PushTask(p) => p in w.pushes
    case FlushTask => w.q.flushing && w.awaiting == None
    case BeginTask => !w.q.flushing
  }

  predicate Does(e: Event, task: Task) {
    match task
    case PushTask(p) =>
      e.Moves? && (e.move == SaveSnapshot(p) || e.move == CheckSocket(p) || e.move == SendSnapshot(p) || e.move == FindNoKey(p))
    case FlushTask => (e.Moves? && e.move.FlushNext?) || e == Notes(EndFlush)
    case BeginTask => e.Notes? && e.note.BeginFlush?
  }

  /** With an open socket and a ready queue, a task that can go on has an enabled event. */
  lemma TaskIsEnabled(w: World, task: Task) returns (e: Event)
    requires w.open && w.q.ready && Can(w, task)
    ensures Does(e, task) && Enabled(w, e)
  {
    match task
    case PushTask(p) =>
      e := Moves(if w.pushes[p].Waiting? then SaveSnapshot(p)
                 else if w.pushes[p].checked then SendSnapshot(p) else CheckSocket(p));
    case FlushTask =>
      if w.batch == [] {
        e := Notes(EndFlush);
      } else {
        var p := FreshPush(w.pushes.Keys);
        e := Moves(FlushNext(p));
      }
    case BeginTask =>
      var batch := SomeOrder(w.q.dirty);
      e := Notes(BeginFlush(batch));
  }

  // ---- schedules

  ghost predicate StepsAt(run: nat -> World, ev: nat -> Event, i: nat) {
    Enabled(run(i), ev(i)) && run(i + 1) == Apply(run(i), ev(i))
  }

  ghost predicate Schedule(run: nat -> World, ev: nat -> Event) {
    forall i: nat :: StepsAt(run, ev, i)
  }

  /** The socket stays open, the queue ready, and the server asks for no pause. */
  ghost predicate Calm(run: nat -> World, ev: nat -> Event) {
    forall i: nat :: CalmAt(run, ev, i)
  }

  predicate CalmAt(run: nat -> World, ev: nat -> Event, i: nat) {
    run(i).open && run(i).q.ready && !Pauses(ev(i))
  }

  predicate Pauses(e: Event) {
    e.Replies? && e.reply.RateLimit?
  }

  predicate Served(run: nat -> World, ev: nat -> Event, task: Task, j: nat) {
    !Can(run(j), task) || Does(ev(j), task)
  }

  ghost predicate Recurs(run: nat -> World, ev: nat -> Event, task: Task, i: nat) {
    exists j: nat :: i <= j && Served(run, ev, task, j)
  }

  /** Every task is again and again done, or not possible. */
  ghost predicate Fair(run: nat -> World, ev: nat -> Event) {
    forall task, i: nat :: Recurs(run, ev, task, i)
  }

  // ---- how far the queue is from the push of a document

  /** 0: a flush will come to the document. 1: no flush is under way. 2: one is that will not. */
  function Stage(w: World, d: DocId): nat {
    if !w.q.flushing then 1 else if d in w.batch && !w.q.ratePaused then 0 else 2
  }

  function StepsOf(p: Push): nat {
    if p.Waiting? then 3 else if p.checked then 1 else 2
  }

  function Rank(w: World): nat
    requires w.awaiting.Some? ==> w.awaiting.value in w.pushes
  {
    if !w.q.flushing then 0
    else 4 * |w.batch| + if w.awaiting.Some? then StepsOf(w.pushes[w.awaiting.value]) else 0
  }

  /** What brings the queue nearer. */
  function Helpful(w: World): Task {
    if !w.q.flushing then BeginTask else if w.awaiting.Some? then PushTask(w.awaiting.value) else FlushTask
  }

  /** Where the queue stands: the document can be pushed, and nothing hinders the queue. */
  ghost predicate Ready(w: World, d: DocId) {
    Running(w) && w.open && w.q.ready && d in Pushable(w.q)
  }

  /** The step starts a push of the document. */
  ghost predicate Starts(w: World, t: World, d: DocId) {
    exists p :: p !in w.pushes && p in t.pushes && t.pushes[p] == Waiting(d)
  }

  /** The queue is nearer in `t`. */
  ghost predicate Nearer(w: World, t: World, d: DocId)
    requires Running(w) && Running(t)
  {
    Stage(t, d) < Stage(w, d) || (Stage(t, d) == Stage(w, d) && Rank(t) < Rank(w))
  }

  ghost predicate AsNear(w: World, t: World, d: DocId)
    requires Running(w) && Running(t)
  {
    Stage(t, d) == Stage(w, d) && Rank(t) == Rank(w) && Helpful(t) == Helpful(w)
  }

  // ---- each step

  /** The flush loop stands where it stood. */
  ghost predicate SameFlush(w: World, t: World) {
    && t.q.flushing == w.q.flushing && t.batch == w.batch && t.awaiting == w.awaiting
    && (t.q.ratePaused ==> w.q.ratePaused)
    && (w.awaiting.Some? && w.awaiting.value in w.pushes ==>
          w.awaiting.value in t.pushes && t.pushes[w.awaiting.value] == w.pushes[w.awaiting.value])
  }

  lemma SameFlushIsNear(w: World, t: World, d: DocId)
    requires Running(w) && Running(t) && SameFlush(w, t)
    ensures Nearer(w, t, d) || AsNear(w, t, d)
  {
  }

  /** Steps that do not belong to the flush under way. */
  predicate Aside(w: World, e: Event) {
    match e
    case Replies(r) => !r.RateLimit?
    case Notes(n) => !n.BeginFlush? && !n.EndFlush? && !n.CloseSocket?
    case Moves(m) =>
      match m
      case Edit(_, _, _) => true
      case Merge(_, _) => true
      case TimerFires(_, _) => true
      case FlushNow(_, _) => true
      case FlushNext(_) => false
      case _ => w.awaiting != Some(m.push)
  }

  lemma AsideMove(w: World, e: Move)
    requires CanMove(w, e) && Running(w) && w.open && Aside(w, Moves(e))
    ensures SameFlush(w, ApplyMove(w, e))
  {
    if e.Edit? {
      MarkedEffect(Changed(w, e.doc, e.change), e.doc, e.push);
      MarkedFlush(Changed(w, e.doc, e.change), e.doc, e.push);
    } else if e.TimerFires? {
    } else if e.FlushNow? {
    } else {
      AsidePush(w, e);
    }
  }

  lemma MarkedFlush(w: World, d: DocId, p: PushId)
    ensures var t := Marked(w, d, p);
      && t.q.flushing == w.q.flushing && t.q.ratePaused == w.q.ratePaused && t.batch == w.batch && t.awaiting == w.awaiting
  {
  }

  lemma AsidePush(w: World, e: Move)
    requires CanMove(w, e) && Running(w) && w.open && Aside(w, Moves(e)) && !EndsBurst(e)
    ensures SameFlush(w, ApplyMove(w, e))
  {
    match e
    case Merge(_, _) =>
    case SaveSnapshot(p) =>
    case CheckSocket(p) =>
    case SendSnapshot(p) =>
    case FindNoKey(p) =>
  }

  lemma AsideReply(w: World, e: Reply)
    requires !e.RateLimit?
    ensures SameFlush(w, ApplyReply(w, e))
  {
    ReplyFrame(w, e);
    if e.Reject? {
      RejectedKeepsPause(w, e.doc, e.insufficientPermissions, e.discard);
    } else {
      OtherReply(w, e);
    }
  }

  lemma OtherReply(w: World, e: Reply)
    requires !e.RateLimit? && !e.Reject?
    ensures var t := ApplyReply(w, e);
      && t.q.flushing == w.q.flushing && t.q.ratePaused == w.q.ratePaused && t.batch == w.batch && t.awaiting == w.awaiting
  {
    if e.ClearingDone? {
      ForgetKeepsFlush(w.q, e.what);
    } else if e.DropOrphan? {
    } else {
    }
  }

  lemma ForgetKeepsFlush(q: State, c: Clearing)
    ensures Forget(q, c).flushing == q.flushing && Forget(q, c).ratePaused == q.ratePaused
  {
  }

  lemma AsideNote(w: World, e: Note)
    requires !e.BeginFlush? && !e.EndFlush?
    ensures SameFlush(w, ApplyNote(w, e))
  {
    match e
    case WriteFlag(_) =>
    case Advance(_) =>
    case BackoffTimer =>
    case PollReads =>
    case PollMarks(_) =>
    case ServerStores(_) =>
    case VaultsChanged =>
    case UpdateRefs =>
    case SetPending(_) =>
    case CloseSocket =>
    case OpenSocket =>
  }

  lemma AsideIsNear(w: World, e: Event, d: DocId)
    requires Enabled(w, e) && Running(w) && w.open && Aside(w, e)
    ensures Running(Apply(w, e)) && (Nearer(w, Apply(w, e), d) || AsNear(w, Apply(w, e), d))
    ensures !Does(e, Helpful(w))
  {
    StepKeepsRunning(w, e);
    AsideSameFlush(w, e);
    SameFlushIsNear(w, Apply(w, e), d);
  }

  lemma AsideSameFlush(w: World, e: Event)
    requires Enabled(w, e) && Running(w) && w.open && Aside(w, e)
    ensures SameFlush(w, Apply(w, e))
  {
    if e.Moves? {
      AsideMove(w, e.move);
    } else if e.Replies? {
      AsideReply(w, e.reply);
    } else {
      AsideNote(w, e.note);
    }
  }

  /** A step of the push that the flush waits for. */
  lemma AwaitedIsNearer(w: World, e: Move, d: DocId)
    requires CanMove(w, e) && Running(w) && w.open && w.awaiting.Some? && Does(Moves(e), PushTask(w.awaiting.value))
    ensures Running(ApplyMove(w, e)) && Nearer(w, ApplyMove(w, e), d)
  {
    StepKeepsRunning(w, Moves(e));
  }

  lemma NextIsNearer(w: World, p: PushId, d: DocId)
    requires CanMove(w, FlushNext(p)) && Ready(w, d)
    ensures Running(NextOfBatch(w, p)) && (Starts(w, NextOfBatch(w, p), d) || Nearer(w, NextOfBatch(w, p), d))
  {
    StepKeepsRunning(w, Moves(FlushNext(p)));
    var t := NextOfBatch(w, p);
    if w.batch[0] == d && !w.q.ratePaused {
      assert t.pushes[p] == Waiting(d);
    } else if Stage(w, d) == 0 {
      assert d in w.batch[1..];
    }
  }

  lemma BeginIsNearer(w: World, batch: seq<DocId>, d: DocId)
    requires CanNote(w, BeginFlush(batch)) && Ready(w, d)
    ensures Running(ApplyNote(w, BeginFlush(batch))) && Nearer(w, ApplyNote(w, BeginFlush(batch)), d)
  {
    StepKeepsRunning(w, Notes(BeginFlush(batch)));
    assert d in set x | x in batch;
  }

  lemma EndIsNearer(w: World, d: DocId)
    requires CanNote(w, EndFlush) && Running(w)
    ensures Running(ApplyNote(w, EndFlush)) && Nearer(w, ApplyNote(w, EndFlush), d)
  {
    StepKeepsRunning(w, Notes(EndFlush));
  }

  lemma FlushMoveIsNearer(w: World, e: Move, d: DocId)
    requires CanMove(w, e) && Ready(w, d) && !Aside(w, Moves(e)) && ApplyMove(w, e).open
    ensures Running(ApplyMove(w, e)) && (Starts(w, ApplyMove(w, e), d) || Nearer(w, ApplyMove(w, e), d))
  {
    if e.FlushNext? {
      NextIsNearer(w, e.push, d);
    } else {
      AwaitedIsNearer(w, e, d);
    }
  }

  lemma FlushNoteIsNearer(w: World, e: Note, d: DocId)
    requires CanNote(w, e) && Ready(w, d) && !Aside(w, Notes(e)) && ApplyNote(w, e).open
    ensures Running(ApplyNote(w, e)) && Nearer(w, ApplyNote(w, e), d)
  {
    if e.BeginFlush? {
      BeginIsNearer(w, e.batch, d);
    } else {
      EndIsNearer(w, d);
    }
  }

  /** No step takes the queue further away, and the helpful task brings it nearer. */
  lemma StepIsNear(w: World, e: Event, d: DocId)
    requires Enabled(w, e) && Ready(w, d) && !Pauses(e) && Apply(w, e).open
    ensures Running(Apply(w, e))
    ensures Starts(w, Apply(w, e), d) || Nearer(w, Apply(w, e), d) || (AsNear(w, Apply(w, e), d) && !Does(e, Helpful(w)))
  {
    if Aside(w, e) {
      AsideIsNear(w, e, d);
    } else if e.Moves? {
      FlushMoveIsNearer(w, e.move, d);
    } else {
      FlushNoteIsNearer(w, e.note, d);
    }
  }

  // ---- over the schedule

  /** At step `j` a push of the document starts, or it can no longer be pushed. */
  ghost predicate Done(run: nat -> World, d: DocId, j: nat) {
    Starts(run(j), run(j + 1), d) || d !in Pushable(run(j).q)
  }

  ghost predicate Watched(run: nat -> World, ev: nat -> Event, i: nat, d: DocId) {
    Schedule(run, ev) && Calm(run, ev) && Running(run(i))
  }

  lemma NextWorld(run: nat -> World, ev: nat -> Event, i: nat, d: DocId)
    requires Watched(run, ev, i, d) && !Done(run, d, i)
    ensures Watched(run, ev, i + 1, d)
    ensures Nearer(run(i), run(i + 1), d) || (AsNear(run(i), run(i + 1), d) && !Does(ev(i), Helpful(run(i))))
  {
    assert StepsAt(run, ev, i) && CalmAt(run, ev, i) && CalmAt(run, ev, i + 1);
    StepIsNear(run(i), ev(i), d);
  }

  /** Between two steps the document is done, or the queue gets nearer, or it waits for the same task. */
  lemma {:induction false} Waits(run: nat -> World, ev: nat -> Event, i: nat, k: nat, d: DocId) returns (j: nat)
    requires Watched(run, ev, i, d) && i <= k
    ensures i <= j <= k && Watched(run, ev, j, d)
    ensures (j < k && Done(run, d, j)) || (i < j && Nearer(run(i), run(j), d)) || (j == k && AsNear(run(i), run(j), d))
    decreases k - i
  {
    j := i;
    if i < k && !Done(run, d, i) {
      NextWorld(run, ev, i, d);
      if Nearer(run(i), run(i + 1), d) {
        j := i + 1;
      } else {
        j := Waits(run, ev, i + 1, k, d);
        assert Helpful(run(i + 1)) == Helpful(run(i));
      }
    }
  }

  lemma {:induction false} EventuallyFrom(run: nat -> World, ev: nat -> Event, i: nat, d: DocId) returns (j: nat)
    requires Watched(run, ev, i, d) && Fair(run, ev)
    ensures i <= j && Done(run, d, j)
    decreases Stage(run(i), d), Rank(run(i))
  {
    var task := Helpful(run(i));
    assert Recurs(run, ev, task, i);
    var k: nat :| i <= k && Served(run, ev, task, k);
    j := Waits(run, ev, i, k, d);
    if !Done(run, d, j) {
      if !Nearer(run(i), run(j), d) {
        assert Can(run(j), task);
        NextWorld(run, ev, j, d);
        j := j + 1;
      }
      j := EventuallyFrom(run, ev, j, d);
    }
  }

  /**
   No stall under any fair schedule. From every state the client can reach, while the socket stays
   open, the queue ready and the server asks for no pause, a dirty document that is not skipped is
   pushed sooner or later, unless an answer of the server takes it off the queue first.
   */
  lemma EventuallyPushed(w: World, before: seq<Event>, run: nat -> World, ev: nat -> Event, d: DocId) returns (j: nat)
    requires Init(w) && IsRun(w, before) && run(0) == After(w, before)
    requires Schedule(run, ev) && Calm(run, ev) && Fair(run, ev)
    ensures Starts(run(j), run(j + 1), d) || d !in Pushable(run(j).q)
  {
    InitIsRunning(w, 0);
    RunKeepsRunning(w, before);
    j := EventuallyFrom(run, ev, 0, d);
  }

  /** The polls never cease to read the flags, and what they have read is marked in the end. */
  ghost predicate KeepsPolling(run: nat -> World, ev: nat -> Event) {
    && (forall i: nat :: ReadsLater(ev, i))
    && forall found, i: nat :: MarksLater(run, ev, found, i)
  }

  ghost predicate ReadsLater(ev: nat -> Event, i: nat) {
    exists j: nat :: i <= j && ev(j) == Notes(PollReads)
  }

  ghost predicate MarksLater(run: nat -> World, ev: nat -> Event, found: set<DocId>, i: nat) {
    exists j: nat :: i <= j && MarkedAt(run, ev, found, j)
  }

  ghost predicate MarkedAt(run: nat -> World, ev: nat -> Event, found: set<DocId>, j: nat) {
    found !in run(j).polls || Marks(ev(j), found)
  }

  predicate Marks(e: Event, found: set<DocId>) {
    e.Notes? && e.note.PollMarks? && e.note.found == found
  }

  lemma PollsStay(w: World, e: Event, found: set<DocId>)
    requires Enabled(w, e) && found in w.polls && !Marks(e, found)
    ensures found in Apply(w, e).polls
  {
    match e
    case Moves(m) => MoveFrame(w, m);
    case Replies(r) => ReplyFrame(w, r);
    case Notes(n) => PollsStayAfter(w, n, found);
  }

  lemma PollsStayAfter(w: World, e: Note, found: set<DocId>)
    requires CanNote(w, e) && found in w.polls && !Marks(Notes(e), found)
    ensures found in ApplyNote(w, e).polls
  {
    if e.PollMarks? {
      assert (w.polls - multiset{e.found})[found] == w.polls[found];
    } else if e.PollReads? {
    } else {
    }
  }

  /** What a poll has read is marked at some step. */
  lemma {:induction false} MarksComes(run: nat -> World, ev: nat -> Event, found: set<DocId>, i: nat, k: nat) returns (j: nat)
    requires Schedule(run, ev) && found in run(i).polls && i <= k && MarkedAt(run, ev, found, k)
    ensures i <= j && Marks(ev(j), found)
    decreases k - i
  {
    if Marks(ev(i), found) {
      j := i;
    } else {
      PollStaysAt(run, ev, found, i);
      j := MarksComes(run, ev, found, i + 1, k);
    }
  }

  lemma PollStaysAt(run: nat -> World, ev: nat -> Event, found: set<DocId>, i: nat)
    requires Schedule(run, ev) && found in run(i).polls && !Marks(ev(i), found)
    ensures found in run(i + 1).polls
  {
    assert StepsAt(run, ev, i);
    PollsStay(run(i), ev(i), found);
  }

  predicate Unblocked(w: World, d: DocId) {
    d in w.flags && !(d.vault != "" && d.vault in w.q.failedVaults)
  }

  /** A document that stays flagged, in a vault that is not blocked, is dirty at some moment. */
  lemma FlaggedBecomesDirty(run: nat -> World, ev: nat -> Event, d: DocId) returns (j: nat)
    requires Schedule(run, ev) && KeepsPolling(run, ev)
    requires forall i: nat :: Unblocked(run(i), d)
    ensures d in run(j).q.dirty
  {
    assert ReadsLater(ev, 0);
    var i: nat :| ev(i) == Notes(PollReads);
    var found := run(i).flags;
    assert Unblocked(run(i), d) && d in found;
    FlagsAreRead(run, ev, i);
    assert MarksLater(run, ev, found, i + 1);
    var k: nat :| i + 1 <= k && MarkedAt(run, ev, found, k);
    j := MarksComes(run, ev, found, i + 1, k);
    assert Unblocked(run(j), d);
    FoundIsDirty(run, ev, j, found, d);
    j := j + 1;
  }

  lemma FlagsAreRead(run: nat -> World, ev: nat -> Event, i: nat)
    requires Schedule(run, ev) && ev(i) == Notes(PollReads)
    ensures run(i).flags in run(i + 1).polls
  {
    assert StepsAt(run, ev, i);
  }

  lemma FoundIsDirty(run: nat -> World, ev: nat -> Event, j: nat, found: set<DocId>, d: DocId)
    requires Schedule(run, ev) && Marks(ev(j), found) && d in found && Unblocked(run(j), d)
    ensures d in run(j + 1).q.dirty
  {
    assert StepsAt(run, ev, j);
    MarkingMarks(run(j), found, d);
  }

  lemma MarkingMarks(w: World, found: set<DocId>, d: DocId)
    requires d in found && Unblocked(w, d)
    ensures d in ApplyNote(w, PollMarks(found)).q.dirty
  {
  }
}
