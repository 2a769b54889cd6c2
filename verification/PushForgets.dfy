/** Two runs, from the start of the client, after which an edit is never pushed. */
module PushForgets {
  import opened Wrappers
  import opened PushQueueSpec
  import opened PushWorld
  import opened PushLedger
  import opened PushFlags

  const R := DocId("", "r")

  /** What the runs change of the world. Everything is about document `R`, and push 0. */
  datatype Scene = Scene(open: bool, clock: nat, dirty: bool, first: Option<nat>,
                         doc: Option<set<Change>>, local: Option<seq<Change>>,
                         sent: Option<set<Change>>, covered: Option<nat>, frames: set<Frame>, heads: Option<set<Change>>,
                         flagged: bool, writing: bool, push: Option<Push>,
                         clearing: multiset<Clearing>, checking: multiset<DocId>, fired: seq<Fire>)

  function Only<T>(value: Option<T>): map<DocId, T> {
    if value.Some? then map[R := value.value] else map[]
  }

  function Queue(dirty: bool, first: Option<nat>): State {
    Fresh(if dirty then {R} else {})
      .(timers := if first.Some? then map[R := first.value + DEBOUNCE_MS] else map[], firstChange := Only(first))
  }

  function Show(s: Scene): World {
    World(Queue(s.dirty, s.first), s.open, s.clock, Only(s.doc), Only(s.local), Only(s.sent), Only(s.covered),
          s.frames, {}, if s.flagged then {R} else {}, if s.writing then multiset{R} else multiset{}, Only(s.heads),
          if s.push.Some? then map[0 := s.push.value] else map[], s.clearing, multiset{}, s.checking, [], None,
          if s.first.Some? then map[R := [s.first.value]] else map[], s.fired)
  }

  function Start(): Scene {
    Scene(true, 0, false, None, None, None, None, None, {}, None, false, false, None, multiset{}, multiset{}, [])
  }

  /** `e` leads from one world to the other. */
  predicate Leads(w: World, e: Event, t: World) {
    Enabled(w, e) && Apply(w, e) == t
  }

  lemma Edits(s: Scene, x: Change, p: PushId)
    requires s.first.None? && s.push.None? && !s.writing && x !in s.doc.GetOr({})
    ensures Leads(Show(s), Moves(Edit(R, x, p)),
                  Show(s.(dirty := true, first := Some(s.clock), doc := Some(s.doc.GetOr({}) + {x}),
                          local := Some(s.local.GetOr([]) + [x]), writing := true)))
  {
    OnlyUpdate(s.doc, s.doc.GetOr({}) + {x});
    OnlyUpdate(s.local, s.local.GetOr([]) + [x]);
    MarksQueue(s.dirty, s.clock);
    var none: seq<nat> := [];
    assert none + [s.clock] == [s.clock];
    assert Changed(Show(s), R, x).unwritten == multiset{R};
  }

  lemma MarksQueue(dirty: bool, now: nat)
    ensures MarkDirty(Queue(dirty, None), R, now) == Queue(true, Some(now)) && !FiresNow(Queue(dirty, None), R, now)
  {
    assert (if dirty then {R} else {}) + {R} == {R};
  }

  lemma OnlyUpdate<T>(value: Option<T>, x: T)
    ensures Only(value)[R := x] == Only(Some(x)) == map[R := x]
  {
  }

  lemma Writes(s: Scene)
    requires s.writing
    ensures Leads(Show(s), Notes(WriteFlag(R)), Show(s.(flagged := true, writing := false)))
  {
  }

  lemma Waits(s: Scene)
    requires s.first == Some(s.clock)
    ensures Leads(Show(s), Notes(Advance(s.clock + DEBOUNCE_MS)), Show(s.(clock := s.clock + DEBOUNCE_MS)))
  {
  }

  lemma Fires(s: Scene, p: PushId)
    requires s.first.Some? && s.clock == s.first.value + DEBOUNCE_MS && s.push.None? && (s.open ==> p == 0)
    ensures Leads(Show(s), Moves(TimerFires(R, p)),
                  Show(s.(first := None, push := if s.open then Some(Waiting(R)) else None,
                          fired := s.fired + [Fire(R, [s.first.value], s.clock)])))
  {
  }

  lemma Saves(s: Scene, snap: set<Change>, list: seq<Change>)
    requires s.push == Some(Waiting(R)) && s.doc == Some(snap) && s.local == Some(list)
    ensures Leads(Show(s), Moves(SaveSnapshot(0)), Show(s.(push := Some(Saved(R, snap, |list|, false)))))
  {
    var w := Show(s);
    assert w.pushes == map[0 := Waiting(R)];
    assert OnSave(w, 0) == w.(pushes := map[0 := Saved(R, snap, |list|, false)]);
  }

  lemma Checks(s: Scene, snap: set<Change>, edits: nat)
    requires s.push == Some(Saved(R, snap, edits, false)) && s.open
    ensures Leads(Show(s), Moves(CheckSocket(0)), Show(s.(push := Some(Saved(R, snap, edits, true)))))
  {
    assert Show(s).pushes[0 := Saved(R, snap, edits, true)] == map[0 := Saved(R, snap, edits, true)];
  }

  lemma Sends(s: Scene, snap: set<Change>, edits: nat)
    requires s.push == Some(Saved(R, snap, edits, true)) && s.open && s.sent.None? && s.covered.None? && s.frames == {}
    ensures Leads(Show(s), Moves(SendSnapshot(0)),
                  Show(s.(push := None, sent := Some(snap), covered := Some(edits), frames := {Frame(R, snap, edits)}, heads := Some(snap))))
  {
    var none: map<DocId, set<Change>> := map[];
    assert {} + snap == snap;
    assert Add(none, R, snap) == map[R := snap];
    OnlyUpdate(s.covered, edits);
    OnlyUpdate(s.heads, snap);
    assert {} + {Frame(R, snap, edits)} == {Frame(R, snap, edits)};
  }

  /** The socket has closed during the encryption: the message is discarded, the heads are stored. */
  lemma Discards(s: Scene, snap: set<Change>, edits: nat)
    requires s.push == Some(Saved(R, snap, edits, true)) && !s.open
    ensures Leads(Show(s), Moves(SendSnapshot(0)), Show(s.(push := None, heads := Some(snap))))
  {
    OnlyUpdate(s.heads, snap);
    assert Show(s).pushes - {0} == map[];
  }

  lemma Acks(s: Scene)
    requires s.clearing == multiset{}
    ensures Leads(Show(s), Replies(AckClears(R)), Show(s.(flagged := false, heads := None, clearing := multiset{ByAck(R)})))
  {
    Unflags(s, ByAck(R));
  }

  lemma Unflags(s: Scene, c: Clearing)
    requires s.clearing == multiset{}
    ensures Unflag(Show(s), R, c) == Show(s.(flagged := false, heads := None, clearing := multiset{c}))
  {
    assert Only(s.heads) - {R} == map[];
    assert multiset{} + multiset{c} == multiset{c};
  }

  lemma Forgets(s: Scene, c: Clearing)
    requires s.clearing == multiset{c} && c.doc == R && s.dirty
    ensures Leads(Show(s), Replies(ClearingDone(c)), Show(s.(dirty := false, clearing := multiset{})))
  {
    var w := Show(s);
    assert w.clearing - multiset{c} == multiset{};
    assert {R} - {R} == {};
    assert Forget(w.q, c) == Queue(false, s.first);
    assert Show(s.(dirty := false, clearing := multiset{})) == w.(clearing := multiset{}, q := Queue(false, s.first));
  }

  /** A caught_up finds the document dirty and starts to read its push heads. */
  lemma CatchesUp(s: Scene)
    requires s.dirty && s.checking == multiset{}
    ensures Leads(Show(s), Replies(CaughtUp(R)), Show(s.(checking := multiset{R})))
  {
    assert multiset{} + multiset{R} == multiset{R};
  }

  /** The push heads are those of the document. */
  lemma HeadsMatch(s: Scene)
    requires s.checking == multiset{R} && s.doc.Some? && s.heads == s.doc && s.clearing == multiset{}
    ensures Leads(Show(s), Replies(CaughtUpClears(R)),
                  Show(s.(checking := multiset{}, flagged := false, heads := None, clearing := multiset{ByCaughtUp(R)})))
  {
    assert multiset{R} - multiset{R} == multiset{};
    assert Show(s).(checking := multiset{}) == Show(s.(checking := multiset{}));
    Unflags(s.(checking := multiset{}), ByCaughtUp(R));
  }

  lemma Closes(s: Scene)
    requires s.open
    ensures Leads(Show(s), Notes(CloseSocket), Show(s.(open := false)))
  {
    assert Show(s.(open := false)) == Show(s).(open := false);
  }

  lemma Opens(s: Scene)
    requires !s.open
    ensures Leads(Show(s), Notes(OpenSocket), Show(s.(open := true)))
  {
    assert Show(s.(open := true)) == Show(s).(open := true);
  }

  /** The events lead from the start to the scene. */
  ghost predicate Reached(events: seq<Event>, s: Scene) {
    IsRun(Show(Start()), events) && After(Show(Start()), events) == Show(s)
  }

  lemma Then(events: seq<Event>, s: Scene, e: Event, t: Scene)
    requires Reached(events, s) && Leads(Show(s), e, Show(t))
    ensures Reached(events + [e], t)
  {
    RunSnoc(Show(Start()), events, e);
  }

  /** The first edit is made, its flag is written and its timer fires. */
  lemma EditFires() returns (events: seq<Event>, s: Scene)
    ensures Reached(events, s)
    ensures s == Start().(clock := 200, dirty := true, doc := Some({1}), local := Some([1]), flagged := true,
                          push := Some(Waiting(R)), fired := [Fire(R, [0], 200)])
  {
    var s0 := Start();
    Edits(s0, 1, 0);
    assert {} + {1} == {1} && [] + [1] == [1];
    var s1 := s0.(dirty := true, first := Some(0), doc := Some({1}), local := Some([1]), writing := true);
    Then([], s0, Moves(Edit(R, 1, 0)), s1);
    events := [] + [Moves(Edit(R, 1, 0))];
    Writes(s1);
    var s2 := s1.(flagged := true, writing := false);
    Then(events, s1, Notes(WriteFlag(R)), s2);
    events := events + [Notes(WriteFlag(R))];
    Waits(s2);
    Then(events, s2, Notes(Advance(200)), s2.(clock := 200));
    events := events + [Notes(Advance(200))];
    Fires(s2.(clock := 200), 0);
    assert [] + [Fire(R, [0], 200)] == [Fire(R, [0], 200)];
    s := s2.(clock := 200, first := None, push := Some(Waiting(R)), fired := [Fire(R, [0], 200)]);
    Then(events, s2.(clock := 200), Moves(TimerFires(R, 0)), s);
    events := events + [Moves(TimerFires(R, 0))];
  }

  /** The push saves its snapshot, finds the socket open and starts to encrypt. */
  lemma PushEncrypts() returns (events: seq<Event>, s: Scene)
    ensures Reached(events, s)
    ensures s == Start().(clock := 200, dirty := true, doc := Some({1}), local := Some([1]), flagged := true,
                          push := Some(Saved(R, {1}, 1, true)), fired := [Fire(R, [0], 200)])
  {
    var s0;
    events, s0 := EditFires();
    Saves(s0, {1}, [1]);
    var s1 := s0.(push := Some(Saved(R, {1}, 1, false)));
    Then(events, s0, Moves(SaveSnapshot(0)), s1);
    events := events + [Moves(SaveSnapshot(0))];
    Checks(s1, {1}, 1);
    s := s1.(push := Some(Saved(R, {1}, 1, true)));
    Then(events, s1, Moves(CheckSocket(0)), s);
    events := events + [Moves(CheckSocket(0))];
  }

  /** The first edit is on its way to the server, and its ack on the way back. */
  function FirstSent(): Scene {
    Start().(clock := 200, dirty := true, doc := Some({1}), local := Some([1]), sent := Some({1}), covered := Some(1),
             frames := {Frame(R, {1}, 1)}, heads := Some({1}), flagged := true, fired := [Fire(R, [0], 200)])
  }

  lemma FirstEdit() returns (events: seq<Event>)
    ensures Reached(events, FirstSent())
  {
    var s;
    events, s := PushEncrypts();
    Sends(s, {1}, 1);
    Then(events, s, Moves(SendSnapshot(0)), FirstSent());
    events := events + [Moves(SendSnapshot(0))];
  }

  /** A second edit, and its flag, came before the ack of the first was handled. */
  function SecondUnflagged(): Scene {
    FirstSent().(dirty := false, first := Some(200), doc := Some({1, 2}), local := Some([1, 2]), heads := None, flagged := false)
  }

  lemma SecondEdit(before: seq<Event>) returns (events: seq<Event>)
    requires Reached(before, FirstSent())
    ensures Reached(events, SecondUnflagged())
  {
    var s := FirstSent();
    Edits(s, 2, 1);
    assert {1} + {2} == {1, 2} && [1] + [2] == [1, 2];
    var s1 := s.(dirty := true, first := Some(200), doc := Some({1, 2}), local := Some([1, 2]), writing := true);
    Then(before, s, Moves(Edit(R, 2, 1)), s1);
    events := before + [Moves(Edit(R, 2, 1))];
    Writes(s1);
    var s2 := s1.(flagged := true, writing := false);
    Then(events, s1, Notes(WriteFlag(R)), s2);
    events := events + [Notes(WriteFlag(R))];
    Acks(s2);
    var s3 := s2.(flagged := false, heads := None, clearing := multiset{ByAck(R)});
    Then(events, s2, Replies(AckClears(R)), s3);
    events := events + [Replies(AckClears(R))];
    Forgets(s3, ByAck(R));
    Then(events, s3, Replies(ClearingDone(ByAck(R))), SecondUnflagged());
    events := events + [Replies(ClearingDone(ByAck(R)))];
  }

  /** The timer of the second edit fires while the socket is closed for a moment. */
  lemma SocketGap(before: seq<Event>) returns (events: seq<Event>, t: Scene)
    requires Reached(before, SecondUnflagged())
    ensures Reached(events, t) && t == SecondUnflagged().(clock := 400, first := None, fired := t.fired)
  {
    var s := SecondUnflagged();
    Closes(s);
    var s1 := s.(open := false);
    Then(before, s, Notes(CloseSocket), s1);
    events := before + [Notes(CloseSocket)];
    Waits(s1);
    var s2 := s1.(clock := 400);
    Then(events, s1, Notes(Advance(400)), s2);
    events := events + [Notes(Advance(400))];
    Fires(s2, 1);
    var s3 := s2.(first := None, fired := s2.fired + [Fire(R, [200], 400)]);
    Then(events, s2, Moves(TimerFires(R, 1)), s3);
    events := events + [Moves(TimerFires(R, 1))];
    Opens(s3);
    t := s3.(open := true);
    Then(events, s3, Notes(OpenSocket), t);
    events := events + [Notes(OpenSocket)];
  }

  lemma StartIsInit()
    ensures Init(Show(Start()))
  {
  }

  /** After an ack: the socket is open and the queue ready, but the second edit is forgotten. */
  lemma EditCanBeForgotten() returns (w: World, events: seq<Event>)
    ensures Init(w) && IsRun(w, events)
    ensures var t := After(w, events); t.open && t.q.ready && Forgotten(t, R, 2)
  {
    w := Show(Start());
    StartIsInit();
    var s;
    events := FirstEdit();
    events := SecondEdit(events);
    events, s := SocketGap(events);
    assert 2 == s.local.value[1];
  }

  // ---- a caught_up clears the flag of an edit the server never got

  /** The socket closes during the encryption and opens again. */
  lemma MessageIsDiscarded() returns (events: seq<Event>, t: Scene)
    ensures Reached(events, t)
    ensures t == Start().(clock := 200, dirty := true, doc := Some({1}), local := Some([1]), heads := Some({1}),
                          flagged := true, fired := [Fire(R, [0], 200)])
  {
    var s;
    events, s := PushEncrypts();
    Closes(s);
    var s1 := s.(open := false);
    Then(events, s, Notes(CloseSocket), s1);
    events := events + [Notes(CloseSocket)];
    Discards(s1, {1}, 1);
    var s2 := s1.(push := None, heads := Some({1}));
    Then(events, s1, Moves(SendSnapshot(0)), s2);
    events := events + [Moves(SendSnapshot(0))];
    Opens(s2);
    t := s2.(open := true);
    Then(events, s2, Notes(OpenSocket), t);
    events := events + [Notes(OpenSocket)];
  }

  /**
   The heads of a push whose message was discarded match at the next caught_up. The flag is
   cleared, and the edit, which was never sent, is forgotten.
   */
  lemma CaughtUpCanForget() returns (w: World, events: seq<Event>)
    ensures Init(w) && IsRun(w, events)
    ensures var t := After(w, events); t.open && t.q.ready && Forgotten(t, R, 1) && !AllStored(t, R)
  {
    w := Show(Start());
    StartIsInit();
    var s;
    events, s := MessageIsDiscarded();
    CatchesUp(s);
    var s1 := s.(checking := multiset{R});
    Then(events, s, Replies(CaughtUp(R)), s1);
    events := events + [Replies(CaughtUp(R))];
    HeadsMatch(s1);
    var s2 := s1.(checking := multiset{}, flagged := false, heads := None, clearing := multiset{ByCaughtUp(R)});
    Then(events, s1, Replies(CaughtUpClears(R)), s2);
    events := events + [Replies(CaughtUpClears(R))];
    Forgets(s2, ByCaughtUp(R));
    var s3 := s2.(dirty := false, clearing := multiset{});
    Then(events, s2, Replies(ClearingDone(ByCaughtUp(R))), s3);
    events := events + [Replies(ClearingDone(ByCaughtUp(R)))];
    assert 1 == s3.local.value[0];
  }
}
