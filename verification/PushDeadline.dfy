/** The debounce deadlines of the push queue, over every run with timers that fire on time. */
module PushDeadline {
  import opened Wrappers
  import opened PushQueueSpec
  import opened PushWorld

  ghost predicate AscendingTimes(times: seq<nat>) {
    forall i, j :: 0 <= i <= j < |times| ==> times[i] <= times[j]
  }

  /** A burst of calls up to time `now`. */
  ghost predicate BurstOk(times: seq<nat>, now: nat) {
    times != [] && AscendingTimes(times) && times[|times| - 1] <= now
  }

  /** Each timer is set for the exact deadline of its burst, and time has not passed it. */
  ghost predicate TimersFit(timers: map<DocId, nat>, firstChange: map<DocId, nat>, bursts: map<DocId, seq<nat>>, clock: nat) {
    && timers.Keys == firstChange.Keys == bursts.Keys
    && forall d | d in bursts ::
         BurstOk(bursts[d], clock) && firstChange[d] == bursts[d][0] &&
         timers[d] == Deadline(bursts[d][0], bursts[d][|bursts[d]| - 1]) && clock <= timers[d]
  }

  ghost predicate TimersOk(w: World) {
    TimersFit(w.q.timers, w.q.firstChange, w.bursts, w.clock)
  }

  /** Every burst that ended did so by the deadline of its first and last call. */
  ghost predicate FiredOk(fired: seq<Fire>) {
    forall f | f in fired :: BurstOk(f.burst, f.at) && f.at <= Deadline(f.burst[0], f.burst[|f.burst| - 1])
  }

  lemma EndBurstOk(w: World, d: DocId)
    requires TimersOk(w) && FiredOk(w.fired)
    ensures TimersOk(EndBurst(w, d)) && FiredOk(EndBurst(w, d).fired)
  {
  }

  lemma BurstGrows(w: World, d: DocId)
    requires TimersOk(w)
    ensures var burst := Burst(w, d) + [w.clock];
            BurstOk(burst, w.clock) && burst[0] == BurstStart(w.q, d, w.clock) && w.clock <= burst[0] + MAX_WAIT_MS
  {
  }

  lemma FitAdds(timers: map<DocId, nat>, firstChange: map<DocId, nat>, bursts: map<DocId, seq<nat>>, clock: nat,
                d: DocId, burst: seq<nat>)
    requires TimersFit(timers, firstChange, bursts, clock)
    requires BurstOk(burst, clock) && burst[|burst| - 1] == clock && clock <= Deadline(burst[0], clock)
    ensures TimersFit(timers[d := Deadline(burst[0], clock)], firstChange[d := burst[0]], bursts[d := burst], clock)
  {
  }

  lemma FitRemoves(timers: map<DocId, nat>, firstChange: map<DocId, nat>, bursts: map<DocId, seq<nat>>, clock: nat, d: DocId)
    requires TimersFit(timers, firstChange, bursts, clock)
    ensures TimersFit(timers - {d}, firstChange - {d}, bursts - {d}, clock)
  {
  }

  /** A call joins its burst, or ends it by firing at once. */
  lemma MarkedOk(w: World, d: DocId, p: PushId)
    requires TimersOk(w) && FiredOk(w.fired)
    ensures TimersOk(Marked(w, d, p)) && FiredOk(Marked(w, d, p).fired)
  {
    BurstGrows(w, d);
    if FiresNow(w.q, d, w.clock) {
      FiringOk(w, d, p);
    } else {
      FitAdds(w.q.timers, w.q.firstChange, w.bursts, w.clock, d, Burst(w, d) + [w.clock]);
    }
  }

  lemma FiringOk(w: World, d: DocId, p: PushId)
    requires TimersOk(w) && FiredOk(w.fired) && FiresNow(w.q, d, w.clock)
    ensures TimersOk(Marked(w, d, p)) && FiredOk(Marked(w, d, p).fired)
  {
    BurstGrows(w, d);
    FitRemoves(w.q.timers, w.q.firstChange, w.bursts, w.clock, d);
  }

  lemma MoveKeepsTimers(w: World, e: Move)
    requires CanMove(w, e) && TimersOk(w) && FiredOk(w.fired)
    ensures TimersOk(ApplyMove(w, e)) && FiredOk(ApplyMove(w, e).fired)
  {
    match e
    case Edit(d, x, p) => MarkedOk(Changed(w, d, x), d, p);
    case TimerFires(d, _) => EndBurstOk(w, d);
    case FlushNow(d, _) => EndBurstOk(w, d);
    case _ =>
      PushFrame(w, e);
      MoveFrame(w, e);
  }

  lemma StepKeepsTimers(w: World, e: Event)
    requires Enabled(w, e) && TimersOk(w) && FiredOk(w.fired)
    ensures TimersOk(Apply(w, e)) && FiredOk(Apply(w, e).fired)
  {
    match e
    case Moves(m) => MoveKeepsTimers(w, m);
    case Replies(r) => ReplyFrame(w, r);
    case Notes(n) => NoteFrame(w, n);
  }

  /** The call of markDirty for `d` at time `at` waits for its timer, or its burst has been pushed. */
  ghost predicate Accounted(w: World, d: DocId, at: nat) {
    (d in w.bursts && at in w.bursts[d]) || exists f :: f in w.fired && f.doc == d && at in f.burst
  }

  lemma EndBurstKeepsAccounted(w: World, d: DocId, x: DocId, at: nat)
    requires Accounted(w, d, at)
    ensures Accounted(EndBurst(w, x), d, at)
  {
    var t := EndBurst(w, x);
    if d in w.bursts && at in w.bursts[d] {
      if d == x {
        var f := t.fired[|t.fired| - 1];
        assert f in t.fired && f.doc == d && at in f.burst;
      }
    } else {
      var f :| f in w.fired && f.doc == d && at in f.burst;
      assert f in t.fired;
    }
  }

  lemma MarkedKeepsAccounted(w: World, x: DocId, p: PushId, d: DocId, at: nat)
    requires Accounted(w, d, at) || (d == x && at == w.clock)
    ensures Accounted(Marked(w, x, p), d, at)
  {
    var t := Marked(w, x, p);
    var burst := Burst(w, x) + [w.clock];
    assert burst[|burst| - 1] == w.clock;
    if d == x && at in burst {
      assert FiresNow(w.q, x, w.clock) ==> t.fired[|t.fired| - 1] == Fire(x, burst, w.clock);
    } else if !(d in w.bursts && at in w.bursts[d]) {
      var f :| f in w.fired && f.doc == d && at in f.burst;
      assert f in t.fired;
    }
  }

  lemma AccountedFrame(w: World, t: World, d: DocId, at: nat)
    requires Accounted(w, d, at) && t.bursts == w.bursts && t.fired == w.fired
    ensures Accounted(t, d, at)
  {
  }

  lemma StepKeepsAccounted(w: World, e: Event, d: DocId, at: nat)
    requires Enabled(w, e) && Accounted(w, d, at)
    ensures Accounted(Apply(w, e), d, at)
  {
    match e
    case Replies(r) =>
      ReplyFrame(w, r);
      AccountedFrame(w, ApplyReply(w, r), d, at);
    case Notes(n) =>
      NoteFrame(w, n);
      AccountedFrame(w, ApplyNote(w, n), d, at);
    case Moves(m) => MoveKeepsAccounted(w, m, d, at);
  }

  lemma MoveKeepsAccounted(w: World, e: Move, d: DocId, at: nat)
    requires CanMove(w, e) && Accounted(w, d, at)
    ensures Accounted(ApplyMove(w, e), d, at)
  {
    match e
    case Edit(x, change, p) => EditIsAccounted(w, x, change, p, d, at);
    case TimerFires(x, p) =>
      EndBurstKeepsAccounted(w, d, x, at);
      AccountedFrame(EndBurst(w, x), ApplyMove(w, e), d, at);
    case FlushNow(x, p) =>
      EndBurstKeepsAccounted(w, d, x, at);
      AccountedFrame(EndBurst(w, x), ApplyMove(w, e), d, at);
    case _ =>
      PushFrame(w, e);
      AccountedFrame(w, ApplyMove(w, e), d, at);
  }

  lemma EditIsAccounted(w: World, x: DocId, change: Change, p: PushId, d: DocId, at: nat)
    requires Accounted(w, d, at) || (d == x && at == w.clock)
    ensures Accounted(OnEdit(w, x, change, p), d, at)
  {
    var w' := Changed(w, x, change);
    MarkedKeepsAccounted(w', x, p, d, at);
  }

  lemma {:induction false} RunKeepsTimers(w: World, events: seq<Event>)
    requires IsRun(w, events) && TimersOk(w) && FiredOk(w.fired)
    ensures TimersOk(After(w, events)) && FiredOk(After(w, events).fired)
    decreases |events|
  {
    if events != [] {
      StepKeepsTimers(w, events[0]);
      RunKeepsTimers(Apply(w, events[0]), events[1..]);
    }
  }

  lemma {:induction false} RunKeepsAccounted(w: World, events: seq<Event>, d: DocId, at: nat)
    requires IsRun(w, events) && Accounted(w, d, at)
    ensures Accounted(After(w, events), d, at)
    decreases |events|
  {
    if events != [] {
      StepKeepsAccounted(w, events[0], d, at);
      RunKeepsAccounted(Apply(w, events[0]), events[1..], d, at);
    }
  }

  /**
   Debounce deadline. Whatever else happens, once the clock is past MAX_WAIT_MS after an edit, the
   edit's burst has fired: no earlier than the edit, within DEBOUNCE_MS of the last call of the
   burst and within MAX_WAIT_MS of its first. The two maps always have the same keys.
   */
  lemma DebounceDeadline(w: World, before: seq<Event>, d: DocId, x: Change, p: PushId, afterwards: seq<Event>)
    requires Init(w) && IsRun(w, before) && CanMove(After(w, before), Edit(d, x, p))
    requires IsRun(OnEdit(After(w, before), d, x, p), afterwards)
    ensures var at := After(w, before).clock;
            var t := After(OnEdit(After(w, before), d, x, p), afterwards);
            && t.q.timers.Keys == t.q.firstChange.Keys
            && (t.clock > at + MAX_WAIT_MS ==>
                  exists f :: f in t.fired && f.doc == d && at in f.burst && BurstOk(f.burst, f.at) &&
                    at <= f.at <= f.burst[|f.burst| - 1] + DEBOUNCE_MS && f.at <= f.burst[0] + MAX_WAIT_MS)
  {
    RunKeepsTimers(w, before);
    var u := After(w, before);
    MoveKeepsTimers(u, Edit(d, x, p));
    EditIsAccounted(u, d, x, p, d, u.clock);
    var v := OnEdit(u, d, x, p);
    RunKeepsTimers(v, afterwards);
    RunKeepsAccounted(v, afterwards, d, u.clock);
    if After(v, afterwards).clock > u.clock + MAX_WAIT_MS {
      FiredInTime(After(v, afterwards), d, u.clock);
    }
  }

  lemma FiredInTime(t: World, d: DocId, at: nat)
    requires TimersOk(t) && FiredOk(t.fired) && Accounted(t, d, at) && t.clock > at + MAX_WAIT_MS
    ensures exists f :: f in t.fired && f.doc == d && at in f.burst && BurstOk(f.burst, f.at) &&
              at <= f.at <= f.burst[|f.burst| - 1] + DEBOUNCE_MS && f.at <= f.burst[0] + MAX_WAIT_MS
  {
    assert d in t.bursts ==> forall i :: 0 <= i < |t.bursts[d]| ==> t.clock - MAX_WAIT_MS <= t.bursts[d][0] <= t.bursts[d][i];
    var f :| f in t.fired && f.doc == d && at in f.burst;
    var i :| 0 <= i < |f.burst| && f.burst[i] == at;
    assert at <= f.burst[|f.burst| - 1];
  }
}
