/**
 Re-convergence from any reachable state. Compaction keeps one snapshot, and concurrent pushes
 can drop an acknowledged edit from the log; but devices that catch up and push one after
 another collect everything again.
 */
module SyncReconverge {
  import opened Wrappers
  import opened DocumentLog
  import opened SyncProtocol
  import opened SyncInvariant
  import opened SyncGuarantees

  ghost predicate NoStore(events: seq<Event>) {
    forall e | e in events :: !e.StorePush?
  }

  ghost predicate NoEdit(events: seq<Event>) {
    forall e | e in events :: !e.Edit?
  }

  /** In state `s` the device is about to handle a caught_up for the newest row. */
  predicate CatchesUp(s: State, c: ConnId, d: DeviceId) {
    && c in s.conns && s.conns[c].device == d && d in s.replicas
    && s.conns[c].outbox != [] && s.conns[c].outbox[0] == CaughtUp(|s.history|)
  }

  /**
   One device catches up over connection `conn`, takes a snapshot after that, and the snapshot
   is stored by the handler of `pusher`. No other push is stored in between.
   */
  datatype Lap = Lap(device: DeviceId, before: seq<Event>, conn: ConnId,
                     edits: seq<Event>, sending: seq<Event>, pusher: ConnId)

  ghost predicate LapOk(s: State, l: Lap) {
    && NoStore(l.before) && NoStore(l.edits) && NoStore(l.sending)
    && IsRun(s, l.before)
    && var a := After(s, l.before);
    && CatchesUp(a, l.conn, l.device)
    && IsRun(OnDeliver(a, l.conn), l.edits)
    && var b := After(OnDeliver(a, l.conn), l.edits);
    && IsRun(b, l.sending)
    && var p := After(b, l.sending);
    && Waiting(p, l.pusher) && p.conns[l.pusher].device == l.device
    && l.device in b.replicas && p.conns[l.pusher].inbox[0] == Push(b.replicas[l.device].doc)
  }

  ghost function LapEnd(s: State, l: Lap): State
    requires LapOk(s, l)
  {
    OnStorePush(After(After(OnDeliver(After(s, l.before), l.conn), l.edits), l.sending), l.pusher)
  }

  ghost predicate LapsOk(s: State, laps: seq<Lap>)
    decreases |laps|
  {
    laps == [] || (LapOk(s, laps[0]) && LapsOk(LapEnd(s, laps[0]), laps[1..]))
  }

  ghost function LapsEnd(s: State, laps: seq<Lap>): State
    requires LapsOk(s, laps)
    decreases |laps|
  {
    if laps == [] then s else LapsEnd(LapEnd(s, laps[0]), laps[1..])
  }

  /** The newest snapshot contains `x`. */
  ghost predicate NewestHas(s: State, x: set<Change>) {
    x == {} || (s.history != [] && x <= s.history[|s.history| - 1].snap)
  }

  lemma {:induction false} RunWithoutStore(s: State, events: seq<Event>)
    requires IsRun(s, events) && NoStore(events)
    ensures After(s, events).history == s.history
    decreases |events|
  {
    if events != [] {
      StepGrows(s, events[0]);
      RunWithoutStore(Apply(s, events[0]), events[1..]);
    }
  }

  /** A device that handles caught_up for the newest row holds the newest snapshot. */
  lemma CatchesUpHasNewest(s: State, c: ConnId, d: DeviceId, x: set<Change>)
    requires Inv(s) && CatchesUp(s, c, d) && NewestHas(s, x)
    ensures Inv(OnDeliver(s, c)) && d in s.replicas && x <= OnDeliver(s, c).replicas[d].doc
    ensures DocsGrow(s.replicas, OnDeliver(s, c).replicas) && OnDeliver(s, c).history == s.history
  {
    assert ConnOk(s.history, s.replicas[d].doc, s.conns[c]);
    DeliverOk(s, c);
    StepGrows(s, Deliver(c));
  }

  lemma StoreMakesNewest(s: State, c: ConnId)
    requires Inv(s) && Waiting(s, c) && s.conns[c].inbox[0].Push?
    ensures NewestHas(OnStorePush(s, c), s.conns[c].inbox[0].snap)
    ensures OnStorePush(s, c).replicas == s.replicas
  {
  }

  lemma QuietRun(s: State, events: seq<Event>)
    requires Inv(s) && IsRun(s, events) && NoStore(events)
    ensures Inv(After(s, events)) && After(s, events).history == s.history
    ensures DocsGrow(s.replicas, After(s, events).replicas)
  {
    RunKeepsInv(s, events);
    RunGrows(s, events);
    RunWithoutStore(s, events);
  }

  /** The first part of a lap: the device has caught up. */
  lemma LapCatchesUp(s: State, before: seq<Event>, c: ConnId, d: DeviceId, x: set<Change>)
    requires Inv(s) && NewestHas(s, x) && IsRun(s, before) && NoStore(before) && CatchesUp(After(s, before), c, d)
    ensures var a := OnDeliver(After(s, before), c);
            Inv(a) && DocsGrow(s.replicas, a.replicas) && d in s.replicas && x + s.replicas[d].doc <= a.replicas[d].doc
  {
    QuietRun(s, before);
    CatchesUpHasNewest(After(s, before), c, d, x);
  }

  /** The second part: its snapshot is the newest. */
  lemma LapPushes(a: State, edits: seq<Event>, sending: seq<Event>, c: ConnId, d: DeviceId)
    requires Inv(a) && d in a.replicas && IsRun(a, edits) && NoStore(edits)
    requires IsRun(After(a, edits), sending) && NoStore(sending)
    requires var p := After(After(a, edits), sending);
             Waiting(p, c) && d in After(a, edits).replicas && p.conns[c].inbox[0] == Push(After(a, edits).replicas[d].doc)
    ensures var t := OnStorePush(After(After(a, edits), sending), c);
            Inv(t) && DocsGrow(a.replicas, t.replicas) && NewestHas(t, a.replicas[d].doc)
  {
    QuietRun(a, edits);
    QuietRun(After(a, edits), sending);
    StorePushOk(After(After(a, edits), sending), c);
    StoreMakesNewest(After(After(a, edits), sending), c);
  }

  /** One lap adds the device's document to what the newest snapshot has. */
  lemma LapCollects(s: State, l: Lap, x: set<Change>)
    requires Inv(s) && LapOk(s, l) && NewestHas(s, x)
    ensures Inv(LapEnd(s, l)) && l.device in s.replicas
    ensures NewestHas(LapEnd(s, l), x + s.replicas[l.device].doc)
    ensures DocsGrow(s.replicas, LapEnd(s, l).replicas)
  {
    LapCatchesUp(s, l.before, l.conn, l.device, x);
    var a := OnDeliver(After(s, l.before), l.conn);
    LapPushes(a, l.edits, l.sending, l.pusher, l.device);
  }

  lemma {:induction false} LapsCollect(s: State, laps: seq<Lap>, x: set<Change>)
    requires Inv(s) && LapsOk(s, laps) && NewestHas(s, x)
    ensures Inv(LapsEnd(s, laps)) && DocsGrow(s.replicas, LapsEnd(s, laps).replicas)
    ensures NewestHas(LapsEnd(s, laps), x)
    decreases |laps|
  {
    if laps != [] {
      LapKeepsNewest(s, laps[0], x);
      LapsCollect(LapEnd(s, laps[0]), laps[1..], x);
      DocsGrowOn(s.replicas, LapEnd(s, laps[0]).replicas, LapsEnd(s, laps).replicas);
    }
  }

  lemma LapKeepsNewest(s: State, l: Lap, x: set<Change>)
    requires Inv(s) && LapOk(s, l) && NewestHas(s, x)
    ensures Inv(LapEnd(s, l)) && NewestHas(LapEnd(s, l), x) && DocsGrow(s.replicas, LapEnd(s, l).replicas)
  {
    LapCollects(s, l, x);
    NewestHasLess(LapEnd(s, l), x + s.replicas[l.device].doc, x);
  }

  lemma DocsGrowOn(before: map<DeviceId, Replica>, mid: map<DeviceId, Replica>, after: map<DeviceId, Replica>)
    requires DocsGrow(before, mid) && DocsGrow(mid, after)
    ensures DocsGrow(before, after)
  {
  }

  lemma FirstLapCollects(s: State, laps: seq<Lap>)
    requires Inv(s) && LapsOk(s, laps) && laps != []
    ensures laps[0].device in s.replicas && NewestHas(LapsEnd(s, laps), s.replicas[laps[0].device].doc)
  {
    LapCollects(s, laps[0], {});
    LapsCollect(LapEnd(s, laps[0]), laps[1..], s.replicas[laps[0].device].doc);
  }

  lemma {:induction false} LapsCollectDevice(s: State, laps: seq<Lap>, l: Lap)
    requires Inv(s) && LapsOk(s, laps) && l in laps
    ensures l.device in s.replicas && NewestHas(LapsEnd(s, laps), s.replicas[l.device].doc)
    decreases |laps|
  {
    if l == laps[0] {
      FirstLapCollects(s, laps);
    } else {
      LapCollects(s, laps[0], {});
      LapsCollectDevice(LapEnd(s, laps[0]), laps[1..], l);
      NewestHasLess(LapsEnd(s, laps), LapEnd(s, laps[0]).replicas[l.device].doc, s.replicas[l.device].doc);
    }
  }

  lemma NewestHasLess(s: State, x: set<Change>, y: set<Change>)
    requires NewestHas(s, x) && y <= x
    ensures NewestHas(s, y)
  {
  }

  /** The i-th event hands device `d` a caught_up for the newest row. */
  ghost predicate CatchUpAt(s: State, events: seq<Event>, i: nat, d: DeviceId)
    requires IsRun(s, events)
  {
    i < |events| && IsRun(s, events[..i]) && events[i].Deliver? && CatchesUp(After(s, events[..i]), events[i].conn, d)
  }

  ghost predicate EveryDeviceLaps(s: State, laps: seq<Lap>) {
    forall d | d in s.replicas :: exists i :: 0 <= i < |laps| && laps[i].device == d
  }

  /** Each device handles the end of a catch-up somewhere in the run. */
  ghost predicate EveryDeviceCatchesUp(devices: set<DeviceId>, s: State, events: seq<Event>)
    requires IsRun(s, events)
  {
    forall d | d in devices :: exists i :: CatchUpAt(s, events, i, d)
  }

  lemma CatchUpThenHasNewest(s: State, first: seq<Event>, c: ConnId, rest: seq<Event>, d: DeviceId, x: set<Change>)
    requires Inv(s) && NewestHas(s, x) && IsRun(s, first) && NoStore(first) && CatchesUp(After(s, first), c, d)
    requires IsRun(OnDeliver(After(s, first), c), rest)
    ensures var t := After(OnDeliver(After(s, first), c), rest); d in t.replicas && x <= t.replicas[d].doc
  {
    LapCatchesUp(s, first, c, d, x);
    RunGrows(OnDeliver(After(s, first), c), rest);
  }

  lemma CatchUpAtHasNewest(s: State, events: seq<Event>, i: nat, d: DeviceId, x: set<Change>)
    requires Inv(s) && IsRun(s, events) && NoStore(events) && CatchUpAt(s, events, i, d) && NewestHas(s, x)
    ensures d in After(s, events).replicas && x <= After(s, events).replicas[d].doc
  {
    var first, rest := events[..i], events[i + 1..];
    var c := events[i].conn;
    SplitAt(events, i);
    RunSplits(s, first, [Deliver(c)] + rest);
    SplitDelivery(After(s, first), c, rest);
    CatchUpThenHasNewest(s, first, c, rest, d, x);
  }

  lemma SplitAt<T>(s: seq<T>, i: nat)
    requires i < |s|
    ensures s == s[..i] + ([s[i]] + s[i + 1..])
  {
  }

  lemma SplitDelivery(s: State, c: ConnId, rest: seq<Event>)
    requires IsRun(s, [Deliver(c)] + rest)
    ensures Enabled(s, Deliver(c)) && IsRun(OnDeliver(s, c), rest)
    ensures After(s, [Deliver(c)] + rest) == After(OnDeliver(s, c), rest)
  {
    assert ([Deliver(c)] + rest)[1..] == rest;
  }

  // ---- without edits, no change appears

  lemma StepWithoutEdit(s: State, e: Event)
    requires Inv(s) && Enabled(s, e) && !e.Edit?
    ensures AllChanges(Apply(s, e)) == AllChanges(s)
  {
    StepGrows(s, e);
    if e.Deliver? {
      DeliverAddsNothing(s, e.conn);
    } else {
      SameDocs(s, e);
    }
  }

  lemma SameDocs(s: State, e: Event)
    requires Enabled(s, e) && !e.Edit? && !e.Deliver?
    ensures AllChanges(Apply(s, e)) == AllChanges(s)
  {
    if HandlerStep(e) {
      HandlerFrame(s, e);
    } else if DeviceStep(e) {
      DocsStay(s, e);
    } else {
      LinkDocsStay(s, e);
    }
  }

  lemma DeviceDocsStay(s: State, e: Event)
    requires Enabled(s, e) && DeviceStep(e) && !e.Edit? && !e.SendPush? && !e.SendSubscribe?
    ensures s.replicas.Keys == Apply(s, e).replicas.Keys
    ensures forall d | d in s.replicas :: Apply(s, e).replicas[d].doc == s.replicas[d].doc
  {
    if e.TakeSnapshot? {
    } else if e.ReadSeq? {
    } else {
    }
  }

  lemma DocsStay(s: State, e: Event)
    requires Enabled(s, e) && DeviceStep(e) && !e.Edit?
    ensures AllChanges(Apply(s, e)) == AllChanges(s)
  {
    if e.SendPush? || e.SendSubscribe? {
      SendDocsStay(s, e);
    } else {
      DeviceDocsStay(s, e);
      SameChanges(s, Apply(s, e));
    }
  }

  lemma SendDocsStay(s: State, e: Event)
    requires Enabled(s, e) && (e.SendPush? || e.SendSubscribe?)
    ensures AllChanges(Apply(s, e)) == AllChanges(s)
  {
    var d := e.device;
    var r := s.replicas[d];
    if e.SendPush? {
      var t := SetReplica(s, d, r.(drafts := r.drafts - multiset{e.snap}));
      SendFrame(t, d, Push(e.snap));
      SameChanges(s, t);
    } else {
      var t := SetReplica(s, d, Subscribing(r, e.lookup));
      SendFrame(t, d, Subscribe(e.lookup.seqNo));
      SameChanges(s, t);
    }
  }

  lemma LinkDocsStay(s: State, e: Event)
    requires Enabled(s, e) && (e.Drop? || e.Refuse? || e.Teardown?)
    ensures AllChanges(Apply(s, e)) == AllChanges(s)
  {
    SameChanges(s, Apply(s, e));
  }

  lemma SameChanges(s: State, t: State)
    requires s.replicas.Keys == t.replicas.Keys
    requires forall d | d in s.replicas :: t.replicas[d].doc == s.replicas[d].doc
    ensures AllChanges(t) == AllChanges(s)
  {
    assert forall x :: x in AllChanges(t) <==> x in AllChanges(s);
  }

  /** A snapshot under way is held by the device that pushed it. */
  lemma DeliveredIsHeld(s: State, c: ConnId)
    requires Inv(s) && c in s.conns && s.conns[c].device in s.replicas
    requires s.conns[c].outbox != [] && s.conns[c].outbox[0].Sync?
    ensures s.conns[c].outbox[0].snap <= AllChanges(s)
  {
    var m := s.conns[c].outbox[0];
    assert ConnOk(s.history, s.replicas[s.conns[c].device].doc, s.conns[c]) && m in s.conns[c].outbox;
    assert SoundMessage(s.history, s.replicas[s.conns[c].device].doc, m);
    StoredIsHeld(s, m.seqNo - 1);
  }

  /** Every stored snapshot is still in its author's document. */
  lemma StoredIsHeld(s: State, i: nat)
    requires Inv(s) && i < |s.history|
    ensures s.history[i].snap <= AllChanges(s)
  {
    assert AuthorsHold(s.history, s.replicas);
    HeldIsAChange(s, s.history[i].device);
  }

  lemma HeldIsAChange(s: State, d: DeviceId)
    requires d in s.replicas
    ensures s.replicas[d].doc <= AllChanges(s)
  {
  }

  lemma GrownByHeld(s: State, t: State, d: DeviceId, snap: set<Change>)
    requires d in s.replicas && snap <= AllChanges(s) && s.replicas.Keys == t.replicas.Keys
    requires forall k | k in s.replicas :: t.replicas[k].doc == if k == d then s.replicas[k].doc + snap else s.replicas[k].doc
    ensures AllChanges(t) == AllChanges(s)
  {
    forall x | x in AllChanges(t) ensures x in AllChanges(s) {
      var k :| k in t.replicas && x in t.replicas[k].doc;
    }
    forall x | x in AllChanges(s) ensures x in AllChanges(t) {
      var k :| k in s.replicas && x in s.replicas[k].doc;
      assert k in t.replicas && x in t.replicas[k].doc;
    }
  }

  lemma DeliveredDocs(s: State, c: ConnId, k: DeviceId)
    requires c in s.conns && s.conns[c].device in s.replicas && s.conns[c].outbox != [] && k in s.replicas
    ensures var t := OnDeliver(s, c);
      k in t.replicas && t.replicas[k].doc ==
        if k == s.conns[c].device then s.replicas[k].doc + Brings(s.conns[c].outbox[0]) else s.replicas[k].doc
  {
  }

  lemma DeliverAddsNothing(s: State, c: ConnId)
    requires Inv(s) && c in s.conns && s.conns[c].device in s.replicas && s.conns[c].outbox != []
    ensures AllChanges(OnDeliver(s, c)) == AllChanges(s)
  {
    if s.conns[c].outbox[0].Sync? { DeliveredIsHeld(s, c); }
    forall k | k in s.replicas { DeliveredDocs(s, c, k); }
    GrownByHeld(s, OnDeliver(s, c), s.conns[c].device, Brings(s.conns[c].outbox[0]));
  }

  lemma {:induction false} RunWithoutEdit(s: State, events: seq<Event>)
    requires Inv(s) && IsRun(s, events) && NoEdit(events)
    ensures AllChanges(After(s, events)) == AllChanges(s)
    decreases |events|
  {
    if events != [] {
      StepKeepsInv(s, events[0]);
      StepWithoutEdit(s, events[0]);
      RunWithoutEdit(Apply(s, events[0]), events[1..]);
    }
  }

  ghost predicate LapsWithoutEdit(laps: seq<Lap>) {
    forall l | l in laps :: NoEdit(l.before) && NoEdit(l.edits) && NoEdit(l.sending)
  }

  lemma LapWithoutEdit(s: State, l: Lap)
    requires Inv(s) && LapOk(s, l) && NoEdit(l.before) && NoEdit(l.edits) && NoEdit(l.sending)
    ensures AllChanges(LapEnd(s, l)) == AllChanges(s)
  {
    var a := After(s, l.before);
    RunKeepsInv(s, l.before);
    RunWithoutEdit(s, l.before);
    DeliverOk(a, l.conn);
    DeliverAddsNothing(a, l.conn);
    var a' := OnDeliver(a, l.conn);
    RunKeepsInv(a', l.edits);
    RunWithoutEdit(a', l.edits);
    RunWithoutEdit(After(a', l.edits), l.sending);
    assert AllChanges(LapEnd(s, l)) == AllChanges(After(After(a', l.edits), l.sending));
  }

  lemma {:induction false} LapsAddNothing(s: State, laps: seq<Lap>)
    requires Inv(s) && LapsOk(s, laps) && LapsWithoutEdit(laps)
    ensures AllChanges(LapsEnd(s, laps)) == AllChanges(s)
    decreases |laps|
  {
    if laps != [] {
      assert laps[0] in laps;
      LapWithoutEdit(s, laps[0]);
      LapCollects(s, laps[0], {});
      LapsAddNothing(LapEnd(s, laps[0]), laps[1..]);
    }
  }

  /**
   Re-convergence. From any reachable state, every device runs one lap, one after another; then
   each catches up once more while no push is stored. Every replica ends with everything any
   replica held at the start, and when nobody edits meanwhile, all replicas are equal to it.
   */
  lemma Reconvergence(s: State, laps: seq<Lap>, last: seq<Event>)
    requires Reachable(s) && LapsOk(s, laps)
    requires EveryDeviceLaps(s, laps)
    requires IsRun(LapsEnd(s, laps), last) && NoStore(last)
    requires EveryDeviceCatchesUp(s.replicas.Keys, LapsEnd(s, laps), last)
    ensures var t := After(LapsEnd(s, laps), last);
            forall d | d in s.replicas :: d in t.replicas && AllChanges(s) <= t.replicas[d].doc
    ensures LapsWithoutEdit(laps) && NoEdit(last) ==>
              var t := After(LapsEnd(s, laps), last);
              forall d | d in t.replicas :: t.replicas[d].doc == AllChanges(s)
  {
    ReachableInv(s);
    LastRoundHasAll(s, laps, last);
    if LapsWithoutEdit(laps) && NoEdit(last) {
      LastRoundHasNoMore(s, laps, last, After(LapsEnd(s, laps), last));
    }
  }

  lemma LastRoundHasNoMore(s: State, laps: seq<Lap>, last: seq<Event>, t: State)
    requires Inv(s) && LapsOk(s, laps) && IsRun(LapsEnd(s, laps), last) && t == After(LapsEnd(s, laps), last)
    requires LapsWithoutEdit(laps) && NoEdit(last)
    requires forall d | d in s.replicas :: d in t.replicas && AllChanges(s) <= t.replicas[d].doc
    ensures forall d | d in t.replicas :: t.replicas[d].doc == AllChanges(s)
  {
    NothingAppears(s, laps, last);
    SameDevices(s, laps, last);
    SameEverywhere(s, t);
  }

  lemma LastRoundHasAll(s: State, laps: seq<Lap>, last: seq<Event>)
    requires Inv(s) && LapsOk(s, laps)
    requires EveryDeviceLaps(s, laps)
    requires IsRun(LapsEnd(s, laps), last) && NoStore(last)
    requires EveryDeviceCatchesUp(s.replicas.Keys, LapsEnd(s, laps), last)
    ensures var t := After(LapsEnd(s, laps), last);
            forall d | d in s.replicas :: d in t.replicas && AllChanges(s) <= t.replicas[d].doc
  {
    var u := LapsEnd(s, laps);
    LapsCollect(s, laps, {});
    LapsCollectAll(s, laps);
    forall d | d in s.replicas
      ensures d in After(u, last).replicas && AllChanges(s) <= After(u, last).replicas[d].doc
    {
      var i :| CatchUpAt(u, last, i, d);
      CatchUpAtHasNewest(u, last, i, d, AllChanges(s));
    }
  }

  lemma SameDevices(s: State, laps: seq<Lap>, last: seq<Event>)
    requires Inv(s) && LapsOk(s, laps) && IsRun(LapsEnd(s, laps), last)
    ensures After(LapsEnd(s, laps), last).replicas.Keys == s.replicas.Keys
  {
    LapsCollect(s, laps, {});
    RunGrows(LapsEnd(s, laps), last);
  }

  lemma SameEverywhere(s: State, t: State)
    requires t.replicas.Keys == s.replicas.Keys
    requires forall d | d in s.replicas :: d in t.replicas && AllChanges(s) <= t.replicas[d].doc
    requires forall d | d in t.replicas :: t.replicas[d].doc <= AllChanges(s)
    ensures forall d | d in t.replicas :: t.replicas[d].doc == AllChanges(s)
  {
  }

  lemma NothingAppears(s: State, laps: seq<Lap>, last: seq<Event>)
    requires Inv(s) && LapsOk(s, laps) && IsRun(LapsEnd(s, laps), last)
    requires LapsWithoutEdit(laps) && NoEdit(last)
    ensures var t := After(LapsEnd(s, laps), last);
            forall d | d in t.replicas :: t.replicas[d].doc <= AllChanges(s)
  {
    LapsCollect(s, laps, {});
    LapsAddNothing(s, laps);
    RunWithoutEdit(LapsEnd(s, laps), last);
    var t := After(LapsEnd(s, laps), last);
    assert forall d, x | d in t.replicas && x in t.replicas[d].doc :: x in AllChanges(t);
  }

  lemma LapsCollectChange(s: State, laps: seq<Lap>, l: Lap, x: Change)
    requires Inv(s) && LapsOk(s, laps) && l in laps
    requires l.device in s.replicas && x in s.replicas[l.device].doc
    ensures NewestHas(LapsEnd(s, laps), {x})
  {
    LapsCollectDevice(s, laps, l);
    NewestHasLess(LapsEnd(s, laps), s.replicas[l.device].doc, {x});
  }

  lemma NewestHasEach(s: State, all: set<Change>)
    requires forall x :: x in all ==> NewestHas(s, {x})
    ensures NewestHas(s, all)
  {
    forall x | x in all ensures s.history != [] && x in s.history[|s.history| - 1].snap {
      assert NewestHas(s, {x}) && x in {x};
    }
  }

  lemma LapsCollectAll(s: State, laps: seq<Lap>)
    requires Inv(s) && LapsOk(s, laps)
    requires EveryDeviceLaps(s, laps)
    ensures NewestHas(LapsEnd(s, laps), AllChanges(s))
  {
    forall x | x in AllChanges(s) ensures NewestHas(LapsEnd(s, laps), {x}) {
      var d :| d in s.replicas && x in s.replicas[d].doc;
      var i :| 0 <= i < |laps| && laps[i].device == d;
      LapsCollectChange(s, laps, laps[i], x);
    }
    NewestHasEach(LapsEnd(s, laps), AllChanges(s));
  }
}
