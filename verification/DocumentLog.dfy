/**
 The server's log of one document: the rows of table sync_messages that belong to it.
 A push inserts a row numbered MAX(seq) + 1, compaction deletes every row below MAX(seq),
 and a subscriber reads the rows above a number, in ascending order.
 An Automerge snapshot is the set of changes it holds.
 */
module DocumentLog {
  type Change = nat
  type DeviceId = nat

  datatype Row = Row(seqNo: nat, device: DeviceId, snap: set<Change>)

  type Log = seq<Row>

  /** COALESCE(MAX(seq), 0). */
  function MaxSeq(log: Log): (m: nat)
    ensures forall r | r in log :: r.seqNo <= m
    ensures log != [] ==> exists r | r in log :: r.seqNo == m
    ensures log == [] ==> m == 0
  {
    if log == [] then 0
    else
      var last := log[|log| - 1];
      var m := MaxSeq(log[..|log| - 1]);
      assert log == log[..|log| - 1] + [last];
      if last.seqNo >= m then last.seqNo else m
  }

  /** The rows numbered `low` or more, in order. */
  function AtLeast(log: Log, low: nat): (kept: Log)
    ensures forall r :: r in kept <==> r in log && r.seqNo >= low
  {
    if log == [] then []
    else
      var init := log[..|log| - 1];
      var last := log[|log| - 1];
      assert log == init + [last];
      if last.seqNo >= low then AtLeast(init, low) + [last] else AtLeast(init, low)
  }

  function NewRow(log: Log, device: DeviceId, snap: set<Change>): Row {
    Row(MaxSeq(log) + 1, device, snap)
  }

  function Store(log: Log, device: DeviceId, snap: set<Change>): Log {
    log + [NewRow(log, device, snap)]
  }

  function Compact(log: Log): Log {
    AtLeast(log, MaxSeq(log))
  }

  function Since(log: Log, after: nat): Log {
    AtLeast(log, after + 1)
  }

  ghost predicate Ascending(log: Log) {
    forall i, j :: 0 <= i < j < |log| ==> log[i].seqNo < log[j].seqNo
  }

  /** `history` lists every row ever stored, and the row at index i is numbered i + 1. */
  ghost predicate Numbered(history: Log) {
    forall i :: 0 <= i < |history| ==> history[i].seqNo == i + 1
  }

  ghost predicate InHistory(history: Log, row: Row) {
    1 <= row.seqNo <= |history| && history[row.seqNo - 1] == row
  }

  /** The log is an ascending selection of the history that always keeps the newest row. */
  ghost predicate LogOk(log: Log, history: Log) {
    && Numbered(history)
    && Ascending(log)
    && (forall r | r in log :: InHistory(history, r))
    && (history == [] ==> log == [])
    && (history != [] ==> log != [] && log[|log| - 1] == history[|history| - 1])
  }

  lemma AscendingInit(log: Log)
    requires Ascending(log) && log != []
    ensures Ascending(log[..|log| - 1])
    ensures forall r :: r in log[..|log| - 1] ==> r.seqNo < log[|log| - 1].seqNo
  {
    var init, last := log[..|log| - 1], log[|log| - 1];
    forall r | r in init ensures r.seqNo < last.seqNo {
      var i :| 0 <= i < |init| && init[i] == r;
      assert log[i].seqNo < log[|log| - 1].seqNo;
    }
  }

  lemma AscendingSnoc(log: Log, last: Row)
    requires Ascending(log) && forall r :: r in log ==> r.seqNo < last.seqNo
    ensures Ascending(log + [last])
  {
    forall i, j | 0 <= i < j < |log| + 1 ensures (log + [last])[i].seqNo < (log + [last])[j].seqNo {
      assert log[i] in log;
    }
  }

  lemma {:induction false} AtLeastAscending(log: Log, low: nat)
    requires Ascending(log)
    ensures Ascending(AtLeast(log, low))
    ensures log != [] && log[|log| - 1].seqNo >= low ==>
              AtLeast(log, low) != [] && AtLeast(log, low)[|AtLeast(log, low)| - 1] == log[|log| - 1]
  {
    if log != [] {
      var init, last := log[..|log| - 1], log[|log| - 1];
      AscendingInit(log);
      AtLeastAscending(init, low);
      AscendingSnoc(AtLeast(init, low), last);
    }
  }

  lemma MaxSeqIsNewest(log: Log, history: Log)
    requires LogOk(log, history)
    ensures MaxSeq(log) == |history|
  {
    if log != [] {
      assert log[|log| - 1] in log;
    }
  }

  /** A push gets the next number of the whole history, however much was compacted before it. */
  lemma StoreKeepsLog(log: Log, history: Log, device: DeviceId, snap: set<Change>)
    requires LogOk(log, history)
    ensures NewRow(log, device, snap).seqNo == |history| + 1
    ensures LogOk(Store(log, device, snap), history + [NewRow(log, device, snap)])
  {
    MaxSeqIsNewest(log, history);
    var row := NewRow(log, device, snap);
    var history' := history + [row];
    forall r | r in Store(log, device, snap) ensures InHistory(history', r) {
      if r != row { assert r in log; assert InHistory(history, r); }
    }
    forall i, j | 0 <= i < j < |log| + 1 ensures (log + [row])[i].seqNo < (log + [row])[j].seqNo {
      assert log[i] in log;
    }
  }

  /** The newest row alone. */
  function Newest(history: Log): Log {
    if history == [] then [] else [history[|history| - 1]]
  }

  /** Compaction leaves exactly the newest row. */
  lemma CompactKeepsLog(log: Log, history: Log)
    requires LogOk(log, history)
    ensures LogOk(Compact(log), history)
    ensures Compact(log) == Newest(history)
  {
    MaxSeqIsNewest(log, history);
    if log != [] {
      AtLeastAscending(log, |history|);
      var kept := Compact(log);
      assert kept[|kept| - 1] == log[|log| - 1] && log[|log| - 1] in log;
      assert kept[0] in kept;
    }
  }

  /** The number a subscriber is told it has caught up to. */
  function LatestOf(rows: Log, lastSeq: nat): nat {
    if rows != [] then rows[|rows| - 1].seqNo else lastSeq
  }

  /** Reading from a truthful `lastSeq`, the subscriber is told exactly the newest number. */
  lemma LatestIsNewest(log: Log, history: Log, lastSeq: nat)
    requires LogOk(log, history)
    requires lastSeq <= |history|
    ensures LatestOf(Since(log, lastSeq), lastSeq) == |history|
    ensures Ascending(Since(log, lastSeq))
    ensures forall r | r in Since(log, lastSeq) :: InHistory(history, r)
    ensures Since(log, lastSeq) == [] <==> lastSeq == |history|
    ensures lastSeq < |history| ==> history[|history| - 1] in Since(log, lastSeq)
  {
    AtLeastAscending(log, lastSeq + 1);
    forall r | r in Since(log, lastSeq) ensures InHistory(history, r) {
      assert r in log;
    }
    if lastSeq == |history| {
      NothingAfter(log, history);
    } else {
      NewestIsLast(log, history, lastSeq);
    }
  }

  lemma NewestIsLast(log: Log, history: Log, lastSeq: nat)
    requires LogOk(log, history) && lastSeq < |history|
    ensures var rows := Since(log, lastSeq); rows != [] && rows[|rows| - 1] == history[|history| - 1]
    ensures history[|history| - 1].seqNo == |history|
  {
    AtLeastAscending(log, lastSeq + 1);
    var newest := log[|log| - 1];
    assert newest in log && InHistory(history, newest);
  }

  lemma NothingAfter(log: Log, history: Log)
    requires LogOk(log, history)
    ensures Since(log, |history|) == []
  {
    forall r | r in log ensures r.seqNo <= |history| {
      assert InHistory(history, r);
    }
    NothingAbove(log, |history| + 1);
  }

  lemma {:induction false} NothingAbove(log: Log, low: nat)
    requires forall r | r in log :: r.seqNo < low
    ensures AtLeast(log, low) == []
  {
    if log != [] {
      assert log[|log| - 1] in log;
      NothingAbove(log[..|log| - 1], low);
    }
  }
}
