/**
 Table sync_messages with all documents of all users in it. Every statement selects the rows
 of one document: by user and doc id for a personal document, by vault and doc id for a shared
 one. The rows of a document, seen alone, follow module DocumentLog.
 */
module SyncMessages {
  import opened Wrappers
  import opened DocumentLog

  datatype Message = Message(user: string, vault: Option<string>, doc: string,
                             seqNo: nat, device: DeviceId, snap: set<Change>)

  /** The sequence space of a document. */
  datatype Key = Personal(user: string, doc: string) | Shared(vault: string, doc: string)

  /** The part of a doc id before its first '/', or "" when there is none or it is empty. */
  function ExtractVaultId(docId: string): string {
    var i := SlashAt(docId, 0);
    if 0 < i < |docId| then docId[..i] else ""
  }

  function SlashAt(s: string, from: nat): (i: nat)
    requires from <= |s|
    ensures from <= i <= |s|
    decreases |s| - from
  {
    if from == |s| || s[from] == '/' then from else SlashAt(s, from + 1)
  }

  lemma {:induction false} SlashIsFirst(s: string, from: nat)
    requires from <= |s|
    ensures var i := SlashAt(s, from); '/' !in s[from..i] && (i < |s| ==> s[i] == '/')
    decreases |s| - from
  {
    if from < |s| && s[from] != '/' {
      SlashIsFirst(s, from + 1);
      assert s[from..SlashAt(s, from)] == [s[from]] + s[from + 1..SlashAt(s, from)];
    }
  }

  /** There is a vault id exactly when a first '/' comes after the first character; it ends there. */
  lemma VaultIdIff(docId: string)
    ensures var vault := ExtractVaultId(docId);
      && (vault != "" <==> exists i :: 0 < i < |docId| && docId[i] == '/' && '/' !in docId[..i])
      && (vault != "" ==> vault < docId && docId[|vault|] == '/' && '/' !in vault)
  {
    var i := SlashAt(docId, 0);
    SlashIsFirst(docId, 0);
    if 0 < i < |docId| { assert '/' !in docId[..i]; }
    if k :| 0 < k < |docId| && docId[k] == '/' && '/' !in docId[..k] {
      assert forall j :: 0 <= j < i ==> docId[0..i][j] != '/';
      assert docId[..k][0] == docId[0];
    }
  }

  function KeyOf(user: string, doc: string): Key {
    var vault := ExtractVaultId(doc);
    if vault == "" then Personal(user, doc) else Shared(vault, doc)
  }

  /** The WHERE clause of the statements on one document. */
  predicate Matches(m: Message, key: Key) {
    match key
    case Personal(user, doc) => m.user == user && m.doc == doc
    case Shared(vault, doc) => m.vault == Some(vault) && m.doc == doc
  }

  predicate WellKeyed(m: Message) {
    m.vault == (var vault := ExtractVaultId(m.doc); if vault == "" then None else Some(vault))
  }

  /** A row is selected for a document exactly when it belongs to that document. */
  lemma MatchesOwnKeyOnly(m: Message, user: string, doc: string)
    requires WellKeyed(m)
    ensures Matches(m, KeyOf(user, doc)) <==> KeyOf(m.user, m.doc) == KeyOf(user, doc)
  {
  }

  /** The rows of one document as its log. */
  function View(messages: seq<Message>, key: Key): Log {
    if messages == [] then []
    else
      var m := messages[|messages| - 1];
      View(messages[..|messages| - 1], key)
        + if Matches(m, key) then [Row(m.seqNo, m.device, m.snap)] else []
  }

  lemma ViewContains(messages: seq<Message>, key: Key)
    ensures forall m | m in messages && Matches(m, key) :: Row(m.seqNo, m.device, m.snap) in View(messages, key)
  {
  }

  /** DELETE of the rows of one document that are numbered below `low`. */
  function DeleteBelow(messages: seq<Message>, key: Key, low: nat): (rest: seq<Message>)
    ensures forall m :: m in rest ==> m in messages
  {
    if messages == [] then []
    else
      var m := messages[|messages| - 1];
      DeleteBelow(messages[..|messages| - 1], key, low) + if Matches(m, key) && m.seqNo < low then [] else [m]
  }

  lemma InsertView(messages: seq<Message>, m: Message, user: string, doc: string)
    requires WellKeyed(m)
    ensures View(messages + [m], KeyOf(user, doc)) ==
              if KeyOf(m.user, m.doc) == KeyOf(user, doc)
              then View(messages, KeyOf(user, doc)) + [Row(m.seqNo, m.device, m.snap)]
              else View(messages, KeyOf(user, doc))
  {
    MatchesOwnKeyOnly(m, user, doc);
    ViewSnoc(messages, m, KeyOf(user, doc));
  }

  /** No row can clash with the next number on (user, doc, seq). */
  lemma NextNumberIsFree(messages: seq<Message>, user: string, doc: string, m: Message)
    requires m in messages && WellKeyed(m) && m.user == user && m.doc == doc
    ensures m.seqNo < MaxSeq(View(messages, KeyOf(user, doc))) + 1
  {
    MatchesOwnKeyOnly(m, user, doc);
    ViewContains(messages, KeyOf(user, doc));
  }

  /** The numbers that UNIQUE(user, doc, seq) no longer allows. */
  function UsedNumbers(messages: seq<Message>, user: string, doc: string): set<nat> {
    set m | m in messages && m.user == user && m.doc == doc :: m.seqNo
  }

  lemma NextNumberIsUnused(messages: seq<Message>, user: string, doc: string, next: nat)
    requires TableOk(messages) && next == MaxSeq(View(messages, KeyOf(user, doc))) + 1
    ensures next !in UsedNumbers(messages, user, doc)
  {
    if next in UsedNumbers(messages, user, doc) {
      var m :| m in messages && m.user == user && m.doc == doc && m.seqNo == next;
      NextNumberIsFree(messages, user, doc, m);
    }
  }

  lemma ViewSnoc(messages: seq<Message>, m: Message, key: Key)
    ensures View(messages + [m], key)
         == if Matches(m, key) then View(messages, key) + [Row(m.seqNo, m.device, m.snap)] else View(messages, key)
  {
    assert (messages + [m])[..|messages|] == messages;
    assert View(messages, key) + [] == View(messages, key);
  }

  lemma AtLeastSnoc(log: Log, row: Row, low: nat)
    ensures AtLeast(log + [row], low) == if row.seqNo >= low then AtLeast(log, low) + [row] else AtLeast(log, low)
  {
    assert (log + [row])[..|log|] == log;
  }

  lemma {:induction false} DeleteBelowView(messages: seq<Message>, key: Key, low: nat)
    ensures View(DeleteBelow(messages, key, low), key) == AtLeast(View(messages, key), low)
  {
    if messages == [] {
      assert DeleteBelow(messages, key, low) == [];
    } else {
      var init, m := messages[..|messages| - 1], messages[|messages| - 1];
      var rest := DeleteBelow(init, key, low);
      DeleteBelowView(init, key, low);
      assert messages == init + [m];
      assert DeleteBelow(messages, key, low) == if Matches(m, key) && m.seqNo < low then rest else rest + [m];
      ViewSnoc(init, m, key);
      ViewSnoc(rest, m, key);
      AtLeastSnoc(View(init, key), Row(m.seqNo, m.device, m.snap), low);
    }
  }

  /** Compacting one document leaves the rows of every other document alone. */
  lemma {:induction false} DeleteBelowOthers(messages: seq<Message>, user: string, doc: string, low: nat, u: string, d: string)
    requires forall m | m in messages :: WellKeyed(m)
    requires KeyOf(u, d) != KeyOf(user, doc)
    ensures View(DeleteBelow(messages, KeyOf(user, doc), low), KeyOf(u, d)) == View(messages, KeyOf(u, d))
  {
    if messages != [] {
      var init, m := messages[..|messages| - 1], messages[|messages| - 1];
      DeleteBelowOthers(init, user, doc, low, u, d);
      MatchesOwnKeyOnly(m, user, doc);
      MatchesOwnKeyOnly(m, u, d);
      var rest := DeleteBelow(init, KeyOf(user, doc), low);
      assert (rest + [m])[..|rest|] == rest && rest + [] == rest;
    }
  }

  ghost predicate TableOk(messages: seq<Message>) {
    && (forall m | m in messages :: WellKeyed(m))
    && forall user, doc :: Ascending(View(messages, KeyOf(user, doc)))
  }

  lemma InsertKeepsAscending(messages: seq<Message>, m: Message, user: string, doc: string)
    requires WellKeyed(m) && Ascending(View(messages, KeyOf(user, doc)))
    requires m.seqNo == MaxSeq(View(messages, KeyOf(m.user, m.doc))) + 1
    ensures Ascending(View(messages + [m], KeyOf(user, doc)))
  {
    InsertView(messages, m, user, doc);
    if KeyOf(m.user, m.doc) == KeyOf(user, doc) {
      AscendingSnoc(View(messages, KeyOf(user, doc)), Row(m.seqNo, m.device, m.snap));
    }
  }

  lemma InsertKeepsTable(messages: seq<Message>, m: Message)
    requires TableOk(messages) && WellKeyed(m)
    requires m.seqNo == MaxSeq(View(messages, KeyOf(m.user, m.doc))) + 1
    ensures TableOk(messages + [m])
  {
    forall user, doc ensures Ascending(View(messages + [m], KeyOf(user, doc))) {
      InsertKeepsAscending(messages, m, user, doc);
    }
  }

  /** The logs of all other documents are the same. */
  ghost predicate OthersStay(before: seq<Message>, after: seq<Message>, key: Key) {
    forall u, d :: KeyOf(u, d) != key ==> View(after, KeyOf(u, d)) == View(before, KeyOf(u, d))
  }

  /** The row that the INSERT selects, numbered MAX(seq) + 1. */
  function NextMessage(messages: seq<Message>, user: string, doc: string, device: DeviceId, snap: set<Change>): (m: Message)
    ensures WellKeyed(m) && m.user == user && m.doc == doc
  {
    var vault := ExtractVaultId(doc);
    Message(user, if vault == "" then None else Some(vault), doc, MaxSeq(View(messages, KeyOf(user, doc))) + 1, device, snap)
  }

  /** The insert succeeds, stores the row in its document's log, and in no other. */
  lemma InsertStores(messages: seq<Message>, user: string, doc: string, device: DeviceId, snap: set<Change>)
    requires TableOk(messages)
    ensures var m := NextMessage(messages, user, doc, device, snap); var log := View(messages, KeyOf(user, doc));
      && m.seqNo !in UsedNumbers(messages, user, doc) && m.seqNo == NewRow(log, device, snap).seqNo
      && TableOk(messages + [m]) && View(messages + [m], KeyOf(user, doc)) == Store(log, device, snap)
      && OthersStay(messages, messages + [m], KeyOf(user, doc))
  {
    var m := NextMessage(messages, user, doc, device, snap);
    NextNumberIsUnused(messages, user, doc, m.seqNo);
    InsertKeepsTable(messages, m);
    InsertIsStored(messages, m);
    InsertLeavesOthers(messages, m);
  }

  lemma InsertIsStored(messages: seq<Message>, m: Message)
    requires WellKeyed(m)
    requires m.seqNo == MaxSeq(View(messages, KeyOf(m.user, m.doc))) + 1
    ensures View(messages + [m], KeyOf(m.user, m.doc)) == Store(View(messages, KeyOf(m.user, m.doc)), m.device, m.snap)
  {
    InsertView(messages, m, m.user, m.doc);
    NumberedRow(View(messages, KeyOf(m.user, m.doc)), m);
  }

  lemma NumberedRow(log: Log, m: Message)
    requires m.seqNo == MaxSeq(log) + 1
    ensures log + [Row(m.seqNo, m.device, m.snap)] == Store(log, m.device, m.snap)
  {
  }

  lemma InsertLeavesOthers(messages: seq<Message>, m: Message)
    requires WellKeyed(m)
    ensures OthersStay(messages, messages + [m], KeyOf(m.user, m.doc))
  {
    forall u, d | KeyOf(u, d) != KeyOf(m.user, m.doc)
      ensures View(messages + [m], KeyOf(u, d)) == View(messages, KeyOf(u, d))
    {
      InsertView(messages, m, u, d);
    }
  }

  lemma CompactKeepsTable(messages: seq<Message>, user: string, doc: string, low: nat)
    requires TableOk(messages)
    ensures TableOk(DeleteBelow(messages, KeyOf(user, doc), low))
  {
    var key := KeyOf(user, doc);
    forall u, d ensures Ascending(View(DeleteBelow(messages, key, low), KeyOf(u, d))) {
      if KeyOf(u, d) == key {
        DeleteBelowView(messages, key, low);
        AtLeastAscending(View(messages, key), low);
      } else {
        DeleteBelowOthers(messages, user, doc, low, u, d);
      }
    }
  }

  class Queries {
    var messages: seq<Message>

    ghost predicate Valid()
      reads this
    {
      TableOk(messages)
    }

    constructor ()
      ensures Valid() && messages == []
    {
      messages := [];
    }

    /**
     StoreMessage and StoreVaultMessage. The insert would fail on a second row with the same
     user, doc and number (the table's UNIQUE constraint); the result shows that it never does.
     */
    method StoreMessage(user: string, doc: string, device: DeviceId, snap: set<Change>) returns (seqNo: Option<nat>)
      requires Valid()
      modifies this
      ensures Valid()
      ensures seqNo == Some(NewRow(old(View(messages, KeyOf(user, doc))), device, snap).seqNo)
      ensures View(messages, KeyOf(user, doc)) == Store(old(View(messages, KeyOf(user, doc))), device, snap)
      ensures OthersStay(old(messages), messages, KeyOf(user, doc))
      ensures old(messages) <= messages
    {
      var m := NextMessage(messages, user, doc, device, snap);
      InsertStores(messages, user, doc, device, snap);
      if m.seqNo in UsedNumbers(messages, user, doc) { return None; }
      messages := messages + [m];
      seqNo := Some(m.seqNo);
    }

    /** CompactDocument and CompactVaultDocument. */
    method CompactDocument(user: string, doc: string)
      requires Valid()
      modifies this
      ensures Valid()
      ensures View(messages, KeyOf(user, doc)) == Compact(old(View(messages, KeyOf(user, doc))))
      ensures OthersStay(old(messages), messages, KeyOf(user, doc))
    {
      var key := KeyOf(user, doc);
      var low := MaxSeq(View(messages, key));
      CompactKeepsTable(messages, user, doc, low);
      DeleteBelowView(messages, key, low);
      forall u, d | KeyOf(u, d) != key { DeleteBelowOthers(messages, user, doc, low, u, d); }
      messages := DeleteBelow(messages, key, low);
    }

    /** GetMessagesSince and GetVaultMessagesSince; the rows come in ascending order. */
    method GetMessagesSince(user: string, doc: string, after: nat) returns (rows: Log)
      requires Valid()
      ensures rows == Since(View(messages, KeyOf(user, doc)), after)
      ensures Ascending(rows)
    {
      rows := Since(View(messages, KeyOf(user, doc)), after);
      AtLeastAscending(View(messages, KeyOf(user, doc)), after + 1);
    }
  }
}
