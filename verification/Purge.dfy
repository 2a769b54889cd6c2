/** Account purge on values: which rows a committed PurgeUser leaves, and when it cannot commit. */
module Purge {
  import opened Wrappers
  import opened Vaults
  import opened VaultOwners
  import DocumentLog

  /** Vaults recorded as created by `u` whose only possible member is `u`. */
  function EmptyVaults(db: Db, u: UserId): set<VaultId> {
    set v | v in db.vaults && db.vaults[v] == u && MembersOf(db, v) <= {u}
  }

  /** Some other member was invited by `u`: the row of `u` in users is still referenced. */
  ghost predicate Blocked(db: Db, u: UserId) {
    exists s :: s in db.members && s.user != u && db.members[s].invitedBy == u
  }

  /** The tables after the transaction; the new created_by of a vault is any of its members. */
  ghost predicate Purged(db: Db, u: UserId, after: Db) {
    && after.users == db.users - {u}
    && after.members == (map s | s in db.members && s.user != u :: db.members[s])
    && after.vaults.Keys == db.vaults.Keys - EmptyVaults(db, u)
    && (forall v | v in after.vaults ::
          if db.vaults[v] == u then after.vaults[v] in MembersOf(after, v) else after.vaults[v] == db.vaults[v])
    && after.devices == (map d | d in db.devices && db.devices[d] != u :: db.devices[d])
    && after.messages == set m | m in db.messages && m.user != u &&
         !(m.device in db.devices && db.devices[m.device] == u) &&
         !(m.vault.Some? && m.vault.value in EmptyVaults(db, u))
  }

  lemma PurgedMembers(db: Db, u: UserId, after: Db, v: VaultId)
    requires Purged(db, u, after)
    ensures MembersOf(after, v) == MembersOf(db, v) - {u}
    ensures Owners(after, v) == Owners(db, v) - {u}
  {
    forall w ensures (w in MembersOf(after, v) <==> w in MembersOf(db, v) - {u}) &&
                     (w in Owners(after, v) <==> w in Owners(db, v) - {u}) {
      OwnersAt(after, v, w);
      OwnersAt(db, v, w);
      assert Seat(v, w) in after.members <==> Seat(v, w) in db.members && w != u;
      SeatOf(after, v, w);
      SeatOf(db, v, w);
    }
  }

  lemma SeatOf(db: Db, v: VaultId, u: UserId)
    ensures u in MembersOf(db, v) <==> Seat(v, u) in db.members
  {
    if Seat(v, u) in db.members { assert Seat(v, u).user == u; }
  }

  /**
   After a purge nothing names the user, no other membership has changed, and every vault the
   user created that had other members is now recorded under one of them.
   */
  lemma PurgedLeavesNoTrace(db: Db, u: UserId, after: Db)
    requires ForeignKeysHold(db) && Purged(db, u, after)
    ensures u !in after.users && forall v :: u !in MembersOf(after, v)
    ensures forall v | v in after.vaults :: after.vaults[v] != u
    ensures forall d | d in after.devices :: after.devices[d] != u
    ensures forall m | m in after.messages :: m.user != u
    ensures forall s | s in db.members && s.user != u :: s in after.members && after.members[s] == db.members[s]
    ensures forall v | v in db.vaults && v !in after.vaults :: db.vaults[v] == u && MembersOf(after, v) == {}
    ensures forall v | v in db.vaults && db.vaults[v] == u && MembersOf(db, v) - {u} != {} ::
              v in after.vaults && after.vaults[v] in MembersOf(db, v) - {u}
  {
    forall v ensures MembersOf(after, v) == MembersOf(db, v) - {u} { PurgedMembers(db, u, after, v); }
  }

  /** The purge can commit exactly when the user invited no remaining member. */
  lemma PurgeKeepsForeignKeysIff(db: Db, u: UserId, after: Db)
    requires ForeignKeysHold(db) && Purged(db, u, after)
    ensures ForeignKeysHold(after) <==> !Blocked(db, u)
  {
    if Blocked(db, u) {
      PurgedLeavesNoTrace(db, u, after);
      var s :| s in db.members && s.user != u && db.members[s].invitedBy == u;
      assert s in after.members && after.members[s].invitedBy !in after.users;
    } else {
      PurgedMembersHold(db, u, after);
      PurgedVaultsHold(db, u, after);
    }
  }

  lemma PurgedMembersHold(db: Db, u: UserId, after: Db)
    requires ForeignKeysHold(db) && Purged(db, u, after) && !Blocked(db, u)
    ensures forall s | s in after.members ::
              s.vault in after.vaults && s.user in after.users && after.members[s].invitedBy in after.users
  {
    forall s | s in after.members
      ensures s.vault in after.vaults && s.user in after.users && after.members[s].invitedBy in after.users
    {
      assert s in db.members && s.user != u;
      SeatOf(db, s.vault, s.user);
    }
  }

  lemma PurgedVaultsHold(db: Db, u: UserId, after: Db)
    requires ForeignKeysHold(db) && Purged(db, u, after)
    ensures forall v | v in after.vaults :: after.vaults[v] in after.users
  {
    forall v | v in after.vaults ensures after.vaults[v] in after.users {
      if db.vaults[v] == u { SeatOf(after, v, after.vaults[v]); }
    }
  }

  /** Every vault still has an owner if and only if the user was not the only owner of a vault that stays. */
  lemma PurgeKeepsOwnedIff(db: Db, u: UserId, after: Db)
    requires Owned(db) && Purged(db, u, after)
    ensures Owned(after) <==> forall v | v in db.vaults && v !in EmptyVaults(db, u) :: Owners(db, v) != {u}
  {
    forall v | v in after.vaults
      ensures Owners(after, v) == {} <==> Owners(db, v) == {u}
    {
      PurgedMembers(db, u, after, v);
      OnlyElement(Owners(db, v), u);
    }
  }

  // ---- the documents of a shared vault

  /** The rows of a shared document. */
  function RowsOf(db: Db, v: VaultId, doc: string): set<Message> {
    set m | m in db.messages && m.vault == Some(v) && m.doc == doc
  }

  /** The newest row of a shared document. */
  ghost predicate IsNewest(db: Db, v: VaultId, doc: string, m: Message) {
    m in RowsOf(db, v, doc) && forall r | r in RowsOf(db, v, doc) && r != m :: r.seqNo < m.seqNo
  }

  /** The row is the user's, or comes from one of the user's devices. */
  predicate WrittenBy(db: Db, u: UserId, m: Message) {
    m.user == u || (m.device in db.devices && db.devices[m.device] == u)
  }

  /**
   A purge also deletes rows of shared vaults that stay. A document's newest row survives if and
   only if it is neither by the user nor from one of the user's devices; if it does not, every row
   left is numbered below it, so numbers that clients have recorded are given out again.
   */
  lemma PurgeKeepsNewestIff(db: Db, u: UserId, after: Db, v: VaultId, doc: string, m: Message)
    requires Purged(db, u, after) && v in after.vaults && IsNewest(db, v, doc, m)
    ensures m in after.messages <==> !WrittenBy(db, u, m)
    ensures WrittenBy(db, u, m) <==> forall r | r in RowsOf(after, v, doc) :: r.seqNo < m.seqNo
  {
    assert v !in EmptyVaults(db, u);
    assert RowsOf(after, v, doc) <= RowsOf(db, v, doc);
    if !WrittenBy(db, u, m) { assert m in RowsOf(after, v, doc); }
  }

  function LogNumbers(log: DocumentLog.Log): set<nat> {
    set r | r in log :: r.seqNo
  }

  function RowNumbers(rows: set<Message>): set<nat> {
    set m | m in rows :: m.seqNo
  }

  predicate AllBelow(numbers: set<nat>, low: nat) {
    forall n | n in numbers :: n < low
  }

  lemma RowsBelow(rows: set<Message>, low: nat)
    ensures AllBelow(RowNumbers(rows), low) <==> forall m | m in rows :: m.seqNo < low
  {
    forall m | m in rows ensures m.seqNo in RowNumbers(rows) {}
  }

  lemma LogBelow(log: DocumentLog.Log, low: nat)
    ensures AllBelow(LogNumbers(log), low) <==> forall r | r in log :: r.seqNo < low
  {
    forall r | r in log ensures r.seqNo in LogNumbers(log) {}
  }

  /** MAX(seq) + 1 is a number given out before exactly when the row with the highest is gone. */
  lemma NextNumber(log: DocumentLog.Log, low: nat, device: DocumentLog.DeviceId, snap: set<DocumentLog.Change>)
    requires low > 0 && AllBelow(LogNumbers(log), low + 1)
    ensures DocumentLog.NewRow(log, device, snap).seqNo <= low <==> AllBelow(LogNumbers(log), low)
  {
    LogBelow(log, low);
  }

  lemma NothingSince(log: DocumentLog.Log, low: nat)
    ensures DocumentLog.Since(log, low) == [] <==> forall r | r in log :: r.seqNo <= low
  {
    if DocumentLog.Since(log, low) == [] {
      forall r | r in log ensures r.seqNo <= low { assert r !in DocumentLog.Since(log, low); }
    } else {
      assert DocumentLog.Since(log, low)[0] in DocumentLog.Since(log, low);
    }
  }

  /**
   What the purge does to a device that had recorded the newest number: the next snapshot that is
   stored gets a number the device takes for known, and subscribing brings it nothing, if and only
   if the newest row was the user's or from one of the user's devices.
   */
  lemma PurgeReusesNumbersIff(db: Db, u: UserId, after: Db, v: VaultId, doc: string, m: Message,
                              log: DocumentLog.Log, device: DocumentLog.DeviceId, snap: set<DocumentLog.Change>)
    requires Purged(db, u, after) && v in after.vaults && IsNewest(db, v, doc, m) && m.seqNo > 0
    requires LogNumbers(log) == RowNumbers(RowsOf(after, v, doc))
    ensures WrittenBy(db, u, m) <==> DocumentLog.NewRow(log, device, snap).seqNo <= m.seqNo
    ensures WrittenBy(db, u, m) <==> DocumentLog.Since(DocumentLog.Store(log, device, snap), m.seqNo) == []
  {
    PurgeKeepsNewestIff(db, u, after, v, doc, m);
    RowsBelow(RowsOf(after, v, doc), m.seqNo);
    PurgedNumbers(db, u, after, v, doc, m);
    NextNumber(log, m.seqNo, device, snap);
    NextIsSentIff(log, m.seqNo, device, snap);
  }

  lemma PurgedNumbers(db: Db, u: UserId, after: Db, v: VaultId, doc: string, m: Message)
    requires Purged(db, u, after) && IsNewest(db, v, doc, m)
    ensures AllBelow(RowNumbers(RowsOf(after, v, doc)), m.seqNo + 1)
  {
    assert RowsOf(after, v, doc) <= RowsOf(db, v, doc);
    RowsBelow(RowsOf(after, v, doc), m.seqNo + 1);
  }

  lemma NextIsSentIff(log: DocumentLog.Log, low: nat, device: DocumentLog.DeviceId, snap: set<DocumentLog.Change>)
    requires AllBelow(LogNumbers(log), low + 1)
    ensures DocumentLog.Since(DocumentLog.Store(log, device, snap), low) == [] <==> DocumentLog.NewRow(log, device, snap).seqNo <= low
  {
    var row := DocumentLog.NewRow(log, device, snap);
    LogBelow(log, low + 1);
    NothingSince(DocumentLog.Store(log, device, snap), low);
    assert forall r :: r in DocumentLog.Store(log, device, snap) <==> r in log || r == row;
  }

  // ---- runs that lose an owner or block a purge

  function SomeKey(): VaultKey {
    VaultKey("k", "p")
  }

  /** Three users, and nothing else. */
  function ThreeUsers(): Db {
    Db(map["ann" := true, "bob" := true, "cy" := true], map[], map[], map[], {})
  }

  lemma ThreeUsersOk()
    ensures Owned(ThreeUsers()) && ForeignKeysHold(ThreeUsers())
  {
  }

  lemma OneCall(db: Db, c: Call, db': Db)
    requires Step(db, c) == db'
    ensures Run(db, [c]) == db'
  {
    assert [c][1..] == [];
  }

  lemma {:induction false} RunJoin(db: Db, first: seq<Call>, second: seq<Call>)
    ensures Run(db, first + second) == Run(Run(db, first), second)
    decreases |first|
  {
    if first == [] {
      assert first + second == second;
    } else {
      assert (first + second)[0] == first[0] && (first + second)[1..] == first[1..] + second;
      RunJoin(Step(db, first[0]), first[1..], second);
    }
  }

  /** Ann creates a vault and invites an editor. */
  function WithEditor(u: UserId): Db {
    ThreeUsers().(vaults := map["v" := "ann"],
                  members := map[Seat("v", "ann") := Member(SomeKey(), Owner, "ann"), Seat("v", u) := Member(SomeKey(), Editor, "ann")])
  }

  lemma InvitesEditor(u: UserId) returns (calls: seq<Call>)
    requires u == "bob" || u == "cy"
    ensures Run(ThreeUsers(), calls) == WithEditor(u)
  {
    var alone := ThreeUsers().(vaults := map["v" := "ann"], members := map[Seat("v", "ann") := Member(SomeKey(), Owner, "ann")]);
    var create := Call("ann", Create("v", SomeKey()));
    assert Step(ThreeUsers(), create) == alone;
    OneCall(ThreeUsers(), create, alone);
    var invite := Call("ann", Invite("v", u, SomeKey(), "editor"));
    assert Step(alone, invite) == WithEditor(u);
    OneCall(alone, invite, WithEditor(u));
    RunJoin(ThreeUsers(), [create], [invite]);
    calls := [create] + [invite];
  }

  /** A purge is blocked after the simplest run: the user has created a vault and invited somebody. */
  lemma PurgeCanBeBlocked() returns (calls: seq<Call>)
    ensures Owned(ThreeUsers()) && ForeignKeysHold(ThreeUsers())
    ensures Blocked(Run(ThreeUsers(), calls), "ann")
  {
    ThreeUsersOk();
    calls := InvitesEditor("bob");
    assert Seat("v", "bob") in WithEditor("bob").members;
  }

  /** Cy, an editor, invites Bob and is removed by Ann. */
  function WithGuest(): Db {
    ThreeUsers().(vaults := map["v" := "ann"],
                  members := map[Seat("v", "ann") := Member(SomeKey(), Owner, "ann"), Seat("v", "bob") := Member(SomeKey(), Editor, "cy")])
  }

  lemma InvitesGuest() returns (calls: seq<Call>)
    ensures Run(ThreeUsers(), calls) == WithGuest()
  {
    var first := InvitesEditor("cy");
    var db := WithEditor("cy");
    var invite := Call("cy", Invite("v", "bob", SomeKey(), "editor"));
    var both := db.(members := db.members[Seat("v", "bob") := Member(SomeKey(), Editor, "cy")]);
    assert Step(db, invite) == both;
    OneCall(db, invite, both);
    var remove := Call("ann", Remove("v", "cy"));
    assert Step(both, remove).members == WithGuest().members;
    OneCall(both, remove, WithGuest());
    RunJoin(db, [invite], [remove]);
    RunJoin(ThreeUsers(), first, [invite] + [remove]);
    calls := first + ([invite] + [remove]);
  }

  /**
   A run after which a purge can commit and leaves a shared vault without an owner: the editor
   who stays only becomes created_by.
   */
  lemma PurgeCanOrphanVault(after: Db) returns (calls: seq<Call>)
    ensures Owned(ThreeUsers()) && ForeignKeysHold(ThreeUsers())
    ensures var db := Run(ThreeUsers(), calls);
      && Owned(db) && ForeignKeysHold(db) && !Blocked(db, "ann")
      && (Purged(db, "ann", after) ==> "v" in after.vaults && Owners(after, "v") == {})
  {
    ThreeUsersOk();
    calls := InvitesGuest();
    RunKeepsForeignKeys(ThreeUsers(), calls);
    GuestIsLeft(after);
  }

  lemma GuestIsLeft(after: Db)
    ensures Owned(WithGuest()) && !Blocked(WithGuest(), "ann")
    ensures Purged(WithGuest(), "ann", after) ==> "v" in after.vaults && Owners(after, "v") == {}
  {
    var db := WithGuest();
    OwnersAt(db, "v", "ann");
    SeatOf(db, "v", "bob");
    assert Owners(db, "v") == {"ann"};
    if Purged(db, "ann", after) { PurgedMembers(db, "ann", after, "v"); }
  }

  /** A run after which an editor's accepted invite demotes the only owner of a vault. */
  lemma InviteCanOrphanVault() returns (calls: seq<Call>, call: Call)
    ensures Owned(ThreeUsers()) && ForeignKeysHold(ThreeUsers()) && call.request.Invite?
    ensures var db := Run(ThreeUsers(), calls);
      Owned(db) && Handle(db, call.actor, call.request).Some? && !Owned(Step(db, call))
  {
    ThreeUsersOk();
    calls := InvitesEditor("bob");
    var db := WithEditor("bob");
    call := Call("bob", Invite("v", "ann", SomeKey(), "viewer"));
    RunKeepsForeignKeys(ThreeUsers(), calls);
    OwnersAt(db, "v", "ann");
    assert Owners(db, "v") == {"ann"};
    InviteKeepsOwnedIff(db, "bob", "v", "ann", SomeKey(), "viewer");
  }
}
