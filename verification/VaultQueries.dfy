/**
 The vault statements and handlers as the server runs them: the tables are fields updated in
 place, statement by statement. A transaction that fails puts them back.
 */
module VaultQueries {
  import opened Wrappers
  import opened Vaults
  import opened VaultOwners
  import opened Purge

  class Queries {
    var users: map<UserId, bool>
    var vaults: map<VaultId, UserId>
    var members: map<Seat, Member>
    var devices: map<DeviceId, UserId>
    var messages: set<Message>

    function Model(): Db
      reads this
    {
      Db(users, vaults, members, devices, messages)
    }

    constructor (users: map<UserId, bool>)
      ensures Model() == Db(users, map[], map[], map[], {})
    {
      this.users := users;
      vaults, members, devices, messages := map[], map[], map[], {};
    }

    /** IsVaultMember: None for no row. */
    method IsVaultMember(vaultId: VaultId, userId: UserId) returns (role: Option<Role>)
      ensures role == RoleOf(Model(), vaultId, userId)
    {
      role := if Seat(vaultId, userId) in members then Some(members[Seat(vaultId, userId)].role) else None;
    }

    method CountVaultOwners(vaultId: VaultId) returns (count: nat)
      ensures count == |Owners(Model(), vaultId)|
    {
      count := |set s | s in members && s.vault == vaultId && members[s].role == Owner :: s.user|;
    }

    method CreateVault(vaultId: VaultId, creator: UserId, key: VaultKey) returns (ok: bool)
      modifies this
      ensures ok == Vaults.CreateVault(old(Model()), vaultId, creator, key).Some?
      ensures Model() == Vaults.CreateVault(old(Model()), vaultId, creator, key).GetOr(old(Model()))
    {
      if vaultId in vaults || creator !in users { return false; }
      vaults := vaults[vaultId := creator];
      members := members[Seat(vaultId, creator) := Member(key, Owner, creator)];
      ok := true;
    }

    method AddVaultMember(vaultId: VaultId, userId: UserId, key: VaultKey, role: Role, invitedBy: UserId) returns (ok: bool)
      modifies this
      ensures ok == AddMember(old(Model()), vaultId, userId, key, role, invitedBy).Some?
      ensures Model() == AddMember(old(Model()), vaultId, userId, key, role, invitedBy).GetOr(old(Model()))
    {
      if vaultId !in vaults || userId !in users || invitedBy !in users { return false; }
      var s := Seat(vaultId, userId);
      if s in members {
        members := members[s := members[s].(key := key, role := role)];
      } else {
        members := members[s := Member(key, role, invitedBy)];
      }
      ok := true;
    }

    method RemoveVaultMember(vaultId: VaultId, userId: UserId)
      modifies this
      ensures Model() == RemoveMember(old(Model()), vaultId, userId)
    {
      members := members - {Seat(vaultId, userId)};
    }

    method ChangeRole(vaultId: VaultId, userId: UserId, role: Role)
      modifies this
      ensures Model() == SetRole(old(Model()), vaultId, userId, role)
    {
      var s := Seat(vaultId, userId);
      if s in members {
        members := members[s := members[s].(role := role)];
      }
    }

    /** Demotes before it promotes, so transferring to oneself keeps the ownership. */
    method TransferOwnership(vaultId: VaultId, current: UserId, next: UserId) returns (ok: bool)
      modifies this
      ensures ok == TransferRows(old(Model()), vaultId, current, next).Some?
      ensures Model() == TransferRows(old(Model()), vaultId, current, next).GetOr(old(Model()))
    {
      var currentRole := IsVaultMember(vaultId, current);
      if currentRole != Some(Owner) { return false; }
      var newRole := IsVaultMember(vaultId, next);
      if newRole == None { return false; }
      ChangeRole(vaultId, current, Editor);
      ChangeRole(vaultId, next, Owner);
      if vaultId in vaults {
        vaults := vaults[vaultId := next];
      }
      ok := true;
    }

    method RotateVaultKeys(vaultId: VaultId, updates: seq<KeyUpdate>)
      modifies this
      ensures Model() == SetKeys(old(Model()), vaultId, updates)
    {
      for i := 0 to |updates|
        invariant Model() == SetKeys(old(Model()), vaultId, updates[..i])
      {
        assert updates[..i + 1][..i] == updates[..i];
        var s := Seat(vaultId, updates[i].user);
        if s in members {
          members := members[s := members[s].(key := updates[i].key)];
        }
      }
      assert updates[..|updates|] == updates;
    }

    method DeleteVault(vaultId: VaultId)
      modifies this
      ensures Model() == DropVaults(old(Model()), {vaultId})
    {
      messages := set m | m in messages && m.vault != Some(vaultId);
      vaults := vaults - {vaultId};
      members := map s | s in members && s.vault != vaultId :: members[s];
      assert messages == DropVaults(old(Model()), {vaultId}).messages;
      assert members == DropVaults(old(Model()), {vaultId}).members;
    }

    /** Gives the listed vaults, which all have members, a member as created_by. */
    method RecordNewCreators(todo: set<VaultId>)
      requires forall v | v in todo :: v in vaults && UsersIn(members, v) != {}
      modifies this`vaults
      ensures vaults.Keys == old(vaults.Keys)
      ensures forall v | v in vaults :: if v in todo then vaults[v] in UsersIn(members, v) else vaults[v] == old(vaults[v])
    {
      var rest := todo;
      while rest != {}
        invariant rest <= todo && vaults.Keys == old(vaults.Keys)
        invariant forall v | v in vaults && (v !in todo || v in rest) :: vaults[v] == old(vaults[v])
        invariant forall v | v in todo && v !in rest :: vaults[v] in UsersIn(members, v)
        decreases rest
      {
        var v :| v in rest;
        var u :| u in UsersIn(members, v);
        vaults := vaults[v := u];
        rest := rest - {v};
      }
    }

    /** Steps 2 and 3: vaults the user created that are left without members, with their messages. */
    method DropEmptyVaults(userId: UserId) returns (gone: set<VaultId>)
      modifies this`vaults, this`messages
      ensures gone == set v | v in old(vaults) && old(vaults)[v] == userId && UsersIn(members, v) == {}
      ensures vaults == old(vaults) - gone
      ensures messages == set m | m in old(messages) && !(m.vault.Some? && m.vault.value in gone)
    {
      gone := set v | v in vaults && vaults[v] == userId && UsersIn(members, v) == {};
      messages := set m | m in messages && !(m.vault.Some? && m.vault.value in gone);
      vaults := vaults - gone;
    }

    /** Steps 5 to 7: personal messages, devices and the user, with the cascades to sync_messages. */
    method DropUser(userId: UserId)
      modifies this`messages, this`devices, this`users
      ensures users == old(users) - {userId}
      ensures devices == map d | d in old(devices) && old(devices)[d] != userId :: old(devices)[d]
      ensures messages == set m | m in old(messages) && m.user != userId &&
                            !(m.device in old(devices) && old(devices)[m.device] == userId)
    {
      messages := set m | m in messages && !(m.user == userId && m.vault == None);
      var gone := set d | d in devices && devices[d] == userId;
      devices := map d | d in devices && devices[d] != userId :: devices[d];
      messages := set m | m in messages && m.device !in gone;
      users := users - {userId};
      messages := set m | m in messages && m.user != userId;
    }

    /** Steps 1 to 4: memberships, vaults left empty, and the creators of the others. */
    method SettleVaults(userId: UserId)
      modifies this`members, this`vaults, this`messages
      ensures members == map s | s in old(members) && s.user != userId :: old(members)[s]
      ensures vaults.Keys == old(vaults.Keys) - EmptyVaults(old(Model()), userId)
      ensures forall v | v in vaults ::
        if old(vaults)[v] == userId then vaults[v] in UsersIn(members, v) else vaults[v] == old(vaults)[v]
      ensures messages == set m | m in old(messages) && !(m.vault.Some? && m.vault.value in EmptyVaults(old(Model()), userId))
    {
      members := map s | s in members && s.user != userId :: members[s];
      VaultsLeft(old(Model()), userId, members);
      var gone := DropEmptyVaults(userId);
      var inherited := set v | v in vaults && vaults[v] == userId;
      RecordNewCreators(inherited);
    }

    /** All the deletions and updates of PurgeUser. */
    method DeleteRows(userId: UserId)
      modifies this
      ensures Purged(old(Model()), userId, Model())
    {
      SettleVaults(userId);
      DropUser(userId);
      StepsPurge(old(Model()), userId, Model());
    }

    /** Once the memberships are gone, the vaults without members are those to delete. */
    static lemma VaultsLeft(db: Db, u: UserId, others: map<Seat, Member>)
      requires others == map s | s in db.members && s.user != u :: db.members[s]
      ensures (set v | v in db.vaults && db.vaults[v] == u && UsersIn(others, v) == {}) == EmptyVaults(db, u)
      ensures forall v | v in db.vaults - EmptyVaults(db, u) && db.vaults[v] == u :: UsersIn(others, v) != {}
    {
      OtherUsers(db, u, others);
    }

    /** The deletions and updates, put together. */
    static lemma StepsPurge(db: Db, u: UserId, after: Db)
      requires after.vaults.Keys == db.vaults.Keys - EmptyVaults(db, u)
      requires forall v | v in after.vaults ::
        if db.vaults[v] == u then after.vaults[v] in UsersIn(after.members, v) else after.vaults[v] == db.vaults[v]
      requires after.users == db.users - {u}
      requires after.members == map s | s in db.members && s.user != u :: db.members[s]
      requires after.devices == map d | d in db.devices && db.devices[d] != u :: db.devices[d]
      requires after.messages == set m | m in db.messages && !(m.vault.Some? && m.vault.value in EmptyVaults(db, u)) &&
                                   m.user != u && !(m.device in db.devices && db.devices[m.device] == u)
      ensures Purged(db, u, after)
    {
    }

    /** The transaction fails, and changes nothing, exactly when the user invited a remaining member. */
    method PurgeUser(userId: UserId) returns (ok: bool)
      modifies this
      ensures ok == !Blocked(old(Model()), userId)
      ensures if ok then Purged(old(Model()), userId, Model()) else Model() == old(Model())
    {
      var tables := Model();
      DeleteRows(userId);
      // the delete from users fails while a row still names the user as invited_by
      ok := !(exists s | s in members :: members[s].invitedBy == userId);
      assert ok == !Blocked(tables, userId) by { StillNamed(tables, userId, Model()); }
      if !ok {
        users, vaults, members, devices, messages := tables.users, tables.vaults, tables.members, tables.devices, tables.messages;
      }
    }

    static lemma StillNamed(db: Db, u: UserId, after: Db)
      requires Purged(db, u, after)
      ensures (exists s :: s in after.members && after.members[s].invitedBy == u) <==> Blocked(db, u)
    {
      if s :| s in db.members && s.user != u && db.members[s].invitedBy == u {
        assert s in after.members;
      }
    }

    static lemma OtherUsers(db: Db, u: UserId, others: map<Seat, Member>)
      requires others == map s | s in db.members && s.user != u :: db.members[s]
      ensures forall v :: UsersIn(others, v) == MembersOf(db, v) - {u}
    {
      forall v, w ensures w in UsersIn(others, v) <==> w in MembersOf(db, v) - {u} {
        if w in UsersIn(others, v) {
          assert Seat(v, w) in others;
        }
        if w in MembersOf(db, v) - {u} {
          assert Seat(v, w) in db.members;
          assert Seat(v, w) in others && Seat(v, w).user == w;
        }
      }
    }
  }

  /** A connection's handlers; a refused request changes nothing. */
  class Client {
    const userId: UserId
    const queries: Queries

    constructor (userId: UserId, queries: Queries)
      ensures this.userId == userId && this.queries == queries
    {
      this.userId, this.queries := userId, queries;
    }

    method HandleCreateVault(vaultId: VaultId, key: VaultKey) returns (ok: bool)
      modifies queries
      ensures ok == Handle(old(queries.Model()), userId, Create(vaultId, key)).Some?
      ensures queries.Model() == Step(old(queries.Model()), Call(userId, Create(vaultId, key)))
    {
      if vaultId == "" || key.encrypted == "" { return false; }
      ok := queries.CreateVault(vaultId, userId, key);
    }

    method HandleInviteToVault(vaultId: VaultId, target: UserId, key: VaultKey, role: string) returns (ok: bool)
      modifies queries
      ensures ok == Handle(old(queries.Model()), userId, Invite(vaultId, target, key, role)).Some?
      ensures queries.Model() == Step(old(queries.Model()), Call(userId, Invite(vaultId, target, key, role)))
    {
      if vaultId == "" || target == "" || key.encrypted == "" { return false; }
      var mine := queries.IsVaultMember(vaultId, userId);
      if mine != Some(Owner) && mine != Some(Editor) { return false; }
      if target !in queries.users || !queries.users[target] { return false; }
      var inviteRole := if role == "" then "viewer" else role;
      var parsed := ParseRole(inviteRole);
      if parsed == None { return false; }
      ok := queries.AddVaultMember(vaultId, target, key, parsed.value, userId);
    }

    method HandleRemoveFromVault(vaultId: VaultId, target: UserId) returns (ok: bool)
      modifies queries
      ensures ok == Handle(old(queries.Model()), userId, Remove(vaultId, target)).Some?
      ensures queries.Model() == Step(old(queries.Model()), Call(userId, Remove(vaultId, target)))
    {
      if vaultId == "" || target == "" { return false; }
      var mine := queries.IsVaultMember(vaultId, userId);
      if mine != Some(Owner) || target == userId { return false; }
      var targetRole := queries.IsVaultMember(vaultId, target);
      if targetRole == Some(Owner) {
        var ownerCount := queries.CountVaultOwners(vaultId);
        if ownerCount <= 1 { return false; }
      }
      queries.RemoveVaultMember(vaultId, target);
      ok := true;
    }

    method HandleChangeRole(vaultId: VaultId, target: UserId, newRole: string) returns (ok: bool)
      modifies queries
      ensures ok == Handle(old(queries.Model()), userId, Request.ChangeRole(vaultId, target, newRole)).Some?
      ensures queries.Model() == Step(old(queries.Model()), Call(userId, Request.ChangeRole(vaultId, target, newRole)))
    {
      if vaultId == "" || target == "" || newRole == "" { return false; }
      var parsed := ParseRole(newRole);
      if parsed == None { return false; }
      var mine := queries.IsVaultMember(vaultId, userId);
      if mine != Some(Owner) || target == userId { return false; }
      var targetRole := queries.IsVaultMember(vaultId, target);
      if targetRole == Some(Owner) && parsed.value != Owner {
        var ownerCount := queries.CountVaultOwners(vaultId);
        if ownerCount <= 1 { return false; }
      }
      queries.ChangeRole(vaultId, target, parsed.value);
      ok := true;
    }

    method HandleTransferOwnership(vaultId: VaultId, target: UserId) returns (ok: bool)
      modifies queries
      ensures ok == Handle(old(queries.Model()), userId, Transfer(vaultId, target)).Some?
      ensures queries.Model() == Step(old(queries.Model()), Call(userId, Transfer(vaultId, target)))
    {
      if vaultId == "" || target == "" { return false; }
      var mine := queries.IsVaultMember(vaultId, userId);
      if mine != Some(Owner) { return false; }
      ok := queries.TransferOwnership(vaultId, userId, target);
    }

    method HandleRotateVaultKey(vaultId: VaultId, updates: seq<KeyUpdate>) returns (ok: bool)
      modifies queries
      ensures ok == Handle(old(queries.Model()), userId, Rotate(vaultId, updates)).Some?
      ensures queries.Model() == Step(old(queries.Model()), Call(userId, Rotate(vaultId, updates)))
    {
      if vaultId == "" || updates == [] { return false; }
      var mine := queries.IsVaultMember(vaultId, userId);
      if mine != Some(Owner) { return false; }
      var currentMembers := MembersOf(queries.Model(), vaultId);
      var updateUserIds := set k | k in updates :: k.user;
      if !(currentMembers <= updateUserIds) { return false; }
      queries.RotateVaultKeys(vaultId, updates);
      ok := true;
    }

    method HandleDeleteVault(vaultId: VaultId) returns (ok: bool)
      modifies queries
      ensures ok == Handle(old(queries.Model()), userId, Delete(vaultId)).Some?
      ensures queries.Model() == Step(old(queries.Model()), Call(userId, Delete(vaultId)))
    {
      if vaultId == "" { return false; }
      var mine := queries.IsVaultMember(vaultId, userId);
      if mine != Some(Owner) { return false; }
      queries.DeleteVault(vaultId);
      ok := true;
    }
  }
}
