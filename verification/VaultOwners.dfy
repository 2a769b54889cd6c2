/** Which handlers keep an owner in every vault, and what the others may break. */
module VaultOwners {
  import opened Wrappers
  import opened Vaults

  lemma OwnersAt(db: Db, v: VaultId, u: UserId)
    ensures u in Owners(db, v) <==> RoleOf(db, v, u) == Some(Owner)
  {
    if RoleOf(db, v, u) == Some(Owner) {
      assert Seat(v, u) in db.members && Seat(v, u).user == u;
    }
  }

  lemma SetRoleOwners(db: Db, v: VaultId, u: UserId, role: Role, x: VaultId)
    ensures Owners(SetRole(db, v, u, role), x) ==
              if x != v || RoleOf(db, v, u) == None then Owners(db, x)
              else if role == Owner then Owners(db, x) + {u} else Owners(db, x) - {u}
  {
    var db' := SetRole(db, v, u, role);
    forall w ensures w in Owners(db', x) <==>
        if x != v || RoleOf(db, v, u) == None then w in Owners(db, x)
        else if role == Owner then w in Owners(db, x) + {u} else w in Owners(db, x) - {u}
    {
      OwnersAt(db', x, w);
      OwnersAt(db, x, w);
    }
  }

  lemma SameRolesSameOwners(db: Db, db': Db, v: VaultId)
    requires forall u :: RoleOf(db', v, u) == RoleOf(db, v, u)
    ensures Owners(db', v) == Owners(db, v)
  {
    forall u ensures u in Owners(db', v) <==> u in Owners(db, v) {
      OwnersAt(db', v, u);
      OwnersAt(db, v, u);
    }
  }

  lemma {:induction false} SetKeysKeepsRoles(db: Db, v: VaultId, updates: seq<KeyUpdate>)
    ensures SetKeys(db, v, updates).vaults == db.vaults && SetKeys(db, v, updates).users == db.users
    ensures SetKeys(db, v, updates).members.Keys == db.members.Keys
    ensures forall s | s in db.members ::
              SetKeys(db, v, updates).members[s] == db.members[s].(key := SetKeys(db, v, updates).members[s].key)
    ensures forall s | s in db.members && s.vault != v :: SetKeys(db, v, updates).members[s] == db.members[s]
  {
    if updates != [] { SetKeysKeepsRoles(db, v, updates[..|updates| - 1]); }
  }

  /** Update `i` is the last one that names the user. */
  predicate LastUpdate(updates: seq<KeyUpdate>, u: UserId, i: nat) {
    i < |updates| && updates[i].user == u && forall j :: i < j < |updates| ==> updates[j].user != u
  }

  /** A member's new key is that of the last update that names the member. */
  lemma {:induction false} SetKeysSetsKeys(db: Db, v: VaultId, updates: seq<KeyUpdate>, u: UserId) returns (i: nat)
    requires Seat(v, u) in db.members && u in set k | k in updates :: k.user
    ensures LastUpdate(updates, u, i) && Seat(v, u) in SetKeys(db, v, updates).members
    ensures SetKeys(db, v, updates).members[Seat(v, u)].key == updates[i].key
  {
    var init, last := updates[..|updates| - 1], updates[|updates| - 1];
    SetKeysKeepsRoles(db, v, init);
    if last.user == u {
      i := |updates| - 1;
    } else {
      var k :| k in updates && k.user == u;
      assert k in init;
      i := SetKeysSetsKeys(db, v, init, u);
    }
  }

  /** A successful rotation gives every current member a key of the rotation and changes no role. */
  lemma RotationReachesEveryMember(db: Db, actor: UserId, v: VaultId, updates: seq<KeyUpdate>)
    requires OnRotate(db, actor, v, updates).Some?
    ensures var db' := OnRotate(db, actor, v, updates).value;
            && (forall x, u :: RoleOf(db', x, u) == RoleOf(db, x, u))
            && (forall u | u in MembersOf(db, v) ::
                  Seat(v, u) in db'.members &&
                  exists i: nat :: LastUpdate(updates, u, i) && updates[i].key == db'.members[Seat(v, u)].key)
  {
    SetKeysKeepsRoles(db, v, updates);
    forall u | u in MembersOf(db, v)
      ensures Seat(v, u) in db.members
      ensures exists i: nat :: LastUpdate(updates, u, i) && updates[i].key == SetKeys(db, v, updates).members[Seat(v, u)].key
    {
      var i := SetKeysSetsKeys(db, v, updates, u);
    }
  }

  // ---- one step

  /** An invite overwrites a role: it is safe unless it takes ownership from the only owner. */
  predicate SafeInvite(db: Db, v: VaultId, target: UserId, role: string) {
    InviteRole(role) == Some(Owner) || Owners(db, v) != {target}
  }

  /** The call is refused, or is no invite that demotes a vault's only owner. */
  predicate SafeCall(db: Db, c: Call) {
    Handle(db, c.actor, c.request).None? ||
      (c.request.Invite? ==> SafeInvite(db, c.request.vault, c.request.target, c.request.role))
  }

  lemma CreateKeepsOwned(db: Db, u: UserId, v: VaultId, key: VaultKey)
    requires Owned(db) && OnCreate(db, u, v, key).Some?
    ensures Owned(OnCreate(db, u, v, key).value)
  {
    var db' := OnCreate(db, u, v, key).value;
    OwnersAt(db', v, u);
    forall x | x in db.vaults ensures Owners(db', x) == Owners(db, x) {
      SameRolesSameOwners(db, db', x);
    }
  }

  /** The owners after a successful invite, whoever was a member before. */
  lemma InviteOwners(db: Db, actor: UserId, v: VaultId, target: UserId, key: VaultKey, role: string, x: VaultId)
    requires OnInvite(db, actor, v, target, key, role).Some?
    ensures Owners(OnInvite(db, actor, v, target, key, role).value, x) ==
              if x != v then Owners(db, x)
              else if InviteRole(role) == Some(Owner) then Owners(db, v) + {target} else Owners(db, v) - {target}
  {
    var db' := OnInvite(db, actor, v, target, key, role).value;
    forall w ensures w in Owners(db', x) <==>
        if x != v then w in Owners(db, x)
        else if InviteRole(role) == Some(Owner) then w in Owners(db, v) + {target} else w in Owners(db, v) - {target}
    {
      OwnersAt(db', x, w);
      OwnersAt(db, x, w);
    }
  }

  /**
   An invite upserts the role of an existing member. It leaves every vault owned if and only if
   it grants ownership or the target is not the only owner.
   */
  lemma InviteKeepsOwnedIff(db: Db, actor: UserId, v: VaultId, target: UserId, key: VaultKey, role: string)
    requires Owned(db) && ForeignKeysHold(db) && OnInvite(db, actor, v, target, key, role).Some?
    ensures Owned(OnInvite(db, actor, v, target, key, role).value) <==> SafeInvite(db, v, target, role)
  {
    var db' := OnInvite(db, actor, v, target, key, role).value;
    forall x ensures x != v ==> Owners(db', x) == Owners(db, x) {
      InviteOwners(db, actor, v, target, key, role, x);
    }
    InviteOwners(db, actor, v, target, key, role, v);
    assert db'.vaults == db.vaults && v in db.vaults;
    OnlyElement(Owners(db, v), target);
    if InviteRole(role) == Some(Owner) { assert target in Owners(db', v); }
  }

  lemma OnlyElement(s: set<UserId>, u: UserId)
    requires s != {}
    ensures s - {u} == {} <==> s == {u}
  {
    if s - {u} == {} {
      assert forall w | w in s :: w == u || w in s - {u};
      assert s == {u};
    }
  }

  lemma RemoveOwners(db: Db, v: VaultId, u: UserId, x: VaultId)
    ensures Owners(RemoveMember(db, v, u), x) == if x == v then Owners(db, x) - {u} else Owners(db, x)
  {
    var db' := RemoveMember(db, v, u);
    forall w ensures w in Owners(db', x) <==> if x == v then w in Owners(db, x) - {u} else w in Owners(db, x) {
      OwnersAt(db', x, w);
      OwnersAt(db, x, w);
    }
  }

  lemma RemoveKeepsOwned(db: Db, actor: UserId, v: VaultId, target: UserId)
    requires Owned(db) && OnRemove(db, actor, v, target).Some?
    ensures Owned(OnRemove(db, actor, v, target).value)
  {
    forall x { RemoveOwners(db, v, target, x); }
    OwnersAt(db, v, actor);
    assert actor in Owners(db, v) - {target};
  }

  lemma ChangeRoleKeepsOwned(db: Db, actor: UserId, v: VaultId, target: UserId, role: string)
    requires Owned(db) && OnChangeRole(db, actor, v, target, role).Some?
    ensures Owned(OnChangeRole(db, actor, v, target, role).value)
  {
    var r := ParseRole(role).value;
    forall x { SetRoleOwners(db, v, target, r, x); }
    OwnersAt(db, v, actor);
    assert actor in Owners(db, v) - {target};
  }

  lemma TransferOwners(db: Db, actor: UserId, v: VaultId, target: UserId, x: VaultId)
    requires OnTransfer(db, actor, v, target).Some?
    ensures OnTransfer(db, actor, v, target).value.vaults.Keys == db.vaults.Keys
    ensures Owners(OnTransfer(db, actor, v, target).value, x) ==
            if x == v then Owners(db, v) - {actor} + {target} else Owners(db, x)
  {
    var db1 := SetRole(db, v, actor, Editor);
    var db2 := SetRole(db1, v, target, Owner);
    SetRoleOwners(db, v, actor, Editor, x);
    SetRoleOwners(db1, v, target, Owner, x);
    SameRolesSameOwners(db2, OnTransfer(db, actor, v, target).value, x);
  }

  lemma TransferKeepsOwned(db: Db, actor: UserId, v: VaultId, target: UserId)
    requires Owned(db) && OnTransfer(db, actor, v, target).Some?
    ensures Owned(OnTransfer(db, actor, v, target).value)
    ensures target in Owners(OnTransfer(db, actor, v, target).value, v)
    ensures actor != target ==> actor !in Owners(OnTransfer(db, actor, v, target).value, v)
  {
    var db' := OnTransfer(db, actor, v, target).value;
    forall x | x in db'.vaults ensures Owners(db', x) != {} {
      TransferOwners(db, actor, v, target, x);
    }
    TransferOwners(db, actor, v, target, v);
  }

  lemma DeleteKeepsOwned(db: Db, v: VaultId)
    requires Owned(db)
    ensures Owned(DropVaults(db, {v}))
    ensures v !in DropVaults(db, {v}).vaults && MembersOf(DropVaults(db, {v}), v) == {}
  {
    var db' := DropVaults(db, {v});
    forall x | x in db'.vaults ensures Owners(db', x) == Owners(db, x) {
      SameRolesSameOwners(db, db', x);
    }
  }

  lemma RotateKeepsOwned(db: Db, actor: UserId, v: VaultId, updates: seq<KeyUpdate>)
    requires Owned(db) && OnRotate(db, actor, v, updates).Some?
    ensures Owned(OnRotate(db, actor, v, updates).value)
  {
    SetKeysKeepsRoles(db, v, updates);
    forall x ensures Owners(SetKeys(db, v, updates), x) == Owners(db, x) {
      SameRolesSameOwners(db, SetKeys(db, v, updates), x);
    }
  }

  /** One call leaves every vault owned if and only if it is safe. */
  lemma StepKeepsOwnedIff(db: Db, c: Call)
    requires Owned(db) && ForeignKeysHold(db)
    ensures Owned(Step(db, c)) <==> SafeCall(db, c)
  {
    if Handle(db, c.actor, c.request).Some? {
      match c.request
      case Create(v, key) => CreateKeepsOwned(db, c.actor, v, key);
      case Invite(v, target, key, role) => InviteKeepsOwnedIff(db, c.actor, v, target, key, role);
      case Remove(v, target) => RemoveKeepsOwned(db, c.actor, v, target);
      case ChangeRole(v, target, role) => ChangeRoleKeepsOwned(db, c.actor, v, target, role);
      case Transfer(v, target) => TransferKeepsOwned(db, c.actor, v, target);
      case Rotate(v, updates) => RotateKeepsOwned(db, c.actor, v, updates);
      case Delete(v) => DeleteKeepsOwned(db, v);
    }
  }

  lemma SetRoleKeepsForeignKeys(db: Db, v: VaultId, u: UserId, role: Role)
    requires ForeignKeysHold(db)
    ensures ForeignKeysHold(SetRole(db, v, u, role))
    ensures SetRole(db, v, u, role).users == db.users
  {
  }

  lemma TransferKeepsForeignKeys(db: Db, v: VaultId, current: UserId, next: UserId)
    requires ForeignKeysHold(db) && TransferRows(db, v, current, next).Some?
    ensures ForeignKeysHold(TransferRows(db, v, current, next).value)
  {
    SetRoleKeepsForeignKeys(db, v, current, Editor);
    SetRoleKeepsForeignKeys(SetRole(db, v, current, Editor), v, next, Owner);
    assert Seat(v, next) in db.members;
  }

  lemma InviteKeepsForeignKeys(db: Db, actor: UserId, v: VaultId, target: UserId, key: VaultKey, role: string)
    requires ForeignKeysHold(db) && OnInvite(db, actor, v, target, key, role).Some?
    ensures ForeignKeysHold(OnInvite(db, actor, v, target, key, role).value)
  {
  }

  lemma DropKeepsForeignKeys(db: Db, gone: set<VaultId>)
    requires ForeignKeysHold(db)
    ensures ForeignKeysHold(DropVaults(db, gone))
  {
  }

  lemma StepKeepsForeignKeys(db: Db, c: Call)
    requires ForeignKeysHold(db)
    ensures ForeignKeysHold(Step(db, c))
  {
    if Handle(db, c.actor, c.request).Some? {
      match c.request
      case Create(_, _) =>
      case Invite(v, target, key, role) => InviteKeepsForeignKeys(db, c.actor, v, target, key, role);
      case Remove(_, _) =>
      case ChangeRole(v, target, role) => SetRoleKeepsForeignKeys(db, v, target, ParseRole(role).value);
      case Transfer(v, target) => TransferKeepsForeignKeys(db, v, c.actor, target);
      case Rotate(v, updates) => RotateKeepsForeignKeys(db, v, updates);
      case Delete(v) => DropKeepsForeignKeys(db, {v});
    }
  }

  lemma {:induction false} RotateKeepsForeignKeys(db: Db, v: VaultId, updates: seq<KeyUpdate>)
    requires ForeignKeysHold(db)
    ensures ForeignKeysHold(SetKeys(db, v, updates))
  {
    if updates != [] { RotateKeepsForeignKeys(db, v, updates[..|updates| - 1]); }
  }

  /** Every call of the run is safe at its moment. */
  ghost predicate SafeRun(db: Db, calls: seq<Call>)
    decreases |calls|
  {
    calls == [] || (SafeCall(db, calls[0]) && SafeRun(Step(db, calls[0]), calls[1..]))
  }

  /** Every vault has an owner before and after each call of the run. */
  ghost predicate OwnedThroughout(db: Db, calls: seq<Call>)
    decreases |calls|
  {
    Owned(db) && (calls != [] ==> OwnedThroughout(Step(db, calls[0]), calls[1..]))
  }

  /**
   Owner preservation: over every run of the handlers, every vault keeps an owner throughout if and
   only if no accepted invite takes ownership from a vault's only owner.
   */
  lemma {:induction false} OwnersArePreservedIff(db: Db, calls: seq<Call>)
    requires Owned(db) && ForeignKeysHold(db)
    ensures OwnedThroughout(db, calls) <==> SafeRun(db, calls)
    decreases |calls|
  {
    if calls != [] {
      StepKeepsOwnedIff(db, calls[0]);
      StepKeepsForeignKeys(db, calls[0]);
      if SafeCall(db, calls[0]) {
        OwnersArePreservedIff(Step(db, calls[0]), calls[1..]);
      }
    }
  }

  /** The foreign keys hold after every run of the handlers. */
  lemma {:induction false} RunKeepsForeignKeys(db: Db, calls: seq<Call>)
    requires ForeignKeysHold(db)
    ensures ForeignKeysHold(Run(db, calls))
    decreases |calls|
  {
    if calls != [] {
      StepKeepsForeignKeys(db, calls[0]);
      RunKeepsForeignKeys(Step(db, calls[0]), calls[1..]);
    }
  }

  /**
   The guard of remove and change_role: with an owner as the target, the count of owners is at
   most one exactly when the target is the only owner.
   */
  lemma OwnerCountGuardIff(db: Db, v: VaultId, target: UserId)
    requires RoleOf(db, v, target) == Some(Owner)
    ensures |Owners(db, v)| <= 1 <==> Owners(db, v) == {target}
  {
    OwnersAt(db, v, target);
    var others := Owners(db, v) - {target};
    assert Owners(db, v) == others + {target};
    assert |Owners(db, v)| == |others| + 1;
  }
}
