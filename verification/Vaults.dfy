/**
 Vault membership on values: the tables users, vaults, vault_members, devices and sync_messages
 with their foreign keys, and the handlers that change roles. Each handler is one step.
 */
module Vaults {
  import opened Wrappers

  type UserId = string
  type VaultId = string
  type DeviceId = string

  datatype Role = Owner | Editor | Viewer

  function ParseRole(s: string): Option<Role> {
    if s == "owner" then Some(Owner)
    else if s == "editor" then Some(Editor)
    else if s == "viewer" then Some(Viewer)
    else None
  }

  datatype VaultKey = VaultKey(encrypted: string, senderPublicKey: string)
  datatype Member = Member(key: VaultKey, role: Role, invitedBy: UserId)
  datatype Seat = Seat(vault: VaultId, user: UserId)
  datatype Message = Message(user: UserId, vault: Option<VaultId>, doc: string, seqNo: nat, device: DeviceId)
  datatype KeyUpdate = KeyUpdate(user: UserId, key: VaultKey)

  /** `users` maps a user to whether a public key is stored; `vaults` maps a vault to created_by. */
  datatype Db = Db(users: map<UserId, bool>, vaults: map<VaultId, UserId>, members: map<Seat, Member>,
                   devices: map<DeviceId, UserId>, messages: set<Message>)

  /** The foreign keys of the schema. */
  ghost predicate ForeignKeysHold(db: Db) {
    && (forall v | v in db.vaults :: db.vaults[v] in db.users)
    && (forall s | s in db.members :: s.vault in db.vaults && s.user in db.users && db.members[s].invitedBy in db.users)
    && (forall d | d in db.devices :: db.devices[d] in db.users)
    && (forall m | m in db.messages ::
          m.user in db.users && m.device in db.devices && (m.vault.Some? ==> m.vault.value in db.vaults))
  }

  function RoleOf(db: Db, v: VaultId, u: UserId): Option<Role> {
    if Seat(v, u) in db.members then Some(db.members[Seat(v, u)].role) else None
  }

  function Owners(db: Db, v: VaultId): set<UserId> {
    set s | s in db.members && s.vault == v && db.members[s].role == Owner :: s.user
  }

  function UsersIn(members: map<Seat, Member>, v: VaultId): set<UserId> {
    set s | s in members && s.vault == v :: s.user
  }

  function MembersOf(db: Db, v: VaultId): set<UserId> {
    UsersIn(db.members, v)
  }

  /** Every vault has an owner. */
  ghost predicate Owned(db: Db) {
    forall v | v in db.vaults :: Owners(db, v) != {}
  }

  // ---- statements

  function SetRole(db: Db, v: VaultId, u: UserId, role: Role): Db {
    var s := Seat(v, u);
    if s in db.members then db.(members := db.members[s := db.members[s].(role := role)]) else db
  }

  function SetKey(db: Db, v: VaultId, u: UserId, key: VaultKey): Db {
    var s := Seat(v, u);
    if s in db.members then db.(members := db.members[s := db.members[s].(key := key)]) else db
  }

  function SetKeys(db: Db, v: VaultId, updates: seq<KeyUpdate>): Db {
    if updates == [] then db
    else
      var last := updates[|updates| - 1];
      SetKey(SetKeys(db, v, updates[..|updates| - 1]), v, last.user, last.key)
  }

  /** INSERT into vaults and vault_members; None when a constraint fails. */
  function CreateVault(db: Db, v: VaultId, u: UserId, key: VaultKey): Option<Db> {
    if v in db.vaults || u !in db.users then None
    else Some(db.(vaults := db.vaults[v := u], members := db.members[Seat(v, u) := Member(key, Owner, u)]))
  }

  /** INSERT ... ON CONFLICT DO UPDATE: an existing member gets the new key and role. */
  function AddMember(db: Db, v: VaultId, u: UserId, key: VaultKey, role: Role, invitedBy: UserId): Option<Db> {
    var s := Seat(v, u);
    if v !in db.vaults || u !in db.users || invitedBy !in db.users then None
    else Some(db.(members := db.members[s := Member(key, role, if s in db.members then db.members[s].invitedBy else invitedBy)]))
  }

  function RemoveMember(db: Db, v: VaultId, u: UserId): Db {
    db.(members := db.members - {Seat(v, u)})
  }

  /** The cascades from vaults to vault_members and sync_messages. */
  function DropVaults(db: Db, gone: set<VaultId>): Db {
    db.(vaults := db.vaults - gone,
        members := map s | s in db.members && s.vault !in gone :: db.members[s],
        messages := set m | m in db.messages && !(m.vault.Some? && m.vault.value in gone))
  }

  // ---- handlers, with `actor` the connected user

  datatype Request =
    | Create(vault: VaultId, key: VaultKey)
    | Invite(vault: VaultId, target: UserId, key: VaultKey, role: string)
    | Remove(vault: VaultId, target: UserId)
    | ChangeRole(vault: VaultId, target: UserId, role: string)
    | Transfer(vault: VaultId, target: UserId)
    | Rotate(vault: VaultId, updates: seq<KeyUpdate>)
    | Delete(vault: VaultId)

  /** A role left out means viewer. */
  function InviteRole(s: string): Option<Role> {
    if s == "" then Some(Viewer) else ParseRole(s)
  }

  function OnInvite(db: Db, actor: UserId, v: VaultId, target: UserId, key: VaultKey, role: string): Option<Db> {
    var mine := RoleOf(db, v, actor);
    if v == "" || target == "" || key.encrypted == "" then None
    else if mine != Some(Owner) && mine != Some(Editor) then None
    else if target !in db.users || !db.users[target] then None
    else match InviteRole(role)
      case None => None
      case Some(r) => AddMember(db, v, target, key, r, actor)
  }

  function OnRemove(db: Db, actor: UserId, v: VaultId, target: UserId): Option<Db> {
    if v == "" || target == "" || RoleOf(db, v, actor) != Some(Owner) || target == actor then None
    else if RoleOf(db, v, target) == Some(Owner) && |Owners(db, v)| <= 1 then None
    else Some(RemoveMember(db, v, target))
  }

  function OnChangeRole(db: Db, actor: UserId, v: VaultId, target: UserId, role: string): Option<Db> {
    match ParseRole(role)
    case None => None
    case Some(r) =>
      if v == "" || target == "" || RoleOf(db, v, actor) != Some(Owner) || target == actor then None
      else if RoleOf(db, v, target) == Some(Owner) && r != Owner && |Owners(db, v)| <= 1 then None
      else Some(SetRole(db, v, target, r))
  }

  function OnCreate(db: Db, actor: UserId, v: VaultId, key: VaultKey): Option<Db> {
    if v == "" || key.encrypted == "" then None else CreateVault(db, v, actor, key)
  }

  /** The statements of TransferOwnership, in one transaction. */
  function TransferRows(db: Db, v: VaultId, current: UserId, next: UserId): Option<Db> {
    if RoleOf(db, v, current) != Some(Owner) || RoleOf(db, v, next) == None then None
    else
      var db' := SetRole(SetRole(db, v, current, Editor), v, next, Owner);
      Some(if v in db'.vaults then db'.(vaults := db'.vaults[v := next]) else db')
  }

  function OnTransfer(db: Db, actor: UserId, v: VaultId, target: UserId): Option<Db> {
    if v == "" || target == "" then None else TransferRows(db, v, actor, target)
  }

  function OnRotate(db: Db, actor: UserId, v: VaultId, updates: seq<KeyUpdate>): Option<Db> {
    if v == "" || updates == [] || RoleOf(db, v, actor) != Some(Owner) then None
    else if !(MembersOf(db, v) <= set k | k in updates :: k.user) then None
    else Some(SetKeys(db, v, updates))
  }

  function OnDelete(db: Db, actor: UserId, v: VaultId): Option<Db> {
    if v == "" || RoleOf(db, v, actor) != Some(Owner) then None else Some(DropVaults(db, {v}))
  }

  /** None is an error reply, which changes nothing. */
  function Handle(db: Db, actor: UserId, r: Request): Option<Db> {
    match r
    case Create(v, key) => OnCreate(db, actor, v, key)
    case Invite(v, target, key, role) => OnInvite(db, actor, v, target, key, role)
    case Remove(v, target) => OnRemove(db, actor, v, target)
    case ChangeRole(v, target, role) => OnChangeRole(db, actor, v, target, role)
    case Transfer(v, target) => OnTransfer(db, actor, v, target)
    case Rotate(v, updates) => OnRotate(db, actor, v, updates)
    case Delete(v) => OnDelete(db, actor, v)
  }

  datatype Call = Call(actor: UserId, request: Request)

  function Step(db: Db, c: Call): Db {
    Handle(db, c.actor, c.request).GetOr(db)
  }

  function Run(db: Db, calls: seq<Call>): Db
    decreases |calls|
  {
    if calls == [] then db else Run(Step(db, calls[0]), calls[1..])
  }
}
