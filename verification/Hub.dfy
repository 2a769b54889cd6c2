/**
 The hub: which connection is logged in for which user, and which documents it is subscribed to.
 Both are kept in nested maps changed in place; they stand for flat relations, and a broadcast
 reaches exactly the connections the relation says. A connection keeps the user id it logged in
 with.
 */
module Hub {
  type UserId = string
  type DeviceId = string
  type DocId = string
  type Message = string

  class Client {
    const userId: UserId
    const deviceId: DeviceId
    var enqueued: seq<Message>

    constructor (userId: UserId, deviceId: DeviceId)
      ensures this.userId == userId && this.deviceId == deviceId && enqueued == []
    {
      this.userId, this.deviceId, enqueued := userId, deviceId, [];
    }

    method Enqueue(msg: Message)
      modifies this
      ensures enqueued == old(enqueued) + [msg]
    {
      enqueued := enqueued + [msg];
    }
  }

  datatype Login = Login(user: UserId, client: Client)
  datatype Subscription = Subscription(user: UserId, doc: DocId, client: Client)

  function ClientsOf<K(==)>(m: map<K, set<Client>>, k: K): set<Client> {
    if k in m then m[k] else {}
  }

  ghost function FlatDocs(docs: map<UserId, map<DocId, set<Client>>>): set<Subscription> {
    set u, d, c | u in docs && d in docs[u] && c in docs[u][d] :: Subscription(u, d, c)
  }

  /** Adding a client to one set adds exactly its triple. */
  lemma AddToFlat(docs: map<UserId, map<DocId, set<Client>>>, c: Client, d: DocId)
    ensures var userDocs := if c.userId in docs then docs[c.userId] else map[];
            FlatDocs(docs[c.userId := userDocs[d := ClientsOf(userDocs, d) + {c}]]) ==
              FlatDocs(docs) + {Subscription(c.userId, d, c)}
  {
    var userDocs := if c.userId in docs then docs[c.userId] else map[];
    var docs' := docs[c.userId := userDocs[d := ClientsOf(userDocs, d) + {c}]];
    forall s ensures s in FlatDocs(docs') <==> s in FlatDocs(docs) + {Subscription(c.userId, d, c)} {
    }
  }

  /** Taking a client out of its user's documents removes exactly its triples. */
  lemma RemoveFromFlat(docs: map<UserId, map<DocId, set<Client>>>, rest: map<DocId, set<Client>>, c: Client)
    requires forall u, d, x | u in docs && d in docs[u] && x in docs[u][d] :: x.userId == u
    requires c.userId in docs
    requires forall d | d in docs[c.userId] :: ClientsOf(rest, d) == docs[c.userId][d] - {c}
    requires rest.Keys <= docs[c.userId].Keys
    ensures FlatDocs(docs[c.userId := rest]) == set s | s in FlatDocs(docs) && s.client != c
    ensures rest == map[] ==> FlatDocs(docs - {c.userId}) == set s | s in FlatDocs(docs) && s.client != c
  {
    var flat := set s | s in FlatDocs(docs) && s.client != c;
    forall s: Subscription ensures s in FlatDocs(docs[c.userId := rest]) <==> s in flat {
      if s.user == c.userId && s.doc in docs[c.userId] {
        assert s.client in ClientsOf(rest, s.doc) <==> s.client in docs[c.userId][s.doc] && s.client != c;
      }
    }
    if rest == map[] {
      assert FlatDocs(docs - {c.userId}) == FlatDocs(docs[c.userId := rest]);
    }
  }

  // ---- the log lines of BroadcastVaultDoc take the first characters of an id, and panic on a shorter one

  const USER_PREFIX := 12
  const DOC_PREFIX := 20
  const DEVICE_PREFIX := 8

  /** The line about a member who does not follow the document would panic. */
  predicate StopsAt(uid: UserId, followers: set<UserId>, docId: DocId) {
    uid !in followers && (|uid| < USER_PREFIX || |docId| < DOC_PREFIX)
  }

  /** How many members are served before such a line, or all of them. */
  function ServedUpTo(members: seq<UserId>, followers: set<UserId>, docId: DocId): (k: nat)
    ensures k <= |members| && forall i :: 0 <= i < k ==> !StopsAt(members[i], followers, docId)
    ensures k < |members| ==> StopsAt(members[k], followers, docId)
  {
    if members == [] || StopsAt(members[0], followers, docId) then 0
    else 1 + ServedUpTo(members[1..], followers, docId)
  }

  /** A line about a member panics, or the last one, about a message that nobody has been sent. */
  predicate Panics(members: seq<UserId>, followers: set<UserId>, reached: bool, docId: DocId, sender: DeviceId) {
    ServedUpTo(members, followers, docId) < |members| || (!reached && (|docId| < DOC_PREFIX || |sender| < DEVICE_PREFIX))
  }

  lemma StopsExactlyAt(members: seq<UserId>, followers: set<UserId>, docId: DocId, i: nat)
    requires i < |members| && i <= ServedUpTo(members, followers, docId)
    ensures StopsAt(members[i], followers, docId) <==> i == ServedUpTo(members, followers, docId)
  {
  }

  predicate Distinct(members: seq<UserId>) {
    forall i, j :: 0 <= i < j < |members| ==> members[i] != members[j]
  }

  /** The first `k` members. */
  function Listed(members: seq<UserId>, k: nat): set<UserId>
    requires k <= |members|
  {
    set i | 0 <= i < k :: members[i]
  }

  lemma NextListed(members: seq<UserId>, i: nat)
    requires i < |members| && Distinct(members)
    ensures Listed(members, i + 1) == Listed(members, i) + {members[i]} && members[i] !in Listed(members, i)
  {
  }

  ghost function ReceiversAmong(receivers: set<Client>, users: set<UserId>): set<Client> {
    set c | c in receivers && c.userId in users
  }

  lemma OneMoreServed(receivers: set<Client>, members: seq<UserId>, i: nat, own: set<Client>)
    requires i < |members| && Distinct(members)
    requires forall c :: c in own <==> c in receivers && c.userId == members[i]
    ensures ReceiversAmong(receivers, Listed(members, i + 1)) == ReceiversAmong(receivers, Listed(members, i)) + own
    ensures own <= receivers && own !! ReceiversAmong(receivers, Listed(members, i))
  {
    NextListed(members, i);
  }

  predicate LongIds(members: seq<UserId>, docId: DocId, sender: DeviceId) {
    |docId| >= DOC_PREFIX && |sender| >= DEVICE_PREFIX && forall uid | uid in members :: |uid| >= USER_PREFIX
  }

  /** No state of the hub makes a broadcast panic if and only if all ids are long enough. */
  lemma NeverPanicsIff(members: seq<UserId>, docId: DocId, sender: DeviceId)
    ensures (forall followers, reached :: !Panics(members, followers, reached, docId, sender)) <==> LongIds(members, docId, sender)
  {
    if !LongIds(members, docId, sender) {
      if uid :| uid in members && |uid| < USER_PREFIX {
        var i :| 0 <= i < |members| && members[i] == uid;
        assert StopsAt(members[i], {}, docId);
      }
      assert Panics(members, {}, false, docId, sender);
    }
  }

  /** A member with a short id, not following the document, keeps it from the members listed later. */
  lemma ShortIdStopsRelay()
    ensures var members, doc := ["bob", "amy-amy-amy-amy"], "vault-vault-vault/catalog";
      && ServedUpTo(members, {"amy-amy-amy-amy"}, doc) == 0
      && ServedUpTo(members, {"bob", "amy-amy-amy-amy"}, doc) == 2
  {
    var members, doc := ["bob", "amy-amy-amy-amy"], "vault-vault-vault/catalog";
    assert members[1..] == ["amy-amy-amy-amy"] && members[1..][1..] == [];
    assert |members[0]| == 3;
  }

  class Hub {
    var users: map<UserId, set<Client>>
    var docs: map<UserId, map<DocId, set<Client>>>

    ghost function Logins(): set<Login>
      reads this
    {
      set u, c | u in users && c in users[u] :: Login(u, c)
    }

    ghost function Subscriptions(): set<Subscription>
      reads this
    {
      FlatDocs(docs)
    }

    /** Clients are filed under their own user, and no empty set is left behind. */
    ghost predicate Valid()
      reads this
    {
      && (forall u | u in users :: users[u] != {} && forall c | c in users[u] :: c.userId == u)
      && (forall u | u in docs :: forall d | d in docs[u] :: docs[u][d] != {} && forall c | c in docs[u][d] :: c.userId == u)
    }

    constructor ()
      ensures Valid() && Logins() == {} && Subscriptions() == {}
    {
      users := map[];
      docs := map[];
    }

    method Register(c: Client)
      requires Valid()
      modifies this
      ensures Valid()
      ensures Logins() == old(Logins()) + {Login(c.userId, c)}
      ensures Subscriptions() == old(Subscriptions())
    {
      if c.userId !in users {
        users := users[c.userId := {}];
      }
      users := users[c.userId := users[c.userId] + {c}];
      assert forall l: Login :: l in Logins() <==> l in old(Logins()) || l == Login(c.userId, c);
    }

    /** After this the client occurs nowhere. */
    method Unregister(c: Client)
      requires Valid()
      modifies this
      ensures Valid()
      ensures Logins() == old(Logins()) - {Login(c.userId, c)}
      ensures Subscriptions() == set s | s in old(Subscriptions()) && s.client != c
      ensures (forall l | l in Logins() :: l.client != c) && (forall s | s in Subscriptions() :: s.client != c)
      ensures c.userId in docs ==> docs[c.userId] != map[]
    {
      RemoveLogin(c);
      RemoveSubscriptions(c);
    }

    method RemoveLogin(c: Client)
      requires Valid()
      modifies this`users
      ensures Valid()
      ensures Logins() == old(Logins()) - {Login(c.userId, c)}
    {
      if c.userId in users {
        var clients := users[c.userId] - {c};
        assert forall x | x in users[c.userId] && x != c :: x in clients;
        users := if clients == {} then users - {c.userId} else users[c.userId := clients];
        assert forall l: Login :: l in Logins() <==> l in old(Logins()) && l != Login(c.userId, c);
      }
    }

    method RemoveSubscriptions(c: Client)
      requires Valid()
      modifies this`docs
      ensures Valid()
      ensures Subscriptions() == set s | s in old(Subscriptions()) && s.client != c
      ensures c.userId in docs ==> docs[c.userId] != map[]
    {
      if c.userId in docs {
        var userDocs := WithoutClient(docs[c.userId], c);
        RemoveFromFlat(docs, userDocs, c);
        docs := if userDocs == map[] then docs - {c.userId} else docs[c.userId := userDocs];
      }
    }

    /** The loop of Unregister over one user's documents. */
    static method WithoutClient(userDocs: map<DocId, set<Client>>, c: Client) returns (rest: map<DocId, set<Client>>)
      requires forall d | d in userDocs :: userDocs[d] != {}
      ensures forall d :: d in rest <==> d in userDocs && userDocs[d] != {c}
      ensures forall d | d in rest :: rest[d] == userDocs[d] - {c} && rest[d] != {}
    {
      rest := userDocs;
      var todo := userDocs.Keys;
      while todo != {}
        invariant todo <= userDocs.Keys
        invariant forall d | d in todo :: d in rest && rest[d] == userDocs[d]
        invariant forall d | d !in todo :: d in rest <==> d in userDocs && userDocs[d] != {c}
        invariant forall d | d in rest && d !in todo :: rest[d] == userDocs[d] - {c} && rest[d] != {}
        decreases todo
      {
        var docId :| docId in todo;
        todo := todo - {docId};
        var clients := rest[docId] - {c};
        assert forall x | x in rest[docId] && x != c :: x in clients;
        rest := if clients == {} then rest - {docId} else rest[docId := clients];
      }
    }

    method Subscribe(c: Client, docId: DocId)
      requires Valid()
      modifies this
      ensures Valid()
      ensures Subscriptions() == old(Subscriptions()) + {Subscription(c.userId, docId, c)}
      ensures Logins() == old(Logins())
    {
      AddToFlat(docs, c, docId);
      if c.userId !in docs {
        docs := docs[c.userId := map[]];
      }
      var userDocs := docs[c.userId];
      if docId !in userDocs {
        userDocs := userDocs[docId := {}];
      }
      docs := docs[c.userId := userDocs[docId := userDocs[docId] + {c}]];
      ghost var before := if c.userId in old(docs) then old(docs)[c.userId] else map[];
      assert docs[c.userId] == before[docId := ClientsOf(before, docId) + {c}];
      assert docs == old(docs)[c.userId := before[docId := ClientsOf(before, docId) + {c}]];
    }

    method Unsubscribe(c: Client, docId: DocId)
      requires Valid()
      modifies this
      ensures Valid()
      ensures Subscriptions() == old(Subscriptions()) - {Subscription(c.userId, docId, c)}
      ensures Logins() == old(Logins())
    {
      if c.userId in docs && docId in docs[c.userId] {
        var userDocs := docs[c.userId];
        var clients := userDocs[docId] - {c};
        assert forall x | x in userDocs[docId] && x != c :: x in clients;
        docs := docs[c.userId := if clients == {} then userDocs - {docId} else userDocs[docId := clients]];
        assert forall s: Subscription :: s in Subscriptions() <==>
                 s in old(Subscriptions()) && s != Subscription(c.userId, docId, c);
      }
    }

    /** The connections of a user subscribed to a document, except those of one device. */
    ghost function DocReceivers(user: UserId, docId: DocId, sender: DeviceId): set<Client>
      reads this
    {
      set s | s in Subscriptions() && s.user == user && s.doc == docId && s.client.deviceId != sender :: s.client
    }

    ghost function VaultReceivers(members: seq<UserId>, docId: DocId, sender: DeviceId): set<Client>
      reads this
    {
      set s | s in Subscriptions() && s.user in members && s.doc == docId && s.client.deviceId != sender :: s.client
    }

    /** The users with a subscription to the document. */
    ghost function Followers(docId: DocId): set<UserId>
      reads this
    {
      set s | s in Subscriptions() && s.doc == docId :: s.user
    }

    ghost function UserReceivers(user: UserId, sender: DeviceId): set<Client>
      reads this
    {
      set l | l in Logins() && l.user == user && l.client.deviceId != sender :: l.client
    }

    /** Enqueue the message once to every client of the set that is not of the sender's device. */
    method SendToAll(clients: set<Client>, sender: DeviceId, msg: Message) returns (sent: nat)
      modifies set c | c in clients && c.deviceId != sender
      ensures forall c | c in clients && c.deviceId != sender :: c.enqueued == old(c.enqueued) + [msg]
      ensures sent > 0 <==> exists c :: c in clients && c.deviceId != sender
    {
      var todo := clients;
      sent := 0;
      while todo != {}
        invariant todo <= clients
        invariant sent > 0 <==> exists c :: c in clients - todo && c.deviceId != sender
        invariant forall c | c in clients && c.deviceId != sender ::
                    c.enqueued == if c in todo then old(c.enqueued) else old(c.enqueued) + [msg]
        decreases todo
      {
        var c :| c in todo;
        todo := todo - {c};
        if c.deviceId != sender {
          c.Enqueue(msg);
          sent := sent + 1;
        }
      }
    }

    method BroadcastDoc(userId: UserId, docId: DocId, senderDeviceId: DeviceId, msg: Message)
      requires Valid()
      modifies DocReceivers(userId, docId, senderDeviceId)
      ensures forall c | c in old(DocReceivers(userId, docId, senderDeviceId)) :: c.enqueued == old(c.enqueued) + [msg]
    {
      if userId in docs && docId in docs[userId] {
        forall c | c in docs[userId][docId] && c.deviceId != senderDeviceId
          ensures c in DocReceivers(userId, docId, senderDeviceId)
        {
          assert Subscription(userId, docId, c) in Subscriptions();
        }
        var _ := SendToAll(docs[userId][docId], senderDeviceId, msg);
      }
    }

    /**
     Every subscribed connection of a listed member, except the sender's device, gets the message
     once, unless a log line panics first: then exactly those of the members listed before do.
     */
    method BroadcastVaultDoc(memberUserIds: seq<UserId>, docId: DocId, senderDeviceId: DeviceId, msg: Message)
      returns (panicked: bool)
      requires Valid()
      requires Distinct(memberUserIds)
      modifies VaultReceivers(memberUserIds, docId, senderDeviceId)
      ensures panicked <==> Panics(memberUserIds, old(Followers(docId)),
                                   old(VaultReceivers(memberUserIds, docId, senderDeviceId)) != {}, docId, senderDeviceId)
      ensures var served := Listed(memberUserIds, ServedUpTo(memberUserIds, old(Followers(docId)), docId));
        forall c | c in old(VaultReceivers(memberUserIds, docId, senderDeviceId)) ::
          c.enqueued == if c.userId in served then old(c.enqueued) + [msg] else old(c.enqueued)
    {
      var sent;
      panicked, sent := RelayToMembers(memberUserIds, docId, senderDeviceId, msg);
      if !panicked {
        ReceiversAreMembers(memberUserIds, docId, senderDeviceId);
        panicked := sent == 0 && (|docId| < DOC_PREFIX || |senderDeviceId| < DEVICE_PREFIX);
      }
    }

    /** The loop of BroadcastVaultDoc. */
    method RelayToMembers(members: seq<UserId>, docId: DocId, sender: DeviceId, msg: Message) returns (panicked: bool, sent: nat)
      requires Valid() && Distinct(members)
      modifies VaultReceivers(members, docId, sender)
      ensures panicked <==> ServedUpTo(members, old(Followers(docId)), docId) < |members|
      ensures var served := Listed(members, ServedUpTo(members, old(Followers(docId)), docId));
        && (forall c | c in old(VaultReceivers(members, docId, sender)) ::
              c.enqueued == if c.userId in served then old(c.enqueued) + [msg] else old(c.enqueued))
        && (sent > 0 <==> ReceiversAmong(old(VaultReceivers(members, docId, sender)), served) != {})
    {
      ghost var receivers, followers := VaultReceivers(members, docId, sender), Followers(docId);
      ghost var k := ServedUpTo(members, followers, docId);
      ghost var reached: set<Client> := {};
      panicked, sent := false, 0;
      var i := 0;
      while i < |members| && !panicked
        invariant i <= k && (panicked ==> i == k < |members|)
        invariant reached == ReceiversAmong(receivers, Listed(members, i))
        invariant sent > 0 <==> reached != {}
        invariant forall c | c in receivers :: c.enqueued == if c in reached then old(c.enqueued) + [msg] else old(c.enqueued)
        decreases |members| - i, !panicked
      {
        ghost var own := DocReceivers(members[i], docId, sender);
        ReceiversOf(members, docId, sender, members[i]);
        OneMoreServed(receivers, members, i, own);
        StopsExactlyAt(members, followers, docId, i);
        assert Followers(docId) == followers;
        var n;
        panicked, n := RelayToMember(members[i], docId, sender, msg);
        if !panicked {
          i, sent, reached := i + 1, sent + n, reached + own;
        }
      }
      assert i == k;
    }

    /** One round of the loop of BroadcastVaultDoc. */
    method RelayToMember(uid: UserId, docId: DocId, senderDeviceId: DeviceId, msg: Message) returns (panicked: bool, sent: nat)
      requires Valid()
      modifies DocReceivers(uid, docId, senderDeviceId)
      ensures panicked <==> StopsAt(uid, old(Followers(docId)), docId)
      ensures forall c | c in old(DocReceivers(uid, docId, senderDeviceId)) :: c.enqueued == old(c.enqueued) + [msg]
      ensures sent > 0 <==> old(DocReceivers(uid, docId, senderDeviceId)) != {}
    {
      FollowsIff(uid, docId);
      ReceiversIn(uid, docId, senderDeviceId);
      if !(uid in docs && docId in docs[uid]) {
        return |uid| < USER_PREFIX || |docId| < DOC_PREFIX, 0;
      }
      panicked := false;
      sent := SendToAll(docs[uid][docId], senderDeviceId, msg);
    }

    lemma ReceiversIn(uid: UserId, docId: DocId, sender: DeviceId)
      requires Valid()
      ensures forall c :: c in DocReceivers(uid, docId, sender) <==>
                uid in docs && docId in docs[uid] && c in docs[uid][docId] && c.deviceId != sender
    {
      if uid in docs && docId in docs[uid] {
        forall c | c in docs[uid][docId] && c.deviceId != sender ensures c in DocReceivers(uid, docId, sender) {
          assert Subscription(uid, docId, c) in Subscriptions();
        }
      }
    }

    lemma FollowsIff(uid: UserId, docId: DocId)
      requires Valid()
      ensures uid in Followers(docId) <==> uid in docs && docId in docs[uid]
    {
      if uid in docs && docId in docs[uid] {
        var c :| c in docs[uid][docId];
        assert Subscription(uid, docId, c) in Subscriptions();
      }
    }

    lemma ReceiversAreMembers(members: seq<UserId>, docId: DocId, sender: DeviceId)
      requires Valid()
      ensures ReceiversAmong(VaultReceivers(members, docId, sender), Listed(members, |members|)) == VaultReceivers(members, docId, sender)
    {
      forall c | c in VaultReceivers(members, docId, sender) ensures c.userId in Listed(members, |members|) {
        assert c.userId in members;
      }
    }

    lemma ReceiversOf(members: seq<UserId>, docId: DocId, sender: DeviceId, uid: UserId)
      requires Valid() && uid in members
      ensures forall c :: c in DocReceivers(uid, docId, sender) <==> c in VaultReceivers(members, docId, sender) && c.userId == uid
    {
      forall c | c in DocReceivers(uid, docId, sender) ensures c in VaultReceivers(members, docId, sender) && c.userId == uid {
        var s :| s in Subscriptions() && s.user == uid && s.doc == docId && s.client == c && c.deviceId != sender;
      }
      forall c | c in VaultReceivers(members, docId, sender) && c.userId == uid ensures c in DocReceivers(uid, docId, sender) {
        var s :| s in Subscriptions() && s.user in members && s.doc == docId && s.client == c && c.deviceId != sender;
        assert s.user == uid;
      }
    }

    method Broadcast(userId: UserId, senderDeviceId: DeviceId, msg: Message)
      requires Valid()
      modifies UserReceivers(userId, senderDeviceId)
      ensures forall c | c in old(UserReceivers(userId, senderDeviceId)) :: c.enqueued == old(c.enqueued) + [msg]
    {
      if userId in users {
        forall c | c in users[userId] && c.deviceId != senderDeviceId ensures c in UserReceivers(userId, senderDeviceId) {
          assert Login(userId, c) in Logins();
        }
        var _ := SendToAll(users[userId], senderDeviceId, msg);
      }
    }
  }
}
