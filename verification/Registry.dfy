/** The broker's client registry (`BrokerDb` of src/broker.rs).

    `Db` is the value a registry holds at one moment; `Insert`, `Drop`, `Subscribe` and `Unsubscribe` say
    what one call does to it. `BrokerDb` is the registry itself: maps and client objects changed in place,
    each method proved against the function of the same name. */
module Registry {
  import opened Bytes
  import opened Protocol
  import opened Naming

  datatype ClientKind = Internal | LocalIpc | Tcp

  /** A bounded channel holds at least one frame. */
  type Capacity = n: nat | n > 0 witness 1

  /** `.broker/warn`: every client is subscribed to it on registration. */
  const BROKER_WARN_TOPIC: Name := [46, 98, 114, 111, 107, 101, 114, 47, 119, 97, 114, 110]

  /** A client as the broker sees it. Equality in the program's maps is by name; the object is its identity. */
  class ElbusClient {
    const name: Name
    const kind: ClientKind
    const capacity: Capacity
    const primaryName: Name
    const primary: bool := name == primaryName
    var secondaries: set<Name>
    var disconnected: bool
    var queue: seq<Frame>
    var closed: bool
    var rFrames: nat
    var rBytes: nat
    var wFrames: nat
    var wBytes: nat
    ghost var accepted: seq<Frame>  // every frame ever put on the queue

    constructor (name: Name, kind: ClientKind, capacity: Capacity)
      ensures this.name == name && this.kind == kind && this.capacity == capacity
      ensures Named(this)
      ensures secondaries == {} && !disconnected && queue == [] && !closed && accepted == []
      ensures rFrames == rBytes == wFrames == wBytes == 0
    {
      this.name, this.kind, this.capacity := name, kind, capacity;
      this.primaryName := PrimaryOf(name);
      secondaries, disconnected, queue, closed, accepted := {}, false, [], false, [];
      rFrames, rBytes, wFrames, wBytes := 0, 0, 0, 0;
    }
  }

  /** Every client is created with the primary name its own name spells. */
  ghost predicate Named(c: ElbusClient) {
    c.primaryName == PrimaryOf(c.name)
  }

  /** What the registry needs to know about names: equal names have equal primaries, and the name of a
      primary is its own primary name. */
  lemma NamesAgree(c: ElbusClient, d: ElbusClient)
    requires Named(c) && Named(d)
    ensures c.name == d.name ==> c.primaryName == d.primaryName
    ensures c.primaryName == d.name ==> d.primary
  {}

  ghost predicate SubName(n: Name, primary: Name) {
    n != primary && PrimaryOf(n) == primary
  }

  lemma SubNameOf(c: ElbusClient, primary: Name)
    requires Named(c)
    ensures SubName(c.name, primary) <==> !c.primary && c.primaryName == primary
  {}

  datatype Subscriber = Subscriber(client: ElbusClient, topics: set<Name>)

  /** The registry as a value. The keys of `secondaries` are all the client objects created so far. */
  datatype Db = Db(
    clients: Clients,
    broadcasts: Clients,
    subscriptions: map<Name, Subscriber>,
    secondaries: map<ElbusClient, set<Name>>,
    triggered: set<ElbusClient>)

  const EMPTY: Db := Db(map[], map[], map[], map[], {})

  type Clients = map<Name, ElbusClient>

  ghost predicate Registered(clients: Clients, c: ElbusClient) {
    c.name in clients && clients[c.name] == c
  }

  // ----- the operations on values

  ghost function Create(db: Db, c: ElbusClient): Db {
    db.(secondaries := db.secondaries[c := {}])
  }

  ghost function InsertResult(db: Db, c: ElbusClient): Result<()> {
    if !c.primary && c.primaryName !in db.clients then Err(NotRegistered)
    else if c.name in db.clients then Err(Busy)
    else Ok(())
  }

  /** The entry of a client that registers for topics: a new one unless its name already has one. */
  function Subscribed(subscriptions: map<Name, Subscriber>, c: ElbusClient): Subscriber {
    var s := if c.name in subscriptions then subscriptions[c.name] else Subscriber(c, {});
    s.(topics := s.topics + {BROKER_WARN_TOPIC})
  }

  ghost function Insert(db: Db, c: ElbusClient): Db
    requires Wf(db)
  {
    if InsertResult(db, c).Err? then db
    else
      db.(clients := db.clients[c.name := c],
          broadcasts := if c.name in db.broadcasts then db.broadcasts else db.broadcasts[c.name := c],
          subscriptions := db.subscriptions[c.name := Subscribed(db.subscriptions, c)],
          secondaries := if c.primary then db.secondaries
          else
            var p := db.clients[c.primaryName];
            db.secondaries[p := db.secondaries[p] + {c.name}])
  }

  /** The registry after `c` and those of the names `done` that were registered have left. */
  ghost function Cascade(db: Db, c: ElbusClient, done: set<Name>): Db {
    var gone := {c.name} + done * db.clients.Keys;
    db.(clients := db.clients - gone,
        broadcasts := db.broadcasts - gone,
        subscriptions := db.subscriptions - gone,
        triggered := set x | x in db.secondaries.Keys &&
                             (x in db.triggered || (x.kind != Internal && x.name in done && Registered(db.clients, x))))
  }

  ghost function Drop(db: Db, c: ElbusClient): Db
    requires Wf(db) && c in db.secondaries
  {
    if c.primary then
      Cascade(db, c, db.secondaries[c]).(secondaries := db.secondaries[c := {}])
    else if c.primaryName in db.clients then
      var p := db.clients[c.primaryName];
      Cascade(db, c, {}).(secondaries := db.secondaries[p := db.secondaries[p] - {c.name}])
    else Cascade(db, c, {})
  }

  ghost function Subscribe(db: Db, c: ElbusClient, topic: Name): Db {
    if c.name !in db.subscriptions then db
    else
      var s := db.subscriptions[c.name];
      db.(subscriptions := db.subscriptions[c.name := s.(topics := s.topics + {topic})])
  }

  ghost function Unsubscribe(db: Db, c: ElbusClient, topic: Name): Db {
    if c.name !in db.subscriptions then db
    else
      var s := db.subscriptions[c.name];
      db.(subscriptions := db.subscriptions[c.name := s.(topics := s.topics - {topic})])
  }

  // ----- invariants

  /** Kept by every operation whatsoever: maps are keyed by the name of what they hold, only known objects
      are held, and an object's `secondaries` only ever names secondaries of its own name. */
  ghost predicate Wf(db: Db) {
    && (forall n :: n in db.clients ==> db.clients[n].name == n && db.clients[n] in db.secondaries)
    && (forall n :: n in db.broadcasts ==> db.broadcasts[n].name == n && db.broadcasts[n] in db.secondaries)
    && (forall n :: n in db.subscriptions ==>
          db.subscriptions[n].client.name == n && db.subscriptions[n].client in db.secondaries)
    && (forall c {:trigger Named(c)} :: c in db.secondaries ==> Named(c))
    && (forall c, n {:trigger SubName(n, c.name)} :: c in db.secondaries && n in db.secondaries[c] ==>
          SubName(n, c.name))
    && db.triggered <= db.secondaries.Keys
  }

  /** The names registered as secondaries of `primary`. */
  ghost function SecondariesOf(clients: Clients, primary: Name): set<Name> {
    set n | n in clients && n != primary && clients[n].primaryName == primary
  }

  ghost predicate HasPrimary(clients: Clients, n: Name)
    requires n in clients
  {
    clients[n].primaryName in clients
  }

  /** `c.secondaries` is exactly what is registered under `c` - nothing when `c` itself is not registered. */
  ghost predicate Exact(db: Db, c: ElbusClient)
    requires c in db.secondaries
  {
    db.secondaries[c] == if Registered(db.clients, c) then SecondariesOf(db.clients, c.name) else {}
  }

  /** The three maps agree, object by object. */
  ghost predicate Agree(db: Db) {
    && db.broadcasts == db.clients
    && db.subscriptions.Keys == db.clients.Keys
    && forall n :: n in db.clients ==> db.subscriptions[n].client == db.clients[n]
  }

  ghost predicate AllHavePrimary(clients: Clients) {
    forall n {:trigger HasPrimary(clients, n)} :: n in clients ==> HasPrimary(clients, n)
  }

  ghost predicate AllExact(db: Db) {
    forall c {:trigger Exact(db, c)} :: c in db.secondaries ==> Exact(db, c)
  }

  /** The registry invariant: the three maps agree, every secondary has its primary, and each object's
      `secondaries` is exact. */
  ghost predicate Consistent(db: Db) {
    Wf(db) && Agree(db) && AllHavePrimary(db.clients) && AllExact(db)
  }

  /** A drop of an object that is not the one registered under its name takes that other client's
      registration away; what it leaves behind is sound only if nothing hung below that client. */
  ghost predicate DropSafe(db: Db, c: ElbusClient) {
    Registered(db.clients, c) || SecondariesOf(db.clients, c.name) == {}
  }

  // ----- each operation

  lemma InsertKeepsWf(db: Db, c: ElbusClient)
    requires Wf(db) && c in db.secondaries
    ensures Wf(Insert(db, c))
    ensures Insert(db, c).secondaries.Keys == db.secondaries.Keys
  {
    var e := Insert(db, c);
    assert Named(c);
    SubNameOf(c, c.primaryName);
    forall x, n | x in e.secondaries && n in e.secondaries[x]
      ensures SubName(n, x.name)
    {
      if n in db.secondaries[x] {
        assert SubName(n, x.name);
      }
    }
  }

  /** A registration keeps the invariant; a refused one changes nothing, and it is refused exactly as reported. */
  lemma InsertKeepsConsistent(db: Db, c: ElbusClient)
    requires Consistent(db) && c in db.secondaries
    ensures Consistent(Insert(db, c))
    ensures InsertResult(db, c).Err? ==> Insert(db, c) == db
    ensures Registered(Insert(db, c).clients, c) <==> InsertResult(db, c).Ok? || Registered(db.clients, c)
  {
    if InsertResult(db, c).Ok? {
      InsertKeepsWf(db, c);
      InsertHasPrimary(db.clients, c);
      InsertAgrees(db, c);
      forall x | x in db.secondaries ensures Exact(Insert(db, c), x) {
        InsertExact(db, c, x);
      }
      hide Wf, Agree, Exact;
    }
  }

  lemma InsertAgrees(db: Db, c: ElbusClient)
    requires Wf(db) && Agree(db) && InsertResult(db, c).Ok?
    ensures Agree(Insert(db, c)) && Insert(db, c).clients == db.clients[c.name := c]
  {
    hide Wf;
  }

  lemma InsertHasPrimary(clients: Clients, c: ElbusClient)
    requires AllHavePrimary(clients) && (c.primary || c.primaryName in clients) && c.name !in clients
    ensures AllHavePrimary(clients[c.name := c])
  {
    assert forall n :: n in clients ==> HasPrimary(clients, n);
  }

  lemma NothingUnderFreeName(db: Db, n: Name)
    requires Consistent(db) && n !in db.clients
    ensures SecondariesOf(db.clients, n) == {}
  {
    assert forall m :: m in db.clients ==> HasPrimary(db.clients, m);
  }

  lemma InsertExact(db: Db, c: ElbusClient, x: ElbusClient)
    requires Consistent(db) && c in db.secondaries && InsertResult(db, c).Ok?
    requires x in db.secondaries
    ensures Wf(Insert(db, c)) && Insert(db, c).secondaries.Keys == db.secondaries.Keys
    ensures Exact(Insert(db, c), x)
  {
    InsertKeepsWf(db, c);
    NothingUnderFreeName(db, c.name);
    assert Exact(db, x);
    assert !c.primary ==>
          db.clients[c.primaryName].name == c.primaryName && db.clients[c.primaryName] in db.secondaries;
    hide Consistent, Wf;
    InsertedSecondaries(db.clients, c, x.name);
  }

  lemma InsertedSecondaries(clients: Clients, c: ElbusClient, p: Name)
    requires c.name !in clients
    ensures SecondariesOf(clients[c.name := c], p)
            == SecondariesOf(clients, p) + if c.name != p && c.primaryName == p then {c.name} else {}
  {}

  lemma DropKeepsWf(db: Db, c: ElbusClient)
    requires Wf(db) && c in db.secondaries
    ensures Wf(Drop(db, c))
    ensures !Registered(Drop(db, c).clients, c)
    ensures Drop(db, c).secondaries.Keys == db.secondaries.Keys
  {}

  lemma SecondaryHasNone(db: Db, c: ElbusClient)
    requires Wf(db) && c in db.secondaries && !c.primary
    ensures forall n :: n in db.clients ==> db.clients[n].primaryName != c.name
    ensures SecondariesOf(db.clients, c.name) == {}
  {
    forall n | n in db.clients
      ensures db.clients[n].primaryName != c.name
    {
      assert Named(db.clients[n]) && Named(c);
      NamesAgree(db.clients[n], c);
    }
  }

  lemma HolderAgrees(db: Db, c: ElbusClient)
    requires Wf(db) && c in db.secondaries && c.name in db.clients
    ensures db.clients[c.name].primaryName == c.primaryName
  {
    assert Named(db.clients[c.name]) && Named(c);
    NamesAgree(db.clients[c.name], c);
  }

  /** What a safe drop removes: a primary with everything registered under it, a secondary alone. */
  lemma DropFamily(db: Db, c: ElbusClient)
    requires Consistent(db) && c in db.secondaries && DropSafe(db, c)
    ensures var gone := {c.name} + SecondariesOf(db.clients, c.name);
            && Drop(db, c).clients == db.clients - gone
            && Drop(db, c).broadcasts == db.broadcasts - gone
            && Drop(db, c).subscriptions == db.subscriptions - gone
    ensures !c.primary ==> SecondariesOf(db.clients, c.name) == {}
  {
    assert Exact(db, c);
    if c.primary {
      assert db.secondaries[c] == SecondariesOf(db.clients, c.name);
      assert db.secondaries[c] * db.clients.Keys == db.secondaries[c];
    } else {
      SecondaryHasNone(db, c);
    }
  }

  /** A safe drop tells exactly the external clients registered under the name to disconnect. */
  lemma DropTriggers(db: Db, c: ElbusClient)
    requires Consistent(db) && c in db.secondaries && DropSafe(db, c)
    ensures Drop(db, c).triggered
            == db.triggered
               + set n | n in SecondariesOf(db.clients, c.name) && db.clients[n].kind != Internal :: db.clients[n]
  {
    DropFamily(db, c);
    assert Exact(db, c);
    hide AllHavePrimary, Agree;
    var told := set n | n in SecondariesOf(db.clients, c.name) && db.clients[n].kind != Internal :: db.clients[n];
    forall x | x in db.secondaries
      ensures x in told <==> x.kind != Internal && Registered(db.clients, x)
                             && x.name in SecondariesOf(db.clients, c.name)
    {}
  }

  lemma DropExactRegistered(db: Db, c: ElbusClient, x: ElbusClient)
    requires Consistent(db) && c in db.secondaries && DropSafe(db, c)
    requires x in db.secondaries && Registered(Drop(db, c).clients, x)
    ensures x in Drop(db, c).secondaries && Exact(Drop(db, c), x)
  {
    DropFamily(db, c);
    SecondariesLeft(db.clients, c.name, x.name);
    assert Exact(db, x);
    if c.name in db.clients {
      HolderAgrees(db, c);
    }
    if !c.primary && c.primaryName in db.clients {
      assert db.clients[c.primaryName].name == c.primaryName && db.clients[c.primaryName] in db.secondaries;
    }
    hide Consistent, Wf;
    if c.primary || c.primaryName != x.name {
      assert Drop(db, c).secondaries[x] == db.secondaries[x];
      assert c.name !in SecondariesOf(db.clients, x.name);
    } else {
      assert Drop(db, c).secondaries[x] == db.secondaries[x] - {c.name};
    }
  }

  lemma SecondariesLeft(clients: Clients, gone: Name, p: Name)
    requires p != gone
    ensures SecondariesOf(clients - ({gone} + SecondariesOf(clients, gone)), p) == SecondariesOf(clients, p) - {gone}
  {}

  lemma DropExactGone(db: Db, c: ElbusClient, x: ElbusClient)
    requires Consistent(db) && c in db.secondaries && DropSafe(db, c)
    requires x in db.secondaries && !Registered(Drop(db, c).clients, x)
    ensures x in Drop(db, c).secondaries && Exact(Drop(db, c), x)
  {
    DropFamily(db, c);
    assert Exact(db, x);
    if !x.primary {
      SecondaryHasNone(db, x);
    }
    if !c.primary && c.primaryName in db.clients {
      assert db.clients[c.primaryName].name == c.primaryName && db.clients[c.primaryName] in db.secondaries;
    }
    hide Consistent, Wf;
  }

  lemma DropHasPrimary(db: Db, name: Name)
    requires Wf(db) && AllHavePrimary(db.clients)
    ensures AllHavePrimary(db.clients - ({name} + SecondariesOf(db.clients, name)))
  {
    var left := db.clients - ({name} + SecondariesOf(db.clients, name));
    forall n | n in left ensures HasPrimary(left, n) {
      assert HasPrimary(db.clients, n);
      var p := db.clients[n].primaryName;
      assert Named(db.clients[n]) && Named(db.clients[p]);
      NamesAgree(db.clients[n], db.clients[p]);
    }
  }

  lemma DropSafeConsistent(db: Db, c: ElbusClient)
    requires Consistent(db) && c in db.secondaries && DropSafe(db, c)
    ensures Consistent(Drop(db, c))
  {
    DropKeepsWf(db, c);
    DropFamily(db, c);
    DropHasPrimary(db, c.name);
    var e := Drop(db, c);
    forall x | x in e.secondaries ensures Exact(e, x) {
      if Registered(e.clients, x) { DropExactRegistered(db, c, x); } else { DropExactGone(db, c, x); }
    }
  }

  /** Exactly the drops that keep the registry consistent. */
  lemma DropKeepsConsistentIff(db: Db, c: ElbusClient)
    requires Consistent(db) && c in db.secondaries
    ensures Consistent(Drop(db, c)) <==> DropSafe(db, c)
  {
    if DropSafe(db, c) {
      DropSafeConsistent(db, c);
    } else {
      var e := Drop(db, c);
      var n :| n in SecondariesOf(db.clients, c.name);
      assert Exact(db, c);
      assert n in e.clients && !HasPrimary(e.clients, n) by {
        assert db.clients[n].primaryName == c.name;
        if !c.primary { SecondaryHasNone(db, c); }
      }
    }
  }

  /** The drop of a client that holds its name, or of one whose name nobody holds. */
  ghost predicate OwnDrop(db: Db, c: ElbusClient) {
    Registered(db.clients, c) || c.name !in db.clients
  }

  /** Everybody registered stays so, but `c` and the secondaries of its name. */
  ghost predicate Spares(db: Db, c: ElbusClient)
    requires Wf(db) && c in db.secondaries
  {
    forall x ::
          x in db.secondaries && Registered(db.clients, x) && x != c && x.name !in SecondariesOf(db.clients, c.name) ==>
                  Registered(Drop(db, c).clients, x)
  }

  /** Exactly the drops that remove the client and its secondaries and nobody else. */
  lemma DropSparesOthersIff(db: Db, c: ElbusClient)
    requires Consistent(db) && c in db.secondaries
    ensures Spares(db, c) <==> OwnDrop(db, c)
    ensures OwnDrop(db, c) ==> DropSafe(db, c)
  {
    if OwnDrop(db, c) {
      if c.name !in db.clients {
        NothingUnderFreeName(db, c.name);
      }
      DropFamily(db, c);
    } else {
      var b := db.clients[c.name];
      assert b.name == c.name && Registered(db.clients, b) && b.name !in SecondariesOf(db.clients, c.name);
      assert c.name !in Drop(db, c).clients;
    }
  }

  lemma CascadeOfNothing(db: Db, c: ElbusClient)
    requires Wf(db) && c.name !in db.clients && c.name !in db.broadcasts && c.name !in db.subscriptions
    ensures Cascade(db, c, {}) == db
  {}

  /** Dropping again changes nothing. */
  lemma DropTwice(db: Db, c: ElbusClient)
    requires Wf(db) && c in db.secondaries
    ensures Wf(Drop(db, c)) && c in Drop(db, c).secondaries && Drop(Drop(db, c), c) == Drop(db, c)
  {
    DropKeepsWf(db, c);
    var e := Drop(db, c);
    CascadeOfNothing(e, c);
    if !c.primary && c.primaryName in db.clients {
      var p := db.clients[c.primaryName];
      assert e.secondaries[p] - {c.name} == e.secondaries[p];
    }
  }

  lemma InsertThenDropSecondaries(db: Db, c: ElbusClient)
    requires Consistent(db) && c in db.secondaries && InsertResult(db, c).Ok?
    ensures Wf(Insert(db, c)) && c in Insert(db, c).secondaries
    ensures Drop(Insert(db, c), c).secondaries == db.secondaries
  {
    InsertKeepsWf(db, c);
    assert Exact(db, c);
    if !c.primary {
      var p := db.clients[c.primaryName];
      assert Exact(db, p);
      assert db.secondaries[p] + {c.name} - {c.name} == db.secondaries[p];
    }
  }

  /** A registration followed by its drop leaves the registry as it was. */
  lemma InsertThenDrop(db: Db, c: ElbusClient)
    requires Consistent(db) && c in db.secondaries && InsertResult(db, c).Ok?
    ensures Consistent(Insert(db, c)) && c in Insert(db, c).secondaries && Drop(Insert(db, c), c) == db
  {
    InsertKeepsConsistent(db, c);
    InsertThenDropSecondaries(db, c);
    var e := Insert(db, c);
    assert e.secondaries[c] == {} by { assert Exact(db, c); }
    InsertThenCascade(db, c);
  }

  lemma InsertThenCascade(db: Db, c: ElbusClient)
    requires Wf(db) && Agree(db) && c in db.secondaries && InsertResult(db, c).Ok?
    ensures Cascade(Insert(db, c), c, {}) == db.(secondaries := Insert(db, c).secondaries)
  {}

  /** Subscribing to a new topic and taking it back, or the other way round, leaves the registry as it was; neither
      touches another name, another topic, or anything but the subscriptions. */
  lemma UnsubscribeUndoes(db: Db, c: ElbusClient, t: Name)
    ensures c.name !in db.subscriptions || t !in db.subscriptions[c.name].topics ==>
              Unsubscribe(Subscribe(db, c, t), c, t) == db
    ensures c.name !in db.subscriptions || t in db.subscriptions[c.name].topics ==>
              Subscribe(Unsubscribe(db, c, t), c, t) == db
    ensures SameBut(db, Subscribe(db, c, t), c.name, t) && SameBut(db, Unsubscribe(db, c, t), c.name, t)
  {
    if c.name in db.subscriptions {
      var s := db.subscriptions[c.name];
      assert t !in s.topics ==> s.topics + {t} - {t} == s.topics;
      assert t in s.topics ==> s.topics - {t} + {t} == s.topics;
      assert db.subscriptions[c.name := s] == db.subscriptions;
      assert t !in s.topics ==> Unsubscribe(Subscribe(db, c, t), c, t).subscriptions == db.subscriptions;
      assert t in s.topics ==> Subscribe(Unsubscribe(db, c, t), c, t).subscriptions == db.subscriptions;
    }
  }

  /** Two registries that differ at most in whether the topic is subscribed to under the name. */
  ghost predicate SameBut(db: Db, e: Db, n: Name, t: Name) {
    && e == db.(subscriptions := e.subscriptions) && e.subscriptions.Keys == db.subscriptions.Keys
    && forall m :: m in db.subscriptions ==>
         && e.subscriptions[m].client == db.subscriptions[m].client
         && forall u :: m != n || u != t ==> (u in e.subscriptions[m].topics <==> u in db.subscriptions[m].topics)
  }

  /** Why a registration is refused: somebody holds the name, and for no other reason is it busy; or it is a secondary
      whose primary nobody holds. Otherwise the client is registered, and subscribed to the warning topic and to
      nothing else. */
  lemma InsertRefusedIff(db: Db, c: ElbusClient)
    requires Consistent(db) && c in db.secondaries
    ensures InsertResult(db, c) == Err(Busy) <==> c.name in db.clients
    ensures InsertResult(db, c) == Err(NotRegistered) <==> c.name != c.primaryName && c.primaryName !in db.clients
    ensures InsertResult(db, c) in {Ok(()), Err(Busy), Err(NotRegistered)}
    ensures InsertResult(db, c).Ok? ==>
              Registered(Insert(db, c).clients, c) && c.name !in db.subscriptions
              && Insert(db, c).subscriptions == db.subscriptions[c.name := Subscriber(c, {BROKER_WARN_TOPIC})]
  {
    if c.name in db.clients {
      HolderAgrees(db, c);
      assert HasPrimary(db.clients, c.name);
    }
    hide Exact;
    assert {} + {BROKER_WARN_TOPIC} == {BROKER_WARN_TOPIC};
  }

  // ----- whole runs

  datatype Op =
    | OpCreate(c: ElbusClient)
    | OpInsert(c: ElbusClient)
    | OpDrop(c: ElbusClient)
    | OpSubscribe(c: ElbusClient, topic: Name)
    | OpUnsubscribe(c: ElbusClient, topic: Name)

  /** What the program does: an object is created once, registered while not registered, dropped at any time
      and any number of times after its creation. */
  ghost predicate Possible(db: Db, op: Op) {
    match op
    case OpCreate(c) => c !in db.secondaries && Named(c)
    case OpInsert(c) => c in db.secondaries
    case OpDrop(c) => c in db.secondaries
    case OpSubscribe(_, _) => true
    case OpUnsubscribe(_, _) => true
  }

  ghost function Apply(db: Db, op: Op): Db
    requires Wf(db) && Possible(db, op)
  {
    match op
    case OpCreate(c) => Create(db, c)
    case OpInsert(c) => Insert(db, c)
    case OpDrop(c) => Drop(db, c)
    case OpSubscribe(c, t) => Subscribe(db, c, t)
    case OpUnsubscribe(c, t) => Unsubscribe(db, c, t)
  }

  lemma CreateKeepsWf(db: Db, c: ElbusClient)
    requires Wf(db) && c !in db.secondaries && Named(c)
    ensures Wf(Create(db, c))
  {}

  lemma CreateKeepsConsistent(db: Db, c: ElbusClient)
    requires Consistent(db) && c !in db.secondaries && Named(c)
    ensures Consistent(Create(db, c))
  {
    CreateKeepsWf(db, c);
    forall x | x in db.secondaries ensures Exact(Create(db, c), x) {
      assert Exact(db, x);
    }
  }

  /** Two registries that differ only in what is subscribed to are equally sound. */
  lemma TopicsKeepWf(db: Db, e: Db)
    requires Wf(db)
    requires e == db.(subscriptions := e.subscriptions) && e.subscriptions.Keys == db.subscriptions.Keys
    requires forall n :: n in db.subscriptions ==> e.subscriptions[n].client == db.subscriptions[n].client
    ensures Wf(e)
  {}

  lemma TopicsKeepConsistent(db: Db, e: Db)
    requires Consistent(db)
    requires e == db.(subscriptions := e.subscriptions) && e.subscriptions.Keys == db.subscriptions.Keys
    requires forall n :: n in db.subscriptions ==> e.subscriptions[n].client == db.subscriptions[n].client
    ensures Consistent(e)
  {
    TopicsKeepWf(db, e);
    forall x | x in e.secondaries ensures Exact(e, x) { assert Exact(db, x); }
  }

  /** `states` is a run of `ops` from the empty registry. */
  ghost predicate IsRun(states: seq<Db>, ops: seq<Op>) {
    && |states| == |ops| + 1
    && states[0] == EMPTY
    && forall i :: 0 <= i < |ops| ==> IsStep(states[i], ops[i], states[i + 1])
  }

  ghost predicate IsStep(db: Db, op: Op, e: Db) {
    Wf(db) && Possible(db, op) && e == Apply(db, op)
  }

  lemma StepConsistentIff(db: Db, op: Op)
    requires Consistent(db) && Possible(db, op)
    ensures Consistent(Apply(db, op)) <==> (op.OpDrop? ==> DropSafe(db, op.c))
  {
    match op
    case OpCreate(c) => CreateKeepsConsistent(db, c);
    case OpInsert(c) => InsertKeepsConsistent(db, c);
    case OpDrop(c) => DropKeepsConsistentIff(db, c);
    case OpSubscribe(c, t) => TopicsKeepConsistent(db, Subscribe(db, c, t));
    case OpUnsubscribe(c, t) => TopicsKeepConsistent(db, Unsubscribe(db, c, t));
  }

  lemma {:induction false} SafeRunConsistent(states: seq<Db>, ops: seq<Op>, i: nat)
    requires IsRun(states, ops) && i < |states|
    requires forall j :: 0 <= j < |ops| && ops[j].OpDrop? ==> DropSafe(states[j], ops[j].c)
    ensures Consistent(states[i])
  {
    assert Consistent(EMPTY);
    hide Consistent, DropSafe;
    if i > 0 {
      SafeRunConsistent(states, ops, i - 1);
      assert IsStep(states[i - 1], ops[i - 1], states[i]);
      StepConsistentIff(states[i - 1], ops[i - 1]);
    }
  }

  /** A run from the empty registry stays consistent throughout exactly when every drop in it was safe. */
  lemma RunConsistentIff(states: seq<Db>, ops: seq<Op>)
    requires IsRun(states, ops)
    ensures (forall i :: 0 <= i < |states| ==> Consistent(states[i]))
            <==> (forall i :: 0 <= i < |ops| && ops[i].OpDrop? ==> DropSafe(states[i], ops[i].c))
  {
    hide Consistent, DropSafe;
    if forall i :: 0 <= i < |ops| && ops[i].OpDrop? ==> DropSafe(states[i], ops[i].c) {
      forall i | 0 <= i < |states| ensures Consistent(states[i]) { SafeRunConsistent(states, ops, i); }
    }
    if forall i :: 0 <= i < |states| ==> Consistent(states[i]) {
      forall i | 0 <= i < |ops| && ops[i].OpDrop? ensures DropSafe(states[i], ops[i].c) {
        assert IsStep(states[i], ops[i], states[i + 1]);
        StepConsistentIff(states[i], ops[i]);
      }
    }
  }

  lemma OwnDropsConsistent(states: seq<Db>, ops: seq<Op>)
    requires IsRun(states, ops)
    requires forall i :: 0 <= i < |ops| && ops[i].OpDrop? ==> OwnDrop(states[i], ops[i].c)
    ensures forall i :: 0 <= i < |states| ==> Consistent(states[i])
  {
    forall i | 0 <= i < |states| ensures Consistent(states[i]) {
      OwnDropsConsistentAt(states, ops, i);
    }
  }

  lemma {:induction false} OwnDropsConsistentAt(states: seq<Db>, ops: seq<Op>, i: nat)
    requires IsRun(states, ops) && i < |states|
    requires forall j :: 0 <= j < |ops| && ops[j].OpDrop? ==> OwnDrop(states[j], ops[j].c)
    ensures Consistent(states[i])
  {
    if i == 0 {
      assert Consistent(EMPTY);
    } else {
      OwnDropsConsistentAt(states, ops, i - 1);
      assert IsStep(states[i - 1], ops[i - 1], states[i]);
      if ops[i - 1].OpDrop? {
        DropSparesOthersIff(states[i - 1], ops[i - 1].c);
      }
      StepConsistentIff(states[i - 1], ops[i - 1]);
    }
  }

  /** A run from the empty registry stays consistent, and no drop in it removes a client it was not meant for, exactly
      when every drop is of a client that holds its name or of one whose name is free. */
  lemma RunSparesIff(states: seq<Db>, ops: seq<Op>)
    requires IsRun(states, ops)
    ensures (forall i :: 0 <= i < |ops| && ops[i].OpDrop? ==> OwnDrop(states[i], ops[i].c))
            <==> (forall i :: 0 <= i < |ops| ==> Consistent(states[i]) && (ops[i].OpDrop? ==>
                  SparesAt(states[i], ops[i])))
  {
    if forall i :: 0 <= i < |ops| && ops[i].OpDrop? ==> OwnDrop(states[i], ops[i].c) {
      OwnDropsConsistent(states, ops);
    }
    forall i | 0 <= i < |ops| && ops[i].OpDrop? && Consistent(states[i])
      ensures SparesAt(states[i], ops[i]) <==> OwnDrop(states[i], ops[i].c)
    {
      assert IsStep(states[i], ops[i], states[i + 1]);
      DropSparesOthersIff(states[i], ops[i].c);
    }
  }

  ghost predicate SparesAt(db: Db, op: Op)
    requires op.OpDrop?
  {
    Wf(db) && op.c in db.secondaries && Spares(db, op.c)
  }

  /** The client is dropped itself, or the drop is of a client with the name of its primary. */
  ghost predicate DropsWith(op: Op, x: ElbusClient) {
    op.OpDrop? && (op.c == x || op.c.name == x.primaryName)
  }

  /** In such a run a registered client stays registered until it or its primary is dropped. */
  lemma {:induction false} RegisteredUntilDropped(states: seq<Db>, ops: seq<Op>, i: nat, j: nat, x: ElbusClient)
    requires IsRun(states, ops) && i <= j < |states| && x in states[i].secondaries && Registered(states[i].clients, x)
    requires forall k :: 0 <= k < |ops| && ops[k].OpDrop? ==> OwnDrop(states[k], ops[k].c)
    requires forall k :: i <= k < j ==> !DropsWith(ops[k], x)
    ensures x in states[j].secondaries && Registered(states[j].clients, x)
    decreases j
  {
    if i < j {
      var k := j - 1;
      RegisteredUntilDropped(states, ops, i, k, x);
      OwnDropsConsistent(states, ops);
      assert IsStep(states[k], ops[k], states[k + 1]);
      StepKeepsRegistered(states[k], ops[k], x);
    }
  }

  lemma StepKeepsRegistered(db: Db, op: Op, x: ElbusClient)
    requires Consistent(db) && Possible(db, op) && x in db.secondaries && Registered(db.clients, x)
    requires op.OpDrop? ==> OwnDrop(db, op.c) && !DropsWith(op, x)
    ensures x in Apply(db, op).secondaries && Registered(Apply(db, op).clients, x)
  {
    if op.OpDrop? {
      DropSparesOthersIff(db, op.c);
      DropKeepsWf(db, op.c);
      assert x.name !in SecondariesOf(db.clients, op.c.name);
    } else if op.OpInsert? {
      InsertKeepsWf(db, op.c);
    }
  }

  /** Eviction, reconnection and the second drop: the new holder of the name loses its registration, although the
      registry stays consistent. */
  lemma StaleDropEvictsSuccessor(a: ElbusClient, b: ElbusClient)
    requires Named(a) && Named(b) && a != b && a.name == b.name && a.primary
    ensures var d := Create(Create(EMPTY, a), b);
            && Consistent(d) && InsertResult(d, a).Ok? && Wf(Insert(d, a)) && a in Insert(d, a).secondaries
            && var e := Drop(Insert(d, a), a);
               && Consistent(e) && InsertResult(e, b).Ok?
               && var db := Insert(e, b);
                  && Consistent(db) && a in db.secondaries && Registered(db.clients, b) && DropSafe(db, a)
                  && Consistent(Drop(db, a)) && !Registered(Drop(db, a).clients, b)
                      && b.name !in Drop(db, a).subscriptions
  {
    var d0 := Create(EMPTY, a);
    var d := Create(d0, b);
    assert Consistent(EMPTY);
    CreateKeepsConsistent(EMPTY, a);
    CreateKeepsConsistent(d0, b);
    InsertThenDrop(d, a);
    InsertKeepsConsistent(d, a);
    InsertKeepsConsistent(d, b);
    InsertKeepsWf(d, b);
    var db := Insert(d, b);
    assert SecondariesOf(db.clients, a.name) == {};
    DropKeepsConsistentIff(db, a);
    DropFamily(db, a);
  }

  /** The registry when `a` has been evicted, `b` has taken its name, and `s` has joined as a secondary of that name. */
  ghost function Reused(a: ElbusClient, b: ElbusClient, s: ElbusClient): Db
    requires Named(a) && Named(b) && Named(s) && a != b && s != a && s != b
  {
    var d0 := Create(Create(Create(EMPTY, a), b), s);
    ReusedWf(a, b, s);
    Insert(Insert(Drop(Insert(d0, a), a), b), s)
  }

  lemma ReusedWf(a: ElbusClient, b: ElbusClient, s: ElbusClient)
    requires Named(a) && Named(b) && Named(s) && a != b && s != a && s != b
    ensures var d := Create(Create(Create(EMPTY, a), b), s);
            && Consistent(d) && Consistent(Insert(d, a)) && a in Insert(d, a).secondaries
            && Consistent(Drop(Insert(d, a), a)) && Wf(Insert(Drop(Insert(d, a), a), b))
            && Drop(Insert(d, a), a) == if InsertResult(d, a).Ok? then d else Drop(d, a)
  {
    var d0, d1 := Create(EMPTY, a), Create(Create(EMPTY, a), b);
    assert Consistent(EMPTY);
    CreateKeepsConsistent(EMPTY, a);
    CreateKeepsConsistent(d0, b);
    CreateKeepsConsistent(d1, s);
    var d := Create(d1, s);
    InsertKeepsConsistent(d, a);
    DropKeepsConsistentIff(Insert(d, a), a);
    if InsertResult(d, a).Ok? {
      InsertThenDrop(d, a);
    } else {
      CascadeOfNothing(d, a);
    }
    InsertKeepsWf(Drop(Insert(d, a), a), b);
  }

  lemma ReusedIs(a: ElbusClient, b: ElbusClient, s: ElbusClient)
    requires Named(a) && Named(b) && Named(s) && a != b && a.name == b.name && a.primary && SubName(s.name, a.name)
    ensures var db := Reused(a, b, s);
            Consistent(db) && a in db.secondaries && db.clients == map[b.name := b, s.name := s]
  {
    SubNameOf(s, a.name);
    var d := Create(Create(Create(EMPTY, a), b), s);
    ReusedWf(a, b, s);
    InsertKeepsConsistent(d, b);
    InsertKeepsWf(d, b);
    InsertAgrees(d, b);
    var d1 := Insert(d, b);
    InsertKeepsConsistent(d1, s);
    InsertKeepsWf(d1, s);
    InsertAgrees(d1, s);
    hide Consistent, Wf, Agree;
  }

  /** A second drop of an evicted client whose name is in use again leaves a secondary registered without a primary. */
  lemma StaleDropOrphans(a: ElbusClient, b: ElbusClient, s: ElbusClient)
    requires Named(a) && Named(b) && Named(s) && a != b && a.name == b.name && a.primary && SubName(s.name, a.name)
    ensures var db := Reused(a, b, s);
            && Consistent(db) && a in db.secondaries && Registered(db.clients, b) && Registered(db.clients, s)
            && var e := Drop(db, a);
               !Consistent(e) && b.name !in e.clients && Registered(e.clients, s) && s.primaryName !in e.clients
  {
    hide Reused;
    var db := Reused(a, b, s);
    ReusedIs(a, b, s);
    SubNameOf(s, a.name);
    assert Exact(db, a);
    assert s.name in SecondariesOf(db.clients, a.name);
    DropKeepsConsistentIff(db, a);
    hide Consistent;
    assert Drop(db, a).clients == db.clients - {a.name};
  }

  // ----- the registry changed in place

  datatype ClientInfo = ClientInfo(name: Name, queue: nat, instances: nat)

  function TotalInstances(infos: seq<ClientInfo>): nat {
    if infos == [] then 0 else TotalInstances(infos[..|infos| - 1]) + infos[|infos| - 1].instances
  }

  /** The registered clients whose primary is among `primaries`. */
  ghost function Family(clients: Clients, primaries: set<Name>): set<Name> {
    set n | n in clients && clients[n].primaryName in primaries
  }

  /** Listing one more primary counts it and its secondaries, none of which was counted before. */
  lemma FamilyGrows(db: Db, done: set<Name>, p: Name)
    requires Consistent(db) && p in db.clients && p !in done
    ensures db.clients[p].primary ==>
              |Family(db.clients, done + {p})| == |Family(db.clients, done)| + |db.secondaries[db.clients[p]]| + 1
    ensures !db.clients[p].primary ==> Family(db.clients, done + {p}) == Family(db.clients, done)
  {
    var c := db.clients[p];
    if c.primary {
      assert Exact(db, c);
      FamilyOfPrimary(db.clients, done, p);
    } else {
      SecondaryHasNone(db, c);
      assert Family(db.clients, done + {p}) == Family(db.clients, done);
    }
  }

  lemma FamilyOfPrimary(clients: Clients, done: set<Name>, p: Name)
    requires p in clients && clients[p].primaryName == p && p !in done
    ensures |Family(clients, done + {p})| == |Family(clients, done)| + |SecondariesOf(clients, p)| + 1
  {
    var f, s := Family(clients, done), SecondariesOf(clients, p) + {p};
    assert Family(clients, done + {p}) == f + s;
    assert f * s == {};
  }

  class BrokerDb {
    var clients: Clients
    var broadcasts: Clients
    var subscriptions: map<Name, Subscriber>
    var rFrames: nat
    var rBytes: nat
    var wFrames: nat
    var wBytes: nat
    ghost var known: set<ElbusClient>  // every client object created for this broker

    ghost function Snapshot(): Db
      reads this`clients, this`broadcasts, this`subscriptions, this`known, known`secondaries, known`disconnected
    {
      Db(clients, broadcasts, subscriptions, map c | c in known :: c.secondaries, set c | c in known && c.disconnected)
    }

    constructor ()
      ensures Snapshot() == EMPTY && known == {}
      ensures rFrames == rBytes == wFrames == wBytes == 0
    {
      clients, broadcasts, subscriptions, known := map[], map[], map[], {};
      rFrames, rBytes, wFrames, wBytes := 0, 0, 0, 0;
    }

    /** Creates a client object for this broker, not yet registered. */
    method NewClient(name: Name, kind: ClientKind, capacity: Capacity) returns (c: ElbusClient)
      modifies this`known
      ensures fresh(c) && c.name == name && c.kind == kind && c.capacity == capacity
      ensures c.queue == [] && !c.closed && !c.disconnected && Named(c)
      ensures known == old(known) + {c} && Snapshot() == Create(old(Snapshot()), c)
    {
      c := new ElbusClient(name, kind, capacity);
      known := known + {c};
      ghost var before, after := old(Snapshot()), Snapshot();
      assert after.secondaries == before.secondaries[c := {}];
      assert after.triggered == before.triggered;
    }

    /** `c.secondaries` replaced, under its mutex. */
    method SetSecondaries(c: ElbusClient, names: set<Name>)
      requires c in known
      modifies c`secondaries
      ensures Snapshot() == old(Snapshot()).(secondaries := old(Snapshot()).secondaries[c := names])
    {
      c.secondaries := names;
      ghost var before, after := old(Snapshot()), Snapshot();
      assert after.secondaries == before.secondaries[c := names];
      assert after.triggered == before.triggered;
    }

    /** `disconnect_trig.trigger()`. */
    method Trigger(c: ElbusClient)
      requires c in known
      modifies c`disconnected
      ensures Snapshot() == old(Snapshot()).(triggered := old(Snapshot()).triggered + {c})
    {
      c.disconnected := true;
      ghost var before, after := old(Snapshot()), Snapshot();
      assert after.secondaries == before.secondaries;
      assert after.triggered == before.triggered + {c};
    }

    method InsertClient(c: ElbusClient) returns (r: Result<()>)
      requires c in known && Wf(Snapshot())
      modifies this`clients, this`broadcasts, this`subscriptions, known`secondaries
      ensures r == InsertResult(old(Snapshot()), c)
      ensures Snapshot() == Insert(old(Snapshot()), c)
    {
      if !c.primary && c.primaryName !in clients {
        return Err(NotRegistered);
      }
      if c.name in clients {
        return Err(Busy);
      }
      if !c.primary {
        var p := clients[c.primaryName];
        SetSecondaries(p, p.secondaries + {c.name});
      }
      Link(c);
      r := Ok(());
    }

    /** The registrations `insert_client` makes in the three maps. */
    method Link(c: ElbusClient)
      requires c.name !in clients
      modifies this`clients, this`broadcasts, this`subscriptions
      ensures clients == old(clients)[c.name := c]
      ensures broadcasts == if c.name in old(broadcasts) then old(broadcasts) else old(broadcasts)[c.name := c]
      ensures subscriptions == old(subscriptions)[c.name := Subscribed(old(subscriptions), c)]
      ensures Snapshot().secondaries == old(Snapshot()).secondaries && Snapshot().triggered == old(Snapshot()).triggered
    {
      if c.name !in broadcasts {
        broadcasts := broadcasts[c.name := c];
      }
      LinkTopics(c);
      clients := clients[c.name := c];
    }

    method LinkTopics(c: ElbusClient)
      modifies this`subscriptions
      ensures subscriptions == old(subscriptions)[c.name := Subscribed(old(subscriptions), c)]
    {
      var s := if c.name in subscriptions then subscriptions[c.name] else Subscriber(c, {});
      subscriptions := subscriptions[c.name := s.(topics := s.topics + {BROKER_WARN_TOPIC})];
    }

    /** Unregisters a client; a primary takes its registered secondaries with it. */
    method DropClient(c: ElbusClient)
      requires c in known && Wf(Snapshot())
      modifies this`clients, this`broadcasts, this`subscriptions, known`secondaries, known`disconnected
      ensures Snapshot() == Drop(old(Snapshot()), c)
      decreases if c.primary then 2 else 0
    {
      ghost var db := Snapshot();
      subscriptions := subscriptions - {c.name};
      broadcasts := broadcasts - {c.name};
      clients := clients - {c.name};
      CascadeNone(db, c);
      assert Snapshot() == Cascade(db, c, {});
      if c.primary {
        DropSecondaries(c, db);
        SetSecondaries(c, {});
      } else if c.primaryName in clients {
        var p := clients[c.primaryName];
        SetSecondaries(p, p.secondaries - {c.name});
      }
    }

    /** The loop of `drop_client` over the secondaries of a primary that has just left the maps. */
    method DropSecondaries(c: ElbusClient, ghost db: Db)
      requires c in known && c.primary && c in db.secondaries && Wf(db) && Snapshot() == Cascade(db, c, {})
      modifies this`clients, this`broadcasts, this`subscriptions, known`secondaries, known`disconnected
      ensures Snapshot() == Cascade(db, c, db.secondaries[c])
      decreases 1
    {
      ghost var done := {};
      var todo := c.secondaries;
      while todo != {}
        invariant done + todo == db.secondaries[c] && done !! todo
        invariant Snapshot() == Cascade(db, c, done)
      {
        var s :| s in todo;
        todo := todo - {s};
        assert SubName(s, c.name);
        if s in clients {
          SecondaryLeaves(db, c, done, s);
          var sec := clients[s];
          if sec.kind != Internal {
            Trigger(sec);
          }
          DropClient(sec);
        } else {
          CascadeSkips(db, c, done, s);
        }
        done := done + {s};
      }
      assert done == db.secondaries[c];
    }

    /** Adds a topic to a client's subscriptions, if a client is registered for topics under its name. */
    method SubscribeClient(c: ElbusClient, topic: Name) returns (ok: bool)
      modifies this`subscriptions
      ensures ok == (c.name in old(subscriptions)) && Snapshot() == Subscribe(old(Snapshot()), c, topic)
    {
      ok := c.name in subscriptions;
      if ok {
        var s := subscriptions[c.name];
        subscriptions := subscriptions[c.name := s.(topics := s.topics + {topic})];
      }
    }

    method UnsubscribeClient(c: ElbusClient, topic: Name) returns (ok: bool)
      modifies this`subscriptions
      ensures ok == (c.name in old(subscriptions)) && Snapshot() == Unsubscribe(old(Snapshot()), c, topic)
    {
      ok := c.name in subscriptions;
      if ok {
        var s := subscriptions[c.name];
        subscriptions := subscriptions[c.name := s.(topics := s.topics - {topic})];
      }
    }

    /** Reports each primary with the number of its connections; together they account for every client. */
    method ListClients() returns (infos: seq<ClientInfo>)
      requires Consistent(Snapshot())
      ensures TotalInstances(infos) == |clients|
      ensures ListsOnce(infos, set n | n in clients && clients[n].primary)
      ensures forall i :: 0 <= i < |infos| ==> Describes(infos[i])
    {
      infos := [];
      var done: set<Name> := {};
      ghost var db := Snapshot();
      NothingListed(clients);
      while done != clients.Keys
        invariant done <= clients.Keys
        invariant Listed(infos, clients, done)
        invariant forall i :: 0 <= i < |infos| ==> Describes(infos[i])
        decreases clients.Keys - done
      {
        var n := AnotherName(clients, done);
        var info := InfoOf(n);
        ListedGrows(db, done, infos, info);
        assert Exact(db, clients[n]);
        if clients[n].primary {
          infos := infos + [info];
        }
        done := done + {n};
      }
      EverythingListed(infos, clients);
    }

    /** A line of the listing: how long the client's queue is, and how many connections its name has. */
    ghost predicate Describes(info: ClientInfo)
      reads this, known
    {
      && info.name in clients && clients[info.name] in known && info.queue == |clients[info.name].queue|
      && info.instances == 1 + |SecondariesOf(clients, info.name)|
    }

    function InfoOf(n: Name): (info: ClientInfo)
      requires n in clients && clients[n] in known
      reads this, known
      ensures info.name == n && info.instances == |Snapshot().secondaries[clients[n]]| + 1
      ensures info.queue == |clients[n].queue|
    {
      var c := clients[n];
      ClientInfo(n, |c.queue|, |c.secondaries| + 1)
    }
  }

  lemma NothingListed(clients: Clients)
    ensures Listed([], clients, {})
  {}

  lemma EverythingListed(infos: seq<ClientInfo>, clients: Clients)
    requires AllHavePrimary(clients) && Listed(infos, clients, clients.Keys)
    ensures TotalInstances(infos) == |clients|
    ensures ListsOnce(infos, set n | n in clients && clients[n].primary)
  {
    EveryoneHasFamily(clients);
    assert PrimariesAmong(clients, clients.Keys) == set n | n in clients && clients[n].primary;
  }

  method AnotherName(clients: Clients, done: set<Name>) returns (n: Name)
    requires done < clients.Keys
    ensures n in clients && n !in done
  {
    assert exists m :: m in clients.Keys && m !in done;
    n :| n in clients.Keys && n !in done;
  }

  ghost function PrimariesAmong(clients: Clients, names: set<Name>): set<Name> {
    set n | n in names && n in clients && clients[n].primary
  }

  /** The listing so far: each primary among `done` once, counting exactly the clients below them. */
  ghost predicate Listed(infos: seq<ClientInfo>, clients: Clients, done: set<Name>) {
    ListsOnce(infos, PrimariesAmong(clients, done)) && TotalInstances(infos) == |Family(clients, done)|
  }

  lemma ListedGrows(db: Db, done: set<Name>, infos: seq<ClientInfo>, info: ClientInfo)
    requires Consistent(db) && info.name in db.clients && info.name !in done && Listed(infos, db.clients, done)
    requires info.instances == |db.secondaries[db.clients[info.name]]| + 1
    ensures Listed(if db.clients[info.name].primary then infos + [info] else infos, db.clients, done + {info.name})
  {
    var n := info.name;
    FamilyGrows(db, done, n);
    var listed := PrimariesAmong(db.clients, done);
    if db.clients[n].primary {
      assert PrimariesAmong(db.clients, done + {n}) == listed + {n};
      ListsOneMore(infos, listed, info);
    } else {
      assert PrimariesAmong(db.clients, done + {n}) == listed;
    }
  }

  /** Each of `names` is listed exactly once and nothing else is. */
  ghost predicate ListsOnce(infos: seq<ClientInfo>, names: set<Name>) {
    if infos == [] then names == {}
    else
      var last := infos[|infos| - 1].name;
      last in names && ListsOnce(infos[..|infos| - 1], names - {last})
  }

  lemma ListsOneMore(infos: seq<ClientInfo>, names: set<Name>, info: ClientInfo)
    requires ListsOnce(infos, names) && info.name !in names
    ensures ListsOnce(infos + [info], names + {info.name})
    ensures TotalInstances(infos + [info]) == TotalInstances(infos) + info.instances
  {}

  lemma EveryoneHasFamily(clients: Clients)
    requires AllHavePrimary(clients)
    ensures Family(clients, clients.Keys) == clients.Keys
  {
    forall n | n in clients ensures n in Family(clients, clients.Keys) {
      assert HasPrimary(clients, n);
    }
  }

  lemma CascadeNone(db: Db, c: ElbusClient)
    requires Wf(db)
    ensures Cascade(db, c, {}) == db.(clients := db.clients - {c.name}, broadcasts := db.broadcasts - {c.name},
                                      subscriptions := db.subscriptions - {c.name})
  {}

  lemma CascadeSkips(db: Db, c: ElbusClient, done: set<Name>, s: Name)
    requires Wf(db) && s !in Cascade(db, c, done).clients && s != c.name
    ensures Cascade(db, c, done + {s}) == Cascade(db, c, done)
  {}

  /** One turn of the cascade: the next registered secondary is told to disconnect and dropped; its primary is
      already gone from the map, so nobody's `secondaries` changes. */
  lemma SecondaryLeaves(db: Db, c: ElbusClient, done: set<Name>, s: Name)
    requires Wf(db) && c in db.secondaries && c.primary
    requires s in db.secondaries[c] && s !in done && s in Cascade(db, c, done).clients
    ensures var mid := Cascade(db, c, done);
            var sec := mid.clients[s];
            var told := mid.(triggered := if sec.kind != Internal then mid.triggered + {sec} else mid.triggered);
            && sec in db.secondaries && !sec.primary
            && Wf(mid) && Wf(told) && Drop(told, sec) == Cascade(db, c, done + {s})
  {
    var mid := Cascade(db, c, done);
    var sec := mid.clients[s];
    var told := mid.(triggered := if sec.kind != Internal then mid.triggered + {sec} else mid.triggered);
    assert Named(sec) && SubName(s, c.name);
    SubNameOf(sec, c.name);
    SubWf(db, mid);
    SubWf(db, told);
    CascadeNone(told, sec);
    CascadeGrows(db, c, done, s);
  }

  lemma CascadeGrows(db: Db, c: ElbusClient, done: set<Name>, s: Name)
    requires Wf(db) && s !in done && s in Cascade(db, c, done).clients
    ensures var mid, after := Cascade(db, c, done), Cascade(db, c, done + {s});
            var sec := mid.clients[s];
            && after.clients == mid.clients - {s}
            && after.broadcasts == mid.broadcasts - {s}
            && after.subscriptions == mid.subscriptions - {s}
            && after.triggered == if sec.kind != Internal then mid.triggered + {sec} else mid.triggered
  {
    var gone := {c.name} + done * db.clients.Keys;
    assert {c.name} + (done + {s}) * db.clients.Keys == gone + {s};
    assert db.clients - (gone + {s}) == db.clients - gone - {s};
    assert db.broadcasts - (gone + {s}) == db.broadcasts - gone - {s};
    assert db.subscriptions - (gone + {s}) == db.subscriptions - gone - {s};
  }

  lemma SubWf(db: Db, e: Db)
    requires Wf(db) && e.secondaries == db.secondaries && e.triggered <= db.secondaries.Keys
    requires forall n :: n in e.clients ==> n in db.clients && e.clients[n] == db.clients[n]
    requires forall n :: n in e.broadcasts ==> n in db.broadcasts && e.broadcasts[n] == db.broadcasts[n]
    requires forall n :: n in e.subscriptions ==> n in db.subscriptions && e.subscriptions[n] == db.subscriptions[n]
    ensures Wf(e)
  {}
}
