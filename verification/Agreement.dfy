/** When the three maps of the registry agree although its locks are taken one at a time: what registrations and drops
    have to respect, and a run in which a drop comes too early. */
module Agreement {
  import opened Bytes
  import opened Locks
  import R = Registry

  type Client = R.ElbusClient

  ghost predicate InSubs(db: R.Db, x: Client) {
    x.name in db.subscriptions && db.subscriptions[x.name].client == x
  }

  ghost predicate InNames(db: R.Db, x: Client) {
    x.name in db.broadcasts && db.broadcasts[x.name] == x
  }

  ghost predicate InClients(db: R.Db, x: Client) { R.Registered(db.clients, x) }

  /** The object a thread is about to remove from one of the maps. */
  ghost function Removing(pc: Pc): Option<Client> {
    if pc.At? && (pc.stage.DropSubscriptions? || pc.stage.DropBroadcasts?
        || pc.stage.DropClients?) then Some(pc.stage.c) else None
  }

  /** What keeps the maps together: a drop begins only when nobody is still registering its object, and what it removes
      by name from a map is its own object, or nothing - or, from the clients, an object that its own drop has already
      taken out of the other two. */
  ghost predicate Respects(s: State, m: Move) {
    && (m.Begin? && m.st.DropSubscriptions? ==> forall u :: u in s.pcs ==> Inserting(s.pcs[u]) != Some(m.st.c))
    && (m.Do? && m.t in s.pcs && s.pcs[m.t].At? ==>
          var db := s.sh.db;
          match s.pcs[m.t].stage
          case DropSubscriptions(c, _) => c.name in db.subscriptions ==> InSubs(db, c)
          case DropBroadcasts(c, _) => c.name in db.broadcasts ==> InNames(db, c)
          case DropClients(c, _) =>
            c.name in db.clients ==> InClients(db, c) || !InNames(db, db.clients[c.name])
          case _ => true)
  }

  // ----- the invariant

  ghost predicate Adding(pc: Pc, x: Client) {
    pc.At? && (pc.stage == InsSubscriptions(x) || pc.stage == InsStore(x))
  }

  /** A drop of `x` that has been through the subscriptions; through the broadcast names as well. */
  ghost predicate PastSubs(pc: Pc, x: Client) {
    pc.At? && (pc.stage.DropBroadcasts? || pc.stage.DropClients?) && pc.stage.c == x
  }

  ghost predicate PastNames(pc: Pc, x: Client) { pc.At? && pc.stage.DropClients? && pc.stage.c == x }

  ghost predicate SomeAdding(s: State, x: Client) { exists t :: t in s.pcs && Adding(s.pcs[t], x) }
  ghost predicate SomePastSubs(s: State, x: Client) { exists t :: t in s.pcs && PastSubs(s.pcs[t], x) }
  ghost predicate SomePastNames(s: State, x: Client) { exists t :: t in s.pcs && PastNames(s.pcs[t], x) }

  /** Where an object is: subscribed only if named, named only if stored or being added; missing from a map only if a
      drop has been there. */
  ghost predicate Placed(s: State, x: Client) {
    var db := s.sh.db;
    && (InSubs(db, x) ==> InNames(db, x))
    && (InNames(db, x) ==> x in s.sh.launched && (InClients(db, x) || SomeAdding(s, x)))
    && (InClients(db, x) ==> InNames(db, x) || SomePastNames(s, x))
    && (InClients(db, x) ==> InSubs(db, x) || SomePastSubs(s, x))
  }

  ghost predicate PcFits(db: R.Db, pc: Pc) {
    pc.At? ==>
      match pc.stage
      case InsSecondary(c, _) => c.name !in db.clients
      case InsBroadcasts(c) => c.name !in db.clients
      case InsSubscriptions(c) => c.name !in db.clients && InNames(db, c) && c.name !in db.subscriptions
      case InsStore(c) => c.name !in db.clients && InNames(db, c) && InSubs(db, c)
      case DropBroadcasts(c, _) => !InSubs(db, c)
      case DropClients(c, _) => !InSubs(db, c) && !InNames(db, c)
      case _ => true
  }

  /** Nobody removes what another thread is registering. */
  ghost predicate Strangers(a: Pc, b: Pc) { Removing(a).Some? ==> Inserting(b) != Removing(a) }

  ghost predicate Fits(s: State) {
    && (forall x {:trigger Placed(s, x)} :: x in s.sh.db.secondaries ==> Placed(s, x))
    && (forall t :: t in s.pcs ==> PcFits(s.sh.db, s.pcs[t]))
    && (forall t, u {:trigger s.pcs[t], s.pcs[u]} :: t in s.pcs && u in s.pcs ==> Strangers(s.pcs[t], s.pcs[u]))
  }

  /** With all threads idle, the maps agree. */
  lemma IdleAgrees(s: State)
    requires Inv(s) && Fits(s) && forall t :: t in s.pcs ==> s.pcs[t].Idle?
    ensures R.Agree(s.sh.db)
  {
    var db := s.sh.db;
    forall n | n in db.subscriptions ensures n in db.clients {
      assert Placed(s, db.subscriptions[n].client);
    }
    forall n | n in db.broadcasts ensures n in db.clients && db.clients[n] == db.broadcasts[n] {
      assert Placed(s, db.broadcasts[n]);
    }
    forall n | n in db.clients
      ensures n in db.broadcasts && db.clients[n] == db.broadcasts[n]
      ensures n in db.subscriptions && db.subscriptions[n].client == db.clients[n]
    {
      assert Placed(s, db.clients[n]);
    }
  }

  // ----- preservation

  /** A witness among the other threads stays one. */
  lemma OthersStay(s: State, r: State, t: Tid, x: Client)
    requires t in s.pcs && t in r.pcs && r.pcs == s.pcs[t := r.pcs[t]]
    ensures SomeAdding(s, x) && !Adding(s.pcs[t], x) ==> SomeAdding(r, x)
    ensures SomePastSubs(s, x) && !PastSubs(s.pcs[t], x) ==> SomePastSubs(r, x)
    ensures SomePastNames(s, x) && !PastNames(s.pcs[t], x) ==> SomePastNames(r, x)
    ensures Adding(r.pcs[t], x) ==> SomeAdding(r, x)
    ensures PastSubs(r.pcs[t], x) ==> SomePastSubs(r, x)
    ensures PastNames(r.pcs[t], x) ==> SomePastNames(r, x)
  {
    assert forall u :: u in s.pcs && u != t ==> r.pcs[u] == s.pcs[u];
    if SomeAdding(s, x) && !Adding(s.pcs[t], x) {
      var u :| u in s.pcs && Adding(s.pcs[u], x);
      assert Adding(r.pcs[u], x);
    }
    if SomePastSubs(s, x) && !PastSubs(s.pcs[t], x) {
      var u :| u in s.pcs && PastSubs(s.pcs[u], x);
      assert PastSubs(r.pcs[u], x);
    }
    if SomePastNames(s, x) && !PastNames(s.pcs[t], x) {
      var u :| u in s.pcs && PastNames(s.pcs[u], x);
      assert PastNames(r.pcs[u], x);
    }
  }

  /** The move of one thread, put together. */
  lemma Assembled(s: State, r: State, t: Tid)
    requires Fits(s) && t in s.pcs && t in r.pcs && r.pcs == s.pcs[t := r.pcs[t]]
    requires forall x :: x in r.sh.db.secondaries ==> Placed(r, x)
    requires PcFits(r.sh.db, r.pcs[t]) && Strangers(r.pcs[t], r.pcs[t])
    requires forall u :: u in s.pcs && u != t ==>
               PcFits(r.sh.db, s.pcs[u]) && Strangers(r.pcs[t], s.pcs[u]) && Strangers(s.pcs[u], r.pcs[t])
    ensures Fits(r)
  {
    hide Placed, PcFits, Strangers;
  }

  /** A move that leaves the three maps alone. */
  lemma QuietFits(s: State, r: State, t: Tid)
    requires Fits(s) && t in s.pcs && t in r.pcs && r.pcs == s.pcs[t := r.pcs[t]]
    requires r.sh.db.clients == s.sh.db.clients && r.sh.db.broadcasts == s.sh.db.broadcasts
    requires r.sh.db.subscriptions == s.sh.db.subscriptions && r.sh.launched == s.sh.launched
    requires forall x :: Adding(s.pcs[t], x) ==> Adding(r.pcs[t], x)
    requires forall x :: PastSubs(s.pcs[t], x) ==> PastSubs(r.pcs[t], x)
    requires forall x :: PastNames(s.pcs[t], x) ==> PastNames(r.pcs[t], x)
    requires forall x :: x in r.sh.db.secondaries && x !in s.sh.db.secondaries ==>
               !InNames(r.sh.db, x) && !InSubs(r.sh.db, x) && !InClients(r.sh.db, x)
    requires PcFits(s.sh.db, r.pcs[t])
    requires forall u :: u in s.pcs ==> (Strangers(r.pcs[t], s.pcs[u]) && Strangers(s.pcs[u], r.pcs[t])) || u == t
    requires Strangers(r.pcs[t], r.pcs[t])
    ensures Fits(r)
  {
    forall x | x in r.sh.db.secondaries ensures Placed(r, x) {
      if x in s.sh.db.secondaries {
        assert Placed(s, x);
        OthersStay(s, r, t, x);
      }
    }
    Assembled(s, r, t);
  }

  /** A thread doing the work of a stage. */
  ghost predicate Works(s: State, t: Tid, st: Stage) {
    Inv(s) && Fits(s) && t in s.pcs && s.pcs[t] == At(st, true)
  }

  lemma FactsOf(s: State, t: Tid, y: Client)
    requires Fits(s) && t in s.pcs && y in s.sh.db.secondaries
    ensures PcFits(s.sh.db, s.pcs[t]) && Placed(s, y)
  {
    hide Placed, PcFits, Strangers;
  }

  lemma FactsOfTwo(s: State, t: Tid, u: Tid)
    requires Fits(s) && t in s.pcs && u in s.pcs
    ensures PcFits(s.sh.db, s.pcs[t]) && PcFits(s.sh.db, s.pcs[u])
    ensures Strangers(s.pcs[t], s.pcs[u]) && Strangers(s.pcs[u], s.pcs[t])
  {
    hide Placed, PcFits, Strangers;
  }

  /** No other thread is past the first stage of a registration. */
  lemma AloneAdding(s: State, t: Tid, u: Tid)
    requires Inv(s) && t in s.pcs && u in s.pcs && t != u && ClientsLock(s.pcs[t]).Exclusive?
    ensures !(s.pcs[u].At? && (s.pcs[u].stage.InsSecondary? || s.pcs[u].stage.InsBroadcasts?
                               || s.pcs[u].stage.InsSubscriptions? || s.pcs[u].stage.InsStore?))
  {
    assert Apart(s.pcs[t], s.pcs[u]);
  }

  /** Under the lock of the clients map, an object whose name is not in it is in no other map, unless it is being
      added. */
  lemma NoNamesake(s: State, t: Tid, c: Client, x: Client)
    requires Works(s, t, InsBroadcasts(c)) && x in s.sh.db.secondaries && x.name == c.name
    ensures !InNames(s.sh.db, x) && !InSubs(s.sh.db, x)
  {
    assert PcFits(s.sh.db, s.pcs[t]) && Placed(s, x);
    forall u | u in s.pcs && u != t ensures !Adding(s.pcs[u], x) {
      AloneAdding(s, t, u);
    }
  }

  lemma NameIsFree(s: State, t: Tid, c: Client)
    requires Works(s, t, InsBroadcasts(c))
    ensures c.name !in s.sh.db.broadcasts && c.name !in s.sh.db.subscriptions
  {
    var db := s.sh.db;
    assert R.Wf(db);
    hide Fits;
    if c.name in db.broadcasts {
      NoNamesake(s, t, c, db.broadcasts[c.name]);
    }
    if c.name in db.subscriptions {
      NoNamesake(s, t, c, db.subscriptions[c.name].client);
    }
  }

  // the six stages that change a map

  lemma AddNamePlaces(s: State, t: Tid, c: Client, pick: Name, y: Client)
    requires Works(s, t, InsBroadcasts(c)) && y in s.sh.db.secondaries
    ensures Placed(Step(s, Do(t, pick)), y)
  {
    hide Inv, Fits, SomeAdding, SomePastSubs, SomePastNames;
    NameIsFree(s, t, c);
    FactsOf(s, t, y);
    OthersStay(s, Step(s, Do(t, pick)), t, y);
  }

  lemma AddNameOthers(s: State, t: Tid, c: Client, pick: Name, u: Tid)
    requires Works(s, t, InsBroadcasts(c)) && u in s.pcs && u != t
    ensures var r := Step(s, Do(t, pick));
            PcFits(r.sh.db, s.pcs[u]) && Strangers(r.pcs[t], s.pcs[u]) && Strangers(s.pcs[u], r.pcs[t])
  {
    hide Inv, Fits;
    FactsOfTwo(s, t, u);
    AloneAdding(s, t, u);
  }

  lemma AddNameFits(s: State, t: Tid, c: Client, pick: Name)
    requires Works(s, t, InsBroadcasts(c))
    ensures Fits(Step(s, Do(t, pick)))
  {
    hide Inv, Fits;
    var r := Step(s, Do(t, pick));
    NameIsFree(s, t, c);
    FactsOfTwo(s, t, t);
    assert PcFits(r.sh.db, r.pcs[t]) && r.sh.db.secondaries == s.sh.db.secondaries;
    hide Placed, PcFits, Respects;
    forall y | y in s.sh.db.secondaries ensures Placed(r, y) { AddNamePlaces(s, t, c, pick, y); }
    forall u | u in s.pcs && u != t
      ensures PcFits(r.sh.db, s.pcs[u]) && Strangers(r.pcs[t], s.pcs[u]) && Strangers(s.pcs[u], r.pcs[t])
    {
      AddNameOthers(s, t, c, pick, u);
    }
    Assembled(s, r, t);
  }

  lemma AddSubsPlaces(s: State, t: Tid, c: Client, pick: Name, y: Client)
    requires Works(s, t, InsSubscriptions(c)) && y in s.sh.db.secondaries
    ensures Placed(Step(s, Do(t, pick)), y)
  {
    hide Inv, Fits, SomeAdding, SomePastSubs, SomePastNames;
    FactsOf(s, t, y);
    OthersStay(s, Step(s, Do(t, pick)), t, y);
  }

  lemma AddSubsOthers(s: State, t: Tid, c: Client, pick: Name, u: Tid)
    requires Works(s, t, InsSubscriptions(c)) && u in s.pcs && u != t
    ensures var r := Step(s, Do(t, pick));
            PcFits(r.sh.db, s.pcs[u]) && Strangers(r.pcs[t], s.pcs[u]) && Strangers(s.pcs[u], r.pcs[t])
  {
    hide Inv, Fits;
    FactsOfTwo(s, t, u);
    AloneAdding(s, t, u);
  }

  lemma AddSubsFits(s: State, t: Tid, c: Client, pick: Name)
    requires Works(s, t, InsSubscriptions(c))
    ensures Fits(Step(s, Do(t, pick)))
  {
    hide Inv, Fits;
    var r := Step(s, Do(t, pick));
    FactsOfTwo(s, t, t);
    assert PcFits(r.sh.db, r.pcs[t]) && r.sh.db.secondaries == s.sh.db.secondaries;
    hide Placed, PcFits, Respects;
    forall y | y in s.sh.db.secondaries ensures Placed(r, y) { AddSubsPlaces(s, t, c, pick, y); }
    forall u | u in s.pcs && u != t
      ensures PcFits(r.sh.db, s.pcs[u]) && Strangers(r.pcs[t], s.pcs[u]) && Strangers(s.pcs[u], r.pcs[t])
    {
      AddSubsOthers(s, t, c, pick, u);
    }
    Assembled(s, r, t);
  }

  lemma StorePlaces(s: State, t: Tid, c: Client, pick: Name, y: Client)
    requires Works(s, t, InsStore(c)) && y in s.sh.db.secondaries
    ensures Placed(Step(s, Do(t, pick)), y)
  {
    hide Inv, Fits, SomeAdding, SomePastSubs, SomePastNames;
    FactsOf(s, t, y);
    OthersStay(s, Step(s, Do(t, pick)), t, y);
  }

  lemma StoreOthers(s: State, t: Tid, c: Client, pick: Name, u: Tid)
    requires Works(s, t, InsStore(c)) && u in s.pcs && u != t
    ensures var r := Step(s, Do(t, pick));
            PcFits(r.sh.db, s.pcs[u]) && Strangers(r.pcs[t], s.pcs[u]) && Strangers(s.pcs[u], r.pcs[t])
  {
    hide Inv, Fits;
    FactsOfTwo(s, t, u);
    AloneAdding(s, t, u);
  }

  lemma StoreFits(s: State, t: Tid, c: Client, pick: Name)
    requires Works(s, t, InsStore(c))
    ensures Fits(Step(s, Do(t, pick)))
  {
    hide Inv, Fits;
    var r := Step(s, Do(t, pick));
    FactsOfTwo(s, t, t);
    assert PcFits(r.sh.db, r.pcs[t]) && r.sh.db.secondaries == s.sh.db.secondaries;
    hide Placed, PcFits, Respects;
    forall y | y in s.sh.db.secondaries ensures Placed(r, y) { StorePlaces(s, t, c, pick, y); }
    forall u | u in s.pcs && u != t
      ensures PcFits(r.sh.db, s.pcs[u]) && Strangers(r.pcs[t], s.pcs[u]) && Strangers(s.pcs[u], r.pcs[t])
    {
      StoreOthers(s, t, c, pick, u);
    }
    Assembled(s, r, t);
  }

  lemma RemoveSubsPlaces(s: State, t: Tid, c: Client, x: Ctx, pick: Name, y: Client)
    requires Works(s, t, DropSubscriptions(c, x)) && Respects(s, Do(t, pick)) && y in s.sh.db.secondaries
    ensures Placed(Step(s, Do(t, pick)), y)
  {
    hide Inv, Fits, SomeAdding, SomePastSubs, SomePastNames;
    FactsOf(s, t, y);
    OthersStay(s, Step(s, Do(t, pick)), t, y);
  }

  lemma RemoveSubsOthers(s: State, t: Tid, c: Client, x: Ctx, pick: Name, u: Tid)
    requires Works(s, t, DropSubscriptions(c, x)) && Respects(s, Do(t, pick)) && u in s.pcs && u != t
    ensures var r := Step(s, Do(t, pick));
            PcFits(r.sh.db, s.pcs[u]) && Strangers(r.pcs[t], s.pcs[u]) && Strangers(s.pcs[u], r.pcs[t])
  {
    hide Inv, Fits;
    FactsOfTwo(s, t, u);
  }

  lemma RemoveSubsFits(s: State, t: Tid, c: Client, x: Ctx, pick: Name)
    requires Works(s, t, DropSubscriptions(c, x)) && Respects(s, Do(t, pick))
    ensures Fits(Step(s, Do(t, pick)))
  {
    hide Inv, Fits;
    var r := Step(s, Do(t, pick));
    FactsOfTwo(s, t, t);
    assert PcFits(r.sh.db, r.pcs[t]) && r.sh.db.secondaries == s.sh.db.secondaries;
    hide Placed, PcFits, Respects;
    forall y | y in s.sh.db.secondaries ensures Placed(r, y) { RemoveSubsPlaces(s, t, c, x, pick, y); }
    forall u | u in s.pcs && u != t
      ensures PcFits(r.sh.db, s.pcs[u]) && Strangers(r.pcs[t], s.pcs[u]) && Strangers(s.pcs[u], r.pcs[t])
    {
      RemoveSubsOthers(s, t, c, x, pick, u);
    }
    Assembled(s, r, t);
  }

  lemma RemoveNamePlaces(s: State, t: Tid, c: Client, x: Ctx, pick: Name, y: Client)
    requires Works(s, t, DropBroadcasts(c, x)) && Respects(s, Do(t, pick)) && y in s.sh.db.secondaries
    ensures Placed(Step(s, Do(t, pick)), y)
  {
    hide Inv, Fits, SomeAdding, SomePastSubs, SomePastNames;
    FactsOf(s, t, y);
    OthersStay(s, Step(s, Do(t, pick)), t, y);
  }

  lemma RemoveNameOthers(s: State, t: Tid, c: Client, x: Ctx, pick: Name, u: Tid)
    requires Works(s, t, DropBroadcasts(c, x)) && Respects(s, Do(t, pick)) && u in s.pcs && u != t
    ensures var r := Step(s, Do(t, pick));
            PcFits(r.sh.db, s.pcs[u]) && Strangers(r.pcs[t], s.pcs[u]) && Strangers(s.pcs[u], r.pcs[t])
  {
    hide Inv, Fits;
    FactsOfTwo(s, t, u);
  }

  lemma RemoveNameFits(s: State, t: Tid, c: Client, x: Ctx, pick: Name)
    requires Works(s, t, DropBroadcasts(c, x)) && Respects(s, Do(t, pick))
    ensures Fits(Step(s, Do(t, pick)))
  {
    hide Inv, Fits;
    var r := Step(s, Do(t, pick));
    FactsOfTwo(s, t, t);
    assert PcFits(r.sh.db, r.pcs[t]) && r.sh.db.secondaries == s.sh.db.secondaries;
    hide Placed, PcFits, Respects;
    forall y | y in s.sh.db.secondaries ensures Placed(r, y) { RemoveNamePlaces(s, t, c, x, pick, y); }
    forall u | u in s.pcs && u != t
      ensures PcFits(r.sh.db, s.pcs[u]) && Strangers(r.pcs[t], s.pcs[u]) && Strangers(s.pcs[u], r.pcs[t])
    {
      RemoveNameOthers(s, t, c, x, pick, u);
    }
    Assembled(s, r, t);
  }

  lemma RemoveClientPlaces(s: State, t: Tid, c: Client, x: Ctx, pick: Name, y: Client)
    requires Works(s, t, DropClients(c, x)) && Respects(s, Do(t, pick)) && y in s.sh.db.secondaries
    ensures Placed(Step(s, Do(t, pick)), y)
  {
    hide Inv, Fits, SomeAdding, SomePastSubs, SomePastNames;
    FactsOf(s, t, y);
    OthersStay(s, Step(s, Do(t, pick)), t, y);
  }

  lemma RemoveClientOthers(s: State, t: Tid, c: Client, x: Ctx, pick: Name, u: Tid)
    requires Works(s, t, DropClients(c, x)) && Respects(s, Do(t, pick)) && u in s.pcs && u != t
    ensures var r := Step(s, Do(t, pick));
            PcFits(r.sh.db, s.pcs[u]) && Strangers(r.pcs[t], s.pcs[u]) && Strangers(s.pcs[u], r.pcs[t])
  {
    hide Inv, Fits;
    FactsOfTwo(s, t, u);
  }

  lemma RemoveClientFits(s: State, t: Tid, c: Client, x: Ctx, pick: Name)
    requires Works(s, t, DropClients(c, x)) && Respects(s, Do(t, pick))
    ensures Fits(Step(s, Do(t, pick)))
  {
    hide Inv, Fits;
    var r := Step(s, Do(t, pick));
    FactsOfTwo(s, t, t);
    assert PcFits(r.sh.db, r.pcs[t]) && r.sh.db.secondaries == s.sh.db.secondaries;
    hide Placed, PcFits, Respects;
    forall y | y in s.sh.db.secondaries ensures Placed(r, y) { RemoveClientPlaces(s, t, c, x, pick, y); }
    forall u | u in s.pcs && u != t
      ensures PcFits(r.sh.db, s.pcs[u]) && Strangers(r.pcs[t], s.pcs[u]) && Strangers(s.pcs[u], r.pcs[t])
    {
      RemoveClientOthers(s, t, c, x, pick, u);
    }
    Assembled(s, r, t);
  }

  /** The other stages: the first of a registration finds its name free under the lock, the rest of a drop and the
      listings leave the maps alone. */
  lemma OtherWorkFits(s: State, t: Tid, st: Stage, pick: Name)
    requires Works(s, t, st) && Enabled(s, Do(t, pick))
    requires !st.InsBroadcasts? && !st.InsSubscriptions? && !st.InsStore?
    requires !st.DropSubscriptions? && !st.DropBroadcasts? && !st.DropClients?
    ensures Fits(Step(s, Do(t, pick)))
  {
    hide Inv;
    var r := Step(s, Do(t, pick));
    FactsOfTwo(s, t, t);
    SameObjects(s, t, st, pick);
    OtherWorkLeads(s, t, st, pick);
    forall u | u in s.pcs && u != t ensures Strangers(r.pcs[t], s.pcs[u]) && Strangers(s.pcs[u], r.pcs[t]) {
      OtherWorkStrangers(s, t, st, pick, u);
    }
    hide PcFits, Strangers, Work, After;
    QuietFits(s, r, t);
  }

  lemma OtherWorkLeads(s: State, t: Tid, st: Stage, pick: Name)
    requires Enabled(s, Do(t, pick)) && s.pcs[t] == At(st, true) && PcFits(s.sh.db, s.pcs[t])
    requires !st.InsBroadcasts? && !st.InsSubscriptions? && !st.InsStore?
    requires !st.DropSubscriptions? && !st.DropBroadcasts? && !st.DropClients?
    ensures var r := Step(s, Do(t, pick));
            && PcFits(s.sh.db, r.pcs[t]) && Strangers(r.pcs[t], r.pcs[t])
            && r.sh.db.clients == s.sh.db.clients && r.sh.db.broadcasts == s.sh.db.broadcasts
            && r.sh.db.subscriptions == s.sh.db.subscriptions && r.sh.launched == s.sh.launched
  {}

  lemma SameObjects(s: State, t: Tid, st: Stage, pick: Name)
    requires Works(s, t, st) && Enabled(s, Do(t, pick))
    ensures Step(s, Do(t, pick)).sh.db.secondaries.Keys == s.sh.db.secondaries.Keys
  {
    hide Inv, Fits;
    LockFacts(s, t);
  }

  /** A cascade drops what it finds in the clients map, and nothing being registered is there. */
  lemma OtherWorkStrangers(s: State, t: Tid, st: Stage, pick: Name, u: Tid)
    requires Works(s, t, st) && Enabled(s, Do(t, pick)) && u in s.pcs && u != t
    requires !st.InsBroadcasts? && !st.InsSubscriptions? && !st.InsStore?
    requires !st.DropSubscriptions? && !st.DropBroadcasts? && !st.DropClients?
    ensures var r := Step(s, Do(t, pick)); Strangers(r.pcs[t], s.pcs[u]) && Strangers(s.pcs[u], r.pcs[t])
  {
    hide Inv, Fits;
    FactsOfTwo(s, t, u);
    LockFacts(s, u);
  }

  lemma LockFacts(s: State, u: Tid)
    requires Inv(s) && u in s.pcs
    ensures PcOk(s.sh, s.pcs[u]) && GlobalOk(s.sh)
  {
    hide PcOk, GlobalOk, Apart;
  }

  lemma DoFits(s: State, t: Tid, pick: Name)
    requires Inv(s) && Fits(s) && Enabled(s, Do(t, pick)) && Respects(s, Do(t, pick))
    ensures Fits(Step(s, Do(t, pick)))
  {
    hide Inv, Fits, Respects;
    var st := s.pcs[t].stage;
    assert Works(s, t, st);
    match st
    case InsBroadcasts(c) => AddNameFits(s, t, c, pick);
    case InsSubscriptions(c) => AddSubsFits(s, t, c, pick);
    case InsStore(c) => StoreFits(s, t, c, pick);
    case DropSubscriptions(c, x) => RemoveSubsFits(s, t, c, x, pick);
    case DropBroadcasts(c, x) => RemoveNameFits(s, t, c, x, pick);
    case DropClients(c, x) => RemoveClientFits(s, t, c, x, pick);
    case _ => OtherWorkFits(s, t, st, pick);
  }

  lemma AcquireFits(s: State, t: Tid)
    requires Fits(s) && Enabled(s, Acquire(t))
    ensures Fits(Step(s, Acquire(t)))
  {
    QuietFits(s, Step(s, Acquire(t)), t);
  }

  lemma BeginFits(s: State, t: Tid, st: Stage)
    requires Inv(s) && Fits(s) && Enabled(s, Begin(t, st)) && Respects(s, Begin(t, st))
    ensures Fits(Step(s, Begin(t, st)))
  {
    var r := Step(s, Begin(t, st));
    assert GlobalOk(s.sh);
    forall u | u in s.pcs && u != t
      ensures Strangers(r.pcs[t], s.pcs[u]) && Strangers(s.pcs[u], r.pcs[t])
    {
      assert PcOk(s.sh, s.pcs[u]);
    }
    hide Inv;
    QuietFits(s, r, t);
  }

  // ----- and nothing less will do

  lemma Misplaced(s: State, x: Client)
    requires x in s.sh.db.secondaries && !Placed(s, x)
    ensures !Fits(s)
  {}

  lemma Misfit(s: State, u: Tid)
    requires u in s.pcs && !PcFits(s.sh.db, s.pcs[u])
    ensures !Fits(s)
  {}

  /** Taking another object's subscriptions away: it is left without them, and no drop of its own has been there. */
  lemma RobsSubs(s: State, t: Tid, c: Client, x: Ctx, pick: Name)
    requires Works(s, t, DropSubscriptions(c, x)) && !Respects(s, Do(t, pick))
    ensures !Fits(Step(s, Do(t, pick)))
  {
    hide Inv, Fits;
    var y, r := s.sh.db.subscriptions[c.name].client, Step(s, Do(t, pick));
    LockFacts(s, t);
    FactsOf(s, t, y);
    forall u | u in s.pcs ensures !PastSubs(s.pcs[u], y) { FactsOf(s, u, y); }
    if SomeAdding(s, y) {
      var u :| u in s.pcs && Adding(s.pcs[u], y);
      FactsOf(s, u, y);
      Misfit(r, u);
    } else {
      assert forall u :: u in r.pcs ==> !PastSubs(r.pcs[u], y);
      Misplaced(r, y);
    }
  }

  lemma RobsName(s: State, t: Tid, c: Client, x: Ctx, pick: Name)
    requires Works(s, t, DropBroadcasts(c, x)) && !Respects(s, Do(t, pick))
    ensures !Fits(Step(s, Do(t, pick)))
  {
    hide Inv, Fits;
    var y, r := s.sh.db.broadcasts[c.name], Step(s, Do(t, pick));
    LockFacts(s, t);
    FactsOf(s, t, y);
    forall u | u in s.pcs ensures !PastNames(s.pcs[u], y) { FactsOf(s, u, y); }
    if SomeAdding(s, y) {
      var u :| u in s.pcs && Adding(s.pcs[u], y);
      FactsOf(s, u, y);
      Misfit(r, u);
    } else {
      assert forall u :: u in r.pcs ==> !PastNames(r.pcs[u], y);
      Misplaced(r, y);
    }
  }

  lemma RobsClient(s: State, t: Tid, c: Client, x: Ctx, pick: Name)
    requires Works(s, t, DropClients(c, x)) && !Respects(s, Do(t, pick))
    ensures !Fits(Step(s, Do(t, pick)))
  {
    hide Inv, Fits;
    var y, r := s.sh.db.clients[c.name], Step(s, Do(t, pick));
    LockFacts(s, t);
    forall u | u in s.pcs ensures !Adding(s.pcs[u], y) { FactsOf(s, u, y); }
    assert forall u :: u in r.pcs ==> !Adding(r.pcs[u], y);
    Misplaced(r, y);
  }

  lemma TooEarly(s: State, t: Tid, st: Stage)
    requires Enabled(s, Begin(t, st)) && !Respects(s, Begin(t, st))
    ensures !Fits(Step(s, Begin(t, st)))
  {
    var r := Step(s, Begin(t, st));
    var u :| u in s.pcs && Inserting(s.pcs[u]) == Some(st.c);
    assert r.pcs[u] == s.pcs[u] && !Strangers(r.pcs[t], r.pcs[u]);
  }

  /** Exactly the moves that keep everything in its place. */
  lemma StepFitsIff(s: State, m: Move)
    requires Inv(s) && Fits(s) && Enabled(s, m)
    ensures Fits(Step(s, m)) <==> Respects(s, m)
  {
    if Respects(s, m) {
      hide Inv, Fits, Respects;
      match m
      case Begin(t, st) => BeginFits(s, t, st);
      case Acquire(t) => AcquireFits(s, t);
      case Do(t, pick) => DoFits(s, t, pick);
    } else if m.Begin? {
      TooEarly(s, m.t, m.st);
    } else {
      var st := s.pcs[m.t].stage;
      hide Inv, Fits;
      assert Works(s, m.t, st);
      match st
      case DropSubscriptions(c, x) => RobsSubs(s, m.t, c, x, m.pick);
      case DropBroadcasts(c, x) => RobsName(s, m.t, c, x, m.pick);
      case DropClients(c, x) => RobsClient(s, m.t, c, x, m.pick);
    }
  }

  lemma {:induction false} RunFits(states: seq<State>, moves: seq<Move>, i: nat)
    requires IsRun(states, moves) && i < |states| && forall k :: 0 <= k < |moves| ==> Respects(states[k], moves[k])
    ensures Fits(states[i])
  {
    hide Inv, Respects;
    if i > 0 {
      var s, m := states[i - 1], moves[i - 1];
      RunFits(states, moves, i - 1);
      RunKeepsInv(states, moves, i - 1);
      assert Enabled(s, m) && Respects(s, m);
      hide Fits;
      StepFitsIff(s, m);
    }
  }

  /** In a run everything is in its place throughout exactly when every drop in it comes neither too early nor too
      late. */
  lemma RunFitsIff(states: seq<State>, moves: seq<Move>)
    requires IsRun(states, moves)
    ensures (forall i :: 0 <= i < |states| ==> Fits(states[i]))
            <==> (forall k :: 0 <= k < |moves| ==> Respects(states[k], moves[k]))
  {
    hide Inv, Respects, Fits;
    if forall k :: 0 <= k < |moves| ==> Respects(states[k], moves[k]) {
      forall i | 0 <= i < |states| ensures Fits(states[i]) { RunFits(states, moves, i); }
    }
    if forall i :: 0 <= i < |states| ==> Fits(states[i]) {
      forall k | 0 <= k < |moves| ensures Respects(states[k], moves[k]) {
        RunKeepsInv(states, moves, k);
        assert Fits(states[k]) && Fits(states[k + 1]) && Enabled(states[k], moves[k]);
        StepFitsIff(states[k], moves[k]);
      }
    }
  }

  /** And then the three maps agree whenever all threads are idle. */
  lemma MapsAgreeAtRest(states: seq<State>, moves: seq<Move>, i: nat)
    requires IsRun(states, moves) && i < |states| && forall k :: 0 <= k < |moves| ==> Respects(states[k], moves[k])
    requires forall t :: t in states[i].pcs ==> states[i].pcs[t].Idle?
    ensures R.Agree(states[i].sh.db)
  {
    hide Respects;
    RunFits(states, moves, i);
    RunKeepsInv(states, moves, i);
    IdleAgrees(states[i]);
  }

  // ----- a drop that comes too early

  /** The state a sequence of moves leads to, if they can be made. */
  ghost function Play(s: State, moves: seq<Move>): Option<State>
    decreases |moves|
  {
    if moves == [] then Some(s)
    else if !Enabled(s, moves[0]) then None
    else Play(Step(s, moves[0]), moves[1..])
  }

  lemma {:induction false} PlayTwice(s: State, a: seq<Move>, b: seq<Move>)
    requires Play(s, a).Some?
    ensures Play(s, a + b) == Play(Play(s, a).value, b)
    decreases |a|
  {
    if a == [] {
      assert a + b == b;
    } else {
      assert (a + b)[1..] == a[1..] + b;
      PlayTwice(Step(s, a[0]), a[1..], b);
    }
  }

  lemma {:induction false} PlayStates(s: State, moves: seq<Move>) returns (states: seq<State>)
    requires Play(s, moves).Some?
    ensures |states| == |moves| + 1 && states[0] == s && states[|moves|] == Play(s, moves).value
    ensures forall i :: 0 <= i < |moves| ==> Enabled(states[i], moves[i]) && states[i + 1] == Step(states[i], moves[i])
    decreases |moves|
  {
    if moves == [] {
      states := [s];
    } else {
      var rest := PlayStates(Step(s, moves[0]), moves[1..]);
      states := [s] + rest;
    }
  }

  /** Taking the lock of a stage and doing its work. */
  ghost function Stride(t: Tid): seq<Move> { [Acquire(t), Do(t, [])] }

  lemma StrideTo(s: State, t: Tid)
    requires t in s.pcs && s.pcs[t].At? && !s.pcs[t].got && Available(s, Needs(s.pcs[t].stage))
        && Picked(s.pcs[t].stage, [])
    ensures var st := s.pcs[t].stage;
            Play(s, Stride(t)) == Some(State(Work(s.sh, st, []), s.pcs[t := After(s.sh, st, [])]))
  {
    var r := Step(s, Acquire(t));
    assert Stride(t)[1..] == [Do(t, [])] && [Do(t, [])][1..] == [];
    assert Enabled(r, Do(t, []));
    assert Play(Step(r, Do(t, [])), []) == Some(Step(r, Do(t, [])));
    assert Play(r, [Do(t, [])]) == Play(Step(r, Do(t, [])), []);
    assert r.pcs[t := After(s.sh, s.pcs[t].stage, [])] == s.pcs[t := After(s.sh, s.pcs[t].stage, [])];
  }

  /** Two threads and what they do to the registry; `a` and `b` are where they stand. */
  ghost function Two(sh: Shared, a: Pc, b: Pc): State { State(sh, map[0 := a, 1 := b]) }

  lemma TwoSet(sh: Shared, a: Pc, b: Pc, c: Pc)
    ensures Two(sh, a, b).pcs[0 := c] == map[0 := c, 1 := b] && Two(sh, a, b).pcs[1 := c] == map[0 := a, 1 := c]
  {}

  ghost predicate Leads(s: State, moves: seq<Move>, r: State) { Play(s, moves) == Some(r) }

  lemma LeadsOn(s: State, a: seq<Move>, m: State, b: seq<Move>, r: State)
    requires Leads(s, a, m) && Leads(m, b, r)
    ensures Leads(s, a + b, r)
  {
    PlayTwice(s, a, b);
  }

  lemma LeadsOne(s: State, m: Move)
    requires Enabled(s, m)
    ensures Leads(s, [m], Step(s, m))
  {
    assert [m][1..] == [];
  }

  /** The registry of the run while `c` is being registered and dropped. */
  ghost function Holding(c: Client, names: bool, subs: bool, stored: bool, gone: bool): Shared {
    var db := R.Create(R.EMPTY, c);
    Shared(db.(broadcasts := if names then map[c.name := c] else map[],
               subscriptions := if subs then map[c.name := R.Subscribed(map[], c)] else map[],
               clients := if stored then map[c.name := c] else map[]),
           {c}, if gone then {c} else {})
  }

  lemma StrideZero(sh: Shared, st: Stage, b: Pc, r: Shared, next: Pc)
    requires r == Work(sh, st, []) && next == After(sh, st, []) && Picked(st, [])
    requires !Blocks(b, Needs(st)) && !Blocks(Enter(st), Needs(st))
    ensures Leads(Two(sh, Enter(st), b), Stride(0), Two(r, next, b))
  {
    TwoSet(sh, Enter(st), b, next);
    StrideTo(Two(sh, Enter(st), b), 0);
  }

  lemma StrideOne(sh: Shared, a: Pc, st: Stage, r: Shared, next: Pc)
    requires r == Work(sh, st, []) && next == After(sh, st, []) && Picked(st, [])
    requires !Blocks(a, Needs(st)) && !Blocks(Enter(st), Needs(st))
    ensures Leads(Two(sh, a, Enter(st)), Stride(1), Two(r, a, next))
  {
    TwoSet(sh, a, Enter(st), next);
    StrideTo(Two(sh, a, Enter(st)), 1);
  }

  /** The first half: the registration has put the name in, and a drop takes it out again. */
  lemma EarlyDropBegins(c: Client) returns (moves: seq<Move>)
    requires R.Named(c) && c.primary
    ensures Leads(Two(Shared(R.EMPTY, {}, {}), Idle, Idle), moves,
                  Two(Holding(c, false, false, false, false), Enter(InsSubscriptions(c)), Enter(DropClients(c, Top))))
    ensures |moves| == 10
  {
    hide Leads, Play;
    var db := R.Create(R.EMPTY, c);
    var s0, sh := Two(Shared(R.EMPTY, {}, {}), Idle, Idle), Shared(db, {}, {});
    var h := Holding(c, true, false, false, false);
    LeadsOne(s0, Begin(0, InsClients(c)));
    TwoSet(s0.sh, Idle, Idle, Enter(InsClients(c)));
    assert Step(s0, Begin(0, InsClients(c))) == Two(sh, Enter(InsClients(c)), Idle);
    StrideZero(sh, InsClients(c), Idle, sh, Enter(InsBroadcasts(c)));
    assert {} + {c} == {c};
    StrideZero(sh, InsBroadcasts(c), Idle, h, Enter(InsSubscriptions(c)));
    moves := [Begin(0, InsClients(c))];
    LeadsOn(s0, moves, Two(sh, Enter(InsClients(c)), Idle), Stride(0), Two(sh, Enter(InsBroadcasts(c)), Idle));
    moves := moves + Stride(0);
    LeadsOn(s0, moves, Two(sh, Enter(InsBroadcasts(c)), Idle), Stride(0), Two(h, Enter(InsSubscriptions(c)), Idle));
    moves := moves + Stride(0);
    var s, m := Two(h, Enter(InsSubscriptions(c)), Idle), Begin(1, DropSubscriptions(c, Top));
    LeadsOne(s, m);
    TwoSet(h, Enter(InsSubscriptions(c)), Idle, Enter(DropSubscriptions(c, Top)));
    var s2 := Two(h, Enter(InsSubscriptions(c)), Enter(DropSubscriptions(c, Top)));
    LeadsOn(s0, moves, s, [m], s2);
    moves := moves + [m];
    assert h.db.subscriptions - {c.name} == map[] && h.db.broadcasts - {c.name} == map[];
    StrideOne(h, Enter(InsSubscriptions(c)), DropSubscriptions(c, Top), h, Enter(DropBroadcasts(c, Top)));
    var s3 := Two(h, Enter(InsSubscriptions(c)), Enter(DropBroadcasts(c, Top)));
    LeadsOn(s0, moves, s2, Stride(1), s3);
    moves := moves + Stride(1);
    var h2 := Holding(c, false, false, false, false);
    StrideOne(h, Enter(InsSubscriptions(c)), DropBroadcasts(c, Top), h2, Enter(DropClients(c, Top)));
    LeadsOn(s0, moves, s3, Stride(1), Two(h2, Enter(InsSubscriptions(c)), Enter(DropClients(c, Top))));
    moves := moves + Stride(1);
  }

  /** The second half: the registration subscribes and stores its object, and the drop removes it from the clients. */
  lemma EarlyDropEnds(c: Client) returns (moves: seq<Move>)
    requires R.Named(c) && c.primary
    ensures Leads(Two(Holding(c, false, false, false, false), Enter(InsSubscriptions(c)), Enter(DropClients(c,
        Top))), moves,
                  Two(Holding(c, false, true, false, true), Idle, Idle))
    ensures |moves| == 10
  {
    hide Leads, Play;
    var d := Enter(DropClients(c, Top));
    var h0, h1 := Holding(c, false, false, false, false), Holding(c, false, true, false, false);
    var h2, h3 := Holding(c, false, true, true, false), Holding(c, false, true, false, true);
    var s0 := Two(h0, Enter(InsSubscriptions(c)), d);
    assert h0.db.subscriptions[c.name := R.Subscribed(h0.db.subscriptions, c)] == h1.db.subscriptions;
    StrideZero(h0, InsSubscriptions(c), d, h1, Enter(InsStore(c)));
    moves := Stride(0);
    assert h1.db.clients[c.name := c] == h2.db.clients;
    StrideZero(h1, InsStore(c), d, h2, Idle);
    LeadsOn(s0, moves, Two(h1, Enter(InsStore(c)), d), Stride(0), Two(h2, Idle, d));
    moves := moves + Stride(0);
    assert h2.db.clients - {c.name} == map[] && {} + {c} == {c};
    StrideOne(h2, Idle, DropClients(c, Top), h3, Enter(DropOwn(c)));
    LeadsOn(s0, moves, Two(h2, Idle, d), Stride(1), Two(h3, Idle, Enter(DropOwn(c))));
    moves := moves + Stride(1);
    StrideOne(h3, Idle, DropOwn(c), h3, Enter(CascadeNext(c, {})));
    LeadsOn(s0, moves, Two(h3, Idle, Enter(DropOwn(c))), Stride(1), Two(h3, Idle, Enter(CascadeNext(c, {}))));
    moves := moves + Stride(1);
    assert h3.db.secondaries[c := {}] == h3.db.secondaries;
    StrideOne(h3, Idle, CascadeNext(c, {}), h3, Idle);
    LeadsOn(s0, moves, Two(h3, Idle, Enter(CascadeNext(c, {}))), Stride(1), Two(h3, Idle, Idle));
    moves := moves + Stride(1);
  }

  /** A drop that begins between the two halves of a registration - the name is in, the subscriptions are not - leaves
      the client subscribed: at the end all threads are idle, and it is in no other map. */
  lemma EarlyDropStaysSubscribed(c: Client) returns (states: seq<State>, moves: seq<Move>)
    requires R.Named(c) && c.primary
    ensures IsRun(states, moves) && |moves| == 20
    ensures var s := states[20];
            && (forall t :: t in s.pcs ==> s.pcs[t].Idle?)
            && c.name !in s.sh.db.clients && c.name !in s.sh.db.broadcasts && InSubs(s.sh.db, c)
  {
    var s0 := Two(Shared(R.EMPTY, {}, {}), Idle, Idle);
    var mid := Two(Holding(c, false, false, false, false), Enter(InsSubscriptions(c)), Enter(DropClients(c, Top)));
    var a := EarlyDropBegins(c);
    var b := EarlyDropEnds(c);
    LeadsOn(s0, a, mid, b, Two(Holding(c, false, true, false, true), Idle, Idle));
    moves := a + b;
    states := PlayStates(s0, moves);
  }
}
