/** The locks of the registry, interleaved.

    `insert_client`, `drop_client` (with the cascade of a primary into its secondaries), `client.list` and the
    short critical sections of subscribing and publishing run on any number of threads. A thread is at a stage of
    its code; taking the lock the stage needs is one step, the work under it up to the next stage is another. */
module Locks {
  import opened Bytes
  import opened Registry

  type Tid = nat

  /** The two reader-writer locks under which no other lock is ever taken. */
  datatype Leaf = Broadcasts | Subscriptions

  /** Where a drop goes when it is done: back to its caller, or on with the cascade of `owner`. */
  datatype Ctx = Top | Under(owner: ElbusClient, todo: set<Name>)

  datatype Stage =
    // insert_client: the clients map stays write-locked from the first stage to the last
    | InsClients(c: ElbusClient)
    | InsSecondary(c: ElbusClient, p: ElbusClient)
    | InsBroadcasts(c: ElbusClient)
    | InsSubscriptions(c: ElbusClient)
    | InsStore(c: ElbusClient)
    // drop_client
    | DropSubscriptions(c: ElbusClient, ctx: Ctx)
    | DropBroadcasts(c: ElbusClient, ctx: Ctx)
    | DropClients(c: ElbusClient, ctx: Ctx)
    // drop_client of a primary, after it left the map: its mutex is held to the end of the cascade
    | DropOwn(c: ElbusClient)
    | CascadeNext(c: ElbusClient, todo: set<Name>)
    | CascadeLookup(c: ElbusClient, todo: set<Name>, n: Name)
    // drop_client of a secondary, after it left the map: the map stays read-locked to the end
    | ElseLookup(c: ElbusClient, ctx: Ctx)
    | ElsePrimary(c: ElbusClient, p: ElbusClient, ctx: Ctx)
    // client.list: the map stays read-locked to the end
    | ListStart
    | ListNext(todo: set<Name>)
    | ListCount(p: ElbusClient, todo: set<Name>)
    // subscribe, unsubscribe, and the look-ups of publish and broadcast
    | Touch(leaf: Leaf, write: bool)
    // the look-up of send, and trigger_disconnect
    | Peek(n: Name, trigger: bool)

  /** `got`: the lock of the stage has been taken. */
  datatype Pc = Idle | At(stage: Stage, got: bool)

  /** `launched`: objects other threads may have seen; `retired`: objects whose drop has passed the clients map. */
  datatype Shared = Shared(db: Db, launched: set<ElbusClient>, retired: set<ElbusClient>)

  datatype State = State(sh: Shared, pcs: map<Tid, Pc>)

  // ----- what a thread wants and holds

  datatype Mode = Free | Reading | Exclusive
  datatype Want = NoLock | WClients(write: bool) | WMutex(x: ElbusClient) | WLeaf(leaf: Leaf, write: bool)

  ghost function Needs(st: Stage): Want {
    match st
    case InsClients(_) => WClients(true)
    case InsSecondary(_, p) => WMutex(p)
    case InsBroadcasts(_) => WLeaf(Broadcasts, true)
    case InsSubscriptions(_) => WLeaf(Subscriptions, true)
    case InsStore(_) => NoLock
    case DropSubscriptions(_, _) => WLeaf(Subscriptions, true)
    case DropBroadcasts(_, _) => WLeaf(Broadcasts, true)
    case DropClients(_, _) => WClients(true)
    case DropOwn(c) => WMutex(c)
    case CascadeNext(_, _) => NoLock
    case CascadeLookup(_, _, _) => WClients(false)
    case ElseLookup(_, _) => WClients(false)
    case ElsePrimary(_, p, _) => WMutex(p)
    case ListStart => WClients(false)
    case ListNext(_) => NoLock
    case ListCount(p, _) => WMutex(p)
    case Touch(l, w) => WLeaf(l, w)
    case Peek(_, _) => WClients(false)
  }

  /** The clients lock brought along from an earlier stage. */
  ghost function CarriesClients(st: Stage): Mode {
    if st.InsSecondary? || st.InsBroadcasts? || st.InsSubscriptions? || st.InsStore? then Exclusive
    else if st.ElsePrimary? || st.ListNext? || st.ListCount? then Reading
    else Free
  }

  /** The primary whose mutex is brought along: the owner of the cascade the thread is in. */
  ghost function CarriesMutex(st: Stage): set<ElbusClient> {
    match st
    case DropSubscriptions(_, x) => OfCtx(x)
    case DropBroadcasts(_, x) => OfCtx(x)
    case DropClients(_, x) => OfCtx(x)
    case CascadeNext(c, _) => {c}
    case CascadeLookup(c, _, _) => {c}
    case ElseLookup(_, x) => OfCtx(x)
    case ElsePrimary(_, _, x) => OfCtx(x)
    case _ => {}
  }

  ghost function OfCtx(ctx: Ctx): set<ElbusClient> {
    if ctx.Under? then {ctx.owner} else {}
  }

  ghost function Wants(pc: Pc): Want {
    if pc.Idle? || pc.got then NoLock else Needs(pc.stage)
  }

  ghost function ClientsLock(pc: Pc): Mode {
    if pc.Idle? then Free
    else if pc.got && Needs(pc.stage).WClients? then if Needs(pc.stage).write then Exclusive else Reading
    else CarriesClients(pc.stage)
  }

  ghost function Mutexes(pc: Pc): set<ElbusClient> {
    if pc.Idle? then {}
    else if pc.got && Needs(pc.stage).WMutex? then CarriesMutex(pc.stage) + {Needs(pc.stage).x}
    else CarriesMutex(pc.stage)
  }

  ghost function LeafMode(pc: Pc, leaf: Leaf): Mode {
    if pc.Idle? || !pc.got || !Needs(pc.stage).WLeaf? || Needs(pc.stage).leaf != leaf then Free
    else if Needs(pc.stage).write then Exclusive else Reading
  }

  /** `pc` holds the lock that `w` asks for, in any mode. */
  ghost predicate Holds(pc: Pc, w: Want) {
    match w
    case NoLock => false
    case WClients(_) => !ClientsLock(pc).Free?
    case WMutex(x) => x in Mutexes(pc)
    case WLeaf(l, _) => !LeafMode(pc, l).Free?
  }

  /** `pc` holds it in a mode that stands in the way of `w`. */
  ghost predicate Blocks(pc: Pc, w: Want) {
    match w
    case NoLock => false
    case WClients(write) => ClientsLock(pc).Exclusive? || (write && ClientsLock(pc).Reading?)
    case WMutex(x) => x in Mutexes(pc)
    case WLeaf(l, write) => LeafMode(pc, l).Exclusive? || (write && LeafMode(pc, l).Reading?)
  }

  // ----- steps

  ghost function Enter(st: Stage): Pc { At(st, false) }

  ghost function Return(ctx: Ctx): Pc {
    if ctx.Under? then Enter(CascadeNext(ctx.owner, ctx.todo)) else Idle
  }

  ghost function SetOf(db: Db, p: ElbusClient): set<Name> {
    if p in db.secondaries then db.secondaries[p] else {}
  }

  ghost function SetSecondaries(s: Shared, p: ElbusClient, names: set<Name>): Shared {
    s.(db := s.db.(secondaries := s.db.secondaries[p := names]))
  }

  /** Where the work of a stage leads; `pick` resolves the iteration order of a set. */
  ghost function After(s: Shared, st: Stage, pick: Name): Pc {
    var db := s.db;
    match st
    case InsClients(c) =>
      if (!c.primary && c.primaryName !in db.clients) || c.name in db.clients then Idle
      else if c.primary then Enter(InsBroadcasts(c))
      else Enter(InsSecondary(c, db.clients[c.primaryName]))
    case InsSecondary(c, _) => Enter(InsBroadcasts(c))
    case InsBroadcasts(c) => Enter(InsSubscriptions(c))
    case InsSubscriptions(c) => Enter(InsStore(c))
    case InsStore(_) => Idle
    case DropSubscriptions(c, x) => Enter(DropBroadcasts(c, x))
    case DropBroadcasts(c, x) => Enter(DropClients(c, x))
    case DropClients(c, x) => if c.primary then Enter(DropOwn(c)) else Enter(ElseLookup(c, x))
    case DropOwn(c) => Enter(CascadeNext(c, SetOf(db, c)))
    case CascadeNext(c, todo) => if pick in todo then Enter(CascadeLookup(c, todo - {pick}, pick)) else Idle
    case CascadeLookup(c, todo, n) =>
      if n in db.clients then Enter(DropSubscriptions(db.clients[n], Under(c, todo))) else Enter(CascadeNext(c, todo))
    case ElseLookup(c, x) =>
      if c.primaryName in db.clients then Enter(ElsePrimary(c, db.clients[c.primaryName], x)) else Return(x)
    case ElsePrimary(_, _, x) => Return(x)
    case ListStart => Enter(ListNext(set n | n in db.clients && db.clients[n].primary))
    case ListNext(todo) =>
      if pick in todo * db.clients.Keys then Enter(ListCount(db.clients[pick], todo - {pick})) else Idle
    case ListCount(_, todo) => Enter(ListNext(todo))
    case Touch(_, _) => Idle
    case Peek(_, _) => Idle
  }

  /** What the work of a stage does to the registry. */
  ghost function Work(s: Shared, st: Stage, pick: Name): Shared {
    var db := s.db;
    match st
    case InsSecondary(c, p) => SetSecondaries(s, p, SetOf(db, p) + {c.name})
    case InsBroadcasts(c) =>
      s.(db := db.(broadcasts := if c.name in db.broadcasts then db.broadcasts else db.broadcasts[c.name := c]),
         launched := s.launched + {c})
    case InsSubscriptions(c) => s.(db := db.(subscriptions := db.subscriptions[c.name := Subscribed(db.subscriptions,
        c)]))
    case InsStore(c) => s.(db := db.(clients := db.clients[c.name := c]))
    case DropSubscriptions(c, _) => s.(db := db.(subscriptions := db.subscriptions - {c.name}))
    case DropBroadcasts(c, _) => s.(db := db.(broadcasts := db.broadcasts - {c.name}))
    case DropClients(c, _) => s.(db := db.(clients := db.clients - {c.name}), retired := s.retired + {c})
    case CascadeNext(c, todo) => if pick in todo then s else SetSecondaries(s, c, {})
    case CascadeLookup(_, _, n) =>
      if n in db.clients && db.clients[n].kind != Internal
      then s.(db := db.(triggered := db.triggered + {db.clients[n]})) else s
    case ElsePrimary(c, p, _) => SetSecondaries(s, p, SetOf(db, p) - {c.name})
    case Peek(n, trigger) =>
      if trigger && n in db.clients && db.clients[n].kind != Internal
      then s.(db := db.(triggered := db.triggered + {db.clients[n]})) else s
    case _ => s
  }

  /** A set being iterated is used up before its loop ends. */
  ghost predicate Picked(st: Stage, pick: Name) {
    match st
    case CascadeNext(_, todo) => todo != {} ==> pick in todo
    case ListNext(todo) => todo != {} ==> pick in todo
    case _ => true
  }

  /** An idle thread may register a new object, drop any object that was ever visible, list, look a client up, or touch
      a leaf. */
  ghost predicate Starts(s: Shared, st: Stage) {
    match st
    case InsClients(c) => c !in s.db.secondaries && Named(c)
    case DropSubscriptions(c, x) => x.Top? && c in s.launched
    case ListStart => true
    case Touch(_, _) => true
    case Peek(_, _) => true
    case _ => false
  }

  ghost function Begun(s: Shared, st: Stage): Shared {
    if st.InsClients? then s.(db := Create(s.db, st.c)) else s
  }

  ghost predicate Available(s: State, w: Want) {
    forall u :: u in s.pcs ==> !Blocks(s.pcs[u], w)
  }

  datatype Move = Begin(t: Tid, st: Stage) | Acquire(t: Tid) | Do(t: Tid, pick: Name)

  ghost predicate Enabled(s: State, m: Move) {
    && m.t in s.pcs
    && var pc := s.pcs[m.t];
       match m
       case Begin(_, st) => pc.Idle? && Starts(s.sh, st)
       case Acquire(_) => pc.At? && !pc.got && Available(s, Needs(pc.stage))
       case Do(_, pick) => pc.At? && pc.got && Picked(pc.stage, pick)
  }

  ghost function Step(s: State, m: Move): State
    requires Enabled(s, m)
  {
    var pc := s.pcs[m.t];
    match m
    case Begin(t, st) => State(Begun(s.sh, st), s.pcs[t := Enter(st)])
    case Acquire(t) => s.(pcs := s.pcs[t := pc.(got := true)])
    case Do(t, pick) => State(Work(s.sh, pc.stage, pick), s.pcs[t := After(s.sh, pc.stage, pick)])
  }

  ghost predicate Init(s: State) {
    s.sh == Shared(EMPTY, {}, {}) && forall t :: t in s.pcs ==> s.pcs[t].Idle?
  }

  /** `states` is an interleaved run taking the moves `moves`. */
  ghost predicate IsRun(states: seq<State>, moves: seq<Move>) {
    && |states| == |moves| + 1 && Init(states[0])
    && forall i :: 0 <= i < |moves| ==> Enabled(states[i], moves[i]) && states[i + 1] == Step(states[i], moves[i])
  }

  // ----- the invariant

  ghost predicate CtxOk(s: Shared, ctx: Ctx) {
    ctx.Under? ==> Retired(s, ctx.owner, ctx.todo)
  }

  ghost predicate Retired(s: Shared, c: ElbusClient, todo: set<Name>) {
    c in s.retired && forall n {:trigger SubName(n, c.name)} :: n in todo ==> SubName(n, c.name)
  }

  /** What a thread at a stage may rely on. */
  ghost predicate StageOk(s: Shared, st: Stage) {
    match st
    case InsClients(c) => Unseen(s, c)
    case InsSecondary(c, p) => Unseen(s, c) && Registered(s.db.clients, p) && !c.primary && c.primaryName == p.name
    case InsBroadcasts(c) => Unseen(s, c)
    case InsSubscriptions(c) => c in s.launched && c !in s.retired
    case InsStore(c) => c in s.launched && c !in s.retired
    case DropSubscriptions(c, x) => c in s.launched && CtxOk(s, x) && (x.Under? ==> !c.primary)
    case DropBroadcasts(c, x) => c in s.launched && CtxOk(s, x) && (x.Under? ==> !c.primary)
    case DropClients(c, x) => c in s.launched && CtxOk(s, x) && (x.Under? ==> !c.primary)
    case DropOwn(c) => c in s.retired
    case CascadeNext(c, todo) => Retired(s, c, todo)
    case CascadeLookup(c, todo, n) => Retired(s, c, todo + {n})
    case ElseLookup(_, x) => CtxOk(s, x)
    case ElsePrimary(_, p, x) => CtxOk(s, x) && Registered(s.db.clients, p)
    case ListNext(todo) => AllPrimaries(s.db.clients, todo)
    case ListCount(p, todo) => Registered(s.db.clients, p) && p.primary && AllPrimaries(s.db.clients, todo)
    case _ => true
  }

  ghost predicate AllPrimaries(clients: Clients, names: set<Name>) {
    forall n :: n in names ==> n in clients && clients[n].primary
  }

  ghost predicate Unseen(s: Shared, c: ElbusClient) {
    c in s.db.secondaries && c !in s.launched && c !in s.retired
  }

  ghost predicate PcOk(s: Shared, pc: Pc) { pc.At? ==> StageOk(s, pc.stage) }

  /** The object a thread is registering. */
  ghost function Inserting(pc: Pc): Option<ElbusClient> {
    if pc.At? && (pc.stage.InsClients? || pc.stage.InsSecondary? || pc.stage.InsBroadcasts?
                  || pc.stage.InsSubscriptions? || pc.stage.InsStore?)
    then Some(pc.stage.c) else None
  }

  /** Two threads do not share an exclusive lock, nor register the same object. */
  ghost predicate Apart(a: Pc, b: Pc) {
    && (ClientsLock(a).Exclusive? ==> ClientsLock(b).Free?)
    && (ClientsLock(b).Exclusive? ==> ClientsLock(a).Free?)
    && Mutexes(a) !! Mutexes(b)
    && (Inserting(a).Some? ==> Inserting(a) != Inserting(b))
  }

  /** The key fact is the third line: an object whose drop has passed the clients map - and only such an object's
      mutex is held across other locks - is not in the map, so nobody can wait for its mutex under the map's lock. */
  ghost predicate GlobalOk(s: Shared) {
    && Wf(s.db)
    && s.retired <= s.launched <= s.db.secondaries.Keys
    && (forall c :: c in s.retired ==> !Registered(s.db.clients, c))
    && (forall n :: n in s.db.clients ==> s.db.clients[n] in s.launched)
  }

  ghost predicate Inv(s: State) {
    && GlobalOk(s.sh)
    && (forall t :: t in s.pcs ==> PcOk(s.sh, s.pcs[t]))
    && (forall t, u {:trigger s.pcs[t], s.pcs[u]} :: t in s.pcs && u in s.pcs && t != u ==> Apart(s.pcs[t], s.pcs[u]))
  }

  // ----- preservation

  /** A thread's facts survive other threads' steps: the map changes only under its write lock, and the sets of
      visible and retired objects only gain objects the thread is not registering. */
  lemma PcOkStable(s: Shared, r: Shared, pc: Pc)
    requires PcOk(s, pc)
    requires s.db.secondaries.Keys <= r.db.secondaries.Keys && s.launched <= r.launched && s.retired <= r.retired
    requires !ClientsLock(pc).Free? ==> r.db.clients == s.db.clients
    requires Inserting(pc).Some? ==> (Inserting(pc).value in r.launched ==> Inserting(pc).value in s.launched)
    requires Inserting(pc).Some? ==> (Inserting(pc).value in r.retired ==> Inserting(pc).value in s.retired)
    ensures PcOk(r, pc)
  {}

  /** Working releases locks and never takes one. */
  lemma WorkReleases(s: Shared, st: Stage, pick: Name)
    ensures var a, b := At(st, true), After(s, st, pick);
            && (ClientsLock(b).Exclusive? ==> ClientsLock(a).Exclusive?)
            && (ClientsLock(b).Reading? ==> ClientsLock(a).Reading?)
            && Mutexes(b) <= Mutexes(a)
            && (Inserting(b).Some? ==> Inserting(b) == Inserting(a))
  {}

  lemma ApartShrinks(a: Pc, a': Pc, b: Pc)
    requires Apart(a, b)
    requires ClientsLock(a').Exclusive? ==> ClientsLock(a).Exclusive?
    requires ClientsLock(a').Reading? ==> ClientsLock(a).Reading?
    requires Mutexes(a') <= Mutexes(a)
    requires Inserting(a').Some? ==> Inserting(a') == Inserting(a)
    ensures Apart(a', b) && Apart(b, a')
  {}

  lemma ApartAcquires(a: Pc, b: Pc)
    requires a.At? && !a.got && Apart(a, b) && !Blocks(b, Needs(a.stage))
    ensures Apart(a.(got := true), b) && Apart(b, a.(got := true))
  {}

  lemma WorkGlobal(s: Shared, st: Stage, pick: Name)
    requires GlobalOk(s) && StageOk(s, st)
    ensures GlobalOk(Work(s, st, pick))
  {
    var r := Work(s, st, pick);
    match st
    case InsSecondary(c, p) =>
      assert Named(c);
      SubNameOf(c, p.name);
      SecondariesWf(s.db, p, SetOf(s.db, p) + {c.name});
    case InsBroadcasts(c) => MapsWf(s.db, r.db);
    case InsSubscriptions(c) => MapsWf(s.db, r.db);
    case InsStore(c) => MapsWf(s.db, r.db);
    case DropSubscriptions(_, _) => MapsWf(s.db, r.db);
    case DropBroadcasts(_, _) => MapsWf(s.db, r.db);
    case DropClients(_, _) => MapsWf(s.db, r.db);
    case CascadeNext(c, todo) => if pick !in todo { SecondariesWf(s.db, c, {}); }
    case CascadeLookup(_, _, _) => MapsWf(s.db, r.db);
    case Peek(_, _) => MapsWf(s.db, r.db);
    case ElsePrimary(c, p, _) => SecondariesWf(s.db, p, SetOf(s.db, p) - {c.name});
    case _ =>
  }

  lemma SecondariesWf(db: Db, p: ElbusClient, names: set<Name>)
    requires Wf(db) && p in db.secondaries
    requires forall n :: n in names ==> n in db.secondaries[p] || SubName(n, p.name)
    ensures Wf(db.(secondaries := db.secondaries[p := names]))
  {}

  lemma MapsWf(db: Db, e: Db)
    requires Wf(db) && e.secondaries == db.secondaries && e.triggered <= db.secondaries.Keys
    requires forall n :: n in e.clients ==> e.clients[n].name == n && e.clients[n] in db.secondaries
    requires forall n :: n in e.broadcasts ==> e.broadcasts[n].name == n && e.broadcasts[n] in db.secondaries
    requires forall n :: n in e.subscriptions ==>
                           e.subscriptions[n].client.name == n && e.subscriptions[n].client in db.secondaries
    ensures Wf(e)
  {}

  lemma WorkSelf(s: Shared, st: Stage, pick: Name)
    requires GlobalOk(s) && StageOk(s, st)
    ensures PcOk(Work(s, st, pick), After(s, st, pick))
  {
    match st
    case DropOwn(c) => OwnNames(s, c);
    case CascadeLookup(c, todo, n) =>
      assert SubName(n, c.name);
      if n in s.db.clients {
        assert Named(s.db.clients[n]);
        SubNameOf(s.db.clients[n], c.name);
      }
    case _ =>
  }

  lemma OwnNames(s: Shared, c: ElbusClient)
    requires GlobalOk(s) && c in s.retired
    ensures Retired(s, c, SetOf(s.db, c))
  {}

  lemma WorkOthers(s: Shared, st: Stage, pick: Name, pc: Pc)
    requires GlobalOk(s) && StageOk(s, st) && PcOk(s, pc) && Apart(At(st, true), pc)
    ensures PcOk(Work(s, st, pick), pc)
  {}

  /** The invariant after a step of `t`, from what the step did to `t`, to the shared state, and to each other thread.
      */
  lemma Assemble(s: State, r: State, t: Tid)
    requires Inv(s) && t in s.pcs && t in r.pcs && r.pcs == s.pcs[t := r.pcs[t]]
    requires GlobalOk(r.sh) && PcOk(r.sh, r.pcs[t])
    requires forall u :: u in s.pcs && u != t ==>
                           PcOk(r.sh, s.pcs[u]) && Apart(r.pcs[t], s.pcs[u]) && Apart(s.pcs[u], r.pcs[t])
    ensures Inv(r)
  {}

  lemma DoKeepsInv(s: State, t: Tid, pick: Name)
    requires Inv(s) && Enabled(s, Do(t, pick))
    ensures Inv(Step(s, Do(t, pick)))
  {
    var st := s.pcs[t].stage;
    var r := Step(s, Do(t, pick));
    WorkGlobal(s.sh, st, pick);
    WorkSelf(s.sh, st, pick);
    WorkReleases(s.sh, st, pick);
    forall u | u in s.pcs && u != t
      ensures PcOk(r.sh, s.pcs[u]) && Apart(r.pcs[t], s.pcs[u]) && Apart(s.pcs[u], r.pcs[t])
    {
      assert Apart(s.pcs[t], s.pcs[u]);
      WorkOthers(s.sh, st, pick, s.pcs[u]);
      ApartShrinks(s.pcs[t], r.pcs[t], s.pcs[u]);
    }
    Assemble(s, r, t);
  }

  lemma AcquireKeepsInv(s: State, t: Tid)
    requires Inv(s) && Enabled(s, Acquire(t))
    ensures Inv(Step(s, Acquire(t)))
  {
    forall u | u in s.pcs && u != t
      ensures Apart(s.pcs[t].(got := true), s.pcs[u]) && Apart(s.pcs[u], s.pcs[t].(got := true))
    {
      assert Apart(s.pcs[t], s.pcs[u]);
      ApartAcquires(s.pcs[t], s.pcs[u]);
    }
    Assemble(s, Step(s, Acquire(t)), t);
  }

  lemma BeginKeepsInv(s: State, t: Tid, st: Stage)
    requires Inv(s) && Enabled(s, Begin(t, st))
    ensures Inv(Step(s, Begin(t, st)))
  {
    var r := Step(s, Begin(t, st));
    if st.InsClients? {
      CreateKeepsWf(s.sh.db, st.c);
    }
    forall u | u in s.pcs && u != t
      ensures PcOk(r.sh, s.pcs[u]) && Apart(Enter(st), s.pcs[u]) && Apart(s.pcs[u], Enter(st))
    {
      PcOkStable(s.sh, r.sh, s.pcs[u]);
    }
    Assemble(s, r, t);
  }

  lemma {:induction false} RunKeepsInv(states: seq<State>, moves: seq<Move>, i: nat)
    requires IsRun(states, moves) && i < |states|
    ensures Inv(states[i])
  {
    if i > 0 {
      RunKeepsInv(states, moves, i - 1);
      assert Enabled(states[i - 1], moves[i - 1]);
      match moves[i - 1]
      case Begin(t, st) => BeginKeepsInv(states[i - 1], t, st);
      case Acquire(t) => AcquireKeepsInv(states[i - 1], t);
      case Do(t, pick) => DoKeepsInv(states[i - 1], t, pick);
    }
  }

  // ----- no deadlock, no relock

  /** Nobody at all holds the lock the thread is waiting for. */
  ghost predicate Unhindered(s: State, t: Tid)
    requires t in s.pcs
  {
    s.pcs[t].At? && forall u :: u in s.pcs ==> !Holds(s.pcs[u], Wants(s.pcs[t]))
  }

  /** A thread never waits for a lock it holds itself. */
  lemma NoSelfWait(s: State, t: Tid)
    requires Inv(s) && t in s.pcs
    ensures !Holds(s.pcs[t], Wants(s.pcs[t]))
  {}

  /** Who holds a mutex: a thread about to release it, or the cascade of its owner, which is then retired. */
  lemma MutexHolder(s: State, u: Tid, x: ElbusClient)
    requires Inv(s) && u in s.pcs && x in Mutexes(s.pcs[u])
    ensures s.pcs[u].At? && (s.pcs[u].got || CarriesMutex(s.pcs[u].stage) == {x})
    ensures CarriesMutex(s.pcs[u].stage) == {x} ==> x in s.sh.retired
  {}

  /** A thread that waits for a mutex while it holds the clients map waits for that of a registered object. */
  lemma WaitsForRegistered(s: State, t: Tid)
    requires Inv(s) && t in s.pcs && Wants(s.pcs[t]).WMutex? && !ClientsLock(s.pcs[t]).Free?
    ensures Registered(s.sh.db.clients, Wants(s.pcs[t]).x)
  {}

  /** In every state of the invariant in which something is going on, some thread waits for nothing. */
  lemma SomeoneIsUnhindered(s: State, t: Tid) returns (u: Tid)
    requires Inv(s) && t in s.pcs && s.pcs[t].At?
    ensures u in s.pcs && Unhindered(s, u)
  {
    if v :| v in s.pcs && s.pcs[v].At? && s.pcs[v].got {
      u := v;
    } else {
      // no thread works, so leaf locks are free and mutexes are only held by cascades
      var v := MapHolder(s, t);
      if !ClientsLock(s.pcs[v]).Free? || !Wants(s.pcs[v]).WMutex? {
        if Wants(s.pcs[v]).WMutex? {
          WaitsForRegistered(s, v);
        }
        forall w | w in s.pcs ensures !Holds(s.pcs[w], Wants(s.pcs[v])) {
          Unheld(s, v, w);
        }
        u := v;
      } else if w :| w in s.pcs && Wants(s.pcs[v]).x in Mutexes(s.pcs[w]) {
        // a second drop of a primary waits for the first: that one needs the map or a leaf, and they are free
        MutexHolder(s, w, Wants(s.pcs[v]).x);
        u := w;
      } else {
        u := v;
      }
    }
  }

  /** A thread holding the clients map if there is one, else the given thread. */
  lemma MapHolder(s: State, t: Tid) returns (v: Tid)
    requires Inv(s) && t in s.pcs && s.pcs[t].At?
    ensures v in s.pcs && s.pcs[v].At?
    ensures ClientsLock(s.pcs[v]).Free? ==> forall w :: w in s.pcs ==> ClientsLock(s.pcs[w]).Free?
  {
    if w :| w in s.pcs && !ClientsLock(s.pcs[w]).Free? {
      v := w;
    } else {
      v := t;
    }
  }

  lemma Unheld(s: State, v: Tid, w: Tid)
    requires Inv(s) && v in s.pcs && w in s.pcs && s.pcs[v].At?
    requires forall x :: x in s.pcs && s.pcs[x].At? ==> !s.pcs[x].got
    requires ClientsLock(s.pcs[v]).Free? ==> ClientsLock(s.pcs[w]).Free? && !Wants(s.pcs[v]).WMutex?
    requires Wants(s.pcs[v]).WMutex? ==> Registered(s.sh.db.clients, Wants(s.pcs[v]).x)
    ensures !Holds(s.pcs[w], Wants(s.pcs[v]))
  {}

  /** An unhindered thread can move. */
  lemma UnhinderedMoves(s: State, t: Tid) returns (m: Move)
    requires t in s.pcs && Unhindered(s, t)
    ensures m.t == t && Enabled(s, m)
  {
    var pc := s.pcs[t];
    if pc.got {
      var pick: Name;
      if pc.stage.CascadeNext? && pc.stage.todo != {} { pick :| pick in pc.stage.todo; }
      else if pc.stage.ListNext? && pc.stage.todo != {} { pick :| pick in pc.stage.todo; }
      else { pick := []; }
      m := Do(t, pick);
    } else {
      m := Acquire(t);
    }
  }

  ghost function Only(s: State, d: set<Tid>): State {
    s.(pcs := map t | t in d && t in s.pcs :: s.pcs[t])
  }

  /** No interleaving of registrations, drops, cascades, listings, look-ups and topic operations deadlocks or relocks
      a held lock. In every state of every run: no thread waits for a lock it holds; and among any threads under way
      there is one whose lock none of them holds, so no group of threads waits for each other - and if they are all
      the threads under way, that one can move. */
  lemma NoDeadlock(states: seq<State>, moves: seq<Move>, i: nat, d: set<Tid>)
    requires IsRun(states, moves) && i < |states|
    requires d != {} && forall t :: t in d ==> t in states[i].pcs && states[i].pcs[t].At?
    ensures forall t :: t in states[i].pcs ==> !Holds(states[i].pcs[t], Wants(states[i].pcs[t]))
    ensures exists u :: u in d && forall v :: v in d ==> !Holds(states[i].pcs[v], Wants(states[i].pcs[u]))
    ensures (forall t :: t in states[i].pcs && states[i].pcs[t].At? ==> t in d) ==>
              exists m: Move :: m.t in d && Unhindered(states[i], m.t) && Enabled(states[i], m)
  {
    hide Inv, Holds, Wants, Enabled;
    var s := states[i];
    RunKeepsInv(states, moves, i);
    forall t | t in s.pcs ensures !Holds(s.pcs[t], Wants(s.pcs[t])) {
      NoSelfWait(s, t);
    }
    var u := OneOfThem(s, d);
    if forall t :: t in s.pcs && s.pcs[t].At? ==> t in d {
      IdleHolds(s, u, d);
      var m := UnhinderedMoves(s, u);
    }
  }

  lemma OneOfThem(s: State, d: set<Tid>) returns (u: Tid)
    requires Inv(s) && d != {} && forall t :: t in d ==> t in s.pcs && s.pcs[t].At?
    ensures u in d && forall v :: v in d ==> !Holds(s.pcs[v], Wants(s.pcs[u]))
  {
    var r := Only(s, d);
    OnlyKeepsInv(s, d);
    hide Inv, Holds, Wants;
    var t :| t in d;
    u := SomeoneIsUnhindered(r, t);
    assert forall v :: v in d ==> v in r.pcs && r.pcs[v] == s.pcs[v];
  }

  lemma OnlyKeepsInv(s: State, d: set<Tid>)
    requires Inv(s)
    ensures Inv(Only(s, d))
  {
    hide GlobalOk, PcOk, Apart;
  }

  /** A thread that is not under way holds nothing. */
  lemma IdleHolds(s: State, u: Tid, d: set<Tid>)
    requires u in d && u in s.pcs && s.pcs[u].At? && forall t :: t in s.pcs && s.pcs[t].At? ==> t in d
    requires forall v :: v in d && v in s.pcs ==> !Holds(s.pcs[v], Wants(s.pcs[u]))
    ensures Unhindered(s, u)
  {}

  /** What the lock discipline rests on: while a drop holds the mutex of a primary across other locks, that primary
      is not in the clients map. */
  lemma CascadeOwnerIsUnregistered(states: seq<State>, moves: seq<Move>, i: nat, t: Tid, c: ElbusClient)
    requires IsRun(states, moves) && i < |states| && t in states[i].pcs
    requires states[i].pcs[t].At? && c in CarriesMutex(states[i].pcs[t].stage)
    ensures !Registered(states[i].sh.db.clients, c)
  {
    RunKeepsInv(states, moves, i);
    MutexHolder(states[i], t, c);
  }

  // ----- who is told to disconnect

  /** The client a cascade is dropping. */
  ghost function Cascaded(pc: Pc): Option<ElbusClient> {
    if pc.Idle? then None
    else
      match pc.stage
      case DropSubscriptions(c, x) => if x.Under? then Some(c) else None
      case DropBroadcasts(c, x) => if x.Under? then Some(c) else None
      case DropClients(c, x) => if x.Under? then Some(c) else None
      case ElseLookup(c, x) => if x.Under? then Some(c) else None
      case ElsePrimary(c, _, x) => if x.Under? then Some(c) else None
      case _ => None
  }

  ghost predicate Told(db: Db, pc: Pc) {
    Cascaded(pc).Some? && Cascaded(pc).value.kind != Internal ==> Cascaded(pc).value in db.triggered
  }

  ghost predicate External(db: Db) { forall x :: x in db.triggered ==> x.kind != Internal }

  lemma WorkTells(s: Shared, st: Stage, pick: Name)
    requires External(s.db) && Told(s.db, At(st, true))
    ensures External(Work(s, st, pick).db) && s.db.triggered <= Work(s, st, pick).db.triggered
    ensures Told(Work(s, st, pick).db, After(s, st, pick))
  {}

  /** In every interleaving, only external clients are ever told to disconnect, and one that a cascade drops has been
      told before anything else is done to it. */
  lemma {:induction false} CascadeTells(states: seq<State>, moves: seq<Move>, i: nat, t: Tid)
    requires IsRun(states, moves) && i < |states| && t in states[i].pcs
    ensures External(states[i].sh.db) && Told(states[i].sh.db, states[i].pcs[t])
  {
    hide Told, External, Work, After;
    if i == 0 {
      StartTold(states[0], t);
    } else {
      var s, m := states[i - 1], moves[i - 1];
      assert Enabled(s, m) && states[i] == Step(s, m);
      CascadeTells(states, moves, i - 1, t);
      if m.Do? {
        CascadeTells(states, moves, i - 1, m.t);
        WorkTells(s.sh, s.pcs[m.t].stage, m.pick);
        StillTold(s.sh.db, states[i].sh.db, s.pcs[t]);
      } else {
        MoveTells(s, m, t);
      }
    }
  }

  lemma StartTold(s: State, t: Tid)
    requires Init(s) && t in s.pcs
    ensures External(s.sh.db) && Told(s.sh.db, s.pcs[t])
  {}

  lemma StillTold(db: Db, e: Db, pc: Pc)
    requires Told(db, pc) && db.triggered <= e.triggered
    ensures Told(e, pc)
  {}

  lemma MoveTells(s: State, m: Move, t: Tid)
    requires Enabled(s, m) && !m.Do? && t in s.pcs && External(s.sh.db) && Told(s.sh.db, s.pcs[t])
    ensures External(Step(s, m).sh.db) && Told(Step(s, m).sh.db, Step(s, m).pcs[t])
  {}
}
