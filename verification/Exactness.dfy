/** When the `secondaries` of the registered primaries are exact although the locks of the registry are taken one at a
    time: what the drop of a secondary has to respect, and a run in which it comes too late. */
module Exactness {
  import opened Bytes
  import opened Naming
  import opened Locks
  import A = Agreement
  import R = Registry

  type Client = R.ElbusClient

  // ----- what threads are about to do to a `secondaries` set

  /** A drop of `x` that has yet to take its `secondaries` up. */
  ghost predicate Owns(pc: Pc, x: Client) {
    pc.At? && ((pc.stage.DropClients? && pc.stage.c == x) || pc.stage == DropOwn(x))
  }

  /** A drop of `x` that is working through its `secondaries`, and clears them in the end. */
  ghost predicate InCascade(pc: Pc, x: Client) { pc.At? && x in CarriesMutex(pc.stage) }

  ghost function Todo(ctx: Ctx): set<Name> { if ctx.Under? then ctx.todo else {} }

  /** The names such a drop has yet to drop. */
  ghost function Remaining(pc: Pc): set<Name> {
    if pc.Idle? then {}
    else
      match pc.stage
      case CascadeNext(_, todo) => todo
      case CascadeLookup(_, todo, n) => todo + {n}
      case DropSubscriptions(c, x) => Todo(x) + {c.name}
      case DropBroadcasts(c, x) => Todo(x) + {c.name}
      case DropClients(c, x) => Todo(x) + {c.name}
      case ElseLookup(_, x) => Todo(x)
      case ElsePrimary(_, _, x) => Todo(x)
      case _ => {}
  }

  /** A registration that has put its name into the `secondaries` of its primary and not into the clients. */
  ghost predicate Arriving(pc: Pc, n: Name) {
    pc.At? && (pc.stage.InsBroadcasts? || pc.stage.InsSubscriptions? || pc.stage.InsStore?) && pc.stage.c.name == n
  }

  /** A drop that has taken its name out of the clients and not out of the `secondaries` of its primary. */
  ghost predicate Leaving(pc: Pc, n: Name) {
    pc.At? && (pc.stage.ElseLookup? || pc.stage.ElsePrimary?) && pc.stage.c.name == n
  }

  ghost predicate SomeOwns(s: State, x: Client) { exists t :: t in s.pcs && Owns(s.pcs[t], x) }
  ghost predicate SomeInCascade(s: State, x: Client) { exists t :: t in s.pcs && InCascade(s.pcs[t], x) }
  ghost predicate SomeCascades(s: State, x: Client, n: Name) {
    exists t :: t in s.pcs && InCascade(s.pcs[t], x) && n in Remaining(s.pcs[t])
  }
  ghost predicate SomeArriving(s: State, n: Name) { exists t :: t in s.pcs && Arriving(s.pcs[t], n) }
  ghost predicate SomeLeaving(s: State, n: Name) { exists t :: t in s.pcs && Leaving(s.pcs[t], n) }

  // ----- the invariant

  /** `x` answers for the registered name `n`: it has it among its `secondaries`, and is registered, or will drop it. */
  ghost predicate AnswersFor(s: State, x: Client, n: Name) {
    && x in s.sh.db.secondaries && n in s.sh.db.secondaries[x]
    && (|| A.InClients(s.sh.db, x)
        || (SomeOwns(s, x) && !SomeInCascade(s, x))
        || SomeCascades(s, x, n))
  }

  ghost predicate Answered(s: State, n: Name) { exists x :: x in s.sh.db.secondaries && AnswersFor(s, x, n) }

  /** A name in a `secondaries` set has a reason to be there. */
  ghost predicate Justified(s: State, x: Client, n: Name) {
    if A.InClients(s.sh.db, x) then n in s.sh.db.clients || SomeArriving(s, n) || SomeLeaving(s, n)
    else SomeOwns(s, x) || SomeInCascade(s, x)
  }

  ghost predicate PcExact(db: R.Db, pc: Pc) {
    && (Inserting(pc).Some? ==> Inserting(pc).value in db.secondaries && db.secondaries[Inserting(pc).value] == {})
    && (pc.At? && (pc.stage.InsBroadcasts? || pc.stage.InsSubscriptions? || pc.stage.InsStore?)
        && !pc.stage.c.primary ==>
          && pc.stage.c.primaryName in db.clients && db.clients[pc.stage.c.primaryName] in db.secondaries
          && pc.stage.c.name in db.secondaries[db.clients[pc.stage.c.primaryName]])
    && (pc.At? && (pc.stage.ElseLookup? || pc.stage.ElsePrimary?) ==> R.Named(pc.stage.c))
    && (pc.At? && pc.stage.ElsePrimary? ==> pc.stage.p.name == pc.stage.c.primaryName)
  }

  ghost predicate Tied(s: State) {
    && (forall n {:trigger Answered(s, n)} :: n in s.sh.db.clients && !s.sh.db.clients[n].primary ==> Answered(s, n))
    && (forall x, n {:trigger Justified(s, x, n)} ::
          x in s.sh.db.secondaries && n in s.sh.db.secondaries[x] ==> Justified(s, x, n))
    && (forall t :: t in s.pcs ==> PcExact(s.sh.db, s.pcs[t]))
  }

  /** What keeps them exact: by the time the drop of a secondary takes its name out of its primary's `secondaries`, the
      name has not been registered again. */
  ghost predicate InTime(s: State, m: Move) {
    m.Do? && m.t in s.pcs && s.pcs[m.t].At? && s.pcs[m.t].stage.ElsePrimary? ==>
          s.pcs[m.t].stage.c.name !in s.sh.db.clients
  }

  // ----- at rest

  /** Only a primary has a name among its `secondaries`, and the names are those of its own secondaries. */
  lemma NameBelongs(db: R.Db, x: Client, n: Name)
    requires R.Wf(db) && x in db.secondaries && n in db.secondaries[x]
    ensures x.primary && R.Named(x) && PrimaryOf(n) == x.name != n
    ensures n in db.clients ==> db.clients[n].name == n && db.clients[n].primaryName == x.name && !db.clients[n].primary
  {
    assert R.SubName(n, x.name) && R.Named(x);
    PrimaryOfIdempotent(n);
    assert n in db.clients ==> R.Named(db.clients[n]);
  }

  lemma FromIdle(s: State, n: Name) returns (x: Client)
    requires R.Wf(s.sh.db) && Tied(s) && (forall t :: t in s.pcs ==> s.pcs[t].Idle?)
    requires n in s.sh.db.clients && !s.sh.db.clients[n].primary
    ensures A.InClients(s.sh.db, x) && x in s.sh.db.secondaries && n in s.sh.db.secondaries[x]
    ensures x.name == s.sh.db.clients[n].primaryName
  {
    assert Answered(s, n);
    x :| x in s.sh.db.secondaries && AnswersFor(s, x, n);
    NameBelongs(s.sh.db, x, n);
  }

  lemma ExactIdle(s: State, x: Client)
    requires R.Wf(s.sh.db) && Tied(s) && (forall t :: t in s.pcs ==> s.pcs[t].Idle?) && x in s.sh.db.secondaries
    ensures R.Exact(s.sh.db, x)
  {
    var db := s.sh.db;
    forall n | n in db.secondaries[x] ensures A.InClients(db, x) && n in R.SecondariesOf(db.clients, x.name) {
      assert Justified(s, x, n);
      NameBelongs(db, x, n);
    }
    forall n | A.InClients(db, x) && n in R.SecondariesOf(db.clients, x.name) ensures n in db.secondaries[x] {
      assert db.clients[n].name == n;
      var y := FromIdle(s, n);
    }
  }

  /** With all threads idle, every secondary has its primary and every `secondaries` set is exact. */
  lemma IdleExact(s: State)
    requires R.Wf(s.sh.db) && Tied(s) && forall t :: t in s.pcs ==> s.pcs[t].Idle?
    ensures R.AllHavePrimary(s.sh.db.clients) && R.AllExact(s.sh.db)
  {
    var db := s.sh.db;
    forall n | n in db.clients ensures R.HasPrimary(db.clients, n) {
      assert db.clients[n].name == n;
      if !db.clients[n].primary {
        var x := FromIdle(s, n);
      }
    }
    forall x | x in db.secondaries ensures R.Exact(db, x) { ExactIdle(s, x); }
  }

  // ----- one move

  /** `r` follows from `s` by a move of `t`. */
  ghost predicate Moved(s: State, r: State, t: Tid) { t in s.pcs && t in r.pcs && r.pcs == s.pcs[t := r.pcs[t]] }

  /** What other threads are about to do stays so. */
  lemma OthersStay(s: State, r: State, t: Tid, x: Client, n: Name)
    requires Moved(s, r, t)
    ensures SomeOwns(s, x) && !Owns(s.pcs[t], x) ==> SomeOwns(r, x)
    ensures SomeInCascade(s, x) && !InCascade(s.pcs[t], x) ==> SomeInCascade(r, x)
    ensures SomeInCascade(r, x) && !InCascade(r.pcs[t], x) ==> SomeInCascade(s, x)
    ensures SomeCascades(s, x, n) && !(InCascade(s.pcs[t], x) && n in Remaining(s.pcs[t])) ==> SomeCascades(r, x, n)
    ensures SomeArriving(s, n) && !Arriving(s.pcs[t], n) ==> SomeArriving(r, n)
    ensures SomeLeaving(s, n) && !Leaving(s.pcs[t], n) ==> SomeLeaving(r, n)
  {
    hide Owns, InCascade, Remaining, Arriving, Leaving;
    assert forall u :: u in s.pcs && u != t ==> u in r.pcs && r.pcs[u] == s.pcs[u];
    assert forall u :: u in r.pcs && u != t ==> u in s.pcs && r.pcs[u] == s.pcs[u];
  }

  lemma Itself(r: State, t: Tid, x: Client, n: Name)
    requires t in r.pcs
    ensures Owns(r.pcs[t], x) ==> SomeOwns(r, x)
    ensures InCascade(r.pcs[t], x) ==> SomeInCascade(r, x)
    ensures InCascade(r.pcs[t], x) && n in Remaining(r.pcs[t]) ==> SomeCascades(r, x, n)
    ensures Arriving(r.pcs[t], n) ==> SomeArriving(r, n)
    ensures Leaving(r.pcs[t], n) ==> SomeLeaving(r, n)
  {
    hide Owns, InCascade, Remaining, Arriving, Leaving;
  }

  /** A move that does not make `x` forget that it answers for `n`. */
  ghost predicate Faithful(s: State, r: State, t: Tid, x: Client, n: Name)
    requires Moved(s, r, t)
  {
    var a, b := s.pcs[t], r.pcs[t];
    && x in r.sh.db.secondaries && n in r.sh.db.secondaries[x]
    && (Owns(a, x) ==> Owns(b, x) || (InCascade(b, x) && n in Remaining(b)))
    && (InCascade(a, x) && n in Remaining(a) ==> InCascade(b, x) && n in Remaining(b))
    && (InCascade(b, x) && !InCascade(a, x) ==> n in Remaining(b))
  }

  lemma StillAnswers(s: State, r: State, t: Tid, x: Client, n: Name)
    requires Moved(s, r, t) && AnswersFor(s, x, n) && Faithful(s, r, t, x, n)
    requires A.InClients(s.sh.db, x) ==> A.InClients(r.sh.db, x) || (SomeOwns(r, x) && !SomeInCascade(r, x))
    ensures Answered(r, n)
  {
    hide Owns, InCascade, Remaining, SomeOwns, SomeInCascade, SomeCascades;
    OthersStay(s, r, t, x, n);
    Itself(s, t, x, n);
    Itself(r, t, x, n);
    assert AnswersFor(r, x, n);
  }

  /** Facts of a move at work. */
  ghost predicate Works(s: State, t: Tid, st: Stage, pick: Name) {
    Inv(s) && A.Fits(s) && Tied(s) && Enabled(s, Do(t, pick)) && s.pcs[t] == At(st, true)
  }

  lemma Retired(s: State, x: Client)
    requires Inv(s) && A.InClients(s.sh.db, x)
    ensures !SomeInCascade(s, x)
  {
    forall u | u in s.pcs ensures !InCascade(s.pcs[u], x) {
      assert PcOk(s.sh, s.pcs[u]);
    }
  }

  lemma FactsOf(s: State, u: Tid)
    requires Inv(s) && A.Fits(s) && Tied(s) && u in s.pcs
    ensures GlobalOk(s.sh) && PcOk(s.sh, s.pcs[u]) && A.PcFits(s.sh.db, s.pcs[u]) && PcExact(s.sh.db, s.pcs[u])
  {
    A.LockFacts(s, u);
    A.FactsOfTwo(s, u, u);
  }

  /** What a thread at work can rely on. */
  ghost predicate Local(s: State, t: Tid, st: Stage, pick: Name) {
    && Enabled(s, Do(t, pick)) && s.pcs[t] == At(st, true)
    && GlobalOk(s.sh) && PcOk(s.sh, s.pcs[t]) && A.PcFits(s.sh.db, s.pcs[t]) && PcExact(s.sh.db, s.pcs[t])
  }

  /** What a move needs to keep everything tied, thread by thread and name by name. */
  lemma Assembled(s: State, r: State, t: Tid)
    requires Tied(s) && Moved(s, r, t)
    requires forall n :: n in r.sh.db.clients && !r.sh.db.clients[n].primary ==> Answered(r, n)
    requires forall x, n :: x in r.sh.db.secondaries && n in r.sh.db.secondaries[x] ==> Justified(r, x, n)
    requires PcExact(r.sh.db, r.pcs[t]) && forall u :: u in s.pcs && u != t ==> PcExact(r.sh.db, s.pcs[u])
    ensures Tied(r)
  {
    hide Answered, Justified, PcExact;
  }

  // ----- moves that change neither the clients nor a `secondaries` set

  /** Stages whose work touches neither. */
  ghost predicate Idling(st: Stage, pick: Name) {
    && !st.InsSecondary? && !st.InsStore? && !st.DropClients? && !st.ElsePrimary?
    && !(st.CascadeNext? && pick !in st.todo)
  }

  lemma IdlingFaithful(s: State, t: Tid, st: Stage, pick: Name, x: Client, n: Name)
    requires Local(s, t, st, pick) && Idling(st, pick)
    requires x in s.sh.db.secondaries && n in s.sh.db.secondaries[x] && n in s.sh.db.clients
    ensures var r := Step(s, Do(t, pick)); Moved(s, r, t) && Faithful(s, r, t, x, n)
  {
    IdlingSame(s, t, st, pick);
    IdlingCascades(s.sh, st, pick, x, n);
  }

  lemma IdlingCascades(sh: Shared, st: Stage, pick: Name, x: Client, n: Name)
    requires R.Wf(sh.db) && Idling(st, pick) && x in sh.db.secondaries && n in sh.db.secondaries[x]
        && n in sh.db.clients
    ensures var a, b := At(st, true), After(sh, st, pick);
            && (Owns(a, x) ==> Owns(b, x) || (InCascade(b, x) && n in Remaining(b)))
            && (InCascade(a, x) && n in Remaining(a) ==> InCascade(b, x) && n in Remaining(b))
            && (InCascade(b, x) && !InCascade(a, x) ==> n in Remaining(b))
  {}

  lemma IdlingSame(s: State, t: Tid, st: Stage, pick: Name)
    requires Local(s, t, st, pick) && Idling(st, pick)
    ensures var r := Step(s, Do(t, pick));
            r.sh.db.clients == s.sh.db.clients && r.sh.db.secondaries == s.sh.db.secondaries && Moved(s, r, t)
  {}

  lemma IdlingJustified(s: State, t: Tid, st: Stage, pick: Name, x: Client, n: Name)
    requires Local(s, t, st, pick) && Idling(st, pick)
    requires x in s.sh.db.secondaries && n in s.sh.db.secondaries[x] && Justified(s, x, n)
    ensures Justified(Step(s, Do(t, pick)), x, n)
  {
    var r := Step(s, Do(t, pick));
    IdlingSame(s, t, st, pick);
    NameBelongs(s.sh.db, x, n);
    IdlingRoles(s, t, st, pick, x, n);
    OthersStay(s, r, t, x, n);
    Itself(r, t, x, n);
    hide SomeOwns, SomeInCascade, SomeArriving, SomeLeaving, Owns, InCascade, Arriving, Leaving, Step, Local;
  }

  lemma IdlingRoles(s: State, t: Tid, st: Stage, pick: Name, x: Client, n: Name)
    requires Local(s, t, st, pick) && Idling(st, pick)
    requires x in s.sh.db.secondaries && n in s.sh.db.secondaries[x] && PrimaryOf(n) == x.name && R.Named(x)
    ensures var a, b := s.pcs[t], Step(s, Do(t, pick)).pcs[t];
            && (Owns(a, x) || InCascade(a, x) ==> Owns(b, x) || InCascade(b, x))
            && (Arriving(a, n) ==> Arriving(b, n))
            && (A.InClients(s.sh.db, x) && Leaving(a, n) ==> Leaving(b, n))
  {
    assert st.ElseLookup? ==> st.c.primaryName == PrimaryOf(st.c.name);
    hide PcOk, GlobalOk, PcExact, A.PcFits;
    IdlingKeeps(s.sh, st, pick, x, n);
  }

  lemma IdlingKeeps(sh: Shared, st: Stage, pick: Name, x: Client, n: Name)
    requires Idling(st, pick) && PrimaryOf(n) == x.name && (st.ElseLookup? ==> st.c.primaryName == PrimaryOf(st.c.name))
    ensures var a, b := At(st, true), After(sh, st, pick);
            && (Owns(a, x) || InCascade(a, x) ==> Owns(b, x) || InCascade(b, x))
            && (Arriving(a, n) ==> Arriving(b, n))
            && (A.InClients(sh.db, x) && Leaving(a, n) ==> Leaving(b, n))
  {}

  lemma IdlingTied(s: State, t: Tid, st: Stage, pick: Name)
    requires Works(s, t, st, pick) && Idling(st, pick)
    ensures Tied(Step(s, Do(t, pick)))
  {
    var r := Step(s, Do(t, pick));
    FactsOf(s, t);
    assert Local(s, t, st, pick);
    hide Inv, A.Fits, Local, Step;
    IdlingSame(s, t, st, pick);
    forall n | n in r.sh.db.clients && !r.sh.db.clients[n].primary ensures Answered(r, n) {
      assert Answered(s, n);
      var x :| x in s.sh.db.secondaries && AnswersFor(s, x, n);
      IdlingFaithful(s, t, st, pick, x, n);
      StillAnswers(s, r, t, x, n);
    }
    forall x, n | x in r.sh.db.secondaries && n in r.sh.db.secondaries[x] ensures Justified(r, x, n) {
      assert Justified(s, x, n);
      IdlingJustified(s, t, st, pick, x, n);
    }
    IdlingSelf(s, t, st, pick);
    forall u | u in s.pcs && u != t ensures PcExact(r.sh.db, s.pcs[u]) { FactsOf(s, u); }
    Assembled(s, r, t);
  }

  lemma IdlingSelf(s: State, t: Tid, st: Stage, pick: Name)
    requires Local(s, t, st, pick) && Idling(st, pick)
    ensures PcExact(Step(s, Do(t, pick)).sh.db, Step(s, Do(t, pick)).pcs[t])
  {}

  // ----- the five that do

  lemma EnterAnswers(s: State, t: Tid, c: Client, p: Client, pick: Name, x: Client, n: Name)
    requires Local(s, t, InsSecondary(c, p), pick) && AnswersFor(s, x, n) && n in Step(s, Do(t, pick)).sh.db.clients
    ensures Answered(Step(s, Do(t, pick)), n)
  {
    hide SomeOwns, SomeInCascade, SomeCascades, SomeArriving, SomeLeaving;
    StillAnswers(s, Step(s, Do(t, pick)), t, x, n);
  }

  lemma EnterJustified(s: State, t: Tid, c: Client, p: Client, pick: Name, x: Client, n: Name)
    requires Local(s, t, InsSecondary(c, p), pick)
    requires var r := Step(s, Do(t, pick)); x in r.sh.db.secondaries && n in r.sh.db.secondaries[x]
    requires x != p || n != c.name ==> x in s.sh.db.secondaries && n in s.sh.db.secondaries[x] && Justified(s, x, n)
    ensures Justified(Step(s, Do(t, pick)), x, n)
  {
    hide SomeOwns, SomeInCascade, SomeCascades, SomeArriving, SomeLeaving;
    var r := Step(s, Do(t, pick));
    OthersStay(s, r, t, x, n);
    Itself(r, t, x, n);
  }

  lemma EnterOthers(s: State, t: Tid, c: Client, p: Client, pick: Name, u: Tid)
    requires Works(s, t, InsSecondary(c, p), pick) && u in s.pcs && u != t
    ensures PcExact(Step(s, Do(t, pick)).sh.db, s.pcs[u])
  {
    FactsOf(s, t);
    FactsOf(s, u);
    A.AloneAdding(s, t, u);
    hide Inv, A.Fits, Tied;
  }

  /** A registration enters its name into the `secondaries` of its primary. */
  lemma EnterTied(s: State, t: Tid, c: Client, p: Client, pick: Name)
    requires Works(s, t, InsSecondary(c, p), pick)
    ensures Tied(Step(s, Do(t, pick)))
  {
    var r := Step(s, Do(t, pick));
    FactsOf(s, t);
    EnterSelf(s, t, c, p, pick);
    forall n | n in r.sh.db.clients && !r.sh.db.clients[n].primary ensures Answered(r, n) {
      EnterName(s, t, c, p, pick, n);
    }
    forall x, n | x in r.sh.db.secondaries && n in r.sh.db.secondaries[x] ensures Justified(r, x, n) {
      EnterReason(s, t, c, p, pick, x, n);
    }
    forall u | u in s.pcs && u != t ensures PcExact(r.sh.db, s.pcs[u]) { EnterOthers(s, t, c, p, pick, u); }
    hide Inv, A.Fits, Step, PcExact, Answered, Justified, Local;
    Assembled(s, r, t);
  }

  lemma EnterSelf(s: State, t: Tid, c: Client, p: Client, pick: Name)
    requires Local(s, t, InsSecondary(c, p), pick)
    ensures var r := Step(s, Do(t, pick)); Moved(s, r, t) && PcExact(r.sh.db, r.pcs[t])
  {}

  lemma EnterName(s: State, t: Tid, c: Client, p: Client, pick: Name, n: Name)
    requires Works(s, t, InsSecondary(c, p), pick)
    requires var r := Step(s, Do(t, pick)); n in r.sh.db.clients && !r.sh.db.clients[n].primary
    ensures Answered(Step(s, Do(t, pick)), n)
  {
    FactsOf(s, t);
    assert Local(s, t, InsSecondary(c, p), pick);
    hide Inv, A.Fits, AnswersFor;
      assert Answered(s, n);
      var x :| x in s.sh.db.secondaries && AnswersFor(s, x, n);
      EnterAnswers(s, t, c, p, pick, x, n);
  }

  lemma EnterReason(s: State, t: Tid, c: Client, p: Client, pick: Name, x: Client, n: Name)
    requires Works(s, t, InsSecondary(c, p), pick)
    requires var r := Step(s, Do(t, pick)); x in r.sh.db.secondaries && n in r.sh.db.secondaries[x]
    ensures Justified(Step(s, Do(t, pick)), x, n)
  {
    FactsOf(s, t);
    assert Local(s, t, InsSecondary(c, p), pick);
    assert x != p || n != c.name ==> Justified(s, x, n);
    hide Inv, A.Fits, Tied;
    EnterJustified(s, t, c, p, pick, x, n);
  }

  lemma StoreAnswers(s: State, t: Tid, c: Client, pick: Name, x: Client, n: Name)
    requires Local(s, t, InsStore(c), pick) && AnswersFor(s, x, n) && n in Step(s, Do(t, pick)).sh.db.clients
    ensures Answered(Step(s, Do(t, pick)), n)
  {
    hide SomeOwns, SomeInCascade, SomeCascades, SomeArriving, SomeLeaving;
    StillAnswers(s, Step(s, Do(t, pick)), t, x, n);
  }

  lemma StoreJustified(s: State, t: Tid, c: Client, pick: Name, x: Client, n: Name)
    requires Local(s, t, InsStore(c), pick)
    requires var r := Step(s, Do(t, pick)); x in r.sh.db.secondaries && n in r.sh.db.secondaries[x]
    requires x in s.sh.db.secondaries && n in s.sh.db.secondaries[x] && Justified(s, x, n)
    ensures Justified(Step(s, Do(t, pick)), x, n)
  {
    hide SomeOwns, SomeInCascade, SomeCascades, SomeArriving, SomeLeaving;
    var r := Step(s, Do(t, pick));
    OthersStay(s, r, t, x, n);
    Itself(r, t, x, n);
  }

  lemma StoreOthers(s: State, t: Tid, c: Client, pick: Name, u: Tid)
    requires Works(s, t, InsStore(c), pick) && u in s.pcs && u != t
    ensures PcExact(Step(s, Do(t, pick)).sh.db, s.pcs[u])
  {
    FactsOf(s, t);
    FactsOf(s, u);
    A.AloneAdding(s, t, u);
    hide Inv, A.Fits, Tied;
  }

  /** A registration stores its object. */
  lemma StoreTied(s: State, t: Tid, c: Client, pick: Name)
    requires Works(s, t, InsStore(c), pick)
    ensures Tied(Step(s, Do(t, pick)))
  {
    var r := Step(s, Do(t, pick));
    FactsOf(s, t);
    StoreSelf(s, t, c, pick);
    forall n | n in r.sh.db.clients && !r.sh.db.clients[n].primary ensures Answered(r, n) {
      StoreName(s, t, c, pick, n);
    }
    forall x, n | x in r.sh.db.secondaries && n in r.sh.db.secondaries[x] ensures Justified(r, x, n) {
      StoreReason(s, t, c, pick, x, n);
    }
    forall u | u in s.pcs && u != t ensures PcExact(r.sh.db, s.pcs[u]) { StoreOthers(s, t, c, pick, u); }
    hide Inv, A.Fits, Step, PcExact, Answered, Justified, Local;
    Assembled(s, r, t);
  }

  lemma StoreSelf(s: State, t: Tid, c: Client, pick: Name)
    requires Local(s, t, InsStore(c), pick)
    ensures var r := Step(s, Do(t, pick)); Moved(s, r, t) && PcExact(r.sh.db, r.pcs[t])
  {}

  lemma StoreName(s: State, t: Tid, c: Client, pick: Name, n: Name)
    requires Works(s, t, InsStore(c), pick)
    requires var r := Step(s, Do(t, pick)); n in r.sh.db.clients && !r.sh.db.clients[n].primary
    ensures Answered(Step(s, Do(t, pick)), n)
  {
    FactsOf(s, t);
    assert Local(s, t, InsStore(c), pick);
    if n == c.name {
      hide Inv, A.Fits, Tied;
      assert AnswersFor(Step(s, Do(t, pick)), s.sh.db.clients[c.primaryName], n);
    } else {
      hide Inv, A.Fits, AnswersFor;
      assert Answered(s, n);
      var x :| x in s.sh.db.secondaries && AnswersFor(s, x, n);
      StoreAnswers(s, t, c, pick, x, n);
    }
  }

  lemma StoreReason(s: State, t: Tid, c: Client, pick: Name, x: Client, n: Name)
    requires Works(s, t, InsStore(c), pick)
    requires var r := Step(s, Do(t, pick)); x in r.sh.db.secondaries && n in r.sh.db.secondaries[x]
    ensures Justified(Step(s, Do(t, pick)), x, n)
  {
    FactsOf(s, t);
    assert Local(s, t, InsStore(c), pick);
    assert Justified(s, x, n);
    hide Inv, A.Fits, Tied;
    StoreJustified(s, t, c, pick, x, n);
  }

  lemma ClearAnswers(s: State, t: Tid, c: Client, todo: set<Name>, pick: Name, x: Client, n: Name)
    requires Local(s, t, CascadeNext(c, todo), pick) && pick !in todo && AnswersFor(s, x, n)
        && n in Step(s, Do(t, pick)).sh.db.clients
    requires x != c
    ensures Answered(Step(s, Do(t, pick)), n)
  {
    hide SomeOwns, SomeInCascade, SomeCascades, SomeArriving, SomeLeaving;
    StillAnswers(s, Step(s, Do(t, pick)), t, x, n);
  }

  lemma ClearJustified(s: State, t: Tid, c: Client, todo: set<Name>, pick: Name, x: Client, n: Name)
    requires Local(s, t, CascadeNext(c, todo), pick) && pick !in todo
    requires var r := Step(s, Do(t, pick)); x in r.sh.db.secondaries && n in r.sh.db.secondaries[x]
    requires x in s.sh.db.secondaries && n in s.sh.db.secondaries[x] && Justified(s, x, n)
    ensures Justified(Step(s, Do(t, pick)), x, n)
  {
    hide SomeOwns, SomeInCascade, SomeCascades, SomeArriving, SomeLeaving;
    var r := Step(s, Do(t, pick));
    OthersStay(s, r, t, x, n);
    Itself(r, t, x, n);
  }

  lemma ClearOthers(s: State, t: Tid, c: Client, todo: set<Name>, pick: Name, u: Tid)
    requires Works(s, t, CascadeNext(c, todo), pick) && pick !in todo && u in s.pcs && u != t
    ensures PcExact(Step(s, Do(t, pick)).sh.db, s.pcs[u])
  {
    FactsOf(s, t);
    FactsOf(s, u);
    hide Inv, A.Fits, Tied;
  }

  /** The end of a cascade clears the set. */
  lemma ClearTied(s: State, t: Tid, c: Client, todo: set<Name>, pick: Name)
    requires Works(s, t, CascadeNext(c, todo), pick) && pick !in todo
    ensures Tied(Step(s, Do(t, pick)))
  {
    var r := Step(s, Do(t, pick));
    FactsOf(s, t);
    ClearSelf(s, t, c, todo, pick);
    forall n | n in r.sh.db.clients && !r.sh.db.clients[n].primary ensures Answered(r, n) {
      ClearName(s, t, c, todo, pick, n);
    }
    forall x, n | x in r.sh.db.secondaries && n in r.sh.db.secondaries[x] ensures Justified(r, x, n) {
      ClearReason(s, t, c, todo, pick, x, n);
    }
    forall u | u in s.pcs && u != t ensures PcExact(r.sh.db, s.pcs[u]) { ClearOthers(s, t, c, todo, pick, u); }
    hide Inv, A.Fits, Step, PcExact, Answered, Justified, Local;
    Assembled(s, r, t);
  }

  lemma ClearSelf(s: State, t: Tid, c: Client, todo: set<Name>, pick: Name)
    requires Local(s, t, CascadeNext(c, todo), pick)
    ensures var r := Step(s, Do(t, pick)); Moved(s, r, t) && PcExact(r.sh.db, r.pcs[t])
  {}

  lemma ClearName(s: State, t: Tid, c: Client, todo: set<Name>, pick: Name, n: Name)
    requires Works(s, t, CascadeNext(c, todo), pick) && pick !in todo
    requires var r := Step(s, Do(t, pick)); n in r.sh.db.clients && !r.sh.db.clients[n].primary
    ensures Answered(Step(s, Do(t, pick)), n)
  {
    FactsOf(s, t);
    assert Local(s, t, CascadeNext(c, todo), pick);
    hide Inv, A.Fits, AnswersFor;
      assert Answered(s, n);
      var x :| x in s.sh.db.secondaries && AnswersFor(s, x, n);
      ClearedDoesNotAnswer(s, t, c, n);
      ClearAnswers(s, t, c, todo, pick, x, n);
  }

  lemma ClearReason(s: State, t: Tid, c: Client, todo: set<Name>, pick: Name, x: Client, n: Name)
    requires Works(s, t, CascadeNext(c, todo), pick) && pick !in todo
    requires var r := Step(s, Do(t, pick)); x in r.sh.db.secondaries && n in r.sh.db.secondaries[x]
    ensures Justified(Step(s, Do(t, pick)), x, n)
  {
    FactsOf(s, t);
    assert Local(s, t, CascadeNext(c, todo), pick);
    assert c in s.sh.db.secondaries && Justified(s, x, n);
    hide Inv, A.Fits, Tied;
    ClearJustified(s, t, c, todo, pick, x, n);
  }

  lemma ClearedDoesNotAnswer(s: State, t: Tid, c: Client, n: Name)
    requires Inv(s) && t in s.pcs && s.pcs[t] == At(CascadeNext(c, {}), true)
    ensures !AnswersFor(s, c, n)
  {
    assert PcOk(s.sh, s.pcs[t]) && GlobalOk(s.sh);
    assert InCascade(s.pcs[t], c);
    forall u | u in s.pcs && u != t ensures !InCascade(s.pcs[u], c) {
      assert Apart(s.pcs[t], s.pcs[u]);
    }
  }

  lemma TakeOutAnswers(s: State, t: Tid, c: Client, p: Client, ctx: Ctx, pick: Name, x: Client, n: Name)
    requires Local(s, t, ElsePrimary(c, p, ctx), pick) && InTime(s, Do(t, pick)) && AnswersFor(s, x, n)
        && n in Step(s, Do(t, pick)).sh.db.clients
    ensures Answered(Step(s, Do(t, pick)), n)
  {
    hide SomeOwns, SomeInCascade, SomeCascades, SomeArriving, SomeLeaving;
    StillAnswers(s, Step(s, Do(t, pick)), t, x, n);
  }

  lemma TakeOutJustified(s: State, t: Tid, c: Client, p: Client, ctx: Ctx, pick: Name, x: Client, n: Name)
    requires Local(s, t, ElsePrimary(c, p, ctx), pick) && InTime(s, Do(t, pick))
    requires var r := Step(s, Do(t, pick)); x in r.sh.db.secondaries && n in r.sh.db.secondaries[x]
    requires x in s.sh.db.secondaries && n in s.sh.db.secondaries[x] && Justified(s, x, n)
    ensures Justified(Step(s, Do(t, pick)), x, n)
  {
    hide SomeOwns, SomeInCascade, SomeCascades, SomeArriving, SomeLeaving;
    var r := Step(s, Do(t, pick));
    NameBelongs(s.sh.db, x, n);
    OthersStay(s, r, t, x, n);
    Itself(r, t, x, n);
  }

  lemma TakeOutOthers(s: State, t: Tid, c: Client, p: Client, ctx: Ctx, pick: Name, u: Tid)
    requires Works(s, t, ElsePrimary(c, p, ctx), pick) && InTime(s, Do(t, pick)) && u in s.pcs && u != t
    ensures PcExact(Step(s, Do(t, pick)).sh.db, s.pcs[u])
  {
    FactsOf(s, t);
    FactsOf(s, u);
    assert Apart(s.pcs[t], s.pcs[u]);
    hide Inv, A.Fits, Tied;
  }

  /** The drop of a secondary takes its name out, in time. */
  lemma TakeOutTied(s: State, t: Tid, c: Client, p: Client, ctx: Ctx, pick: Name)
    requires Works(s, t, ElsePrimary(c, p, ctx), pick) && InTime(s, Do(t, pick))
    ensures Tied(Step(s, Do(t, pick)))
  {
    var r := Step(s, Do(t, pick));
    FactsOf(s, t);
    TakeOutSelf(s, t, c, p, ctx, pick);
    forall n | n in r.sh.db.clients && !r.sh.db.clients[n].primary ensures Answered(r, n) {
      TakeOutName(s, t, c, p, ctx, pick, n);
    }
    forall x, n | x in r.sh.db.secondaries && n in r.sh.db.secondaries[x] ensures Justified(r, x, n) {
      TakeOutReason(s, t, c, p, ctx, pick, x, n);
    }
    forall u | u in s.pcs && u != t ensures PcExact(r.sh.db, s.pcs[u]) { TakeOutOthers(s, t, c, p, ctx, pick, u); }
    hide Inv, A.Fits, Step, PcExact, Answered, Justified, Local;
    Assembled(s, r, t);
  }

  lemma TakeOutSelf(s: State, t: Tid, c: Client, p: Client, ctx: Ctx, pick: Name)
    requires Local(s, t, ElsePrimary(c, p, ctx), pick)
    ensures var r := Step(s, Do(t, pick)); Moved(s, r, t) && PcExact(r.sh.db, r.pcs[t])
  {}

  lemma TakeOutName(s: State, t: Tid, c: Client, p: Client, ctx: Ctx, pick: Name, n: Name)
    requires Works(s, t, ElsePrimary(c, p, ctx), pick) && InTime(s, Do(t, pick))
    requires var r := Step(s, Do(t, pick)); n in r.sh.db.clients && !r.sh.db.clients[n].primary
    ensures Answered(Step(s, Do(t, pick)), n)
  {
    FactsOf(s, t);
    assert Local(s, t, ElsePrimary(c, p, ctx), pick);
    hide Inv, A.Fits, AnswersFor;
      assert Answered(s, n);
      var x :| x in s.sh.db.secondaries && AnswersFor(s, x, n);
      TakeOutAnswers(s, t, c, p, ctx, pick, x, n);
  }

  lemma TakeOutReason(s: State, t: Tid, c: Client, p: Client, ctx: Ctx, pick: Name, x: Client, n: Name)
    requires Works(s, t, ElsePrimary(c, p, ctx), pick) && InTime(s, Do(t, pick))
    requires var r := Step(s, Do(t, pick)); x in r.sh.db.secondaries && n in r.sh.db.secondaries[x]
    ensures Justified(Step(s, Do(t, pick)), x, n)
  {
    FactsOf(s, t);
    assert Local(s, t, ElsePrimary(c, p, ctx), pick);
    assert p in s.sh.db.secondaries && Justified(s, x, n);
    hide Inv, A.Fits, Tied;
    TakeOutJustified(s, t, c, p, ctx, pick, x, n);
  }

  lemma RemoveAnswers(s: State, t: Tid, c: Client, ctx: Ctx, pick: Name, x: Client, n: Name)
    requires Local(s, t, DropClients(c, ctx), pick) && AnswersFor(s, x, n) && n in Step(s, Do(t, pick)).sh.db.clients
    requires var r := Step(s, Do(t, pick));
             A.InClients(s.sh.db, x) && !A.InClients(r.sh.db, x) ==> SomeOwns(r, x) && !SomeInCascade(r, x)
    ensures Answered(Step(s, Do(t, pick)), n)
  {
    hide SomeOwns, SomeInCascade, SomeCascades, SomeArriving, SomeLeaving;
    NameBelongs(s.sh.db, x, n);
    StillAnswers(s, Step(s, Do(t, pick)), t, x, n);
  }

  lemma RemoveJustified(s: State, t: Tid, c: Client, ctx: Ctx, pick: Name, x: Client, n: Name)
    requires Local(s, t, DropClients(c, ctx), pick)
    requires var r := Step(s, Do(t, pick)); x in r.sh.db.secondaries && n in r.sh.db.secondaries[x]
    requires x in s.sh.db.secondaries && n in s.sh.db.secondaries[x] && Justified(s, x, n)
    requires var r := Step(s, Do(t, pick));
             A.InClients(s.sh.db, x) && !A.InClients(r.sh.db, x) ==> SomeOwns(r, x) && !SomeInCascade(r, x)
    ensures Justified(Step(s, Do(t, pick)), x, n)
  {
    hide SomeOwns, SomeInCascade, SomeCascades, SomeArriving, SomeLeaving;
    var r := Step(s, Do(t, pick));
    NameBelongs(s.sh.db, x, n);
    assert R.Named(c);
    OthersStay(s, r, t, x, n);
    Itself(r, t, x, n);
  }

  lemma RemoveOthers(s: State, t: Tid, c: Client, ctx: Ctx, pick: Name, u: Tid)
    requires Works(s, t, DropClients(c, ctx), pick) && u in s.pcs && u != t
    ensures PcExact(Step(s, Do(t, pick)).sh.db, s.pcs[u])
  {
    FactsOf(s, t);
    FactsOf(s, u);
    A.AloneAdding(s, t, u);
    hide Inv, A.Fits, Tied;
  }

  /** A drop takes its name out of the clients. */
  lemma RemoveTied(s: State, t: Tid, c: Client, ctx: Ctx, pick: Name)
    requires Works(s, t, DropClients(c, ctx), pick) && A.Respects(s, Do(t, pick))
    ensures Tied(Step(s, Do(t, pick)))
  {
    var r := Step(s, Do(t, pick));
    FactsOf(s, t);
    RemoveSelf(s, t, c, ctx, pick);
    forall n | n in r.sh.db.clients && !r.sh.db.clients[n].primary ensures Answered(r, n) {
      RemoveName(s, t, c, ctx, pick, n);
    }
    forall x, n | x in r.sh.db.secondaries && n in r.sh.db.secondaries[x] ensures Justified(r, x, n) {
      RemoveReason(s, t, c, ctx, pick, x, n);
    }
    forall u | u in s.pcs && u != t ensures PcExact(r.sh.db, s.pcs[u]) { RemoveOthers(s, t, c, ctx, pick, u); }
    hide Inv, A.Fits, Step, PcExact, Answered, Justified, Local;
    Assembled(s, r, t);
  }

  lemma RemoveSelf(s: State, t: Tid, c: Client, ctx: Ctx, pick: Name)
    requires Local(s, t, DropClients(c, ctx), pick)
    ensures var r := Step(s, Do(t, pick)); Moved(s, r, t) && PcExact(r.sh.db, r.pcs[t])
  {}

  lemma RemoveName(s: State, t: Tid, c: Client, ctx: Ctx, pick: Name, n: Name)
    requires Works(s, t, DropClients(c, ctx), pick) && A.Respects(s, Do(t, pick))
    requires var r := Step(s, Do(t, pick)); n in r.sh.db.clients && !r.sh.db.clients[n].primary
    ensures Answered(Step(s, Do(t, pick)), n)
  {
    FactsOf(s, t);
    assert Local(s, t, DropClients(c, ctx), pick);
    hide Inv, A.Fits, AnswersFor;
      assert Answered(s, n);
      var x :| x in s.sh.db.secondaries && AnswersFor(s, x, n);
      NameOf(s, x, n);
      RemovedStillOwned(s, t, c, ctx, pick, x);
      RemoveAnswers(s, t, c, ctx, pick, x, n);
  }

  lemma RemoveReason(s: State, t: Tid, c: Client, ctx: Ctx, pick: Name, x: Client, n: Name)
    requires Works(s, t, DropClients(c, ctx), pick) && A.Respects(s, Do(t, pick))
    requires var r := Step(s, Do(t, pick)); x in r.sh.db.secondaries && n in r.sh.db.secondaries[x]
    ensures Justified(Step(s, Do(t, pick)), x, n)
  {
    FactsOf(s, t);
    assert Local(s, t, DropClients(c, ctx), pick);
    assert Justified(s, x, n);
    NameBelongs(s.sh.db, x, n);
    RemovedStillOwned(s, t, c, ctx, pick, x);
    hide Inv, A.Fits, Tied;
    RemoveJustified(s, t, c, ctx, pick, x, n);
  }

  lemma NameOf(s: State, x: Client, n: Name)
    requires R.Wf(s.sh.db) && AnswersFor(s, x, n)
    ensures x.primary
  {
    NameBelongs(s.sh.db, x, n);
  }

  /** Whoever is removed from the clients is being dropped, and its drop will come to its `secondaries`. */
  lemma RemovedStillOwned(s: State, t: Tid, c: Client, ctx: Ctx, pick: Name, x: Client)
    requires Works(s, t, DropClients(c, ctx), pick) && A.Respects(s, Do(t, pick)) && x in s.sh.db.secondaries
        && x.primary
    ensures var r := Step(s, Do(t, pick));
            A.InClients(s.sh.db, x) && !A.InClients(r.sh.db, x) ==> SomeOwns(r, x) && !SomeInCascade(r, x)
  {
    FactsOf(s, t);
    A.FactsOf(s, t, x);
    if A.InClients(s.sh.db, x) {
      Retired(s, x);
    }
    hide Inv, A.Fits, Tied;
    if A.InClients(s.sh.db, x) && !A.InClients(Step(s, Do(t, pick)).sh.db, x) {
      OwnerStays(s, t, c, ctx, pick, x);
    }
  }

  lemma OwnerStays(s: State, t: Tid, c: Client, ctx: Ctx, pick: Name, x: Client)
    requires Local(s, t, DropClients(c, ctx), pick) && A.Respects(s, Do(t, pick)) && A.Placed(s, x) && x.primary
    requires A.InClients(s.sh.db, x) && !A.InClients(Step(s, Do(t, pick)).sh.db, x) && !SomeInCascade(s, x)
    ensures SomeOwns(Step(s, Do(t, pick)), x) && !SomeInCascade(Step(s, Do(t, pick)), x)
  {
    var r := Step(s, Do(t, pick));
    assert x.name == c.name && (x == c || !A.InNames(s.sh.db, x));
    Itself(s, t, x, c.name);
    assert Moved(s, r, t) && (x == c ==> Owns(r.pcs[t], x)) && !InCascade(r.pcs[t], x);
    hide Local, Step, A.Respects;
    OthersStay(s, r, t, x, c.name);
    Itself(r, t, x, c.name);
    if x != c {
      var u :| u in s.pcs && A.PastNames(s.pcs[u], x);
      assert Owns(s.pcs[u], x) && u != t && r.pcs[u] == s.pcs[u];
    }
  }

  // ----- whole runs

  lemma AcquireTied(s: State, t: Tid)
    requires Tied(s) && Enabled(s, Acquire(t))
    ensures Tied(Step(s, Acquire(t)))
  {
    var r := Step(s, Acquire(t));
    SameRoles(s, r, t);
    hide Step, Enabled;
    Assembled(s, r, t);
  }

  /** A move that changes neither what its thread is about to do nor the clients nor an existing `secondaries` set. */
  lemma SameRoles(s: State, r: State, t: Tid)
    requires Tied(s) && Moved(s, r, t) && r.sh.db.clients == s.sh.db.clients
    requires forall x :: x in s.sh.db.secondaries ==>
          x in r.sh.db.secondaries && r.sh.db.secondaries[x] == s.sh.db.secondaries[x]
    requires forall x :: x in r.sh.db.secondaries && x !in s.sh.db.secondaries ==> r.sh.db.secondaries[x] == {}
    requires forall x :: (Owns(s.pcs[t], x) <==> Owns(r.pcs[t], x)) && (InCascade(s.pcs[t], x) <==>
          InCascade(r.pcs[t], x))
    requires Remaining(s.pcs[t]) <= Remaining(r.pcs[t])
    requires forall n :: (Arriving(s.pcs[t], n) ==> Arriving(r.pcs[t], n)) && (Leaving(s.pcs[t], n) ==>
          Leaving(r.pcs[t], n))
    ensures forall n :: n in r.sh.db.clients && !r.sh.db.clients[n].primary ==> Answered(r, n)
    ensures forall x, n :: x in r.sh.db.secondaries && n in r.sh.db.secondaries[x] ==> Justified(r, x, n)
    ensures forall u :: u in s.pcs && u != t ==> PcExact(r.sh.db, s.pcs[u])
    ensures s.pcs[t].At? && r.pcs[t] == At(s.pcs[t].stage, true) ==> PcExact(r.sh.db, r.pcs[t])
  {
    hide Owns, InCascade, Remaining, Arriving, Leaving, SomeOwns, SomeInCascade, SomeCascades, SomeArriving,
        SomeLeaving;
    forall n | n in r.sh.db.clients && !r.sh.db.clients[n].primary ensures Answered(r, n) {
      assert Answered(s, n);
      var x :| x in s.sh.db.secondaries && AnswersFor(s, x, n);
      StillAnswers(s, r, t, x, n);
    }
    forall x, n | x in r.sh.db.secondaries && n in r.sh.db.secondaries[x] ensures Justified(r, x, n) {
      assert Justified(s, x, n);
      OthersStay(s, r, t, x, n);
      Itself(r, t, x, n);
    }
  }

  lemma BeginTied(s: State, t: Tid, st: Stage)
    requires Tied(s) && Enabled(s, Begin(t, st))
    ensures Tied(Step(s, Begin(t, st)))
  {
    var r := Step(s, Begin(t, st));
    SameRoles(s, r, t);
    assert PcExact(r.sh.db, r.pcs[t]);
    hide Step, Enabled;
    Assembled(s, r, t);
  }

  lemma DoTied(s: State, t: Tid, pick: Name)
    requires Inv(s) && A.Fits(s) && Tied(s) && Enabled(s, Do(t, pick))
    requires A.Respects(s, Do(t, pick)) && InTime(s, Do(t, pick))
    ensures Tied(Step(s, Do(t, pick)))
  {
    hide Inv, A.Fits, Tied, A.Respects, InTime, Step;
    var st := s.pcs[t].stage;
    assert Works(s, t, st, pick);
    if Idling(st, pick) {
      IdlingTied(s, t, st, pick);
    } else {
      match st
      case InsSecondary(c, p) => EnterTied(s, t, c, p, pick);
      case InsStore(c) => StoreTied(s, t, c, pick);
      case DropClients(c, ctx) => RemoveTied(s, t, c, ctx, pick);
      case CascadeNext(c, todo) => ClearTied(s, t, c, todo, pick);
      case ElsePrimary(c, p, ctx) => TakeOutTied(s, t, c, p, ctx, pick);
    }
  }

  /** In a run drops come neither too early nor too late, from the maps and from the `secondaries` sets. */
  ghost predicate WellTimed(states: seq<State>, moves: seq<Move>)
    requires |states| == |moves| + 1
  {
    forall k :: 0 <= k < |moves| ==> A.Respects(states[k], moves[k]) && InTime(states[k], moves[k])
  }

  lemma {:induction false} RunTied(states: seq<State>, moves: seq<Move>, i: nat)
    requires IsRun(states, moves) && i < |states| && WellTimed(states, moves)
    ensures Tied(states[i])
  {
    hide Inv, A.Respects, InTime, A.Fits, Step, Enabled;
    if i > 0 {
      var s, m := states[i - 1], moves[i - 1];
      RunTied(states, moves, i - 1);
      RunKeepsInv(states, moves, i - 1);
      A.RunFits(states, moves, i - 1);
      assert Enabled(s, m) && A.Respects(s, m) && InTime(s, m);
      hide Tied;
      match m
      case Begin(t, st) => BeginTied(s, t, st);
      case Acquire(t) => AcquireTied(s, t);
      case Do(t, pick) => DoTied(s, t, pick);
    }
  }

  /** In every such run the registry is consistent whenever all threads are idle. */
  lemma ConsistentAtRest(states: seq<State>, moves: seq<Move>, i: nat)
    requires IsRun(states, moves) && i < |states| && WellTimed(states, moves)
    requires forall t :: t in states[i].pcs ==> states[i].pcs[t].Idle?
    ensures R.Consistent(states[i].sh.db)
  {
    hide A.Respects, InTime, Tied;
    RunKeepsInv(states, moves, i);
    A.MapsAgreeAtRest(states, moves, i);
    RunTied(states, moves, i);
    assert R.Wf(states[i].sh.db);
    hide Inv;
    IdleExact(states[i]);
  }

  // ----- a listing in the middle of things

  /** What a listing counts for a primary besides its registered secondaries, and which of them it misses. */
  ghost function Extra(db: R.Db, p: Client): set<Name>
    requires p in db.secondaries
  {
    db.secondaries[p] - R.SecondariesOf(db.clients, p.name)
  }

  ghost function Missing(db: R.Db, p: Client): set<Name>
    requires p in db.secondaries
  {
    R.SecondariesOf(db.clients, p.name) - db.secondaries[p]
  }

  /** In every such run, at the moment a listing counts a primary: it counts the registered secondaries, plus the
      names whose drop stands between the clients map and the set, less those that an earlier holder of the primary's
      name still answers for and is about to drop. */
  lemma CountedThen(states: seq<State>, moves: seq<Move>, i: nat, t: Tid, p: Client, todo: set<Name>)
    requires IsRun(states, moves) && i < |states| && WellTimed(states, moves)
    requires t in states[i].pcs && states[i].pcs[t] == At(ListCount(p, todo), true)
    ensures var s := states[i];
            && A.InClients(s.sh.db, p) && p in s.sh.db.secondaries
            && |s.sh.db.secondaries[p]| + |Missing(s.sh.db, p)| == |R.SecondariesOf(s.sh.db.clients,
                p.name)| + |Extra(s.sh.db, p)|
            && (forall n :: n in Extra(s.sh.db, p) ==> SomeLeaving(s, n))
            && (forall n :: n in Missing(s.sh.db, p) ==>
                  exists x :: x in s.sh.db.secondaries && x != p && x.name == p.name && AnswersFor(s, x, n))
  {
    var s := states[i];
    var db := s.sh.db;
    RunKeepsInv(states, moves, i);
    RunTied(states, moves, i);
    A.RunFits(states, moves, i);
    FactsOf(s, t);
    CountSets(db.secondaries[p], R.SecondariesOf(db.clients, p.name));
    forall n | n in Extra(db, p) ensures SomeLeaving(s, n) {
      NameBelongs(db, p, n);
      assert Justified(s, p, n);
      NobodyArrives(s, t, p, todo, n);
    }
    forall n | n in Missing(db, p)
      ensures exists x :: x in db.secondaries && x != p && x.name == p.name && AnswersFor(s, x, n)
    {
      assert db.clients[n].name == n && Answered(s, n);
      var x :| x in db.secondaries && AnswersFor(s, x, n);
      NameBelongs(db, x, n);
    }
  }

  lemma CountSets(a: set<Name>, b: set<Name>)
    ensures |a| + |b - a| == |b| + |a - b|
  {
    assert a + (b - a) == b + (a - b);
  }

  lemma NobodyArrives(s: State, t: Tid, p: Client, todo: set<Name>, n: Name)
    requires Inv(s) && t in s.pcs && s.pcs[t] == At(ListCount(p, todo), true)
    ensures !SomeArriving(s, n)
  {
    forall u | u in s.pcs && u != t ensures !Arriving(s.pcs[u], n) {
      assert Apart(s.pcs[t], s.pcs[u]);
    }
  }

  // ----- a drop that comes too late

  /** A thread that stands in nobody's way. */
  ghost predicate Harmless(pc: Pc) {
    ClientsLock(pc).Free? && Mutexes(pc) == {} && LeafMode(pc, Broadcasts).Free? && LeafMode(pc, Subscriptions).Free?
  }

  ghost predicate Alone(s: State, t: Tid) { t in s.pcs && forall u :: u in s.pcs && u != t ==> Harmless(s.pcs[u]) }

  /** Where a thread stands, the others being where they were. */
  ghost function Put(s: State, sh: Shared, t: Tid, pc: Pc): State { State(sh, s.pcs[t := pc]) }

  lemma PutTwice(s: State, sh: Shared, t: Tid, pc: Pc, r: Shared, next: Pc)
    ensures Put(Put(s, sh, t, pc), r, t, next) == Put(s, r, t, next)
    ensures Alone(s, t) ==> Alone(Put(s, sh, t, pc), t) && Put(s, sh, t, pc).pcs[t] == pc
  {}

  /** A stage of a thread that nobody hinders. */
  lemma StrideAlone(s: State, sh: Shared, t: Tid, st: Stage, r: Shared, next: Pc)
    requires Alone(s, t) && !Blocks(Enter(st), Needs(st)) && Picked(st, [])
    requires r == Work(sh, st, []) && next == After(sh, st, [])
    ensures A.Leads(Put(s, sh, t, Enter(st)), A.Stride(t), Put(s, r, t, next))
  {
    var m := Put(s, sh, t, Enter(st));
    PutTwice(s, sh, t, Enter(st), r, next);
    HarmlessBlocks(s, t, Needs(st));
    assert forall u :: u in m.pcs ==> m.pcs[u] == if u == t then Enter(st) else s.pcs[u];
    hide Harmless, Blocks, Needs;
    A.StrideTo(m, t);
  }

  lemma HarmlessBlocks(s: State, t: Tid, w: Want)
    requires Alone(s, t)
    ensures forall u :: u in s.pcs && u != t ==> !Blocks(s.pcs[u], w)
  {}

  /** The stages of a registration that finds its name free, and what they make of the registry. */
  ghost function Entered(sh: Shared, c: Client): Shared
    requires c.primary || c.primaryName in sh.db.clients
  {
    if c.primary then sh
    else var p := sh.db.clients[c.primaryName]; SetSecondaries(sh, p, SetOf(sh.db, p) + {c.name})
  }

  lemma EnterAlone(s: State, t: Tid, c: Client) returns (moves: seq<Move>)
    requires Alone(s, t) && s.pcs[t].Idle? && c !in s.sh.db.secondaries && R.Named(c)
    requires c.name !in s.sh.db.clients && (c.primary || c.primaryName in s.sh.db.clients)
    ensures var sh := s.sh.(db := R.Create(s.sh.db, c));
            A.Leads(s, moves, Put(s, Entered(sh, c), t, Enter(InsBroadcasts(c))))
  {
    var sh := s.sh.(db := R.Create(s.sh.db, c));
    var m := Begin(t, InsClients(c));
    A.LeadsOne(s, m);
    assert Step(s, m) == Put(s, sh, t, Enter(InsClients(c)));
    hide A.Leads, Alone;
    moves := [m] + A.Stride(t);
    if c.primary {
      StrideAlone(s, sh, t, InsClients(c), sh, Enter(InsBroadcasts(c)));
      A.LeadsOn(s, [m], Put(s, sh, t, Enter(InsClients(c))), A.Stride(t), Put(s, sh, t, Enter(InsBroadcasts(c))));
    } else {
      var p := sh.db.clients[c.primaryName];
      StrideAlone(s, sh, t, InsClients(c), sh, Enter(InsSecondary(c, p)));
      StrideAlone(s, sh, t, InsSecondary(c, p), Entered(sh, c), Enter(InsBroadcasts(c)));
      A.LeadsOn(s, [m], Put(s, sh, t, Enter(InsClients(c))), A.Stride(t), Put(s, sh, t, Enter(InsSecondary(c, p))));
      A.LeadsOn(s, moves, Put(s, sh, t, Enter(InsSecondary(c, p))), A.Stride(t),
                Put(s, Entered(sh, c), t, Enter(InsBroadcasts(c))));
      moves := moves + A.Stride(t);
    }
  }

  /** A whole registration is the insertion on values. */
  lemma RegisterAlone(s: State, t: Tid, c: Client) returns (moves: seq<Move>)
    requires Alone(s, t) && s.pcs[t].Idle? && c !in s.sh.db.secondaries && R.Named(c) && R.Wf(s.sh.db)
    requires c.name !in s.sh.db.clients && (c.primary || c.primaryName in s.sh.db.clients)
    ensures R.Wf(R.Create(s.sh.db, c))
    ensures A.Leads(s, moves, Put(s, Shared(R.Insert(R.Create(s.sh.db, c), c), s.sh.launched + {c}, s.sh.retired), t,
        Idle))
  {
    R.CreateKeepsWf(s.sh.db, c);
    var sh := s.sh.(db := R.Create(s.sh.db, c));
    var e := Entered(sh, c);
    var e1 := Work(e, InsBroadcasts(c), []);
    var e2 := Work(e1, InsSubscriptions(c), []);
    var e3 := Work(e2, InsStore(c), []);
    InsertedAtLast(sh, c);
    moves := EnterAlone(s, t, c);
    StrideAlone(s, e, t, InsBroadcasts(c), e1, Enter(InsSubscriptions(c)));
    StrideAlone(s, e1, t, InsSubscriptions(c), e2, Enter(InsStore(c)));
    StrideAlone(s, e2, t, InsStore(c), e3, Idle);
    hide A.Leads, Work, Alone, Entered;
    A.LeadsOn(s, moves, Put(s, e, t, Enter(InsBroadcasts(c))), A.Stride(t), Put(s, e1, t, Enter(InsSubscriptions(c))));
    moves := moves + A.Stride(t);
    A.LeadsOn(s, moves, Put(s, e1, t, Enter(InsSubscriptions(c))), A.Stride(t), Put(s, e2, t, Enter(InsStore(c))));
    moves := moves + A.Stride(t);
    A.LeadsOn(s, moves, Put(s, e2, t, Enter(InsStore(c))), A.Stride(t), Put(s, e3, t, Idle));
    moves := moves + A.Stride(t);
  }

  lemma InsertedAtLast(sh: Shared, c: Client)
    requires R.Wf(sh.db) && c in sh.db.secondaries && c.name !in sh.db.clients && (c.primary
        || c.primaryName in sh.db.clients)
    ensures Work(Work(Work(Entered(sh, c), InsBroadcasts(c), []), InsSubscriptions(c), []), InsStore(c), [])
            == Shared(R.Insert(sh.db, c), sh.launched + {c}, sh.retired)
  {}

  /** The registry without a name. */
  ghost function Without(db: R.Db, n: Name): R.Db {
    db.(clients := db.clients - {n}, broadcasts := db.broadcasts - {n}, subscriptions := db.subscriptions - {n})
  }

  /** The drop of a secondary, up to where it is out of the three maps. */
  lemma LeaveAlone(s: State, t: Tid, c: Client) returns (moves: seq<Move>)
    requires Alone(s, t) && s.pcs[t].Idle? && c in s.sh.launched && !c.primary
    ensures A.Leads(s, moves, Put(s, Shared(Without(s.sh.db, c.name), s.sh.launched, s.sh.retired + {c}), t,
        Enter(ElseLookup(c, Top))))
  {
    var sh, m := s.sh, Begin(t, DropSubscriptions(c, Top));
    var e1 := Work(sh, DropSubscriptions(c, Top), []);
    var e2 := Work(e1, DropBroadcasts(c, Top), []);
    var e3 := Work(e2, DropClients(c, Top), []);
    assert e3 == Shared(Without(sh.db, c.name), sh.launched, sh.retired + {c});
    A.LeadsOne(s, m);
    assert Step(s, m) == Put(s, sh, t, Enter(DropSubscriptions(c, Top)));
    StrideAlone(s, sh, t, DropSubscriptions(c, Top), e1, Enter(DropBroadcasts(c, Top)));
    StrideAlone(s, e1, t, DropBroadcasts(c, Top), e2, Enter(DropClients(c, Top)));
    StrideAlone(s, e2, t, DropClients(c, Top), e3, Enter(ElseLookup(c, Top)));
    hide A.Leads, Work, Alone;
    moves := [m];
    A.LeadsOn(s, moves, Put(s, sh, t, Enter(DropSubscriptions(c, Top))), A.Stride(t), Put(s, e1, t,
        Enter(DropBroadcasts(c, Top))));
    moves := moves + A.Stride(t);
    A.LeadsOn(s, moves, Put(s, e1, t, Enter(DropBroadcasts(c, Top))), A.Stride(t), Put(s, e2, t, Enter(DropClients(c,
        Top))));
    moves := moves + A.Stride(t);
    A.LeadsOn(s, moves, Put(s, e2, t, Enter(DropClients(c, Top))), A.Stride(t), Put(s, e3, t, Enter(ElseLookup(c,
        Top))));
    moves := moves + A.Stride(t);
  }

  /** And its end. */
  lemma FinishAlone(s: State, t: Tid, c: Client) returns (moves: seq<Move>)
    requires Alone(s, t) && s.pcs[t] == Enter(ElseLookup(c, Top)) && c.primaryName in s.sh.db.clients
    ensures var p := s.sh.db.clients[c.primaryName];
            A.Leads(s, moves, Put(s, SetSecondaries(s.sh, p, SetOf(s.sh.db, p) - {c.name}), t, Idle))
  {
    var sh, p := s.sh, s.sh.db.clients[c.primaryName];
    assert s == Put(s, sh, t, Enter(ElseLookup(c, Top)));
    StrideAlone(s, sh, t, ElseLookup(c, Top), sh, Enter(ElsePrimary(c, p, Top)));
    StrideAlone(s, sh, t, ElsePrimary(c, p, Top), SetSecondaries(sh, p, SetOf(sh.db, p) - {c.name}), Idle);
    moves := A.Stride(t) + A.Stride(t);
    A.LeadsOn(s, A.Stride(t), Put(s, sh, t, Enter(ElsePrimary(c, p, Top))), A.Stride(t),
              Put(s, SetSecondaries(sh, p, SetOf(sh.db, p) - {c.name}), t, Idle));
  }

  /** A primary and two clients that use the same secondary name under it. */
  ghost predicate Cast(p: Client, a: Client, b: Client) {
    R.Named(p) && R.Named(a) && R.Named(b) && p.primary && a != b && a.name == b.name && R.SubName(a.name, p.name)
  }

  /** The registry with the primary, and then with the first of the two as well. */
  ghost predicate First(db: R.Db, p: Client) {
    R.Consistent(db) && db.clients == map[p.name := p] && db.secondaries == map[p := {}]
  }

  ghost predicate Second(db: R.Db, p: Client, a: Client) {
    R.Consistent(db) && db.clients == map[p.name := p, a.name := a] && db.secondaries == map[p := {a.name}, a := {}]
  }

  lemma FirstIn(p: Client)
    requires R.Named(p) && p.primary
    ensures var e := R.Create(R.EMPTY, p); R.Wf(e) && First(R.Insert(e, p), p)
  {
    assert R.Consistent(R.EMPTY);
    R.CreateKeepsConsistent(R.EMPTY, p);
    var e := R.Create(R.EMPTY, p);
    R.InsertKeepsConsistent(e, p);
    hide R.Consistent;
  }

  lemma SecondIn(db: R.Db, p: Client, a: Client)
    requires First(db, p) && R.Named(a) && p.primary && R.SubName(a.name, p.name)
    ensures a !in db.secondaries && !a.primary && a.primaryName == p.name
    ensures var e := R.Create(db, a); R.Wf(e) && Second(R.Insert(e, a), p, a)
  {
    R.SubNameOf(a, p.name);
    R.CreateKeepsConsistent(db, a);
    var e := R.Create(db, a);
    R.InsertKeepsConsistent(e, a);
    hide R.Consistent;
    assert {} + {a.name} == {a.name};
    assert db.secondaries[a := {}][p := {a.name}] == map[p := {a.name}, a := {}];
  }

  lemma FirstOut(db: R.Db, p: Client, a: Client)
    requires Second(db, p, a) && R.SubName(a.name, p.name)
    ensures var w := Without(db, a.name);
            R.Wf(w) && R.Agree(w) && w.clients == map[p.name := p] && w.secondaries == map[p := {a.name}, a := {}]
  {
    var w := Without(db, a.name);
    assert R.Wf(db) && R.Agree(db);
    hide R.Consistent;
    assert db.clients - {a.name} == map[p.name := p];
    R.SubWf(db, w);
    hide R.Wf;
  }

  /** The first one is out of the maps, and the second one has come in under the name. */
  lemma ThirdIn(w: R.Db, p: Client, a: Client, b: Client)
    requires R.Wf(w) && R.Agree(w) && Cast(p, a, b)
    requires w.clients == map[p.name := p] && w.secondaries == map[p := {a.name}, a := {}]
    ensures b !in w.secondaries && !b.primary && b.primaryName == p.name && R.Wf(R.Create(w, b))
    ensures var d := R.Insert(R.Create(w, b), b);
            && R.Wf(d) && R.Agree(d) && d.clients == map[p.name := p, b.name := b]
            && p in d.secondaries && d.secondaries[p] == {a.name}
  {
    R.SubNameOf(b, p.name);
    R.CreateKeepsWf(w, b);
    var e := R.Create(w, b);
    R.InsertKeepsWf(e, b);
    R.InsertAgrees(e, b);
    hide R.Wf, R.Agree;
    assert {a.name} + {b.name} == {a.name};
  }

  /** And the end of the first drop has taken the name out of the `secondaries` of the primary: the second one is
      registered, its primary does not know of it, and a drop of the primary will leave it behind. */
  lemma FourthOut(d: R.Db, p: Client, a: Client, b: Client)
    requires R.Wf(d) && R.Agree(d) && Cast(p, a, b) && d.clients == map[p.name := p, b.name := b]
    requires p in d.secondaries && d.secondaries[p] == {a.name}
    ensures var e := d.(secondaries := d.secondaries[p := {}]);
            && R.Wf(e) && R.Agree(e) && R.Registered(e.clients, b) && b.primaryName == p.name && e.secondaries[p] == {}
            && !R.Consistent(e)
            && p.name !in R.Drop(e, p).clients && R.Registered(R.Drop(e, p).clients, b)
  {
    var e := d.(secondaries := d.secondaries[p := {}]);
    R.SubNameOf(b, p.name);
    assert b.name in R.SecondariesOf(e.clients, p.name);
    assert !R.Exact(e, p);
  }

  /** A run in which the end of a drop comes too late: its name has been registered again. At the end all threads are
      idle and the maps agree, and yet the new secondary is missing from its primary's `secondaries`. */
  lemma LateTakeOut(p: Client, a: Client, b: Client) returns (states: seq<State>, moves: seq<Move>)
    requires Cast(p, a, b)
    ensures IsRun(states, moves)
    ensures var s := states[|moves|];
            && (forall t :: t in s.pcs ==> s.pcs[t].Idle?)
            && R.Wf(s.sh.db) && R.Agree(s.sh.db) && R.Registered(s.sh.db.clients, p) && R.Registered(s.sh.db.clients, b)
            && p in s.sh.db.secondaries && s.sh.db.secondaries[p] == {} && b.primaryName == p.name
            && R.Registered(R.Drop(s.sh.db, p).clients, b) && p.name !in R.Drop(s.sh.db, p).clients
  {
    var s0 := A.Two(Shared(R.EMPTY, {}, {}), Idle, Idle);
    var final;
    moves, final := LatePlay(p, a, b);
    states := A.PlayStates(s0, moves);
  }

  lemma LatePlay(p: Client, a: Client, b: Client) returns (moves: seq<Move>, s5: State)
    requires Cast(p, a, b)
    ensures A.Leads(A.Two(Shared(R.EMPTY, {}, {}), Idle, Idle), moves, s5)
    ensures (forall t :: t in s5.pcs ==> s5.pcs[t].Idle?)
    ensures R.Wf(s5.sh.db) && R.Agree(s5.sh.db) && R.Registered(s5.sh.db.clients, p)
        && R.Registered(s5.sh.db.clients, b)
    ensures p in s5.sh.db.secondaries && s5.sh.db.secondaries[p] == {} && b.primaryName == p.name
    ensures R.Registered(R.Drop(s5.sh.db, p).clients, b) && p.name !in R.Drop(s5.sh.db, p).clients
  {
    hide A.Leads, R.Consistent, R.Wf, R.Agree, R.Drop, R.Insert, Second, Cast;
    var s0 := A.Two(Shared(R.EMPTY, {}, {}), Idle, Idle);
    var s2, s3, s4;
    moves, s2 := LateBegins(p, a, b);
    moves, s3 := GoOut(s0, moves, s2, p, a, b);
    moves, s4 := ComeIn(s0, moves, s3, p, a, b);
    FourthOut(s4.sh.db, p, a, b);
    moves, s5 := TakeOut(s0, moves, s4, p, a, b);
  }

  lemma GoOut(s0: State, moves: seq<Move>, s: State, p: Client, a: Client, b: Client) returns (more: seq<Move>,
      r: State)
    requires A.Leads(s0, moves, s) && Cast(p, a, b) && Second(s.sh.db, p, a) && a in s.sh.launched
    requires s.pcs == map[0 := Idle, 1 := Idle]
    ensures A.Leads(s0, more, r) && r.sh.db == Without(s.sh.db, a.name)
        && r.pcs == map[0 := Enter(ElseLookup(a, Top)), 1 := Idle]
    ensures R.Wf(r.sh.db) && R.Agree(r.sh.db)
    ensures r.sh.db.clients == map[p.name := p] && r.sh.db.secondaries == map[p := {a.name}, a := {}]
  {
    hide A.Leads, R.Consistent, R.Wf, R.Agree;
    R.SubNameOf(a, p.name);
    FirstOut(s.sh.db, p, a);
    var m := LeaveAlone(s, 0, a);
    r := Put(s, Shared(Without(s.sh.db, a.name), s.sh.launched, s.sh.retired + {a}), 0, Enter(ElseLookup(a, Top)));
    A.LeadsOn(s0, moves, s, m, r);
    more := moves + m;
  }

  lemma ComeIn(s0: State, moves: seq<Move>, s: State, p: Client, a: Client, b: Client) returns (more: seq<Move>,
      r: State)
    requires A.Leads(s0, moves, s) && Cast(p, a, b) && s.pcs == map[0 := Enter(ElseLookup(a, Top)), 1 := Idle]
    requires R.Wf(s.sh.db) && R.Agree(s.sh.db)
    requires s.sh.db.clients == map[p.name := p] && s.sh.db.secondaries == map[p := {a.name}, a := {}]
    ensures A.Leads(s0, more, r) && r.pcs == s.pcs && R.Wf(r.sh.db) && R.Agree(r.sh.db)
    ensures r.sh.db.clients == map[p.name := p, b.name := b] && p in r.sh.db.secondaries
        && r.sh.db.secondaries[p] == {a.name}
  {
    hide A.Leads, R.Wf, R.Agree, R.Insert;
    ThirdIn(s.sh.db, p, a, b);
    var m := RegisterAlone(s, 1, b);
    r := Put(s, Shared(R.Insert(R.Create(s.sh.db, b), b), s.sh.launched + {b}, s.sh.retired), 1, Idle);
    A.LeadsOn(s0, moves, s, m, r);
    more := moves + m;
  }

  lemma TakeOut(s0: State, moves: seq<Move>, s: State, p: Client, a: Client, b: Client) returns (more: seq<Move>,
      r: State)
    requires A.Leads(s0, moves, s) && Cast(p, a, b) && s.pcs == map[0 := Enter(ElseLookup(a, Top)), 1 := Idle]
    requires s.sh.db.clients == map[p.name := p, b.name := b] && p in s.sh.db.secondaries
        && s.sh.db.secondaries[p] == {a.name}
    ensures A.Leads(s0, more, r) && r.pcs == map[0 := Idle, 1 := Idle]
    ensures r.sh.db == s.sh.db.(secondaries := s.sh.db.secondaries[p := {}])
    ensures R.Registered(r.sh.db.clients, p)
  {
    hide A.Leads;
    R.SubNameOf(a, p.name);
    assert b.name != p.name && s.sh.db.clients[p.name] == p && {a.name} - {a.name} == {};
    var m := FinishAlone(s, 0, a);
    r := Put(s, SetSecondaries(s.sh, p, {}), 0, Idle);
    A.LeadsOn(s0, moves, s, m, r);
    more := moves + m;
  }

  lemma PrimaryIn(p: Client) returns (moves: seq<Move>, s1: State)
    requires R.Named(p) && p.primary
    ensures A.Leads(A.Two(Shared(R.EMPTY, {}, {}), Idle, Idle), moves, s1)
    ensures First(s1.sh.db, p) && R.Wf(s1.sh.db) && s1.pcs == map[0 := Idle, 1 := Idle]
  {
    var s0 := A.Two(Shared(R.EMPTY, {}, {}), Idle, Idle);
    assert R.Wf(R.EMPTY);
    FirstIn(p);
    var d := R.Insert(R.Create(R.EMPTY, p), p);
    assert R.Wf(d);
    hide R.Consistent, R.Wf, R.Insert, A.Leads;
    moves := RegisterAlone(s0, 0, p);
    s1 := Put(s0, Shared(d, {} + {p}, {}), 0, Idle);
  }

  lemma LateBegins(p: Client, a: Client, b: Client) returns (moves: seq<Move>, s2: State)
    requires Cast(p, a, b)
    ensures A.Leads(A.Two(Shared(R.EMPTY, {}, {}), Idle, Idle), moves, s2)
    ensures Second(s2.sh.db, p, a) && a in s2.sh.launched && s2.pcs == map[0 := Idle, 1 := Idle]
  {
    hide R.Consistent, R.Wf, R.Insert, A.Leads, Second;
    var s1;
    moves, s1 := PrimaryIn(p);
    SecondIn(s1.sh.db, p, a);
    var m := RegisterAlone(s1, 0, a);
    s2 := Put(s1, Shared(R.Insert(R.Create(s1.sh.db, a), a), s1.sh.launched + {a}, s1.sh.retired), 0, Idle);
    A.LeadsOn(A.Two(Shared(R.EMPTY, {}, {}), Idle, Idle), moves, s1, m, s2);
    moves := moves + m;
  }
}
