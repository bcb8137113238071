/** Delivery under concurrency: sessions fan frames out over bounded queues (the macros `send!`, `send_broadcast!`,
    `publish!`, `safe_send_frame!` and the acknowledgements of src/broker.rs), one queue operation at a time,
    interleaved with each other, with receivers, and with registrations and evictions that go through the three maps
    one by one. */
module Sessions {
  import opened Bytes

  type Cid = nat  // a client object
  type Sid = nat  // a session: a client handle or the reader task of a connection

  /** The `no`-th frame of a session. */
  datatype Frm = Frm(sid: Sid, no: nat)

  /** A client's queue: everything ever accepted, how much of it the receiver has taken, and whether it is closed. */
  datatype Chan = Chan(external: bool, cap: nat, accepted: seq<Frm>, taken: nat, closed: bool) {
    ghost predicate Full() { taken + cap <= |accepted| }
  }

  /** Where the loop body of a delivery stands. An eviction removes its client from the subscriptions, the broadcast
      names and the clients, and then closes its queue; `waiting` is the length the queue was seen to have. */
  datatype Cur =
    | Next
    | Sending(c: Cid)
    | FromSubs(c: Cid, waiting: nat)
    | FromNames(c: Cid, waiting: nat)
    | FromClients(c: Cid, waiting: nat)
    | Closing(c: Cid, waiting: nat)

  /** `direct`: an acknowledgement, sent without looking at the queue first. */
  datatype Phase = Idle | Busy(no: nat, direct: bool, todo: set<Cid>, cur: Cur) | Dead(no: nat)

  datatype Outcome = Delivered | WasClosed | Evicted(waiting: nat)

  /** How far the registration of a client object has come. */
  datatype Reg = Fresh | InNames | InBoth | Stored {
    /** The clients map is locked. */
    predicate UnderWay() { InNames? || InBoth? }
  }

  /** `names`, `subs` and `clients` are the three maps. `targets` and `outcomes` record, for each frame, the snapshot it
      was fanned out to and how each went. */
  datatype State = State(
    chans: map<Cid, Chan>,
    regs: map<Cid, Reg>,
    names: set<Cid>,
    subs: set<Cid>,
    clients: set<Cid>,
    phases: map<Sid, Phase>,
    counts: map<Sid, nat>,
    targets: map<Frm, set<Cid>>,
    outcomes: map<(Frm, Cid), Outcome>)

  datatype Step =
    | NewClient(c: Cid, external: bool, cap: nat)
    | AddName(c: Cid)
    | AddSubs(c: Cid)
    | Store(c: Cid)
    | NewSession(s: Sid)
    | Unregister(names: set<Cid>, subs: set<Cid>, clients: set<Cid>)
    | Begin(s: Sid, direct: bool, targets: set<Cid>)
    | Check(s: Sid, c: Cid)
    | Put(s: Sid)
    | GiveUp(s: Sid)
    | EvictSubs(s: Sid)
    | EvictName(s: Sid)
    | EvictClient(s: Sid)
    | EvictClose(s: Sid)
    | End(s: Sid)
    | Take(c: Cid)
    | CloseReceiver(c: Cid)

  ghost predicate At(st: State, s: Sid) {
    s in st.phases && st.phases[s].Busy?
  }

  /** A registration puts its object in the broadcast names first; from then on others can find it. */
  ghost predicate Seen(st: State, c: Cid) { c in st.regs && !st.regs[c].Fresh? }

  /** No registration holds the lock of the clients map. */
  ghost predicate Unlocked(st: State) { forall c :: c in st.regs ==> !st.regs[c].UnderWay() }

  ghost predicate Enabled(st: State, x: Step) {
    match x
    case NewClient(c, _, _) => c !in st.chans
    case AddName(c) => c in st.regs && st.regs[c].Fresh? && Unlocked(st)
    case AddSubs(c) => c in st.regs && st.regs[c].InNames?
    case Store(c) => c in st.regs && st.regs[c].InBoth?
    case NewSession(s) => s !in st.phases
    case Unregister(_, _, _) => true
    case Begin(s, _, ts) => s in st.phases && st.phases[s].Idle? && forall c :: c in ts ==> Seen(st, c)
    case Check(s, c) => At(st, s) && st.phases[s].cur.Next? && c in st.phases[s].todo && c in st.chans
    case Put(s) =>
      && At(st, s) && st.phases[s].cur.Sending? && st.phases[s].cur.c in st.chans
      && (st.chans[st.phases[s].cur.c].closed || !st.chans[st.phases[s].cur.c].Full())
    // the deadline of the wait has passed, or the session has ended, and with it its task: while it waits for room, or
    // for the announcement of an eviction
    case GiveUp(s) => At(st, s) && (st.phases[s].cur.Sending? || st.phases[s].cur.Closing?)
    case EvictSubs(s) => At(st, s) && st.phases[s].cur.FromSubs?
    case EvictName(s) => At(st, s) && st.phases[s].cur.FromNames?
    case EvictClient(s) => At(st, s) && st.phases[s].cur.FromClients? && Unlocked(st)
    case EvictClose(s) => At(st, s) && st.phases[s].cur.Closing? && st.phases[s].cur.c in st.chans
    case End(s) => At(st, s) && st.phases[s].cur.Next? && st.phases[s].todo == {}
    case Take(c) => c in st.chans && st.chans[c].taken < |st.chans[c].accepted|
    case CloseReceiver(c) => c in st.chans
  }

  ghost function Move(st: State, s: Sid, cur: Cur): State
    requires At(st, s)
  {
    st.(phases := st.phases[s := st.phases[s].(cur := cur)])
  }

  ghost function Settle(st: State, s: Sid, c: Cid, o: Outcome): State
    requires At(st, s)
  {
    Move(st, s, Next).(outcomes := st.outcomes[(Frm(s, st.phases[s].no), c) := o])
  }

  ghost function After(st: State, x: Step): State
    requires Enabled(st, x)
  {
    match x
    case NewClient(c, external, cap) =>
      st.(chans := st.chans[c := Chan(external, cap, [], 0, false)], regs := st.regs[c := Fresh])
    case AddName(c) => st.(regs := st.regs[c := InNames], names := st.names + {c})
    case AddSubs(c) => st.(regs := st.regs[c := InBoth], subs := st.subs + {c})
    case Store(c) => st.(regs := st.regs[c := Stored], clients := st.clients + {c})
    case NewSession(s) => st.(phases := st.phases[s := Idle], counts := st.counts[s := 0])
    case Unregister(ns, ss, cs) => st.(names := st.names - ns, subs := st.subs - ss, clients := st.clients - cs)
    case Begin(s, direct, ts) =>
      var no := if s in st.counts then st.counts[s] else 0;
      st.(phases := st.phases[s := Busy(no, direct, ts, Next)], counts := st.counts[s := no + 1],
          targets := st.targets[Frm(s, no) := ts])
    case Check(s, c) =>
      var p, ch := st.phases[s], st.chans[c];
      var cur := if p.direct then Sending(c)
                 else if ch.Full() && ch.external then FromSubs(c, |ch.accepted| - ch.taken)
                 else Sending(c);
      st.(phases := st.phases[s := p.(todo := p.todo - {c}, cur := cur)])
    case Put(s) =>
      var p := st.phases[s];
      var ch := st.chans[p.cur.c];
      if ch.closed then Settle(st, s, p.cur.c, WasClosed)
      else Settle(st, s, p.cur.c, Delivered)
           .(chans := st.chans[p.cur.c := ch.(accepted := ch.accepted + [Frm(s, p.no)])])
    case GiveUp(s) => st.(phases := st.phases[s := Dead(st.phases[s].no)])
    case EvictSubs(s) =>
      var cur := st.phases[s].cur;
      Move(st, s, FromNames(cur.c, cur.waiting)).(subs := st.subs - {cur.c})
    case EvictName(s) =>
      var cur := st.phases[s].cur;
      Move(st, s, FromClients(cur.c, cur.waiting)).(names := st.names - {cur.c})
    case EvictClient(s) =>
      var cur := st.phases[s].cur;
      Move(st, s, Closing(cur.c, cur.waiting)).(clients := st.clients - {cur.c})
    case EvictClose(s) =>
      var c := st.phases[s].cur.c;
      Settle(st, s, c, Evicted(st.phases[s].cur.waiting)).(chans := st.chans[c := st.chans[c].(closed := true)])
    case End(s) => st.(phases := st.phases[s := Idle])
    case Take(c) => st.(chans := st.chans[c := st.chans[c].(taken := st.chans[c].taken + 1)])
    case CloseReceiver(c) => st.(chans := st.chans[c := st.chans[c].(closed := true)])
  }

  ghost predicate IsRun(states: seq<State>, steps: seq<Step>) {
    && |states| == |steps| + 1 && states[0] == State(map[], map[], {}, {}, {}, map[], map[], map[], map[])
    && forall i :: 0 <= i < |steps| ==> Enabled(states[i], steps[i]) && states[i + 1] == After(states[i], steps[i])
  }

  // ----- the invariant

  /** The clients a session's current frame has yet to be settled with. */
  ghost function Open(p: Phase): set<Cid> {
    if !p.Busy? then {} else if p.cur.Next? then p.todo else p.todo + {p.cur.c}
  }

  ghost predicate Throwing(cur: Cur) { cur.FromSubs? || cur.FromNames? || cur.FromClients? || cur.Closing? }

  ghost predicate PhaseCounted(st: State, s: Sid)
    requires s in st.phases
  {
    var p := st.phases[s];
    s in st.counts && (!p.Idle? ==> p.no + 1 == st.counts[s] && Frm(s, p.no) in st.targets)
  }

  ghost predicate PhaseOpen(st: State, s: Sid)
    requires s in st.phases
  {
    var p := st.phases[s];
    p.Busy? && Frm(s, p.no) in st.targets ==>
      && Open(p) <= st.targets[Frm(s, p.no)]
      && (forall c :: c in Open(p) ==> (Frm(s, p.no), c) !in st.outcomes && Seen(st, c))
      && (!p.cur.Next? ==> p.cur.c !in p.todo)
  }

  ghost predicate PhaseThrows(st: State, s: Sid)
    requires s in st.phases
  {
    var p := st.phases[s];
    p.Busy? && Throwing(p.cur) ==>
      && p.cur.c in st.chans && st.chans[p.cur.c].external && st.chans[p.cur.c].cap <= p.cur.waiting
          && Seen(st, p.cur.c)
      && (p.cur.FromClients? || p.cur.Closing? ==> p.cur.c !in st.names)
      && (p.cur.Closing? ==> p.cur.c !in st.clients && st.regs[p.cur.c].Stored?)
  }

  ghost predicate PhaseOk(st: State, s: Sid)
    requires s in st.phases
  {
    PhaseCounted(st, s) && PhaseOpen(st, s) && PhaseThrows(st, s)
  }

  /** A frame that is over: every client of its snapshot is settled. */
  ghost predicate FrameOk(st: State, f: Frm)
    requires f in st.targets
  {
    && f.sid in st.phases && f.sid in st.counts && f.no < st.counts[f.sid] && st.targets[f] <= st.chans.Keys
    && var p := st.phases[f.sid];
       if p.Idle? || p.no != f.no then forall c :: c in st.targets[f] ==> (f, c) in st.outcomes
       else p.Busy? ==> forall c :: c in st.targets[f] && c !in Open(p) ==> (f, c) in st.outcomes
  }

  ghost predicate OutcomeOk(st: State, f: Frm, c: Cid)
    requires (f, c) in st.outcomes
  {
    && f in st.targets && c in st.targets[f] && c in st.chans
    && match st.outcomes[(f, c)]
       case Delivered => f in st.chans[c].accepted
       case WasClosed => st.chans[c].closed
       case Evicted(waiting) =>
         && st.chans[c].closed && st.chans[c].external && st.chans[c].cap <= waiting
         && c in st.regs && st.regs[c].Stored? && c !in st.names && c !in st.clients
  }

  /** Each accepted frame was delivered here, and the frames of one session stand in the order they were sent. */
  ghost predicate ChanOk(st: State, c: Cid)
    requires c in st.chans
  {
    var a := st.chans[c].accepted;
    && st.chans[c].taken <= |a|
    && (forall i :: 0 <= i < |a| ==> (a[i], c) in st.outcomes && st.outcomes[(a[i], c)].Delivered?)
    && (forall i, j :: 0 <= i < j < |a| && a[i].sid == a[j].sid ==> a[i].no < a[j].no)
  }

  ghost predicate Inv(st: State) {
    && st.regs.Keys == st.chans.Keys && st.counts.Keys == st.phases.Keys
    && (forall s {:trigger PhaseOk(st, s)} :: s in st.phases ==> PhaseOk(st, s))
    && (forall f {:trigger FrameOk(st, f)} :: f in st.targets ==> FrameOk(st, f))
    && (forall f, c {:trigger OutcomeOk(st, f, c)} :: (f, c) in st.outcomes ==> OutcomeOk(st, f, c))
    && (forall c {:trigger ChanOk(st, c)} :: c in st.chans ==> ChanOk(st, c))
  }

  // ----- preservation

  ghost function Rank(r: Reg): nat {
    match r case Fresh => 0 case InNames => 1 case InBoth => 2 case Stored => 3
  }

  /** What the steps have in common: what a client is does not change and its registration goes forward ... */
  ghost predicate ClientOnward(st: State, r: State, c: Cid) {
    && (c in st.chans ==>
          && c in r.chans && r.chans[c].external == st.chans[c].external && r.chans[c].cap == st.chans[c].cap
          && (st.chans[c].closed ==> r.chans[c].closed))
    && (c in st.regs && c in st.chans ==> c in r.regs && Rank(st.regs[c]) <= Rank(r.regs[c]))
  }

  /** ... it enters a map only by its own registration ... */
  ghost predicate MapsOnward(st: State, x: Step, r: State) {
    && (forall c :: c in r.names && c !in st.names ==> c in st.regs && st.regs[c].Fresh?)
    && (forall c :: c in r.clients && c !in st.clients ==> c in st.regs && st.regs[c].InBoth?)
    && (forall c :: c in r.subs && c !in st.subs ==> x == AddSubs(c))
  }

  /** ... and snapshots and outcomes are recorded once. */
  ghost predicate TargetOnward(st: State, x: Step, r: State, f: Frm) {
    f in st.targets && (x.Begin? ==> x.s in st.counts && f != Frm(x.s, st.counts[x.s])) ==>
      f in r.targets && r.targets[f] == st.targets[f]
  }

  ghost predicate OutcomeOnward(st: State, x: Step, r: State, k: (Frm, Cid)) {
    && (k in st.outcomes ==> k in r.outcomes)
    && (k in r.outcomes && k !in st.outcomes ==>
          (x.Put? || x.EvictClose?) && At(st, x.s) && k.0 == Frm(x.s, st.phases[x.s].no)
          && x.s in r.phases && r.phases[x.s] != st.phases[x.s])
  }

  lemma ChanGoesOn(st: State, x: Step, c: Cid)
    requires Enabled(st, x) && c in st.chans
    ensures var r := After(st, x);
            && c in r.chans && r.chans[c].external == st.chans[c].external && r.chans[c].cap == st.chans[c].cap
            && (st.chans[c].closed ==> r.chans[c].closed)
  {}

  lemma ClientGoesOn(st: State, x: Step, c: Cid)
    requires Enabled(st, x)
    ensures ClientOnward(st, After(st, x), c)
  {
    if c in st.chans {
      ChanGoesOn(st, x, c);
    }
  }

  lemma ClientsGoOn(st: State, x: Step)
    requires Enabled(st, x)
    ensures forall c :: ClientOnward(st, After(st, x), c)
  {
    hide After, Enabled, ClientOnward;
    forall c ensures ClientOnward(st, After(st, x), c) { ClientGoesOn(st, x, c); }
  }

  lemma MapsGoOn(st: State, x: Step)
    requires Enabled(st, x)
    ensures MapsOnward(st, x, After(st, x))
  {}

  lemma TargetGoesOn(st: State, x: Step, f: Frm)
    requires Enabled(st, x)
    ensures TargetOnward(st, x, After(st, x), f)
  {}

  lemma OutcomeGoesOn(st: State, x: Step, k: (Frm, Cid))
    requires Enabled(st, x)
    ensures OutcomeOnward(st, x, After(st, x), k)
  {}

  lemma RecordsGoOn(st: State, x: Step)
    requires Enabled(st, x)
    ensures forall f :: f in st.targets ==> TargetOnward(st, x, After(st, x), f)
    ensures forall k :: k in st.outcomes || k in After(st, x).outcomes ==> OutcomeOnward(st, x, After(st, x), k)
  {
    hide After, Enabled, TargetOnward, OutcomeOnward;
    var r := After(st, x);
    forall f | f in st.targets ensures TargetOnward(st, x, r, f) { TargetGoesOn(st, x, f); }
    forall k | k in st.outcomes || k in r.outcomes ensures OutcomeOnward(st, x, r, k) { OutcomeGoesOn(st, x, k); }
  }

  lemma KeysKept(st: State, x: Step)
    requires Inv(st) && Enabled(st, x)
    ensures After(st, x).regs.Keys == After(st, x).chans.Keys && After(st, x).counts.Keys == After(st, x).phases.Keys
  {
    hide ChanOk, OutcomeOk, FrameOk;
    if x.Begin? || x.Check? || x.Put? || x.GiveUp? || x.EvictSubs? || x.EvictName? || x.EvictClient?
        || x.EvictClose? || x.End? {
      assert PhaseOk(st, x.s);
    }
  }

  lemma PhaseKept(st: State, x: Step, s: Sid)
    requires Inv(st) && Enabled(st, x) && s in After(st, x).phases
    ensures PhaseOk(After(st, x), s)
  {
    hide ChanOk, OutcomeOk, FrameOk;
    if s in st.phases {
      assert PhaseOk(st, s);
    }
    if x.Begin? {
      FreshFrame(st, x.s);
    }
    hide Inv;
    CountedKept(st, x, s);
    OpenKept(st, x, s);
    ThrowsKept(st, x, s);
  }

  lemma CountedKept(st: State, x: Step, s: Sid)
    requires Enabled(st, x) && s in After(st, x).phases && (s in st.phases ==> PhaseCounted(st, s))
    ensures PhaseCounted(After(st, x), s)
  {
    assert After(st, x).targets.Keys >= st.targets.Keys;
  }

  lemma OpenKept(st: State, x: Step, s: Sid)
    requires Enabled(st, x) && s in After(st, x).phases && (s in st.phases ==> PhaseCounted(st, s) && PhaseOpen(st, s))
    requires x.Begin? ==> x.s in st.counts && Frm(x.s, st.counts[x.s]) !in st.targets
    requires x.Begin? ==> forall c :: (Frm(x.s, st.counts[x.s]), c) !in st.outcomes
    requires st.regs.Keys == st.chans.Keys
    ensures PhaseOpen(After(st, x), s)
  {
    if s in st.phases && After(st, x).phases[s] == st.phases[s] {
      OpenUnmoved(st, x, s);
    }
  }

  lemma OpenUnmoved(st: State, x: Step, s: Sid)
    requires Enabled(st, x) && s in st.phases && PhaseCounted(st, s) && PhaseOpen(st, s)
        && st.regs.Keys == st.chans.Keys
    requires s in After(st, x).phases && After(st, x).phases[s] == st.phases[s]
    requires x.Begin? ==> x.s in st.counts && Frm(x.s, st.counts[x.s]) !in st.targets
    ensures PhaseOpen(After(st, x), s)
  {
    hide After, Enabled;
    RecordsGoOn(st, x);
    ClientsGoOn(st, x);
    assert forall c :: c in st.chans ==> ClientOnward(st, After(st, x), c);
  }

  lemma ThrowsKept(st: State, x: Step, s: Sid)
    requires Enabled(st, x) && s in After(st, x).phases
    requires s in st.phases ==> PhaseCounted(st, s) && PhaseOpen(st, s) && PhaseThrows(st, s)
    requires st.regs.Keys == st.chans.Keys
    ensures PhaseThrows(After(st, x), s)
  {
    if s in st.phases && After(st, x).phases[s] == st.phases[s] {
      ThrowsUnmoved(st, x, s);
    }
  }

  lemma ThrowsUnmoved(st: State, x: Step, s: Sid)
    requires Enabled(st, x) && s in st.phases && PhaseThrows(st, s) && st.regs.Keys == st.chans.Keys
    requires s in After(st, x).phases && After(st, x).phases[s] == st.phases[s]
    ensures PhaseThrows(After(st, x), s)
  {
    hide After, Enabled;
    if st.phases[s].Busy? && Throwing(st.phases[s].cur) {
      ClientGoesOn(st, x, st.phases[s].cur.c);
    }
    MapsGoOn(st, x);
  }

  /** A frame number is used once. */
  lemma FreshFrame(st: State, s: Sid)
    requires Inv(st) && s in st.counts
    ensures Frm(s, st.counts[s]) !in st.targets
    ensures forall c :: (Frm(s, st.counts[s]), c) !in st.outcomes
  {
    hide ChanOk, PhaseOk;
    var f := Frm(s, st.counts[s]);
    assert f in st.targets ==> FrameOk(st, f);
    forall c ensures (f, c) !in st.outcomes {
      assert (f, c) in st.outcomes ==> OutcomeOk(st, f, c);
    }
  }

  lemma FrameKept(st: State, x: Step, f: Frm)
    requires Inv(st) && Enabled(st, x) && f in After(st, x).targets
    ensures FrameOk(After(st, x), f)
  {
    hide ChanOk, OutcomeOk;
    if f in st.targets {
      assert FrameOk(st, f);
      assert PhaseOk(st, f.sid);
    }
    if x.Begin? {
      assert PhaseOk(st, x.s);
      FreshFrame(st, x.s);
    }
    hide Inv;
    if f in st.targets {
      OldFrameKept(st, x, f);
    }
  }

  lemma OldFrameKept(st: State, x: Step, f: Frm)
    requires Enabled(st, x) && f in st.targets && FrameOk(st, f) && PhaseCounted(st, f.sid) && PhaseOpen(st, f.sid)
    requires x.Begin? ==> x.s in st.counts && Frm(x.s, st.counts[x.s]) !in st.targets
    ensures f in After(st, x).targets && FrameOk(After(st, x), f)
  {
    if f.sid in After(st, x).phases && After(st, x).phases[f.sid] == st.phases[f.sid] {
      QuietFrameKept(st, x, f);
    }
  }

  lemma QuietFrameKept(st: State, x: Step, f: Frm)
    requires Enabled(st, x) && f in st.targets && FrameOk(st, f)
    requires x.Begin? ==> x.s in st.counts && Frm(x.s, st.counts[x.s]) !in st.targets
    requires f.sid in After(st, x).phases && After(st, x).phases[f.sid] == st.phases[f.sid]
    requires f.sid in After(st, x).counts && st.counts[f.sid] <= After(st, x).counts[f.sid]
    ensures f in After(st, x).targets && FrameOk(After(st, x), f)
  {
    hide After, Enabled;
    RecordsGoOn(st, x);
    ClientsGoOn(st, x);
    assert forall c :: c in st.chans ==> ClientOnward(st, After(st, x), c);
  }

  lemma OutcomeKept(st: State, x: Step, f: Frm, c: Cid)
    requires Inv(st) && Enabled(st, x) && (f, c) in After(st, x).outcomes
    ensures OutcomeOk(After(st, x), f, c)
  {
    hide ChanOk, FrameOk;
    if x.Put? || x.EvictClose? {
      assert PhaseOk(st, x.s);
    }
    if x.Begin? {
      FreshFrame(st, x.s);
    }
    if (f, c) in st.outcomes {
      assert OutcomeOk(st, f, c);
      assert st.regs.Keys == st.chans.Keys;
      hide Inv;
      OldOutcomeKept(st, x, f, c);
    }
  }

  lemma OldOutcomeKept(st: State, x: Step, f: Frm, c: Cid)
    requires Enabled(st, x) && (f, c) in st.outcomes && OutcomeOk(st, f, c) && st.regs.Keys == st.chans.Keys
    requires x.Put? || x.EvictClose? ==> PhaseCounted(st, x.s) && PhaseOpen(st, x.s)
    requires x.Begin? ==> x.s in st.counts && Frm(x.s, st.counts[x.s]) !in st.targets
    ensures (f, c) in After(st, x).outcomes && OutcomeOk(After(st, x), f, c)
  {
    OutcomeUnchanged(st, x, f, c);
  }

  lemma OutcomeUnchanged(st: State, x: Step, f: Frm, c: Cid)
    requires Enabled(st, x) && (f, c) in st.outcomes
    requires x.Put? || x.EvictClose? ==> PhaseCounted(st, x.s) && PhaseOpen(st, x.s)
    ensures (f, c) in After(st, x).outcomes && After(st, x).outcomes[(f, c)] == st.outcomes[(f, c)]
  {}

  lemma ChanKept(st: State, x: Step, c: Cid)
    requires Inv(st) && Enabled(st, x) && c in After(st, x).chans
    ensures ChanOk(After(st, x), c)
  {
    hide OutcomeOk, FrameOk;
    if x.Put? {
      PutChan(st, x.s, c);
    } else if c in st.chans {
      assert ChanOk(st, c);
      if x.EvictClose? {
        assert PhaseOk(st, x.s);
      }
      hide Inv;
      QuietChan(st, x, c);
    }
  }

  lemma QuietChan(st: State, x: Step, c: Cid)
    requires Enabled(st, x) && !x.Put? && c in st.chans && ChanOk(st, c)
    requires x.EvictClose? ==> PhaseCounted(st, x.s) && PhaseOpen(st, x.s)
    requires x.NewClient? ==> x.c != c
    ensures c in After(st, x).chans && ChanOk(After(st, x), c)
  {}

  lemma PutChan(st: State, s: Sid, c: Cid)
    requires Inv(st) && Enabled(st, Put(s)) && c in st.chans
    ensures ChanOk(After(st, Put(s)), c)
  {
    hide OutcomeOk, FrameOk;
    var p, r := st.phases[s], After(st, Put(s));
    var f, a := Frm(s, p.no), st.chans[c].accepted;
    assert PhaseOk(st, s) && ChanOk(st, c);
    assert p.cur.c in Open(p);
    assert forall i :: 0 <= i < |a| ==> (a[i], c) in r.outcomes && r.outcomes[(a[i], c)].Delivered?;
    EarlierNumbers(st, s, p.cur.c);
    var b := r.chans[c].accepted;
    if c == p.cur.c && !st.chans[c].closed {
      assert b == a + [f] && r.outcomes[(f, c)].Delivered?;
    } else {
      assert b == a;
    }
  }

  /** What a session already put on a queue came before the frame it is putting there now. */
  lemma EarlierNumbers(st: State, s: Sid, c: Cid)
    requires Inv(st) && At(st, s) && c in st.chans && (Frm(s, st.phases[s].no), c) !in st.outcomes
    ensures var a := st.chans[c].accepted;
            forall i :: 0 <= i < |a| && a[i].sid == s ==> a[i].no < st.phases[s].no
  {
    var a := st.chans[c].accepted;
    assert PhaseOk(st, s) && ChanOk(st, c);
    forall i | 0 <= i < |a| && a[i].sid == s ensures a[i].no < st.phases[s].no {
      assert OutcomeOk(st, a[i], c);
      assert FrameOk(st, a[i]);
      assert a[i] == Frm(s, a[i].no);
    }
  }

  lemma StepKeepsInv(st: State, x: Step)
    requires Inv(st) && Enabled(st, x)
    ensures Inv(After(st, x))
  {
    hide ChanOk, OutcomeOk, FrameOk, PhaseOk;
    var r := After(st, x);
    KeysKept(st, x);
    forall s | s in r.phases ensures PhaseOk(r, s) { PhaseKept(st, x, s); }
    forall f | f in r.targets ensures FrameOk(r, f) { FrameKept(st, x, f); }
    forall f, c | (f, c) in r.outcomes ensures OutcomeOk(r, f, c) { OutcomeKept(st, x, f, c); }
    forall c | c in r.chans ensures ChanOk(r, c) { ChanKept(st, x, c); }
  }

  lemma {:induction false} RunKeepsInv(states: seq<State>, steps: seq<Step>, i: nat)
    requires IsRun(states, steps) && i < |states|
    ensures Inv(states[i])
  {
    if i > 0 {
      RunKeepsInv(states, steps, i - 1);
      assert Enabled(states[i - 1], steps[i - 1]);
      StepKeepsInv(states[i - 1], steps[i - 1]);
    }
  }

  // ----- what a fan-out leaves behind, and in which order

  ghost function Copies(a: seq<Frm>, f: Frm): nat {
    multiset(a)[f]
  }

  lemma {:induction false} AtMostOneCopy(a: seq<Frm>, f: Frm)
    requires forall i, j :: 0 <= i < j < |a| && a[i].sid == a[j].sid ==> a[i].no < a[j].no
    ensures Copies(a, f) == if f in a then 1 else 0
  {
    if a != [] {
      var k := |a| - 1;
      AtMostOneCopy(a[..k], f);
      assert a == a[..k] + [a[k]];
    }
  }

  /** The frame of a session is over: the session has moved on, and its task was not given up. */
  ghost predicate Over(st: State, f: Frm) {
    f in st.targets && f.sid in st.phases && (st.phases[f.sid].Idle? || st.phases[f.sid].no != f.no)
  }

  /** In every run, once a fan-out is over each client of its snapshot has exactly one copy; or none, because its
      queue was closed; or none, because it was an external client whose queue was seen full - and then it is out of
      the clients and the broadcast names, and its queue is closed. */
  lemma FanOutOutcome(states: seq<State>, steps: seq<Step>, i: nat, f: Frm, c: Cid)
    requires IsRun(states, steps) && i < |states| && Over(states[i], f) && c in states[i].targets[f]
    ensures var st := states[i];
            && (f, c) in st.outcomes && c in st.chans
            && var ch := st.chans[c];
               match st.outcomes[(f, c)]
               case Delivered => Copies(ch.accepted, f) == 1
               case WasClosed => Copies(ch.accepted, f) == 0 && ch.closed
               case Evicted(waiting) =>
                 && Copies(ch.accepted, f) == 0 && ch.external && ch.cap <= waiting
                 && ch.closed && c !in st.clients && c !in st.names
  {
    var st := states[i];
    RunKeepsInv(states, steps, i);
    assert FrameOk(st, f) && OutcomeOk(st, f, c) && ChanOk(st, c);
    var a := st.chans[c].accepted;
    AtMostOneCopy(a, f);
    if f in a {
      var j :| 0 <= j < |a| && a[j] == f;
      assert (a[j], c) in st.outcomes;
    }
  }

  /** How a look at the queue of `c` goes on for frame `no` of the session: the client is being thrown out, or is sent
      to, as decided; or it is settled that way; or the task has been given up. */
  ghost predicate Course(st: State, s: Sid, no: nat, c: Cid, evict: bool) {
    && s in st.phases
    && var p, key := st.phases[s], (Frm(s, no), c);
       || (p.Busy? && p.no == no && !p.cur.Next? && p.cur.c == c && if evict then Throwing(p.cur) else p.cur.Sending?)
       || (key in st.outcomes && (st.outcomes[key].Evicted? <==> evict))
       || p == Dead(no)
  }

  lemma CourseKept(st: State, x: Step, s: Sid, no: nat, c: Cid, evict: bool)
    requires Inv(st) && Enabled(st, x) && Course(st, s, no, c, evict)
    ensures Course(After(st, x), s, no, c, evict)
  {
    if (Frm(s, no), c) in st.outcomes {
      hide After, Enabled;
      CourseSettled(st, x, s, no, c, evict);
    } else {
      CourseOpen(st, x, s, no, c, evict);
    }
  }

  lemma CourseSettled(st: State, x: Step, s: Sid, no: nat, c: Cid, evict: bool)
    requires Inv(st) && Enabled(st, x) && Course(st, s, no, c, evict) && (Frm(s, no), c) in st.outcomes
    ensures Course(After(st, x), s, no, c, evict)
  {
    OutcomeStays(st, x, Frm(s, no), c);
    assert PhaseOk(st, s);
    hide Inv, FrameOk, ChanOk, OutcomeOk, PhaseThrows, Unlocked;
  }

  lemma CourseOpen(st: State, x: Step, s: Sid, no: nat, c: Cid, evict: bool)
    requires Enabled(st, x) && Course(st, s, no, c, evict) && (Frm(s, no), c) !in st.outcomes
    ensures Course(After(st, x), s, no, c, evict)
  {
    hide Unlocked;
  }

  /** In every run: a client is thrown out exactly when the look at its queue found it external and full and the frame
      is not an acknowledgement; whatever happens in between, the one thing that can stop it is that the task is given
      up. */
  lemma {:induction false} FullIsEvicted(states: seq<State>, steps: seq<Step>, i: nat, j: nat)
    requires IsRun(states, steps) && i < j < |states| && steps[i].Check?
    ensures var st, s, c := states[i], steps[i].s, steps[i].c;
            && s in st.phases && st.phases[s].Busy? && c in st.chans
            && var evict := !st.phases[s].direct && st.chans[c].external
                            && |st.chans[c].accepted| - st.chans[c].taken >= st.chans[c].cap;
               Course(states[j], s, st.phases[s].no, c, evict)
    decreases j
  {
    assert Enabled(states[i], steps[i]);
    if j > i + 1 {
      var st, s, c := states[i], steps[i].s, steps[i].c;
      FullIsEvicted(states, steps, i, j - 1);
      RunKeepsInv(states, steps, j - 1);
      assert Enabled(states[j - 1], steps[j - 1]);
      CourseKept(states[j - 1], steps[j - 1], s, st.phases[s].no, c,
                 !st.phases[s].direct && st.chans[c].external
                 && |st.chans[c].accepted| - st.chans[c].taken >= st.chans[c].cap);
    }
  }

  /** What has reached a client's socket. */
  ghost function Socket(ch: Chan): seq<Frm>
    requires ch.taken <= |ch.accepted|
  {
    ch.accepted[..ch.taken]
  }

  /** In every run the frames of one session reach a client's socket in the order they were sent, none twice, and only
      frames the session fanned out to that client; if the client's queue is open and drained and the session idle, all
      of them have. */
  lemma SessionOrder(states: seq<State>, steps: seq<Step>, i: nat, s: Sid, c: Cid)
    requires IsRun(states, steps) && i < |states| && c in states[i].chans && s in states[i].phases
    ensures states[i].chans[c].taken <= |states[i].chans[c].accepted|
    ensures var st := states[i];
            var out := Socket(st.chans[c]);
            && (forall j, k :: 0 <= j < k < |out| && out[j].sid == out[k].sid ==> out[j].no < out[k].no)
            && (forall j :: 0 <= j < |out| ==> out[j] in st.targets && c in st.targets[out[j]])
            && (!st.chans[c].closed && st.chans[c].taken == |st.chans[c].accepted| && st.phases[s].Idle? ==>
                  forall f :: f in st.targets && f.sid == s && c in st.targets[f] ==> f in out)
  {
    var st := states[i];
    RunKeepsInv(states, steps, i);
    assert ChanOk(st, c);
    var a, out := st.chans[c].accepted, Socket(st.chans[c]);
    forall j | 0 <= j < |out| ensures out[j] in st.targets && c in st.targets[out[j]] {
      assert OutcomeOk(st, a[j], c);
    }
    if !st.chans[c].closed && st.chans[c].taken == |a| && st.phases[s].Idle? {
      assert out == a;
      forall f | f in st.targets && f.sid == s && c in st.targets[f] ensures f in out {
        assert FrameOk(st, f);
        assert OutcomeOk(st, f, c);
      }
    }
  }

  lemma QueueStep(st: State, x: Step, c: Cid)
    requires Enabled(st, x) && c in st.chans
    ensures c in After(st, x).chans
    ensures var a, b := st.chans[c], After(st, x).chans[c];
            && b.external == a.external && b.cap == a.cap && a.accepted <= b.accepted && a.taken <= b.taken
            && (|a.accepted| <= a.taken + a.cap ==> |b.accepted| <= b.taken + b.cap)
            && (a.closed ==> b.closed && b.accepted == a.accepted)
  {
    hide Unlocked;
  }

  lemma {:induction false} QueueBounded(states: seq<State>, steps: seq<Step>, i: nat, c: Cid)
    requires IsRun(states, steps) && i < |states| && c in states[i].chans
    ensures |states[i].chans[c].accepted| <= states[i].chans[c].taken + states[i].chans[c].cap
  {
    if i > 0 {
      assert Enabled(states[i - 1], steps[i - 1]);
      if c in states[i - 1].chans {
        hide After, Enabled;
        QueueBounded(states, steps, i - 1, c);
        QueueStep(states[i - 1], steps[i - 1], c);
      } else {
        OnlyNewClient(states[i - 1], steps[i - 1], c);
      }
    }
  }

  lemma OnlyNewClient(st: State, x: Step, c: Cid)
    requires Enabled(st, x) && c !in st.chans && c in After(st, x).chans
    ensures After(st, x).chans[c].accepted == []
  {
    hide Unlocked;
  }

  /** In every run a queue never holds more than its capacity, frames are only ever added at its end and taken from its
      front, and once it is closed nothing is added. */
  lemma {:induction false} QueueKept(states: seq<State>, steps: seq<Step>, i: nat, j: nat, c: Cid)
    requires IsRun(states, steps) && i <= j < |states| && c in states[i].chans
    ensures c in states[j].chans
    ensures var a, b := states[i].chans[c], states[j].chans[c];
            && b.external == a.external && b.cap == a.cap && a.accepted <= b.accepted && a.taken <= b.taken
            && |b.accepted| - b.taken <= b.cap
            && (a.closed ==> b.closed && b.accepted == a.accepted)
    decreases j
  {
    hide After, Enabled;
    if i < j {
      QueueKept(states, steps, i, j - 1, c);
      assert Enabled(states[j - 1], steps[j - 1]);
      QueueStep(states[j - 1], steps[j - 1], c);
    }
    QueueBounded(states, steps, j, c);
  }

  /** An evicted client stays out of the clients and the broadcast names for the rest of the run. */
  lemma {:induction false} EvictedForGood(states: seq<State>, steps: seq<Step>, i: nat, j: nat, f: Frm, c: Cid)
    requires IsRun(states, steps) && i <= j < |states|
    requires (f, c) in states[i].outcomes && states[i].outcomes[(f, c)].Evicted?
    ensures (f, c) in states[j].outcomes && states[j].outcomes[(f, c)] == states[i].outcomes[(f, c)]
    ensures c !in states[j].clients && c !in states[j].names
    decreases j
  {
    hide FrameOk, ChanOk, PhaseOk;
    RunKeepsInv(states, steps, j);
    assert (f, c) in states[j].outcomes ==> OutcomeOk(states[j], f, c);
    if i < j {
      EvictedForGood(states, steps, i, j - 1, f, c);
      assert Enabled(states[j - 1], steps[j - 1]);
      RunKeepsInv(states, steps, j - 1);
      OutcomeStays(states[j - 1], steps[j - 1], f, c);
    }
  }

  /** How a delivery went is settled once. */
  lemma OutcomeStays(st: State, x: Step, f: Frm, c: Cid)
    requires Inv(st) && Enabled(st, x) && (f, c) in st.outcomes
    ensures (f, c) in After(st, x).outcomes && After(st, x).outcomes[(f, c)] == st.outcomes[(f, c)]
  {
    hide FrameOk, ChanOk, OutcomeOk;
    if x.Put? || x.EvictClose? {
      assert PhaseOk(st, x.s);
    }
    OutcomeUnchanged(st, x, f, c);
  }

  /** From the subscriptions it is out as well - unless its own registration had not come to them yet when the eviction
      began, and put it in afterwards. */
  lemma {:induction false} SubscribedAfterEviction(states: seq<State>, steps: seq<Step>, k: nat, j: nat, c: Cid)
    requires IsRun(states, steps) && k < j < |states|
    requires steps[k].EvictSubs? && states[k].phases[steps[k].s].cur.c == c && c in states[j].subs
    ensures Seen(states[k], c) && states[k].regs[c].InNames?
    ensures exists t :: k < t < j && steps[t] == AddSubs(c)
    decreases j
  {
    hide Inv, After, Enabled;
    var st, x := states[j - 1], steps[j - 1];
    assert Enabled(st, x) && states[j] == After(st, x) && Enabled(states[k], steps[k]);
    RunKeepsInv(states, steps, k);
    EvictedSeen(states[k], steps[k].s);
    EvictedFromSubs(states[k], steps[k].s);
    SubsOnly(st, x, c);
    if x == AddSubs(c) {
      RegBefore(states, steps, k, j - 1, c);
      AddsFrom(st, c);
    } else {
      SubscribedAfterEviction(states, steps, k, j - 1, c);
    }
  }

  lemma EvictedSeen(st: State, s: Sid)
    requires Inv(st) && Enabled(st, EvictSubs(s))
    ensures Seen(st, st.phases[s].cur.c)
  {
    hide FrameOk, ChanOk, OutcomeOk;
    assert PhaseOk(st, s);
  }

  lemma EvictedFromSubs(st: State, s: Sid)
    requires Enabled(st, EvictSubs(s))
    ensures st.phases[s].cur.c !in After(st, EvictSubs(s)).subs
  {}

  lemma SubsOnly(st: State, x: Step, c: Cid)
    requires Enabled(st, x) && c in After(st, x).subs
    ensures c in st.subs || x == AddSubs(c)
  {
    hide After, Enabled;
    MapsGoOn(st, x);
  }

  lemma AddsFrom(st: State, c: Cid)
    requires Enabled(st, AddSubs(c))
    ensures c in st.regs && st.regs[c].InNames?
  {}

  /** A registration only goes forward. */
  lemma {:induction false} RegBefore(states: seq<State>, steps: seq<Step>, k: nat, j: nat, c: Cid)
    requires IsRun(states, steps) && k <= j < |states| && c in states[k].regs
    ensures c in states[j].regs && Rank(states[k].regs[c]) <= Rank(states[j].regs[c])
    decreases j
  {
    hide FrameOk, ChanOk, OutcomeOk, PhaseOk, After, Enabled, Rank;
    if k < j {
      RegBefore(states, steps, k, j - 1, c);
      RunKeepsInv(states, steps, j - 1);
      assert Enabled(states[j - 1], steps[j - 1]) && states[j] == After(states[j - 1], steps[j - 1]);
      ClientGoesOn(states[j - 1], steps[j - 1], c);
    }
  }
}
