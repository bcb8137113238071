/** The traffic counters of src/broker.rs: one set per client and one for the broker, each a 64-bit atomic that wraps.
    Every single `fetch_add` is a step of its own, so tasks interleave between any two of them. */
module Counters {

  const WORD: nat := 0x1_0000_0000_0000_0000

  datatype Meter = RFrames | RBytes | WFrames | WBytes

  datatype Meters = Meters(rFrames: int, rBytes: int, wFrames: int, wBytes: int) {
    ghost function At(m: Meter): int {
      match m case RFrames => rFrames case RBytes => rBytes case WFrames => wFrames case WBytes => wBytes
    }
    ghost function With(m: Meter, v: int): (r: Meters)
      ensures forall k: Meter :: r.At(k) == if k == m then v else At(k)
    {
      match m
      case RFrames => this.(rFrames := v)
      case RBytes => this.(rBytes := v)
      case WFrames => this.(wFrames := v)
      case WBytes => this.(wBytes := v)
    }
  }

  /** What a task has still to do. `Find` looks a target up, `Snapshot` collects subscribers, `Wait` hands the frame
      to a queue - the only place where a task can be given up. Clients are numbered in the order of their creation.
      */
  datatype Op =
    | AddDb(m: Meter, n: nat)
    | AddClient(c: nat, m: Meter, n: nat)
    | Find(len: nat)
    | Snapshot(len: nat)
    | Wait

  /** `clients`: every client ever created. */
  datatype State = State(db: Meters, clients: seq<Meters>, tasks: seq<seq<Op>>)

  datatype Request = Message | FanOut | Subscription
  datatype Target = NotRegistered | Registered(c: nat)

  /** Why a task is given up while it waits: its deadline has passed, or its session has ended - the connection was
      lost or shut down, or the caller gave up - and the task is dropped as it stands. */
  datatype Reason = Deadline | Ended

  datatype Step =
    | NewClient
    | NewTask
    | Receive(t: nat, c: nat, req: Request, len: nat)
    | Acknowledge(t: nat, c: nat)
    | Run(t: nat)
    | Found(t: nat, target: Target)
    | Collected(t: nat, subs: seq<nat>)
    | GiveUp(t: nat, reason: Reason)

  const Zero := Meters(0, 0, 0, 0)

  // ----- the programs of the tasks

  ghost function ReceiveOps(c: nat, req: Request, len: nat): seq<Op> {
    [AddClient(c, RFrames, 1), AddClient(c, RBytes, len), AddDb(RFrames, 1), AddDb(RBytes, len)]
    + (match req case Message => [Find(len)] case FanOut => [Snapshot(len)] case Subscription => [])
  }

  ghost function SendOps(c: nat, len: nat): seq<Op> {
    [AddClient(c, WFrames, 1), AddClient(c, WBytes, len), AddDb(WFrames, 1), AddDb(WBytes, len), Wait]
  }

  ghost function LoopOps(subs: seq<nat>, len: nat): seq<Op> {
    if subs == [] then []
    else [AddClient(subs[0], WFrames, 1), AddClient(subs[0], WBytes, len), Wait] + LoopOps(subs[1..], len)
  }

  ghost function FanOutOps(subs: seq<nat>, len: nat): seq<Op> {
    if subs == [] then [] else [AddDb(WFrames, |subs|), AddDb(WBytes, len * |subs|)] + LoopOps(subs, len)
  }

  const AckLength := 6

  // ----- steps

  ghost predicate Ready(st: State, t: nat) { t < |st.tasks| && st.tasks[t] == [] }

  ghost predicate Head(st: State, t: nat) { t < |st.tasks| && st.tasks[t] != [] }

  ghost predicate Enabled(st: State, x: Step) {
    match x
    case NewClient => true
    case NewTask => true
    case Receive(t, c, _, _) => Ready(st, t) && c < |st.clients|
    case Acknowledge(t, c) => Ready(st, t) && c < |st.clients|
    case Run(t) =>
      && Head(st, t) && !st.tasks[t][0].Find? && !st.tasks[t][0].Snapshot?
      && (st.tasks[t][0].AddClient? ==> st.tasks[t][0].c < |st.clients|)
    case Found(t, target) =>
      Head(st, t) && st.tasks[t][0].Find? && (target.Registered? ==> target.c < |st.clients|)
    case Collected(t, subs) =>
      Head(st, t) && st.tasks[t][0].Snapshot? && forall i :: 0 <= i < |subs| ==> subs[i] < |st.clients|
    case GiveUp(t, _) => Head(st, t) && st.tasks[t][0].Wait?
  }

  ghost function Wrap(v: int): int { v % WORD }

  /** A 64-bit `fetch_add`. */
  ghost function Bump(x: Meters, m: Meter, n: nat): Meters { x.With(m, Wrap(x.At(m) + n)) }

  ghost function After(st: State, x: Step): State
    requires Enabled(st, x)
  {
    match x
    case NewClient => st.(clients := st.clients + [Zero])
    case NewTask => st.(tasks := st.tasks + [[]])
    case Receive(t, c, req, len) => st.(tasks := st.tasks[t := ReceiveOps(c, req, len)])
    case Acknowledge(t, c) => st.(tasks := st.tasks[t := SendOps(c, AckLength)])
    case Run(t) =>
      var r := st.(tasks := st.tasks[t := st.tasks[t][1..]]);
      match st.tasks[t][0] {
        case AddDb(m, n) => r.(db := Bump(st.db, m, n))
        case AddClient(c, m, n) => r.(clients := st.clients[c := Bump(st.clients[c], m, n)])
        case _ => r
      }
    case Found(t, target) =>
      st.(tasks := st.tasks[t := if target.Registered? then SendOps(target.c, st.tasks[t][0].len) else []])
    case Collected(t, subs) => st.(tasks := st.tasks[t := FanOutOps(subs, st.tasks[t][0].len)])
    case GiveUp(t, _) => st.(tasks := st.tasks[t := []])
  }

  ghost predicate IsRun(states: seq<State>, steps: seq<Step>) {
    && |states| == |steps| + 1 && states[0] == State(Zero, [], [])
    && forall i :: 0 <= i < |steps| ==> Enabled(states[i], steps[i]) && states[i + 1] == After(states[i], steps[i])
  }

  // ----- sums

  /** What a task will still credit to clients, less what it will still credit to the broker. */
  ghost function OwedBy(op: Op, m: Meter): int {
    if op.AddClient? && op.m == m then op.n else if op.AddDb? && op.m == m then 0 - op.n else 0
  }

  ghost function Owed(p: seq<Op>, m: Meter): int {
    if p == [] then 0 else OwedBy(p[0], m) + Owed(p[1..], m)
  }

  ghost function Total(cs: seq<Meters>, m: Meter): int {
    if cs == [] then 0 else cs[0].At(m) + Total(cs[1..], m)
  }

  ghost function Debt(tasks: seq<seq<Op>>, m: Meter): int {
    if tasks == [] then 0 else Owed(tasks[0], m) + Debt(tasks[1..], m)
  }

  lemma {:induction false} TotalUpdate(cs: seq<Meters>, c: nat, x: Meters, m: Meter)
    requires c < |cs|
    ensures Total(cs[c := x], m) == Total(cs, m) - cs[c].At(m) + x.At(m)
  {
    if c == 0 {
      assert cs[c := x][1..] == cs[1..];
    } else {
      TotalUpdate(cs[1..], c - 1, x, m);
      assert cs[c := x][1..] == cs[1..][c - 1 := x];
    }
  }

  lemma {:induction false} TotalAppend(cs: seq<Meters>, m: Meter)
    ensures Total(cs + [Zero], m) == Total(cs, m)
  {
    if cs != [] {
      TotalAppend(cs[1..], m);
      assert (cs + [Zero])[1..] == cs[1..] + [Zero];
    }
  }

  lemma {:induction false} DebtUpdate(ts: seq<seq<Op>>, t: nat, p: seq<Op>, m: Meter)
    requires t < |ts|
    ensures Debt(ts[t := p], m) == Debt(ts, m) - Owed(ts[t], m) + Owed(p, m)
  {
    if t == 0 {
      assert ts[t := p][1..] == ts[1..];
    } else {
      DebtUpdate(ts[1..], t - 1, p, m);
      assert ts[t := p][1..] == ts[1..][t - 1 := p];
    }
  }

  lemma {:induction false} DebtAppend(ts: seq<seq<Op>>, m: Meter)
    ensures Debt(ts + [[]], m) == Debt(ts, m)
  {
    if ts != [] {
      DebtAppend(ts[1..], m);
      assert (ts + [[]])[1..] == ts[1..] + [[]];
    }
  }

  lemma {:induction false} DebtOfNone(ts: seq<seq<Op>>, m: Meter)
    requires forall t :: 0 <= t < |ts| ==> ts[t] == []
    ensures Debt(ts, m) == 0
  {
    if ts != [] {
      assert ts[0] == [];
      DebtOfNone(ts[1..], m);
    }
  }

  lemma OwedTwo(p: seq<Op>, m: Meter)
    requires |p| >= 2
    ensures Owed(p, m) == OwedBy(p[0], m) + OwedBy(p[1], m) + Owed(p[2..], m)
  {}

  // ----- every program is balanced

  ghost function Share(m: Meter, len: nat): nat {
    if m == WFrames then 1 else if m == WBytes then len else 0
  }

  /** A fan-out loop owes one frame, and `len` bytes, for each subscriber it has not come to. */
  lemma {:induction false} LoopOwes(subs: seq<nat>, len: nat, m: Meter)
    ensures Owed(LoopOps(subs, len), m) == Share(m, len) * |subs|
  {
    if subs != [] {
      var rest := LoopOps(subs[1..], len);
      LoopOwes(subs[1..], len, m);
      var p := LoopOps(subs, len);
      OwedTwo(p, m);
      assert p[2..][1..] == rest;
      assert Share(m, len) * |subs| == Share(m, len) + Share(m, len) * |subs[1..]|;
    }
  }

  lemma FanOutBalanced(subs: seq<nat>, len: nat, m: Meter)
    ensures Owed(FanOutOps(subs, len), m) == 0
  {
    var p := FanOutOps(subs, len);
    if subs != [] {
      LoopOwes(subs, len, m);
      OwedTwo(p, m);
      assert p[2..] == LoopOps(subs, len);
    }
  }

  lemma SendBalanced(c: nat, len: nat, m: Meter)
    ensures Owed(SendOps(c, len), m) == 0
  {
    var p := SendOps(c, len);
    OwedTwo(p, m);
    OwedTwo(p[2..], m);
    assert p[2..][2..] == [Wait] && [Wait][1..] == [];
  }

  lemma ReceiveBalanced(c: nat, req: Request, len: nat, m: Meter)
    ensures Owed(ReceiveOps(c, req, len), m) == 0
  {
    var p := ReceiveOps(c, req, len);
    var rest := p[4..];
    OwedTwo(p, m);
    OwedTwo(p[2..], m);
    assert p[2..][2..] == rest;
    assert rest != [] ==> rest[1..] == [];
  }

  // ----- what giving a task up can lose

  /** How many subscribers a task that waits has not come to: each of them is still to be waited for. */
  ghost function Unreached(p: seq<Op>): nat {
    if |p| <= 1 then 0 else Unreached(p[1..]) + if p[1].Wait? then 1 else 0
  }

  /** The length of the frame it carries to them. */
  ghost function LengthOf(p: seq<Op>): nat {
    if |p| > 2 && p[2].AddClient? then p[2].n else 0
  }

  /** The rest of a fan-out loop. */
  ghost predicate IsLoop(p: seq<Op>) { exists subs, len :: p == LoopOps(subs, len) }

  /** Wherever a task may wait, what follows is the rest of a fan-out loop; and it looks a target or its subscribers up
      only at the end of a program. */
  ghost predicate TaskOk(p: seq<Op>) {
    && (forall i :: 0 <= i < |p| && p[i].Wait? ==> IsLoop(p[i + 1..]))
    && forall i :: 0 <= i < |p| - 1 ==> !p[i].Find? && !p[i].Snapshot?
  }

  lemma TaskTail(p: seq<Op>)
    requires p != [] && TaskOk(p)
    ensures TaskOk(p[1..])
  {
    var q := p[1..];
    forall i | 0 <= i < |q| && q[i].Wait? ensures IsLoop(q[i + 1..]) {
      assert p[i + 1].Wait? && q[i + 1..] == p[i + 2..];
    }
  }

  lemma {:induction false} LoopOk(subs: seq<nat>, len: nat)
    ensures TaskOk(LoopOps(subs, len))
    ensures forall i :: 0 <= i < |LoopOps(subs, len)| ==>
          !LoopOps(subs, len)[i].Find? && !LoopOps(subs, len)[i].Snapshot?
  {
    if subs != [] {
      var p, rest := LoopOps(subs, len), LoopOps(subs[1..], len);
      LoopOk(subs[1..], len);
      forall i | 0 <= i < |p| && p[i].Wait? ensures IsLoop(p[i + 1..]) {
        if i == 2 {
          assert p[i + 1..] == rest;
        } else {
          assert p[i] == rest[i - 3] && p[i + 1..] == rest[i - 2..];
        }
      }
    }
  }

  lemma FanOutOk(subs: seq<nat>, len: nat)
    ensures TaskOk(FanOutOps(subs, len))
  {
    if subs != [] {
      var p, rest := FanOutOps(subs, len), LoopOps(subs, len);
      LoopOk(subs, len);
      forall i | 0 <= i < |p| && p[i].Wait? ensures IsLoop(p[i + 1..]) {
        assert p[i] == rest[i - 2] && p[i + 1..] == rest[i - 1..];
      }
    }
  }

  lemma SendOk(c: nat, len: nat)
    ensures TaskOk(SendOps(c, len))
  {
    var p := SendOps(c, len);
    forall i | 0 <= i < |p| && p[i].Wait? ensures IsLoop(p[i + 1..]) {
      assert p[i + 1..] == LoopOps([], len);
    }
  }

  lemma {:induction false} UnreachedInLoop(subs: seq<nat>, len: nat, head: Op)
    ensures Unreached([head] + LoopOps(subs, len)) == |subs|
    ensures subs != [] ==> LengthOf([head] + LoopOps(subs, len)) == len
  {
    var p := [head] + LoopOps(subs, len);
    if subs != [] {
      var rest := LoopOps(subs[1..], len);
      assert p == [head, AddClient(subs[0], WFrames, 1), AddClient(subs[0], WBytes, len), Wait] + rest;
      assert p[1..][1..][1..] == [Wait] + rest;
      assert Unreached(p) == Unreached(p[1..]) == Unreached(p[1..][1..]);
      UnreachedInLoop(subs[1..], len, Wait);
    }
  }

  /** A task that waits is at a point of a fan-out loop, or has no more to do; what it still owes are the shares of the
      subscribers it has not come to. */
  lemma WaitMeans(p: seq<Op>, m: Meter)
    requires TaskOk(p) && p != [] && p[0].Wait?
    ensures exists subs, len :: p == [Wait] + LoopOps(subs, len) && Unreached(p) == |subs|
    ensures Owed(p, m) == Share(m, LengthOf(p)) * Unreached(p)
  {
    assert IsLoop(p[0 + 1..]);
    var subs, len :| p[1..] == LoopOps(subs, len);
    assert p == [Wait] + LoopOps(subs, len);
    UnreachedInLoop(subs, len, Wait);
    LoopOwes(subs, len, m);
    assert Owed(p, m) == OwedBy(p[0], m) + Owed(p[1..], m);
  }

  // ----- the invariant

  ghost function Gap(st: State, m: Meter): int {
    st.db.At(m) - Total(st.clients, m) - Debt(st.tasks, m)
  }

  ghost predicate Whole(d: int) { d % WORD == 0 }

  /** What a step leaves unattributed for good: the shares of the subscribers that a task given up was still to come
      to. */
  ghost function LostBy(st: State, x: Step, m: Meter): nat {
    if x.GiveUp? && x.t < |st.tasks| then Share(m, LengthOf(st.tasks[x.t])) * Unreached(st.tasks[x.t]) else 0
  }

  /** The same for the first `i` steps of a run. */
  ghost function LostTo(states: seq<State>, steps: seq<Step>, i: nat, m: Meter): nat
    requires i <= |steps| && i <= |states|
  {
    if i == 0 then 0 else LostTo(states, steps, i - 1, m) + LostBy(states[i - 1], steps[i - 1], m)
  }

  ghost predicate Inv(st: State) {
    && (forall t :: 0 <= t < |st.tasks| ==> TaskOk(st.tasks[t]))
    && forall m: Meter :: 0 <= st.db.At(m) < WORD
  }

  /** Wrapping a sum changes it by a multiple of the word. */
  lemma Wrapped(v: int)
    ensures Whole(Wrap(v) - v) && Whole(v - Wrap(v)) && Whole(0)
  {}

  lemma RunGap(st: State, t: nat, m: Meter)
    requires Inv(st) && Enabled(st, Run(t))
    ensures Whole(Gap(After(st, Run(t)), m) - Gap(st, m))
  {
    hide TaskOk, Whole, Wrap;
    var op := st.tasks[t][0];
    DebtUpdate(st.tasks, t, st.tasks[t][1..], m);
    Wrapped(0);
    if op.AddDb? && op.m == m {
      Wrapped(st.db.At(m) + op.n);
    } else if op.AddClient? {
      TotalUpdate(st.clients, op.c, Bump(st.clients[op.c], op.m, op.n), m);
      Wrapped(st.clients[op.c].At(m) + op.n);
    }
  }

  /** A step changes the gap between the broker and its clients by what it loses, modulo the counter's width. */
  lemma StepGap(st: State, x: Step, m: Meter)
    requires Inv(st) && Enabled(st, x)
    ensures Whole(Gap(After(st, x), m) - Gap(st, m) - LostBy(st, x, m))
  {
    hide Whole, Unreached, LengthOf, Share, TaskOk, ReceiveOps, SendOps;
    var r := After(st, x);
    Wrapped(0);
    match x
    case NewClient => TotalAppend(st.clients, m);
    case NewTask => DebtAppend(st.tasks, m);
    case Receive(t, c, req, len) =>
      DebtUpdate(st.tasks, t, r.tasks[t], m);
      ReceiveBalanced(c, req, len, m);
    case Acknowledge(t, c) =>
      DebtUpdate(st.tasks, t, r.tasks[t], m);
      SendBalanced(c, AckLength, m);
    case Run(t) => RunGap(st, t, m);
    case Found(t, target) => LookGap(st, x, m);
    case Collected(t, subs) => LookGap(st, x, m);
    case GiveUp(t, _) =>
      DebtUpdate(st.tasks, t, [], m);
      WaitMeans(st.tasks[t], m);
  }

  /** A look-up is the last thing a program does, and what it leads to is balanced. */
  lemma LookGap(st: State, x: Step, m: Meter)
    requires Inv(st) && Enabled(st, x) && (x.Found? || x.Collected?)
    ensures Gap(After(st, x), m) == Gap(st, m)
  {
    var p, r := st.tasks[x.t], After(st, x);
    assert TaskOk(p);
    assert p[1..] == [];
    hide Inv, TaskOk;
    DebtUpdate(st.tasks, x.t, r.tasks[x.t], m);
    if x.Collected? {
      FanOutBalanced(x.subs, p[0].len, m);
    } else if x.target.Registered? {
      SendBalanced(x.target.c, p[0].len, m);
    }
  }

  lemma StepKeepsTasks(st: State, x: Step, t: nat)
    requires Inv(st) && Enabled(st, x) && t < |After(st, x).tasks|
    ensures TaskOk(After(st, x).tasks[t])
  {
    if x.Receive? {
      assert TaskOk(ReceiveOps(x.c, x.req, x.len));
    } else if x.Acknowledge? {
      SendOk(x.c, AckLength);
    } else if x.Run? {
      TaskTail(st.tasks[x.t]);
    } else if x.Found? && x.target.Registered? {
      SendOk(x.target.c, st.tasks[x.t][0].len);
    } else if x.Collected? {
      FanOutOk(x.subs, st.tasks[x.t][0].len);
    }
  }

  lemma StepKeepsInv(st: State, x: Step)
    requires Inv(st) && Enabled(st, x)
    ensures Inv(After(st, x))
  {
    var r := After(st, x);
    forall t | 0 <= t < |r.tasks| ensures TaskOk(r.tasks[t]) { StepKeepsTasks(st, x, t); }
    hide TaskOk;
  }

  lemma {:induction false} RunKeepsInv(states: seq<State>, steps: seq<Step>, i: nat)
    requires IsRun(states, steps) && i < |states|
    ensures Inv(states[i])
  {
    if i > 0 {
      RunKeepsInv(states, steps, i - 1);
      assert Enabled(states[i - 1], steps[i - 1]);
      StepKeepsInv(states[i - 1], steps[i - 1]);
    }
  }

  lemma {:induction false} RunGapIs(states: seq<State>, steps: seq<Step>, i: nat, m: Meter)
    requires IsRun(states, steps) && i < |states|
    ensures Whole(Gap(states[i], m) - LostTo(states, steps, i, m))
  {
    hide LostBy, Whole, Gap;
    if i == 0 {
      StartGap(m);
    } else {
      RunGapIs(states, steps, i - 1, m);
      RunKeepsInv(states, steps, i - 1);
      assert Enabled(states[i - 1], steps[i - 1]);
      StepGap(states[i - 1], steps[i - 1], m);
      WholeSum(Gap(states[i - 1], m) - LostTo(states, steps, i - 1, m),
               Gap(states[i], m) - Gap(states[i - 1], m) - LostBy(states[i - 1], steps[i - 1], m));
    }
  }

  lemma StartGap(m: Meter)
    ensures Whole(Gap(State(Zero, [], []), m))
  {}

  lemma WholeSum(a: int, b: int)
    requires Whole(a) && Whole(b)
    ensures Whole(a + b)
  {}

  lemma AddsNothing(a: int, b: int)
    ensures Wrap(a + b) == Wrap(a) <==> Wrap(b) == 0
  {}

  lemma Reduced(v: int, sum: int)
    requires 0 <= v < WORD && Whole(v - sum)
    ensures v == Wrap(sum)
  {}

  /** In every reachable state the broker's counter is the sum over all clients ever created, plus what the running
      tasks have not attributed yet, plus the shares of the subscribers that tasks given up did not come to - modulo the
      counter's width. When no task runs it is the sum itself exactly when those shares add up to nothing. */
  lemma Conservation(states: seq<State>, steps: seq<Step>, i: nat, m: Meter)
    requires IsRun(states, steps) && i < |states|
    ensures var st, lost := states[i], LostTo(states, steps, i, m);
            && st.db.At(m) == Wrap(Total(st.clients, m) + Debt(st.tasks, m) + lost)
            && ((forall t :: 0 <= t < |st.tasks| ==> st.tasks[t] == []) ==>
                  (st.db.At(m) == Wrap(Total(st.clients, m)) <==> Wrap(lost) == 0))
  {
    hide Whole, Wrap, LostTo, Total;
    var st, lost := states[i], LostTo(states, steps, i, m);
    RunKeepsInv(states, steps, i);
    RunGapIs(states, steps, i, m);
    assert Gap(st, m) - lost == st.db.At(m) - (Total(st.clients, m) + Debt(st.tasks, m) + lost);
    Reduced(st.db.At(m), Total(st.clients, m) + Debt(st.tasks, m) + lost);
    if forall t :: 0 <= t < |st.tasks| ==> st.tasks[t] == [] {
      DebtOfNone(st.tasks, m);
      AddsNothing(Total(st.clients, m), lost);
    }
  }

  /** What was lost: of the traffic received never anything; of the frames sent, as many as subscribers were cut off;
      and nothing at all exactly when every task given up had come to all of its subscribers. */
  lemma {:induction false} LostIs(states: seq<State>, steps: seq<Step>, i: nat)
    requires IsRun(states, steps) && i < |states|
    ensures LostTo(states, steps, i, RFrames) == 0 && LostTo(states, steps, i, RBytes) == 0
    ensures LostTo(states, steps, i, WFrames) == 0 <==>
              forall k :: 0 <= k < i && steps[k].GiveUp? ==> Unreached(states[k].tasks[steps[k].t]) == 0
    ensures LostTo(states, steps, i, WFrames) == 0 ==> LostTo(states, steps, i, WBytes) == 0
  {
    if i > 0 {
      LostIs(states, steps, i - 1);
      assert Enabled(states[i - 1], steps[i - 1]);
    }
  }

  /** In every run, a task that may be given up is at a point of a fan-out loop, or has no more to do; and what is lost
      with it is what it still owes: the shares of the subscribers it has not come to. */
  lemma GivingUpLoses(states: seq<State>, steps: seq<Step>, i: nat, t: nat, reason: Reason, m: Meter)
    requires IsRun(states, steps) && i < |states| && Enabled(states[i], GiveUp(t, reason))
    ensures var p := states[i].tasks[t];
            && (exists subs, len :: p == [Wait] + LoopOps(subs, len) && Unreached(p) == |subs|)
            && LostBy(states[i], GiveUp(t, reason), m) == Owed(p, m)
  {
    RunKeepsInv(states, steps, i);
    WaitMeans(states[i].tasks[t], m);
  }

  /** The counters agree whenever no task runs, provided no task was given up before it came to all its subscribers. */
  lemma ExactUnlessGivenUp(states: seq<State>, steps: seq<Step>, i: nat, m: Meter)
    requires IsRun(states, steps) && i < |states|
    requires forall k :: 0 <= k < i && steps[k].GiveUp? ==> Unreached(states[k].tasks[steps[k].t]) == 0
    requires forall t :: 0 <= t < |states[i].tasks| ==> states[i].tasks[t] == []
    ensures states[i].db.At(m) == Wrap(Total(states[i].clients, m))
  {
    hide Total;
    Conservation(states, steps, i, m);
    LostIs(states, steps, i);
  }

  // ----- the counters against the traffic itself

  datatype Owner = Broker | Client(c: nat)

  ghost function ValueOf(st: State, who: Owner, m: Meter): int {
    if who.Broker? then st.db.At(m) else if who.c < |st.clients| then st.clients[who.c].At(m) else 0
  }

  ghost predicate Owns(who: Owner, c: nat) { who.Broker? || who.c == c }

  /** What one frame received counts for. */
  ghost function ReadShare(m: Meter, len: nat): nat {
    if m == RFrames then 1 else if m == RBytes then len else 0
  }

  /** What a step makes the broker, or a client, count: a frame received counts once for both; an acknowledgement and a
      message to a registered target count once for both; a fan-out counts once for each client it collected, and as
      often for the broker. `len` is the length of the message in hand. */
  ghost function Load(x: Step, len: nat, who: Owner, m: Meter): nat {
    match x
    case Receive(_, c, _, n) => if Owns(who, c) then ReadShare(m, n) else 0
    case Acknowledge(_, c) => if Owns(who, c) then Share(m, 6) else 0
    case Found(_, target) => if target.Registered? && Owns(who, target.c) then Share(m, len) else 0
    case Collected(_, subs) => Share(m, len) * (if who.Broker? then |subs| else multiset(subs)[who.c])
    case _ => 0
  }

  /** The message a task has in hand: the last one it received. */
  datatype Held = Nothing | Holds(req: Request, len: nat)

  ghost function InHand(steps: seq<Step>, i: nat, t: nat): Held
    requires i <= |steps|
  {
    if i == 0 then Nothing
    else if steps[i - 1].Receive? && steps[i - 1].t == t then Holds(steps[i - 1].req, steps[i - 1].len)
    else InHand(steps, i - 1, t)
  }

  ghost function LengthInHand(steps: seq<Step>, i: nat): nat
    requires i < |steps|
  {
    var x := steps[i];
    if (x.Found? || x.Collected?) && InHand(steps, i, x.t).Holds? then InHand(steps, i, x.t).len else 0
  }

  /** What the first `i` steps of a run make the broker, or a client, count. */
  ghost function Traffic(steps: seq<Step>, i: nat, who: Owner, m: Meter): nat
    requires i <= |steps|
  {
    if i == 0 then 0 else Traffic(steps, i - 1, who, m) + Load(steps[i - 1], LengthInHand(steps, i - 1), who, m)
  }

  /** What is left in a program for the broker, or for a client. */
  ghost function CreditBy(op: Op, who: Owner, m: Meter): nat {
    if who.Broker? then (if op.AddDb? && op.m == m then op.n else 0)
    else if op.AddClient? && op.c == who.c && op.m == m then op.n
    else 0
  }

  ghost function Credit(p: seq<Op>, who: Owner, m: Meter): nat {
    if p == [] then 0 else CreditBy(p[0], who, m) + Credit(p[1..], who, m)
  }

  ghost function Pending(tasks: seq<seq<Op>>, who: Owner, m: Meter): nat {
    if tasks == [] then 0 else Credit(tasks[0], who, m) + Pending(tasks[1..], who, m)
  }

  /** What was left in the tasks that were given up. */
  ghost function Forfeit(states: seq<State>, steps: seq<Step>, i: nat, who: Owner, m: Meter): nat
    requires i <= |steps| && i <= |states|
  {
    if i == 0 then 0 else Forfeit(states, steps, i - 1, who, m) + ForfeitBy(states[i - 1], steps[i - 1], who, m)
  }

  ghost function ForfeitBy(st: State, x: Step, who: Owner, m: Meter): nat {
    if x.GiveUp? && x.t < |st.tasks| then Credit(st.tasks[x.t], who, m) else 0
  }

  lemma {:induction false} PendingUpdate(ts: seq<seq<Op>>, t: nat, p: seq<Op>, who: Owner, m: Meter)
    requires t < |ts|
    ensures Pending(ts[t := p], who, m) == Pending(ts, who, m) - Credit(ts[t], who, m) + Credit(p, who, m)
  {
    if t == 0 {
      assert ts[t := p][1..] == ts[1..];
    } else {
      PendingUpdate(ts[1..], t - 1, p, who, m);
      assert ts[t := p][1..] == ts[1..][t - 1 := p];
    }
  }

  lemma {:induction false} PendingAppend(ts: seq<seq<Op>>, who: Owner, m: Meter)
    ensures Pending(ts + [[]], who, m) == Pending(ts, who, m)
  {
    if ts != [] {
      PendingAppend(ts[1..], who, m);
      assert (ts + [[]])[1..] == ts[1..] + [[]];
    }
  }

  lemma {:induction false} PendingOfNone(ts: seq<seq<Op>>, who: Owner, m: Meter)
    requires forall t :: 0 <= t < |ts| ==> ts[t] == []
    ensures Pending(ts, who, m) == 0
  {
    if ts != [] {
      assert ts[0] == [];
      PendingOfNone(ts[1..], who, m);
    }
  }

  lemma CreditTwo(p: seq<Op>, who: Owner, m: Meter)
    requires |p| >= 2
    ensures Credit(p, who, m) == CreditBy(p[0], who, m) + CreditBy(p[1], who, m) + Credit(p[2..], who, m)
  {}

  lemma ReceiveCredits(c: nat, req: Request, len: nat, who: Owner, m: Meter)
    ensures Credit(ReceiveOps(c, req, len), who, m) == if Owns(who, c) then ReadShare(m, len) else 0
  {
    var p := ReceiveOps(c, req, len);
    var rest := p[4..];
    CreditTwo(p, who, m);
    CreditTwo(p[2..], who, m);
    assert p[2..][2..] == rest;
    assert rest != [] ==> rest[1..] == [];
  }

  lemma SendCredits(c: nat, len: nat, who: Owner, m: Meter)
    ensures Credit(SendOps(c, len), who, m) == if Owns(who, c) then Share(m, len) else 0
  {
    var p := SendOps(c, len);
    CreditTwo(p, who, m);
    CreditTwo(p[2..], who, m);
    assert p[2..][2..] == [Wait] && [Wait][1..] == [];
  }

  /** A fan-out loop credits each client as often as it comes to it, and the broker nothing. */
  lemma {:induction false} LoopCredits(subs: seq<nat>, len: nat, who: Owner, m: Meter)
    ensures Credit(LoopOps(subs, len), who, m)
            == Share(m, len) * (if who.Broker? then 0 else multiset(subs)[who.c])
  {
    if subs != [] {
      LoopCredits(subs[1..], len, who, m);
      LoopHead(subs, len, who, m);
      if who.Client? { OneMore(subs, who.c, Share(m, len)); }
    }
  }

  lemma LoopHead(subs: seq<nat>, len: nat, who: Owner, m: Meter)
    requires subs != []
    ensures Credit(LoopOps(subs, len), who, m)
            == (if who.Client? && who.c == subs[0] then Share(m, len) else 0) + Credit(LoopOps(subs[1..], len), who, m)
  {
    var p := LoopOps(subs, len);
    CreditTwo(p, who, m);
    assert p[2..][1..] == LoopOps(subs[1..], len);
  }

  lemma OneMore(subs: seq<nat>, c: nat, share: nat)
    requires subs != []
    ensures share * multiset(subs)[c] == (if c == subs[0] then share else 0) + share * multiset(subs[1..])[c]
  {
    assert subs == [subs[0]] + subs[1..];
  }

  lemma FanOutCredits(subs: seq<nat>, len: nat, who: Owner, m: Meter)
    ensures Credit(FanOutOps(subs, len), who, m)
            == Share(m, len) * (if who.Broker? then |subs| else multiset(subs)[who.c])
  {
    var p := FanOutOps(subs, len);
    if subs != [] {
      LoopCredits(subs, len, who, m);
      CreditTwo(p, who, m);
      assert p[2..] == LoopOps(subs, len);
    }
  }

  /** A task that is given up has credited the broker with everything. */
  lemma WaitCredits(p: seq<Op>, m: Meter)
    requires TaskOk(p) && p != [] && p[0].Wait?
    ensures Credit(p, Broker, m) == 0
  {
    assert IsLoop(p[0 + 1..]);
    var subs, len :| p[1..] == LoopOps(subs, len);
    LoopCredits(subs, len, Broker, m);
  }

  /** Whatever a task is to look up, it looks up for the message in hand. */
  ghost predicate InStep(st: State, steps: seq<Step>, i: nat)
    requires i <= |steps|
  {
    forall t, j :: 0 <= t < |st.tasks| && 0 <= j < |st.tasks[t]| ==> OpInStep(st.tasks[t][j], InHand(steps, i, t))
  }

  ghost predicate OpInStep(op: Op, h: Held) {
    (op.Find? ==> h == Holds(Message, op.len)) && (op.Snapshot? ==> h == Holds(FanOut, op.len))
  }

  lemma NewOpsInStep(st: State, x: Step, j: nat, h: Held)
    requires Inv(st) && Enabled(st, x) && (x.Receive? || x.Acknowledge? || x.Found? || x.Collected? || x.GiveUp?)
    requires j < |After(st, x).tasks[x.t]| && (x.Receive? ==> h == Holds(x.req, x.len))
    ensures OpInStep(After(st, x).tasks[x.t][j], h)
  {
    if x.Collected? { LoopOk(x.subs, st.tasks[x.t][0].len); }
  }

  lemma StepInStep(st: State, steps: seq<Step>, i: nat)
    requires i < |steps| && Inv(st) && Enabled(st, steps[i]) && InStep(st, steps, i)
    ensures InStep(After(st, steps[i]), steps, i + 1)
  {
    var x, r := steps[i], After(st, steps[i]);
    hide Inv, OpInStep;
    forall t, j | 0 <= t < |r.tasks| && 0 <= j < |r.tasks[t]|
      ensures OpInStep(r.tasks[t][j], InHand(steps, i + 1, t))
    {
      if x.Receive? || x.Acknowledge? || x.Found? || x.Collected? || x.GiveUp? {
        if t == x.t {
          NewOpsInStep(st, x, j, InHand(steps, i + 1, t));
        } else {
          assert r.tasks[t][j] == st.tasks[t][j];
        }
      } else if x.Run? && t == x.t {
        assert r.tasks[t][j] == st.tasks[t][j + 1];
      } else {
        assert r.tasks[t][j] == st.tasks[t][j];
      }
    }
  }

  lemma {:induction false} RunInStep(states: seq<State>, steps: seq<Step>, i: nat)
    requires IsRun(states, steps) && i < |states|
    ensures InStep(states[i], steps, i)
  {
    hide Enabled, After, InStep;
    if i > 0 {
      RunInStep(states, steps, i - 1);
      RunKeepsInv(states, steps, i - 1);
      assert Enabled(states[i - 1], steps[i - 1]);
      StepInStep(states[i - 1], steps, i - 1);
    } else {
      StartInStep(steps);
    }
  }

  lemma StartInStep(steps: seq<Step>)
    ensures InStep(State(Zero, [], []), steps, 0)
  {}

  /** The value of a counter together with what the running tasks will still add to it. */
  ghost function Sure(st: State, who: Owner, m: Meter): int { ValueOf(st, who, m) + Pending(st.tasks, who, m) }

  lemma RunCounts(st: State, t: nat, who: Owner, m: Meter)
    requires Inv(st) && Enabled(st, Run(t))
    ensures Whole(Sure(After(st, Run(t)), who, m) - Sure(st, who, m))
  {
    hide TaskOk, Whole, Wrap, Inv;
    var op := st.tasks[t][0];
    PendingUpdate(st.tasks, t, st.tasks[t][1..], who, m);
    Wrapped(0);
    if op.AddDb? && op.m == m {
      Wrapped(st.db.At(m) + op.n);
    } else if op.AddClient? && op.m == m {
      Wrapped(st.clients[op.c].At(m) + op.n);
    }
  }

  /** A step adds to a counter what its traffic loads on it, less what a task given up leaves undone. */
  lemma StepCounts(st: State, x: Step, len: nat, who: Owner, m: Meter)
    requires Inv(st) && Enabled(st, x) && (x.Found? || x.Collected? ==> len == st.tasks[x.t][0].len)
    ensures Whole(Sure(After(st, x), who, m) + ForfeitBy(st, x, who, m) - Sure(st, who, m) - Load(x, len, who, m))
  {
    hide Whole, Share, ReadShare, ReceiveOps, SendOps, FanOutOps, Owns, Inv, Wrap, Bump;
    var r := After(st, x);
    Wrapped(0);
    match x
    case NewClient =>
    case NewTask => PendingAppend(st.tasks, who, m);
    case Receive(t, c, req, n) =>
      PendingUpdate(st.tasks, t, r.tasks[t], who, m);
      ReceiveCredits(c, req, n, who, m);
    case Acknowledge(t, c) =>
      PendingUpdate(st.tasks, t, r.tasks[t], who, m);
      SendCredits(c, AckLength, who, m);
    case Run(t) => RunCounts(st, t, who, m);
    case Found(t, target) => LookCounts(st, x, len, who, m);
    case Collected(t, subs) => LookCounts(st, x, len, who, m);
    case GiveUp(t, _) => PendingUpdate(st.tasks, t, [], who, m);
  }

  lemma LookCounts(st: State, x: Step, len: nat, who: Owner, m: Meter)
    requires Inv(st) && Enabled(st, x) && (x.Found? || x.Collected?) && len == st.tasks[x.t][0].len
    ensures Sure(After(st, x), who, m) == Sure(st, who, m) + Load(x, len, who, m)
  {
    var p, r := st.tasks[x.t], After(st, x);
    assert TaskOk(p);
    assert p[1..] == [];
    hide Inv, TaskOk;
    PendingUpdate(st.tasks, x.t, r.tasks[x.t], who, m);
    if x.Collected? {
      FanOutCredits(x.subs, len, who, m);
    } else if x.target.Registered? {
      SendCredits(x.target.c, len, who, m);
    }
  }

  ghost predicate InRange(st: State) { forall c, m: Meter :: 0 <= c < |st.clients| ==> 0 <= st.clients[c].At(m) < WORD }

  lemma {:induction false} RunInRange(states: seq<State>, steps: seq<Step>, i: nat)
    requires IsRun(states, steps) && i < |states|
    ensures InRange(states[i])
  {
    if i > 0 {
      RunInRange(states, steps, i - 1);
      assert Enabled(states[i - 1], steps[i - 1]);
    }
  }

  lemma {:induction false} RunCounted(states: seq<State>, steps: seq<Step>, i: nat, who: Owner, m: Meter)
    requires IsRun(states, steps) && i < |states|
    ensures Whole(Sure(states[i], who, m) + Forfeit(states, steps, i, who, m) - Traffic(steps, i, who, m))
  {
    hide Whole, Sure, ForfeitBy, Load, After;
    if i == 0 {
      StartCounted(who, m);
    } else {
      var st, x := states[i - 1], steps[i - 1];
      var len := LengthInHand(steps, i - 1);
      RunCounted(states, steps, i - 1, who, m);
      RunKeepsInv(states, steps, i - 1);
      RunInStep(states, steps, i - 1);
      assert Enabled(st, x);
      if x.Found? || x.Collected? { assert OpInStep(st.tasks[x.t][0], InHand(steps, i - 1, x.t)); }
      StepCounts(st, x, len, who, m);
      WholeSum(Sure(st, who, m) + Forfeit(states, steps, i - 1, who, m) - Traffic(steps, i - 1, who, m),
               Sure(states[i], who, m) + ForfeitBy(st, x, who, m) - Sure(st, who, m) - Load(x, len, who, m));
    }
  }

  lemma StartCounted(who: Owner, m: Meter)
    ensures Whole(Sure(State(Zero, [], []), who, m))
  {}

  lemma {:induction false} BrokerForfeitsNothing(states: seq<State>, steps: seq<Step>, i: nat, m: Meter)
    requires IsRun(states, steps) && i < |states|
    ensures Forfeit(states, steps, i, Broker, m) == 0
  {
    if i > 0 {
      BrokerForfeitsNothing(states, steps, i - 1, m);
      RunKeepsInv(states, steps, i - 1);
      assert Enabled(states[i - 1], steps[i - 1]);
      if steps[i - 1].GiveUp? { WaitCredits(states[i - 1].tasks[steps[i - 1].t], m); }
    }
  }

  /** In every run, the counters of the broker and of every client, together with what the running tasks have still to
      add, are the traffic of the run, modulo the counter's width; a client's counters miss what was left for it in
      tasks given up, and the broker's miss nothing. So when no task runs, the broker's counters are exactly its
      traffic. */
  lemma CountersAreTraffic(states: seq<State>, steps: seq<Step>, i: nat, who: Owner, m: Meter)
    requires IsRun(states, steps) && i < |states|
    ensures var st := states[i];
            && ValueOf(st, who, m) == Wrap(Traffic(steps, i, who, m) - Forfeit(states, steps, i, who, m)
                                           - Pending(st.tasks, who, m))
            && (who.Broker? ==> Forfeit(states, steps, i, who, m) == 0)
            && ((forall t :: 0 <= t < |st.tasks| ==> st.tasks[t] == []) ==> Pending(st.tasks, who, m) == 0)
  {
    hide Whole, Wrap, Traffic, Pending, Forfeit;
    var st := states[i];
    RunKeepsInv(states, steps, i);
    RunInRange(states, steps, i);
    RunCounted(states, steps, i, who, m);
    if who.Broker? { BrokerForfeitsNothing(states, steps, i, m); }
    Reduced(ValueOf(st, who, m),
            Traffic(steps, i, who, m) - Forfeit(states, steps, i, who, m) - Pending(st.tasks, who, m));
    if forall t :: 0 <= t < |st.tasks| ==> st.tasks[t] == [] { PendingOfNone(st.tasks, who, m); }
  }

  /** A target is looked up for a message, and subscribers are collected for a fan-out: always for the last one that the
      task received. */
  lemma LooksUpInHand(states: seq<State>, steps: seq<Step>, i: nat)
    requires IsRun(states, steps) && i < |steps|
    ensures steps[i].Found? ==> InHand(steps, i, steps[i].t).Holds? && InHand(steps, i, steps[i].t).req == Message
    ensures steps[i].Collected? ==> InHand(steps, i, steps[i].t).Holds? && InHand(steps, i, steps[i].t).req == FanOut
  {
    hide After;
    RunInStep(states, steps, i);
    var st, x := states[i], steps[i];
    assert Enabled(st, x);
    if x.Found? || x.Collected? { assert OpInStep(st.tasks[x.t][0], InHand(steps, i, x.t)); }
  }

  ghost predicate Receives(x: Step) { x.Receive? }

  lemma FrameCounts(steps: seq<Step>, i: nat)
    requires i < |steps|
    ensures Load(steps[i], LengthInHand(steps, i), Broker, RFrames) == if Receives(steps[i]) then 1 else 0
  {}

  /** The broker counts as received exactly the frames that were received. */
  lemma {:induction false} FramesReceived(steps: seq<Step>, i: nat)
    requires i <= |steps|
    ensures Traffic(steps, i, Broker, RFrames) == |set k | 0 <= k < i && Receives(steps[k])|
  {
    hide InHand, Share, Receives;
    var all := set k | 0 <= k < i && Receives(steps[k]);
    if i > 0 {
      assert Load(steps[i - 1], LengthInHand(steps, i - 1), Broker, RFrames)
          == if Receives(steps[i - 1]) then 1 else 0 by { FrameCounts(steps, i - 1); }
      FramesReceived(steps, i - 1);
      var before := set k | 0 <= k < i - 1 && Receives(steps[k]);
      assert all == if Receives(steps[i - 1]) then before + {i - 1} else before;
    }
  }

  // ----- a session that ends in the middle of a broadcast

  /** A run and the state it has come to. */
  ghost predicate Reaches(states: seq<State>, steps: seq<Step>, st: State) {
    IsRun(states, steps) && states[|steps|] == st && forall k :: 0 <= k < |steps| ==> steps[k] != GiveUp(0, Deadline)
  }

  lemma Extend(states: seq<State>, steps: seq<Step>, st: State, x: Step, r: State)
    returns (states': seq<State>, steps': seq<Step>)
    requires Reaches(states, steps, st) && Enabled(st, x) && After(st, x) == r && x != GiveUp(0, Deadline)
    ensures Reaches(states', steps', r) && |steps'| == |steps| + 1
  {
    hide Enabled, After;
    states', steps' := states + [r], steps + [x];
  }

  ghost function Added(st: State, op: Op): (r: State)
    ensures |r.clients| == |st.clients| && r.tasks == st.tasks
  {
    if op.AddDb? then st.(db := Bump(st.db, op.m, op.n))
    else if op.AddClient? && op.c < |st.clients| then st.(clients := st.clients[op.c := Bump(st.clients[op.c], op.m,
        op.n)])
    else st
  }

  lemma OneAddition(st: State, op: Op, rest: seq<Op>)
    requires op.AddDb? || (op.AddClient? && op.c < |st.clients|)
    ensures var s := st.(tasks := [[op] + rest]);
            Enabled(s, Run(0)) && After(s, Run(0)) == Added(st, op).(tasks := [rest])
  {
    var s := st.(tasks := [[op] + rest]);
    assert s.tasks[0][1..] == rest;
    assert s.tasks[0 := rest] == [rest];
  }

  ghost function AddedAll(st: State, ops: seq<Op>): State
    decreases |ops|
  {
    if ops == [] then st else AddedAll(Added(st, ops[0]), ops[1..])
  }

  ghost predicate Addition(op: Op, n: nat) { op.AddDb? || (op.AddClient? && op.c < n) }

  /** A row of additions by the only task. */
  lemma {:induction false} Additions(states: seq<State>, steps: seq<Step>, st: State, ops: seq<Op>, rest: seq<Op>)
    returns (states': seq<State>, steps': seq<Step>)
    requires Reaches(states, steps, st.(tasks := [ops + rest]))
    requires forall k :: 0 <= k < |ops| ==> Addition(ops[k], |st.clients|)
    ensures Reaches(states', steps', AddedAll(st, ops).(tasks := [rest])) && |steps'| == |steps| + |ops|
    decreases |ops|
  {
    hide Reaches, Enabled, After;
    if ops == [] {
      assert ops + rest == rest;
      states', steps' := states, steps;
    } else {
      var more := ops[1..] + rest;
      assert ops + rest == [ops[0]] + more;
      assert Addition(ops[0], |st.clients|);
      OneAddition(st, ops[0], more);
      states', steps' := Extend(states, steps, st.(tasks := [ops + rest]), Run(0), Added(st, ops[0]).(tasks := [more]));
      states', steps' := Additions(states', steps', Added(st, ops[0]), ops[1..], rest);
    }
  }

  lemma FourAdded(st: State, a: Op, b: Op, c: Op, d: Op)
    ensures AddedAll(st, [a, b, c, d]) == Added(Added(Added(Added(st, a), b), c), d)
  {
    hide Added;
    assert [a, b, c, d][1..] == [b, c, d] && [b, c, d][1..] == [c, d] && [c, d][1..] == [d] && [d][1..] == [];
    assert AddedAll(st, [a, b, c, d]) == AddedAll(Added(st, a), [b, c, d]);
    assert AddedAll(Added(st, a), [b, c, d]) == AddedAll(Added(Added(st, a), b), [c, d]);
    assert AddedAll(Added(Added(st, a), b), [c, d]) == AddedAll(Added(Added(Added(st, a), b), c), [d]);
  }

  const SENDER := Meters(1, 1, 0, 0)
  const RECEIVER := Meters(0, 0, 1, 1)

  /** An addition that does not wrap. */
  lemma Bumped(x: Meters, m: Meter, n: nat)
    requires 0 <= x.At(m) && x.At(m) + n < WORD
    ensures Bump(x, m, n) == x.With(m, x.At(m) + n)
  {}

  lemma CountsReceived()
    ensures AddedAll(State(Zero, [Zero, Zero, Zero], []),
                     [AddClient(0, RFrames, 1), AddClient(0, RBytes, 1), AddDb(RFrames, 1), AddDb(RBytes, 1)])
            == State(SENDER, [SENDER, Zero, Zero], [])
  {
    hide Bump, AddedAll;
    var half := Meters(1, 0, 0, 0);
    FourAdded(State(Zero, [Zero, Zero, Zero], []),
              AddClient(0, RFrames, 1), AddClient(0, RBytes, 1), AddDb(RFrames, 1), AddDb(RBytes, 1));
    Bumped(Zero, RFrames, 1);
    Bumped(half, RBytes, 1);
    assert [Zero, Zero, Zero][0 := half] == [half, Zero, Zero]
        && [half, Zero, Zero][0 := SENDER] == [SENDER, Zero, Zero];
  }

  lemma CountsSent()
    ensures AddedAll(State(SENDER, [SENDER, Zero, Zero], []),
                     [AddDb(WFrames, 2), AddDb(WBytes, 2), AddClient(1, WFrames, 1), AddClient(1, WBytes, 1)])
            == State(Meters(1, 1, 2, 2), [SENDER, RECEIVER, Zero], [])
  {
    hide Bump, AddedAll;
    var half := Meters(0, 0, 1, 0);
    FourAdded(State(SENDER, [SENDER, Zero, Zero], []),
              AddDb(WFrames, 2), AddDb(WBytes, 2), AddClient(1, WFrames, 1), AddClient(1, WBytes, 1));
    Bumped(SENDER, WFrames, 2);
    Bumped(Meters(1, 1, 2, 0), WBytes, 2);
    Bumped(Zero, WFrames, 1);
    Bumped(half, WBytes, 1);
    assert [SENDER, Zero, Zero][1 := half] == [SENDER, half, Zero]
        && [SENDER, half, Zero][1 := RECEIVER] == [SENDER, RECEIVER, Zero];
  }

  lemma TwoSubscribers()
    ensures FanOutOps([1, 2], 1) ==
              [AddDb(WFrames, 2), AddDb(WBytes, 2), AddClient(1, WFrames, 1), AddClient(1, WBytes, 1)]
              + [Wait, AddClient(2, WFrames, 1), AddClient(2, WBytes, 1), Wait]
  {
    assert [1, 2][1..] == [2] && [2][1..] == [];
    assert LoopOps([2], 1) == [AddClient(2, WFrames, 1), AddClient(2, WBytes, 1), Wait] + LoopOps([], 1);
  }

  lemma ThreeClients(a: Meters, b: Meters, c: Meters)
    ensures Total([a, b, c], WFrames) == a.wFrames + b.wFrames + c.wFrames
  {
    assert [a, b, c][1..] == [b, c] && [b, c][1..] == [c] && [c][1..] == [];
    assert Total([c], WFrames) == c.wFrames;
    assert Total([b, c], WFrames) == b.wFrames + c.wFrames;
  }

  /** Three clients, and a task that has received a broadcast from the first of them and is about to collect. */
  lemma BroadcastBegins() returns (states: seq<State>, steps: seq<Step>)
    ensures Reaches(states, steps, State(SENDER, [SENDER, Zero, Zero], [[Snapshot(1)]])) && |steps| == 9
  {
    var s0, s1, s2 := State(Zero, [], []), State(Zero, [Zero], []), State(Zero, [Zero, Zero], []);
    var s3, s4 := State(Zero, [Zero, Zero, Zero], []), State(Zero, [Zero, Zero, Zero], [[]]);
    var ops := [AddClient(0, RFrames, 1), AddClient(0, RBytes, 1), AddDb(RFrames, 1), AddDb(RBytes, 1)];
    states, steps := [s0], [];
    assert Reaches(states, steps, s0);
    assert After(s0, NewClient) == s1 && After(s1, NewClient) == s2 && After(s2, NewClient) == s3
        && After(s3, NewTask) == s4;
    assert Enabled(s4, Receive(0, 0, FanOut, 1)) && After(s4, Receive(0, 0, FanOut,
        1)) == s3.(tasks := [ops + [Snapshot(1)]]);
    hide Reaches, After, AddedAll;
    states, steps := Extend(states, steps, s0, NewClient, s1);
    states, steps := Extend(states, steps, s1, NewClient, s2);
    states, steps := Extend(states, steps, s2, NewClient, s3);
    states, steps := Extend(states, steps, s3, NewTask, s4);
    states, steps := Extend(states, steps, s4, Receive(0, 0, FanOut, 1), s3.(tasks := [ops + [Snapshot(1)]]));
    hide Enabled;
    states, steps := Additions(states, steps, s3, ops, [Snapshot(1)]);
    CountsReceived();
  }

  /** A broadcast to two clients whose session ends while it waits for the first. No deadline has passed and no task
      runs any more, and the broker has counted one frame more than its clients. */
  lemma EndedSessionLoses() returns (states: seq<State>, steps: seq<Step>)
    ensures IsRun(states, steps) && |steps| == 15 && forall k :: 0 <= k < 15 ==> steps[k] != GiveUp(0, Deadline)
    ensures states[15].tasks == [[]] && states[15].db.wFrames == 2 && Total(states[15].clients, WFrames) == 1
  {
    states, steps := BroadcastBegins();
    var ops := [AddDb(WFrames, 2), AddDb(WBytes, 2), AddClient(1, WFrames, 1), AddClient(1, WBytes, 1)];
    var rest := [Wait, AddClient(2, WFrames, 1), AddClient(2, WBytes, 1), Wait];
    var s1, s2 := State(SENDER, [SENDER, Zero, Zero], []), State(Meters(1, 1, 2, 2), [SENDER, RECEIVER, Zero], []);
    TwoSubscribers();
    CountsSent();
    ThreeClients(SENDER, RECEIVER, Zero);
    states, steps := CutShort(states, steps, s1, ops, s2, rest);
  }

  lemma CutShort(states: seq<State>, steps: seq<Step>, s1: State, ops: seq<Op>, s2: State, rest: seq<Op>)
    returns (states': seq<State>, steps': seq<Step>)
    requires Reaches(states, steps, s1.(tasks := [[Snapshot(1)]])) && FanOutOps([1, 2], 1) == ops + rest
    requires |s1.clients| == 3 && (forall k :: 0 <= k < |ops| ==> Addition(ops[k], 3)) && AddedAll(s1, ops) == s2
    requires rest != [] && rest[0].Wait?
    ensures Reaches(states', steps', s2.(tasks := [[]])) && |steps'| == |steps| + |ops| + 2
  {
    hide Reaches, AddedAll, FanOutOps;
    var s := s1.(tasks := [[Snapshot(1)]]);
    assert Enabled(s, Collected(0, [1, 2])) && After(s, Collected(0, [1, 2])) == s1.(tasks := [ops + rest]);
    states', steps' := Extend(states, steps, s, Collected(0, [1, 2]), s1.(tasks := [ops + rest]));
    states', steps' := Additions(states', steps', s1, ops, rest);
    var w := s2.(tasks := [rest]);
    assert Enabled(w, GiveUp(0, Ended)) && After(w, GiveUp(0, Ended)) == s2.(tasks := [[]]);
    states', steps' := Extend(states', steps', w, GiveUp(0, Ended), s2.(tasks := [[]]));
  }
}
