/** Delivery: the macros `safe_send_frame!`, `send!`, `send_broadcast!` and `publish!` of src/broker.rs, and the
    announcements the broker publishes from inside them when it throws a slow client out.

    `World` is the value of everything a delivery touches; `Offer`, `Loop`, `FanOut` and `Announce` say what one call
    does to it. The methods at the end do the same to the registry and the clients in place. One call runs at a time
    here, except that receivers take frames from full queues while a sender waits - unless they are stalled. */
module Delivery {
  import opened Bytes
  import opened Protocol
  import opened Registry

  /** `Never`: the task waits for ever - for a lock it holds itself, or for room nobody makes. */
  datatype Sent = Delivered | QueueClosed | Evicted | TimedOut | Never {
    predicate Halts() { TimedOut? || Never? }
  }

  /** What the caller of a delivery gets, if it gets anything. */
  function AsResult(s: Sent): Option<Result<()>> {
    match s
    case Delivered => Some(Ok(()))
    case QueueClosed => Some(Err(Eof))
    case Evicted => Some(Err(NotDelivered))
    case TimedOut => Some(Err(Timeout))
    case Never => None
  }

  /** What a sender hands over: a separate header, a buffer and the place where the payload starts in it. */
  datatype Cargo = Cargo(header: Option<Bytes>, buf: Bytes, payloadPos: nat, realtime: bool) {
    function As(kind: FrameKind, sender: Name, topic: Option<Name>): Frame {
      Frame(kind, Some(sender), topic, header, buf, payloadPos, realtime)
    }
  }

  /** `.broker/info`: where the broker announces who comes and goes. */
  const BROKER_INFO_TOPIC: Name := [46, 98, 114, 111, 107, 101, 114, 47, 105, 110, 102, 111]

  /** What a delivery depends on besides the registry.
      `core`: the broker's own client, if set; it always sends under its lock, and an announcement needs that lock.
      `listens`: which subscriptions cover the announcement topic; `notice`: the payload that announces a departure.
      `stalled`: the receivers that take no frame while a sender waits.
      `rank`: the order, among all clients, in which the n-th publication visits its subscribers. */
  datatype Env = Env(
    core: Option<ElbusClient>,
    listens: Name -> bool,
    notice: Name -> Bytes,
    stalled: set<ElbusClient>,
    rank: nat -> seq<ElbusClient>)

  /** A frame under way. `deadline`: the sender waits for room only so long. */
  datatype Job = Job(sender: ElbusClient, frame: Frame, len: nat, deadline: bool)

  predicate Own(job: Job, env: Env) { env.core == Some(job.sender) }

  function NoticeJob(name: Name, env: Env): Job
    requires env.core.Some?
  {
    var text := env.notice(name);
    Job(env.core.value, Cargo(None, text, 0, false).As(KPublish, env.core.value.name, Some(BROKER_INFO_TOPIC)),
        |text|, false)
  }

  // ----- the world of a delivery

  /** The delivery side of a client. */
  datatype Box = Box(
    queue: seq<Frame>, closed: bool, accepted: seq<Frame>,
    rFrames: nat, rBytes: nat, wFrames: nat, wBytes: nat)

  const NO_BOX: Box := Box([], false, [], 0, 0, 0, 0)

  type Boxes = map<ElbusClient, Box>

  /** The broker's own counters. */
  datatype Tally = Tally(rFrames: nat, rBytes: nat, wFrames: nat, wBytes: nat)

  datatype World = World(db: Db, boxes: Boxes, tally: Tally)

  ghost function BoxAt(w: World, c: ElbusClient): Box {
    if c in w.boxes then w.boxes[c] else NO_BOX
  }

  ghost function WithBox(w: World, c: ElbusClient, b: Box): World {
    if c in w.boxes then w.(boxes := w.boxes[c := b]) else w
  }

  ghost predicate Full(c: ElbusClient, b: Box) { |b.queue| >= c.capacity }

  /** An external client that does not keep up. */
  ghost predicate Overrun(c: ElbusClient, b: Box) { Full(c, b) && c.kind != Internal }

  ghost function Credited(b: Box, len: nat): Box {
    b.(wFrames := b.wFrames + 1, wBytes := b.wBytes + len)
  }

  ghost function Received(b: Box, len: nat): Box {
    b.(rFrames := b.rFrames + 1, rBytes := b.rBytes + len)
  }

  /** The frame is put on the queue; from a full one the receiver takes a frame first. */
  ghost function Accepted(c: ElbusClient, b: Box, frame: Frame): Box {
    b.(queue := (if Full(c, b) then b.queue[1..] else b.queue) + [frame], accepted := b.accepted + [frame])
  }

  ghost function Closed(b: Box): Box { b.(closed := true) }

  ghost function Credit(w: World, c: ElbusClient, len: nat): World { WithBox(w, c, Credited(BoxAt(w, c), len)) }

  ghost function CountIn(w: World, c: ElbusClient, len: nat): World {
    var e := WithBox(w, c, Received(BoxAt(w, c), len));
    e.(tally := w.tally.(rFrames := w.tally.rFrames + 1, rBytes := w.tally.rBytes + len))
  }

  ghost function CountOut(w: World, n: nat, len: nat): World {
    w.(tally := w.tally.(wFrames := w.tally.wFrames + n, wBytes := w.tally.wBytes + Volume(n, len)))
  }

  /** The bytes of `n` copies. */
  function Volume(n: nat, len: nat): nat { n * len }

  ghost function Left(w: World, c: ElbusClient): World {
    w.(db := if Wf(w.db) && c in w.db.secondaries then Drop(w.db, c) else w.db)
  }

  ghost function Shut(w: World, c: ElbusClient): World { WithBox(w, c, Closed(BoxAt(w, c))) }

  /** The clients with at least one subscription that `covers` accepts. */
  ghost function Subscribers(db: Db, covers: Name -> bool): set<ElbusClient> {
    set n | n in db.subscriptions && (exists t :: t in db.subscriptions[n].topics && covers(t))
         :: db.subscriptions[n].client
  }

  /** The clients registered under a name that `matches` accepts. */
  ghost function Audience(db: Db, matches: Name -> bool): set<ElbusClient> {
    set n | n in db.broadcasts && matches(n) :: db.broadcasts[n]
  }

  ghost function Listeners(w: World, env: Env): set<ElbusClient> { Subscribers(w.db, env.listens) }

  function Among(order: seq<ElbusClient>, subs: set<ElbusClient>): seq<ElbusClient> {
    if order == [] then []
    else (if order[0] in subs then [order[0]] else []) + Among(order[1..], subs)
  }

  // ----- the operations on values

  /** `thrown`: the clients thrown out on the way. */
  datatype Step = Step(w: World, r: Sent, thrown: set<ElbusClient>)

  /** `safe_send_frame!`. */
  ghost function Offer(w: World, c: ElbusClient, job: Job, env: Env): Step
    decreases if Own(job, env) then 0 else 1, 0, 1
  {
    var b := BoxAt(w, c);
    if Overrun(c, b) then Throw(w, c, job, env)
    else if b.closed then Step(w, QueueClosed, {})
    else if Full(c, b) && c in env.stalled then Step(w, if job.deadline then TimedOut else Never, {})
    else Step(WithBox(w, c, Accepted(c, b, job.frame)), Delivered, {})
  }

  /** The client is unregistered, which is announced if it is a primary, and its queue is closed. */
  ghost function Throw(w: World, c: ElbusClient, job: Job, env: Env): Step
    decreases if Own(job, env) then 0 else 1, 0, 0
  {
    var left := Left(w, c);
    if !c.primary || env.core.None? then Step(Shut(left, c), Evicted, {c})
    else if Own(job, env) then Step(left, Never, {c})
    else
      var a := Announce(left, c.name, env);
      if a.r.Never? then Step(a.w, Never, {c} + a.thrown) else Step(Shut(a.w, c), Evicted, {c} + a.thrown)
  }

  ghost function Announce(w: World, name: Name, env: Env): Step
    requires env.core.Some?
    decreases 0, |FanOrder(CountIn(w, env.core.value, NoticeJob(name, env).len), Listeners(w, env), env)|, 3
  {
    var job := NoticeJob(name, env);
    FanOut(CountIn(w, env.core.value, job.len), Listeners(w, env), job, env)
  }

  ghost function FanOrder(w: World, subs: set<ElbusClient>, env: Env): seq<ElbusClient> {
    Among(env.rank(w.tally.rFrames), subs)
  }

  ghost function FanOut(w: World, subs: set<ElbusClient>, job: Job, env: Env): Step
    decreases if Own(job, env) then 0 else 1, |FanOrder(w, subs, env)|, 2
  {
    if subs == {} then Step(w, Delivered, {})
    else Loop(CountOut(w, |subs|, job.len), FanOrder(w, subs, env), job, env)
  }

  ghost function Turn(w: World, c: ElbusClient, job: Job, env: Env): Step
    decreases if Own(job, env) then 0 else 1, 0, 2
  {
    Offer(Credit(w, c, job.len), c, job, env)
  }

  ghost function Loop(w: World, subs: seq<ElbusClient>, job: Job, env: Env): Step
    decreases if Own(job, env) then 0 else 1, |subs|, 1
  {
    if subs == [] then Step(w, Delivered, {})
    else
      var s := Turn(w, subs[0], job, env);
      if s.r.Halts() then s
      else
        var rest := Loop(s.w, subs[1..], job, env);
        rest.(thrown := s.thrown + rest.thrown)
  }

  // ----- what every delivery keeps

  /** The queue is within its bound and holds the frames accepted last, in order. */
  ghost predicate BoxOk(c: ElbusClient, b: Box) {
    |b.queue| <= c.capacity && |b.queue| <= |b.accepted| && b.queue == b.accepted[|b.accepted| - |b.queue|..]
  }

  ghost predicate AllOk(bs: Boxes) { forall c :: c in bs ==> BoxOk(c, bs[c]) }

  ghost predicate Sound(w: World) {
    Consistent(w.db) && w.boxes.Keys == w.db.secondaries.Keys && AllOk(w.boxes)
  }

  /** A client that holds its name, if anybody does. */
  ghost predicate Holds(w: World, c: ElbusClient) {
    c in w.boxes && (c.name in w.db.clients ==> w.db.clients[c.name] == c)
  }

  ghost predicate AllHold(w: World, cs: seq<ElbusClient>) { forall i :: 0 <= i < |cs| ==> Holds(w, cs[i]) }

  predicate Distinct(cs: seq<ElbusClient>) { forall i, j :: 0 <= i < j < |cs| ==> cs[i] != cs[j] }

  ghost predicate Lists(order: seq<ElbusClient>, subs: set<ElbusClient>) {
    (forall i :: 0 <= i < |order| ==> order[i] in subs) && forall c :: c in subs ==> c in order
  }

  /** The broker's client is one of the clients, and every order of visits has room for every client. */
  ghost predicate EnvOk(w: World, env: Env) {
    && (env.core.Some? ==> env.core.value in w.boxes && env.core.value.kind == Internal)
    && forall n: nat :: Distinct(env.rank(n)) && forall c :: c in w.boxes ==> c in env.rank(n)
  }

  /** From `a` to `e` clients only leave, and take their subscriptions along. */
  ghost predicate Shrinks(a: World, e: World) {
    && e.boxes.Keys == a.boxes.Keys
    && (forall n :: n in e.db.clients ==> n in a.db.clients && e.db.clients[n] == a.db.clients[n])
    && (forall n :: n in e.db.subscriptions ==>
          n in a.db.subscriptions && e.db.subscriptions[n] == a.db.subscriptions[n])
  }

  ghost function Names(cs: set<ElbusClient>): set<Name> { set c | c in cs :: c.name }

  /** The registered clients that leave with `names`: those named, and what is registered under them. */
  ghost function Departed(clients: Clients, names: set<Name>): set<Name> {
    set n | n in clients && (n in names || clients[n].primaryName in names)
  }

  /** What a step keeps: the world stays sound, and exactly the families of those thrown out have left. */
  ghost predicate Kept(w: World, s: Step) {
    && Sound(s.w) && Shrinks(w, s.w) && s.thrown <= w.boxes.Keys
    && s.w.db.clients == w.db.clients - Departed(w.db.clients, Names(s.thrown))
  }

  lemma {:induction false} AmongFrom(order: seq<ElbusClient>, subs: set<ElbusClient>, i: nat)
    requires i < |Among(order, subs)|
    ensures Among(order, subs)[i] in order && Among(order, subs)[i] in subs
    decreases |order|
  {
    var rest := Among(order[1..], subs);
    if order[0] !in subs {
      assert Among(order, subs) == rest;
      AmongFrom(order[1..], subs, i);
    } else if i > 0 {
      assert Among(order, subs)[i] == rest[i - 1];
      AmongFrom(order[1..], subs, i - 1);
    }
  }

  lemma {:induction false} AmongHas(order: seq<ElbusClient>, subs: set<ElbusClient>, c: ElbusClient)
    requires c in order && c in subs
    ensures c in Among(order, subs)
    decreases |order|
  {
    if order[0] != c {
      AmongHas(order[1..], subs, c);
    }
  }

  lemma {:induction false} AmongDistinct(order: seq<ElbusClient>, subs: set<ElbusClient>)
    requires Distinct(order)
    ensures Distinct(Among(order, subs))
    decreases |order|
  {
    if order != [] {
      var c, rest := order[0], Among(order[1..], subs);
      assert c !in order[1..];
      AmongDistinct(order[1..], subs);
      forall i | 0 <= i < |rest| ensures rest[i] != c {
        AmongFrom(order[1..], subs, i);
      }
    }
  }

  lemma FanOrderLists(w: World, subs: set<ElbusClient>, env: Env)
    requires EnvOk(w, env) && subs <= w.boxes.Keys
    ensures Distinct(FanOrder(w, subs, env)) && Lists(FanOrder(w, subs, env), subs)
  {
    var order := env.rank(w.tally.rFrames);
    assert Distinct(env.rank(w.tally.rFrames));
    AmongDistinct(order, subs);
    forall i | 0 <= i < |Among(order, subs)| ensures Among(order, subs)[i] in subs { AmongFrom(order, subs, i); }
    forall c | c in subs ensures c in Among(order, subs) { AmongHas(order, subs, c); }
  }

  lemma DepartedTwice(clients: Clients, a: set<Name>, b: set<Name>)
    ensures var left := clients - Departed(clients, a);
            left - Departed(left, b) == clients - Departed(clients, a + b)
  {}

  lemma NobodyDeparts(clients: Clients)
    ensures clients - Departed(clients, {}) == clients
  {}

  /** A step that leaves the registry alone. */
  lemma KeptInPlace(w: World, e: World, r: Sent)
    requires Sound(w) && e.db == w.db && e.boxes.Keys == w.boxes.Keys && AllOk(e.boxes)
    ensures Kept(w, Step(e, r, {}))
  {
    assert Names({}) == {};
    NobodyDeparts(w.db.clients);
  }

  lemma KeptThen(w: World, s: Step, t: Step)
    requires Kept(w, s) && Kept(s.w, t)
    ensures Kept(w, t.(thrown := s.thrown + t.thrown))
  {
    assert Names(s.thrown + t.thrown) == Names(s.thrown) + Names(t.thrown);
    DepartedTwice(w.db.clients, Names(s.thrown), Names(t.thrown));
  }

  lemma HoldsStill(w: World, e: World, c: ElbusClient)
    requires Shrinks(w, e) && Holds(w, c)
    ensures Holds(e, c)
  {}

  /** A drop of a client that holds its name is safe and removes exactly its family. */
  lemma LeftKeeps(w: World, c: ElbusClient)
    requires Sound(w) && Holds(w, c)
    ensures Kept(w, Step(Left(w, c), Evicted, {c}))
    ensures Left(w, c).db == Drop(w.db, c) && c.name !in Left(w, c).db.clients
  {
    hide AllOk;
    OwnDropKeeps(w.db, c);
    assert Wf(w.db);
    hide Consistent, Wf, Drop;
    assert Names({c}) == {c.name};
    FamilyDeparts(w.db.clients, c.name);
  }

  lemma OwnDropKeeps(db: Db, c: ElbusClient)
    requires Consistent(db) && c in db.secondaries && OwnDrop(db, c)
    ensures var gone := {c.name} + SecondariesOf(db.clients, c.name);
            && Consistent(Drop(db, c)) && Drop(db, c).secondaries.Keys == db.secondaries.Keys
            && Drop(db, c).clients == db.clients - gone && Drop(db, c).subscriptions == db.subscriptions - gone
  {
    DropSparesOthersIff(db, c);
    DropFamily(db, c);
    DropKeepsConsistentIff(db, c);
    DropKeepsWf(db, c);
  }

  lemma FamilyDeparts(clients: Clients, n: Name)
    ensures clients - ({n} + SecondariesOf(clients, n)) == clients - Departed(clients, {n})
  {}

  lemma SubscribersHold(w: World, covers: Name -> bool, matches: Name -> bool)
    requires Sound(w)
    ensures forall c :: c in Subscribers(w.db, covers) ==> Holds(w, c) && Registered(w.db.clients, c)
    ensures forall c :: c in Audience(w.db, matches) ==> Holds(w, c) && Registered(w.db.clients, c)
  {
    hide AllOk;
  }

  lemma OneBox(w: World, c: ElbusClient, b: Box, r: Sent)
    requires Sound(w) && (c in w.boxes ==> BoxOk(c, b))
    ensures Kept(w, Step(WithBox(w, c, b), r, {}))
  {
    KeptInPlace(w, WithBox(w, c, b), r);
  }

  lemma CreditKeeps(w: World, c: ElbusClient, len: nat)
    requires Sound(w)
    ensures Kept(w, Step(Credit(w, c, len), Delivered, {}))
  {
    OneBox(w, c, Credited(BoxAt(w, c), len), Delivered);
  }

  lemma OfferKeeps(w: World, c: ElbusClient, job: Job, env: Env)
    requires Sound(w) && Holds(w, c) && EnvOk(w, env)
    ensures Kept(w, Offer(w, c, job, env))
    decreases if Own(job, env) then 0 else 1, 0, 1
  {
    var b := BoxAt(w, c);
    if Overrun(c, b) {
      ThrowKeeps(w, c, job, env);
    } else if b.closed || (Full(c, b) && c in env.stalled) {
      KeptInPlace(w, w, Offer(w, c, job, env).r);
    } else {
      assert BoxOk(c, Accepted(c, b, job.frame));
      OneBox(w, c, Accepted(c, b, job.frame), Delivered);
    }
  }

  lemma ThrowKeeps(w: World, c: ElbusClient, job: Job, env: Env)
    requires Sound(w) && Holds(w, c) && EnvOk(w, env)
    ensures Kept(w, Throw(w, c, job, env))
    decreases if Own(job, env) then 0 else 1, 0, 0
  {
    hide Consistent, AllOk, Drop;
    var left := Left(w, c);
    LeftKeeps(w, c);
    if !c.primary || env.core.None? {
      ShutKeeps(left, c);
      KeptThen(w, Step(left, Evicted, {c}), Step(Shut(left, c), Evicted, {}));
      assert {c} + {} == {c};
    } else if !Own(job, env) {
      var a := Announce(left, c.name, env);
      AnnounceKeeps(left, c.name, env);
      KeptThen(w, Step(left, Evicted, {c}), a);
      if !a.r.Never? {
        ShutKeeps(a.w, c);
        KeptThen(w, a.(thrown := {c} + a.thrown), Step(Shut(a.w, c), Evicted, {}));
        assert {c} + a.thrown + {} == {c} + a.thrown;
      }
    }
  }

  lemma ShutKeeps(w: World, c: ElbusClient)
    requires Sound(w)
    ensures Kept(w, Step(Shut(w, c), Evicted, {}))
  {
    OneBox(w, c, Closed(BoxAt(w, c)), Evicted);
  }

  lemma AnnounceKeeps(w: World, name: Name, env: Env)
    requires Sound(w) && EnvOk(w, env) && env.core.Some?
    ensures Kept(w, Announce(w, name, env))
    decreases 0, |FanOrder(CountIn(w, env.core.value, NoticeJob(name, env).len), Listeners(w, env), env)|, 3
  {
    hide Consistent, AllOk, FanOut;
    var job := NoticeJob(name, env);
    var e := CountIn(w, env.core.value, job.len);
    CountInKeeps(w, env.core.value, job.len);
    SubscribersHold(e, env.listens, _ => false);
    FanOutKeeps(e, Listeners(w, env), job, env);
    KeptThen(w, Step(e, Delivered, {}), FanOut(e, Listeners(w, env), job, env));
    assert {} + FanOut(e, Listeners(w, env), job, env).thrown == FanOut(e, Listeners(w, env), job, env).thrown;
  }

  lemma CountInKeeps(w: World, c: ElbusClient, len: nat)
    requires Sound(w)
    ensures Kept(w, Step(CountIn(w, c, len), Delivered, {}))
  {
    hide Consistent;
    assert c in w.boxes ==> BoxOk(c, Received(BoxAt(w, c), len));
    KeptInPlace(w, CountIn(w, c, len), Delivered);
  }

  lemma CountOutKeeps(w: World, n: nat, len: nat)
    requires Sound(w)
    ensures Kept(w, Step(CountOut(w, n, len), Delivered, {}))
  {
    KeptInPlace(w, CountOut(w, n, len), Delivered);
  }

  lemma FanOutKeeps(w: World, subs: set<ElbusClient>, job: Job, env: Env)
    requires Sound(w) && EnvOk(w, env) && forall c :: c in subs ==> Holds(w, c)
    ensures Kept(w, FanOut(w, subs, job, env))
    decreases if Own(job, env) then 0 else 1, |FanOrder(w, subs, env)|, 2
  {
    hide Consistent, AllOk;
    var e := CountOut(w, |subs|, job.len);
    KeptInPlace(w, w, Delivered);
    if subs != {} {
      var order := FanOrder(w, subs, env);
      FanOrderLists(w, subs, env);
      forall i | 0 <= i < |order| ensures Holds(e, order[i]) {
        assert order[i] in subs && Holds(w, order[i]);
      }
      LoopKeeps(e, order, job, env);
    }
  }

  lemma TurnKeeps(w: World, c: ElbusClient, job: Job, env: Env)
    requires Sound(w) && Holds(w, c) && EnvOk(w, env)
    ensures Kept(w, Turn(w, c, job, env))
    decreases if Own(job, env) then 0 else 1, 0, 2
  {
    hide Consistent, AllOk, Offer;
    var e := Credit(w, c, job.len);
    CreditKeeps(w, c, job.len);
    OfferKeeps(e, c, job, env);
    KeptThen(w, Step(e, Delivered, {}), Offer(e, c, job, env));
    assert {} + Offer(e, c, job, env).thrown == Offer(e, c, job, env).thrown;
  }

  lemma {:induction false} LoopKeeps(w: World, subs: seq<ElbusClient>, job: Job, env: Env)
    requires Sound(w) && EnvOk(w, env) && AllHold(w, subs)
    ensures Kept(w, Loop(w, subs, job, env))
    decreases if Own(job, env) then 0 else 1, |subs|, 1
  {
    hide Consistent, AllOk, Turn;
    if subs == [] {
      KeptInPlace(w, w, Delivered);
    } else {
      var s := Turn(w, subs[0], job, env);
      TurnKeeps(w, subs[0], job, env);
      if !s.r.Halts() {
        assert AllHold(s.w, subs[1..]);
        LoopKeeps(s.w, subs[1..], job, env);
        KeptThen(w, s, Loop(s.w, subs[1..], job, env));
      }
    }
  }

  // ----- one turn, client by client

  /** What becomes of a frame offered to `c` in state `b` when no announcement comes of it. */
  ghost function Fate(c: ElbusClient, b: Box, job: Job, env: Env): Sent {
    if Overrun(c, b) then if c.primary && env.core.Some? && Own(job, env) then Never else Evicted
    else if b.closed then QueueClosed
    else if Full(c, b) && c in env.stalled then if job.deadline then TimedOut else Never
    else Delivered
  }

  /** How that leaves `c`: credited, and with one copy more, or closed, or as it was. */
  ghost function Served(c: ElbusClient, b: Box, job: Job, env: Env): Box {
    var e := Credited(b, job.len);
    match Fate(c, b, job, env)
    case Delivered => Accepted(c, e, job.frame)
    case Evicted => Closed(e)
    case _ => e
  }

  /** The turn of `c` ends in an announcement: it is a primary that does not keep up. */
  ghost predicate Announced(w: World, c: ElbusClient, job: Job, env: Env) {
    Overrun(c, BoxAt(w, c)) && c.primary && env.core.Some? && !Own(job, env)
  }

  lemma PlainTurn(w: World, c: ElbusClient, job: Job, env: Env)
    requires c in w.boxes && !Announced(w, c, job, env)
    ensures var s := Turn(w, c, job, env);
            && s.r == Fate(c, BoxAt(w, c), job, env) && s.w.tally == w.tally
            && s.w.boxes == w.boxes[c := Served(c, BoxAt(w, c), job, env)]
            && s.thrown == if Overrun(c, BoxAt(w, c)) then {c} else {}
  {
    var e, s := Credit(w, c, job.len), Turn(w, c, job, env);
    assert BoxAt(e, c) == Credited(BoxAt(w, c), job.len);
    assert s == Offer(e, c, job, env);
    assert w.boxes[c := BoxAt(e, c)][c := BoxAt(s.w, c)] == w.boxes[c := BoxAt(s.w, c)];
  }

  /** The broker's own client: nothing it sends is announced in turn, so each of its subscribers meets the fate its own
      state spells. */
  lemma {:induction false} OwnLoop(w: World, subs: seq<ElbusClient>, job: Job, env: Env)
    requires Own(job, env) && Distinct(subs) && forall i :: 0 <= i < |subs| ==> subs[i] in w.boxes
    ensures var s := Loop(w, subs, job, env);
            && s.w.boxes.Keys == w.boxes.Keys && s.w.tally == w.tally
            && (s.r.Halts() <==> exists c :: c in subs && Fate(c, BoxAt(w, c), job, env).Halts())
            && (!s.r.Halts() ==>
                  && s.thrown == (set c | c in subs && Overrun(c, BoxAt(w, c)))
                  && forall x :: x in w.boxes ==>
                       BoxAt(s.w, x) == if x in subs then Served(x, BoxAt(w, x), job, env) else BoxAt(w, x))
    decreases |subs|
  {
    hide Fate, Served, Turn;
    if subs != [] {
      var c, rest := subs[0], subs[1..];
      PlainTurn(w, c, job, env);
      var s := Turn(w, c, job, env);
      if !s.r.Halts() {
        OwnLoop(s.w, rest, job, env);
        assert c !in rest;
        assert subs == [c] + rest;
        assert forall x :: x in rest ==> BoxAt(s.w, x) == BoxAt(w, x);
      }
    }
  }

  /** A listener that an announcement cannot get past: an external primary that does not keep up, or an internal client
      whose full queue nobody empties. */
  ghost predicate Blocking(x: ElbusClient, b: Box, env: Env) {
    if Overrun(x, b) then x.primary else !b.closed && Full(x, b) && x in env.stalled
  }

  /** The box of `x` once the sender's traffic has been counted. */
  ghost function Counted(w: World, x: ElbusClient, sender: ElbusClient, len: nat): Box {
    if x == sender then Received(BoxAt(w, x), len) else BoxAt(w, x)
  }

  /** An announcement never returns exactly when a listener blocks it; otherwise every listener is served, and nobody
      else is touched but the broker's own client, whose traffic is counted. */
  lemma AnnounceAccount(w: World, name: Name, env: Env)
    requires Sound(w) && EnvOk(w, env) && env.core.Some?
    ensures var a := Announce(w, name, env);
            var job := NoticeJob(name, env);
            && (a.r.Halts() <==> a.r.Never?)
            && (a.r.Never? <==> exists x :: x in Listeners(w, env) && Blocking(x, BoxAt(w, x), env))
            && (!a.r.Never? ==>
                  && a.thrown == (set x | x in Listeners(w, env) && Overrun(x, BoxAt(w, x)))
                  && forall x :: x in w.boxes ==>
                       var b := Counted(w, x, env.core.value, job.len);
                       BoxAt(a.w, x) == if x in Listeners(w, env) then Served(x, b, job, env) else b)
  {
    hide Sound, Fate, Served, Loop, FanOrder;
    var job := NoticeJob(name, env);
    var e, subs := CountIn(w, env.core.value, job.len), Listeners(w, env);
    SubscribersHold(w, env.listens, _ => false);
    var order := FanOrder(e, subs, env);
    FanOrderLists(e, subs, env);
    var o := CountOut(e, |subs|, job.len);
    OwnLoop(o, order, job, env);
    NeverOnly(o, order, job, env);
    forall x | x in w.boxes
      ensures BoxAt(o, x) == Counted(w, x, env.core.value, job.len)
      ensures Fate(x, BoxAt(o, x), job, env).Halts() <==> Blocking(x, BoxAt(w, x), env)
      ensures Overrun(x, BoxAt(o, x)) <==> Overrun(x, BoxAt(w, x))
    {
      CountingIsHarmless(x, BoxAt(w, x), job, env);
    }
  }

  lemma CountingIsHarmless(x: ElbusClient, b: Box, job: Job, env: Env)
    requires Own(job, env) && !job.deadline
    ensures Fate(x, b, job, env).Halts() <==> Blocking(x, b, env)
    ensures Fate(x, Received(b, job.len), job, env) == Fate(x, b, job, env)
    ensures Overrun(x, Received(b, job.len)) <==> Overrun(x, b)
  {}

  /** Without a deadline nothing times out. */
  lemma {:induction false} NeverOnly(w: World, subs: seq<ElbusClient>, job: Job, env: Env)
    requires Own(job, env) && !job.deadline && forall i :: 0 <= i < |subs| ==> subs[i] in w.boxes
    ensures !Loop(w, subs, job, env).r.TimedOut?
    decreases |subs|
  {
    if subs != [] {
      var s := Turn(w, subs[0], job, env);
      PlainTurn(w, subs[0], job, env);
      NeverOnly(s.w, subs[1..], job, env);
    }
  }

  /** Who hears of the departure of `c`: the listeners outside its family. */
  ghost function Hearers(w: World, c: ElbusClient, env: Env): set<ElbusClient> {
    set x | x in Listeners(w, env) && x.name != c.name && x.primaryName != c.name
  }

  lemma ListenersLeft(w: World, c: ElbusClient, env: Env)
    requires Sound(w) && Holds(w, c)
    ensures Listeners(Left(w, c), env) == Hearers(w, c, env)
  {
    hide AllOk;
    LeftKeeps(w, c);
    OwnDropKeeps(w.db, c);
    var gone, d, e := {c.name} + SecondariesOf(w.db.clients, c.name), w.db.subscriptions, Drop(w.db, c).subscriptions;
    forall n | n in d ensures n in gone <==> d[n].client.name == c.name || d[n].client.primaryName == c.name {
      assert d[n].client == w.db.clients[n] && w.db.clients[n].name == n;
    }
    assert e == d - gone;
  }

  /** Throwing out a primary: it is out and closed, and every hearer is served the notice - unless one of them blocks
      it, and then the task never returns. */
  lemma LoudThrow(w: World, c: ElbusClient, job: Job, env: Env)
    requires Sound(w) && Holds(w, c) && EnvOk(w, env) && Announced(w, c, job, env)
    ensures var s, hearers, news := Throw(w, c, job, env), Hearers(w, c, env), NoticeJob(c.name, env);
            && s.r == (if exists x :: x in hearers && Blocking(x, BoxAt(w, x), env) then Never else Evicted)
            && (s.r.Evicted? ==>
                  && s.thrown == {c} + (set x | x in hearers && Overrun(x, BoxAt(w, x)))
                  && BoxAt(s.w, c) == Closed(BoxAt(w, c))
                  && forall x :: x in w.boxes && x != c ==>
                       var b := Counted(w, x, env.core.value, news.len);
                       BoxAt(s.w, x) == if x in hearers then Served(x, b, news, env) else b)
  {
    hide Sound, Served, Loop, FanOut, Fate, Left, AllOk;
    LeftKeeps(w, c);
    LeftBoxes(w, c);
    ListenersLeft(w, c, env);
    AnnounceAccount(Left(w, c), c.name, env);
  }

  lemma HearersCredited(w: World, c: ElbusClient, len: nat, env: Env)
    requires Sound(w)
    ensures Hearers(Credit(w, c, len), c, env) == Hearers(w, c, env) && c !in Hearers(w, c, env)
    ensures forall x :: x in Hearers(w, c, env) ==> x in w.boxes && BoxAt(Credit(w, c, len), x) == BoxAt(w, x)
  {
    hide Consistent, AllOk;
    SubscribersHold(w, env.listens, _ => false);
  }

  /** The turn of such a primary. */
  lemma LoudTurn(w: World, c: ElbusClient, job: Job, env: Env)
    requires Sound(w) && Holds(w, c) && EnvOk(w, env) && Announced(w, c, job, env)
    ensures var s, hearers, news := Turn(w, c, job, env), Hearers(w, c, env), NoticeJob(c.name, env);
            && s.r == (if exists x :: x in hearers && Blocking(x, BoxAt(w, x), env) then Never else Evicted)
            && c !in hearers
            && (s.r.Evicted? ==>
                  && s.thrown == {c} + (set x | x in hearers && Overrun(x, BoxAt(w, x)))
                  && BoxAt(s.w, c) == Closed(Credited(BoxAt(w, c), job.len))
                  && forall x :: x in w.boxes && x != c ==>
                       var b := Counted(w, x, env.core.value, news.len);
                       BoxAt(s.w, x) == if x in hearers then Served(x, b, news, env) else b)
  {
    hide Sound, Served, Throw, Blocking, Hearers;
    var e := Credit(w, c, job.len);
    CreditKeeps(w, c, job.len);
    HearersCredited(w, c, job.len, env);
    assert Turn(w, c, job, env) == Offer(e, c, job, env) == Throw(e, c, job, env);
    LoudThrow(e, c, job, env);
    assert forall x :: x in Hearers(w, c, env) ==> (Blocking(x, BoxAt(e, x), env) <==> Blocking(x, BoxAt(w, x), env));
  }

  lemma LeftBoxes(w: World, c: ElbusClient)
    ensures Left(w, c).boxes == w.boxes && Left(w, c).tally == w.tally
  {}

  // ----- when a task never returns

  /** A turn from which the task never comes back: nobody makes room and there is no deadline; or a primary has to be
      thrown out, and the announcement of it needs a lock that is taken, or meets a listener that blocks it. */
  ghost predicate Hangs(w: World, c: ElbusClient, job: Job, env: Env) {
    var b := BoxAt(w, c);
    if Overrun(c, b) then
      && c.primary && env.core.Some?
      && (Own(job, env) || exists x :: x in Hearers(w, c, env) && Blocking(x, BoxAt(w, x), env))
    else !b.closed && Full(c, b) && c in env.stalled && !job.deadline
  }

  lemma TurnHangsIff(w: World, c: ElbusClient, job: Job, env: Env)
    requires Sound(w) && Holds(w, c) && EnvOk(w, env)
    ensures Turn(w, c, job, env).r.Never? <==> Hangs(w, c, job, env)
  {
    hide Sound;
    if Announced(w, c, job, env) {
      LoudTurn(w, c, job, env);
    } else {
      PlainTurn(w, c, job, env);
    }
  }

  lemma {:induction false} LoopSplit(w: World, a: seq<ElbusClient>, b: seq<ElbusClient>, job: Job, env: Env)
    ensures var s := Loop(w, a, job, env);
            var t := Loop(s.w, b, job, env);
            Loop(w, a + b, job, env) == if s.r.Halts() then s else t.(thrown := s.thrown + t.thrown)
    decreases |a|
  {
    hide Turn;
    if a == [] {
      assert a + b == b;
      assert Loop(w, a, job, env).thrown + Loop(w, b, job, env).thrown == Loop(w, b, job, env).thrown;
    } else {
      assert (a + b)[1..] == a[1..] + b && (a + b)[0] == a[0];
      var s := Turn(w, a[0], job, env);
      if !s.r.Halts() {
        LoopSplit(s.w, a[1..], b, job, env);
        var m := Loop(s.w, a[1..], job, env);
        var t := Loop(m.w, b, job, env);
        assert s.thrown + (m.thrown + t.thrown) == s.thrown + m.thrown + t.thrown;
      }
    }
  }

  /** Where a fan-out stands when the turn of its i-th subscriber comes. */
  ghost function Before(w: World, subs: seq<ElbusClient>, i: nat, job: Job, env: Env): Step
    requires i <= |subs|
  {
    Loop(w, subs[..i], job, env)
  }

  /** A fan-out never returns exactly when it comes to a subscriber whose turn hangs as things stand then. */
  lemma {:induction false} LoopHangsIff(w: World, subs: seq<ElbusClient>, job: Job, env: Env)
    requires Sound(w) && EnvOk(w, env) && AllHold(w, subs)
    ensures Loop(w, subs, job, env).r.Never? <==>
              exists i :: 0 <= i < |subs| && !Before(w, subs, i, job, env).r.Halts() &&
                          Hangs(Before(w, subs, i, job, env).w, subs[i], job, env)
    decreases |subs|
  {
    hide Sound, Turn, Hangs;
    if subs != [] {
      var k := |subs| - 1;
      var front, c := subs[..k], subs[k];
      LoopHangsIff(w, front, job, env);
      assert forall i :: 0 <= i < k ==> front[..i] == subs[..i] && front[i] == subs[i];
      assert forall i :: 0 <= i < k ==> Before(w, front, i, job, env) == Before(w, subs, i, job, env);
      assert subs == front + [c];
      LoopSplit(w, front, [c], job, env);
      LoopKeeps(w, front, job, env);
      var s := Loop(w, front, job, env);
      assert s == Before(w, subs, k, job, env);
      HoldsStill(w, s.w, c);
      TurnHangsIff(s.w, c, job, env);
      LoopOne(s.w, c, job, env);
    }
  }

  lemma LoopOne(w: World, c: ElbusClient, job: Job, env: Env)
    ensures var l, s := Loop(w, [c], job, env), Turn(w, c, job, env);
            l.w == s.w && l.thrown == s.thrown && l.r == if s.r.Halts() then s.r else Delivered
  {
    hide Turn;
    var s := Turn(w, c, job, env);
    assert [c][1..] == [];
    assert Loop(s.w, [], job, env) == Step(s.w, Delivered, {});
  }

  /** The same for the macros, which visit a set of subscribers in some order. */
  lemma FanOutHangsIff(w: World, subs: set<ElbusClient>, job: Job, env: Env)
    requires Sound(w) && EnvOk(w, env) && forall c :: c in subs ==> Holds(w, c)
    ensures var e, order := CountOut(w, |subs|, job.len), FanOrder(w, subs, env);
            FanOut(w, subs, job, env).r.Never? <==>
              exists i :: 0 <= i < |order| && !Before(e, order, i, job, env).r.Halts() &&
                          Hangs(Before(e, order, i, job, env).w, order[i], job, env)
  {
    hide Sound, Loop, Hangs, FanOrder;
    var e, order := CountOut(w, |subs|, job.len), FanOrder(w, subs, env);
    FanOrderLists(w, subs, env);
    CountOutKeeps(w, |subs|, job.len);
    assert AllHold(e, order);
    LoopHangsIff(e, order, job, env);
    assert order != [] ==> order[0] in subs;
  }

  lemma NextTurn(w: World, subs: seq<ElbusClient>, i: nat, job: Job, env: Env)
    requires i < |subs| && !Before(w, subs, i, job, env).r.Halts()
    ensures var s, e := Turn(Before(w, subs, i, job, env).w, subs[i], job, env), Before(w, subs, i + 1, job, env);
            e.w == s.w && e.r == if s.r.Halts() then s.r else Delivered
  {
    hide Turn, Loop;
    assert subs[..i + 1] == subs[..i] + [subs[i]];
    LoopSplit(w, subs[..i], [subs[i]], job, env);
    LoopOne(Before(w, subs, i, job, env).w, subs[i], job, env);
  }

  lemma HaltedThere(w: World, subs: seq<ElbusClient>, i: nat, job: Job, env: Env)
    requires i <= |subs| && Before(w, subs, i, job, env).r.Halts()
    ensures Loop(w, subs, job, env) == Before(w, subs, i, job, env)
  {
    hide Loop;
    assert subs == subs[..i] + subs[i..];
    LoopSplit(w, subs[..i], subs[i..], job, env);
  }

  /** A turn that ends with the sender's deadline: an internal client, its queue open and full, and nobody makes room.
      */
  ghost predicate Expires(w: World, c: ElbusClient, job: Job, env: Env) {
    var b := BoxAt(w, c);
    c.kind == Internal && |b.queue| >= c.capacity && !b.closed && c in env.stalled && job.deadline
  }

  lemma TurnExpiresIff(w: World, c: ElbusClient, job: Job, env: Env)
    requires Sound(w) && Holds(w, c) && EnvOk(w, env)
    ensures Turn(w, c, job, env).r.TimedOut? <==> Expires(w, c, job, env)
  {
    hide Sound;
    if Announced(w, c, job, env) {
      LoudTurn(w, c, job, env);
    } else {
      PlainTurn(w, c, job, env);
    }
  }

  /** A deadline that passes ends the whole fan-out: it is over exactly when it comes to such a client, and nobody after
      that client is served. */
  lemma LoopExpiresIff(w: World, subs: seq<ElbusClient>, job: Job, env: Env)
    requires Sound(w) && EnvOk(w, env) && AllHold(w, subs)
    ensures Loop(w, subs, job, env).r.TimedOut? <==>
              exists i :: 0 <= i < |subs| && ExpiresAt(w, subs, i, job, env)
    ensures forall i :: 0 <= i < |subs| && ExpiresAt(w, subs, i, job, env) ==>
              Loop(w, subs, job, env).w == Turn(Before(w, subs, i, job, env).w, subs[i], job, env).w
    decreases |subs|
  {
    hide Sound, Turn, Loop;
    forall i | 0 <= i < |subs| && ExpiresAt(w, subs, i, job, env)
      ensures Loop(w, subs, job, env).r.TimedOut?
      ensures Loop(w, subs, job, env).w == Turn(Before(w, subs, i, job, env).w, subs[i], job, env).w
    {
      BeforeHolds(w, subs, i, job, env);
      TurnExpiresIff(Before(w, subs, i, job, env).w, subs[i], job, env);
      NextTurn(w, subs, i, job, env);
      HaltedThere(w, subs, i + 1, job, env);
    }
    if Loop(w, subs, job, env).r.TimedOut? {
      assert subs[..|subs|] == subs;
      var i := ExpiredSomewhere(w, subs, |subs|, job, env);
    }
  }

  ghost predicate ExpiresAt(w: World, subs: seq<ElbusClient>, i: nat, job: Job, env: Env)
    requires i < |subs|
  {
    !Before(w, subs, i, job, env).r.Halts() && Expires(Before(w, subs, i, job, env).w, subs[i], job, env)
  }

  lemma BeforeHolds(w: World, subs: seq<ElbusClient>, i: nat, job: Job, env: Env)
    requires Sound(w) && EnvOk(w, env) && AllHold(w, subs) && i < |subs|
    ensures var e := Before(w, subs, i, job, env).w; Sound(e) && EnvOk(e, env) && Holds(e, subs[i])
  {
    hide Sound, Loop;
    assert AllHold(w, subs[..i]);
    LoopKeeps(w, subs[..i], job, env);
    HoldsStill(w, Before(w, subs, i, job, env).w, subs[i]);
  }

  lemma {:induction false} ExpiredSomewhere(w: World, subs: seq<ElbusClient>, n: nat, job: Job, env: Env)
      returns (i: nat)
    requires Sound(w) && EnvOk(w, env) && AllHold(w, subs) && n <= |subs|
    requires Before(w, subs, n, job, env).r.TimedOut?
    ensures i < |subs| && ExpiresAt(w, subs, i, job, env)
  {
    hide Sound, Turn;
    assert n > 0;
    var before := Before(w, subs, n - 1, job, env);
    if before.r.Halts() {
      assert subs[..n][..n - 1] == subs[..n - 1];
      HaltedThere(w, subs[..n], n - 1, job, env);
      i := ExpiredSomewhere(w, subs, n - 1, job, env);
    } else {
      BeforeHolds(w, subs, n - 1, job, env);
      NextTurn(w, subs, n - 1, job, env);
      TurnExpiresIff(before.w, subs[n - 1], job, env);
      i := n - 1;
    }
  }

  /** Room enough to be safe: every external primary that listens can take as many frames as there are subscribers. */
  ghost predicate Roomy(w: World, n: nat, env: Env) {
    forall x :: x in Listeners(w, env) && x.kind != Internal && x.primary ==> |BoxAt(w, x).queue| + n <= x.capacity
  }

  /** A turn puts at most one frame on any queue. */
  lemma TurnGrows(w: World, c: ElbusClient, job: Job, env: Env, x: ElbusClient)
    requires Sound(w) && Holds(w, c) && EnvOk(w, env) && x in w.boxes && !Turn(w, c, job, env).r.Never?
    ensures |BoxAt(Turn(w, c, job, env).w, x).queue| <= |BoxAt(w, x).queue| + 1
  {
    hide Sound, Turn;
    if Announced(w, c, job, env) {
      LoudTurn(w, c, job, env);
    } else {
      PlainTurn(w, c, job, env);
    }
  }

  /** With that much room, and no receiver stalled, a fan-out of an ordinary client returns whatever the order. */
  lemma {:induction false} RoomyReturns(w: World, subs: seq<ElbusClient>, job: Job, env: Env)
    requires Sound(w) && EnvOk(w, env) && AllHold(w, subs) && env.stalled == {} && !Own(job, env)
    requires Roomy(w, |subs|, env)
    ensures !Loop(w, subs, job, env).r.Halts()
    decreases |subs|
  {
    hide Sound, Turn;
    if subs != [] {
      var c := subs[0];
      var s := Turn(w, c, job, env);
      TurnHangsIff(w, c, job, env);
      NoDeadlineNeeded(w, c, job, env);
      TurnKeeps(w, c, job, env);
      forall x | x in Listeners(s.w, env) && x.kind != Internal && x.primary
        ensures |BoxAt(s.w, x).queue| + (|subs| - 1) <= x.capacity
      {
        assert Shrinks(w, s.w) && x in Listeners(w, env);
        SubscribersHold(w, env.listens, _ => false);
        TurnGrows(w, c, job, env, x);
      }
      assert AllHold(s.w, subs[1..]);
      RoomyReturns(s.w, subs[1..], job, env);
    }
  }

  lemma NoDeadlineNeeded(w: World, c: ElbusClient, job: Job, env: Env)
    requires Sound(w) && Holds(w, c) && EnvOk(w, env) && env.stalled == {}
    ensures !Turn(w, c, job, env).r.TimedOut?
  {
    hide Sound, Turn;
    if Announced(w, c, job, env) {
      LoudTurn(w, c, job, env);
    } else {
      PlainTurn(w, c, job, env);
    }
  }

  // ----- who gets what

  /** The notice that reaches `x` from the turn of another client. */
  ghost function TurnNews(w: World, c: ElbusClient, job: Job, env: Env, x: ElbusClient): seq<Frame> {
    if Announced(w, c, job, env) && x in Hearers(w, c, env)
        && Fate(x, BoxAt(w, x), NoticeJob(c.name, env), env).Delivered?
    then [NoticeJob(c.name, env).frame]
    else []
  }

  /** The notices that reach `x` in the course of a fan-out: one for each primary thrown out while `x` listens and has
      room. */
  ghost function News(w: World, subs: seq<ElbusClient>, job: Job, env: Env, x: ElbusClient): seq<Frame>
    decreases |subs|
  {
    if subs == [] then []
    else TurnNews(w, subs[0], job, env, x) + News(Turn(w, subs[0], job, env).w, subs[1..], job, env, x)
  }

  /** What a turn may do to another client: it gets the notice or nothing, and it is closed only by being thrown out. */
  ghost predicate Aside(w: World, s: Step, x: ElbusClient, news: seq<Frame>) {
    var b, e := BoxAt(w, x), BoxAt(s.w, x);
    && e.accepted == b.accepted + news
    && (b.closed ==> e.closed && news == [] && e.queue == b.queue)
    && (x in s.thrown ==> e.closed && Overrun(x, e))
    && (e.closed ==> b.closed || x in s.thrown)
  }

  lemma TurnAside(w: World, c: ElbusClient, job: Job, env: Env, x: ElbusClient)
    requires Sound(w) && Holds(w, c) && EnvOk(w, env) && x in w.boxes && x != c && !Turn(w, c, job, env).r.Never?
    ensures Aside(w, Turn(w, c, job, env), x, TurnNews(w, c, job, env, x))
    ensures x !in Listeners(w, env) && env.core != Some(x) ==> BoxAt(Turn(w, c, job, env).w, x) == BoxAt(w, x)
  {
    hide Sound, Turn;
    if Announced(w, c, job, env) {
      LoudTurn(w, c, job, env);
    } else {
      PlainTurn(w, c, job, env);
    }
  }

  lemma AsideThen(w: World, s: Step, t: Step, x: ElbusClient, a: seq<Frame>, b: seq<Frame>)
    requires Aside(w, s, x, a) && Aside(s.w, t, x, b)
    ensures Aside(w, t.(thrown := s.thrown + t.thrown), x, a + b)
  {}

  /** A client that is not among the subscribers still to come. */
  lemma {:induction false} LoopAside(w: World, subs: seq<ElbusClient>, job: Job, env: Env, x: ElbusClient)
    requires Sound(w) && EnvOk(w, env) && AllHold(w, subs) && x in w.boxes && x !in subs
    requires !Loop(w, subs, job, env).r.Halts()
    ensures Aside(w, Loop(w, subs, job, env), x, News(w, subs, job, env, x))
    ensures x !in Listeners(w, env) && env.core != Some(x) ==> BoxAt(Loop(w, subs, job, env).w, x) == BoxAt(w, x)
    decreases |subs|
  {
    hide Sound, Turn, TurnNews;
    if subs != [] {
      var c := subs[0];
      var s := Turn(w, c, job, env);
      TurnAside(w, c, job, env, x);
      TurnKeeps(w, c, job, env);
      assert AllHold(s.w, subs[1..]);
      LoopAside(s.w, subs[1..], job, env, x);
      AsideThen(w, s, Loop(s.w, subs[1..], job, env), x,
                TurnNews(w, c, job, env, x), News(s.w, subs[1..], job, env, x));
      assert Shrinks(w, s.w) && (x in Listeners(s.w, env) ==> x in Listeners(w, env));
    }
  }

  lemma TurnOfItsOwn(w: World, c: ElbusClient, job: Job, env: Env)
    requires Sound(w) && Holds(w, c) && EnvOk(w, env) && !Turn(w, c, job, env).r.Halts()
    ensures var s, b := Turn(w, c, job, env), BoxAt(w, c);
            var e := BoxAt(s.w, c);
            && e.accepted == b.accepted + (if Overrun(c, b) || b.closed then [] else [job.frame])
            && e.wFrames == b.wFrames + 1 && e.wBytes == b.wBytes + job.len
            && (e.closed <==> b.closed || Overrun(c, b)) && (b.closed || Overrun(c, b) ==> e.queue == b.queue)
            && (c in s.thrown <==> Overrun(c, b)) && (Overrun(c, b) ==> c.name !in s.w.db.clients)
  {
    hide Sound, Turn;
    if Announced(w, c, job, env) {
      LoudTurn(w, c, job, env);
    } else {
      PlainTurn(w, c, job, env);
    }
    TurnKeeps(w, c, job, env);
    assert c in Turn(w, c, job, env).thrown ==> c.name in Names(Turn(w, c, job, env).thrown);
  }

  lemma LoopThrough(w: World, subs: seq<ElbusClient>, i: nat, job: Job, env: Env)
    requires i < |subs| && !Loop(w, subs, job, env).r.Halts()
    ensures var before := Before(w, subs, i, job, env);
            var s := Turn(before.w, subs[i], job, env);
            var after := Loop(s.w, subs[i + 1..], job, env);
            && !before.r.Halts() && !s.r.Halts() && !after.r.Halts() && after.w == Loop(w, subs, job, env).w
            && Loop(w, subs, job, env).thrown == before.thrown + (s.thrown + after.thrown)
  {
    hide Turn;
    var rest := subs[i..];
    assert subs == subs[..i] + rest && rest[1..] == subs[i + 1..];
    LoopSplit(w, subs[..i], rest, job, env);
  }

  /** What a fan-out that ran to its end did for its i-th subscriber. Before its turn it got the notices it heard. At
      its turn it got exactly one copy; or none, because its queue was closed; or none, because it is external and its
      queue was full - and then it is thrown out: unregistered and closed for good. After its turn it got the notices
      it heard then. */
  lemma EveryoneAccountedFor(w: World, subs: seq<ElbusClient>, i: nat, job: Job, env: Env)
    requires Sound(w) && EnvOk(w, env) && AllHold(w, subs) && Distinct(subs) && i < |subs|
    requires !Loop(w, subs, job, env).r.Halts()
    ensures var c, all, before := subs[i], Loop(w, subs, job, env), Before(w, subs, i, job, env).w;
            var b, e := BoxAt(before, c), BoxAt(all.w, c);
            && b.accepted == BoxAt(w, c).accepted + News(w, subs[..i], job, env, c)
            && (if Overrun(c, b) then
                  e.accepted == b.accepted && e.queue == b.queue && e.closed && c.name !in all.w.db.clients
                      && c in all.thrown
                else if b.closed then e.accepted == b.accepted && e.queue == b.queue && e.closed
                else e.accepted == b.accepted + [job.frame]
                                   + News(Turn(before, c, job, env).w, subs[i + 1..], job, env, c))
  {
    hide Sound, Turn, News;
    var c := subs[i];
    LoopThrough(w, subs, i, job, env);
    var before := Before(w, subs, i, job, env);
    assert c !in subs[..i] && c !in subs[i + 1..];
    assert AllHold(w, subs[..i]);
    LoopAside(w, subs[..i], job, env, c);
    LoopKeeps(w, subs[..i], job, env);
    assert AllHold(before.w, subs[i..]);
    TurnOfItsOwn(before.w, c, job, env);
    TurnKeeps(before.w, c, job, env);
    var s := Turn(before.w, c, job, env);
    assert AllHold(s.w, subs[i + 1..]);
    LoopAside(s.w, subs[i + 1..], job, env, c);
    LoopKeeps(s.w, subs[i + 1..], job, env);
  }

  /** And for everyone else: a client that does not listen to announcements is untouched, one that does gets the notices
      it hears. */
  lemma NobodyElse(w: World, subs: seq<ElbusClient>, job: Job, env: Env, x: ElbusClient)
    requires Sound(w) && EnvOk(w, env) && AllHold(w, subs) && x in w.boxes && x !in subs
    requires !Loop(w, subs, job, env).r.Halts()
    ensures var all := Loop(w, subs, job, env);
            && BoxAt(all.w, x).accepted == BoxAt(w, x).accepted + News(w, subs, job, env, x)
            && (x !in Listeners(w, env) && env.core != Some(x) ==> BoxAt(all.w, x) == BoxAt(w, x))
            && (x in all.thrown ==> x.kind != Internal && BoxAt(all.w, x).closed)
  {
    hide Sound, Turn, News;
    LoopAside(w, subs, job, env, x);
  }

  /** Finished or not, a fan-out leaves a sound world behind, and a registered client has left exactly when it, or the
      primary of its name, was thrown out. */
  lemma WhoStays(w: World, subs: seq<ElbusClient>, job: Job, env: Env, x: ElbusClient)
    requires Sound(w) && EnvOk(w, env) && AllHold(w, subs) && Registered(w.db.clients, x)
    ensures var all := Loop(w, subs, job, env);
            && Sound(all.w)
            && (Registered(all.w.db.clients, x) <==>
                  forall y :: y in all.thrown ==> y.name != x.name && y.name != x.primaryName)
  {
    hide Sound, Loop;
    LoopKeeps(w, subs, job, env);
    var thrown := Loop(w, subs, job, env).thrown;
    assert forall y :: y in thrown ==> y.name in Names(thrown);
  }

  /** An ordinary message hangs the sender: its target is a slow primary, and so is a listener to the announcement. */
  lemma SendHangs(w: World, p: ElbusClient, q: ElbusClient, job: Job, env: Env)
    requires Sound(w) && EnvOk(w, env) && Registered(w.db.clients, p) && env.core.Some? && !Own(job, env)
    requires p.primary && Overrun(p, BoxAt(w, p))
    requires q != p && q in Listeners(w, env) && q.primary && Overrun(q, BoxAt(w, q))
    ensures Turn(w, p, job, env).r.Never?
  {
    hide AllOk, Turn;
    SubscribersHold(w, env.listens, _ => false);
    TurnHangsIff(w, p, job, env);
    assert q in Hearers(w, p, env) && Blocking(q, BoxAt(w, q), env);
  }

  /** A subscriber with room for one frame misses the frame it is owed: the notice about another subscriber fills its
      queue first, and then it is thrown out itself. */
  lemma NoticeTakesThePlace(w: World, p: ElbusClient, x: ElbusClient, job: Job, env: Env)
    requires Sound(w) && EnvOk(w, env) && Holds(w, p) && Holds(w, x) && Announced(w, p, job, env)
    requires x in Hearers(w, p, env) && x.kind != Internal && !BoxAt(w, x).closed
        && |BoxAt(w, x).queue| + 1 == x.capacity
    requires !Loop(w, [p, x], job, env).r.Halts()
    ensures var all := Loop(w, [p, x], job, env);
            && BoxAt(all.w, x).accepted == BoxAt(w, x).accepted + [NoticeJob(p.name, env).frame]
            && x in all.thrown && BoxAt(all.w, x).closed && x.name !in all.w.db.clients
  {
    hide Sound, Turn, Loop;
    var subs := [p, x];
    HearersCredited(w, p, 0, env);
    LoopThrough(w, subs, 1, job, env);
    EveryoneAccountedFor(w, subs, 1, job, env);
    assert subs[..1] == [p];
    LoopOne(w, p, job, env);
    LoudTurn(w, p, job, env);
    assert News(w, [p], job, env, x) == [NoticeJob(p.name, env).frame] by {
      assert [p][1..] == [];
    }
  }

  // ----- what a sender is told

  /** The broker's own client leaves those alone that it does not send to, whether it comes to the end or not. */
  lemma {:induction false} OwnLoopSpares(w: World, subs: seq<ElbusClient>, job: Job, env: Env, x: ElbusClient)
    requires Own(job, env) && x !in subs && forall i :: 0 <= i < |subs| ==> subs[i] in w.boxes
    ensures BoxAt(Loop(w, subs, job, env).w, x) == BoxAt(w, x)
    decreases |subs|
  {
    hide Fate, Served, Turn;
    if subs != [] {
      var s := Turn(w, subs[0], job, env);
      PlainTurn(w, subs[0], job, env);
      if !s.r.Halts() { OwnLoopSpares(s.w, subs[1..], job, env, x); }
    }
  }

  lemma AnnounceSpares(w: World, name: Name, env: Env, x: ElbusClient)
    requires Sound(w) && EnvOk(w, env) && env.core.Some? && x !in Listeners(w, env) && x != env.core.value
    ensures BoxAt(Announce(w, name, env).w, x) == BoxAt(w, x)
  {
    hide Sound, Loop, FanOrder;
    var job := NoticeJob(name, env);
    var e, subs := CountIn(w, env.core.value, job.len), Listeners(w, env);
    SubscribersHold(w, env.listens, _ => false);
    var order := FanOrder(e, subs, env);
    FanOrderLists(e, subs, env);
    OwnLoopSpares(CountOut(e, |subs|, job.len), order, job, env, x);
  }

  /** A client that is thrown out gets nothing on the way, even if the task never comes back. */
  lemma OverrunGetsNothing(w: World, c: ElbusClient, job: Job, env: Env)
    requires Sound(w) && Holds(w, c) && EnvOk(w, env) && Overrun(c, BoxAt(w, c))
    ensures BoxAt(Turn(w, c, job, env).w, c).accepted == BoxAt(w, c).accepted
    ensures c.name !in Turn(w, c, job, env).w.db.clients
  {
    hide Sound, Announce, Left, Hearers;
    var e := Credit(w, c, job.len);
    CreditKeeps(w, c, job.len);
    LeftKeeps(e, c);
    LeftBoxes(e, c);
    assert BoxAt(e, c) == Credited(BoxAt(w, c), job.len);
    assert Turn(w, c, job, env) == Offer(e, c, job, env) == Throw(e, c, job, env);
    if c.primary && env.core.Some? && !Own(job, env) {
      var left := Left(e, c);
      ListenersLeft(e, c, env);
      assert c !in Hearers(e, c, env) by { NotItsOwnHearer(e, c, env); }
      AnnounceSpares(left, c.name, env, c);
      AnnounceKeeps(left, c.name, env);
    }
  }

  lemma NotItsOwnHearer(w: World, c: ElbusClient, env: Env)
    ensures c !in Hearers(w, c, env)
  {}

  /** What a sender is told about the client it sent to, against what became of that client: the frame is on its
      queue, and only then all is well; it was external and full, and its name is free now; its queue was closed; it
      was internal and full, nobody made room, and the deadline passed; or nothing at all, and then the task hangs. */
  ghost predicate Told(w: World, e: World, c: ElbusClient, job: Job, env: Env, r: Option<Result<()>>) {
    var b, a := BoxAt(w, c), BoxAt(e, c);
    && (r == Some(Ok(())) <==> a.accepted == b.accepted + [job.frame])
    && (r != Some(Ok(())) ==> a.accepted == b.accepted)
    && (r == Some(Err(NotDelivered)) <==> r.Some? && c.kind != Internal && |b.queue| >= c.capacity)
    && (c.name !in e.db.clients <==> c.kind != Internal && |b.queue| >= c.capacity)
    && (r == Some(Err(NotDelivered)) ==> a.closed && a.queue == b.queue)
    && (r == Some(Err(Eof)) <==> b.closed && (c.kind != Internal ==> |b.queue| < c.capacity))
    && (r == Some(Err(Timeout)) <==> Expires(w, c, job, env))
    && (r == None <==> Hangs(w, c, job, env))
  }

  lemma SenderIsTold(w: World, c: ElbusClient, job: Job, env: Env)
    requires Sound(w) && EnvOk(w, env) && Registered(w.db.clients, c)
    ensures Told(w, Turn(w, c, job, env).w, c, job, env, AsResult(Turn(w, c, job, env).r))
  {
    assert Holds(w, c);
    if Overrun(c, BoxAt(w, c)) {
      OverrunIsTold(w, c, job, env);
    } else {
      hide Sound, Turn;
      QuietTurn(w, c, job, env);
    }
  }

  lemma OverrunIsTold(w: World, c: ElbusClient, job: Job, env: Env)
    requires Sound(w) && EnvOk(w, env) && Holds(w, c) && Overrun(c, BoxAt(w, c))
    ensures Told(w, Turn(w, c, job, env).w, c, job, env, AsResult(Turn(w, c, job, env).r))
  {
    hide Sound, Turn, Hangs;
    OverrunGetsNothing(w, c, job, env);
    OverrunResult(w, c, job, env);
    if !Hangs(w, c, job, env) { TurnOfItsOwn(w, c, job, env); }
    var b, a := BoxAt(w, c).accepted, BoxAt(Turn(w, c, job, env).w, c).accepted;
    assert |b + [job.frame]| == |b| + 1;
  }

  lemma OverrunResult(w: World, c: ElbusClient, job: Job, env: Env)
    requires Sound(w) && Holds(w, c) && EnvOk(w, env) && Overrun(c, BoxAt(w, c))
    ensures Turn(w, c, job, env).r == if Hangs(w, c, job, env) then Never else Evicted
  {
    hide Sound, Turn;
    if Announced(w, c, job, env) {
      LoudTurn(w, c, job, env);
    } else {
      PlainTurn(w, c, job, env);
    }
  }

  // ----- deliveries that throw nobody out

  /** A fan-out that returns and throws nobody out serves each subscriber as its own state spells, touches nobody else,
      and counts one frame and its bytes for each. */
  lemma {:induction false} QuietLoop(w: World, subs: seq<ElbusClient>, job: Job, env: Env)
    requires Distinct(subs) && forall i :: 0 <= i < |subs| ==> subs[i] in w.boxes
    requires forall i :: 0 <= i < |subs| ==> !Overrun(subs[i], BoxAt(w, subs[i]))
    requires !Loop(w, subs, job, env).r.Halts()
    ensures var s := Loop(w, subs, job, env);
            && s.w.db == w.db && s.w.tally == w.tally && s.thrown == {} && s.w.boxes.Keys == w.boxes.Keys
            && forall x :: x in w.boxes ==>
                 var b, e := BoxAt(w, x), BoxAt(s.w, x);
                 && e.accepted == b.accepted + (if x in subs && !b.closed then [job.frame] else [])
                 && e.wFrames == b.wFrames + (if x in subs then 1 else 0)
                 && e.wBytes == b.wBytes + (if x in subs then job.len else 0)
                 && e.rFrames == b.rFrames && e.rBytes == b.rBytes && e.closed == b.closed
    decreases |subs|
  {
    hide Turn;
    if subs != [] {
      var c, rest := subs[0], subs[1..];
      QuietTurn(w, c, job, env);
      var s := Turn(w, c, job, env);
      assert c !in rest;
      assert forall x :: x in rest ==> BoxAt(s.w, x) == BoxAt(w, x);
      QuietLoop(s.w, rest, job, env);
      assert subs == [c] + rest;
    }
  }

  lemma QuietTurn(w: World, c: ElbusClient, job: Job, env: Env)
    requires c in w.boxes && !Overrun(c, BoxAt(w, c))
    ensures var s := Turn(w, c, job, env);
            && s.w.db == w.db && s.w.tally == w.tally && s.thrown == {}
            && s.w.boxes == w.boxes[c := Served(c, BoxAt(w, c), job, env)]
            && s.r == Fate(c, BoxAt(w, c), job, env)
  {
    PlainTurn(w, c, job, env);
  }

  // ----- the same in place

  ghost function BoxOf(c: ElbusClient): Box
    reads c`queue, c`closed, c`accepted, c`rFrames, c`rBytes, c`wFrames, c`wBytes
  {
    Box(c.queue, c.closed, c.accepted, c.rFrames, c.rBytes, c.wFrames, c.wBytes)
  }

  ghost function BoxesOf(cs: set<ElbusClient>): Boxes
    reads cs`queue, cs`closed, cs`accepted, cs`rFrames, cs`rBytes, cs`wFrames, cs`wBytes
  {
    map c | c in cs :: BoxOf(c)
  }

  ghost function WorldOf(db: BrokerDb): World
    reads db, db.known
  {
    World(db.Snapshot(), BoxesOf(db.known), Tally(db.rFrames, db.rBytes, db.wFrames, db.wBytes))
  }

  lemma BoxesKnown(db: BrokerDb)
    ensures WorldOf(db).boxes.Keys == db.known
  {}

  method IsFull(db: BrokerDb, c: ElbusClient) returns (full: bool)
    requires c in WorldOf(db).boxes
    ensures full <==> Full(c, BoxAt(WorldOf(db), c))
  {
    full := |c.queue| >= c.capacity;
  }

  method IsClosed(db: BrokerDb, c: ElbusClient) returns (closed: bool)
    requires c in WorldOf(db).boxes
    ensures closed <==> BoxAt(WorldOf(db), c).closed
  {
    closed := c.closed;
  }

  method Holder(db: BrokerDb, target: Name) returns (c: Option<ElbusClient>)
    ensures c == if target in WorldOf(db).db.clients then Some(WorldOf(db).db.clients[target]) else None
  {
    c := if target in db.clients then Some(db.clients[target]) else None;
  }

  method Collect(db: BrokerDb, covers: Name -> bool) returns (subs: set<ElbusClient>)
    ensures subs == Subscribers(WorldOf(db).db, covers)
  {
    subs := set n | n in db.subscriptions && (exists t :: t in db.subscriptions[n].topics && covers(t))
                 :: db.subscriptions[n].client;
  }

  method CollectAudience(db: BrokerDb, matches: Name -> bool) returns (subs: set<ElbusClient>)
    ensures subs == Audience(WorldOf(db).db, matches)
  {
    subs := set n | n in db.broadcasts && matches(n) :: db.broadcasts[n];
  }

  method ReceivedSoFar(db: BrokerDb) returns (n: nat)
    ensures n == WorldOf(db).tally.rFrames
  {
    n := db.rFrames;
  }

  /** The frame is put on the queue; from a full one the receiver takes a frame first. */
  method Enqueue(db: BrokerDb, c: ElbusClient, frame: Frame)
    requires c in WorldOf(db).boxes
    modifies c`queue, c`accepted
    ensures WorldOf(db) == old(WithBox(WorldOf(db), c, Accepted(c, BoxAt(WorldOf(db), c), frame)))
  {
    var left := if |c.queue| >= c.capacity then c.queue[1..] else c.queue;
    c.queue := left + [frame];
    c.accepted := c.accepted + [frame];
    assert BoxesOf(db.known) == old(BoxesOf(db.known))[c := BoxOf(c)];
  }

  method CloseQueue(db: BrokerDb, c: ElbusClient)
    requires c in WorldOf(db).boxes
    modifies c`closed
    ensures WorldOf(db) == old(Shut(WorldOf(db), c))
  {
    c.closed := true;
    assert BoxesOf(db.known) == old(BoxesOf(db.known))[c := BoxOf(c)];
  }

  method CreditClient(db: BrokerDb, c: ElbusClient, len: nat)
    requires c in WorldOf(db).boxes
    modifies c`wFrames, c`wBytes
    ensures WorldOf(db) == old(Credit(WorldOf(db), c, len))
  {
    c.wFrames := c.wFrames + 1;
    c.wBytes := c.wBytes + len;
    assert BoxesOf(db.known) == old(BoxesOf(db.known))[c := BoxOf(c)];
  }

  method CountSender(db: BrokerDb, client: ElbusClient, len: nat)
    requires client in WorldOf(db).boxes
    modifies client`rFrames, client`rBytes
    ensures WorldOf(db) == old(WithBox(WorldOf(db), client, Received(BoxAt(WorldOf(db), client), len)))
  {
    client.rFrames := client.rFrames + 1;
    client.rBytes := client.rBytes + len;
    assert BoxesOf(db.known) == old(BoxesOf(db.known))[client := BoxOf(client)];
  }

  /** `r_frames` and `r_bytes` of the sender and of the broker. */
  method CountReceived(db: BrokerDb, client: ElbusClient, len: nat)
    requires client in WorldOf(db).boxes
    modifies db`rFrames, db`rBytes, client`rFrames, client`rBytes
    ensures WorldOf(db) == old(CountIn(WorldOf(db), client, len))
  {
    hide WorldOf;
    CountSender(db, client, len);
    CountBroker(db, len);
  }

  method CountBroker(db: BrokerDb, len: nat)
    modifies db`rFrames, db`rBytes
    ensures WorldOf(db) == var w := old(WorldOf(db));
                           w.(tally := w.tally.(rFrames := w.tally.rFrames + 1, rBytes := w.tally.rBytes + len))
  {
    db.rFrames := db.rFrames + 1;
    db.rBytes := db.rBytes + len;
  }

  /** `w_frames` and `w_bytes` of the broker. */
  method CountSent(db: BrokerDb, n: nat, len: nat)
    modifies db`wFrames, db`wBytes
    ensures WorldOf(db) == old(CountOut(WorldOf(db), n, len))
  {
    db.wFrames := db.wFrames + n;
    db.wBytes := db.wBytes + Volume(n, len);
  }

  method Leave(db: BrokerDb, c: ElbusClient)
    requires c in WorldOf(db).boxes && Sound(WorldOf(db))
    modifies db`clients, db`broadcasts, db`subscriptions, db.known`secondaries, db.known`disconnected
    ensures WorldOf(db) == old(Left(WorldOf(db), c))
  {
    hide Wf, Drop, AllOk;
    db.DropClient(c);
    assert BoxesOf(db.known) == old(BoxesOf(db.known));
  }

  /** Everything the deliveries rely on. */
  ghost predicate Ready(w: World, env: Env) { Sound(w) && EnvOk(w, env) }

  lemma StillReady(w: World, s: Step, env: Env)
    requires Ready(w, env) && Kept(w, s)
    ensures Ready(s.w, env)
  {}

  /** `safe_send_frame!`. */
  method SafeSendFrame(db: BrokerDb, c: ElbusClient, job: Job, env: Env) returns (r: Sent)
    requires Ready(WorldOf(db), env) && Holds(WorldOf(db), c)
    modifies db`clients, db`broadcasts, db`subscriptions, db`rFrames, db`rBytes, db`wFrames, db`wBytes, db.known
    ensures WorldOf(db) == old(Offer(WorldOf(db), c, job, env)).w && r == old(Offer(WorldOf(db), c, job, env)).r
    decreases if Own(job, env) then 0 else 1, 0, 1
  {
    BoxesKnown(db);
    hide Sound, EnvOk, WorldOf, Accepted, Throw;
    var full := IsFull(db, c);
    var closed := IsClosed(db, c);
    if full && c.kind != Internal {
      r := ThrowOut(db, c, job, env);
    } else if closed {
      r := QueueClosed;
    } else if full && c in env.stalled {
      r := if job.deadline then TimedOut else Never;
    } else {
      Enqueue(db, c, job.frame);
      r := Delivered;
    }
  }

  /** `unregister_client` and the closing of the queue: a primary's departure is announced in between. */
  method ThrowOut(db: BrokerDb, c: ElbusClient, job: Job, env: Env) returns (r: Sent)
    requires Ready(WorldOf(db), env) && Holds(WorldOf(db), c)
    modifies db`clients, db`broadcasts, db`subscriptions, db`rFrames, db`rBytes, db`wFrames, db`wBytes, db.known
    ensures WorldOf(db) == old(Throw(WorldOf(db), c, job, env)).w && r == old(Throw(WorldOf(db), c, job, env)).r
    decreases if Own(job, env) then 0 else 1, 0, 0
  {
    BoxesKnown(db);
    hide Sound, EnvOk, WorldOf, Left, Announce, Shut;
    ghost var w := WorldOf(db);
    LeftKeeps(w, c);
    StillReady(w, Step(Left(w, c), Evicted, {c}), env);
    Leave(db, c);
    if c.primary && env.core.Some? {
      if Own(job, env) {
        return Never;
      }
      AnnounceKeeps(Left(w, c), c.name, env);
      var stuck := AnnounceDeparture(db, c.name, env);
      if stuck {
        return Never;
      }
    }
    CloseQueue(db, c);
    r := Evicted;
  }

  /** `announce`: a publication by the broker's own client. */
  method AnnounceDeparture(db: BrokerDb, name: Name, env: Env) returns (stuck: bool)
    requires Ready(WorldOf(db), env) && env.core.Some?
    modifies db`clients, db`broadcasts, db`subscriptions, db`rFrames, db`rBytes, db`wFrames, db`wBytes, db.known
    ensures WorldOf(db) == old(Announce(WorldOf(db), name, env)).w
    ensures stuck <==> old(Announce(WorldOf(db), name, env)).r.Never?
    decreases 0, 1, 3
  {
    BoxesKnown(db);
    hide Sound, WorldOf, FanOut, Subscribers;
    ghost var w := WorldOf(db);
    var job := NoticeJob(name, env);
    CountInKeeps(w, env.core.value, job.len);
    StillReady(w, Step(CountIn(w, env.core.value, job.len), Delivered, {}), env);
    SubscribersHold(w, env.listens, _ => false);
    CountReceived(db, env.core.value, job.len);
    var subs := Collect(db, env.listens);
    var r := FanOutTo(db, subs, job, env);
    stuck := r.Never?;
  }

  /** The body of `send_broadcast!` and `publish!` once the subscribers are known. */
  method FanOutTo(db: BrokerDb, subs: set<ElbusClient>, job: Job, env: Env) returns (r: Sent)
    requires Ready(WorldOf(db), env) && forall c :: c in subs ==> Holds(WorldOf(db), c)
    modifies db`clients, db`broadcasts, db`subscriptions, db`rFrames, db`rBytes, db`wFrames, db`wBytes, db.known
    ensures WorldOf(db) == old(FanOut(WorldOf(db), subs, job, env)).w && r == old(FanOut(WorldOf(db), subs, job, env)).r
    decreases if Own(job, env) then 0 else 1, 1, 2
  {
    BoxesKnown(db);
    hide Sound, WorldOf, Loop;
    ghost var w := WorldOf(db);
    if subs == {} {
      return Delivered;
    }
    var n := ReceivedSoFar(db);
    var order := Among(env.rank(n), subs);
    FanOrderLists(w, subs, env);
    CountOutKeeps(w, |subs|, job.len);
    StillReady(w, Step(CountOut(w, |subs|, job.len), Delivered, {}), env);
    CountSent(db, |subs|, job.len);
    r := ServeAll(db, order, job, env);
  }

  /** The client is credited with the frame, then the frame is offered to it. */
  method ServeOne(db: BrokerDb, c: ElbusClient, job: Job, env: Env) returns (r: Sent)
    requires Ready(WorldOf(db), env) && Holds(WorldOf(db), c)
    modifies db`clients, db`broadcasts, db`subscriptions, db`rFrames, db`rBytes, db`wFrames, db`wBytes, db.known
    ensures WorldOf(db) == old(Turn(WorldOf(db), c, job, env)).w && r == old(Turn(WorldOf(db), c, job, env)).r
    decreases if Own(job, env) then 0 else 1, 0, 2
  {
    BoxesKnown(db);
    hide Sound, EnvOk, WorldOf, Offer, Credit;
    ghost var w := WorldOf(db);
    CreditKeeps(w, c, job.len);
    StillReady(w, Step(Credit(w, c, job.len), Delivered, {}), env);
    HoldsStill(w, Credit(w, c, job.len), c);
    CreditClient(db, c, job.len);
    r := SafeSendFrame(db, c, job, env);
  }

  lemma TurnLeavesReady(w: World, order: seq<ElbusClient>, i: nat, job: Job, env: Env)
    requires Ready(w, env) && AllHold(w, order) && i < |order|
    ensures Holds(w, order[i]) && Ready(Turn(w, order[i], job, env).w, env)
        && AllHold(Turn(w, order[i], job, env).w, order)
  {
    hide Sound, Turn;
    TurnKeeps(w, order[i], job, env);
    StillReady(w, Turn(w, order[i], job, env), env);
  }

  /** The loop over the subscribers. */
  method ServeAll(db: BrokerDb, order: seq<ElbusClient>, job: Job, env: Env) returns (r: Sent)
    requires Ready(WorldOf(db), env) && AllHold(WorldOf(db), order)
    modifies db`clients, db`broadcasts, db`subscriptions, db`rFrames, db`rBytes, db`wFrames, db`wBytes, db.known
    ensures WorldOf(db) == old(Loop(WorldOf(db), order, job, env)).w && r == old(Loop(WorldOf(db), order, job, env)).r
    decreases if Own(job, env) then 0 else 1, 1, 1
  {
    ghost var w := WorldOf(db);
    assert order[..0] == [] && order[..|order|] == order && Before(w, order, 0, job, env) == Step(w, Delivered, {});
    assert Before(w, order, |order|, job, env) == Loop(w, order, job, env);
    hide Ready, AllHold, Holds, WorldOf, Turn, Loop, Before;
    for i := 0 to |order|
      invariant WorldOf(db) == Before(w, order, i, job, env).w && Before(w, order, i, job, env).r.Delivered?
      invariant Ready(WorldOf(db), env) && AllHold(WorldOf(db), order)
    {
      TurnLeavesReady(WorldOf(db), order, i, job, env);
      NextTurn(w, order, i, job, env);
      var s := ServeOne(db, order[i], job, env);
      if s.Halts() {
        HaltedThere(w, order, i + 1, job, env);
        return s;
      }
    }
    r := Delivered;
  }

  /** A message to one target. `None`: the call never returns. */
  method Send(db: BrokerDb, client: ElbusClient, target: Name, cargo: Cargo, len: nat, deadline: bool, env: Env)
    returns (r: Option<Result<()>>)
    requires Ready(WorldOf(db), env) && client in WorldOf(db).boxes
    modifies db`clients, db`broadcasts, db`subscriptions, db`rFrames, db`rBytes, db`wFrames, db`wBytes, db.known
    ensures var w := old(CountIn(WorldOf(db), client, len));
            var job := Job(client, cargo.As(KMessage, client.name, None), len, deadline);
            if target !in w.db.clients then r == Some(Err(NotRegistered)) && WorldOf(db) == w
            else
              var c := w.db.clients[target];
              && WorldOf(db) == Turn(CountOut(w, 1, len), c, job, env).w
              && Told(CountOut(w, 1, len), WorldOf(db), c, job, env, r)
  {
    BoxesKnown(db);
    hide Sound, EnvOk, WorldOf, Turn, Told;
    ghost var w0 := WorldOf(db);
    ghost var w := CountIn(w0, client, len);
    CountInKeeps(w0, client, len);
    StillReady(w0, Step(w, Delivered, {}), env);
    CountReceived(db, client, len);
    var c := Holder(db, target);
    if c.None? {
      return Some(Err(NotRegistered));
    }
    HolderHolds(w, target);
    CountOutKeeps(w, 1, len);
    StillReady(w, Step(CountOut(w, 1, len), Delivered, {}), env);
    CountSent(db, 1, len);
    ghost var job := Job(client, cargo.As(KMessage, client.name, None), len, deadline);
    SenderIsTold(CountOut(w, 1, len), c.value, job, env);
    var s := ServeOne(db, c.value, Job(client, cargo.As(KMessage, client.name, None), len, deadline), env);
    r := AsResult(s);
  }

  lemma HolderHolds(w: World, n: Name)
    requires Sound(w) && n in w.db.clients
    ensures Holds(w, w.db.clients[n]) && Registered(w.db.clients, w.db.clients[n])
  {}

  /** A broadcast to the clients whose names match. */
  method SendBroadcast(db: BrokerDb, client: ElbusClient, matches: Name -> bool, cargo: Cargo, len: nat, deadline: bool,
                       env: Env) returns (r: Sent)
    requires Ready(WorldOf(db), env) && client in WorldOf(db).boxes
    modifies db`clients, db`broadcasts, db`subscriptions, db`rFrames, db`rBytes, db`wFrames, db`wBytes, db.known
    ensures var w := old(CountIn(WorldOf(db), client, len));
            var job := Job(client, cargo.As(KBroadcast, client.name, None), len, deadline);
            var s := FanOut(w, Audience(w.db, matches), job, env);
            WorldOf(db) == s.w && r == s.r
  {
    BoxesKnown(db);
    hide Sound, EnvOk, WorldOf, FanOut, Audience;
    ghost var w0 := WorldOf(db);
    ghost var w := CountIn(w0, client, len);
    CountInKeeps(w0, client, len);
    StillReady(w0, Step(w, Delivered, {}), env);
    SubscribersHold(w, _ => false, matches);
    CountReceived(db, client, len);
    var subs := CollectAudience(db, matches);
    r := FanOutTo(db, subs, Job(client, cargo.As(KBroadcast, client.name, None), len, deadline), env);
  }

  /** A publication to the clients with a covering subscription, one copy however many of its masks cover the topic. */
  method Publish(db: BrokerDb, client: ElbusClient, topic: Name, covers: Name -> bool, cargo: Cargo, len: nat,
                 deadline: bool, env: Env) returns (r: Sent)
    requires Ready(WorldOf(db), env) && client in WorldOf(db).boxes
    modifies db`clients, db`broadcasts, db`subscriptions, db`rFrames, db`rBytes, db`wFrames, db`wBytes, db.known
    ensures var w := old(CountIn(WorldOf(db), client, len));
            var job := Job(client, cargo.As(KPublish, client.name, Some(topic)), len, deadline);
            var s := FanOut(w, Subscribers(w.db, covers), job, env);
            WorldOf(db) == s.w && r == s.r
  {
    BoxesKnown(db);
    hide Sound, EnvOk, WorldOf, FanOut, Subscribers;
    ghost var w0 := WorldOf(db);
    ghost var w := CountIn(w0, client, len);
    CountInKeeps(w0, client, len);
    StillReady(w0, Step(w, Delivered, {}), env);
    SubscribersHold(w, covers, _ => false);
    CountReceived(db, client, len);
    var subs := Collect(db, covers);
    r := FanOutTo(db, subs, Job(client, cargo.As(KPublish, client.name, Some(topic)), len, deadline), env);
  }
}
