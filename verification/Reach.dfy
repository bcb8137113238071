/** Whom a publication and a broadcast reach, in terms of what clients asked for: `publish!` and `send_broadcast!` of
    src/broker.rs together with registration, subscription, their undoing, and the answer `send!` gives. */
module Reach {
  import opened Bytes
  import opened Protocol
  import opened Registry
  import opened Delivery

  // ----- one operation and the clients reached after it

  /** A subscription adds its client to the publications it covers, and changes nothing for others. */
  lemma SubscribeReaches(db: Db, c: ElbusClient, t: Name, covers: Name -> bool)
    ensures Subscribers(Subscribe(db, c, t), covers)
            == Subscribers(db, covers)
               + if c.name in db.subscriptions && covers(t) then {db.subscriptions[c.name].client} else {}
  {
    if c.name in db.subscriptions {
      var e, n := Subscribe(db, c, t), c.name;
      assert forall m :: m in db.subscriptions && m != n ==> e.subscriptions[m] == db.subscriptions[m];
      assert forall u :: u in e.subscriptions[n].topics <==> u in db.subscriptions[n].topics || u == t;
    }
  }

  /** Taking a subscription back takes its client out of the publications that none of its other topics covers, and of
      no others. */
  lemma UnsubscribeReaches(db: Db, c: ElbusClient, t: Name, covers: Name -> bool)
    requires Wf(db)
    ensures Subscribers(Unsubscribe(db, c, t), covers)
            == Subscribers(db, covers)
               - if c.name in db.subscriptions
                    && (forall u :: u in db.subscriptions[c.name].topics && covers(u) ==> u == t)
                 then {db.subscriptions[c.name].client} else {}
    ensures !covers(t) ==> Subscribers(Unsubscribe(db, c, t), covers) == Subscribers(db, covers)
  {
    if c.name in db.subscriptions {
      var e, n := Unsubscribe(db, c, t), c.name;
      assert forall m :: m in db.subscriptions && m != n ==> e.subscriptions[m] == db.subscriptions[m];
      assert forall u :: u in e.subscriptions[n].topics <==> u in db.subscriptions[n].topics && u != t;
      assert forall m :: m in db.subscriptions && db.subscriptions[m].client == db.subscriptions[n].client ==> m == n;
      if !covers(t) && forall u :: u in db.subscriptions[n].topics && covers(u) ==> u == t {
        assert db.subscriptions[n].client !in Subscribers(db, covers);
      }
    }
  }

  /** What is subscribed to under the name of `x`. */
  ghost function TopicsOf(db: Db, x: ElbusClient): set<Name> {
    if x.name in db.subscriptions then db.subscriptions[x.name].topics else {}
  }

  /** In a consistent registry a broadcast is for exactly the registered clients with a matching name, and a publication
      for exactly the registered clients with a covering topic. */
  lemma ReachedIff(db: Db, x: ElbusClient, covers: Name -> bool, matches: Name -> bool)
    requires Consistent(db)
    ensures x in Audience(db, matches) <==> Registered(db.clients, x) && matches(x.name)
    ensures x in Subscribers(db, covers) <==>
              Registered(db.clients, x) && exists t :: t in TopicsOf(db, x) && covers(t)
  {}

  /** Registering adds the client, and nobody else, to the broadcasts that match its name and to the publications that
      cover the warning topic. */
  lemma InsertReaches(db: Db, c: ElbusClient, covers: Name -> bool, matches: Name -> bool)
    requires Consistent(db) && c in db.secondaries && InsertResult(db, c).Ok?
    ensures Audience(Insert(db, c), matches) == Audience(db, matches) + if matches(c.name) then {c} else {}
    ensures Subscribers(Insert(db, c), covers)
            == Subscribers(db, covers) + if covers(BROKER_WARN_TOPIC) then {c} else {}
  {
    var e, n := Insert(db, c), c.name;
    hide Exact, AllHavePrimary;
    assert forall m :: m in db.subscriptions ==> m != n && e.subscriptions[m] == db.subscriptions[m];
    assert e.subscriptions[n] == Subscriber(c, {BROKER_WARN_TOPIC});
    assert BROKER_WARN_TOPIC in e.subscriptions[n].topics;
  }

  /** The client itself, or one registered under its name. */
  ghost predicate InFamily(x: ElbusClient, c: ElbusClient) { x.name == c.name || x.primaryName == c.name }

  /** A safe drop takes exactly the family out of every broadcast and every publication. */
  lemma DropReaches(db: Db, c: ElbusClient, covers: Name -> bool, matches: Name -> bool)
    requires Consistent(db) && c in db.secondaries && DropSafe(db, c)
    ensures Audience(Drop(db, c), matches) == set x | x in Audience(db, matches) && !InFamily(x, c)
    ensures Subscribers(Drop(db, c), covers) == set x | x in Subscribers(db, covers) && !InFamily(x, c)
  {
    DropFamily(db, c);
    var gone := {c.name} + SecondariesOf(db.clients, c.name);
    var e := Drop(db, c);
    forall n | n in db.clients
      ensures db.clients[n].name == n && (n in gone <==> InFamily(db.clients[n], c))
    {}
    hide Exact, Drop, DropSafe, AllHavePrimary;
    assert forall n :: n in db.broadcasts ==> (n in e.broadcasts <==> !InFamily(db.broadcasts[n], c));
    assert forall n :: n in db.subscriptions ==> (n in e.subscriptions <==> !InFamily(db.subscriptions[n].client, c));
  }

  // ----- whole runs of the registry

  /** The step asks for the topic on behalf of `x`: somebody of its name subscribes, or `x` registers, which
      subscribes it to the warning topic. */
  ghost predicate Asks(db: Db, op: Op, x: ElbusClient, t: Name) {
    || (op.OpSubscribe? && op.c.name == x.name && op.topic == t)
    || (op == OpInsert(x) && !Registered(db.clients, x) && t == BROKER_WARN_TOPIC)
  }

  ghost predicate TakesBack(op: Op, x: ElbusClient, t: Name) {
    op.OpUnsubscribe? && op.c.name == x.name && op.topic == t
  }

  /** The step leaves `x` registered, and its wish for the topic alone. */
  ghost predicate Lasts(op: Op, after: Db, x: ElbusClient, t: Name) {
    Registered(after.clients, x) && !TakesBack(op, x, t)
  }

  ghost predicate AskedAt(states: seq<Db>, ops: seq<Op>, k: nat, i: nat, x: ElbusClient, t: Name)
    requires |states| == |ops| + 1 && k < i < |states|
  {
    && Asks(states[k], ops[k], x, t) && Registered(states[k + 1].clients, x)
    && forall j :: k < j < i ==> Lasts(ops[j], states[j + 1], x, t)
  }

  /** The topic was asked for on behalf of `x`, and since then `x` has stayed registered and the wish has not been taken
      back. */
  ghost predicate Asked(states: seq<Db>, ops: seq<Op>, i: nat, x: ElbusClient, t: Name)
    requires |states| == |ops| + 1 && i < |states|
  {
    exists k :: 0 <= k < i && AskedAt(states, ops, k, i, x, t)
  }

  lemma TopicStep(db: Db, op: Op, x: ElbusClient, t: Name)
    requires Consistent(db) && Possible(db, op) && Consistent(Apply(db, op)) && Registered(Apply(db, op).clients, x)
    ensures t in TopicsOf(Apply(db, op), x) <==>
              || Asks(db, op, x, t)
              || (Registered(db.clients, x) && t in TopicsOf(db, x) && !TakesBack(op, x, t))
  {
    hide Exact, AllHavePrimary;
    if op.OpInsert? && op.c == x && !Registered(db.clients, x) {
      assert InsertResult(db, x).Ok?;
    }
  }

  /** In every run through consistent registries, the topics of a registered client are those asked for on its behalf
      and not taken back, since it registered. */
  lemma {:induction false} TopicsAreAsked(states: seq<Db>, ops: seq<Op>, i: nat, x: ElbusClient, t: Name)
    requires IsRun(states, ops) && i < |states| && Registered(states[i].clients, x)
    requires forall j :: 0 <= j < |states| ==> Consistent(states[j])
    ensures t in TopicsOf(states[i], x) <==> Asked(states, ops, i, x, t)
  {
    hide Consistent, Asks, TakesBack, Registered, TopicsOf, Apply;
    assert i > 0 by { NobodyAtFirst(x); }
    var k := i - 1;
    var db, op := states[k], ops[k];
    assert IsStep(db, op, states[i]);
    TopicStep(db, op, x, t);
    if Registered(db.clients, x) {
      TopicsAreAsked(states, ops, k, x, t);
    }
    AskedOneMore(states, ops, i, x, t);
  }

  lemma NobodyAtFirst(x: ElbusClient)
    ensures !Registered(EMPTY.clients, x)
  {}

  lemma AskedOneMore(states: seq<Db>, ops: seq<Op>, i: nat, x: ElbusClient, t: Name)
    requires |states| == |ops| + 1 && 0 < i < |states| && Registered(states[i].clients, x)
    ensures Asked(states, ops, i, x, t) <==>
              || Asks(states[i - 1], ops[i - 1], x, t)
              || (Registered(states[i - 1].clients, x) && Asked(states, ops, i - 1, x, t)
                  && !TakesBack(ops[i - 1], x, t))
  {
    hide Asks, TakesBack, Registered;
    var last := i - 1;
    if Asks(states[last], ops[last], x, t) {
      assert AskedAt(states, ops, last, i, x, t);
    }
    if Asked(states, ops, last, x, t) && !TakesBack(ops[last], x, t) {
      var k :| 0 <= k < last && AskedAt(states, ops, k, last, x, t);
      assert AskedAt(states, ops, k, i, x, t);
    }
    if Asked(states, ops, i, x, t) && !Asks(states[last], ops[last], x, t) {
      var k :| 0 <= k < i && AskedAt(states, ops, k, i, x, t);
      assert k < last && Lasts(ops[last], states[i], x, t);
      assert AskedAt(states, ops, k, last, x, t);
      assert k == last - 1 || Lasts(ops[last - 1], states[last], x, t);
    }
  }

  /** In every such run, a publication is for exactly the registered clients on whose behalf a topic that covers it was
      asked for and not taken back since they registered. */
  lemma PublicationIsForIff(states: seq<Db>, ops: seq<Op>, i: nat, covers: Name -> bool, x: ElbusClient)
    requires IsRun(states, ops) && i < |states|
    requires forall j :: 0 <= j < |states| ==> Consistent(states[j])
    ensures x in Subscribers(states[i], covers) <==>
              Registered(states[i].clients, x) && exists t :: covers(t) && Asked(states, ops, i, x, t)
  {
    hide Asked, Consistent, Subscribers, TopicsOf;
    ReachedIff(states[i], x, covers, _ => false);
    if Registered(states[i].clients, x) {
      forall t ensures t in TopicsOf(states[i], x) <==> Asked(states, ops, i, x, t) {
        TopicsAreAsked(states, ops, i, x, t);
      }
    }
  }

  // ----- what a publication and a broadcast do for each client

  /** The whole of `publish!`, and of `send_broadcast!`, for the clients found. */
  ghost function Reaching(w: World, subs: set<ElbusClient>, job: Job, env: Env): Delivery.Step {
    FanOut(CountIn(w, job.sender, job.len), subs, job, env)
  }

  ghost predicate IsNotice(f: Frame, env: Env) {
    env.core.Some? && f.kind == KPublish && f.sender == Some(env.core.value.name) && f.topic == Some(BROKER_INFO_TOPIC)
  }

  ghost predicate Notices(fs: seq<Frame>, env: Env) { forall i :: 0 <= i < |fs| ==> IsNotice(fs[i], env) }

  lemma {:induction false} NewsAreNotices(w: World, subs: seq<ElbusClient>, job: Job, env: Env, x: ElbusClient)
    ensures Notices(News(w, subs, job, env, x), env)
    decreases |subs|
  {
    hide Turn, Hearers, Fate, Announced;
    if subs != [] {
      assert Notices(TurnNews(w, subs[0], job, env, x), env) by {
        assert Announced(w, subs[0], job, env) ==> env.core.Some? by { AnnouncedByCore(w, subs[0], job, env); }
      }
      NewsAreNotices(Turn(w, subs[0], job, env).w, subs[1..], job, env, x);
    }
  }

  lemma AnnouncedByCore(w: World, c: ElbusClient, job: Job, env: Env)
    ensures Announced(w, c, job, env) ==> env.core.Some?
  {}

  /** A client has got one copy of the frame, and for the rest notices of the broker. */
  ghost predicate OneCopy(b: Box, e: Box, frame: Frame, env: Env) {
    exists front, back :: Notices(front, env) && Notices(back, env) && e.accepted == b.accepted + front + [frame] + back
  }

  ghost predicate OnlyNotices(b: Box, e: Box, env: Env) {
    exists news :: Notices(news, env) && e.accepted == b.accepted + news
  }

  /** What a client that is to be reached comes to: one copy; or it was closed before; or it is external, did not keep
      up and has been thrown out: its name is free and its queue is closed. */
  ghost predicate Attended(w: World, s: Delivery.Step, x: ElbusClient, job: Job, env: Env) {
    var b, e := BoxAt(w, x), BoxAt(s.w, x);
    || OneCopy(b, e, job.frame, env)
    || (b.closed && e.accepted == b.accepted)
    || (x in s.thrown && x.kind != Internal && x.name !in s.w.db.clients && e.closed && OnlyNotices(b, e, env))
  }

  /** Whatever the order of visits: of a fan-out that returns, everybody it is for is attended to, and everybody else
      gets notices at most. */
  lemma ReachingAttends(w: World, subs: set<ElbusClient>, job: Job, env: Env, x: ElbusClient)
    requires Sound(w) && EnvOk(w, env) && x in w.boxes
    requires forall c :: c in subs ==> Holds(w, c)
    requires !Reaching(w, subs, job, env).r.Halts()
    ensures x in subs ==> Attended(w, Reaching(w, subs, job, env), x, job, env)
    ensures x !in subs ==> OnlyNotices(BoxAt(w, x), BoxAt(Reaching(w, subs, job, env).w, x), env)
  {
    hide Sound, Loop, News, Turn, FanOrder;
    var e := CountIn(w, job.sender, job.len);
    CountInKeeps(w, job.sender, job.len);
    var order, o := FanOrder(e, subs, env), CountOut(e, |subs|, job.len);
    CountOutKeeps(e, |subs|, job.len);
    FanOrderLists(e, subs, env);
    if subs == {} {
      assert Notices([], env) && BoxAt(e, x).accepted == BoxAt(w, x).accepted + [];
    } else {
      assert AllHold(o, order);
      LoopAttends(o, order, job, env, x);
    }
  }

  lemma LoopAttends(w: World, order: seq<ElbusClient>, job: Job, env: Env, x: ElbusClient)
    requires Sound(w) && EnvOk(w, env) && x in w.boxes && AllHold(w, order) && Distinct(order)
    requires !Loop(w, order, job, env).r.Halts()
    ensures x in order ==> Attended(w, Loop(w, order, job, env), x, job, env)
    ensures x !in order ==> OnlyNotices(BoxAt(w, x), BoxAt(Loop(w, order, job, env).w, x), env)
  {
    hide Sound, Loop, News, Turn, Overrun;
    if x in order {
      var i :| 0 <= i < |order| && order[i] == x;
      TurnAttends(w, order, i, job, env);
    } else {
      NobodyElse(w, order, job, env, x);
      NewsAreNotices(w, order, job, env, x);
    }
  }

  lemma TurnAttends(w: World, order: seq<ElbusClient>, i: nat, job: Job, env: Env)
    requires Sound(w) && EnvOk(w, env) && AllHold(w, order) && Distinct(order) && i < |order|
    requires !Loop(w, order, job, env).r.Halts()
    ensures Attended(w, Loop(w, order, job, env), order[i], job, env)
  {
    hide Sound, Loop, News, Turn;
    var x, before := order[i], Before(w, order, i, job, env);
    EveryoneAccountedFor(w, order, i, job, env);
    LoopThrough(w, order, i, job, env);
    NewsAreNotices(w, order[..i], job, env, x);
    NewsAreNotices(Turn(before.w, x, job, env).w, order[i + 1..], job, env, x);
    LoopAside(w, order[..i], job, env, x);
    ThrownIsOut(w, order, i, job, env);
  }

  /** One of the subscribers that was thrown out, at its own turn or before it, is out when the fan-out returns. */
  lemma ThrownIsOut(w: World, order: seq<ElbusClient>, i: nat, job: Job, env: Env)
    requires Sound(w) && EnvOk(w, env) && AllHold(w, order) && i < |order|
    ensures order[i] in Loop(w, order, job, env).thrown ==> order[i].name !in Loop(w, order, job, env).w.db.clients
  {
    hide Sound, Loop;
    LoopKeeps(w, order, job, env);
    var x, thrown := order[i], Loop(w, order, job, env).thrown;
    assert x in thrown ==> x.name in Names(thrown);
  }

  /** A client that subscribes gets the publications that its topic covers, each exactly once - unless it is closed, or
      external and too slow. */
  lemma SubscribeThenPublish(w: World, c: ElbusClient, t: Name, covers: Name -> bool, job: Job, env: Env)
    requires Sound(w) && EnvOk(w, env) && Registered(w.db.clients, c) && covers(t)
    ensures var e := w.(db := Subscribe(w.db, c, t));
            var s := Reaching(e, Subscribers(e.db, covers), job, env);
            !s.r.Halts() ==> Attended(e, s, c, job, env)
  {
    hide Reaching, Attended;
    var e := w.(db := Subscribe(w.db, c, t));
    assert Sound(e) by { TopicsKeepConsistent(w.db, e.db); }
    SubscribeReaches(w.db, c, t, covers);
    SubscribersHold(e, covers, _ => false);
    if !Reaching(e, Subscribers(e.db, covers), job, env).r.Halts() {
      ReachingAttends(e, Subscribers(e.db, covers), job, env, c);
    }
  }

  /** A client that takes its only covering topic back gets no more of these publications. */
  lemma UnsubscribeThenPublish(w: World, c: ElbusClient, t: Name, covers: Name -> bool, job: Job, env: Env)
    requires Sound(w) && EnvOk(w, env) && Registered(w.db.clients, c)
    requires forall u :: u in TopicsOf(w.db, c) && covers(u) ==> u == t
    ensures var e := w.(db := Unsubscribe(w.db, c, t));
            var s := Reaching(e, Subscribers(e.db, covers), job, env);
            !s.r.Halts() ==> OnlyNotices(BoxAt(e, c), BoxAt(s.w, c), env)
  {
    hide Reaching, OnlyNotices;
    var e := w.(db := Unsubscribe(w.db, c, t));
    assert Sound(e) by { TopicsKeepConsistent(w.db, e.db); }
    UnsubscribeReaches(w.db, c, t, covers);
    SubscribersHold(e, covers, _ => false);
    if !Reaching(e, Subscribers(e.db, covers), job, env).r.Halts() {
      ReachingAttends(e, Subscribers(e.db, covers), job, env, c);
    }
  }

  /** In every run of the registry: a publication that returns has attended to exactly the registered clients on whose
      behalf a covering topic was asked for and not taken back; everybody else got notices at most. */
  lemma PublishedToThoseWhoAsked(states: seq<Db>, ops: seq<Op>, i: nat, w: World, covers: Name -> bool, job: Job,
                                 env: Env, x: ElbusClient)
    requires IsRun(states, ops) && i < |states| && forall j :: 0 <= j < |states| ==> Consistent(states[j])
    requires Sound(w) && EnvOk(w, env) && w.db == states[i] && x in w.boxes
    ensures var s := Reaching(w, Subscribers(w.db, covers), job, env);
            var asked := Registered(w.db.clients, x) && exists t :: covers(t) && Asked(states, ops, i, x, t);
            !s.r.Halts() ==>
              if asked then Attended(w, s, x, job, env) else OnlyNotices(BoxAt(w, x), BoxAt(s.w, x), env)
  {
    hide Reaching, Attended, OnlyNotices, Asked, Subscribers, Consistent;
    PublicationIsForIff(states, ops, i, covers, x);
    SubscribersHold(w, covers, _ => false);
    if !Reaching(w, Subscribers(w.db, covers), job, env).r.Halts() {
      ReachingAttends(w, Subscribers(w.db, covers), job, env, x);
    }
  }

  /** A broadcast that returns has attended to exactly the registered clients with a matching name. */
  lemma BroadcastToThoseNamed(w: World, matches: Name -> bool, job: Job, env: Env, x: ElbusClient)
    requires Sound(w) && EnvOk(w, env) && x in w.boxes
    ensures var s := Reaching(w, Audience(w.db, matches), job, env);
            !s.r.Halts() ==>
              if Registered(w.db.clients, x) && matches(x.name) then Attended(w, s, x, job, env)
              else OnlyNotices(BoxAt(w, x), BoxAt(s.w, x), env)
  {
    hide Reaching, Attended, OnlyNotices, Audience;
    ReachedIff(w.db, x, _ => false, matches);
    SubscribersHold(w, _ => false, matches);
    if !Reaching(w, Audience(w.db, matches), job, env).r.Halts() {
      ReachingAttends(w, Audience(w.db, matches), job, env, x);
    }
  }

  // ----- what is counted when nobody is thrown out

  ghost function Plus(t: Tally, received: nat, sent: nat, len: nat): Tally {
    Tally(t.rFrames + received, t.rBytes + received * len, t.wFrames + sent, t.wBytes + sent * len)
  }

  /** The delivery side of a client after `received` frames of it and `sent` frames to it. */
  ghost predicate CountedUp(b: Box, e: Box, received: nat, sent: nat, len: nat) {
    && e.rFrames == b.rFrames + received && e.rBytes == b.rBytes + received * len
    && e.wFrames == b.wFrames + sent && e.wBytes == b.wBytes + sent * len
  }

  ghost function Once(p: bool): nat { if p then 1 else 0 }

  /** A fan-out none of whose subscribers is external and full: the registry is as before, everybody open it is for
      has one copy more and nobody else has; one frame of `len` bytes is counted as received, at the broker and at the
      sender, and one for each subscriber as sent, at the broker and at that subscriber. */
  lemma QuietReaching(w: World, subs: set<ElbusClient>, job: Job, env: Env, x: ElbusClient)
    requires EnvOk(w, env) && subs <= w.boxes.Keys && job.sender in w.boxes && x in w.boxes
    requires forall c :: c in subs ==> !Overrun(c, BoxAt(w, c))
    requires !Reaching(w, subs, job, env).r.Halts()
    ensures var s := Reaching(w, subs, job, env);
            && s.w.db == w.db && s.thrown == {} && s.w.tally == Plus(w.tally, 1, |subs|, job.len)
            && CountedUp(BoxAt(w, x), BoxAt(s.w, x), Once(x == job.sender), Once(x in subs), job.len)
            && BoxAt(s.w, x).accepted
               == BoxAt(w, x).accepted + (if x in subs && !BoxAt(w, x).closed then [job.frame] else [])
  {
    hide Loop, FanOrder;
    var e := CountIn(w, job.sender, job.len);
    var order, o := FanOrder(e, subs, env), CountOut(e, |subs|, job.len);
    FanOrderLists(e, subs, env);
    if subs != {} {
      QuietLoop(o, order, job, env);
    }
  }

  /** The same for a message to one target that is not external and full. */
  lemma QuietSend(w: World, c: ElbusClient, job: Job, env: Env, x: ElbusClient)
    requires c in w.boxes && job.sender in w.boxes && x in w.boxes && !Overrun(c, BoxAt(w, c))
    ensures var s := Turn(CountOut(CountIn(w, job.sender, job.len), 1, job.len), c, job, env);
            && s.w.db == w.db && s.thrown == {} && s.w.tally == Plus(w.tally, 1, 1, job.len)
            && CountedUp(BoxAt(w, x), BoxAt(s.w, x), Once(x == job.sender), Once(x == c), job.len)
  {
    QuietTurn(CountOut(CountIn(w, job.sender, job.len), 1, job.len), c, job, env);
    hide Turn;
  }
}
