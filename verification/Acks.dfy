/** Acknowledgements: what the broker's reader answers to each frame (src/broker.rs) and how the client's pending map
    resolves confirmations (src/ipc.rs), over two first-in-first-out streams of frames. */
module Acks {
  import opened Bytes
  import opened Protocol
  import opened Ids
  import R = Registry

  // ----- what the broker decides about one frame

  datatype Handling =
    | Addressed(allowed: bool, result: Result<()>)
    | Subscribed(topics: seq<Name>, allow: Name -> bool)
    | Unsubscribed

  function Kept(topics: seq<Name>, allow: Name -> bool): seq<Name> {
    if topics == [] then []
    else
      var k := |topics| - 1;
      Kept(topics[..k], allow) + if allow(topics[k]) then [topics[k]] else []
  }

  function Repeat(code: byte, n: nat): (r: Bytes)
    ensures |r| == n && forall i :: 0 <= i < n ==> r[i] == code
  {
    seq(n, i => code)
  }

  /** A subscription frame: the loop over the list keeps exactly the allowed topics, in order, and they are subscribed;
      with confirmation, every denied one is answered with an access error and the end of the list with a success. */
  method HandleSubscribe(db: R.BrokerDb, c: R.ElbusClient, topics: seq<Name>, allow: Name -> bool, needsAck: bool)
    returns (acks: Bytes)
    modifies db`subscriptions
    ensures db.Snapshot() == old(SubscribeAll(db.Snapshot(), c, Kept(topics, allow)))
    ensures acks == if needsAck then AcksOf(Subscribed(topics, allow)) else []
  {
    var kept;
    kept, acks := Sift(topics, allow, needsAck);
    SubscribeKept(db, c, kept);
    if needsAck {
      acks := acks + [RESPONSE_OK];
    }
  }

  method Sift(topics: seq<Name>, allow: Name -> bool, needsAck: bool) returns (kept: seq<Name>, acks: Bytes)
    ensures kept == Kept(topics, allow) && |kept| <= |topics|
    ensures acks == if needsAck then Repeat(ErrorByte(Access), |topics| - |kept|) else []
  {
    kept, acks := [], [];
    for i := 0 to |topics|
      invariant kept == Kept(topics[..i], allow)
      invariant |kept| <= i
      invariant acks == if needsAck then Repeat(ErrorByte(Access), i - |kept|) else []
    {
      assert topics[..i + 1][..i] == topics[..i];
      if allow(topics[i]) {
        kept := kept + [topics[i]];
      } else if needsAck {
        acks := acks + [ErrorByte(Access)];
      }
    }
    assert topics[..|topics|] == topics;
  }

  /** The loop under the lock of the subscriptions. Whether a topic was taken is not looked at. */
  method SubscribeKept(db: R.BrokerDb, c: R.ElbusClient, kept: seq<Name>)
    modifies db`subscriptions
    ensures db.Snapshot() == old(SubscribeAll(db.Snapshot(), c, kept))
  {
    ghost var was := db.Snapshot();
    for i := 0 to |kept|
      invariant db.Snapshot() == SubscribeAll(was, c, kept[..i])
    {
      assert kept[..i + 1][..i] == kept[..i];
      var _ := db.SubscribeClient(c, kept[i]);
    }
    assert kept[..|kept|] == kept;
  }

  ghost function SubscribeAll(db: R.Db, c: R.ElbusClient, topics: seq<Name>): R.Db {
    if topics == [] then db
    else R.Subscribe(SubscribeAll(db, c, topics[..|topics| - 1]), c, topics[|topics| - 1])
  }

  /** The registry with topics added to the entry of the client's name, if it has one. */
  ghost function WithTopics(db: R.Db, c: R.ElbusClient, ts: set<Name>): R.Db {
    if c.name !in db.subscriptions then db
    else
      var s := db.subscriptions[c.name];
      db.(subscriptions := db.subscriptions[c.name := s.(topics := s.topics + ts)])
  }

  lemma OneTopicMore(db: R.Db, c: R.ElbusClient, ts: set<Name>, t: Name)
    ensures R.Subscribe(WithTopics(db, c, ts), c, t) == WithTopics(db, c, ts + {t})
  {
    if c.name in db.subscriptions {
      var s := db.subscriptions[c.name];
      assert s.topics + ts + {t} == s.topics + (ts + {t});
    }
  }

  /** Without an entry for the client's name nothing happens; with one, the entry gains the topics and nothing else
      changes. */
  lemma {:induction false} SubscribeAllIs(db: R.Db, c: R.ElbusClient, topics: seq<Name>)
    ensures SubscribeAll(db, c, topics) == WithTopics(db, c, set t | t in topics)
  {
    hide R.Subscribe;
    if topics == [] {
      assert (set t: Name | t in topics) == {};
      assert c.name in db.subscriptions ==> db.subscriptions[c.name].topics + {} == db.subscriptions[c.name].topics;
    } else {
      var k := |topics| - 1;
      SubscribeAllIs(db, c, topics[..k]);
      OneTopicMore(db, c, (set t | t in topics[..k]), topics[k]);
      assert topics == topics[..k] + [topics[k]];
      assert (set t | t in topics) == (set t | t in topics[..k]) + {topics[k]};
    }
  }

  /** All the allowed topics of a frame are subscribed exactly when the client's name has an entry - or none is
      allowed. */
  lemma AllowedAreSubscribedIff(db: R.Db, c: R.ElbusClient, topics: seq<Name>, allow: Name -> bool)
    ensures var e := SubscribeAll(db, c, Kept(topics, allow));
            (forall t :: t in topics && allow(t) ==> c.name in e.subscriptions && t in e.subscriptions[c.name].topics)
            <==> c.name in db.subscriptions || forall t :: t in topics ==> !allow(t)
  {
    KeptShorter(topics, allow);
    SubscribeAllIs(db, c, Kept(topics, allow));
  }

  /** A client whose name was taken away by the second drop of its predecessor asks for a topic: it is told that all
      went well, and nothing is subscribed. */
  lemma LostSubscription(a: R.ElbusClient, b: R.ElbusClient, topic: Name)
    requires R.Named(a) && R.Named(b) && a != b && a.name == b.name && a.primary
    ensures var d := R.Create(R.Create(R.EMPTY, a), b);
            && R.Wf(d) && R.Wf(R.Insert(d, a)) && a in R.Insert(d, a).secondaries && R.Wf(R.Drop(R.Insert(d, a), a))
            && var db := R.Insert(R.Drop(R.Insert(d, a), a), b);
               && R.Wf(db) && a in db.secondaries && R.Registered(db.clients, b)
               && var e := R.Drop(db, a);
                  && SubscribeAll(e, b, Kept([topic], _ => true)) == e
                  && Verdict(Subscribed([topic], _ => true)) == Ok(())
                  && AcksOf(Subscribed([topic], _ => true)) == [RESPONSE_OK]
  {
    R.StaleDropEvictsSuccessor(a, b);
    var d := R.Create(R.Create(R.EMPTY, a), b);
    var e := R.Drop(R.Insert(R.Drop(R.Insert(d, a), a), b), a);
    SubscribeAllIs(e, b, Kept([topic], _ => true));
    KeptShorter([topic], _ => true);
  }

  lemma {:induction false} KeptShorter(topics: seq<Name>, allow: Name -> bool)
    ensures |Kept(topics, allow)| <= |topics|
    ensures |Kept(topics, allow)| == |topics| <==> forall i :: 0 <= i < |topics| ==> allow(topics[i])
    ensures forall t :: t in Kept(topics, allow) <==> t in topics && allow(t)
  {
    if topics != [] {
      var k := |topics| - 1;
      KeptShorter(topics[..k], allow);
      assert topics == topics[..k] + [topics[k]];
      assert forall i :: 0 <= i < k ==> topics[..k][i] == topics[i];
    }
  }

  /** The acknowledgement codes sent for one frame that asked for confirmation: one more than there are denied topics.
      */
  function AcksOf(h: Handling): Bytes {
    match h
    case Addressed(allowed, result) => [if allowed then ResultByte(result) else ErrorByte(Access)]
    case Subscribed(topics, allow) =>
      var kept := |Kept(topics, allow)|;
      Repeat(ErrorByte(Access), if kept < |topics| then |topics| - kept else 0) + [RESPONSE_OK]
    case Unsubscribed => [RESPONSE_OK]
  }

  /** The verdict on a frame: refused access, the outcome of the delivery, or success. */
  ghost function Verdict(h: Handling): Result<()> {
    match h
    case Addressed(allowed, result) => if allowed then result else Err(Access)
    case Subscribed(topics, allow) =>
      if forall i :: 0 <= i < |topics| ==> allow(topics[i]) then Ok(()) else Err(Access)
    case Unsubscribed => Ok(())
  }

  /** The first code is the verdict. A list of topics is answered by an access error for each denied one and a success
      at the end; every other frame by a single code. */
  lemma FirstAckIsVerdict(h: Handling)
    ensures AcksOf(h) != [] && AcksOf(h)[0] == ResultByte(Verdict(h))
    ensures h.Subscribed? ==>
              && |AcksOf(h)| == |h.topics| - |Kept(h.topics, h.allow)| + 1
              && (forall i :: 0 <= i < |AcksOf(h)| - 1 ==> AckResult(AcksOf(h)[i]) == Err(Access))
              && AckResult(AcksOf(h)[|AcksOf(h)| - 1]) == Ok(())
    ensures !h.Subscribed? ==> |AcksOf(h)| == 1
  {
    if h.Subscribed? {
      KeptShorter(h.topics, h.allow);
    }
  }

  // ----- client, broker and the two streams between them

  datatype Up = Up(k: nat, needsAck: bool)
  datatype Down = Down(id: nat, code: byte, k: nat)

  /** `sent` allocates ids; `responses` is the client's pending map. `wanted`, `verdicts` and `resolved` record which
      frames asked for confirmation, what the broker decided and what the client was told. */
  datatype State = State(
    sent: nat,
    responses: map<nat, nat>,
    up: seq<Up>,
    down: seq<Down>,
    wanted: set<nat>,
    verdicts: map<nat, Result<()>>,
    resolved: map<nat, Result<()>>)

  datatype Step = Send(needsAck: bool) | Handle(h: Handling) | Read

  /** Fewer than a full id cycle of frames is under way. */
  ghost predicate Window(s: State, n: nat) {
    && (forall id :: id in s.responses ==> n < s.responses[id] + ID_CYCLE)
    && (forall i :: 0 <= i < |s.down| ==> n < s.down[i].k + ID_CYCLE)
  }

  ghost predicate Enabled(s: State, st: Step) {
    match st
    case Send(_) => Window(s, s.sent + 1)
    case Handle(_) => s.up != []
    case Read => s.down != []
  }

  ghost function Downs(k: nat, codes: Bytes): seq<Down> {
    seq(|codes|, i requires 0 <= i < |codes| => Down(IdOf(k), codes[i], k))
  }

  ghost function After(s: State, st: Step): State
    requires Enabled(s, st)
  {
    match st
    case Send(needsAck) =>
      var k := s.sent + 1;
      s.(sent := k, up := s.up + [Up(k, needsAck)],
         responses := if needsAck then s.responses[IdOf(k) := k] else s.responses,
         wanted := if needsAck then s.wanted + {k} else s.wanted)
    case Handle(h) =>
      var u := s.up[0];
      s.(up := s.up[1..], verdicts := s.verdicts[u.k := Verdict(h)],
         down := if u.needsAck then s.down + Downs(u.k, AcksOf(h)) else s.down)
    case Read =>
      var d := s.down[0];
      var s1 := s.(down := s.down[1..]);
      if d.id !in s.responses then s1
      else
        var k := s.responses[d.id];
        s1.(responses := s.responses - {d.id}, resolved := s.resolved[k := AckResult(d.code)])
  }

  /** The first code on its way for frame `k`. */
  ghost function First(down: seq<Down>, k: nat): Option<byte> {
    if down == [] then None else if down[0].k == k then Some(down[0].code) else First(down[1..], k)
  }

  lemma {:induction false} FirstConcat(a: seq<Down>, b: seq<Down>, k: nat)
    ensures First(a + b, k) == if First(a, k).Some? then First(a, k) else First(b, k)
  {
    if a == [] {
      assert a + b == b;
    } else {
      FirstConcat(a[1..], b, k);
      assert (a + b)[1..] == a[1..] + b;
    }
  }

  lemma {:induction false} FirstNone(down: seq<Down>, k: nat)
    ensures First(down, k).None? <==> forall i :: 0 <= i < |down| ==> down[i].k != k
  {
    if down != [] {
      FirstNone(down[1..], k);
      assert forall i :: 0 < i < |down| ==> down[i] == down[1..][i - 1];
    }
  }

  // ----- the invariant

  /** A pending confirmation: its frame is unhandled, or the first code under way for it is its verdict. */
  ghost predicate PendingOk(s: State, id: nat)
    requires id in s.responses
  {
    var k := s.responses[id];
    && id == IdOf(k) && 1 <= k <= s.sent < k + ID_CYCLE && k in s.wanted && k !in s.resolved
    && (k in s.verdicts ==> First(s.down, k) == Some(ResultByte(s.verdicts[k])))
  }

  ghost predicate UpOk(s: State, i: nat)
    requires i < |s.up|
  {
    var u := s.up[i];
    && 1 <= u.k <= s.sent && u.k !in s.verdicts && (u.needsAck <==> u.k in s.wanted)
    && forall j :: i < j < |s.up| ==> u.k < s.up[j].k
  }

  ghost predicate DownOk(s: State, d: Down) {
    d.id == IdOf(d.k) && 1 <= d.k <= s.sent < d.k + ID_CYCLE && d.k in s.verdicts
  }

  ghost predicate Inv(s: State) {
    && (forall id {:trigger PendingOk(s, id)} :: id in s.responses ==> PendingOk(s, id))
    && (forall i {:trigger UpOk(s, i)} :: 0 <= i < |s.up| ==> UpOk(s, i))
    && (forall i :: 0 <= i < |s.down| ==> DownOk(s, s.down[i]))
    && (forall k :: k in s.wanted ==>
          1 <= k <= s.sent && (k in s.resolved || (IdOf(k) in s.responses && s.responses[IdOf(k)] == k)))
    && (forall k :: k in s.resolved ==>
          k in s.wanted && k in s.verdicts && s.resolved[k] == AckResult(ResultByte(s.verdicts[k])))
    && (forall k :: k in s.verdicts ==> 1 <= k <= s.sent)
  }

  ghost predicate Init(s: State) {
    s == State(0, map[], [], [], {}, map[], map[])
  }

  lemma SendKeepsInv(s: State, needsAck: bool)
    requires Inv(s) && Enabled(s, Send(needsAck))
    ensures Inv(After(s, Send(needsAck)))
  {
    hide IdOf, First;
    var r, k := After(s, Send(needsAck)), s.sent + 1;
    if needsAck {
      NewIdIsFree(s);
    }
    forall id | id in r.responses ensures PendingOk(r, id) {
      if id in s.responses { assert PendingOk(s, id); }
    }
    forall i | 0 <= i < |r.up| ensures UpOk(r, i) {
      if i < |s.up| { assert UpOk(s, i); }
    }
  }

  /** A new frame never takes the place of a pending one. */
  lemma NewIdIsFree(s: State)
    requires Inv(s) && Window(s, s.sent + 1)
    ensures IdOf(s.sent + 1) !in s.responses
  {
    hide First;
    var id := IdOf(s.sent + 1);
    if id in s.responses {
      assert PendingOk(s, id);
      IdInjectiveInWindow(s.sent + 1, s.responses[id]);
    }
  }

  lemma HandleKeepsInv(s: State, h: Handling)
    requires Inv(s) && Enabled(s, Handle(h))
    ensures Inv(After(s, Handle(h)))
  {
    hide IdOf, First, Verdict, AcksOf;
    var r, u := After(s, Handle(h)), s.up[0];
    assert UpOk(s, 0);
    var news := if u.needsAck then Downs(u.k, AcksOf(h)) else [];
    assert r.down == s.down + news;
    forall i | 0 <= i < |r.up| ensures UpOk(r, i) {
      assert UpOk(s, i + 1);
    }
    if u.needsAck {
      assert PendingOk(s, IdOf(u.k));
    }
    forall id | id in r.responses ensures PendingOk(r, id) {
      assert PendingOk(s, id);
      var k := s.responses[id];
      FirstConcat(s.down, news, k);
      if k == u.k {
        FirstNone(s.down, k);
        FirstOfDowns(k, h);
      }
    }
    forall i | 0 <= i < |r.down| ensures DownOk(r, r.down[i]) {
      if i < |s.down| { assert DownOk(s, s.down[i]); }
    }
  }

  lemma FirstOfDowns(k: nat, h: Handling)
    ensures First(Downs(k, AcksOf(h)), k) == Some(ResultByte(Verdict(h)))
  {
    FirstAckIsVerdict(h);
  }

  /** The acknowledgement at the head of the stream either belongs to the frame waiting under its id, or to none. */
  lemma HeadBelongs(s: State)
    requires Inv(s) && s.down != []
    ensures var d := s.down[0];
            d.id in s.responses ==>
              s.responses[d.id] == d.k && d.k in s.verdicts && d.code == ResultByte(s.verdicts[d.k])
  {
    hide IdOf;
    var d := s.down[0];
    assert DownOk(s, d);
    if d.id in s.responses {
      assert PendingOk(s, d.id);
      IdInjectiveInWindow(d.k, s.responses[d.id]);
    }
  }

  lemma ReadKeepsInv(s: State)
    requires Inv(s) && Enabled(s, Read)
    ensures Inv(After(s, Read))
  {
    hide IdOf, AckResult, ResultByte;
    var r, d := After(s, Read), s.down[0];
    HeadBelongs(s);
    assert DownOk(s, d);
    assert d.id in s.responses ==> PendingOk(s, d.id);
    forall i | 0 <= i < |r.up| ensures UpOk(r, i) {
      assert UpOk(s, i);
    }
    forall id | id in r.responses ensures PendingOk(r, id) {
      assert PendingOk(s, id);
    }
    forall i | 0 <= i < |r.down| ensures DownOk(r, r.down[i]) {
      assert DownOk(s, s.down[i + 1]);
    }
  }

  ghost predicate IsRun(states: seq<State>, steps: seq<Step>) {
    && |states| == |steps| + 1 && Init(states[0])
    && forall i :: 0 <= i < |steps| ==> Enabled(states[i], steps[i]) && states[i + 1] == After(states[i], steps[i])
  }

  lemma {:induction false} RunKeepsInv(states: seq<State>, steps: seq<Step>, i: nat)
    requires IsRun(states, steps) && i < |states|
    ensures Inv(states[i])
  {
    if i > 0 {
      RunKeepsInv(states, steps, i - 1);
      assert Enabled(states[i - 1], steps[i - 1]);
      match steps[i - 1]
      case Send(needsAck) => SendKeepsInv(states[i - 1], needsAck);
      case Handle(h) => HandleKeepsInv(states[i - 1], h);
      case Read => ReadKeepsInv(states[i - 1]);
    }
  }

  /** In every run: a confirmation, once resolved, carries the verdict on its own frame as the wire spells it; a frame
      that asked for confirmation is resolved as soon as it was handled and its acknowledgements were read; and a frame
      that did not ask never is. */
  lemma ConfirmationIsVerdict(states: seq<State>, steps: seq<Step>, i: nat, k: nat)
    requires IsRun(states, steps) && i < |states|
    ensures var s := states[i];
            && (k in s.resolved ==>
                  k in s.wanted && k in s.verdicts && s.resolved[k] == AckResult(ResultByte(s.verdicts[k])))
            && (k in s.wanted && k in s.verdicts && (forall j :: 0 <= j < |s.down| ==> s.down[j].k != k)
                ==> k in s.resolved)
  {
    RunKeepsInv(states, steps, i);
    var s := states[i];
    FirstNone(s.down, k);
    assert IdOf(k) in s.responses ==> PendingOk(s, IdOf(k));
  }

  /** A resolved confirmation is never resolved again: it keeps its value to the end of the run. */
  lemma {:induction false} ResolvedOnce(states: seq<State>, steps: seq<Step>, i: nat, j: nat, k: nat)
    requires IsRun(states, steps) && i <= j < |states| && k in states[i].resolved
    ensures k in states[j].resolved && states[j].resolved[k] == states[i].resolved[k]
    decreases j
  {
    hide IdOf, First;
    if i < j {
      ResolvedOnce(states, steps, i, j - 1, k);
      RunKeepsInv(states, steps, j - 1);
      var s, x := states[j - 1], steps[j - 1];
      assert Enabled(s, x);
      if x.Read? && s.down[0].id in s.responses {
        assert PendingOk(s, s.down[0].id);
      }
    }
  }
}
