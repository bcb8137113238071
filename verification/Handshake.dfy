/** The greeting and registration exchange: `chat` of src/ipc.rs against `handle_peer` of src/broker.rs, byte by byte
    over two first-in-first-out streams, in any interleaving. */
module Handshake {
  import opened Bytes
  import opened Protocol

  const GREETING: byte := 0xEB
  const VERSION := 1
  const HELLO: Bytes := [GREETING] + Le16(VERSION)
  const DOT: byte := 46

  /** What the broker's environment decides: whether bytes are text, who may connect, and how a registration ends. */
  datatype Policy = Policy(utf8: Bytes -> bool, admits: Name -> bool, register: Name -> Result<()>)

  datatype Client =
    | CReadHello
    | CEcho(hello: Bytes)
    | CReadStatus
    | CSendLen
    | CSendName
    | CReadVerdict
    | CDone(result: Result<()>)

  datatype Broker =
    | BSendHello
    | BReadHello
    | BRefuse
    | BAccept
    | BReadLen
    | BReadName(len: nat)
    | BDecide(name: Name)
    | BAnswer(result: Result<()>)
    | BDone(result: Result<()>)

  datatype State = State(client: Client, broker: Broker, toClient: Bytes, toBroker: Bytes, inserted: Option<Name>)

  /** `handle_peer` after the name arrived: refuse a reserved name, then a peer not admitted, then try to register. */
  function Decision(p: Policy, name: Name): Result<()> {
    if name == [] || name[0] == DOT then Err(Data)
    else if !p.admits(name) then Err(Access)
    else p.register(name)
  }

  ghost predicate Registers(p: Policy, name: Name) {
    name != [] && name[0] != DOT && p.admits(name) && p.register(name).Ok?
  }

  // ----- the two programs

  /** How many bytes a side waits for, when it is reading. */
  function ClientReads(c: Client): nat {
    match c case CReadHello => 3 case CReadStatus => 1 case CReadVerdict => 1 case _ => 0
  }

  function BrokerReads(b: Broker): nat {
    match b case BReadHello => 3 case BReadLen => 2 case BReadName(n) => n case _ => 0
  }

  predicate HelloOk(b: Bytes)
    requires |b| == 3
  {
    b[0] == GREETING && FromLe16(b[1..3]) == VERSION
  }

  ghost predicate ClientCan(s: State) {
    !s.client.CDone? && ClientReads(s.client) <= |s.toClient|
  }

  ghost function ClientMoves(s: State, name: Name): State
    requires ClientCan(s)
  {
    var n := ClientReads(s.client);
    var got := s.toClient[..n];
    var r := s.(toClient := s.toClient[n..]);
    match s.client
    case CReadHello => r.(client := if HelloOk(got) then CEcho(got) else CDone(Err(NotSupported)))
    case CEcho(hello) => r.(toBroker := s.toBroker + hello, client := CReadStatus)
    case CReadStatus => r.(client := if got[0] == RESPONSE_OK then CSendLen else CDone(AckResult(got[0])))
    case CSendLen => r.(toBroker := s.toBroker + Le16(|name|), client := CSendName)
    case CSendName => r.(toBroker := s.toBroker + name, client := CReadVerdict)
    case CReadVerdict => r.(client := CDone(AckResult(got[0])))
  }

  ghost predicate BrokerCan(s: State) {
    !s.broker.BDone? && BrokerReads(s.broker) <= |s.toBroker|
  }

  ghost function BrokerMoves(s: State, p: Policy): State
    requires BrokerCan(s)
  {
    var n := BrokerReads(s.broker);
    var got := s.toBroker[..n];
    var r := s.(toBroker := s.toBroker[n..]);
    match s.broker
    case BSendHello => r.(toClient := s.toClient + HELLO, broker := BReadHello)
    case BReadHello => r.(broker := if HelloOk(got) then BAccept else BRefuse)
    case BRefuse => r.(toClient := s.toClient + [ErrorByte(NotSupported)], broker := BDone(Err(NotSupported)))
    case BAccept => r.(toClient := s.toClient + [RESPONSE_OK], broker := BReadLen)
    case BReadLen => r.(broker := BReadName(FromLe16(got)))
    case BReadName(_) => r.(broker := if p.utf8(got) then BDecide(got) else BDone(Err(Data)))
    case BDecide(name) =>
      r.(broker := BAnswer(Decision(p, name)), inserted := if Registers(p, name) then Some(name) else s.inserted)
    case BAnswer(result) => r.(toClient := s.toClient + [ResultByte(result)], broker := BDone(result))
  }

  /** `chat` gives up before the exchange when the name does not fit its length field. */
  ghost predicate Init(s: State, name: Name) {
    s == State(if |name| < TWO_16 then CReadHello else CDone(Err(Data)), BSendHello, [], [], None)
  }

  ghost predicate Next(s: State, r: State, name: Name, p: Policy) {
    (ClientCan(s) && r == ClientMoves(s, name)) || (BrokerCan(s) && r == BrokerMoves(s, p))
  }

  ghost predicate IsRun(states: seq<State>, name: Name, p: Policy) {
    && states != [] && Init(states[0], name)
    && forall i :: 0 <= i < |states| - 1 ==> Next(states[i], states[i + 1], name, p)
  }

  // ----- the invariant: what each side has written and read so far

  ghost function ClientWrote(c: Client, name: Name): Bytes {
    match c
    case CReadHello => []
    case CEcho(_) => []
    case CReadStatus => HELLO
    case CSendLen => HELLO
    case CSendName => HELLO + Le16(|name|)
    case CReadVerdict => HELLO + Le16(|name|) + name
    case CDone(_) => HELLO + Le16(|name|) + name
  }

  ghost function ClientRead(c: Client): nat {
    match c
    case CReadHello => 0
    case CEcho(_) => 3
    case CReadStatus => 3
    case CSendLen => 4
    case CSendName => 4
    case CReadVerdict => 4
    case CDone(_) => 5
  }

  ghost function BrokerWrote(b: Broker): Bytes {
    match b
    case BSendHello => []
    case BReadHello => HELLO
    case BRefuse => HELLO
    case BAccept => HELLO
    case BDone(r) => HELLO + [RESPONSE_OK] + [ResultByte(r)]
    case _ => HELLO + [RESPONSE_OK]
  }

  ghost function BrokerRead(b: Broker, name: Name): nat {
    match b
    case BSendHello => 0
    case BReadHello => 0
    case BRefuse => 3
    case BAccept => 3
    case BReadLen => 3
    case BReadName(_) => 5
    case _ => 5 + |name|
  }

  ghost predicate ClientOk(c: Client, p: Policy, name: Name) {
    && (c.CEcho? ==> c.hello == HELLO)
    && (c.CDone? ==> c.result == AckResult(ResultByte(Decision(p, name))))
  }

  ghost predicate BrokerOk(b: Broker, p: Policy, name: Name) {
    && !b.BRefuse?
    && (b.BReadName? ==> b.len == |name|)
    && (b.BDecide? ==> b.name == name)
    && (b.BAnswer? || b.BDone? ==> b.result == Decision(p, name))
  }

  ghost predicate Inv(s: State, name: Name, p: Policy) {
    var cw, bw := ClientWrote(s.client, name), BrokerWrote(s.broker);
    var cr, br := ClientRead(s.client), BrokerRead(s.broker, name);
    && br <= |cw| && cr <= |bw|
    && s.toBroker == cw[br..] && s.toClient == bw[cr..]
    && ClientOk(s.client, p, name) && BrokerOk(s.broker, p, name)
    && s.inserted == (if (s.broker.BAnswer? || s.broker.BDone?) && Registers(p, name) then Some(name) else None)
  }

  lemma HelloFacts()
    ensures |HELLO| == 3 && HelloOk(HELLO) && HELLO[0] == GREETING
  {}

  lemma ClientKeepsInv(s: State, name: Name, p: Policy)
    requires Inv(s, name, p) && ClientCan(s) && |name| < TWO_16
    ensures Inv(ClientMoves(s, name), name, p)
  {
    if s.client.CEcho? || s.client.CSendLen? || s.client.CSendName? {
      ClientWriteKeepsInv(s, name, p);
    } else {
      ClientReadKeepsInv(s, name, p);
    }
  }

  lemma ClientWriteKeepsInv(s: State, name: Name, p: Policy)
    requires Inv(s, name, p) && (s.client.CEcho? || s.client.CSendLen? || s.client.CSendName?)
    ensures Inv(ClientMoves(s, name), name, p)
  {
    hide Le16, BrokerWrote, BrokerOk, Registers, Decision, AckResult, ResultByte;
    var more := if s.client.CEcho? then HELLO else if s.client.CSendLen? then Le16(|name|) else name;
    assert [] + HELLO == HELLO;
    assert ClientWrote(ClientMoves(s, name).client, name) == ClientWrote(s.client, name) + more;
    AppendAfter(ClientWrote(s.client, name), more, BrokerRead(s.broker, name));
  }

  lemma ClientReadKeepsInv(s: State, name: Name, p: Policy)
    requires Inv(s, name, p) && ClientCan(s) && |name| < TWO_16
    requires s.client.CReadHello? || s.client.CReadStatus? || s.client.CReadVerdict?
    ensures Inv(ClientMoves(s, name), name, p)
  {
    hide Le16, FromLe16, HelloOk, AckResult, ResultByte, Decision, Registers;
    HelloFacts();
    var n := ClientReads(s.client);
    var bw, cr := BrokerWrote(s.broker), ClientRead(s.client);
    ReadAfter(bw, cr, n);
    WholeAnswer(s.broker, cr + n);
  }

  /** The part of the broker's transcript that is there is the part that is due. */
  lemma WholeAnswer(b: Broker, upTo: nat)
    requires upTo <= |BrokerWrote(b)|
    ensures var bw := BrokerWrote(b);
            && (upTo >= 3 ==> bw[0..3] == HELLO)
            && (upTo >= 4 ==> bw[3] == RESPONSE_OK)
            && (upTo >= 5 ==> b.BDone? && bw[4] == ResultByte(b.result))
  {
    hide Le16, ResultByte;
    HelloFacts();
  }

  lemma AppendAfter(written: Bytes, more: Bytes, read: nat)
    requires read <= |written|
    ensures written[read..] + more == (written + more)[read..]
  {}

  lemma BrokerKeepsInv(s: State, name: Name, p: Policy)
    requires Inv(s, name, p) && BrokerCan(s) && |name| < TWO_16 && p.utf8(name)
    ensures Inv(BrokerMoves(s, p), name, p)
  {
    if s.broker.BReadHello? || s.broker.BReadLen? || s.broker.BReadName? {
      BrokerReadKeepsInv(s, name, p);
    } else {
      BrokerWriteKeepsInv(s, name, p);
    }
  }

  lemma BrokerReadKeepsInv(s: State, name: Name, p: Policy)
    requires Inv(s, name, p) && BrokerCan(s) && |name| < TWO_16 && p.utf8(name)
    requires s.broker.BReadHello? || s.broker.BReadLen? || s.broker.BReadName?
    ensures Inv(BrokerMoves(s, p), name, p)
  {
    hide Le16, FromLe16, HelloOk, ResultByte, AckResult, Decision, Registers;
    HelloFacts();
    Le16RoundTrip(|name|);
    var n := BrokerReads(s.broker);
    var cw, br := ClientWrote(s.client, name), BrokerRead(s.broker, name);
    ReadAfter(cw, br, n);
    WholeWritten(s.client, name, br + n);
  }

  lemma ReadAfter(written: Bytes, read: nat, n: nat)
    requires read + n <= |written|
    ensures written[read..][..n] == written[read..read + n] && written[read..][n..] == written[read + n..]
  {}

  /** The part of the client's transcript that is there is the part that is due. */
  lemma WholeWritten(c: Client, name: Name, upTo: nat)
    requires upTo <= |ClientWrote(c, name)|
    ensures var cw := ClientWrote(c, name);
            && (upTo >= 3 ==> cw[0..3] == HELLO)
            && (upTo >= 5 ==> cw[3..5] == Le16(|name|))
            && (upTo >= 5 + |name| ==> cw[5..5 + |name|] == name)
  {}

  lemma BrokerWriteKeepsInv(s: State, name: Name, p: Policy)
    requires Inv(s, name, p) && BrokerCan(s) && BrokerReads(s.broker) == 0 && !s.broker.BReadName?
    ensures Inv(BrokerMoves(s, p), name, p)
  {
    hide Le16, FromLe16, HelloOk, ResultByte, AckResult, Decision, Registers;
    HelloFacts();
    assert s.toBroker[0..] == s.toBroker;
    match s.broker
    case BSendHello => AppendAfter([], HELLO, ClientRead(s.client));
    case BAccept => AppendAfter(HELLO, [RESPONSE_OK], ClientRead(s.client));
    case BAnswer(r) => AppendAfter(HELLO + [RESPONSE_OK], [ResultByte(r)], ClientRead(s.client));
    case _ =>
  }

  lemma {:induction false} RunKeepsInv(states: seq<State>, name: Name, p: Policy, i: nat)
    requires IsRun(states, name, p) && i < |states| && |name| < TWO_16 && p.utf8(name)
    ensures Inv(states[i], name, p)
  {
    hide Le16, Decision;
    HelloFacts();
    if i > 0 {
      RunKeepsInv(states, name, p, i - 1);
      var s := states[i - 1];
      assert Next(s, states[i], name, p);
      if ClientCan(s) && states[i] == ClientMoves(s, name) {
        ClientKeepsInv(s, name, p);
      } else {
        BrokerKeepsInv(s, name, p);
      }
    }
  }

  // ----- agreement

  ghost predicate ClientWaits(s: State) { ClientReads(s.client) > |s.toClient| }
  ghost predicate BrokerWaits(s: State) { BrokerReads(s.broker) > |s.toBroker| }

  /** The two sides are never both waiting to read. */
  lemma NeverBothWait(states: seq<State>, name: Name, p: Policy, i: nat)
    requires IsRun(states, name, p) && i < |states| && |name| < TWO_16 && p.utf8(name)
    ensures !(ClientWaits(states[i]) && BrokerWaits(states[i]))
    ensures states[i].client.CDone? || ClientCan(states[i]) || BrokerCan(states[i])
  {
    hide Le16, Decision, ResultByte, AckResult;
    HelloFacts();
    RunKeepsInv(states, name, p, i);
  }

  /** `chat` succeeds exactly when the broker registered a client under the same bytes; otherwise it reports the kind
      the broker refused with: a name that is empty or begins with a dot, a peer that is not admitted, or why it could
      not be registered. */
  lemma Agreement(states: seq<State>, name: Name, p: Policy, i: nat)
    requires IsRun(states, name, p) && i < |states| && |name| < TWO_16 && p.utf8(name)
    requires p.register(name).Err? ==> p.register(name).error in {NotRegistered, Busy}
    requires states[i].client.CDone?
    ensures var s := states[i];
            && s.broker.BDone? && s.client.result == s.broker.result == Decision(p, name)
            && (s.client.result.Ok? <==> s.inserted == Some(name))
            && (s.client.result.Err? ==> s.inserted == None)
            && (if name == [] || name[0] == '.' as int then s.client.result == Err(Data)
                else if !p.admits(name) then s.client.result == Err(Access)
                else s.client.result == p.register(name))
  {
    hide Le16, ResultByte, AckResult;
    HelloFacts();
    RunKeepsInv(states, name, p, i);
    var s := states[i];
    assert |BrokerWrote(s.broker)| >= 5;
    ResultRoundTrip(Decision(p, name));
  }

  /** A name too long for its length field is refused locally, and nothing is ever sent or registered for it. */
  lemma {:induction false} TooLong(states: seq<State>, name: Name, p: Policy, i: nat)
    requires IsRun(states, name, p) && i < |states| && |name| >= TWO_16
    ensures states[i].client == CDone(Err(Data)) && states[i].toBroker == [] && states[i].inserted == None
    ensures states[i].broker.BSendHello? || states[i].broker.BReadHello?
  {
    if i > 0 {
      TooLong(states, name, p, i - 1);
      assert Next(states[i - 1], states[i], name, p);
    }
  }

  ghost function Rank(s: State): nat {
    var c := match s.client
      case CReadHello => 6 case CEcho(_) => 5 case CReadStatus => 4 case CSendLen => 3
      case CSendName => 2 case CReadVerdict => 1 case CDone(_) => 0;
    var b := match s.broker
      case BSendHello => 8 case BReadHello => 7 case BAccept => 6 case BReadLen => 5
      case BReadName(_) => 4 case BDecide(_) => 3 case BAnswer(_) => 2 case BRefuse => 1 case BDone(_) => 0;
    c + b
  }

  /** Every step uses up one of at most fourteen: the exchange ends. */
  lemma EveryStepCounts(s: State, r: State, name: Name, p: Policy)
    requires Next(s, r, name, p)
    ensures Rank(r) < Rank(s) <= 14
  {}
}
