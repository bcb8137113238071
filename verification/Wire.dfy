/** Client to broker: the frames src/ipc.rs writes and the reader loop of src/broker.rs that takes them apart. */
module Wire {
  import opened Bytes
  import opened Protocol
  import opened Ids

  /** UTF-8 validity is a test on bytes supplied from outside. */
  type Utf8 = Bytes -> bool

  // ----- bulk topic lists

  /** What `subscribe_bulk` accumulates: a separator goes in front of a topic unless nothing was written yet. */
  function Bulk(topics: seq<Name>): Bytes {
    if topics == [] then []
    else
      var before, t := Bulk(topics[..|topics| - 1]), topics[|topics| - 1];
      if before == [] then t else before + [0] + t
  }

  method BuildBulk(topics: seq<Name>) returns (payload: Bytes)
    ensures payload == Bulk(topics)
  {
    payload := [];
    for i := 0 to |topics|
      invariant payload == Bulk(topics[..i])
    {
      assert topics[..i + 1][..i] == topics[..i];
      if payload != [] {
        payload := payload + [0];
      }
      payload := payload + topics[i];
    }
    assert topics[..|topics|] == topics;
  }

  function DropEmpty(topics: seq<Name>): seq<Name> {
    if topics != [] && topics[0] == [] then DropEmpty(topics[1..]) else topics
  }

  lemma {:induction false} JoinSnoc(ts: seq<Bytes>, t: Bytes)
    requires ts != []
    ensures JoinNul(ts + [t]) == JoinNul(ts) + [0] + t
  {
    if |ts| == 1 {
      assert (ts + [t])[1..] == [t];
    } else {
      JoinSnoc(ts[1..], t);
      assert (ts + [t])[1..] == ts[1..] + [t];
    }
  }

  lemma {:induction false} DropEmptySnoc(ts: seq<Name>, t: Name)
    ensures DropEmpty(ts + [t]) == if DropEmpty(ts) == [] then DropEmpty([t]) else DropEmpty(ts) + [t]
  {
    if ts == [] {
      assert ts + [t] == [t];
    } else if ts[0] == [] {
      assert (ts + [t])[1..] == ts[1..] + [t];
      DropEmptySnoc(ts[1..], t);
    }
  }

  /** Leading empty topics vanish; the rest is joined. */
  lemma {:induction false} BulkIsJoin(topics: seq<Name>)
    ensures Bulk(topics) == JoinNul(DropEmpty(topics))
    ensures Bulk(topics) == [] <==> DropEmpty(topics) == []
  {
    if topics != [] {
      var k := |topics| - 1;
      var ts, t := topics[..k], topics[k];
      assert topics == ts + [t];
      BulkIsJoin(ts);
      DropEmptySnoc(ts, t);
      if DropEmpty(ts) != [] {
        JoinSnoc(DropEmpty(ts), t);
      }
    }
  }

  /** The broker reads the list back exactly when no topic contains a NUL and none before the last is leading and
      empty. */
  ghost predicate BulkOk(topics: seq<Name>) {
    && topics != [] && (topics[0] != [] || |topics| == 1)
    && forall i :: 0 <= i < |topics| ==> NoNul(topics[i])
  }

  lemma BulkRoundTrip(topics: seq<Name>)
    ensures SplitNul(Bulk(topics)) == topics <==> BulkOk(topics)
  {
    BulkIsJoin(topics);
    if BulkOk(topics) {
      SplitJoin(topics);
      if topics[0] == [] {
        assert topics[1..] == [];
        assert topics == [[]];
      }
    } else if topics != [] && topics[0] == [] && (forall i :: 0 <= i < |topics| ==> NoNul(topics[i])) {
      DropEmptyShorter(topics);
      var d := DropEmpty(topics);
      if d != [] {
        SplitJoin(d);
      } else {
        assert SplitNul([]) == [[]];
      }
    }
  }

  lemma {:induction false} DropEmptyShorter(ts: seq<Name>)
    ensures |DropEmpty(ts)| <= |ts|
    ensures forall i :: 0 <= i < |DropEmpty(ts)| ==> DropEmpty(ts)[i] in ts
    ensures ts != [] && ts[0] == [] ==> |DropEmpty(ts)| < |ts|
  {
    if ts != [] && ts[0] == [] {
      DropEmptyShorter(ts[1..]);
    }
  }

  // ----- frames

  datatype Outgoing =
    | Ping
    | Addressed(op: FrameOp, qos: QoS, target: Name, header: Bytes, payload: Bytes)
    | Topics(op: FrameOp, qos: QoS, topics: seq<Name>)

  /** The part of a frame the length field counts. */
  function BodyOf(f: Outgoing): Bytes
    requires !f.Ping?
  {
    match f
    case Addressed(_, _, target, header, payload) => target + [0] + header + payload
    case Topics(_, _, topics) => Bulk(topics)
  }

  function EncodeFrame(id: nat, f: Outgoing): Bytes {
    if f.Ping? then PING_FRAME
    else Le32(id) + [Flags(f.op, f.qos)] + Le32(|BodyOf(f)|) + BodyOf(f)
  }

  /** Pings carry no id and use none up. */
  function EncodeAll(fs: seq<Outgoing>, k: nat): Bytes {
    if fs == [] then []
    else if fs[0].Ping? then EncodeFrame(0, fs[0]) + EncodeAll(fs[1..], k)
    else EncodeFrame(IdOf(k + 1), fs[0]) + EncodeAll(fs[1..], k + 1)
  }

  /** What the broker makes of a frame body. An addressed frame keeps its whole buffer and where the payload starts. */
  datatype Body = To(target: Name, buf: Bytes, payloadPos: nat) | List(topics: seq<Name>)
  datatype Request = Request(id: nat, op: FrameOp, qos: QoS, body: Body)

  datatype End = Clean | Truncated | Broken
  datatype Decoded = Decoded(reqs: seq<Request>, end: End)

  function ParseBody(op: FrameOp, buf: Bytes, utf8: Utf8): (r: Result<Body>)
    ensures r.Ok? && r.value.To? ==> r.value.payloadPos <= |buf| && r.value.buf == buf
  {
    if op.SubscribeTopic? || op.UnsubscribeTopic? then
      var topics := SplitNul(buf);
      if forall i :: 0 <= i < |topics| ==> utf8(topics[i]) then Ok(List(topics)) else Err(Data)
    else
      var k := FindNul(buf);
      if k == |buf| || !utf8(buf[..k]) then Err(Data) else Ok(To(buf[..k], buf, k + 1))
  }

  function Prepend(reqs: seq<Request>, d: Decoded): Decoded {
    Decoded(reqs + d.reqs, d.end)
  }

  /** The meaning of a byte stream: the requests in it and how it ends. */
  function DecodeStream(s: Bytes, utf8: Utf8): Decoded
    decreases |s|
  {
    if s == [] then Decoded([], Clean)
    else if |s| < 9 then Decoded([], Truncated)
    else if s[4] == 0 then DecodeStream(s[9..], utf8)
    else
      var op, qos, len := OpFromByte(s[4] % 64), QosFromByte(s[4] / 64), FromLe32(s[5..9]);
      if op.Err? || qos.Err? then Decoded([], Broken)
      else if |s| < 9 + len then Decoded([], Truncated)
      else
        var body := ParseBody(op.value, s[9..9 + len], utf8);
        if body.Err? then Decoded([], Broken)
        else Prepend([Request(FromLe32(s[..4]), op.value, qos.value, body.value)], DecodeStream(s[9 + len..], utf8))
  }

  /** The reader loop. `chunk` says how many bytes the i-th `read` returns: the result does not depend on it. */
  method ReadFrames(stream: Bytes, chunk: nat -> nat, utf8: Utf8) returns (d: Decoded)
    ensures d == DecodeStream(stream, utf8)
  {
    hide FromLe32, ParseBody, OpFromByte, QosFromByte;
    var reqs: seq<Request> := [];
    var rest := stream;
    var calls := 0;
    while true
      invariant DecodeStream(stream, utf8) == Prepend(reqs, DecodeStream(rest, utf8))
      decreases |rest|
    {
      if rest == [] {
        return Decoded(reqs, Clean);
      }
      // one `read` into a 9-byte buffer, completed by `read_exact` when it was short
      var got := 1 + chunk(calls) % (if |rest| < 9 then |rest| else 9);
      calls := calls + 1;
      var head := rest[..got];
      if got < 9 {
        if |rest| < 9 {
          return Decoded(reqs, Truncated);
        }
        head := head + rest[got..9];
      }
      assert head == rest[..9];
      ghost var before := rest;
      rest := rest[9..];
      var flags := head[4];
      if flags == 0 {
        continue;
      }
      var op := OpFromByte(flags % 64);
      var qos := QosFromByte(flags / 64);
      if op.Err? || qos.Err? {
        return Decoded(reqs, Broken);
      }
      var len := FromLe32(head[5..9]);
      assert head[5..9] == before[5..9] && head[..4] == before[..4];
      if |rest| < len {
        return Decoded(reqs, Truncated);
      }
      var buf := rest[..len];
      assert buf == before[9..9 + len];
      rest := rest[len..];
      assert rest == before[9 + len..];
      var body := ParseBody(op.value, buf, utf8);
      if body.Err? {
        return Decoded(reqs, Broken);
      }
      var req := Request(FromLe32(head[..4]), op.value, qos.value, body.value);
      StepPrepends(reqs, req, before, rest, utf8);
      reqs := reqs + [req];
    }
  }

  lemma StepPrepends(reqs: seq<Request>, req: Request, before: Bytes, rest: Bytes, utf8: Utf8)
    requires DecodeStream(before, utf8) == Prepend([req], DecodeStream(rest, utf8))
    ensures Prepend(reqs, DecodeStream(before, utf8)) == Prepend(reqs + [req], DecodeStream(rest, utf8))
  {}

  // ----- round trips

  function BodyRequest(f: Outgoing): Body
    requires !f.Ping?
  {
    match f
    case Addressed(_, _, target, _, _) => To(target, BodyOf(f), |target| + 1)
    case Topics(_, _, topics) => List(topics)
  }

  function RequestOf(id: nat, f: Outgoing): Request
    requires !f.Ping?
  {
    Request(id, f.op, f.qos, BodyRequest(f))
  }

  function RequestsOf(fs: seq<Outgoing>, k: nat): seq<Request> {
    if fs == [] then []
    else if fs[0].Ping? then RequestsOf(fs[1..], k)
    else [RequestOf(IdOf(k + 1), fs[0])] + RequestsOf(fs[1..], k + 1)
  }

  /** What the client API builds: the operation goes with the shape, and all text is text. */
  ghost predicate Built(f: Outgoing, utf8: Utf8) {
    match f
    case Ping => true
    case Addressed(op, _, target, _, _) => (op.Message? || op.Broadcast? || op.PublishTopic?) && utf8(target)
    case Topics(op, _, topics) =>
      (op.SubscribeTopic? || op.UnsubscribeTopic?) && forall i :: 0 <= i < |topics| ==> utf8(topics[i])
  }

  /** What a frame needs to arrive as it was sent. */
  ghost predicate Sendable(f: Outgoing) {
    match f
    case Ping => true
    case Addressed(_, _, target, _, _) => NoNul(target) && |BodyOf(f)| < TWO_32
    case Topics(_, _, topics) => BulkOk(topics) && |BodyOf(f)| < TWO_32
  }

  lemma BodyRoundTrip(f: Outgoing, utf8: Utf8)
    requires !f.Ping? && Built(f, utf8)
    ensures ParseBody(f.op, BodyOf(f), utf8) == Ok(BodyRequest(f))
            <==> if f.Addressed? then NoNul(f.target) else BulkOk(f.topics)
  {
    match f
    case Addressed(_, _, target, header, payload) =>
      assert BodyOf(f) == target + [0] + (header + payload);
      FieldRoundTrip(target, header + payload);
    case Topics(_, _, topics) => BulkRoundTrip(topics);
  }

  /** What the decoder does with a 9-byte head `a x b` in front of `c`. */
  lemma DecodeHeaded(a: Bytes, x: byte, b: Bytes, c: Bytes, op: FrameOp, qos: QoS, utf8: Utf8)
    requires |a| == 4 && |b| == 4 && x != 0 && OpFromByte(x % 64) == Ok(op) && QosFromByte(x / 64) == Ok(qos)
    requires FromLe32(b) <= |c|
    ensures var len := FromLe32(b);
            var body := ParseBody(op, c[..len], utf8);
            DecodeStream(a + [x] + b + c, utf8) ==
              if body.Err? then Decoded([], Broken)
              else Prepend([Request(FromLe32(a), op, qos, body.value)], DecodeStream(c[len..], utf8))
  {
    hide Le32, FromLe32, ParseBody, OpFromByte, QosFromByte;
    var s, len := a + [x] + b + c, FromLe32(b);
    HeadParts(a, x, b, c);
    Slices(s, len);
  }

  lemma Slices(s: Bytes, len: nat)
    requires 9 + len <= |s|
    ensures s[9..9 + len] == s[9..][..len] && s[9 + len..] == s[9..][len..]
  {}

  lemma HeadParts(a: Bytes, x: byte, b: Bytes, c: Bytes)
    requires |a| == 4 && |b| == 4
    ensures var s := a + [x] + b + c; s[..4] == a && s[4] == x && s[5..9] == b && s[9..] == c && |s| == 9 + |c|
  {}

  lemma DecodeEncoded(id: nat, f: Outgoing, tail: Bytes, utf8: Utf8)
    requires !f.Ping? && id < TWO_32 && !f.op.Nop?
    ensures var len := |BodyOf(f)| % TWO_32;
            var c := BodyOf(f) + tail;
            var body := ParseBody(f.op, c[..len], utf8);
            DecodeStream(EncodeFrame(id, f) + tail, utf8) ==
              if body.Err? then Decoded([], Broken)
              else Prepend([Request(id, f.op, f.qos, body.value)], DecodeStream(c[len..], utf8))
  {
    hide Le32, FromLe32;
    var a, x, b, c := Le32(id), Flags(f.op, f.qos), Le32(|BodyOf(f)|), BodyOf(f) + tail;
    Le32RoundTrip(id);
    Le32RoundTrip(|BodyOf(f)|);
    FlagsRoundTrip(f.op, f.qos);
    Regroup(a, x, b, BodyOf(f), tail);
    DecodeHeaded(a, x, b, c, f.op, f.qos, utf8);
  }

  lemma Regroup(a: Bytes, x: byte, b: Bytes, c: Bytes, tail: Bytes)
    ensures a + [x] + b + c + tail == a + [x] + b + (c + tail)
  {}

  /** One frame in front of a stream. */
  lemma FrameThenStream(id: nat, f: Outgoing, tail: Bytes, utf8: Utf8)
    requires !f.Ping? && id < TWO_32 && Built(f, utf8) && Sendable(f)
    ensures DecodeStream(EncodeFrame(id, f) + tail, utf8) == Prepend([RequestOf(id, f)], DecodeStream(tail, utf8))
  {
    hide Le32, FromLe32, DecodeStream, EncodeFrame, ParseBody, BodyOf;
    var c, n := BodyOf(f) + tail, |BodyOf(f)|;
    DecodeEncoded(id, f, tail, utf8);
    BodyRoundTrip(f, utf8);
    assert c[..n] == BodyOf(f) && c[n..] == tail;
  }

  /** All the text of a frame is text. */
  ghost predicate IsText(f: Outgoing, utf8: Utf8)
    requires !f.Ping?
  {
    if f.Addressed? then utf8(f.target) else forall i :: 0 <= i < |f.topics| ==> utf8(f.topics[i])
  }

  /** A frame that would arrive but for its text, in front of anything: it breaks the stream exactly when its target,
      or one of its topics, is not text. */
  lemma NoTextBreaksStream(id: nat, f: Outgoing, tail: Bytes, utf8: Utf8)
    requires !f.Ping? && id < TWO_32 && Sendable(f) && !f.op.Nop?
    requires f.Topics? <==> f.op.SubscribeTopic? || f.op.UnsubscribeTopic?
    ensures DecodeStream(EncodeFrame(id, f) + tail, utf8) ==
              if IsText(f, utf8) then Prepend([RequestOf(id, f)], DecodeStream(tail, utf8)) else Decoded([], Broken)
  {
    hide Le32, FromLe32, DecodeStream, EncodeFrame, ParseBody, BodyOf;
    if IsText(f, utf8) {
      FrameThenStream(id, f, tail, utf8);
    } else {
      var c, n := BodyOf(f) + tail, |BodyOf(f)|;
      DecodeEncoded(id, f, tail, utf8);
      assert c[..n] == BodyOf(f);
      BodyWithoutText(f, utf8);
    }
  }

  lemma BodyWithoutText(f: Outgoing, utf8: Utf8)
    requires !f.Ping? && Sendable(f) && !IsText(f, utf8)
    requires f.Topics? <==> f.op.SubscribeTopic? || f.op.UnsubscribeTopic?
    ensures ParseBody(f.op, BodyOf(f), utf8).Err?
  {
    if f.Addressed? {
      assert BodyOf(f) == f.target + [0] + (f.header + f.payload);
      FieldRoundTrip(f.target, f.header + f.payload);
    } else {
      BulkRoundTrip(f.topics);
    }
  }

  /** A single frame arrives as it was sent exactly when it is sendable. */
  lemma FrameRoundTripIff(id: nat, f: Outgoing, utf8: Utf8)
    requires !f.Ping? && id < TWO_32 && Built(f, utf8)
    ensures DecodeStream(EncodeFrame(id, f), utf8) == Decoded([RequestOf(id, f)], Clean) <==> Sendable(f)
  {
    hide Le32, FromLe32, DecodeStream, EncodeFrame, ParseBody, BodyOf;
    var n := |BodyOf(f)|;
    assert EncodeFrame(id, f) + [] == EncodeFrame(id, f) && BodyOf(f) + [] == BodyOf(f);
    if Sendable(f) {
      FrameThenStream(id, f, [], utf8);
      EmptyStream(utf8);
    } else {
      var len := n % TWO_32;
      DecodeEncoded(id, f, [], utf8);
      BodyRoundTrip(f, utf8);
      if n < TWO_32 {
        assert BodyOf(f)[..n] == BodyOf(f);
      } else {
        ShortBody(f, len, utf8);
      }
      var body := ParseBody(f.op, BodyOf(f)[..len], utf8);
      assert body != Ok(BodyRequest(f));
      if body.Ok? {
        PrependHead(Request(id, f.op, f.qos, body.value), DecodeStream(BodyOf(f)[len..], utf8));
      }
    }
  }

  lemma PrependHead(r: Request, d: Decoded)
    ensures Prepend([r], d).reqs[0] == r
  {}

  lemma EmptyStream(utf8: Utf8)
    ensures DecodeStream([], utf8) == Decoded([], Clean)
  {}

  lemma PingThenStream(tail: Bytes, utf8: Utf8)
    ensures DecodeStream(PING_FRAME + tail, utf8) == DecodeStream(tail, utf8)
  {}

  /** A body cut short by a length field that wrapped is not mistaken for the whole. */
  lemma ShortBody(f: Outgoing, len: nat, utf8: Utf8)
    requires !f.Ping? && Built(f, utf8) && len < |BodyOf(f)|
    ensures ParseBody(f.op, BodyOf(f)[..len], utf8) != Ok(BodyRequest(f))
  {
    if f.Topics? {
      var cut := BodyOf(f)[..len];
      JoinSplit(cut);
      BulkIsJoin(f.topics);
      BulkNotLonger(f.topics);
    }
  }

  lemma {:induction false} BulkNotLonger(ts: seq<Name>)
    ensures |JoinNul(DropEmpty(ts))| <= |JoinNul(ts)|
  {
    if |ts| > 1 && ts[0] == [] {
      BulkNotLonger(ts[1..]);
    } else if |ts| == 1 {
      assert ts[1..] == [];
    }
  }

  /** Any sequence of frames and pings, followed by anything, decodes to the same sequence followed by whatever the
      rest means. */
  lemma {:induction false} StreamRoundTrip(fs: seq<Outgoing>, k: nat, tail: Bytes, utf8: Utf8)
    requires forall i :: 0 <= i < |fs| ==> Built(fs[i], utf8) && Sendable(fs[i])
    ensures DecodeStream(EncodeAll(fs, k) + tail, utf8) == Prepend(RequestsOf(fs, k), DecodeStream(tail, utf8))
  {
    hide Le32, FromLe32, DecodeStream;
    if fs == [] {
      assert EncodeAll(fs, k) + tail == tail;
    } else if fs[0].Ping? {
      StreamRoundTrip(fs[1..], k, tail, utf8);
      Concat(EncodeFrame(0, Ping), EncodeAll(fs[1..], k), tail);
      PingThenStream(EncodeAll(fs[1..], k) + tail, utf8);
    } else {
      StreamRoundTrip(fs[1..], k + 1, tail, utf8);
      var id := IdOf(k + 1);
      Concat(EncodeFrame(id, fs[0]), EncodeAll(fs[1..], k + 1), tail);
      FrameThenStream(id, fs[0], EncodeAll(fs[1..], k + 1) + tail, utf8);
      PrependTwice([RequestOf(id, fs[0])], RequestsOf(fs[1..], k + 1), DecodeStream(tail, utf8));
    }
  }

  /** A frame that breaks off. */
  lemma CutFrame(id: nat, f: Outgoing, n: nat, utf8: Utf8)
    requires !f.Ping? && id < TWO_32 && !f.op.Nop? && Sendable(f) && 0 < n < |EncodeFrame(id, f)|
    ensures DecodeStream(EncodeFrame(id, f)[..n], utf8) == Decoded([], Truncated)
  {
    hide Le32, FromLe32, ParseBody, BodyOf;
    if n >= 9 {
      var a, x, b, c := Le32(id), Flags(f.op, f.qos), Le32(|BodyOf(f)|), BodyOf(f);
      var s := EncodeFrame(id, f)[..n];
      assert s == a + [x] + b + c[..n - 9];
      HeadParts(a, x, b, c[..n - 9]);
      Le32RoundTrip(|BodyOf(f)|);
      FlagsRoundTrip(f.op, f.qos);
    }
  }

  /** A stream that breaks off in the middle of a frame: everything before that frame is handed over, and the end is
      known to be premature; one that ends between frames ends cleanly. */
  lemma CutStream(fs: seq<Outgoing>, k: nat, id: nat, f: Outgoing, n: nat, utf8: Utf8)
    requires forall i :: 0 <= i < |fs| ==> Built(fs[i], utf8) && Sendable(fs[i])
    requires !f.Ping? && id < TWO_32 && !f.op.Nop? && Sendable(f) && n < |EncodeFrame(id, f)|
    ensures DecodeStream(EncodeAll(fs, k) + EncodeFrame(id, f)[..n], utf8)
            == Decoded(RequestsOf(fs, k), if n == 0 then Clean else Truncated)
  {
    hide DecodeStream, EncodeFrame, Sendable;
    var tail := EncodeFrame(id, f)[..n];
    StreamRoundTrip(fs, k, tail, utf8);
    if n == 0 {
      assert tail == [];
      EmptyStream(utf8);
    } else {
      CutFrame(id, f, n, utf8);
    }
    assert RequestsOf(fs, k) + [] == RequestsOf(fs, k);
  }

  /** A head whose operation is none of the six breaks the stream, whatever follows. */
  lemma UnknownOpBreaks(s: Bytes, utf8: Utf8)
    requires |s| >= 9 && s[4] != 0
    ensures (forall op :: OpByte(op) != s[4] % 64) ==> DecodeStream(s, utf8) == Decoded([], Broken)
    ensures (exists op :: OpByte(op) == s[4] % 64) && |s| < 9 + FromLe32(s[5..9]) ==>
              DecodeStream(s, utf8) == Decoded([], Truncated)
  {
    hide FromLe32;
    var x := s[4] % 64;
    assert OpFromByte(x).Ok? ==> OpByte(OpFromByte(x).value) == x;
    if op :| OpByte(op) == x {
      assert OpFromByte(x) == Ok(op);
      assert QosFromByte(s[4] / 64).Ok?;
    }
  }

  lemma Concat(a: Bytes, b: Bytes, c: Bytes)
    ensures a + b + c == a + (b + c)
  {}

  lemma PrependTwice(a: seq<Request>, b: seq<Request>, d: Decoded)
    ensures Prepend(a, Prepend(b, d)) == Prepend(a + b, d)
  {}
}
