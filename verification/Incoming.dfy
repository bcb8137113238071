/** Broker to client: the writer loop of src/broker.rs, the read loop of src/ipc.rs, and both codecs end to end. */
module Incoming {
  import opened Bytes
  import opened Protocol
  import Ids
  import Wire

  type Utf8 = Wire.Utf8

  // ----- the writer

  datatype Flush = NoFlush | Scheduled | Instant

  function FlushOf(realtime: bool): Flush {
    if realtime then Instant else Scheduled
  }

  /** One call of the buffered writer. */
  datatype Write = Write(data: Bytes, flush: Flush)

  function Field(text: Option<Name>): Bytes {
    if text.Some? then text.value + [0] else []
  }

  function Fields(f: Frame): Bytes {
    Field(f.sender) + Field(f.topic)
  }

  /** The calls `handle_writer` makes for one queued frame. */
  function WritesOf(f: Frame): (r: seq<Write>)
    requires f.InBounds()
    ensures r != [] && r[|r| - 1].flush == FlushOf(f.realtime)
    ensures forall i :: 0 <= i < |r| - 1 ==> r[i].flush == NoFlush
  {
    if f.kind.KPrepared? then [Write(f.buf, FlushOf(f.realtime))]
    else
      var extra := |Fields(f)| + if f.header.Some? then |f.header.value| else 0;
      var len := extra + |f.buf| - f.payloadPos;
      var head := [KindByte(f.kind)] + Le32(len) + [if f.realtime then 1 else 0] + Fields(f);
      [Write(head, NoFlush)]
      + (if f.header.Some? then [Write(f.header.value, NoFlush)] else [])
      + [Write(f.Payload(), FlushOf(f.realtime))]
  }

  function Output(ws: seq<Write>): Bytes {
    if ws == [] then [] else Output(ws[..|ws| - 1]) + ws[|ws| - 1].data
  }

  lemma {:induction false} OutputConcat(a: seq<Write>, b: seq<Write>)
    ensures Output(a + b) == Output(a) + Output(b)
  {
    if b == [] {
      assert a + b == a;
    } else {
      var k := |b| - 1;
      OutputConcat(a, b[..k]);
      assert (a + b)[..|a| + k] == a + b[..k] && (a + b)[|a| + k] == b[k];
      Wire.Concat(Output(a), Output(b[..k]), b[k].data);
    }
  }

  /** The bytes of one frame: a 6-byte head, the text fields, the header if any, the payload. */
  function EncodeOut(f: Frame): Bytes
    requires f.InBounds()
  {
    if f.kind.KPrepared? then f.buf
    else [KindByte(f.kind)] + Le32(|BodyOut(f)|) + [if f.realtime then 1 else 0] + BodyOut(f)
  }

  function BodyOut(f: Frame): Bytes
    requires f.InBounds()
  {
    Fields(f) + f.Content()
  }

  function EncodeQueue(fs: seq<Frame>): Bytes
    requires forall i :: 0 <= i < |fs| ==> fs[i].InBounds()
  {
    if fs == [] then [] else EncodeQueue(fs[..|fs| - 1]) + EncodeOut(fs[|fs| - 1])
  }

  lemma OutputOne(w: Write)
    ensures Output([w]) == w.data
  {}

  lemma Join4(x: Bytes, fields: Bytes, header: Bytes, payload: Bytes)
    ensures x + fields + header + payload == x + (fields + (header + payload))
  {}

  lemma WritesSpellFrame(f: Frame)
    requires f.InBounds()
    ensures Output(WritesOf(f)) == EncodeOut(f)
  {
    hide Le32, Output;
    if f.kind.KPrepared? {
      OutputOne(WritesOf(f)[0]);
    } else {
      var n := |BodyOut(f)|;
      var x := [KindByte(f.kind)] + Le32(n) + [if f.realtime then 1 else 0];
      var head, last := Write(x + Fields(f), NoFlush), Write(f.Payload(), FlushOf(f.realtime));
      var mid := if f.header.Some? then [Write(f.header.value, NoFlush)] else [];
      var header := if f.header.Some? then f.header.value else [];
      assert WritesOf(f) == [head] + mid + [last];
      OutputConcat([head] + mid, [last]);
      OutputConcat([head], mid);
      OutputOne(head);
      OutputOne(last);
      if f.header.Some? { OutputOne(mid[0]); } else { OutputNone(); }
      Join4(x, Fields(f), header, f.Payload());
    }
  }

  lemma OutputNone()
    ensures Output([]) == []
  {}

  /** The writes of a whole queue: frame by frame, each ending in the one write that asks for a flush. */
  ghost function AllWrites(queue: seq<Frame>): seq<Write>
    requires forall i :: 0 <= i < |queue| ==> queue[i].InBounds()
  {
    if queue == [] then [] else AllWrites(queue[..|queue| - 1]) + WritesOf(queue[|queue| - 1])
  }

  /** The writer loop: frame by frame, in queue order. */
  method HandleWriter(queue: seq<Frame>) returns (writes: seq<Write>)
    requires forall i :: 0 <= i < |queue| ==> queue[i].InBounds()
    ensures writes == AllWrites(queue) && Output(writes) == EncodeQueue(queue)
  {
    writes := [];
    for i := 0 to |queue|
      invariant writes == AllWrites(queue[..i]) && Output(writes) == EncodeQueue(queue[..i])
    {
      var f := queue[i];
      WritesSpellFrame(f);
      OutputConcat(writes, WritesOf(f));
      assert queue[..i + 1][..i] == queue[..i];
      writes := writes + WritesOf(f);
    }
    assert queue[..|queue|] == queue;
  }

  // ----- the reader

  datatype Item = Ack(id: nat, code: byte) | Got(frame: Frame)
  datatype End = OutOfBytes | Malformed
  datatype Received = Received(items: seq<Item>, end: End)

  function Prepend(items: seq<Item>, r: Received): Received {
    Received(items + r.items, r.end)
  }

  function ParseFrame(kind: FrameKind, buf: Bytes, realtime: bool, utf8: Utf8): (r: Result<Frame>)
    ensures r.Ok? ==> r.value.InBounds() && r.value.buf == buf && r.value.header.None?
    ensures r.Ok? && r.value.sender.Some? ==> NoNul(r.value.sender.value)
    ensures r.Ok? && r.value.topic.Some? ==> NoNul(r.value.topic.value)
  {
    var i := FindNul(buf);
    if i == |buf| || !utf8(buf[..i]) then Err(Data)
    else if !kind.KPublish? then Ok(Frame(kind, Some(buf[..i]), None, None, buf, i + 1, realtime))
    else
      var rest := buf[i + 1..];
      var j := FindNul(rest);
      if j == |rest| || !utf8(rest[..j]) then Err(Data)
      else Ok(Frame(kind, Some(buf[..i]), Some(rest[..j]), None, buf, i + j + 2, realtime))
  }

  /** The meaning of the bytes a client receives. */
  function DecodeIncoming(s: Bytes, utf8: Utf8): Received
    decreases |s|
  {
    if |s| < 6 then Received([], OutOfBytes)
    else
      var kind, realtime, n := KindFromByte(s[0]), s[5] != 0, FromLe32(s[1..5]);
      if kind.Err? then Received([], Malformed)
      else if kind.value.KNop? then DecodeIncoming(s[6..], utf8)
      else if kind.value.KAcknowledge? then Prepend([Ack(n, s[5])], DecodeIncoming(s[6..], utf8))
      else if |s| < 6 + n then Received([], OutOfBytes)
      else
        var f := ParseFrame(kind.value, s[6..6 + n], realtime, utf8);
        if f.Err? then Received([], Malformed)
        else Prepend([Got(f.value)], DecodeIncoming(s[6 + n..], utf8))
  }

  method HandleRead(stream: Bytes, utf8: Utf8) returns (r: Received)
    ensures r == DecodeIncoming(stream, utf8)
  {
    hide FromLe32, ParseFrame, KindFromByte;
    var items: seq<Item> := [];
    var rest := stream;
    while true
      invariant DecodeIncoming(stream, utf8) == Prepend(items, DecodeIncoming(rest, utf8))
      decreases |rest|
    {
      if |rest| < 6 {
        return Received(items, OutOfBytes);
      }
      ghost var before := rest;
      var head := rest[..6];
      var n := FromLe32(head[1..5]);
      assert head[1..5] == before[1..5];
      rest := rest[6..];
      var kind := KindFromByte(head[0]);
      if kind.Err? {
        return Received(items, Malformed);
      }
      if kind.value.KNop? {
        continue;
      }
      var item := Ack(n, head[5]);
      if !kind.value.KAcknowledge? {
        if |rest| < n {
          return Received(items, OutOfBytes);
        }
        var buf := rest[..n];
        assert buf == before[6..6 + n];
        rest := rest[n..];
        assert rest == before[6 + n..];
        var f := ParseFrame(kind.value, buf, head[5] != 0, utf8);
        if f.Err? {
          return Received(items, Malformed);
        }
        item := Got(f.value);
      }
      PrependTwice(items, [item], DecodeIncoming(rest, utf8));
      items := items + [item];
    }
  }

  lemma PrependTwice(a: seq<Item>, b: seq<Item>, r: Received)
    ensures Prepend(a, Prepend(b, r)) == Prepend(a + b, r)
  {}

  // ----- round trips

  /** The frames a broker puts on a queue: addressed traffic with its text fields, acknowledgements, keep-alives. */
  ghost predicate Queued(f: Frame, utf8: Utf8) {
    && f.InBounds()
    && match f.kind
       case KMessage => f.sender.Some? && f.topic.None? && utf8(f.sender.value)
       case KBroadcast => f.sender.Some? && f.topic.None? && utf8(f.sender.value)
       case KPublish => f.sender.Some? && f.topic.Some? && utf8(f.sender.value) && utf8(f.topic.value)
       case KPrepared => |f.buf| == 6 && f.buf[0] == OP_ACK
       case KNop => f.sender.None? && f.topic.None? && f.header.None? && f.Payload() == []
       case KAcknowledge => false
  }

  ghost predicate Traffic(f: Frame) {
    f.kind.KMessage? || f.kind.KBroadcast? || f.kind.KPublish?
  }

  ghost predicate TextOk(f: Frame) {
    (f.sender.Some? ==> NoNul(f.sender.value)) && (f.topic.Some? ==> NoNul(f.topic.value))
  }

  /** The frame as the receiver holds it: the fields and the whole content in one buffer. */
  ghost function Delivered(f: Frame): Frame
    requires f.InBounds()
  {
    Frame(f.kind, f.sender, f.topic, None, BodyOut(f), |Fields(f)|, f.realtime)
  }

  ghost function ItemsOf(f: Frame): seq<Item>
    requires f.InBounds() && (f.kind.KPrepared? ==> |f.buf| == 6)
  {
    if f.kind.KNop? then []
    else if f.kind.KPrepared? then [Ack(FromLe32(f.buf[1..5]), f.buf[5])]
    else [Got(Delivered(f))]
  }

  lemma ParseRoundTrip(f: Frame, utf8: Utf8)
    requires Queued(f, utf8) && Traffic(f)
    ensures ParseFrame(f.kind, BodyOut(f), f.realtime, utf8) == Ok(Delivered(f)) <==> TextOk(f)
  {
    var body, tail := BodyOut(f), Field(f.topic) + f.Content();
    assert body == f.sender.value + [0] + tail;
    FieldRoundTrip(f.sender.value, tail);
    if f.kind.KPublish? && NoNul(f.sender.value) {
      PublishRoundTrip(f, utf8);
    }
  }

  lemma PublishRoundTrip(f: Frame, utf8: Utf8)
    requires Queued(f, utf8) && f.kind.KPublish? && NoNul(f.sender.value)
    ensures ParseFrame(f.kind, BodyOut(f), f.realtime, utf8) == Ok(Delivered(f)) <==> NoNul(f.topic.value)
  {
    hide FindNul;
    var body, c := BodyOut(f), f.Content();
    var tail := f.topic.value + [0] + c;
    assert body == f.sender.value + [0] + tail;
    FieldRoundTrip(f.sender.value, tail);
    FieldRoundTrip(f.topic.value, c);
  }

  /** The delivered frame carries the same content. */
  lemma DeliveredContent(f: Frame)
    requires f.InBounds()
    ensures Delivered(f).InBounds() && Delivered(f).Payload() == f.Content()
  {}

  lemma KindRoundTrip(k: FrameKind)
    ensures KindFromByte(KindByte(k)) == Ok(k) <==> !k.KPrepared?
  {}

  lemma HeadParts(x: byte, b: Bytes, y: byte, c: Bytes)
    requires |b| == 4
    ensures var s := [x] + b + [y] + c; s[0] == x && s[1..5] == b && s[5] == y && s[6..] == c && |s| == 6 + |c|
  {}

  lemma Slices(s: Bytes, len: nat)
    requires 6 + len <= |s|
    ensures s[6..6 + len] == s[6..][..len] && s[6 + len..] == s[6..][len..]
  {}

  /** What the decoder does with traffic of kind `k` whose length field says `b`. */
  lemma DecodeHeaded(k: FrameKind, b: Bytes, y: byte, c: Bytes, utf8: Utf8)
    requires k.KMessage? || k.KBroadcast? || k.KPublish?
    requires |b| == 4 && FromLe32(b) <= |c|
    ensures var len := FromLe32(b);
            var f := ParseFrame(k, c[..len], y != 0, utf8);
            DecodeIncoming([KindByte(k)] + b + [y] + c, utf8) ==
              if f.Err? then Received([], Malformed)
              else Prepend([Got(f.value)], DecodeIncoming(c[len..], utf8))
  {
    hide FromLe32, ParseFrame, KindByte, KindFromByte, DecodeIncoming;
    var s := [KindByte(k)] + b + [y] + c;
    KindRoundTrip(k);
    HeadParts(KindByte(k), b, y, c);
    Slices(s, FromLe32(b));
    DecodeOne(s, k, utf8);
  }

  lemma DecodeOne(s: Bytes, k: FrameKind, utf8: Utf8)
    requires |s| >= 6 && KindFromByte(s[0]) == Ok(k) && (k.KMessage? || k.KBroadcast? || k.KPublish?)
    requires 6 + FromLe32(s[1..5]) <= |s|
    ensures var n := FromLe32(s[1..5]);
            var f := ParseFrame(k, s[6..6 + n], s[5] != 0, utf8);
            DecodeIncoming(s, utf8) ==
              if f.Err? then Received([], Malformed)
              else Prepend([Got(f.value)], DecodeIncoming(s[6 + n..], utf8))
  {}

  lemma DecodeTraffic(f: Frame, tail: Bytes, any: Utf8, utf8: Utf8)
    requires Queued(f, any) && Traffic(f)
    ensures var c := BodyOut(f) + tail;
            var len := |BodyOut(f)| % TWO_32;
            var r := ParseFrame(f.kind, c[..len], f.realtime, utf8);
            DecodeIncoming(EncodeOut(f) + tail, utf8) ==
              if r.Err? then Received([], Malformed) else Prepend([Got(r.value)], DecodeIncoming(c[len..], utf8))
  {
    hide Le32, FromLe32, DecodeIncoming, ParseFrame, BodyOut;
    var b, y := Le32(|BodyOut(f)|), if f.realtime then 1 else 0;
    Le32RoundTrip(|BodyOut(f)|);
    Regroup(KindByte(f.kind), b, y, BodyOut(f), tail);
    DecodeHeaded(f.kind, b, y, BodyOut(f) + tail, utf8);
  }

  lemma Regroup(x: byte, b: Bytes, y: byte, c: Bytes, tail: Bytes)
    ensures [x] + b + [y] + c + tail == [x] + b + [y] + (c + tail)
  {}

  /** One queued frame in front of a stream. */
  lemma FrameThenStream(f: Frame, tail: Bytes, utf8: Utf8)
    requires Queued(f, utf8) && TextOk(f) && |BodyOut(f)| < TWO_32
    ensures DecodeIncoming(EncodeOut(f) + tail, utf8) == Prepend(ItemsOf(f), DecodeIncoming(tail, utf8))
  {
    if Traffic(f) {
      TrafficThenStream(f, tail, utf8);
    } else if f.kind.KPrepared? {
      AckThenStream(f.buf, tail, utf8);
    } else {
      NopThenStream(f, tail, utf8);
    }
  }

  lemma TrafficThenStream(f: Frame, tail: Bytes, utf8: Utf8)
    requires Queued(f, utf8) && TextOk(f) && |BodyOut(f)| < TWO_32 && Traffic(f)
    ensures DecodeIncoming(EncodeOut(f) + tail, utf8) == Prepend([Got(Delivered(f))], DecodeIncoming(tail, utf8))
  {
    hide DecodeIncoming, ParseFrame, BodyOut, EncodeOut;
    DecodeTraffic(f, tail, utf8, utf8);
    ParseRoundTrip(f, utf8);
    var c, n := BodyOut(f) + tail, |BodyOut(f)|;
    assert c[..n] == BodyOut(f) && c[n..] == tail;
  }

  lemma AckThenStream(buf: Bytes, tail: Bytes, utf8: Utf8)
    requires |buf| == 6 && buf[0] == OP_ACK
    ensures DecodeIncoming(buf + tail, utf8) == Prepend([Ack(FromLe32(buf[1..5]), buf[5])], DecodeIncoming(tail, utf8))
  {
    hide FromLe32;
    var s := buf + tail;
    assert s[1..5] == buf[1..5] && s[6..] == tail && s[5] == buf[5];
  }

  lemma NopThenStream(f: Frame, tail: Bytes, utf8: Utf8)
    requires Queued(f, utf8) && f.kind.KNop?
    ensures DecodeIncoming(EncodeOut(f) + tail, utf8) == Prepend([], DecodeIncoming(tail, utf8))
  {
    hide Le32, FromLe32;
    var s := EncodeOut(f) + tail;
    assert BodyOut(f) == [];
    assert |s| == 6 + |tail| && s[0] == OP_NOP && s[6..] == tail;
    assert [] + DecodeIncoming(tail, utf8).items == DecodeIncoming(tail, utf8).items;
  }

  /** Traffic arrives as it was queued exactly when its names contain no NUL and its length fits the field. */
  lemma TrafficRoundTripIff(f: Frame, utf8: Utf8)
    requires Queued(f, utf8) && Traffic(f)
    ensures DecodeIncoming(EncodeOut(f), utf8) == Received([Got(Delivered(f))], OutOfBytes)
            <==> TextOk(f) && |BodyOut(f)| < TWO_32
  {
    hide DecodeIncoming, ParseFrame, BodyOut, EncodeOut;
    var body := BodyOut(f);
    var len := |body| % TWO_32;
    assert EncodeOut(f) + [] == EncodeOut(f) && body + [] == body;
    DecodeTraffic(f, [], utf8, utf8);
    ParseRoundTrip(f, utf8);
    if |body| < TWO_32 {
      assert body[..len] == body && body[len..] == [];
    }
    NothingLeft(utf8);
    var r := ParseFrame(f.kind, body[..len], f.realtime, utf8);
    assert r.Ok? ==> r.value.buf == body[..len];
    if r.Ok? {
      PrependHead(Got(r.value), DecodeIncoming(body[len..], utf8));
    }
  }

  lemma PrependHead(x: Item, r: Received)
    ensures Prepend([x], r).items[0] == x
  {}

  lemma NothingLeft(utf8: Utf8)
    ensures DecodeIncoming([], utf8) == Received([], OutOfBytes)
  {}

  ghost function AllItems(fs: seq<Frame>): seq<Item>
    requires forall i :: 0 <= i < |fs| ==> fs[i].InBounds() && (fs[i].kind.KPrepared? ==> |fs[i].buf| == 6)
  {
    if fs == [] then [] else AllItems(fs[..|fs| - 1]) + ItemsOf(fs[|fs| - 1])
  }

  ghost predicate Deliverable(f: Frame, utf8: Utf8) {
    Queued(f, utf8) && TextOk(f) && |BodyOut(f)| < TWO_32
  }

  /** A whole queue, written out and read back, yields its messages, publications and acknowledgements in order. */
  lemma {:induction false} QueueRoundTrip(fs: seq<Frame>, tail: Bytes, utf8: Utf8)
    requires forall i :: 0 <= i < |fs| ==> Deliverable(fs[i], utf8)
    requires forall i :: 0 <= i < |fs| ==> fs[i].InBounds() && (fs[i].kind.KPrepared? ==> |fs[i].buf| == 6)
    ensures DecodeIncoming(EncodeQueue(fs) + tail, utf8) == Prepend(AllItems(fs), DecodeIncoming(tail, utf8))
  {
    hide DecodeIncoming, EncodeOut, ItemsOf, TextOk, BodyOut;
    if fs == [] {
      assert EncodeQueue(fs) + tail == tail;
      PrependNone(DecodeIncoming(tail, utf8));
    } else {
      var k := |fs| - 1;
      var last := EncodeOut(fs[k]);
      QueueRoundTrip(fs[..k], last + tail, utf8);
      FrameThenStream(fs[k], tail, utf8);
      Wire.Concat(EncodeQueue(fs[..k]), last, tail);
      PrependTwice(AllItems(fs[..k]), ItemsOf(fs[k]), DecodeIncoming(tail, utf8));
    }
  }

  /** A frame that breaks off leaves nothing to read but what came before it. */
  lemma CutFrame(f: Frame, n: nat, utf8: Utf8)
    requires Deliverable(f, utf8) && n < |EncodeOut(f)|
    ensures DecodeIncoming(EncodeOut(f)[..n], utf8) == Received([], OutOfBytes)
  {
    hide Le32, FromLe32, ParseFrame, BodyOut;
    if n >= 6 {
      if f.kind.KNop? {
        NothingInside(f);
      } else {
        var b, y, c := Le32(|BodyOut(f)|), if f.realtime then 1 else 0, BodyOut(f);
        var s := EncodeOut(f)[..n];
        assert s == [KindByte(f.kind)] + b + [y] + c[..n - 6];
        HeadParts(KindByte(f.kind), b, y, c[..n - 6]);
        Le32RoundTrip(|BodyOut(f)|);
        KindRoundTrip(f.kind);
      }
    }
  }

  lemma NothingInside(f: Frame)
    requires f.InBounds() && f.kind.KNop? && f.sender.None? && f.topic.None? && f.header.None? && f.Payload() == []
    ensures |EncodeOut(f)| == 6
  {
    hide Le32;
    assert BodyOut(f) == [];
  }

  /** A connection that breaks off at any byte: all the frames that came whole are handed over, and nothing else. */
  lemma CutQueue(fs: seq<Frame>, f: Frame, n: nat, utf8: Utf8)
    requires forall i :: 0 <= i < |fs| ==> Deliverable(fs[i], utf8)
    requires forall i :: 0 <= i < |fs| ==> fs[i].InBounds() && (fs[i].kind.KPrepared? ==> |fs[i].buf| == 6)
    requires Deliverable(f, utf8) && n < |EncodeOut(f)|
    ensures DecodeIncoming(EncodeQueue(fs) + EncodeOut(f)[..n], utf8) == Received(AllItems(fs), OutOfBytes)
  {
    hide DecodeIncoming, EncodeOut, ItemsOf, BodyOut, TextOk;
    QueueRoundTrip(fs, EncodeOut(f)[..n], utf8);
    CutFrame(f, n, utf8);
    assert AllItems(fs) + [] == AllItems(fs);
  }

  /** Traffic that would arrive but for its text, in front of anything: it is malformed exactly when the sender, or the
      topic of a publication, is not text. */
  lemma MalformedIff(f: Frame, tail: Bytes, utf8: Utf8, any: Utf8)
    requires Queued(f, any) && Traffic(f) && TextOk(f) && |BodyOut(f)| < TWO_32
    ensures DecodeIncoming(EncodeOut(f) + tail, utf8) ==
              if utf8(f.sender.value) && (f.kind.KPublish? ==> utf8(f.topic.value))
              then Prepend([Got(Delivered(f))], DecodeIncoming(tail, utf8))
              else Received([], Malformed)
  {
    hide DecodeIncoming, EncodeOut, ParseFrame, BodyOut, TextOk;
    if utf8(f.sender.value) && (f.kind.KPublish? ==> utf8(f.topic.value)) {
      TrafficThenStream(f, tail, utf8);
    } else {
      var c, n := BodyOut(f) + tail, |BodyOut(f)|;
      DecodeTraffic(f, tail, any, utf8);
      assert c[..n] == BodyOut(f);
      NoText(f, utf8, any);
    }
  }

  lemma NoText(f: Frame, utf8: Utf8, any: Utf8)
    requires Queued(f, any) && Traffic(f) && TextOk(f)
    requires !(utf8(f.sender.value) && (f.kind.KPublish? ==> utf8(f.topic.value)))
    ensures ParseFrame(f.kind, BodyOut(f), f.realtime, utf8).Err?
  {
    hide FindNul;
    var body, tail := BodyOut(f), Field(f.topic) + f.Content();
    assert body == f.sender.value + [0] + tail;
    FieldRoundTrip(f.sender.value, tail);
    if f.kind.KPublish? {
      assert tail == f.topic.value + [0] + f.Content();
      FieldRoundTrip(f.topic.value, f.Content());
    }
  }

  /** A head of an unknown kind is malformed, whatever follows. */
  lemma UnknownKind(s: Bytes, utf8: Utf8)
    requires |s| >= 6 && forall k: FrameKind :: k.KPrepared? || KindByte(k) != s[0]
    ensures DecodeIncoming(s, utf8) == Received([], Malformed)
  {
    KnownKind(s[0]);
  }

  lemma KnownKind(b: byte)
    ensures KindFromByte(b).Ok? ==> KindByte(KindFromByte(b).value) == b && !KindFromByte(b).value.KPrepared?
  {}

  lemma PrependNone(r: Received)
    ensures Prepend([], r) == r
  {}

  // ----- end to end

  /** The frame the broker queues for a request it decoded from `sender`. */
  function BrokerFrame(req: Wire.Request, sender: Name): Frame
    requires req.body.To?
  {
    var kind := if req.op.Broadcast? then KBroadcast else if req.op.PublishTopic? then KPublish else KMessage;
    Frame(kind, Some(sender), if req.op.PublishTopic? then Some(req.body.target) else None, None,
          req.body.buf, req.body.payloadPos, req.qos.IsRealtime())
  }

  /** The length field of the frame the broker makes of `f`. */
  function OutLength(f: Wire.Outgoing, sender: Name): nat
    requires f.Addressed?
  {
    |sender| + 1 + (if f.op.PublishTopic? then |f.target| + 1 else 0) + |f.header| + |f.payload|
  }

  /** `x` is `f` as an application gets it: same sender, kind, topic and realtime flag, and the bytes of the header
      followed by the payload. */
  ghost predicate Arrives(x: Item, f: Wire.Outgoing, sender: Name)
    requires f.Addressed?
  {
    && x.Got?
    && var g := x.frame;
       && g.InBounds()
       && g.sender == Some(sender)
       && g.kind == (if f.op.Broadcast? then KBroadcast else if f.op.PublishTopic? then KPublish else KMessage)
       && g.topic == (if f.op.PublishTopic? then Some(f.target) else None)
       && g.realtime == f.qos.IsRealtime()
       && g.Payload() == f.header + f.payload
  }

  /** What the broker makes of a frame that was sent: deliverable exactly when its length fits, and then faithful. */
  lemma BrokerFrameContent(id: nat, f: Wire.Outgoing, sender: Name, utf8: Utf8)
    requires f.Addressed? && Wire.Built(f, utf8) && Wire.Sendable(f) && utf8(sender) && NoNul(sender)
    ensures var q := BrokerFrame(Wire.RequestOf(id, f), sender);
            && q.InBounds() && Traffic(q) && !q.kind.KPrepared? && Queued(q, utf8) && TextOk(q)
                && |BodyOut(q)| == OutLength(f, sender)
            && (Deliverable(q, utf8) <==> OutLength(f, sender) < TWO_32)
            && Arrives(Got(Delivered(q)), f, sender)
  {
    var q := BrokerFrame(Wire.RequestOf(id, f), sender);
    assert q.buf == f.target + [0] + f.header + f.payload;
    assert q.Payload() == f.header + f.payload;
    DeliveredContent(q);
  }

  /** One frame, through both codecs, whatever bytes it carries: it arrives as it was sent exactly when the length of
      what the broker sends on fits its field. */
  lemma EndToEnd(id: nat, f: Wire.Outgoing, sender: Name, utf8: Utf8)
    requires f.Addressed? && id < TWO_32 && Wire.Built(f, utf8) && Wire.Sendable(f) && utf8(sender) && NoNul(sender)
    ensures var d := Wire.DecodeStream(Wire.EncodeFrame(id, f), utf8);
            && d == Wire.Decoded([Wire.RequestOf(id, f)], Wire.Clean)
            && var q := BrokerFrame(d.reqs[0], sender);
               && q.InBounds() && Arrives(Got(Delivered(q)), f, sender)
               && (DecodeIncoming(EncodeOut(q), utf8) == Received([Got(Delivered(q))], OutOfBytes)
                   <==> OutLength(f, sender) < TWO_32)
  {
    hide Wire.DecodeStream, Wire.EncodeFrame, DecodeIncoming, EncodeOut, Delivered, Arrives, BrokerFrame;
    Wire.FrameRoundTripIff(id, f, utf8);
    BrokerFrameContent(id, f, sender, utf8);
    TrafficRoundTripIff(BrokerFrame(Wire.RequestOf(id, f), sender), utf8);
  }

  // ----- whole sessions

  /** The frames of a session that are passed on. */
  function Passed(fs: seq<Wire.Outgoing>): (r: seq<Wire.Outgoing>)
    ensures forall i :: 0 <= i < |r| ==> r[i].Addressed?
  {
    if fs == [] then [] else (if fs[0].Addressed? then [fs[0]] else []) + Passed(fs[1..])
  }

  /** What the broker queues for a receiver to whom it passes on everything it decoded from `sender`. */
  function QueueOf(reqs: seq<Wire.Request>, sender: Name): seq<Frame> {
    if reqs == [] then []
    else (if reqs[0].body.To? then [BrokerFrame(reqs[0], sender)] else []) + QueueOf(reqs[1..], sender)
  }

  lemma QueueCons(req: Wire.Request, rest: seq<Wire.Request>, sender: Name)
    ensures QueueOf([req] + rest, sender)
            == (if req.body.To? then [BrokerFrame(req, sender)] else []) + QueueOf(rest, sender)
  {
    assert ([req] + rest)[1..] == rest;
  }

  /** A queued frame that will arrive as `f` was sent. */
  ghost predicate Carries(q: Frame, f: Wire.Outgoing, sender: Name, utf8: Utf8) {
    && q.InBounds() && Traffic(q) && !q.kind.KPrepared? && Deliverable(q, utf8)
    && f.Addressed? && Arrives(Got(Delivered(q)), f, sender)
  }

  ghost predicate AllCarry(qs: seq<Frame>, fs: seq<Wire.Outgoing>, sender: Name, utf8: Utf8) {
    |qs| == |fs| && forall i :: 0 <= i < |qs| ==> Carries(qs[i], fs[i], sender, utf8)
  }

  lemma CarryCons(q: Frame, qs: seq<Frame>, f: Wire.Outgoing, fs: seq<Wire.Outgoing>, sender: Name, utf8: Utf8)
    requires Carries(q, f, sender, utf8) && AllCarry(qs, fs, sender, utf8)
    ensures AllCarry([q] + qs, [f] + fs, sender, utf8)
  {
    hide Carries;
  }

  /** What a session needs to be passed on whole. */
  ghost predicate Fits(fs: seq<Wire.Outgoing>, sender: Name, utf8: Utf8) {
    forall i :: 0 <= i < |fs| ==>
      Wire.Built(fs[i], utf8) && Wire.Sendable(fs[i]) && (fs[i].Addressed? ==> OutLength(fs[i], sender) < TWO_32)
  }

  lemma {:induction false} QueueCarries(fs: seq<Wire.Outgoing>, k: nat, sender: Name, utf8: Utf8)
    requires Fits(fs, sender, utf8) && utf8(sender) && NoNul(sender)
    ensures AllCarry(QueueOf(Wire.RequestsOf(fs, k), sender), Passed(fs), sender, utf8)
  {
    if fs != [] {
      var f, rest := fs[0], fs[1..];
      assert Fits(rest, sender, utf8);
      hide Carries, QueueOf, Fits, AllCarry;
      if f.Ping? {
        QueueCarries(rest, k, sender, utf8);
        assert [] + Passed(rest) == Passed(rest);
      } else {
        var req, reqs := Wire.RequestOf(Ids.IdOf(k + 1), f), Wire.RequestsOf(rest, k + 1);
        QueueCarries(rest, k + 1, sender, utf8);
        QueueCons(req, reqs, sender);
        if f.Addressed? {
          FirstCarries(fs, Ids.IdOf(k + 1), sender, utf8);
          CarryCons(BrokerFrame(req, sender), QueueOf(reqs, sender), f, Passed(rest), sender, utf8);
        } else {
          assert [] + Passed(rest) == Passed(rest) && [] + QueueOf(reqs, sender) == QueueOf(reqs, sender);
        }
      }
    }
  }

  lemma FirstCarries(fs: seq<Wire.Outgoing>, id: nat, sender: Name, utf8: Utf8)
    requires fs != [] && fs[0].Addressed? && Fits(fs, sender, utf8) && utf8(sender) && NoNul(sender)
    ensures Carries(BrokerFrame(Wire.RequestOf(id, fs[0]), sender), fs[0], sender, utf8)
  {
    hide Arrives, Delivered, Deliverable, BrokerFrame;
    BrokerFrameContent(id, fs[0], sender, utf8);
  }

  lemma {:induction false} TrafficItems(fs: seq<Frame>)
    requires forall i :: 0 <= i < |fs| ==> fs[i].InBounds() && Traffic(fs[i]) && !fs[i].kind.KPrepared?
    ensures |AllItems(fs)| == |fs| && forall i :: 0 <= i < |fs| ==> AllItems(fs)[i] == Got(Delivered(fs[i]))
  {
    hide Delivered;
    if fs != [] {
      var k := |fs| - 1;
      var front := fs[..k];
      TrafficItems(front);
      assert AllItems(fs) == AllItems(front) + [Got(Delivered(fs[k]))];
      assert forall i :: 0 <= i < k ==> front[i] == fs[i];
    }
  }

  /** A whole session - messages, broadcasts and publications among subscriptions and pings - through both codecs: the
      receiver gets the frames passed on, all of them and in order, each as it was sent. */
  lemma SessionEndToEnd(fs: seq<Wire.Outgoing>, k: nat, sender: Name, utf8: Utf8)
    requires Fits(fs, sender, utf8) && utf8(sender) && NoNul(sender)
    ensures var d, passed := Wire.DecodeStream(Wire.EncodeAll(fs, k), utf8), Passed(fs);
            var queue := QueueOf(d.reqs, sender);
            && d.end == Wire.Clean && |queue| == |passed| && (forall i :: 0 <= i < |queue| ==> queue[i].InBounds())
            && var r := DecodeIncoming(EncodeQueue(queue), utf8);
               && r.end == OutOfBytes && |r.items| == |passed|
               && forall i :: 0 <= i < |passed| ==> Arrives(r.items[i], passed[i], sender)
  {
    hide Wire.DecodeStream, DecodeIncoming, EncodeOut, Delivered, Arrives, BrokerFrame, OutLength, BodyOut;
    Wire.StreamRoundTrip(fs, k, [], utf8);
    assert Wire.EncodeAll(fs, k) + [] == Wire.EncodeAll(fs, k);
    Wire.EmptyStream(utf8);
    var reqs := Wire.RequestsOf(fs, k);
    assert reqs + [] == reqs;
    QueueCarries(fs, k, sender, utf8);
    QueueArrives(QueueOf(reqs, sender), Passed(fs), sender, utf8);
  }

  lemma QueueArrives(queue: seq<Frame>, fs: seq<Wire.Outgoing>, sender: Name, utf8: Utf8)
    requires AllCarry(queue, fs, sender, utf8)
    ensures forall i :: 0 <= i < |queue| ==> queue[i].InBounds() && fs[i].Addressed?
    ensures var r := DecodeIncoming(EncodeQueue(queue), utf8);
            && r.end == OutOfBytes && |r.items| == |fs|
            && forall i :: 0 <= i < |fs| ==> Arrives(r.items[i], fs[i], sender)
  {
    hide DecodeIncoming, EncodeOut, Delivered, Arrives, Deliverable, Traffic;
    QueueRoundTrip(queue, [], utf8);
    assert EncodeQueue(queue) + [] == EncodeQueue(queue);
    NothingLeft(utf8);
    TrafficItems(queue);
    assert AllItems(queue) + [] == AllItems(queue);
    assert forall i :: 0 <= i < |queue| ==> Carries(queue[i], fs[i], sender, utf8);
  }
}
