/** The connection object of src/ipc.rs: it allocates ids, builds frames by pushing bytes, registers confirmations and
    writes. Everything it has written is the encoding of the frames it was asked to send. */
module IpcClient {
  import opened Bytes
  import opened Protocol
  import opened Ids
  import opened Wire

  function Numbered(fs: seq<Outgoing>): nat {
    if fs == [] then 0 else Numbered(fs[1..]) + if fs[0].Ping? then 0 else 1
  }

  /** Appending a frame to those sent appends its encoding, under the next id, to the stream. */
  lemma {:induction false} EncodeSnoc(fs: seq<Outgoing>, k: nat, f: Outgoing)
    ensures EncodeAll(fs + [f], k) == EncodeAll(fs,
        k) + EncodeFrame(if f.Ping? then 0 else IdOf(k + Numbered(fs) + 1), f)
    ensures Numbered(fs + [f]) == Numbered(fs) + if f.Ping? then 0 else 1
  {
    hide EncodeFrame, IdOf;
    if fs == [] {
      assert fs + [f] == [f] && [f][1..] == [];
      assert EncodeAll([f], k) == EncodeFrame(if f.Ping? then 0 else IdOf(k + 1), f) + [];
    } else {
      var k1 := if fs[0].Ping? then k else k + 1;
      EncodeSnoc(fs[1..], k1, f);
      assert (fs + [f])[1..] == fs[1..] + [f];
    }
  }

  /** A one-shot channel: the sender keeps it pending, the caller waits for its result. */
  class Confirm {
    var result: Option<Result<()>>

    constructor ()
      ensures result == None
    {
      result := None;
    }
  }

  class Client {
    var frameId: nat
    var responses: map<nat, Confirm>
    var written: Bytes
    ghost var sent: seq<Outgoing>
    ghost var count: nat  // of numbered frames

    /** The stream is what was sent; each pending confirmation is unresolved and pending once. */
    ghost predicate Valid()
      reads this, responses.Values
    {
      Pending() && frameId == IdOf(count) && count == Numbered(sent) && written == EncodeAll(sent, 0)
    }

    ghost predicate Pending()
      reads this`responses, responses.Values
    {
      && (forall id :: id in responses ==> responses[id].result.None?)
      && forall i, j :: i in responses && j in responses && i != j ==> responses[i] != responses[j]
    }

    constructor ()
      ensures Valid() && sent == [] && responses == map[]
    {
      frameId, responses, written, sent, count := 0, map[], [], [], 0;
    }

    method IncrementFrameId()
      requires frameId == IdOf(count)
      modifies this`frameId, this`count
      ensures count == old(count) + 1 && frameId == IdOf(count)
    {
      if frameId == TWO_32 - 1 {
        frameId := 1;
      } else {
        frameId := frameId + 1;
      }
      count := count + 1;
    }

    method PrepareFrameBuf(op: FrameOp, qos: QoS) returns (buf: Bytes)
      requires frameId == IdOf(count)
      modifies this`frameId, this`count
      ensures count == old(count) + 1 && frameId == IdOf(count)
      ensures buf == Le32(frameId) + [Flags(op, qos)]
    {
      IncrementFrameId();
      buf := Le32(frameId) + [Flags(op, qos)];
    }

    /** Registers a confirmation if one is wanted, then writes the two parts of a frame. */
    method SendAndConfirm(buf: Bytes, payload: Bytes, qos: QoS, ghost f: Outgoing) returns (rx: Option<Confirm>)
      requires Pending() && !f.Ping? && count == Numbered(sent) + 1 && frameId == IdOf(count)
          && written == EncodeAll(sent, 0)
      requires buf + payload == EncodeFrame(frameId, f)
      modifies this`responses, this`written, this`sent
      ensures Valid() && sent == old(sent) + [f]
      ensures rx.Some? <==> qos.NeedsAck()
      ensures rx.Some? ==> fresh(rx.value) && responses == old(responses)[frameId := rx.value]
      ensures rx.None? ==> responses == old(responses)
    {
      hide EncodeFrame, EncodeAll, IdOf, Numbered;
      rx := None;
      if qos.NeedsAck() {
        var tx := new Confirm();
        responses := responses[frameId := tx];
        rx := Some(tx);
      }
      written := written + buf;
      written := written + payload;
      EncodeSnoc(sent, 0, f);
      Concat(old(written), buf, payload);
      sent := sent + [f];
    }

    /** `send`, `zc_send`, `send_broadcast` and `publish`. */
    method SendAddressed(op: FrameOp, qos: QoS, target: Name, header: Bytes, payload: Bytes)
      returns (rx: Option<Confirm>)
      requires Valid()
      modifies this
      ensures Valid() && sent == old(sent) + [Addressed(op, qos, target, header, payload)] && count == old(count) + 1
      ensures rx.Some? <==> qos.NeedsAck()
      ensures rx.Some? ==> fresh(rx.value) && responses == old(responses)[IdOf(count) := rx.value]
      ensures rx.None? ==> responses == old(responses)
    {
      hide Le32;
      var buf := PrepareFrameBuf(op, qos);
      buf := buf + Le32(|target| + |payload| + |header| + 1);
      buf := buf + target;
      buf := buf + [0];
      buf := buf + header;
      ghost var f := Addressed(op, qos, target, header, payload);
      assert buf + payload == EncodeFrame(frameId, f) by {
        Pieces(Le32(frameId) + [Flags(op, qos)], Le32(|BodyOf(f)|), target, header, payload);
      }
      rx := SendAndConfirm(buf, payload, qos, f);
    }

    /** `subscribe_bulk` and `unsubscribe_bulk`; a single topic is a list of one. */
    method SendTopics(op: FrameOp, qos: QoS, topics: seq<Name>) returns (rx: Option<Confirm>)
      requires Valid()
      modifies this
      ensures Valid() && sent == old(sent) + [Topics(op, qos, topics)] && count == old(count) + 1
      ensures rx.Some? <==> qos.NeedsAck()
      ensures rx.Some? ==> fresh(rx.value) && responses == old(responses)[IdOf(count) := rx.value]
      ensures rx.None? ==> responses == old(responses)
    {
      var payload := BuildBulk(topics);
      var buf := PrepareFrameBuf(op, qos);
      buf := buf + Le32(|payload|);
      rx := SendAndConfirm(buf, payload, qos, Topics(op, qos, topics));
    }

    /** An acknowledgement from the broker: it settles the confirmation pending under its id, once and for all; without
        one it changes nothing. */
    method Acknowledge(id: nat, code: byte)
      requires Valid()
      modifies this`responses, responses.Values
      ensures Valid() && responses == old(responses) - {id}
      ensures id in old(responses) ==> old(responses)[id].result == Some(AckResult(code))
      ensures forall j :: j in old(responses) && j != id ==> old(responses)[j].result.None?
    {
      if id in responses {
        responses[id].result := Some(AckResult(code));
        responses := responses - {id};
      }
    }

    method SendPing()
      requires Valid()
      modifies this`written, this`sent
      ensures Valid() && sent == old(sent) + [Ping]
    {
      EncodeSnoc(sent, 0, Ping);
      written := written + PING_FRAME;
      sent := sent + [Ping];
    }
  }

  lemma Pieces(a: Bytes, len: Bytes, target: Name, header: Bytes, payload: Bytes)
    ensures a + len + target + [0] + header + payload == a + len + (target + [0] + header + payload)
  {}

  /** A session from one end of the stream to the other: whatever a client was asked to send, in any order, the reader
      loop of the broker hands over - however the stream is cut into reads. */
  method Received(c: Client, chunk: nat -> nat, utf8: Utf8) returns (reqs: seq<Request>)
    requires c.Valid() && forall i :: 0 <= i < |c.sent| ==> Built(c.sent[i], utf8) && Sendable(c.sent[i])
    ensures reqs == RequestsOf(c.sent, 0)
  {
    StreamRoundTrip(c.sent, 0, [], utf8);
    assert EncodeAll(c.sent, 0) + [] == EncodeAll(c.sent, 0);
    var d := ReadFrames(c.written, chunk, utf8);
    reqs := d.reqs;
  }
}
