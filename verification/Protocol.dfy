/** The byte codes of src/lib.rs and the frame record handed to clients. */
module Protocol {
  import opened Bytes

  const OP_NOP: byte := 0x00
  const OP_PUBLISH: byte := 0x01
  const OP_SUBSCRIBE: byte := 0x02
  const OP_UNSUBSCRIBE: byte := 0x03
  const OP_MESSAGE: byte := 0x12
  const OP_BROADCAST: byte := 0x13
  const OP_ACK: byte := 0xFE
  const PREPARED: byte := 0xFF
  const RESPONSE_OK: byte := 0x01
  const PING_FRAME: Bytes := [0, 0, 0, 0, 0, 0, 0, 0, 0]

  datatype ErrorKind =
    | NotRegistered | NotSupported | Io | Timeout | Data | Busy | NotDelivered | Access | Other | Eof

  /** `kind as u8`. */
  function ErrorByte(k: ErrorKind): byte {
    match k
    case NotRegistered => 0x71
    case Data => 0x72
    case Io => 0x73
    case Other => 0x74
    case NotSupported => 0x75
    case Busy => 0x76
    case NotDelivered => 0x77
    case Timeout => 0x78
    case Access => 0x79
    case Eof => 0xff
  }

  /** `ErrorKind::from(u8)`: it has no arm for the timeout code nor for end-of-file. */
  function ErrorFromByte(b: byte): ErrorKind {
    match b
    case 0x71 => NotRegistered
    case 0x75 => NotSupported
    case 0x73 => Io
    case 0x72 => Data
    case 0x76 => Busy
    case 0x77 => NotDelivered
    case 0x79 => Access
    case _ => Other
  }

  datatype Result<+T> = Ok(value: T) | Err(error: ErrorKind)

  /** `to_elbus_result` on an acknowledgement byte. */
  function AckResult(b: byte): Result<()> {
    if b == RESPONSE_OK then Ok(()) else Err(ErrorFromByte(b))
  }

  /** The byte an operation's outcome is reported with. */
  function ResultByte(r: Result<()>): byte {
    match r
    case Ok(_) => RESPONSE_OK
    case Err(e) => ErrorByte(e)
  }

  /** An outcome survives the wire except that a timeout and an end-of-file come back as `Other`. */
  lemma ResultRoundTrip(r: Result<()>)
    ensures AckResult(ResultByte(r)) == r <==> !(r.Err? && (r.error.Timeout? || r.error.Eof?))
    ensures AckResult(ResultByte(r)).Ok? <==> r.Ok?
    ensures r.Err? && (r.error.Timeout? || r.error.Eof?) ==> AckResult(ResultByte(r)) == Err(Other)
  {
    if r.Ok? {
      assert r.value == ();
    }
  }

  datatype FrameOp = Nop | Message | Broadcast | PublishTopic | SubscribeTopic | UnsubscribeTopic

  function OpByte(op: FrameOp): byte {
    match op
    case Nop => OP_NOP
    case Message => OP_MESSAGE
    case Broadcast => OP_BROADCAST
    case PublishTopic => OP_PUBLISH
    case SubscribeTopic => OP_SUBSCRIBE
    case UnsubscribeTopic => OP_UNSUBSCRIBE
  }

  function OpFromByte(b: byte): Result<FrameOp> {
    if b == OP_NOP then Ok(Nop)
    else if b == OP_MESSAGE then Ok(Message)
    else if b == OP_BROADCAST then Ok(Broadcast)
    else if b == OP_PUBLISH then Ok(PublishTopic)
    else if b == OP_SUBSCRIBE then Ok(SubscribeTopic)
    else if b == OP_UNSUBSCRIBE then Ok(UnsubscribeTopic)
    else Err(Data)
  }

  datatype QoS = No | Processed | Realtime | RealtimeProcessed {
    function AsByte(): byte {
      match this case No => 0 case Processed => 1 case Realtime => 2 case RealtimeProcessed => 3
    }
    predicate IsRealtime() { AsByte() / 2 % 2 == 1 }
    predicate NeedsAck() { AsByte() % 2 == 1 }
  }

  function QosFromByte(b: byte): Result<QoS> {
    match b
    case 0 => Ok(No)
    case 1 => Ok(Processed)
    case 2 => Ok(Realtime)
    case 3 => Ok(RealtimeProcessed)
    case _ => Err(Data)
  }

  /** `op as u8 | (qos as u8) << 6`: every operation code fits in six bits, so the parts do not overlap. */
  function Flags(op: FrameOp, qos: QoS): byte {
    OpByte(op) + 64 * qos.AsByte()
  }

  /** Unpacking a flags byte gives back what was packed, and no packed operation looks like a ping. */
  lemma FlagsRoundTrip(op: FrameOp, qos: QoS)
    ensures OpFromByte(Flags(op, qos) % 64) == Ok(op)
    ensures QosFromByte(Flags(op, qos) / 64) == Ok(qos)
    ensures Flags(op, qos) == 0 <==> op.Nop? && qos.No?
  {}

  /** The two top bits of a flags byte: the lower one asks for an acknowledgement, the upper one for real time; and what
      each level of service means. */
  lemma ServiceBits(op: FrameOp, qos: QoS)
    ensures qos.NeedsAck() <==> Flags(op, qos) as bv8 & 0x40 != 0
    ensures qos.IsRealtime() <==> Flags(op, qos) as bv8 & 0x80 != 0
    ensures qos.NeedsAck() <==> qos in {Processed, RealtimeProcessed}
    ensures qos.IsRealtime() <==> qos in {Realtime, RealtimeProcessed}
  {}

  datatype FrameKind = KPrepared | KMessage | KBroadcast | KPublish | KAcknowledge | KNop

  function KindByte(k: FrameKind): byte {
    match k
    case KPrepared => PREPARED
    case KMessage => OP_MESSAGE
    case KBroadcast => OP_BROADCAST
    case KPublish => OP_PUBLISH
    case KAcknowledge => OP_ACK
    case KNop => OP_NOP
  }

  /** `FrameKind::try_from(u8)`: a prepared frame never travels under its own code. */
  function KindFromByte(b: byte): Result<FrameKind> {
    if b == OP_MESSAGE then Ok(KMessage)
    else if b == OP_BROADCAST then Ok(KBroadcast)
    else if b == OP_PUBLISH then Ok(KPublish)
    else if b == OP_ACK then Ok(KAcknowledge)
    else if b == OP_NOP then Ok(KNop)
    else Err(Data)
  }

  /** The whole incoming buffer with the position where the payload starts, and an optional separate header. */
  datatype Frame = Frame(
    kind: FrameKind,
    sender: Option<Name>,
    topic: Option<Name>,
    header: Option<Bytes>,
    buf: Bytes,
    payloadPos: nat,
    realtime: bool)
  {
    predicate InBounds() { payloadPos <= |buf| }

    function Payload(): Bytes
      requires InBounds()
    {
      buf[payloadPos..]
    }

    /** What a receiver sees after any header is put back in front of the payload. */
    function Content(): Bytes
      requires InBounds()
    {
      (if header.Some? then header.value else []) + Payload()
    }
  }
}
