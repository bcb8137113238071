/** RPC events: one message, parsed from a separate zero-copy header or from a flat payload (src/rpc.rs). */
module RpcCodec {
  import opened Bytes
  import opened Protocol

  const RPC_NOTIFICATION: byte := 0x00
  const RPC_REQUEST: byte := 0x01
  const RPC_REPLY: byte := 0x11
  const RPC_ERROR: byte := 0x12

  const CODE_PARSE := -32700
  const CODE_INVALID_REQUEST := -32600
  const CODE_METHOD_NOT_FOUND := -32601
  const CODE_INVALID_PARAMS := -32602
  const CODE_INTERNAL := -32603

  // ----- 16-bit signed error codes

  predicate IsI16(c: int) { -0x8000 <= c < 0x8000 }

  function LeI16(c: int): Bytes
    requires IsI16(c)
  {
    Le16(if c < 0 then c + TWO_16 else c)
  }

  function FromLeI16(s: Bytes): (c: int)
    requires |s| == 2
    ensures IsI16(c)
  {
    var n := FromLe16(s);
    if n < 0x8000 then n else n - TWO_16
  }

  lemma I16RoundTrip(c: int)
    requires IsI16(c)
    ensures FromLeI16(LeI16(c)) == c
  {}

  // ----- events

  datatype EventKind = Notification | Request | Reply | ErrorReply

  datatype Event = Event(kind: EventKind, frame: Frame, payloadPos: nat, useHeader: bool)

  /** `RpcEvent::try_from`. */
  function Parse(frame: Frame): (r: Result<Event>)
    requires frame.InBounds()
    ensures r.Ok? ==> r.value.frame == frame && InPayload(r.value)
  {
    var useHeader := frame.header.Some?;
    var body := if useHeader then frame.header.value else frame.Payload();
    if body == [] then Err(Data)
    else if body[0] == RPC_NOTIFICATION then
      Ok(Event(Notification, frame, if useHeader then 0 else 1, false))
    else if body[0] == RPC_REQUEST then
      if |body| < 6 then Err(Data)
      else if useHeader then Ok(Event(Request, frame, 0, true))
      else
        var k := FindNul(body[5..]);
        if k == |body[5..]| then Err(Data) else Ok(Event(Request, frame, 6 + k, false))
    else if body[0] == RPC_REPLY then
      if |body| < 5 then Err(Data) else Ok(Event(Reply, frame, if useHeader then 0 else 5, useHeader))
    else if body[0] == RPC_ERROR then
      if |body| < 7 then Err(Data) else Ok(Event(ErrorReply, frame, if useHeader then 0 else 7, useHeader))
    else Err(Data)
  }

  predicate InPayload(e: Event) {
    e.frame.InBounds() && e.payloadPos <= |e.frame.Payload()|
  }

  function Payload(e: Event): Bytes
    requires InPayload(e)
  {
    e.frame.Payload()[e.payloadPos..]
  }

  predicate HasHead(e: Event) {
    e.frame.InBounds() && (e.useHeader ==> e.frame.header.Some?)
  }

  /** The bytes `id`, `method` and `code` are read from. */
  function Head(e: Event): Bytes
    requires HasHead(e)
  {
    if e.useHeader then e.frame.header.value else e.frame.Payload()
  }

  /** `s[lo..hi]`, or nothing where the program would panic. */
  function Slice(s: Bytes, lo: nat, hi: int): Option<Bytes> {
    if lo <= hi <= |s| then Some(s[lo..hi]) else None
  }

  // The accessors take their slices without checking; every one of them can be called on every event.

  function Id(e: Event): Option<nat>
    requires HasHead(e)
  {
    var b := Slice(Head(e), 1, 5);
    if b.Some? then Some(FromLe32(b.value)) else None
  }

  function Method(e: Event): Option<Bytes>
    requires HasHead(e)
  {
    Slice(Head(e), 5, (if e.useHeader then |Head(e)| else e.payloadPos) - 1)
  }

  function Code(e: Event): Option<int>
    requires HasHead(e)
  {
    if !e.kind.ErrorReply? then Some(0)
    else
      var b := Slice(Head(e), 5, 7);
      if b.Some? then Some(FromLeI16(b.value)) else None
  }

  /** Exactly which accessors of an accepted event stay within their slices: `code` always does; `id` does unless the
      event is a notification whose payload is short; `method` does on requests and, for what it is worth, on errors,
      but on a reply only if its separate header is longer than any the code builds. */
  lemma AcceptedInBounds(frame: Frame)
    requires frame.InBounds() && Parse(frame).Ok?
    ensures HasHead(Parse(frame).value)
    ensures var e := Parse(frame).value;
            && (Id(e).Some? <==> !e.kind.Notification? || |frame.Payload()| >= 5)
            && (Method(e).Some? <==>
                  e.kind.Request? || e.kind.ErrorReply? || (e.kind.Reply? && frame.header.Some?
                      && |frame.header.value| > 5))
            && Code(e).Some?
  {
    hide FromLe32, FromLeI16;
  }

  /** Everything an application can ask of an event; nothing where asking panics. */
  datatype Answers = Answers(kind: EventKind, payload: Bytes, id: Option<nat>, verb: Option<Bytes>, code: Option<int>)

  ghost function Ask(frame: Frame): Result<Answers>
    requires frame.InBounds()
  {
    var r := Parse(frame);
    if r.Err? then Err(r.error)
    else
      AcceptedInBounds(frame);
      var e := r.value;
      Ok(Answers(e.kind, Payload(e), Id(e), Method(e), Code(e)))
  }

  /** What the layer itself asks of an event, by its kind: the id of all but notifications, the method of requests, the
      code of errors. */
  datatype View = View(kind: EventKind, payload: Bytes, id: nat, verb: Bytes, code: int)

  ghost function ViewOf(e: Event): View
    requires InPayload(e) && HasHead(e) && Code(e).Some?
    requires (!e.kind.Notification? ==> Id(e).Some?) && (e.kind.Request? ==> Method(e).Some?)
  {
    View(e.kind, Payload(e),
         if e.kind.Notification? then 0 else Id(e).value,
         if e.kind.Request? then Method(e).value else [],
         if e.kind.ErrorReply? then Code(e).value else 0)
  }

  ghost function Look(frame: Frame): Result<View>
    requires frame.InBounds()
  {
    var r := Parse(frame);
    if r.Err? then Err(r.error) else AcceptedInBounds(frame); Ok(ViewOf(r.value))
  }

  // ----- the headers the code builds

  /** `prepare_call_payload`. */
  function CallHeader(verb: Name, id: nat): Bytes { [RPC_REQUEST] + Le32(id) + verb + [0] }
  function ReplyHeader(id: nat): Bytes { [RPC_REPLY] + Le32(id) }
  function ErrorHeader(id: nat, code: int): Bytes
    requires IsI16(code)
  {
    [RPC_ERROR] + Le32(id) + LeI16(code)
  }
  const NOTIFY_HEADER: Bytes := [RPC_NOTIFICATION]

  /** The shapes those headers have: nothing follows the fixed part, and a method ends in the only NUL. */
  ghost predicate WellFormedHeader(h: Bytes) {
    || h == NOTIFY_HEADER
    || (|h| >= 6 && h[0] == RPC_REQUEST && NoNul(h[5..|h| - 1]) && h[|h| - 1] == 0)
    || (|h| == 5 && h[0] == RPC_REPLY)
    || (|h| == 7 && h[0] == RPC_ERROR)
  }

  /** The message as an in-process receiver gets it, and as it arrives over a socket. */
  function Split(h: Bytes, p: Bytes): Frame { Frame(KMessage, None, None, Some(h), p, 0, false) }
  function Flat(h: Bytes, p: Bytes): Frame { Frame(KMessage, None, None, None, h + p, 0, false) }

  /** Among all headers the zero-copy parser accepts, exactly the well-formed ones give the layer the same view split
      and flat, whatever the payload. */
  lemma ViewIff(h: Bytes, p: Bytes)
    requires Parse(Split(h, p)).Ok?
    ensures Look(Split(h, p)) == Look(Flat(h, p)) <==> WellFormedHeader(h)
  {
    assert (h + p)[0] == h[0];
    if h[0] == RPC_NOTIFICATION {
      NotificationIff(h, p);
    } else if h[0] == RPC_REQUEST {
      RequestIff(h, p);
    } else {
      ReplyIff(h, p);
    }
  }

  /** The `id` of a notification is read from its data, one byte further on when the header is separate: the two forms
      agree on it exactly when both panic or the bytes are the same. */
  ghost predicate SameNotificationId(p: Bytes) {
    |p| < 4 || (|p| >= 5 && p[1..5] == p[0..4])
  }

  /** And an application can ask nothing that tells the two forms apart exactly when the header is well-formed and,
      for a notification, its data happen to give the same id. */
  lemma ZeroCopyIff(h: Bytes, p: Bytes)
    requires Parse(Split(h, p)).Ok?
    ensures Ask(Split(h, p)) == Ask(Flat(h, p)) <==>
              WellFormedHeader(h) && (h[0] == RPC_NOTIFICATION ==> SameNotificationId(p))
  {
    ViewIff(h, p);
    SplitHead(h, p);
    if h[0] == RPC_NOTIFICATION {
      NotificationAsked(h, p);
    } else if WellFormedHeader(h) {
      SameAnswers(h, p);
    } else if Ask(Split(h, p)) == Ask(Flat(h, p)) {
      ViewFromAnswers(h, p);
    }
  }

  lemma SplitHead(h: Bytes, p: Bytes)
    requires Parse(Split(h, p)).Ok?
    ensures h != []
  {}

  lemma NotificationAsked(h: Bytes, p: Bytes)
    requires h != [] && h[0] == RPC_NOTIFICATION
    ensures Ask(Split(h, p)) == Ask(Flat(h, p)) <==> WellFormedHeader(h) && SameNotificationId(p)
  {
    hide FromLe32;
    NotificationIds(p);
    var a, b := Ask(Split(h, p)), Ask(Flat(h, p));
    assert a.Ok? && b.Ok? && a.value.payload == p && b.value.payload == (h + p)[1..];
    assert |h| == 1 ==> h == NOTIFY_HEADER && (h + p)[1..] == p;
  }

  /** The two ids of a notification: where each panics, and when they are equal. */
  lemma NotificationIds(p: Bytes)
    ensures Ask(Split(NOTIFY_HEADER, p)).Ok? && Ask(Flat(NOTIFY_HEADER, p)).Ok?
    ensures var a, b := Ask(Split(NOTIFY_HEADER, p)).value, Ask(Flat(NOTIFY_HEADER, p)).value;
            && (a.id.Some? <==> |p| >= 5) && (b.id.Some? <==> |p| >= 4)
            && (a.id == b.id <==> SameNotificationId(p))
            && a.payload == b.payload == p && a.verb == b.verb == None && a.code == b.code == Some(0)
  {
    hide FromLe32;
    var s := NOTIFY_HEADER + p;
    assert s[1..] == p;
    if |p| >= 5 {
      assert s[1..5] == p[0..4];
      FromLe32Inverse(p[1..5]);
      FromLe32Inverse(p[0..4]);
    }
  }

  /** For other events the answers follow from the view, but for the method where it is not meant to be asked. */
  lemma SameAnswers(h: Bytes, p: Bytes)
    requires Parse(Split(h, p)).Ok? && WellFormedHeader(h) && h[0] != RPC_NOTIFICATION
    ensures Ask(Split(h, p)) == Ask(Flat(h, p))
  {
    hide FromLe32, FromLeI16, FindNul;
    ViewIff(h, p);
    var s := h + p;
    assert s[1..5] == h[1..5];
    if h[0] == RPC_ERROR {
      assert s[5..6] == h[5..6] && s[5..7] == h[5..7] && s[7..] == p;
    }
  }

  lemma ViewFromAnswers(h: Bytes, p: Bytes)
    requires Ask(Split(h, p)) == Ask(Flat(h, p))
    ensures Look(Split(h, p)) == Look(Flat(h, p))
  {
    hide FromLe32, FromLeI16, FindNul;
  }

  /** Every reply the code builds: asking for its method panics, whichever way it travels. */
  lemma ReplyMethodPanics(id: nat, p: Bytes)
    ensures var a, b := Ask(Split(ReplyHeader(id), p)), Ask(Flat(ReplyHeader(id), p));
            a.Ok? && b.Ok? && a.value.kind == b.value.kind == Reply && a.value.verb == b.value.verb == None
  {
    hide FromLe32, Le32;
    assert |ReplyHeader(id)| == 5;
  }

  /** A notification whose id depends on how it travels. */
  lemma NotificationIdDiffers()
    ensures var p: Bytes := [1, 2, 3, 4, 5];
            var a, b := Ask(Split(NOTIFY_HEADER, p)), Ask(Flat(NOTIFY_HEADER, p));
            a.Ok? && b.Ok? && a.value.id.Some? && b.value.id.Some? && a.value.id != b.value.id
  {
    var p: Bytes := [1, 2, 3, 4, 5];
    NotificationIds(p);
    assert p[1..5][0] != p[0..4][0];
  }

  lemma NotificationIff(h: Bytes, p: Bytes)
    requires h != [] && h[0] == RPC_NOTIFICATION
    ensures Look(Split(h, p)) == Look(Flat(h, p)) <==> |h| == 1
    ensures |h| == 1 <==> h == [RPC_NOTIFICATION]
  {}

  lemma ReplyIff(h: Bytes, p: Bytes)
    requires (|h| >= 5 && h[0] == RPC_REPLY) || (|h| >= 7 && h[0] == RPC_ERROR)
    ensures Look(Split(h, p)) == Look(Flat(h, p)) <==> |h| == if h[0] == RPC_REPLY then 5 else 7
  {
    hide FromLe32, FromLeI16;
    var n := if h[0] == RPC_REPLY then 5 else 7;
    var s := h + p;
    assert s[1..5] == h[1..5];
    assert n == 7 ==> s[5..7] == h[5..7];
    assert s[n..] == h[n..] + p;
    assert |h| == n ==> h[n..] == [];
  }

  lemma LookSplit(h: Bytes, p: Bytes)
    requires |h| >= 6 && h[0] == RPC_REQUEST
    ensures Look(Split(h, p)) == Ok(View(Request, p, FromLe32(h[1..5]), h[5..|h| - 1], 0))
  {
    hide FromLe32, FindNul;
  }

  lemma LookFlat(s: Bytes)
    requires |s| >= 6 && s[0] == RPC_REQUEST
    ensures var k := FindNul(s[5..]);
            Look(Flat(s, [])) ==
              if k == |s[5..]| then Err(Data) else Ok(View(Request, s[6 + k..], FromLe32(s[1..5]), s[5..5 + k], 0))
  {
    hide FromLe32, FindNul;
    assert s + [] == s;
  }

  lemma RequestIff(h: Bytes, p: Bytes)
    requires |h| >= 6 && h[0] == RPC_REQUEST
    ensures Look(Split(h, p)) == Look(Flat(h, p)) <==> NoNul(h[5..|h| - 1]) && h[|h| - 1] == 0
  {
    hide FromLe32, FindNul, Look;
    var s, m := h + p, h[5..|h| - 1];
    LookSplit(h, p);
    LookFlat(s);
    assert s + [] == s && s[1..5] == h[1..5];
    MethodIff(m, h[|h| - 1], p);
    var k := FindNul(s[5..]);
    assert s[5..] == m + [h[|h| - 1]] + p;
    assert k < |s[5..]| ==> s[5..5 + k] == s[5..][..k] && s[6 + k..] == s[5..][k + 1..];
  }

  /** The text up to the first NUL of `m x p`, and what follows it, are `m` and `p` exactly when `m` has no NUL and
      `x` is one. */
  lemma MethodIff(m: Bytes, x: byte, p: Bytes)
    ensures var t := m + [x] + p;
            var k := FindNul(t);
            (k < |t| && t[..k] == m && t[k + 1..] == p) <==> NoNul(m) && x == 0
  {
    hide FindNul;
    var t := m + [x] + p;
    var k := FindNul(t);
    assert t[|m|] == x && t[..|m|] == m;
    if x == 0 {
      FieldRoundTrip(m, p);
    }
  }

  // ----- what the built headers say

  lemma CallParses(verb: Name, id: nat, p: Bytes)
    requires id < TWO_32
    ensures Look(Split(CallHeader(verb, id), p)) == Ok(View(Request, p, id, verb, 0))
    ensures Look(Flat(CallHeader(verb, id), p)) == Ok(View(Request, p, id, verb, 0)) <==> NoNul(verb)
  {
    var h := CallHeader(verb, id);
    Le32RoundTrip(id);
    CallParts(verb, Le32(id));
    ViewIff(h, p);
  }

  lemma CallParts(verb: Name, b: Bytes)
    requires |b| == 4
    ensures var h := [RPC_REQUEST] + b + verb + [0];
            |h| == 6 + |verb| && h[1..5] == b && h[5..|h| - 1] == verb && h[|h| - 1] == 0
  {}

  lemma ReplyParses(id: nat, p: Bytes)
    requires id < TWO_32
    ensures Look(Split(ReplyHeader(id), p)) == Ok(View(Reply, p, id, [], 0)) == Look(Flat(ReplyHeader(id), p))
  {
    var h := ReplyHeader(id);
    Le32RoundTrip(id);
    assert h[1..5] == Le32(id);
    ViewIff(h, p);
  }

  lemma ErrorParses(id: nat, code: int, p: Bytes)
    requires id < TWO_32 && IsI16(code)
    ensures Look(Split(ErrorHeader(id, code), p)) == Ok(View(ErrorReply, p, id, [], code))
                                                  == Look(Flat(ErrorHeader(id, code), p))
  {
    var h := ErrorHeader(id, code);
    Le32RoundTrip(id);
    I16RoundTrip(code);
    ErrorParts(Le32(id), LeI16(code));
    ViewIff(h, p);
  }

  lemma ErrorParts(b: Bytes, c: Bytes)
    requires |b| == 4 && |c| == 2
    ensures var h := [RPC_ERROR] + b + c; |h| == 7 && h[1..5] == b && h[5..7] == c
  {}

  /** The code a broker-level error is reported under. */
  function CodeOf(k: ErrorKind): (c: int)
    ensures IsI16(c) && -32255 <= c <= -32000
  {
    -32000 - (ErrorByte(k) as int)
  }

  /** Different errors have different codes, none of them a code of section 5.1 of JSON-RPC 2.0. */
  lemma CodesDistinct(k: ErrorKind, l: ErrorKind)
    ensures CodeOf(k) == CodeOf(l) <==> k == l
    ensures CodeOf(k) !in {CODE_PARSE, CODE_INVALID_REQUEST, CODE_METHOD_NOT_FOUND, CODE_INVALID_PARAMS, CODE_INTERNAL}
  {}
}
