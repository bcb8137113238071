/** RPC calls across the bus (src/rpc.rs): any number of peers call each other; requests and replies may be delayed,
    reordered, duplicated or lost; calls may be cancelled or abandoned at any time; and any peer may send a frame that looks like a
    reply to anybody. */
module RpcCalls {
  import opened Bytes
  import opened Protocol
  import opened Ids
  import opened RpcCodec

  /** The k-th call of a peer. */
  datatype Tag = Tag(caller: Name, k: nat)

  datatype Call = Call(target: Name, verb: Name, params: Bytes)

  /** What a handler returns; data is optional in both cases. */
  datatype Outcome = Returned(data: Option<Bytes>) | Failed(code: int, data: Option<Bytes>)

  /** One run of a handler: where, on what, with which result. */
  datatype Run = Run(server: Name, verb: Name, params: Bytes, outcome: Outcome)

  /** How a frame travels: to an in-process peer with a separate header, over a socket in one piece. */
  datatype Form = InProcess | OverSocket

  datatype Msg =
    | Ask(from: Name, to: Name, frame: Frame, tag: Tag)
    | Answer(from: Name, to: Name, frame: Frame, tag: Tag, run: Run)

  /** A spawned handler; it remembers the sender and the id it parsed. */
  datatype Task = Task(server: Name, replyTo: Name, id: nat, verb: Name, params: Bytes, tag: Tag)

  /** A reply as a caller takes it: made by a run of a handler, or put together by some peer. The caller sees the name
      of its sender. */
  datatype Reply = Made(view: View, run: Run) | Stray(view: View, from: Name) {
    ghost function Sender(): Name { if Made? then run.server else from }
  }

  /** `counts` allocates ids; `calls` is the map of pending calls, keyed by caller and id; `inbox` holds what the
      one-shot channel of a call received. `issued`, `ran` and `abandoned` record what happened. */
  datatype State = State(
    counts: map<Name, nat>,
    calls: map<(Name, nat), nat>,
    running: set<Tag>,
    inbox: map<Tag, Reply>,
    net: set<Msg>,
    tasks: set<Task>,
    results: map<Tag, CallResult>,
    issued: map<Tag, Call>,
    ran: map<Tag, set<Run>>,
    abandoned: set<Tag>)

  /** What `call` returns when a reply came. */
  datatype CallResult = Success(payload: Bytes) | RpcError(code: int, data: Bytes)

  function ResultOf(v: View): CallResult {
    if v.kind.ErrorReply? then RpcError(v.code, v.payload) else Success(v.payload)
  }

  /** What the caller is to get for an outcome: absent data arrives as empty. */
  function Expected(o: Outcome): CallResult {
    if o.Failed? then RpcError(o.code, DataOf(o)) else Success(DataOf(o))
  }

  function Carry(form: Form, header: Bytes, payload: Bytes): (f: Frame)
    ensures f.InBounds()
  {
    if form.InProcess? then Split(header, payload) else Flat(header, payload)
  }

  function DataOf(o: Outcome): Bytes {
    if o.data.Some? then o.data.value else []
  }

  function AnswerFrame(form: Form, id: nat, o: Outcome): (f: Frame)
    requires o.Failed? ==> IsI16(o.code)
    ensures f.InBounds()
  {
    Carry(form, if o.Failed? then ErrorHeader(id, o.code) else ReplyHeader(id), DataOf(o))
  }

  function AnswerView(id: nat, o: Outcome): View {
    if o.Failed? then View(ErrorReply, DataOf(o), id, [], o.code) else View(Reply, DataOf(o), id, [], 0)
  }

  // ----- steps

  datatype Step =
    | DoCall(caller: Name, call: Call, form: Form)
    | Cancel(tag: Tag)  // the request could not be sent, or was not confirmed
    | Abandon(tag: Tag)  // the caller does not wait any longer
    | Finish(tag: Tag)
    | TakeRequest(msg: Msg)
    | Respond(task: Task, outcome: Outcome, form: Form)
    | TakeReply(msg: Msg)
    | TakeStray(from: Name, to: Name, frame: Frame)
    | Lose(msg: Msg)

  /** Fewer than a full id cycle is outstanding: nothing of a call with the id about to be used is still around. */
  ghost predicate Window(s: State, a: Name, k: nat) {
    && (forall m :: m in s.net && m.tag.caller == a ==> k < m.tag.k + ID_CYCLE)
    && (forall t :: t in s.tasks && t.tag.caller == a ==> k < t.tag.k + ID_CYCLE)
    && (forall t :: t in s.running && t.caller == a ==> k < t.k + ID_CYCLE)
    && (forall id :: (a, id) in s.calls ==> k < s.calls[(a, id)] + ID_CYCLE)
  }

  ghost predicate Enabled(s: State, st: Step) {
    match st
    case DoCall(a, c, form) =>
      a in s.counts && Window(s, a, s.counts[a] + 1) && (form.OverSocket? ==> NoNul(c.verb))
    case Cancel(tag) => tag in s.running
    case Abandon(tag) => tag in s.running
    case Finish(tag) => tag in s.running && tag in s.inbox
    case TakeRequest(m) => m in s.net && m.Ask?
    case Respond(t, o, _) => t in s.tasks && (o.Failed? ==> IsI16(o.code))
    case TakeReply(m) => m in s.net && m.Answer?
    case TakeStray(_, _, _) => true
    case Lose(m) => m in s.net
  }

  ghost function Read(f: Frame): Result<View> {
    if f.InBounds() then Look(f) else Err(Data)
  }

  /** A frame that the processor of `to` takes for the reply to a pending call: nothing but its id is compared. */
  ghost predicate Resolves(s: State, to: Name, frame: Frame) {
    var v := Read(frame);
    v.Ok? && (v.value.kind.Reply? || v.value.kind.ErrorReply?) && (to, v.value.id) in s.calls
  }

  ghost function Recorded(s: State, t: Task, run: Run): State {
    var before := if t.tag in s.ran then s.ran[t.tag] else {};
    s.(tasks := s.tasks - {t}, ran := s.ran[t.tag := before + {run}])
  }

  ghost function After(s: State, st: Step): State
    requires Enabled(s, st)
  {
    match st
    case DoCall(a, c, form) =>
      var k := s.counts[a] + 1;
      var id := IdOf(k);
      var m := Ask(a, c.target, Carry(form, CallHeader(c.verb, id), c.params), Tag(a, k));
      s.(counts := s.counts[a := k], calls := s.calls[(a, id) := k], running := s.running + {Tag(a, k)},
         net := s.net + {m}, issued := s.issued[Tag(a, k) := c], ran := s.ran[Tag(a, k) := {}])
    case Cancel(tag) =>
      s.(calls := s.calls - {(tag.caller, IdOf(tag.k))}, running := s.running - {tag})
    case Abandon(tag) => s.(running := s.running - {tag}, abandoned := s.abandoned + {tag})
    case Finish(tag) =>
      s.(running := s.running - {tag}, results := s.results[tag := ResultOf(s.inbox[tag].view)])
    case TakeRequest(m) =>
      var v := Read(m.frame);
      if v.Err? then s
      else s.(tasks := s.tasks + {Task(m.to, m.from, v.value.id, v.value.verb, v.value.payload, m.tag)})
    case Respond(t, o, form) =>
      var run := Run(t.server, t.verb, t.params, o);
      if t.id == 0 then Recorded(s, t, run)
      else Recorded(s, t, run).(net := s.net + {Answer(t.server, t.replyTo, AnswerFrame(form, t.id, o), t.tag, run)})
    case TakeReply(m) =>
      var v := Read(m.frame);
      if v.Err? || (m.to, v.value.id) !in s.calls then s
      else
        var id := v.value.id;
        s.(calls := s.calls - {(m.to, id)}, inbox := s.inbox[Tag(m.to, s.calls[(m.to, id)]) := Made(v.value, m.run)])
    case TakeStray(from, to, frame) =>
      if !Resolves(s, to, frame) then s
      else
        var v := Read(frame).value;
        s.(calls := s.calls - {(to, v.id)}, inbox := s.inbox[Tag(to, s.calls[(to, v.id)]) := Stray(v, from)])
    case Lose(m) => s.(net := s.net - {m})
  }

  // ----- the invariant

  ghost predicate TagOk(s: State, t: Tag) {
    && t in s.issued && t in s.ran && t.caller in s.counts
    && 1 <= t.k <= s.counts[t.caller] < t.k + ID_CYCLE
  }

  ghost predicate MsgOk(s: State, m: Msg) {
    && TagOk(s, m.tag) && m.frame.InBounds()
    && var c, id := s.issued[m.tag], IdOf(m.tag.k);
       match m
       case Ask(from, to, f, t) => from == t.caller && to == c.target
           && Look(f) == Ok(View(Request, c.params, id, c.verb, 0))
       case Answer(_, to, f, t, run) => to == t.caller && run in s.ran[t] && Look(f) == Ok(AnswerView(id, run.outcome))
  }

  ghost predicate TaskOk(s: State, t: Task) {
    && TagOk(s, t.tag)
    && var c := s.issued[t.tag];
       t.server == c.target && t.replyTo == t.tag.caller && t.id == IdOf(t.tag.k) && t.verb == c.verb
           && t.params == c.params
  }

  /** A handler ran at the peer called, with the method and parameters of the call. */
  ghost predicate RanOk(s: State, t: Tag) {
    t in s.issued && t in s.ran && forall r :: r in s.ran[t] ==>
      var c := s.issued[t]; r.server == c.target && r.verb == c.verb && r.params == c.params
  }

  ghost predicate InboxOk(s: State, t: Tag)
    requires t in s.inbox
  {
    t in s.ran && (s.inbox[t].Made? ==>
      s.inbox[t].run in s.ran[t] && s.inbox[t].view == AnswerView(IdOf(t.k), s.inbox[t].run.outcome))
  }

  ghost predicate CallOk(s: State, a: Name, id: nat)
    requires (a, id) in s.calls
  {
    var t := Tag(a, s.calls[(a, id)]);
    TagOk(s, t) && id == IdOf(t.k) && t !in s.inbox
  }

  ghost predicate Inv(s: State) {
    && (forall m :: m in s.net ==> MsgOk(s, m))
    && (forall t :: t in s.tasks ==> TaskOk(s, t))
    && (forall t :: t in s.running ==> TagOk(s, t))
    && (forall a, id {:trigger CallOk(s, a, id)} :: (a, id) in s.calls ==> CallOk(s, a, id))
    && (forall t :: t in s.inbox ==> InboxOk(s, t))
    && (forall t :: t in s.results ==> t in s.inbox && s.results[t] == ResultOf(s.inbox[t].view))
    && (forall t :: t in s.ran ==> RanOk(s, t))
    && (forall t :: t in s.issued ==> t.caller in s.counts && 1 <= t.k <= s.counts[t.caller])
  }

  ghost predicate Init(s: State) {
    s == State(s.counts, map[], {}, map[], {}, {}, map[], map[], map[], {}) && forall a :: a in s.counts ==>
          s.counts[a] == 0
  }

  // ----- preservation

  /** Records only grow, and of the tags in question no more than a window of calls has been issued. */
  ghost predicate Grows(s: State, r: State) {
    && (forall t :: t in s.issued ==> t in r.issued && r.issued[t] == s.issued[t])
    && (forall t :: t in s.ran ==> t in r.ran && s.ran[t] <= r.ran[t])
    && (forall a :: a in s.counts ==> a in r.counts && s.counts[a] <= r.counts[a])
  }

  ghost predicate Fits(r: State, t: Tag) {
    t.caller in r.counts && r.counts[t.caller] < t.k + ID_CYCLE
  }

  lemma MsgStable(s: State, r: State, m: Msg)
    requires MsgOk(s, m) && Grows(s, r) && Fits(r, m.tag)
    ensures MsgOk(r, m)
  {}

  lemma TaskStable(s: State, r: State, t: Task)
    requires TaskOk(s, t) && Grows(s, r) && Fits(r, t.tag)
    ensures TaskOk(r, t)
  {}

  lemma CallStable(s: State, r: State, a: Name, id: nat)
    requires (a, id) in s.calls && CallOk(s, a, id) && Grows(s, r)
    requires (a, id) in r.calls && r.calls[(a, id)] == s.calls[(a, id)] && Fits(r, Tag(a, s.calls[(a, id)]))
    requires Tag(a, s.calls[(a, id)]) !in r.inbox
    ensures CallOk(r, a, id)
  {}

  /** The invariant after a step, from what the step added. */
  lemma Assemble(s: State, r: State)
    requires Inv(s) && Grows(s, r)
    requires forall m :: m in r.net ==> (m in s.net && Fits(r, m.tag)) || MsgOk(r, m)
    requires forall t :: t in r.tasks ==> (t in s.tasks && Fits(r, t.tag)) || TaskOk(r, t)
    requires forall t :: t in r.running ==> (t in s.running && Fits(r, t)) || TagOk(r, t)
    requires forall a, id {:trigger CallOk(r, a, id)} :: (a, id) in r.calls ==> CallOk(r, a, id)
    requires forall t :: t in r.inbox ==> (t in s.inbox && r.inbox[t] == s.inbox[t]) || InboxOk(r, t)
    requires forall t :: t in r.results ==> t in r.inbox && r.results[t] == ResultOf(r.inbox[t].view)
    requires forall t :: t in r.ran ==> RanOk(r, t)
    requires forall t :: t in r.issued ==> t.caller in r.counts && 1 <= t.k <= r.counts[t.caller]
    ensures Inv(r)
  {
    hide IdOf, AnswerView, ResultOf, MsgOk, TaskOk, CallOk;
    forall m | m in r.net ensures MsgOk(r, m) {
      if !MsgOk(r, m) { MsgStable(s, r, m); }
    }
    forall t | t in r.tasks ensures TaskOk(r, t) {
      if !TaskOk(r, t) { TaskStable(s, r, t); }
    }
  }

  /** Two live calls of one peer with the same id are the same call. */
  lemma SameIdSameCall(s: State, t: Tag, u: Tag)
    requires TagOk(s, t) && TagOk(s, u) && t.caller == u.caller && IdOf(t.k) == IdOf(u.k)
    ensures t == u
  {
    IdInjectiveInWindow(t.k, u.k);
  }

  /** A new call never overwrites the entry of a pending one. */
  lemma NewIdIsFree(s: State, a: Name)
    requires Inv(s) && a in s.counts && Window(s, a, s.counts[a] + 1)
    ensures (a, IdOf(s.counts[a] + 1)) !in s.calls
  {
    var k := s.counts[a] + 1;
    if (a, IdOf(k)) in s.calls {
      assert CallOk(s, a, IdOf(k));
      var j := s.calls[(a, IdOf(k))];
      IdInjectiveInWindow(k, j);
    }
  }

  lemma AskReads(form: Form, c: Call, id: nat)
    requires id < TWO_32 && (form.OverSocket? ==> NoNul(c.verb))
    ensures Look(Carry(form, CallHeader(c.verb, id), c.params)) == Ok(View(Request, c.params, id, c.verb, 0))
  {
    hide Look, CallHeader;
    CallParses(c.verb, id, c.params);
  }

  lemma AnswerReads(form: Form, id: nat, o: Outcome)
    requires id < TWO_32 && (o.Failed? ==> IsI16(o.code))
    ensures Look(AnswerFrame(form, id, o)) == Ok(AnswerView(id, o))
  {
    hide Look, ErrorHeader, ReplyHeader;
    if o.Failed? { ErrorParses(id, o.code, DataOf(o)); } else { ReplyParses(id, DataOf(o)); }
  }

  lemma AskOk(r: State, form: Form, t: Tag)
    requires TagOk(r, t) && (form.OverSocket? ==> NoNul(r.issued[t].verb))
    ensures var c := r.issued[t];
            MsgOk(r, Ask(t.caller, c.target, Carry(form, CallHeader(c.verb, IdOf(t.k)), c.params), t))
  {
    hide IdOf, Look, CallHeader, Carry;
    AskReads(form, r.issued[t], IdOf(t.k));
  }

  lemma AnswerOk(r: State, form: Form, t: Tag, run: Run)
    requires TagOk(r, t) && run in r.ran[t] && (run.outcome.Failed? ==> IsI16(run.outcome.code))
    ensures MsgOk(r, Answer(run.server, t.caller, AnswerFrame(form, IdOf(t.k), run.outcome), t, run))
  {
    hide IdOf, Look, AnswerFrame, AnswerView;
    AnswerReads(form, IdOf(t.k), run.outcome);
  }

  lemma FitsAlready(s: State)
    requires Inv(s)
    ensures forall m :: m in s.net ==> Fits(s, m.tag)
    ensures forall t :: t in s.tasks ==> Fits(s, t.tag)
    ensures forall t :: t in s.running ==> Fits(s, t)
  {}

  /** Pending calls are untouched by a step that neither issues nor answers one. */
  lemma CallsStable(s: State, r: State)
    requires Inv(s) && Grows(s, r) && r.counts == s.counts && r.inbox.Keys == s.inbox.Keys
    requires forall key :: key in r.calls ==> key in s.calls && r.calls[key] == s.calls[key]
    ensures forall a, id {:trigger CallOk(r, a, id)} :: (a, id) in r.calls ==> CallOk(r, a, id)
  {
    hide IdOf, MsgOk, TaskOk;
    forall a, id | (a, id) in r.calls ensures CallOk(r, a, id) {
      assert CallOk(s, a, id);
      CallStable(s, r, a, id);
    }
  }

  lemma RecordKeepsInv(s: State, t: Task, o: Outcome)
    requires Inv(s) && t in s.tasks
    ensures t.tag in s.ran && Inv(Recorded(s, t, Run(t.server, t.verb, t.params, o)))
  {
    hide IdOf, Look, MsgOk, AnswerView;
    assert TaskOk(s, t);
    var r := Recorded(s, t, Run(t.server, t.verb, t.params, o));
    FitsAlready(s);
    CallsStable(s, r);
    forall u | u in r.ran ensures RanOk(r, u) { assert RanOk(s, u); }
    forall u | u in r.inbox ensures InboxOk(r, u) { assert InboxOk(s, u); }
    Assemble(s, r);
  }

  lemma AddKeepsInv(s: State, m: Msg)
    requires Inv(s) && MsgOk(s, m)
    ensures Inv(s.(net := s.net + {m}))
  {
    hide IdOf, Look, TaskOk, AnswerView;
    var r := s.(net := s.net + {m});
    FitsAlready(s);
    CallsStable(s, r);
    forall u | u in r.ran ensures RanOk(r, u) { assert RanOk(s, u); }
    Assemble(s, r);
  }

  ghost function Issued(s: State, a: Name, c: Call): State
    requires a in s.counts
  {
    var k := s.counts[a] + 1;
    s.(counts := s.counts[a := k], calls := s.calls[(a, IdOf(k)) := k], running := s.running + {Tag(a, k)},
       issued := s.issued[Tag(a, k) := c], ran := s.ran[Tag(a, k) := {}])
  }

  lemma FreshTag(s: State, a: Name)
    requires Inv(s) && a in s.counts
    ensures var t := Tag(a, s.counts[a] + 1); t !in s.issued && t !in s.ran && t !in s.inbox
  {}

  lemma IssueKeepsInv(s: State, a: Name, c: Call)
    requires Inv(s) && a in s.counts && Window(s, a, s.counts[a] + 1)
    ensures Inv(Issued(s, a, c))
  {
    hide IdOf, MsgOk, TaskOk, AnswerView, CallOk, InboxOk;
    var r, k := Issued(s, a, c), s.counts[a] + 1;
    FreshTag(s, a);
    IssueCalls(s, a, c);
    IssueFits(s, a, c);
    forall t | t in r.ran ensures RanOk(r, t) {
      if t != Tag(a, k) { assert RanOk(s, t); }
    }
    hide RanOk, Fits, TagOk, Window;
    Assemble(s, r);
  }

  /** Everything under way still fits into the window of ids. */
  lemma IssueFits(s: State, a: Name, c: Call)
    requires Inv(s) && a in s.counts && Window(s, a, s.counts[a] + 1)
    ensures var r, t := Issued(s, a, c), Tag(a, s.counts[a] + 1);
            && Grows(s, r) && TagOk(r, t)
            && (forall m :: m in s.net ==> Fits(r, m.tag)) && (forall u :: u in s.tasks ==> Fits(r, u.tag))
            && (forall u :: u in s.running ==> Fits(r, u))
  {
    hide IdOf, AnswerView, CallOk, InboxOk, RanOk;
    FitsAlready(s);
    FreshTag(s, a);
  }

  lemma IssueCalls(s: State, a: Name, c: Call)
    requires Inv(s) && a in s.counts && Window(s, a, s.counts[a] + 1)
    ensures var r := Issued(s, a, c);
            forall b, id {:trigger CallOk(r, b, id)} :: (b, id) in r.calls ==> CallOk(r, b, id)
  {
    hide IdOf, MsgOk, TaskOk, AnswerView, InboxOk, RanOk;
    var r, k := Issued(s, a, c), s.counts[a] + 1;
    FreshTag(s, a);
    forall b, id | (b, id) in r.calls ensures CallOk(r, b, id) {
      if (b, id) != (a, IdOf(k)) {
        assert CallOk(s, b, id);
        CallStable(s, r, b, id);
      }
    }
  }

  lemma CallKeepsInv(s: State, a: Name, c: Call, form: Form)
    requires Inv(s) && Enabled(s, DoCall(a, c, form))
    ensures Inv(After(s, DoCall(a, c, form)))
  {
    hide IdOf, CallHeader, Carry, MsgOk, Inv, Look;
    var k := s.counts[a] + 1;
    IssueKeepsInv(s, a, c);
    var r := Issued(s, a, c);
    assert TagOk(r, Tag(a, k));
    AskOk(r, form, Tag(a, k));
    AddKeepsInv(r, Ask(a, c.target, Carry(form, CallHeader(c.verb, IdOf(k)), c.params), Tag(a, k)));
  }

  lemma RespondKeepsInv(s: State, t: Task, o: Outcome, form: Form)
    requires Inv(s) && Enabled(s, Respond(t, o, form))
    ensures Inv(After(s, Respond(t, o, form)))
  {
    hide IdOf, Look, AnswerFrame, MsgOk, Inv;
    var run := Run(t.server, t.verb, t.params, o);
    RecordKeepsInv(s, t, o);
    var r := Recorded(s, t, run);
    assert TaskOk(s, t) by { TaskFact(s, t); }
    assert TagOk(r, t.tag);
    AnswerOk(r, form, t.tag, run);
    AddKeepsInv(r, Answer(t.server, t.replyTo, AnswerFrame(form, t.id, o), t.tag, run));
  }

  lemma TaskFact(s: State, t: Task)
    requires Inv(s) && t in s.tasks
    ensures TaskOk(s, t)
  {}

  /** The heart of the matter: a reply found by its id belongs to the call that is waiting. */
  lemma ReplyBelongs(s: State, m: Msg)
    requires Inv(s) && m in s.net && m.Answer?
    ensures m.frame.InBounds() && Look(m.frame).Ok?
    ensures var v := Look(m.frame).value;
            (m.to, v.id) in s.calls ==>
              Tag(m.to, s.calls[(m.to, v.id)]) == m.tag && m.run in s.ran[m.tag]
                  && v == AnswerView(IdOf(m.tag.k), m.run.outcome)
  {
    hide IdOf, Look;
    assert MsgOk(s, m);
    var v := Look(m.frame).value;
    if (m.to, v.id) in s.calls {
      assert CallOk(s, m.to, v.id);
      SameIdSameCall(s, Tag(m.to, s.calls[(m.to, v.id)]), m.tag);
    }
  }

  lemma ReplyKeepsInv(s: State, m: Msg)
    requires Inv(s) && Enabled(s, TakeReply(m))
    ensures Inv(After(s, TakeReply(m)))
  {
    hide IdOf, Look, AnswerView, MsgOk, TaskOk;
    ReplyBelongs(s, m);
    var v := Look(m.frame).value;
    if (m.to, v.id) in s.calls {
      var r := After(s, TakeReply(m));
      assert CallOk(s, m.to, v.id);
      forall a, id | (a, id) in r.calls ensures CallOk(r, a, id) {
        assert CallOk(s, a, id);
        CallStable(s, r, a, id);
      }
      FitsAlready(s);
      forall u | u in r.ran ensures RanOk(r, u) { assert RanOk(s, u); }
      assert InboxOk(r, m.tag);
      Assemble(s, r);
    }
  }

  lemma StrayKeepsInv(s: State, from: Name, to: Name, frame: Frame)
    requires Inv(s)
    ensures Inv(After(s, TakeStray(from, to, frame)))
  {
    hide IdOf, Look, AnswerView, MsgOk, TaskOk;
    if Resolves(s, to, frame) {
      var v, r := Read(frame).value, After(s, TakeStray(from, to, frame));
      assert CallOk(s, to, v.id);
      forall a, id | (a, id) in r.calls ensures CallOk(r, a, id) {
        assert CallOk(s, a, id);
        CallStable(s, r, a, id);
      }
      FitsAlready(s);
      forall u | u in r.ran ensures RanOk(r, u) { assert RanOk(s, u); }
      Assemble(s, r);
    }
  }

  lemma RequestKeepsInv(s: State, m: Msg)
    requires Inv(s) && Enabled(s, TakeRequest(m))
    ensures Inv(After(s, TakeRequest(m)))
  {
    hide IdOf, Look, AnswerView;
    var r := After(s, TakeRequest(m));
    assert MsgOk(s, m);
    FitsAlready(s);
    CallsStable(s, r);
    forall u | u in r.ran ensures RanOk(r, u) { assert RanOk(s, u); }
    Assemble(s, r);
  }

  lemma Shrinks(s: State, r: State)
    requires Inv(s) && r.counts == s.counts && r.issued == s.issued && r.ran == s.ran && r.inbox == s.inbox
    requires r.net <= s.net && r.tasks <= s.tasks && r.running <= s.running
    requires forall key :: key in r.calls ==> key in s.calls && r.calls[key] == s.calls[key]
    requires forall t :: t in r.results ==> t in r.inbox && r.results[t] == ResultOf(r.inbox[t].view)
    ensures Inv(r)
  {
    hide IdOf, Look, AnswerView, MsgOk, TaskOk, CallOk, TagOk;
    FitsAlready(s);
    CallsStable(s, r);
    SameRecords(s, r);
    Assemble(s, r);
  }

  /** Giving a call up, completing it, and losing a message only take things away. */
  lemma RemovalKeepsInv(s: State, st: Step)
    requires Inv(s) && Enabled(s, st) && (st.Cancel? || st.Abandon? || st.Finish? || st.Lose?)
    ensures Inv(After(s, st))
  {
    hide IdOf, Look, MsgOk, TaskOk, CallOk, InboxOk, RanOk, ResultOf;
    match st
    case Cancel(tag) => Shrinks(s, s.(calls := s.calls - {(tag.caller, IdOf(tag.k))}, running := s.running - {tag}));
    case Abandon(tag) => Shrinks(s, s.(running := s.running - {tag}, abandoned := s.abandoned + {tag}));
    case Finish(tag) => Shrinks(s, s.(running := s.running - {tag},
        results := s.results[tag := ResultOf(s.inbox[tag].view)]));
    case Lose(m) => Shrinks(s, s.(net := s.net - {m}));
  }

  lemma SameRecords(s: State, r: State)
    requires Inv(s) && r.ran == s.ran && r.issued == s.issued
    ensures forall u :: u in r.ran ==> RanOk(r, u)
  {}

  ghost predicate IsRun(states: seq<State>, steps: seq<Step>) {
    && |states| == |steps| + 1 && Init(states[0])
    && forall i :: 0 <= i < |steps| ==> Enabled(states[i], steps[i]) && states[i + 1] == After(states[i], steps[i])
  }

  lemma {:induction false} RunKeepsInv(states: seq<State>, steps: seq<Step>, i: nat)
    requires IsRun(states, steps) && i < |states|
    ensures Inv(states[i])
  {
    hide IdOf, Look;
    if i > 0 {
      RunKeepsInv(states, steps, i - 1);
      var s, st := states[i - 1], steps[i - 1];
      match st
      case DoCall(a, c, form) => CallKeepsInv(s, a, c, form);
      case Respond(t, o, form) => RespondKeepsInv(s, t, o, form);
      case TakeReply(m) => ReplyKeepsInv(s, m);
      case TakeStray(from, to, frame) => StrayKeepsInv(s, from, to, frame);
      case TakeRequest(m) => RequestKeepsInv(s, m);
      case _ => RemovalKeepsInv(s, st);
    }
  }

  /** What a stray reply in an inbox is: one that was sent in the run. */
  lemma {:induction false} StrayWasSent(states: seq<State>, steps: seq<Step>, i: nat, t: Tag)
    requires IsRun(states, steps) && i < |states| && t in states[i].inbox && states[i].inbox[t].Stray?
    ensures exists k :: 0 <= k < i && steps[k].TakeStray? && steps[k].from == states[i].inbox[t].from
  {
    hide After, Enabled;
    if i > 0 {
      var s := states[i - 1];
      assert Enabled(s, steps[i - 1]) && states[i] == After(s, steps[i - 1]);
      StrayArrives(s, steps[i - 1], t);
      if t in s.inbox && s.inbox[t] == states[i].inbox[t] {
        StrayWasSent(states, steps, i - 1, t);
      }
    }
  }

  lemma StrayArrives(s: State, st: Step, t: Tag)
    requires Enabled(s, st) && t in After(s, st).inbox && After(s, st).inbox[t].Stray?
    ensures (t in s.inbox && s.inbox[t] == After(s, st).inbox[t]) || (st.TakeStray?
        && st.from == After(s, st).inbox[t].from)
  {
    hide IdOf, Look, CallHeader, Carry, AnswerFrame;
  }

  /** In every run, a call that completed from a reply returned what the reply says. If a handler made the reply, it
      is a run of the handler at the call's target, on exactly its method and parameters, and the call returned what
      that run returned. And if the target itself sends no stray replies, that is so exactly when the target is the
      sender. */
  lemma CallGetsItsOwnResult(states: seq<State>, steps: seq<Step>, i: nat, t: Tag)
    requires IsRun(states, steps) && i < |states| && t in states[i].results
    ensures var s := states[i];
            && t in s.issued && t in s.ran && t in s.inbox && s.results[t] == ResultOf(s.inbox[t].view)
            && (s.inbox[t].Made? ==>
                  exists r :: r in s.ran[t] && r.server == s.issued[t].target && r.verb == s.issued[t].verb
                              && r.params == s.issued[t].params && s.results[t] == Expected(r.outcome))
            && ((forall k :: 0 <= k < i && steps[k].TakeStray? ==> steps[k].from != s.issued[t].target) ==>
                  (s.inbox[t].Made? <==> s.inbox[t].Sender() == s.issued[t].target))
  {
    hide IdOf, Look;
    RunKeepsInv(states, steps, i);
    var s := states[i];
    assert InboxOk(s, t) && RanOk(s, t);
    if s.inbox[t].Made? {
      var r := s.inbox[t].run;
      assert r in s.ran[t] && ResultOf(s.inbox[t].view) == Expected(r.outcome);
    } else {
      StrayWasSent(states, steps, i, t);
    }
  }

  // ----- calls that are answered complete

  /** A request that is read starts a handler at the peer called, with the method and the parameters of the call. */
  lemma RequestStartsHandler(s: State, m: Msg)
    requires Inv(s) && m in s.net && m.Ask?
    ensures m.tag in s.issued
    ensures var c := s.issued[m.tag];
            After(s, TakeRequest(m)) == s.(tasks :=
              s.tasks + {Task(c.target, m.tag.caller, IdOf(m.tag.k), c.verb, c.params, m.tag)})
  {
    hide IdOf, Look;
    assert MsgOk(s, m);
  }

  /** Whatever a handler of a call returns is on its way to the caller then. */
  lemma OutcomeIsSent(s: State, t: Task, o: Outcome, form: Form)
    requires Inv(s) && Enabled(s, Respond(t, o, form))
    ensures t.tag in s.ran
    ensures var run := Run(t.server, t.verb, t.params, o);
            After(s, Respond(t, o, form)) == s.(tasks := s.tasks - {t}, ran := s.ran[t.tag := s.ran[t.tag] + {run}],
              net := s.net + {Answer(t.server, t.tag.caller, AnswerFrame(form, IdOf(t.tag.k), o), t.tag, run)})
  {
    hide Look, AnswerFrame;
    assert TaskOk(s, t);
  }

  /** The call has its entry in the map of pending ones. */
  ghost predicate IsPending(s: State, t: Tag) {
    (t.caller, IdOf(t.k)) in s.calls && s.calls[(t.caller, IdOf(t.k))] == t.k
  }

  /** The call has been answered by the run: it is pending no longer, what the run returned is what it will return, and
      no other call is touched. */
  ghost predicate Answered(s: State, r: State, t: Tag, run: Run) {
    && t in r.inbox && r.inbox[t].Made? && r.inbox[t].run == run
    && ResultOf(r.inbox[t].view) == Expected(run.outcome)
    && r == s.(calls := s.calls - {(t.caller, IdOf(t.k))}, inbox := s.inbox[t := r.inbox[t]])
  }

  /** A reply that is read while its call is pending completes it, be it an error or not. */
  lemma ReplyCompletes(s: State, m: Msg)
    requires Inv(s) && m in s.net && m.Answer?
    ensures m.to == m.tag.caller
    ensures if (m.to, IdOf(m.tag.k)) in s.calls
            then IsPending(s, m.tag) && Answered(s, After(s, TakeReply(m)), m.tag, m.run)
            else After(s, TakeReply(m)) == s
  {
    hide IdOf, Look;
    assert MsgOk(s, m);
    ReplyBelongs(s, m);
  }

  /** A pending call stays so until it is given up or answered. */
  lemma PendingUntilAnswered(s: State, st: Step, a: Name, id: nat)
    requires Inv(s) && Enabled(s, st) && (a, id) in s.calls
    ensures var t, r := Tag(a, s.calls[(a, id)]), After(s, st);
            if (a, id) in r.calls then
              r.calls[(a, id)] == t.k
            else
              || (st.Cancel? && st.tag.caller == a && IdOf(st.tag.k) == id)
              || (st.TakeReply? && st.msg.tag == t && t in r.inbox && r.inbox[t].Made?)
              || (st.TakeStray? && st.to == a && Resolves(s, a, st.frame) && t in r.inbox && r.inbox[t].Stray?)
  {
    hide IdOf, Look, Inv, AnswerView, CallHeader, Carry, AnswerFrame;
    if st.DoCall? { NewIdIsFree(s, st.caller); }
    if st.TakeReply? { ReplyBelongs(s, st.msg); }
  }

  /** No reply has come to the call, and its caller waits for one, or has left without a word. */
  ghost predicate Unanswered(s: State, t: Tag) { (t in s.running || t in s.abandoned) && t !in s.inbox }

  ghost predicate RightlyPending(s: State, t: Tag) {
    && (IsPending(s, t) <==> Unanswered(s, t))
    && (t in s.abandoned ==> t in s.issued && t !in s.running)
  }

  lemma StepKeepsPending(s: State, st: Step, t: Tag)
    requires Inv(s) && Enabled(s, st) && RightlyPending(s, t)
    ensures RightlyPending(After(s, st), t)
  {
    if st.DoCall? {
      CallKeepsPending(s, st.caller, st.call, st.form, t);
    } else if st.TakeReply? || st.TakeStray? {
      AnswerKeepsPending(s, st, t);
    } else {
      hide IdOf, Look, Inv, AnswerFrame;
      if st.Cancel? && IsPending(s, t) && t.caller == st.tag.caller && IdOf(t.k) == IdOf(st.tag.k) {
        PendingIsRunning(s, t, st.tag);
      }
    }
  }

  lemma CallKeepsPending(s: State, a: Name, c: Call, form: Form, t: Tag)
    requires Inv(s) && Enabled(s, DoCall(a, c, form)) && RightlyPending(s, t)
    ensures RightlyPending(After(s, DoCall(a, c, form)), t)
  {
    hide IdOf, Inv, CallHeader, Carry, Window;
    NewIdIsFree(s, a);
    NotYetIssued(s, a);
  }

  lemma AnswerKeepsPending(s: State, st: Step, t: Tag)
    requires Inv(s) && Enabled(s, st) && RightlyPending(s, t) && (st.TakeReply? || st.TakeStray?)
    ensures RightlyPending(After(s, st), t)
  {
    hide IdOf, Look, Inv;
    var to, v := if st.TakeReply? then st.msg.to else st.to, Read(if st.TakeReply? then st.msg.frame else st.frame);
    if v.Ok? && (to, v.value.id) in s.calls { KeyOfEntry(s, to, v.value.id); }
  }

  lemma PendingIsRunning(s: State, t: Tag, u: Tag)
    requires Inv(s) && IsPending(s, t) && u in s.running && t.caller == u.caller && IdOf(t.k) == IdOf(u.k)
    ensures t == u
  {
    hide IdOf;
    assert CallOk(s, t.caller, IdOf(t.k));
    SameIdSameCall(s, t, u);
  }

  lemma KeyOfEntry(s: State, a: Name, id: nat)
    requires Inv(s) && (a, id) in s.calls
    ensures id == IdOf(s.calls[(a, id)])
  {
    hide IdOf;
    assert CallOk(s, a, id);
  }

  /** In every run the pending calls are exactly those that no reply has come to: their callers wait, or have abandoned
      them. None is forgotten while its caller waits; and one that is cancelled or answered does not stay behind, but one
      that is abandoned does, until it is answered. */
  lemma PendingIffUnanswered(states: seq<State>, steps: seq<Step>, i: nat, t: Tag)
    requires IsRun(states, steps) && i < |states|
    ensures IsPending(states[i], t) <==> Unanswered(states[i], t)
    ensures t in states[i].abandoned ==> t !in states[i].running && Abandon(t) in steps[..i]
  {
    hide IdOf, Inv, After, Enabled;
    PendingRightly(states, steps, i, t);
    if t in states[i].abandoned { WasAbandoned(states, steps, i, t); }
  }

  lemma {:induction false} PendingRightly(states: seq<State>, steps: seq<Step>, i: nat, t: Tag)
    requires IsRun(states, steps) && i < |states|
    ensures RightlyPending(states[i], t)
    decreases i
  {
    if i > 0 {
      hide IdOf, Inv, After, Enabled;
      RunKeepsInv(states, steps, i - 1);
      PendingRightly(states, steps, i - 1, t);
      StepKeepsPending(states[i - 1], steps[i - 1], t);
    }
  }

  lemma {:induction false} WasAbandoned(states: seq<State>, steps: seq<Step>, i: nat, t: Tag)
    requires IsRun(states, steps) && i < |states| && t in states[i].abandoned
    ensures Abandon(t) in steps[..i]
    decreases i
  {
    hide IdOf, Look;
    assert i > 0 && Enabled(states[i - 1], steps[i - 1]);
    if steps[i - 1] == Abandon(t) {
      assert steps[..i][i - 1] == Abandon(t);
    } else {
      OnlyAbandon(states[i - 1], steps[i - 1], t);
      WasAbandoned(states, steps, i - 1, t);
      assert steps[..i] == steps[..i - 1] + [steps[i - 1]];
    }
  }

  lemma OnlyAbandon(s: State, st: Step, t: Tag)
    requires Enabled(s, st) && t in After(s, st).abandoned && st != Abandon(t)
    ensures t in s.abandoned
  {
    hide IdOf, Look, CallHeader, Carry, AnswerFrame, Window;
  }

  /** One call has been made, served at its target by one run of a handler, and has returned what that run returned; no
      other call is touched. */
  ghost predicate Carried(s: State, r: State, t: Tag, c: Call, o: Outcome) {
    && t !in s.results && r.results == s.results[t := Expected(o)]
    && r.calls == s.calls && r.running == s.running
    && r.issued == s.issued[t := c] && r.ran == s.ran[t := {Run(c.target, c.verb, c.params, o)}]
  }

  /** From every state in which a call may be made, and for every way its frames travel and everything its handler may
      return, the call can be carried through, and then it has returned exactly that; no other call is touched. */
  lemma CallCompletes(s: State, a: Name, c: Call, there: Form, o: Outcome, back: Form)
      returns (s1: State, s2: State, s3: State, s4: State, s5: State, ask: Msg, task: Task, reply: Msg)
    requires Inv(s) && Enabled(s, DoCall(a, c, there)) && (o.Failed? ==> IsI16(o.code))
    ensures s1 == After(s, DoCall(a, c, there))
    ensures Enabled(s1, TakeRequest(ask)) && s2 == After(s1, TakeRequest(ask))
    ensures Enabled(s2, Respond(task, o, back)) && s3 == After(s2, Respond(task, o, back))
    ensures Enabled(s3, TakeReply(reply)) && s4 == After(s3, TakeReply(reply))
    ensures var t := Tag(a, s.counts[a] + 1);
            && Enabled(s4, Finish(t)) && s5 == After(s4, Finish(t))
            && Carried(s, s5, t, c, o)
  {
    assert a in s.counts && Window(s, a, s.counts[a] + 1);
    hide *;
    var t := Tag(a, s.counts[a] + 1);
    NewIdIsFree(s, a);
    NotYetIssued(s, a);
    s1 := After(s, DoCall(a, c, there));
    ask := CallIsSent(s, a, c, there);
    CallKeepsInv(s, a, c, there);
    s2, s3, s4, task, reply := AnswerComesBack(s1, ask, o, back);
    FinishReturns(s4, t);
    s5 := After(s4, Finish(t));
    NothingElse(s, s1, s4, s5, t, c, o);
  }

  lemma NothingElse(s: State, s1: State, s4: State, s5: State, t: Tag, c: Call, o: Outcome)
    requires (t.caller, IdOf(t.k)) !in s.calls && t !in s.results && t !in s.running
    requires s1.calls == s.calls[(t.caller, IdOf(t.k)) := t.k] && s4.calls == s1.calls - {(t.caller, IdOf(t.k))}
    requires s1.running == s.running + {t} && s4.running == s1.running && s5.running == s4.running - {t}
    requires s1.ran == s.ran[t := {}] && s4.ran == s1.ran[t := s1.ran[t] + {Run(c.target, c.verb, c.params, o)}]
    requires s1.issued == s.issued[t := c] && s4.issued == s1.issued && s5.issued == s4.issued && s5.ran == s4.ran
    requires s1.results == s.results && s4.results == s1.results && s5.results == s4.results[t := Expected(o)]
    requires s5.calls == s4.calls
    ensures Carried(s, s5, t, c, o)
  {
    hide IdOf, Expected;
    var run := Run(c.target, c.verb, c.params, o);
    PutTwice(s.ran, t, {}, {run});
    TakenBack(s.calls, (t.caller, IdOf(t.k)), t.k);
    assert {} + {run} == {run} && s.running + {t} - {t} == s.running;
  }

  lemma PutTwice<K, V>(m: map<K, V>, k: K, v: V, w: V)
    ensures m[k := v][k := w] == m[k := w]
  {}

  lemma TakenBack<K, V>(m: map<K, V>, k: K, v: V)
    requires k !in m
    ensures m[k := v] - {k} == m
  {}

  /** A call that is made is pending, and its request is under way. */
  lemma CallIsSent(s: State, a: Name, c: Call, form: Form) returns (ask: Msg)
    requires Enabled(s, DoCall(a, c, form))
    ensures var t, r := Tag(a, s.counts[a] + 1), After(s, DoCall(a, c, form));
            && ask in r.net && ask.Ask? && ask.tag == t
            && r.calls == s.calls[(a, IdOf(t.k)) := t.k] && r.running == s.running + {t} && r.results == s.results
            && r.issued == s.issued[t := c] && r.ran == s.ran[t := {}]
  {
    hide IdOf, CallHeader, Carry;
    var k := s.counts[a] + 1;
    ask := Ask(a, c.target, Carry(form, CallHeader(c.verb, IdOf(k)), c.params), Tag(a, k));
  }

  /** A request under way whose call is pending can be answered by any outcome, and the call then finishes with it. */
  lemma AnswerComesBack(s: State, ask: Msg, o: Outcome, back: Form)
      returns (s2: State, s3: State, s4: State, task: Task, reply: Msg)
    requires Inv(s) && ask in s.net && ask.Ask? && (ask.tag.caller, IdOf(ask.tag.k)) in s.calls
    requires o.Failed? ==> IsI16(o.code)
    ensures Enabled(s, TakeRequest(ask)) && s2 == After(s, TakeRequest(ask))
    ensures Enabled(s2, Respond(task, o, back)) && s3 == After(s2, Respond(task, o, back))
    ensures Enabled(s3, TakeReply(reply)) && s4 == After(s3, TakeReply(reply))
    ensures var t := ask.tag;
            && t in s.issued && t in s.ran && t in s4.inbox && ResultOf(s4.inbox[t].view) == Expected(o)
            && s4.calls == s.calls - {(t.caller, IdOf(t.k))} && s4.running == s.running && s4.results == s.results
            && s4.issued == s.issued
            && var c := s.issued[t]; s4.ran == s.ran[t := s.ran[t] + {Run(c.target, c.verb, c.params, o)}]
  {
    hide IdOf, Look, AnswerFrame, Inv, Expected, ResultOf, After;
    RequestStartsHandler(s, ask);
    RequestKeepsInv(s, ask);
    var t, c := ask.tag, s.issued[ask.tag];
    s2, task := After(s, TakeRequest(ask)), Task(c.target, t.caller, IdOf(t.k), c.verb, c.params, t);
    OutcomeIsSent(s2, task, o, back);
    RespondKeepsInv(s2, task, o, back);
    s3 := After(s2, Respond(task, o, back));
    reply := Answer(c.target, t.caller, AnswerFrame(back, IdOf(t.k), o), t, Run(c.target, c.verb, c.params, o));
    ReplyCompletes(s3, reply);
    s4 := After(s3, TakeReply(reply));
  }

  /** A call that finishes returns what its reply says. */
  lemma FinishReturns(s: State, t: Tag)
    requires t in s.running && t in s.inbox
    ensures Enabled(s, Finish(t))
    ensures After(s, Finish(t)) == s.(running := s.running - {t}, results := s.results[t := ResultOf(s.inbox[t].view)])
  {}

  lemma NotYetIssued(s: State, a: Name)
    requires Inv(s) && a in s.counts
    ensures var t := Tag(a, s.counts[a] + 1); t !in s.inbox && t !in s.results && t !in s.running
  {
    FreshTag(s, a);
  }

  /** A stray reply does resolve a call: any peer that names the id of a pending call decides what it returns. */
  lemma StrayResolves(s: State, a: Name, k: nat, from: Name, payload: Bytes)
    requires k < TWO_32 && (a, k) in s.calls
    ensures var r := After(s, TakeStray(from, a, Flat(ReplyHeader(k), payload)));
            var t := Tag(a, s.calls[(a, k)]);
            && (a, k) !in r.calls && t in r.inbox && r.inbox[t].Stray? && ResultOf(r.inbox[t].view) == Success(payload)
  {
    hide IdOf, Look;
    ReplyParses(k, payload);
  }
}
