/** The buffered writer with a time-to-live (src/comm.rs): a buffer behind a lock, a channel with one slot, a background
    flusher and a last flush on drop, in any interleaving. */
module FlushTtl {
  import opened Bytes
  import opened Protocol
  import opened Incoming
  import Wire

  datatype Owner = Nobody | Writer | Flusher | Dropper

  /** Where `write` stands: waiting for the lock, copying bytes, flushing, or about to queue a token. */
  datatype WriterPc =
    | WIdle
    | WWant(w: Write)
    | WCopy(w: Write, n: nat)
    | WFlush(w: Write)
    | WSend(w: Write)
    | WGone

  datatype FlusherPc = FRecv | FSleep | FWant | FFlush | FAborted
  datatype DropperPc = DWait | DWant | DFlush | DDone

  /** `buf` is the buffer, `out` what reached the socket. `accepted` are the bytes `write_all` took so far, `done` the
      writes that returned. */
  datatype State = State(
    out: Bytes, buf: Bytes, lock: Owner, token: bool,
    writer: WriterPc, flusher: FlusherPc, dropper: DropperPc,
    accepted: Bytes, done: seq<Write>)

  const START: State := State([], [], Nobody, false, WIdle, FRecv, DWait, [], [])

  datatype Step =
    | Call(w: Write) | WLock | Copy(k: nat) | Spill(k: nat) | Decide | Queue
    | Receive | Wake | FLock | FlusherDone | FlusherTimeout | Abort
    | Drop | DLock | DropperDone | DropperTimeout

  ghost predicate Enabled(s: State, st: Step) {
    match st
    case Call(_) => s.writer.WIdle?
    case WLock => s.writer.WWant? && s.lock.Nobody?
    case Copy(k) => s.writer.WCopy? && 0 < k <= |s.writer.w.data| - s.writer.n
    // bytes leave the buffer for the socket: while a full buffer makes room, or while someone flushes
    case Spill(k) => 0 < k <= |s.buf| && (s.writer.WCopy? || s.writer.WFlush? || s.flusher.FFlush? || s.dropper.DFlush?)
    case Decide => (s.writer.WCopy? && s.writer.n == |s.writer.w.data|) || (s.writer.WFlush? && s.buf == [])
    case Queue => s.writer.WSend? && !s.token
    case Receive => s.flusher.FRecv? && s.token
    case Wake => s.flusher.FSleep?
    case FLock => s.flusher.FWant? && s.lock.Nobody?
    case FlusherDone => s.flusher.FFlush? && s.buf == []
    case FlusherTimeout => s.flusher.FWant? || s.flusher.FFlush?
    case Abort => s.writer.WGone? && !s.flusher.FAborted?
    case Drop => !s.writer.WGone?
    case DLock => s.dropper.DWant? && s.lock.Nobody?
    case DropperDone => s.dropper.DFlush? && s.buf == []
    case DropperTimeout => s.dropper.DFlush?
  }

  ghost function Release(s: State, o: Owner): Owner {
    if s.lock == o then Nobody else s.lock
  }

  ghost function Returned(s: State): State
    requires s.writer.WCopy? || s.writer.WFlush? || s.writer.WSend?
  {
    s.(writer := WIdle, lock := Release(s, Writer), done := s.done + [s.writer.w])
  }

  ghost function After(s: State, st: Step): State
    requires Enabled(s, st)
  {
    match st
    case Call(w) => s.(writer := WWant(w))
    case WLock => s.(writer := WCopy(s.writer.w, 0), lock := Writer)
    case Copy(k) =>
      var chunk := s.writer.w.data[s.writer.n..s.writer.n + k];
      s.(buf := s.buf + chunk, accepted := s.accepted + chunk, writer := WCopy(s.writer.w, s.writer.n + k))
    case Spill(k) => s.(out := s.out + s.buf[..k], buf := s.buf[k..])
    case Decide =>
      if s.writer.WFlush? then Returned(s)
      else if s.writer.w.flush.Instant? then s.(writer := WFlush(s.writer.w))
      else if s.writer.w.flush.Scheduled? && !s.token then s.(writer := WSend(s.writer.w))
      else Returned(s)
    case Queue => Returned(s).(token := true)
    case Receive => s.(token := false, flusher := FSleep)
    case Wake => s.(flusher := FWant)
    case FLock => s.(flusher := FFlush, lock := Flusher)
    case FlusherDone => s.(flusher := FRecv, lock := Release(s, Flusher))
    case FlusherTimeout => s.(flusher := FRecv, lock := Release(s, Flusher))
    case Abort => s.(flusher := FAborted, lock := Release(s, Flusher))
    case Drop => s.(writer := WGone, lock := Release(s, Writer), dropper := DWant)
    case DLock => s.(dropper := DFlush, lock := Dropper)
    case DropperDone => s.(dropper := DDone, lock := Release(s, Dropper))
    case DropperTimeout => s.(dropper := DDone, lock := Release(s, Dropper))
  }

  ghost predicate IsRun(states: seq<State>, steps: seq<Step>) {
    && |states| == |steps| + 1 && states[0] == START
    && forall i :: 0 <= i < |steps| ==> Enabled(states[i], steps[i]) && states[i + 1] == After(states[i], steps[i])
  }

  // ----- invariants

  ghost predicate WriterHolds(s: State) { s.writer.WCopy? || s.writer.WFlush? || s.writer.WSend? }

  ghost predicate LockOk(s: State) {
    && (s.lock.Writer? <==> WriterHolds(s))
    && (s.lock.Flusher? <==> s.flusher.FFlush?)
    && (s.lock.Dropper? <==> s.dropper.DFlush?)
  }

  /** Between frames: no write is under way past its wait for the lock, and the last one asked for a flush. */
  ghost predicate AtBoundary(s: State) {
    (s.writer.WIdle? || s.writer.WWant?) && (s.done != [] ==> !s.done[|s.done| - 1].flush.NoFlush?)
  }

  /** A flush that will take every buffered byte is queued or under way. */
  ghost predicate FlushPending(s: State) {
    s.token || s.flusher.FSleep? || s.flusher.FWant? || s.flusher.FFlush?
  }

  ghost predicate Covered(s: State) { s.buf == [] || FlushPending(s) }

  /** What of the write under way has been accepted. */
  ghost function Partial(s: State): Bytes {
    match s.writer
    case WCopy(w, n) => if n <= |w.data| then w.data[..n] else w.data
    case WFlush(w) => w.data
    case WSend(w) => w.data
    case _ => []
  }

  ghost predicate BytesOk(s: State) {
    && s.out + s.buf == s.accepted
    && (s.writer.WCopy? ==> s.writer.n <= |s.writer.w.data|)
    && (if s.writer.WGone? then Output(s.done) <= s.accepted else s.accepted == Output(s.done) + Partial(s))
  }

  ghost predicate FlushOk(s: State) {
    && (s.writer.WSend? ==> !s.token && s.writer.w.flush.Scheduled?)
    && (s.writer.WFlush? ==> s.writer.w.flush.Instant?)
    && (!s.writer.WGone? ==> s.dropper.DWait? && !s.flusher.FAborted?)
    && (s.writer.WGone? ==> !s.dropper.DWait?)
  }

  ghost predicate Inv(s: State) { LockOk(s) && BytesOk(s) && FlushOk(s) }

  lemma StepKeepsLock(s: State, st: Step)
    requires Inv(s) && Enabled(s, st)
    ensures LockOk(After(s, st))
  {}

  lemma OutputSnoc(ws: seq<Write>, w: Write)
    ensures Output(ws + [w]) == Output(ws) + w.data
  {
    OutputConcat(ws, [w]);
    OutputOne(w);
  }

  lemma CopyKeepsBytes(s: State, k: nat)
    requires BytesOk(s) && Enabled(s, Copy(k))
    ensures BytesOk(After(s, Copy(k)))
  {
    hide Output;
    var w, n := s.writer.w, s.writer.n;
    var chunk := w.data[n..n + k];
    assert w.data[..n] + chunk == w.data[..n + k];
    Wire.Concat(Output(s.done), w.data[..n], chunk);
    Wire.Concat(s.out, s.buf, chunk);
  }

  lemma SpillKeepsBytes(s: State, k: nat)
    requires BytesOk(s) && Enabled(s, Spill(k))
    ensures BytesOk(After(s, Spill(k)))
  {
    hide Output;
    assert s.buf == s.buf[..k] + s.buf[k..];
    Wire.Concat(s.out, s.buf[..k], s.buf[k..]);
  }

  lemma ReturnKeepsBytes(s: State)
    requires BytesOk(s) && (s.writer.WFlush? || s.writer.WSend? || (s.writer.WCopy? && s.writer.n == |s.writer.w.data|))
    ensures BytesOk(Returned(s))
  {
    hide Output;
    OutputSnoc(s.done, s.writer.w);
    assert Partial(s) == s.writer.w.data;
    assert Output(s.done + [s.writer.w]) + [] == Output(s.done + [s.writer.w]);
  }

  lemma DropKeepsBytes(s: State)
    requires BytesOk(s)
    ensures BytesOk(s.(writer := WGone, lock := Release(s, Writer), dropper := DWant))
  {
    hide Output;
  }

  lemma StepKeepsBytes(s: State, st: Step)
    requires Inv(s) && Enabled(s, st)
    ensures BytesOk(After(s, st))
  {
    hide Output;
    if st.Copy? { CopyKeepsBytes(s, st.k); }
    else if st.Spill? { SpillKeepsBytes(s, st.k); }
    else if st.Drop? { DropKeepsBytes(s); }
    else if st.Queue? { ReturnKeepsBytes(s); }
    else if st.Decide? {
      ReturnKeepsBytes(s);
      if s.writer.WCopy? {
        assert s.writer.w.data[..s.writer.n] == s.writer.w.data;
      }
    }
  }

  lemma StepKeepsFlush(s: State, st: Step)
    requires Inv(s) && Enabled(s, st)
    ensures FlushOk(After(s, st))
  {
    hide Output, BytesOk;
  }

  lemma {:induction false} RunKeepsInv(states: seq<State>, steps: seq<Step>, i: nat)
    requires IsRun(states, steps) && i < |states|
    ensures Inv(states[i])
  {
    if i > 0 {
      RunKeepsInv(states, steps, i - 1);
      StepKeepsLock(states[i - 1], steps[i - 1]);
      StepKeepsBytes(states[i - 1], steps[i - 1]);
      StepKeepsFlush(states[i - 1], steps[i - 1]);
    }
  }

  // ----- what the writer promises

  /** In every state of every run: bytes reach the socket in order and none is lost or made up; and queueing a token
      never blocks under the lock. */
  lemma WriterPromises(states: seq<State>, steps: seq<Step>, i: nat)
    requires IsRun(states, steps) && i < |states|
    ensures var s := states[i];
            && s.out + s.buf == s.accepted
            && (s.writer.WIdle? ==> s.accepted == Output(s.done))
            && (s.writer.WSend? ==> Enabled(s, Queue))
  {
    RunKeepsInv(states, steps, i);
  }

  /** The flusher gives up, its token is used up and bytes are left. */
  ghost predicate Forgets(s: State, st: Step) {
    st.FlusherTimeout? && !s.token && s.buf != []
  }

  /** Between frames a step uncovers bytes exactly when the flusher forgets them; and nothing but a write covers them
      again. */
  lemma StepCoversIff(s: State, st: Step)
    requires Inv(s) && Enabled(s, st) && AtBoundary(s) && AtBoundary(After(s, st))
    ensures Covered(After(s, st)) <==> Covered(s) && !Forgets(s, st)
  {
    hide BytesOk;
  }

  /** The end of a frame covers everything. */
  lemma FrameCovers(s: State, st: Step)
    requires Inv(s) && Enabled(s, st) && !AtBoundary(s) && AtBoundary(After(s, st))
    ensures Covered(After(s, st))
  {
    hide BytesOk;
  }

  /** From `t` to `i` no write got as far as the buffer. */
  ghost predicate Between(states: seq<State>, t: nat, i: nat)
    requires i < |states|
  {
    forall u :: t <= u <= i ==> AtBoundary(states[u])
  }

  /** In every run, between frames: a byte is in the buffer with no flush coming exactly when the flusher has
      forgotten it since the last frame. */
  lemma {:induction false} UncoveredIff(states: seq<State>, steps: seq<Step>, i: nat)
    requires IsRun(states, steps) && i < |states| && AtBoundary(states[i])
    ensures !Covered(states[i]) <==>
              exists t :: 0 <= t < i && Forgets(states[t], steps[t]) && Between(states, t, i)
    decreases i
  {
    if i > 0 {
      var k := i - 1;
      RunKeepsInv(states, steps, k);
      assert Enabled(states[k], steps[k]);
      if AtBoundary(states[k]) {
        UncoveredIff(states, steps, k);
        StepCoversIff(states[k], steps[k]);
        assert forall t :: 0 <= t <= k ==> (Between(states, t, i) <==> Between(states, t, k));
      } else {
        FrameCovers(states[k], steps[k]);
        assert forall t :: 0 <= t < i ==> !Between(states, t, i);
      }
    }
  }

  /** The last flush gives up with bytes left. */
  ghost predicate Abandons(s: State, st: Step) {
    st.DropperTimeout? && s.buf != []
  }

  /** After a drop the last flush is pending until everything is out, unless it gives up; once the flusher is stopped as
      well, what was left then is left for good. */
  lemma {:induction false} FinalFlush(states: seq<State>, steps: seq<Step>, i: nat)
    requires IsRun(states, steps) && i < |states| && states[i].writer.WGone?
    ensures var s := states[i];
            && s.buf != [] && !s.dropper.DWant? && !s.dropper.DFlush? ==> exists t ::
                  0 <= t < i && Abandons(states[t], steps[t])
    ensures (exists t :: 0 <= t < i && Abandons(states[t], steps[t]) && states[t].flusher.FAborted?) ==>
              states[i].buf != [] && states[i].dropper.DDone? && states[i].flusher.FAborted?
    decreases i
  {
    if i > 0 {
      var k := i - 1;
      RunKeepsInv(states, steps, k);
      RunKeepsInv(states, steps, i);
      assert Enabled(states[k], steps[k]);
      if states[k].writer.WGone? {
        FinalFlush(states, steps, k);
      } else {
        NoDropperYet(states, steps, k);
      }
    }
  }

  lemma {:induction false} NoDropperYet(states: seq<State>, steps: seq<Step>, i: nat)
    requires IsRun(states, steps) && i < |states| && !states[i].writer.WGone?
    ensures forall t :: 0 <= t < i ==> !Abandons(states[t], steps[t])
    decreases i
  {
    if i > 0 {
      assert Enabled(states[i - 1], steps[i - 1]);
      RunKeepsInv(states, steps, i - 1);
      NoDropperYet(states, steps, i - 1);
    }
  }

  /** When a realtime write returns, everything written so far is out. */
  lemma RealtimeIsOut(states: seq<State>, steps: seq<Step>, i: nat)
    requires IsRun(states, steps) && i < |steps|
    requires steps[i].Decide? && states[i].writer.WFlush?
    ensures states[i + 1].out == states[i + 1].accepted == Output(states[i + 1].done)
  {
    RunKeepsInv(states, steps, i + 1);
    assert Enabled(states[i], steps[i]);
  }

  /** The step at which a write returns: it is the last one done. */
  lemma ReturnMeans(s: State, st: Step)
    requires Inv(s) && Enabled(s, st) && After(s, st).done != s.done
    ensures var r := After(s, st);
            && |r.done| == |s.done| + 1 && r.done[..|s.done|] == s.done
            && match r.done[|s.done|].flush {
                 case Instant => st.Decide? && s.writer.WFlush?
                 case Scheduled => r.token
                 case NoFlush => true
               }
  {
    hide BytesOk;
  }

  lemma DoneGrows(s: State, st: Step)
    requires Inv(s) && Enabled(s, st)
    ensures s.done <= After(s, st).done && s.out <= After(s, st).out
  {
    hide BytesOk;
  }

  /** Up to an instant write that has returned, everything is out, then and ever after. */
  lemma {:induction false} InstantIsOut(states: seq<State>, steps: seq<Step>, i: nat, n: nat)
    requires IsRun(states, steps) && i < |states| && n < |states[i].done| && states[i].done[n].flush.Instant?
    ensures Output(states[i].done[..n + 1]) <= states[i].out
    decreases i
  {
    hide Output, Inv, After, Enabled;
    assert i > 0;
    var s, st, r := states[i - 1], steps[i - 1], states[i];
    assert Enabled(s, st) && r == After(s, st);
    RunKeepsInv(states, steps, i - 1);
    DoneGrows(s, st);
    if n < |s.done| {
      InstantIsOut(states, steps, i - 1, n);
      assert r.done[..n + 1] == s.done[..n + 1];
    } else {
      ReturnMeans(s, st);
      RealtimeIsOut(states, steps, i - 1);
      assert r.done[..n + 1] == r.done;
    }
  }

  /** Once the writes of a realtime frame have returned, that frame and everything before it is out, then and ever
      after; once those of any other frame have, a flush is queued. */
  lemma FrameGoesOut(states: seq<State>, steps: seq<Step>, i: nat, before: seq<Write>, f: Frame)
    requires IsRun(states, steps) && i < |states| && f.InBounds()
    ensures f.realtime && before + WritesOf(f) <= states[i].done ==>
              Output(before) + EncodeOut(f) <= states[i].out
    ensures !f.realtime && i > 0 && states[i].done == before + WritesOf(f) && states[i - 1].done != states[i].done ==>
              states[i].token
  {
    hide WritesOf, Output, EncodeOut, After, Enabled, Inv;
    var ws := before + WritesOf(f);
    if f.realtime && ws <= states[i].done {
      InstantIsOut(states, steps, i, |ws| - 1);
      assert states[i].done[..|ws|] == ws;
      OutputConcat(before, WritesOf(f));
      WritesSpellFrame(f);
    }
    if !f.realtime && i > 0 && states[i].done == ws && states[i - 1].done != ws {
      RunKeepsInv(states, steps, i - 1);
      assert Enabled(states[i - 1], steps[i - 1]);
      ReturnMeans(states[i - 1], steps[i - 1]);
    }
  }

  ghost function FlusherRank(s: State): nat {
    (match s.flusher case FRecv => 4 case FSleep => 3 case FWant => 2 case FFlush => 1 case FAborted => 5) + |s.buf|
  }

  /** Between frames the flusher is never stuck while covered bytes are waiting: it can always take a step, and every
      step brings it nearer to an empty buffer. */
  lemma FlusherAdvances(s: State) returns (st: Step)
    requires Inv(s) && AtBoundary(s) && Covered(s) && s.buf != []
    ensures st in {Receive, Wake, FLock, Spill(|s.buf|)} && Enabled(s, st)
    ensures FlusherRank(After(s, st)) < FlusherRank(s)
    ensures AtBoundary(After(s, st)) && Covered(After(s, st))
  {
    st := if s.flusher.FRecv? then Receive
          else if s.flusher.FSleep? then Wake
          else if s.flusher.FWant? then FLock
          else Spill(|s.buf|);
  }

  ghost function RunOf(s: State, steps: seq<Step>): Option<State>
    decreases |steps|
  {
    if steps == [] then Some(s)
    else if !Enabled(s, steps[0]) then None
    else RunOf(After(s, steps[0]), steps[1..])
  }

  /** A run in which the flusher forgets a byte: the token is used up, the byte stays and nothing is pending. */
  lemma TimeoutForgets()
    ensures var w := Write([7], Scheduled);
            var r := RunOf(START, [Call(w), WLock, Copy(1), Decide, Queue, Receive, Wake, FlusherTimeout]);
            r.Some? && AtBoundary(r.value) && r.value.buf == [7] && !Covered(r.value)
  {
    var w := Write([7], Scheduled);
    var s4 := State([], [7], Writer, false, WCopy(w, 1), FRecv, DWait, [7], []);
    var a := RunOf(START, [Call(w), WLock, Copy(1)]);
    assert a == Some(s4) by { TimeoutStart(w); }
    RunOfConcat(START, [Call(w), WLock, Copy(1)], [Decide, Queue, Receive, Wake, FlusherTimeout]);
    assert [Call(w), WLock, Copy(1)] + [Decide, Queue, Receive, Wake, FlusherTimeout]
        == [Call(w), WLock, Copy(1), Decide, Queue, Receive, Wake, FlusherTimeout];
    TimeoutEnd(s4, w);
  }

  lemma {:induction false} RunOfConcat(s: State, a: seq<Step>, b: seq<Step>)
    ensures RunOf(s, a + b) == if RunOf(s, a).None? then None else RunOf(RunOf(s, a).value, b)
    decreases |a|
  {
    if a == [] {
      assert a + b == b;
    } else {
      assert (a + b)[1..] == a[1..] + b;
      if Enabled(s, a[0]) {
        RunOfConcat(After(s, a[0]), a[1..], b);
      }
    }
  }

  lemma TimeoutStart(w: Write)
    requires w == Write([7], Scheduled)
    ensures RunOf(START, [Call(w), WLock, Copy(1)])
            == Some(State([], [7], Writer, false, WCopy(w, 1), FRecv, DWait, [7], []))
  {
    var s1 := After(START, Call(w));
    var s2 := After(s1, WLock);
    var s3 := After(s2, Copy(1));
    assert s3.buf == [7] && s3.accepted == [7];
    assert [Call(w), WLock, Copy(1)][1..] == [WLock, Copy(1)] && [WLock, Copy(1)][1..] == [Copy(1)]
        && [Copy(1)][1..] == [];
    assert RunOf(s2, [Copy(1)]) == Some(s3);
    assert RunOf(s1, [WLock, Copy(1)]) == Some(s3);
  }

  lemma TimeoutEnd(s: State, w: Write)
    requires w == Write([7], Scheduled) && s == State([], [7], Writer, false, WCopy(w, 1), FRecv, DWait, [7], [])
    ensures RunOf(s, [Decide, Queue, Receive, Wake, FlusherTimeout])
            == Some(State([], [7], Nobody, false, WIdle, FRecv, DWait, [7], [w]))
  {
    var t: seq<Step> := [Decide, Queue, Receive, Wake, FlusherTimeout];
    var s1 := After(s, Decide);
    var s2 := After(s1, Queue);
    var s3 := After(s2, Receive);
    var s4 := After(s3, Wake);
    var s5 := After(s4, FlusherTimeout);
    assert s5.done == [w];
    assert t[1..] == [Queue, Receive, Wake, FlusherTimeout] && t[1..][1..] == [Receive, Wake, FlusherTimeout];
    assert t[1..][1..][1..] == [Wake, FlusherTimeout] && t[1..][1..][1..][1..] == [FlusherTimeout];
    assert [FlusherTimeout][1..] == [];
    assert RunOf(s4, [FlusherTimeout]) == Some(s5);
    assert RunOf(s3, [Wake, FlusherTimeout]) == Some(s5);
    assert RunOf(s2, [Receive, Wake, FlusherTimeout]) == Some(s5);
    assert RunOf(s1, [Queue, Receive, Wake, FlusherTimeout]) == Some(s5);
  }
}
