/** The session that a data-plane stream runs: handshake, one request, one response, close;
    interleaved in any way with what the peer and the tunnel do. */
module DataPlaneSession {
  import opened Wrappers
  import opened Bytes
  import opened DataPlaneStream

  /** Where the session is; a number is the receive it waits for. */
  datatype Pc =
    | ResolvingDeps
    | AwaitInit(id: nat)
    | Accepting(init: bytes)
    | SendingAccept(accept: bytes)
    | AwaitFrame(frameId: nat)
    | Resolving(frame: bytes)
    | SendingResponse(response: bytes)
    | Ended

  datatype Session = Session(s: Stream, pc: Pc)

  const NEW_SESSION := Session(NEW_STREAM, ResolvingDeps)

  /** The outside: a payload arrives, or the stream is failed. The inside: what the session
      awaits is there, and the step that follows succeeds (with some bytes) or throws. */
  datatype Event = PushEvent(data: bytes) | FailEvent(reason: string) | Resume(result: Option<bytes>)

  /** The finally block. */
  function Finish(s: Stream): Session {
    var closing := CloseOnce(s, "data-plane closed");
    Session(closing.(out := closing.out + [Done]), Ended)
  }

  /** Ask for the next message. */
  function Await(s: Stream, first: bool): Session {
    Session(Recv(s), if first then AwaitInit(|s.slots|) else AwaitFrame(|s.slots|))
  }

  function SlotAt(s: Stream, id: nat): Slot { if id < |s.slots| then s.slots[id] else Waiting }

  function Send(s: Stream, data: bytes): Stream { s.(out := s.out + [SentData(data)]) }

  /** Continue after an await; a receive that still waits does not continue. */
  function Continue(x: Session, result: Option<bytes>): Session {
    match x.pc
    case ResolvingDeps => if result.None? then Finish(x.s) else Await(x.s, true)
    case AwaitInit(id) =>
      (match SlotAt(x.s, id)
       case Waiting => x
       case Aborted(_) => Finish(x.s)
       case Got(d) => x.(pc := Accepting(d)))
    case Accepting(_) =>
      (match result
       case None => Finish(x.s)
       case Some(accept) => Session(Send(x.s, accept), SendingAccept(accept)))
    case SendingAccept(_) => if result.None? then Finish(x.s) else Await(x.s, false)
    case AwaitFrame(id) =>
      (match SlotAt(x.s, id)
       case Waiting => x
       case Aborted(_) => Finish(x.s)
       case Got(d) => x.(pc := Resolving(d)))
    case Resolving(_) =>
      (match result
       case None => Finish(x.s)
       case Some(response) => Session(Send(x.s, response), SendingResponse(response)))
    case SendingResponse(_) =>
      if result.None? then Finish(x.s) else Finish(CloseOnce(x.s, "data-plane complete"))
    case Ended => x
  }

  function Step(x: Session, ev: Event): Session {
    match ev
    case PushEvent(data) => x.(s := Push(x.s, data))
    case FailEvent(reason) => x.(s := Fail(x.s, reason))
    case Resume(result) => Continue(x, result)
  }

  function Run(x: Session, events: seq<Event>): Session
    decreases |events|
  {
    if events == [] then x else Run(Step(x, events[0]), events[1..])
  }

  function PushedIn(events: seq<Event>): seq<bytes> {
    if events == [] then []
    else (match events[0] case PushEvent(d) => [d] case _ => []) + PushedIn(events[1..])
  }

  // ---------- The invariant ----------

  function Dones(out: seq<Output>): nat {
    if out == [] then 0 else Dones(out[..|out| - 1]) + if out[|out| - 1].Done? then 1 else 0
  }

  /** How many receives the session has made, and what they have brought it. */
  ghost predicate InStep(x: Session) {
    match x.pc
    case ResolvingDeps => x.s.slots == []
    case AwaitInit(id) => id == 0 && |x.s.slots| == 1
    case Accepting(d) => x.s.slots == [Got(d)]
    case SendingAccept(_) => |x.s.slots| == 1 && x.s.slots[0].Got?
    case AwaitFrame(id) => id == 1 && |x.s.slots| == 2 && x.s.slots[0].Got?
    case Resolving(d) => |x.s.slots| == 2 && x.s.slots[0].Got? && x.s.slots[1] == Got(d)
    case SendingResponse(_) => |x.s.slots| == 2 && x.s.slots[0].Got? && x.s.slots[1].Got?
    case Ended => |x.s.slots| <= 2
  }

  ghost predicate Inv(x: Session) {
    && Valid(x.s) && InStep(x)
    && Dones(x.s.out) == (if x.pc.Ended? then 1 else 0)
    && (x.pc.Ended? ==> x.s.closed && x.s.out != [] && x.s.out[|x.s.out| - 1].Done?)
    && (!x.pc.Ended? && x.s.failure.None? ==> !x.s.closed)
  }

  lemma {:induction false} OutAppend(out: seq<Output>, o: Output)
    ensures Closes(out + [o]) == Closes(out) + if o.SentClose? then 1 else 0
    ensures Dones(out + [o]) == Dones(out) + if o.Done? then 1 else 0
  {
    assert (out + [o])[..|out|] == out;
  }

  lemma SendKeeps(s: Stream, data: bytes)
    requires Valid(s)
    ensures Valid(Send(s, data))
    ensures Closes(Send(s, data).out) == Closes(s.out) && Dones(Send(s, data).out) == Dones(s.out)
  {
    OutAppend(s.out, SentData(data));
  }

  lemma CloseOutputs(s: Stream, reason: string)
    requires Valid(s)
    ensures var c := CloseOnce(s, reason);
            Valid(c) && Dones(c.out) == Dones(s.out) && c.slots == s.slots && c.inbox == s.inbox
  {
    CloseIsOnce(s, reason);
    if !s.closed { OutAppend(s.out, SentClose(reason)); }
  }

  lemma FinishKeeps(s: Stream)
    requires Valid(s) && Dones(s.out) == 0 && |s.slots| <= 2
    ensures Inv(Finish(s)) && Finish(s).s.slots == s.slots && Finish(s).s.inbox == s.inbox
  {
    var c := CloseOnce(s, "data-plane closed");
    CloseOutputs(s, "data-plane closed");
    assert c.closed;
    DoneEnds(c);
  }

  /** The final hook, on a closed stream. */
  lemma DoneEnds(c: Stream)
    requires Valid(c) && c.closed && Dones(c.out) == 0 && |c.slots| <= 2
    ensures Inv(Session(c.(out := c.out + [Done]), Ended))
  {
    var s := c.(out := c.out + [Done]);
    OutAppend(c.out, Done);
    assert Closes(s.out) == Closes(c.out) && Dones(s.out) == 1;
    assert s.slots == c.slots && s.waiters == c.waiters && s.inbox == c.inbox && s.failure == c.failure;
    assert WaitersAreLast(s);
    assert Valid(s);
  }

  lemma AwaitKeeps(s: Stream, first: bool)
    requires Valid(s) && Dones(s.out) == 0 && (s.failure.None? ==> !s.closed)
    requires if first then s.slots == [] else |s.slots| == 1 && s.slots[0].Got?
    ensures Inv(Await(s, first)) && Pushed(Await(s, first).s) == Pushed(s)
  {
    RecvIsValid(s);
    RecvMoves(s);
    RecvAddsOne(s);
    var a := Recv(s);
    assert |a.slots| == |s.slots| + 1;
    if !first { assert a.slots[..1][0] == s.slots[0]; }
  }

  lemma RecvAddsOne(s: Stream)
    ensures var a := Recv(s);
            && |a.slots| == |s.slots| + 1 && a.slots[..|s.slots|] == s.slots
            && a.out == s.out && a.closed == s.closed && a.failure == s.failure
  {
  }

  lemma WaitKeeps(x: Session, result: Option<bytes>)
    requires Inv(x) && (x.pc.AwaitInit? || x.pc.AwaitFrame?)
    ensures Inv(Continue(x, result)) && Pushed(Continue(x, result).s) == Pushed(x.s)
  {
    var id := if x.pc.AwaitInit? then x.pc.id else x.pc.frameId;
    if x.s.slots[id].Aborted? { FinishKeeps(x.s); }
  }

  lemma ComputeKeeps(x: Session, result: Option<bytes>)
    requires Inv(x) && (x.pc.Accepting? || x.pc.Resolving?)
    ensures Inv(Continue(x, result)) && Pushed(Continue(x, result).s) == Pushed(x.s)
  {
    if result.None? { FinishKeeps(x.s); } else { SendKeeps(x.s, result.value); }
  }

  lemma AskKeeps(x: Session, result: Option<bytes>)
    requires Inv(x) && (x.pc.ResolvingDeps? || x.pc.SendingAccept?)
    ensures Inv(Continue(x, result)) && Pushed(Continue(x, result).s) == Pushed(x.s)
  {
    if result.None? { FinishKeeps(x.s); } else { AwaitKeeps(x.s, x.pc.ResolvingDeps?); }
  }

  lemma ContinueKeeps(x: Session, result: Option<bytes>)
    requires Inv(x)
    ensures Inv(Continue(x, result)) && Pushed(Continue(x, result).s) == Pushed(x.s)
  {
    match x.pc
    case ResolvingDeps => AskKeeps(x, result);
    case AwaitInit(_) => WaitKeeps(x, result);
    case Accepting(_) => ComputeKeeps(x, result);
    case SendingAccept(_) => AskKeeps(x, result);
    case AwaitFrame(_) => WaitKeeps(x, result);
    case Resolving(_) => ComputeKeeps(x, result);
    case SendingResponse(_) =>
      CloseOutputs(x.s, "data-plane complete");
      FinishKeeps(if result.None? then x.s else CloseOnce(x.s, "data-plane complete"));
    case Ended =>
  }

  lemma PushKeeps(x: Session, data: bytes)
    requires Inv(x)
    ensures Inv(Step(x, PushEvent(data)))
  {
    PushAdds(x.s, data);
  }

  lemma FailKeeps(x: Session, reason: string)
    requires Inv(x)
    ensures Inv(Step(x, FailEvent(reason)))
  {
    FailSettlesAll(x.s, reason);
  }

  lemma StepKeeps(x: Session, ev: Event)
    requires Inv(x)
    ensures Inv(Step(x, ev))
    ensures Pushed(Step(x, ev).s) == Pushed(x.s) + PushedIn([ev])
  {
    match ev
    case PushEvent(data) =>
      PushKeeps(x, data);
      PushAdds(x.s, data);
    case FailEvent(reason) =>
      FailKeeps(x, reason);
      FailSettlesAll(x.s, reason);
    case Resume(result) => ContinueKeeps(x, result);
  }

  /** Main result, order: over any run, what was pushed is what was delivered, then the inbox. */
  lemma {:induction false} RunKeeps(x: Session, events: seq<Event>)
    requires Inv(x)
    ensures Inv(Run(x, events))
    ensures Pushed(Run(x, events).s) == Pushed(x.s) + PushedIn(events)
    decreases |events|
  {
    if events != [] {
      StepKeeps(x, events[0]);
      RunKeeps(Step(x, events[0]), events[1..]);
      PushedFirst(events);
    }
  }

  lemma PushedFirst(events: seq<Event>)
    requires events != []
    ensures PushedIn([events[0]]) + PushedIn(events[1..]) == PushedIn(events)
  {
    assert [events[0]][1..] == [] && PushedIn([]) == [];
  }

  lemma StartInv()
    ensures Inv(NEW_SESSION)
  {
  }

  // ---------- Once ----------

  /** Main result, close: over any run, STREAM_CLOSE and the final hook happen at most once
      each, no receive is left waiting after a failure, and a session that has ended and was
      never failed has sent exactly one STREAM_CLOSE. */
  lemma OnceEach(events: seq<Event>)
    ensures var x := Run(NEW_SESSION, events);
            && Closes(x.s.out) <= 1 && Dones(x.s.out) == (if x.pc.Ended? then 1 else 0)
            && (x.s.inbox == [] || x.s.waiters == [])
            && (x.s.failure.Some? ==> forall i :: 0 <= i < |x.s.slots| ==> !x.s.slots[i].Waiting?)
            && (x.pc.Ended? && x.s.failure.None? ==> Closes(x.s.out) == 1)
            && (!x.pc.Ended? && x.s.failure.None? ==> Closes(x.s.out) == 0)
  {
    StartInv();
    RunKeeps(NEW_SESSION, events);
  }

  lemma StepAfterFailure(x: Session, ev: Event)
    requires Inv(x) && x.s.failure.Some?
    ensures Step(x, ev).s.failure.Some? && Closes(Step(x, ev).s.out) == Closes(x.s.out)
  {
    if ev.Resume? { AfterFailure(x, ev.result); }
  }

  lemma AfterFailure(x: Session, result: Option<bytes>)
    requires Inv(x) && x.s.failure.Some?
    ensures var y := Continue(x, result); y.s.failure.Some? && Closes(y.s.out) == Closes(x.s.out)
  {
    OutAppend(x.s.out, Done);
    if result.Some? { OutAppend(x.s.out, SentData(result.value)); }
  }

  /** After a failure no STREAM_CLOSE is sent, whatever happens. */
  lemma {:induction false} NoCloseAfterFailure(x: Session, events: seq<Event>)
    requires Inv(x) && x.s.failure.Some?
    ensures Closes(Run(x, events).s.out) == Closes(x.s.out)
    decreases |events|
  {
    if events != [] {
      StepKeeps(x, events[0]);
      StepAfterFailure(x, events[0]);
      NoCloseAfterFailure(Step(x, events[0]), events[1..]);
    }
  }

  /** The session reads the first two payloads, as init and as request, and no others. */
  lemma ReadsFirstTwo(events: seq<Event>)
    ensures var x := Run(NEW_SESSION, events);
            && Delivered(x.s.slots) + x.s.inbox == PushedIn(events) && |Delivered(x.s.slots)| <= 2
            && (x.pc.Accepting? ==> PushedIn(events) != [] && PushedIn(events)[0] == x.pc.init)
            && (x.pc.Resolving? ==> |PushedIn(events)| > 1 && PushedIn(events)[1] == x.pc.frame)
  {
    StartInv();
    RunKeeps(NEW_SESSION, events);
    var x := Run(NEW_SESSION, events);
    assert Pushed(NEW_SESSION.s) == [];
    DeliveredCount(x.s.slots);
    if x.pc.Accepting? || x.pc.Resolving? { DeliveredGot(x.s.slots); }
  }

  lemma {:induction false} DeliveredCount(slots: seq<Slot>)
    ensures |Delivered(slots)| <= |slots|
  {
    if slots != [] { DeliveredCount(slots[..|slots| - 1]); }
  }

  lemma {:induction false} DeliveredGot(slots: seq<Slot>)
    requires forall i :: 0 <= i < |slots| ==> slots[i].Got?
    ensures |Delivered(slots)| == |slots|
    ensures forall i :: 0 <= i < |slots| ==> Delivered(slots)[i] == slots[i].data
  {
    if slots != [] { DeliveredGot(slots[..|slots| - 1]); }
  }
}
