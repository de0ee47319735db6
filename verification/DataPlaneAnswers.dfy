/** What a data-plane session answers: everything it computed, in order, each once; and that
    it gets to the end when both payloads are there. */
module DataPlaneAnswers {
  import opened Wrappers
  import opened Bytes
  import opened DataPlaneStream
  import opened DataPlaneSession

  // ---------- What is sent ----------

  /** The session awaits a value to send: its accept message, or its response. */
  predicate Computing(pc: Pc) { pc.Accepting? || pc.Resolving? }

  function ComputedBy(x: Session, ev: Event): seq<bytes> {
    if ev.Resume? && ev.result.Some? && Computing(x.pc) then [ev.result.value] else []
  }

  /** The accept message and the response, as far as the run computed them. */
  function Computed(x: Session, events: seq<Event>): seq<bytes>
    decreases |events|
  {
    if events == [] then [] else ComputedBy(x, events[0]) + Computed(Step(x, events[0]), events[1..])
  }

  function Datas(sent: seq<bytes>): (r: seq<Output>)
    ensures |r| == |sent| && forall i :: 0 <= i < |r| ==> r[i] == SentData(sent[i])
  {
    if sent == [] then [] else [SentData(sent[0])] + Datas(sent[1..])
  }

  /** The event is a step that throws, or the end of the stream before the session's own end. */
  predicate Trouble(x: Session, ev: Event) {
    match ev
    case PushEvent(_) => false
    case FailEvent(_) => !x.pc.Ended?
    case Resume(result) => result.None? && !x.pc.AwaitInit? && !x.pc.AwaitFrame? && !x.pc.Ended?
  }

  /** No step throws and the stream is not failed, all along the run. */
  predicate Smooth(x: Session, events: seq<Event>)
    decreases |events|
  {
    events == [] || (!Trouble(x, events[0]) && Smooth(Step(x, events[0]), events[1..]))
  }

  /** What follows the data: nothing until the end, then the close, unless the stream was failed
      before, and the final hook. A smooth run ends with "data-plane complete", and no other. */
  predicate EndsWith(x: Session, tail: seq<Output>, smooth: bool) {
    if !x.pc.Ended? then tail == []
    else if smooth then tail == [SentClose("data-plane complete"), Done]
    else tail == [Done] || tail == [SentClose("data-plane closed"), Done]
  }

  /** How many values have been sent where the session is. */
  predicate CountAt(x: Session, n: nat, smooth: bool) {
    match x.pc
    case ResolvingDeps => n == 0
    case AwaitInit(_) => n == 0
    case Accepting(_) => n == 0
    case SendingAccept(_) => n == 1
    case AwaitFrame(_) => n == 1
    case Resolving(_) => n == 1
    case SendingResponse(_) => n == 2
    case Ended => n <= 2 && (smooth ==> n == 2)
  }

  predicate NoAborts(slots: seq<Slot>) { forall i :: 0 <= i < |slots| ==> !slots[i].Aborted? }

  /** `sent` is what was sent so far. Until the end, a smooth run is one without a failure. */
  ghost predicate Answered(x: Session, sent: seq<bytes>, smooth: bool) {
    && Inv(x)
    && CountAt(x, |sent|, smooth)
    && (exists tail :: EndsWith(x, tail, smooth) && x.s.out == Datas(sent) + tail)
    && (!x.pc.Ended? ==> (smooth <==> x.s.failure.None?) && (smooth ==> NoAborts(x.s.slots)))
  }

  lemma DatasOfMore(sent: seq<bytes>, data: bytes)
    ensures Datas(sent + [data]) == Datas(sent) + [SentData(data)]
  {
  }

  lemma FreshAnswered()
    ensures Answered(NEW_SESSION, [], true)
  {
    assert EndsWith(NEW_SESSION, [], true) && NEW_SESSION.s.out == Datas([]) + [];
  }

  lemma NotEndedOut(x: Session, sent: seq<bytes>, smooth: bool)
    requires Answered(x, sent, smooth) && !x.pc.Ended?
    ensures x.s.out == Datas(sent)
  {
    var tail :| EndsWith(x, tail, smooth) && x.s.out == Datas(sent) + tail;
  }

  lemma PushAnswers(x: Session, data: bytes, sent: seq<bytes>, smooth: bool)
    requires Answered(x, sent, smooth)
    ensures Answered(Step(x, PushEvent(data)), sent, smooth)
  {
    PushKeeps(x, data);
    var y := Step(x, PushEvent(data));
    var tail :| EndsWith(x, tail, smooth) && x.s.out == Datas(sent) + tail;
    assert EndsWith(y, tail, smooth) && y.s.out == Datas(sent) + tail;
  }

  lemma FailAnswers(x: Session, reason: string, sent: seq<bytes>, smooth: bool)
    requires Answered(x, sent, smooth)
    ensures Answered(Step(x, FailEvent(reason)), sent, smooth && x.pc.Ended?)
  {
    FailKeeps(x, reason);
    var y := Step(x, FailEvent(reason));
    var tail :| EndsWith(x, tail, smooth) && x.s.out == Datas(sent) + tail;
    assert EndsWith(y, tail, smooth && x.pc.Ended?) && y.s.out == Datas(sent) + tail;
  }

  /** A throw, or a receive that was aborted. */
  lemma FinishAnswers(x: Session, sent: seq<bytes>, smooth: bool)
    requires Answered(x, sent, smooth) && !x.pc.Ended?
    ensures Answered(Finish(x.s), sent, false)
  {
    NotEndedOut(x, sent, smooth);
    FinishKeeps(x.s);
    var y := Finish(x.s);
    var tail := if x.s.closed then [Done] else [SentClose("data-plane closed"), Done];
    assert EndsWith(y, tail, false) && y.s.out == Datas(sent) + tail;
  }

  lemma AwaitAnswers(x: Session, sent: seq<bytes>, smooth: bool)
    requires Answered(x, sent, smooth) && (x.pc.ResolvingDeps? || x.pc.SendingAccept?)
    ensures Answered(Await(x.s, x.pc.ResolvingDeps?), sent, smooth)
  {
    NotEndedOut(x, sent, smooth);
    AwaitKeeps(x.s, x.pc.ResolvingDeps?);
    RecvAddsOne(x.s);
    RecvMoves(x.s);
    GoesOn(Await(x.s, x.pc.ResolvingDeps?), sent, smooth);
  }

  lemma SendAnswers(x: Session, data: bytes, sent: seq<bytes>, smooth: bool)
    requires Answered(x, sent, smooth) && Computing(x.pc)
    ensures Answered(Continue(x, Some(data)), sent + [data], smooth)
  {
    NotEndedOut(x, sent, smooth);
    ComputeKeeps(x, Some(data));
    DatasOfMore(sent, data);
    GoesOn(Continue(x, Some(data)), sent + [data], smooth);
  }

  lemma CompleteAnswers(x: Session, data: bytes, sent: seq<bytes>, smooth: bool)
    requires Answered(x, sent, smooth) && x.pc.SendingResponse?
    ensures Answered(Continue(x, Some(data)), sent, smooth)
  {
    NotEndedOut(x, sent, smooth);
    ContinueKeeps(x, Some(data));
    var y := Continue(x, Some(data));
    var tail := if x.s.closed then [Done] else [SentClose("data-plane complete"), Done];
    assert EndsWith(y, tail, smooth) && y.s.out == Datas(sent) + tail;
  }

  lemma WaitAnswers(x: Session, result: Option<bytes>, sent: seq<bytes>, smooth: bool)
    requires Answered(x, sent, smooth) && (x.pc.AwaitInit? || x.pc.AwaitFrame?)
    ensures Answered(Continue(x, result), sent, smooth)
  {
    NotEndedOut(x, sent, smooth);
    var id := if x.pc.AwaitInit? then x.pc.id else x.pc.frameId;
    if x.s.slots[id].Aborted? {
      AbortAnswers(x, result, id, sent, smooth);
    } else {
      WaitKeeps(x, result);
      WaitGoesOn(x, result);
      GoesOn(Continue(x, result), sent, smooth);
    }
  }

  lemma AbortAnswers(x: Session, result: Option<bytes>, id: nat, sent: seq<bytes>, smooth: bool)
    requires Answered(x, sent, smooth) && id < |x.s.slots| && x.s.slots[id].Aborted?
    requires x.pc == AwaitInit(id) || x.pc == AwaitFrame(id)
    ensures Answered(Continue(x, result), sent, smooth)
  {
    assert !smooth;
    FinishAnswers(x, sent, smooth);
  }

  /** The receive was settled, or still waits: the stream is as it was. */
  lemma WaitGoesOn(x: Session, result: Option<bytes>)
    requires Inv(x) && (x.pc.AwaitInit? || x.pc.AwaitFrame?)
    requires !x.s.slots[if x.pc.AwaitInit? then x.pc.id else x.pc.frameId].Aborted?
    ensures var y := Continue(x, result);
            && y.s == x.s && !y.pc.Ended?
            && (x.pc.AwaitInit? ==> y.pc.AwaitInit? || y.pc.Accepting?)
            && (x.pc.AwaitFrame? ==> y.pc.AwaitFrame? || y.pc.Resolving?)
  {
  }

  lemma GoesOn(y: Session, sent: seq<bytes>, smooth: bool)
    requires Inv(y) && !y.pc.Ended? && CountAt(y, |sent|, smooth) && y.s.out == Datas(sent)
    requires (smooth <==> y.s.failure.None?) && (smooth ==> NoAborts(y.s.slots))
    ensures Answered(y, sent, smooth)
  {
    assert EndsWith(y, [], smooth) && y.s.out == Datas(sent) + [];
  }

  lemma ContinueAnswers(x: Session, result: Option<bytes>, sent: seq<bytes>, smooth: bool)
    requires Answered(x, sent, smooth)
    ensures Answered(Continue(x, result), sent + ComputedBy(x, Resume(result)), smooth && !Trouble(x, Resume(result)))
  {
    assert sent + [] == sent;
    if x.pc.Ended? {
    } else if x.pc.AwaitInit? || x.pc.AwaitFrame? {
      WaitAnswers(x, result, sent, smooth);
    } else if result.None? {
      FinishAnswers(x, sent, smooth);
    } else if Computing(x.pc) {
      SendAnswers(x, result.value, sent, smooth);
    } else if x.pc.SendingResponse? {
      CompleteAnswers(x, result.value, sent, smooth);
    } else {
      AwaitAnswers(x, sent, smooth);
    }
  }

  lemma StepAnswers(x: Session, ev: Event, sent: seq<bytes>, smooth: bool)
    requires Answered(x, sent, smooth)
    ensures Answered(Step(x, ev), sent + ComputedBy(x, ev), smooth && !Trouble(x, ev))
  {
    assert sent + [] == sent;
    match ev
    case PushEvent(data) => PushAnswers(x, data, sent, smooth);
    case FailEvent(reason) => FailAnswers(x, reason, sent, smooth);
    case Resume(result) => ContinueAnswers(x, result, sent, smooth);
  }

  lemma SentAssoc(a: seq<bytes>, b: seq<bytes>, c: seq<bytes>)
    ensures (a + b) + c == a + (b + c)
  {
  }

  lemma {:induction false} RunAnswers(x: Session, events: seq<Event>, sent: seq<bytes>, smooth: bool)
    requires Answered(x, sent, smooth)
    ensures Answered(Run(x, events), sent + Computed(x, events), smooth && Smooth(x, events))
    decreases |events|
  {
    if events == [] {
      assert sent + [] == sent;
    } else {
      StepAnswers(x, events[0], sent, smooth);
      RunAnswers(Step(x, events[0]), events[1..], sent + ComputedBy(x, events[0]), smooth && !Trouble(x, events[0]));
      SentAssoc(sent, ComputedBy(x, events[0]), Computed(Step(x, events[0]), events[1..]));
    }
  }

  /** Main result, over every run: the data sent are the accept message and the response, as far
      as they were computed, in order and each once. A session that ended in a smooth run sent
      both, then the close "data-plane complete", then called the final hook. */
  lemma SendsWhatItComputes(events: seq<Event>)
    ensures var x := Run(NEW_SESSION, events);
            var c := Computed(NEW_SESSION, events);
            && |c| <= 2
            && (exists tail :: EndsWith(x, tail, Smooth(NEW_SESSION, events)) && x.s.out == Datas(c) + tail)
            && (Smooth(NEW_SESSION, events) && x.pc.Ended? ==>
                  |c| == 2
                  && x.s.out == [SentData(c[0]), SentData(c[1]), SentClose("data-plane complete"), Done])
  {
    FreshAnswered();
    RunAnswers(NEW_SESSION, events, [], true);
    var c := Computed(NEW_SESSION, events);
    assert [] + c == c;
    SmoothEnd(Run(NEW_SESSION, events), c, Smooth(NEW_SESSION, events));
  }

  lemma SmoothEnd(x: Session, c: seq<bytes>, smooth: bool)
    requires Answered(x, c, smooth)
    ensures |c| <= 2
    ensures smooth && x.pc.Ended? ==>
              |c| == 2 && x.s.out == [SentData(c[0]), SentData(c[1]), SentClose("data-plane complete"), Done]
  {
    if smooth && x.pc.Ended? {
      var tail :| EndsWith(x, tail, smooth) && x.s.out == Datas(c) + tail;
    }
  }

  // ---------- It gets to the end ----------

  function Stage(pc: Pc): nat {
    match pc
    case ResolvingDeps => 0
    case AwaitInit(_) => 1
    case Accepting(_) => 2
    case SendingAccept(_) => 3
    case AwaitFrame(_) => 4
    case Resolving(_) => 5
    case SendingResponse(_) => 6
    case Ended => 7
  }

  function Good(data: bytes, n: nat): seq<Event> {
    if n == 0 then [] else [Resume(Some(data))] + Good(data, n - 1)
  }

  /** With both payloads there, no receive waits. */
  lemma NothingWaits(x: Session)
    requires Inv(x) && |Pushed(x.s)| >= 2
    ensures x.pc.AwaitInit? || x.pc.AwaitFrame? ==> !x.s.slots[|x.s.slots| - 1].Waiting?
  {
    if (x.pc.AwaitInit? || x.pc.AwaitFrame?) && x.s.slots[|x.s.slots| - 1].Waiting? {
      var n := |x.s.slots| - 1;
      assert x.s.slots == x.s.slots[..n] + [Waiting];
      DeliveredAppend(x.s.slots[..n], Waiting);
      DeliveredCount(x.s.slots[..n]);
    }
  }

  lemma StageGrows(x: Session, data: bytes)
    requires Inv(x) && |Pushed(x.s)| >= 2 && !x.pc.Ended?
    ensures Stage(Continue(x, Some(data)).pc) > Stage(x.pc)
  {
    NothingWaits(x);
  }

  lemma {:induction false} EndsAfter(x: Session, data: bytes, n: nat)
    requires Inv(x) && |Pushed(x.s)| >= 2 && Stage(x.pc) + n >= 7
    ensures Run(x, Good(data, n)).pc.Ended?
    decreases n
  {
    if n > 0 {
      var y := Continue(x, Some(data));
      ContinueKeeps(x, Some(data));
      assert Good(data, n)[1..] == Good(data, n - 1) && Step(x, Good(data, n)[0]) == y;
      if !x.pc.Ended? { StageGrows(x, data); }
      EndsAfter(y, data, n - 1);
    }
  }

  lemma {:induction false} GoodIsSmooth(x: Session, data: bytes, n: nat)
    ensures Smooth(x, Good(data, n))
    decreases n
  {
    if n > 0 {
      assert Good(data, n)[1..] == Good(data, n - 1);
      GoodIsSmooth(Step(x, Good(data, n)[0]), data, n - 1);
    }
  }

  /** Main result: however far a session has got, once the peer has sent two payloads it needs at
      most seven more steps that succeed to end. */
  lemma GetsToTheEnd(events: seq<Event>, data: bytes)
    requires |PushedIn(events)| >= 2
    ensures Run(Run(NEW_SESSION, events), Good(data, 7)).pc.Ended?
    ensures Smooth(Run(NEW_SESSION, events), Good(data, 7))
  {
    StartInv();
    DataPlaneSession.RunKeeps(NEW_SESSION, events);
    var x := Run(NEW_SESSION, events);
    assert Pushed(NEW_SESSION.s) == [];
    EndsAfter(x, data, 7);
    GoodIsSmooth(x, data, 7);
  }
}
