/** The multiplexer refines independent pipes: what an owner decodes for one of its stream
    numbers, and what a linked server stream receives, depend only on the events of that
    pair, in order, whatever happens on every other stream. */
module ControlPipes {
  import opened Wrappers
  import opened Bytes
  import opened JsMaps
  import opened ControlClient
  import opened ControlInvariant

  // ---------- What the two ends see ----------

  /** The frames with stream number `o` that reach the owner stream `w`. */
  function FramesTo(effects: seq<Effect>, w: StreamId, o: nat): seq<Frame> {
    if effects == [] then []
    else FrameOf(effects[0], w, o) + FramesTo(effects[1..], w, o)
  }

  function FrameOf(e: Effect, w: StreamId, o: nat): seq<Frame> {
    if e.SendData? && e.s == w && DecodeFrame(e.data).Some? && DecodeFrame(e.data).value.id == o
    then [DecodeFrame(e.data).value] else []
  }

  /** All frames the owner of stream `w` decodes for `o`, for as long as it is connected. */
  function OwnerView(wd: World, w: StreamId, o: nat, events: seq<Event>): seq<Frame>
    decreases |events|
  {
    if events == [] || !OwnsStream(wd, w) then []
    else FramesTo(Step(wd.st, events[0]).1, w, o) + OwnerView(Next(wd, events[0]), w, o, events[1..])
  }

  // ---------- The pipe: a specification without tables ----------

  predicate Ends(data: bytes, o: nat) {
    var f := DecodeFrame(data);
    f.Some? && f.value.id == o && (f.value.kind == STREAM_END || f.value.kind == STREAM_RESET)
  }

  /** What the pipe from server stream `s` to number `o` of owner stream `w` still delivers. */
  function PipeOut(s: StreamId, w: StreamId, o: nat, events: seq<Event>): seq<Frame> {
    if events == [] then []
    else match events[0]
      case Data(x, data) =>
        if x == s then [Frame(STREAM_DATA, o, data)] + PipeOut(s, w, o, events[1..])
        else if x == w && s != "" && Ends(data, o) then []
        else PipeOut(s, w, o, events[1..])
      case Close(x) =>
        if x == s then [Frame(STREAM_RESET, o, [])]
        else if x == w then []
        else PipeOut(s, w, o, events[1..])
      case SocketDropped => []
      case TunnelClosed => []
      case _ => PipeOut(s, w, o, events[1..])
  }

  /** The whole life of number `o` when `next` is the number the owner hands out next:
      silence, one STREAM_OPEN with the initial data, then the pipe of that stream. */
  function LifeOf(next: nat, tunnel: TunnelId, w: StreamId, o: nat, events: seq<Event>): seq<Frame>
    decreases |events|
  {
    if events == [] then []
    else match events[0]
      case OpenLinked(s, t, initial) =>
        if t != tunnel then LifeOf(next, tunnel, w, o, events[1..])
        else if next == o then [Frame(STREAM_OPEN, o, initial)] + PipeOut(s, w, o, events[1..])
        else LifeOf(next + 1, tunnel, w, o, events[1..])
      case Close(x) => if x == w then [] else LifeOf(next, tunnel, w, o, events[1..])
      case SocketDropped => []
      case TunnelClosed => []
      case _ => LifeOf(next, tunnel, w, o, events[1..])
  }

  // ---------- One step ----------

  predicate IsLink(st: State, s: StreamId, tunnel: TunnelId, o: nat) {
    s in st.links && st.links[s] == Link(tunnel, o)
  }

  function StepFrames(st: State, tunnel: TunnelId, o: nat, ev: Event): seq<Frame>
    requires tunnel in st.owners.at
  {
    if !st.connected || o > U32_MAX then []
    else match ev
      case OpenLinked(s, t, initial) =>
        if t == tunnel && st.owners.at[t].nextStreamId == o then [Frame(STREAM_OPEN, o, initial)] else []
      case Data(s, data) =>
        if IsLink(st, s, tunnel, o) then [Frame(STREAM_DATA, o, data)] else []
      case Close(s) =>
        if IsLink(st, s, tunnel, o) then [Frame(STREAM_RESET, o, [])] else []
      case _ => []
  }

  /** The part of the invariant that routing needs. */
  ghost predicate Shape(wd: World) {
    OwnersValid(wd.st) && Tables(wd.st) && KindsAgree(wd)
  }

  lemma NoFrames(effects: seq<Effect>, w: StreamId, o: nat)
    requires forall e :: e in effects ==> FrameOf(e, w, o) == []
    ensures FramesTo(effects, w, o) == []
  {
  }

  lemma SentFrame(st: State, x: StreamId, kind: byte, id: nat, payload: bytes, w: StreamId, o: nat)
    ensures FramesTo(SendFrame(st, x, kind, id, payload), w, o) ==
            if st.connected && id <= U32_MAX && x == w && id == o then [Frame(kind, o, payload)] else []
  {
    if id <= U32_MAX {
      FrameRoundTrip(kind, id, payload);
      var e := SendData(x, EncodeFrame(kind, id, payload).value);
      assert FramesTo([e], w, o) == FrameOf(e, w, o) + FramesTo([], w, o);
    }
  }

  lemma {:induction false} ClosesAreNoFrames(ids: seq<StreamId>, w: StreamId, o: nat)
    ensures FramesTo(CloseAll(ids), w, o) == []
  {
    if ids != [] { ClosesAreNoFrames(ids[1..], w, o); }
  }

  lemma LinkFrame(wd: World, s: StreamId, kind: byte, payload: bytes, tunnel: TunnelId, w: StreamId, o: nat)
    requires Tables(wd.st) && KindsAgree(wd) && s in wd.st.links
    requires OwnsStream(wd, w) && wd.env.kind[w] == KOwner(tunnel)
    ensures wd.st.links[s].tunnelId in wd.st.owners.at
    ensures FramesTo(SendFrame(wd.st, wd.st.owners.at[wd.st.links[s].tunnelId].streamId, kind,
                               wd.st.links[s].ownerStreamId, payload), w, o) ==
            if wd.st.connected && o <= U32_MAX && wd.st.links[s] == Link(tunnel, o)
            then [Frame(kind, o, payload)] else []
  {
    LinkedOwnerLives(wd.st, s);
    var Link(t, id) := wd.st.links[s];
    assert OpenedAs(wd.env, wd.st.owners.at[t].streamId, KOwner(t));
    SentFrame(wd.st, wd.st.owners.at[t].streamId, kind, id, payload, w, o);
  }

  lemma FramesOfOwnerData(wd: World, from: TunnelId, w: StreamId, o: nat, data: bytes)
    requires Tables(wd.st) && KindsAgree(wd)
    requires o >= 1 && from in wd.st.owners.at && OwnsStream(wd, w)
    ensures FramesTo(OnOwnerData(wd.st, from, data).1, w, o) == []
  {
    var owner := wd.st.owners.at[from];
    SentFrame(wd.st, owner.streamId, PONG, 0, [], w, o);
    var f := DecodeFrame(data);
    if f.Some? && f.value.id in owner.ownerToServer {
      var s := owner.ownerToServer[f.value.id];
      assert Bijection(owner);
      assert Linked(wd.st, s, from, f.value.id);
      assert OpenedAs(wd.env, s, KLinked);
    }
  }

  lemma FramesOfData(wd: World, tunnel: TunnelId, w: StreamId, o: nat, s: StreamId, data: bytes)
    requires Shape(wd) && o >= 1
    requires OwnsStream(wd, w) && wd.env.kind[w] == KOwner(tunnel)
    ensures FramesTo(OnData(wd.st, s, data).1, w, o) == StepFrames(wd.st, tunnel, o, Data(s, data))
  {
    OwnerFound(wd, s);
    if OwnsStream(wd, s) {
      FramesOfOwnerData(wd, wd.env.kind[s].tunnel, w, o, data);
    } else if s in wd.st.links {
      LinkFrame(wd, s, STREAM_DATA, data, tunnel, w, o);
    }
  }

  lemma FramesOfLinkedClose(wd: World, tunnel: TunnelId, w: StreamId, o: nat, s: StreamId)
    requires Tables(wd.st) && KindsAgree(wd) && s in wd.st.links
    requires OwnsStream(wd, w) && wd.env.kind[w] == KOwner(tunnel)
    ensures FramesTo(OnLinkedClose(wd.st, s).1, w, o) == StepFrames(wd.st, tunnel, o, Close(s))
  {
    LinkFrame(wd, s, STREAM_RESET, [], tunnel, w, o);
  }

  lemma FramesOfClose(wd: World, tunnel: TunnelId, w: StreamId, o: nat, s: StreamId)
    requires Shape(wd) && OwnsStream(wd, w) && wd.env.kind[w] == KOwner(tunnel)
    ensures FramesTo(OnClose(wd.st, s).1, w, o) == StepFrames(wd.st, tunnel, o, Close(s))
  {
    CloseDispatch(wd, s);
    if OwnsStream(wd, s) {
      ClosesAreNoFrames(wd.st.owners.at[wd.env.kind[s].tunnel].serverToOwner.order, w, o);
    } else if s in wd.st.links {
      FramesOfLinkedClose(wd, tunnel, w, o, s);
    } else {
      NoFrames(OnLeafClose(wd.st, s).1, w, o);
    }
  }

  lemma FramesOfOpenLinked(wd: World, tunnel: TunnelId, w: StreamId, o: nat, s: StreamId, t: TunnelId, initial: bytes)
    requires Shape(wd) && OwnsStream(wd, w) && wd.env.kind[w] == KOwner(tunnel)
    ensures FramesTo(OnOpenLinked(wd.st, s, t, initial).1, w, o) ==
            StepFrames(wd.st, tunnel, o, OpenLinked(s, t, initial))
  {
    if t in wd.st.owners.at {
      var owner := wd.st.owners.at[t];
      assert OpenedAs(wd.env, owner.streamId, KOwner(t));
      SentFrame(wd.st, owner.streamId, STREAM_OPEN, owner.nextStreamId, initial, w, o);
    }
  }

  /** A frame to a live owner stream comes from a stream linked to that very owner. */
  lemma FramesOfStep(wd: World, tunnel: TunnelId, w: StreamId, o: nat, ev: Event)
    requires Inv(wd) && Allowed(wd, ev) && o >= 1
    requires OwnsStream(wd, w) && wd.env.kind[w] == KOwner(tunnel)
    ensures FramesTo(Step(wd.st, ev).1, w, o) == StepFrames(wd.st, tunnel, o, ev)
  {
    match ev
    case OpenLinked(s, t, initial) => FramesOfOpenLinked(wd, tunnel, w, o, s, t, initial);
    case Data(s, data) => FramesOfData(wd, tunnel, w, o, s, data);
    case Close(s) => FramesOfClose(wd, tunnel, w, o, s);
    case _ => NoFrames(Step(wd.st, ev).1, w, o);
  }

  // ---------- How a link changes ----------

  predicate Breaks(s: StreamId, w: StreamId, o: nat, ev: Event) {
    (ev == Close(s) && o <= U32_MAX) || (ev.Data? && ev.s == w && s != "" && Ends(ev.data, o))
  }

  predicate Drops(ev: Event) { ev.SocketDropped? || ev.TunnelClosed? }

  predicate Allocates(st: State, tunnel: TunnelId, s: StreamId, o: nat, ev: Event)
    requires tunnel in st.owners.at
  {
    ev.OpenLinked? && ev.s == s && ev.tunnel == tunnel && st.owners.at[tunnel].nextStreamId == o
  }

  ghost predicate OwnerIs(wd: World, tunnel: TunnelId, w: StreamId) {
    OwnsStream(wd, w) && wd.env.kind[w] == KOwner(tunnel)
  }

  /** How the owner of `tunnel` and one of its links look after a step it survives. */
  ghost predicate Evolves(st: State, st': State, tunnel: TunnelId, w: StreamId, s: StreamId, o: nat, ev: Event)
    requires tunnel in st.owners.at
  {
    && tunnel in st'.owners.at
    && st'.owners.at[tunnel].streamId == st.owners.at[tunnel].streamId
    && st'.owners.at[tunnel].nextStreamId == NextNumber(st, tunnel, ev)
    && (IsLink(st', s, tunnel, o) <==>
         Allocates(st, tunnel, s, o, ev) || (IsLink(st, s, tunnel, o) && !Breaks(s, w, o, ev)))
  }

  lemma EvolvesOnOwnerData(wd: World, tunnel: TunnelId, w: StreamId, s: StreamId, o: nat, from: StreamId, data: bytes)
    requires Tables(wd.st) && KindsAgree(wd)
    requires OwnerIs(wd, tunnel, w) && OwnsStream(wd, from)
    ensures Evolves(wd.st, OnOwnerData(wd.st, wd.env.kind[from].tunnel, data).0, tunnel, w, s, o, Data(from, data))
  {
    var owner := wd.st.owners.at[wd.env.kind[from].tunnel];
    var f := DecodeFrame(data);
    if f.Some? && f.value.id in owner.ownerToServer {
      assert Bijection(owner);
      assert Linked(wd.st, owner.ownerToServer[f.value.id], wd.env.kind[from].tunnel, f.value.id);
    }
    if IsLink(wd.st, s, tunnel, o) {
      LinkedOwnerLives(wd.st, s);
      assert Bijection(wd.st.owners.at[tunnel]);
      assert OpenedAs(wd.env, s, KLinked);
    }
  }

  lemma EvolvesOnOwnerClose(wd: World, tunnel: TunnelId, w: StreamId, s: StreamId, o: nat, t: TunnelId, x: StreamId)
    requires OwnersValid(wd.st) && Tables(wd.st) && OwnerIs(wd, tunnel, w)
    requires t in wd.st.owners.at && t != tunnel && s != x
    ensures Evolves(wd.st, DropOwner(wd.st, t, x), tunnel, w, s, o, Close(x))
  {
    var servers := wd.st.owners.at[t].serverToOwner;
    if s in servers.order { assert Linked(wd.st, s, t, servers.at[s]); }
  }

  lemma EvolvesOnLinkedClose(wd: World, tunnel: TunnelId, w: StreamId, s: StreamId, o: nat, x: StreamId)
    requires Tables(wd.st) && OwnerIs(wd, tunnel, w) && x in wd.st.links
    ensures Evolves(wd.st, OnLinkedClose(wd.st, x).0, tunnel, w, s, o, Close(x))
  {
    LinkedOwnerLives(wd.st, x);
  }

  lemma EvolvesOnClose(wd: World, tunnel: TunnelId, w: StreamId, s: StreamId, o: nat, x: StreamId)
    requires Shape(wd) && OwnerIs(wd, tunnel, w) && x != w
    ensures Evolves(wd.st, OnClose(wd.st, x).0, tunnel, w, s, o, Close(x))
  {
    CloseDispatch(wd, x);
    if OwnsStream(wd, x) {
      if s == x { assert s !in wd.st.links; }
      else { EvolvesOnOwnerClose(wd, tunnel, w, s, o, wd.env.kind[x].tunnel, x); }
    } else if x in wd.st.links {
      EvolvesOnLinkedClose(wd, tunnel, w, s, o, x);
    }
  }

  lemma EvolvesOnData(wd: World, tunnel: TunnelId, w: StreamId, s: StreamId, o: nat, x: StreamId, data: bytes)
    requires Shape(wd) && OwnerIs(wd, tunnel, w)
    ensures Evolves(wd.st, OnData(wd.st, x, data).0, tunnel, w, s, o, Data(x, data))
  {
    OwnerFound(wd, x);
    if OwnsStream(wd, x) {
      EvolvesOnOwnerData(wd, tunnel, w, s, o, x, data);
    } else if x in wd.st.links {
      LinkedOwnerLives(wd.st, x);
    }
  }

  lemma EvolvesOnOpen(wd: World, tunnel: TunnelId, w: StreamId, s: StreamId, o: nat, ev: Event)
    requires KindsAgree(wd) && Allowed(wd, ev) && OwnerIs(wd, tunnel, w)
    requires ev.OpenLinked? || ev.OpenOwner?
    ensures Evolves(wd.st, Step(wd.st, ev).0, tunnel, w, s, o, ev)
  {
    assert ev.s !in wd.st.links;
  }

  lemma StepEvolves(wd: World, tunnel: TunnelId, w: StreamId, s: StreamId, o: nat, ev: Event)
    requires Inv(wd) && Allowed(wd, ev) && OwnerIs(wd, tunnel, w)
    requires ev != Close(w) && !ev.TunnelClosed?
    ensures Evolves(wd.st, Step(wd.st, ev).0, tunnel, w, s, o, ev)
  {
    match ev
    case Data(x, data) => EvolvesOnData(wd, tunnel, w, s, o, x, data);
    case Close(x) => EvolvesOnClose(wd, tunnel, w, s, o, x);
    case OpenLinked(_, _, _) => EvolvesOnOpen(wd, tunnel, w, s, o, ev);
    case OpenOwner(_, _) => EvolvesOnOpen(wd, tunnel, w, s, o, ev);
    case _ =>
  }

  lemma OwnerStays(wd: World, tunnel: TunnelId, w: StreamId, ev: Event)
    requires Allowed(wd, ev) && OwnerIs(wd, tunnel, w)
    requires tunnel in Next(wd, ev).st.owners.at
    requires Next(wd, ev).st.owners.at[tunnel].streamId == wd.st.owners.at[tunnel].streamId
    ensures OwnerIs(Next(wd, ev), tunnel, w)
  {
  }

  lemma ConnectedAfter(st: State, ev: Event)
    ensures Step(st, ev).0.connected == (st.connected && !Drops(ev))
  {
  }

  lemma OwnerGone(wd: World, tunnel: TunnelId, w: StreamId, ev: Event)
    requires Shape(wd) && OwnerIs(wd, tunnel, w)
    requires ev == Close(w) || ev.TunnelClosed?
    ensures !OwnsStream(Next(wd, ev), w)
  {
    CloseDispatch(wd, w);
  }

  lemma LinkIsUnique(wd: World, tunnel: TunnelId, s: StreamId, o: nat)
    requires Tables(wd.st) && IsLink(wd.st, s, tunnel, o)
    ensures tunnel in wd.st.owners.at && 1 <= o < wd.st.owners.at[tunnel].nextStreamId
    ensures forall x :: IsLink(wd.st, x, tunnel, o) ==> x == s
  {
    LinkedOwnerLives(wd.st, s);
    assert Bijection(wd.st.owners.at[tunnel]);
    forall x | IsLink(wd.st, x, tunnel, o) ensures x == s {
      LinkedOwnerLives(wd.st, x);
    }
  }

  lemma UnallocatedIsUnlinked(wd: World, tunnel: TunnelId, o: nat)
    requires Tables(wd.st) && tunnel in wd.st.owners.at && wd.st.owners.at[tunnel].nextStreamId <= o
    ensures forall x :: !IsLink(wd.st, x, tunnel, o)
  {
    forall x ensures !IsLink(wd.st, x, tunnel, o) {
      if IsLink(wd.st, x, tunnel, o) { LinkIsUnique(wd, tunnel, x, o); }
    }
  }

  // ---------- Towards the owner ----------

  /** Nothing is linked to number `o`, and nothing will be: it was handed out before, or
      the socket is gone. */
  ghost predicate Finished(st: State, tunnel: TunnelId, o: nat)
    requires tunnel in st.owners.at
  {
    || !st.connected
    || (o < st.owners.at[tunnel].nextStreamId && forall s :: !IsLink(st, s, tunnel, o))
  }

  lemma FinishedStays(wd: World, tunnel: TunnelId, w: StreamId, o: nat, ev: Event)
    requires Inv(wd) && Allowed(wd, ev) && OwnerIs(wd, tunnel, w)
    requires Finished(wd.st, tunnel, o) || ev.SocketDropped?
    requires ev != Close(w) && !ev.TunnelClosed?
    ensures OwnerIs(Next(wd, ev), tunnel, w) && Finished(Next(wd, ev).st, tunnel, o)
  {
    StepEvolves(wd, tunnel, w, "", o, ev);
    OwnerStays(wd, tunnel, w, ev);
    ConnectedAfter(wd.st, ev);
    if wd.st.connected && !ev.SocketDropped? {
      forall s ensures !IsLink(Next(wd, ev).st, s, tunnel, o) {
        StepEvolves(wd, tunnel, w, s, o, ev);
      }
    }
  }

  lemma {:induction false} FinishedIsSilent(wd: World, tunnel: TunnelId, w: StreamId, o: nat, events: seq<Event>)
    requires Inv(wd) && AllowedRun(wd, events) && OwnerIs(wd, tunnel, w) && o >= 1
    requires Finished(wd.st, tunnel, o)
    ensures OwnerView(wd, w, o, events) == []
    decreases |events|
  {
    if events != [] {
      FramesOfStep(wd, tunnel, w, o, events[0]);
      StepKeeps(wd, events[0]);
      if events[0] == Close(w) || events[0].TunnelClosed? {
        OwnerGone(wd, tunnel, w, events[0]);
      } else {
        FinishedStays(wd, tunnel, w, o, events[0]);
        FinishedIsSilent(Next(wd, events[0]), tunnel, w, o, events[1..]);
      }
    }
  }

  /** After the step that ends the pipe of `o`, its owner sees nothing more of it. */
  lemma SilentAfter(wd: World, tunnel: TunnelId, w: StreamId, o: nat, s: StreamId, events: seq<Event>)
    requires Inv(wd) && AllowedRun(wd, events) && OwnerIs(wd, tunnel, w) && events != []
    requires IsLink(wd.st, s, tunnel, o)
    requires Breaks(s, w, o, events[0]) || events[0] == Close(w) || Drops(events[0])
    ensures OwnerView(Next(wd, events[0]), w, o, events[1..]) == []
  {
    var ev := events[0];
    LinkIsUnique(wd, tunnel, s, o);
    StepKeeps(wd, ev);
    if ev == Close(w) || ev.TunnelClosed? {
      OwnerGone(wd, tunnel, w, ev);
    } else {
      StepEvolves(wd, tunnel, w, s, o, ev);
      OwnerStays(wd, tunnel, w, ev);
      ConnectedAfter(wd.st, ev);
      forall x ensures !IsLink(Next(wd, ev).st, x, tunnel, o) || ev.SocketDropped? {
        StepEvolves(wd, tunnel, w, x, o, ev);
      }
      FinishedIsSilent(Next(wd, ev), tunnel, w, o, events[1..]);
    }
  }

  lemma PipeHead(st: State, tunnel: TunnelId, s: StreamId, w: StreamId, o: nat, events: seq<Event>)
    requires tunnel in st.owners.at && events != [] && s != w && w !in st.links
    requires st.connected && o <= U32_MAX && o < st.owners.at[tunnel].nextStreamId
    requires forall x :: IsLink(st, x, tunnel, o) <==> x == s
    ensures PipeOut(s, w, o, events) ==
            StepFrames(st, tunnel, o, events[0]) +
            if Breaks(s, w, o, events[0]) || events[0] == Close(w) || Drops(events[0]) then []
            else PipeOut(s, w, o, events[1..])
  {
  }

  function NextNumber(st: State, tunnel: TunnelId, ev: Event): nat
    requires tunnel in st.owners.at
  {
    st.owners.at[tunnel].nextStreamId + (if ev.OpenLinked? && ev.tunnel == tunnel then 1 else 0)
  }

  lemma LifeHead(st: State, tunnel: TunnelId, w: StreamId, o: nat, events: seq<Event>)
    requires tunnel in st.owners.at && events != []
    requires st.connected && st.owners.at[tunnel].nextStreamId <= o <= U32_MAX
    requires forall x :: !IsLink(st, x, tunnel, o)
    ensures var next := st.owners.at[tunnel].nextStreamId;
            var ev := events[0];
            LifeOf(next, tunnel, w, o, events) ==
            StepFrames(st, tunnel, o, ev) +
            if ev == Close(w) || Drops(ev) then []
            else if ev.OpenLinked? && ev.tunnel == tunnel && next == o then PipeOut(ev.s, w, o, events[1..])
            else LifeOf(NextNumber(st, tunnel, ev), tunnel, w, o, events[1..])
  {
  }

  /** A linked number sees exactly its pipe. */
  lemma {:induction false} LinkedSeesPipe(
      wd: World, tunnel: TunnelId, w: StreamId, o: nat, s: StreamId, events: seq<Event>)
    requires Inv(wd) && AllowedRun(wd, events) && OwnerIs(wd, tunnel, w)
    requires wd.st.connected && IsLink(wd.st, s, tunnel, o) && o <= U32_MAX
    ensures OwnerView(wd, w, o, events) == PipeOut(s, w, o, events)
    decreases |events|
  {
    if events != [] {
      var ev := events[0];
      LinkIsUnique(wd, tunnel, s, o);
      assert OpenedAs(wd.env, s, KLinked);
      FramesOfStep(wd, tunnel, w, o, ev);
      PipeHead(wd.st, tunnel, s, w, o, events);
      if Breaks(s, w, o, ev) || ev == Close(w) || Drops(ev) {
        SilentAfter(wd, tunnel, w, o, s, events);
      } else {
        StepKeeps(wd, ev);
        StepEvolves(wd, tunnel, w, s, o, ev);
        OwnerStays(wd, tunnel, w, ev);
        ConnectedAfter(wd.st, ev);
        LinkedSeesPipe(Next(wd, ev), tunnel, w, o, s, events[1..]);
      }
    }
  }

  /** Main result, for every owner stream and every stream number that fits a frame: the
      owner sees STREAM_OPEN once, then that stream's payloads in order, then at most one
      STREAM_RESET and nothing after it. */
  lemma {:induction false} OwnerSeesLife(wd: World, tunnel: TunnelId, w: StreamId, o: nat, events: seq<Event>)
    requires Inv(wd) && AllowedRun(wd, events) && OwnerIs(wd, tunnel, w)
    requires wd.st.connected && wd.st.owners.at[tunnel].nextStreamId <= o <= U32_MAX
    ensures OwnerView(wd, w, o, events) == LifeOf(wd.st.owners.at[tunnel].nextStreamId, tunnel, w, o, events)
    decreases |events|
  {
    if events != [] {
      var ev := events[0];
      var next := wd.st.owners.at[tunnel].nextStreamId;
      assert Bijection(wd.st.owners.at[tunnel]);
      UnallocatedIsUnlinked(wd, tunnel, o);
      FramesOfStep(wd, tunnel, w, o, ev);
      LifeHead(wd.st, tunnel, w, o, events);
      StepKeeps(wd, ev);
      if ev == Close(w) || ev.TunnelClosed? {
        OwnerGone(wd, tunnel, w, ev);
      } else {
        var s := if ev.OpenLinked? then ev.s else "";
        StepEvolves(wd, tunnel, w, s, o, ev);
        OwnerStays(wd, tunnel, w, ev);
        ConnectedAfter(wd.st, ev);
        if Drops(ev) {
          FinishedIsSilent(Next(wd, ev), tunnel, w, o, events[1..]);
        } else if Allocates(wd.st, tunnel, s, o, ev) {
          LinkedSeesPipe(Next(wd, ev), tunnel, w, o, s, events[1..]);
        } else {
          OwnerSeesLife(Next(wd, ev), tunnel, w, o, events[1..]);
        }
      }
    }
  }

  /** The same from the moment the owner connects, in any reachable world. */
  lemma NewOwnerSeesLife(before: seq<Event>, tunnel: TunnelId, w: StreamId, o: nat, events: seq<Event>)
    requires AllowedRun(START, before)
    requires var wd := After(START, before);
             wd.st.connected && AllowedRun(wd, [OpenOwner(w, tunnel)] + events)
    requires 1 <= o <= U32_MAX
    ensures var wd := Next(After(START, before), OpenOwner(w, tunnel));
            OwnerView(wd, w, o, events) == LifeOf(1, tunnel, w, o, events)
  {
    StartHolds();
    RunKeeps(START, before);
    var wd := After(START, before);
    var all := [OpenOwner(w, tunnel)] + events;
    assert all[0] == OpenOwner(w, tunnel) && all[1..] == events;
    StepKeeps(wd, OpenOwner(w, tunnel));
    OwnerSeesLife(Next(wd, OpenOwner(w, tunnel)), tunnel, w, o, events);
  }

  /** A stream number of more than 32 bits never reaches the owner: the encoder throws. */
  lemma {:induction false} WideNumbersAreSilent(wd: World, tunnel: TunnelId, w: StreamId, o: nat, events: seq<Event>)
    requires Inv(wd) && AllowedRun(wd, events) && OwnerIs(wd, tunnel, w) && o > U32_MAX
    ensures OwnerView(wd, w, o, events) == []
    decreases |events|
  {
    if events != [] {
      FramesOfStep(wd, tunnel, w, o, events[0]);
      StepKeeps(wd, events[0]);
      if events[0] == Close(w) || events[0].TunnelClosed? {
        OwnerGone(wd, tunnel, w, events[0]);
      } else {
        StepEvolves(wd, tunnel, w, "", o, events[0]);
        OwnerStays(wd, tunnel, w, events[0]);
        WideNumbersAreSilent(Next(wd, events[0]), tunnel, w, o, events[1..]);
      }
    }
  }
}
