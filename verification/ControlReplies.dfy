/** What the multiplexer itself answers: a PONG to every PING, a session to every session
    message, a refusal without an owner, and an error message where encoding fails. */
module ControlReplies {
  import opened Wrappers
  import opened Bytes
  import opened JsMaps
  import opened ControlClient
  import opened ControlInvariant
  import opened ControlPipes
  import opened ControlReturns
  import ControlRaw

  // ---------- PING and PONG ----------

  predicate IsPing(data: bytes) { DecodeFrame(data).Some? && DecodeFrame(data).value.kind == PING }

  function StepPongs(w: StreamId, connected: bool, ev: Event): seq<Frame> {
    if connected && ev.Data? && ev.s == w && IsPing(ev.data) then [Frame(PONG, 0, [])] else []
  }

  /** Without tables: one PONG for each PING, until the owner is closed or the socket is gone. */
  function Pongs(w: StreamId, events: seq<Event>): seq<Frame> {
    if events == [] || events[0] == Close(w) || Drops(events[0]) then []
    else StepPongs(w, true, events[0]) + Pongs(w, events[1..])
  }

  lemma OwnerAnswers(st: State, t: TunnelId, w: StreamId, data: bytes)
    requires t in st.owners.at
    requires forall o :: o in st.owners.at[t].ownerToServer ==> st.owners.at[t].ownerToServer[o] != w
    ensures FramesTo(OnOwnerData(st, t, data).1, w, 0) ==
            if st.connected && st.owners.at[t].streamId == w && IsPing(data) then [Frame(PONG, 0, [])] else []
  {
    if IsPing(data) {
      SentFrame(st, st.owners.at[t].streamId, PONG, 0, [], w, 0);
    } else {
      NoFrames(OnOwnerData(st, t, data).1, w, 0);
    }
  }

  lemma PongsOfOwnerData(wd: World, from: StreamId, w: StreamId, data: bytes)
    requires Shape(wd) && OwnsStream(wd, from) && OwnsStream(wd, w)
    ensures FramesTo(OnOwnerData(wd.st, wd.env.kind[from].tunnel, data).1, w, 0) ==
            StepPongs(w, wd.st.connected, Data(from, data))
  {
    var t := wd.env.kind[from].tunnel;
    var owner := wd.st.owners.at[t];
    forall o | o in owner.ownerToServer ensures owner.ownerToServer[o] != w { MappedIsLinked(wd, t, o); }
    OwnerAnswers(wd.st, t, w, data);
  }

  lemma MappedIsLinked(wd: World, t: TunnelId, o: nat)
    requires Tables(wd.st) && KindsAgree(wd) && t in wd.st.owners.at && o in wd.st.owners.at[t].ownerToServer
    ensures OpenedAs(wd.env, wd.st.owners.at[t].ownerToServer[o], KLinked)
  {
    var owner := wd.st.owners.at[t];
    assert Bijection(owner);
    assert Linked(wd.st, owner.ownerToServer[o], t, o);
  }

  lemma LinksCountFromOne(st: State, s: StreamId)
    requires Tables(st) && s in st.links
    ensures st.links[s].ownerStreamId >= 1
  {
    LinkedOwnerLives(st, s);
    assert Bijection(st.owners.at[st.links[s].tunnelId]);
  }

  lemma PongsOfData(wd: World, x: StreamId, w: StreamId, data: bytes)
    requires Shape(wd) && OwnsStream(wd, w)
    ensures FramesTo(OnData(wd.st, x, data).1, w, 0) == StepPongs(w, wd.st.connected, Data(x, data))
  {
    OwnerFound(wd, x);
    if OwnsStream(wd, x) {
      PongsOfOwnerData(wd, x, w, data);
    } else if x in wd.st.links {
      LinksCountFromOne(wd.st, x);
      LinkFrame(wd, x, STREAM_DATA, data, wd.env.kind[w].tunnel, w, 0);
    }
  }

  lemma PongsOfClose(wd: World, x: StreamId, w: StreamId)
    requires Shape(wd) && OwnsStream(wd, w)
    ensures FramesTo(OnClose(wd.st, x).1, w, 0) == []
  {
    CloseDispatch(wd, x);
    if OwnsStream(wd, x) {
      ClosesAreNoFrames(wd.st.owners.at[wd.env.kind[x].tunnel].serverToOwner.order, w, 0);
    } else if x in wd.st.links {
      LinksCountFromOne(wd.st, x);
      LinkFrame(wd, x, STREAM_RESET, [], wd.env.kind[w].tunnel, w, 0);
    } else {
      NoFrames(OnLeafClose(wd.st, x).1, w, 0);
    }
  }

  lemma PongsOfStep(wd: World, w: StreamId, ev: Event)
    requires Inv(wd) && Allowed(wd, ev) && OwnsStream(wd, w)
    ensures FramesTo(Step(wd.st, ev).1, w, 0) == StepPongs(w, wd.st.connected, ev)
  {
    match ev
    case OpenLinked(s, t, initial) =>
      if t in wd.st.owners.at {
        var owner := wd.st.owners.at[t];
        assert Bijection(owner);
        SentFrame(wd.st, owner.streamId, STREAM_OPEN, owner.nextStreamId, initial, w, 0);
      }
    case Data(x, data) => PongsOfData(wd, x, w, data);
    case Close(x) => PongsOfClose(wd, x, w);
    case _ => NoFrames(Step(wd.st, ev).1, w, 0);
  }

  /** An owner keeps its stream until it is closed or the tunnel goes. */
  lemma OwnerAfter(wd: World, w: StreamId, ev: Event)
    requires Inv(wd) && Allowed(wd, ev) && OwnsStream(wd, w)
    ensures OwnsStream(Next(wd, ev), w) <==> ev != Close(w) && !ev.TunnelClosed?
  {
    var tunnel := wd.env.kind[w].tunnel;
    if ev == Close(w) {
      CloseDispatch(wd, w);
    } else if !ev.TunnelClosed? {
      StepEvolves(wd, tunnel, w, "", 0, ev);
      OwnerStays(wd, tunnel, w, ev);
    }
  }

  lemma {:induction false} DisconnectedNoPongs(wd: World, w: StreamId, events: seq<Event>)
    requires Inv(wd) && AllowedRun(wd, events) && !wd.st.connected
    ensures OwnerView(wd, w, 0, events) == []
    decreases |events|
  {
    if events != [] && OwnsStream(wd, w) {
      PongsOfStep(wd, w, events[0]);
      StepKeeps(wd, events[0]);
      ConnectedAfter(wd.st, events[0]);
      DisconnectedNoPongs(Next(wd, events[0]), w, events[1..]);
    }
  }

  /** Main result: over every allowed run, the owner of a stream is sent one PONG for each of its
      PINGs, in order, and no other frame that belongs to no stream number. */
  lemma {:induction false} OwnerSeesPongs(wd: World, w: StreamId, events: seq<Event>)
    requires Inv(wd) && AllowedRun(wd, events) && OwnsStream(wd, w) && wd.st.connected
    ensures OwnerView(wd, w, 0, events) == Pongs(w, events)
    decreases |events|
  {
    if events != [] {
      var ev := events[0];
      PongsOfStep(wd, w, ev);
      StepKeeps(wd, ev);
      ConnectedAfter(wd.st, ev);
      OwnerAfter(wd, w, ev);
      if ev.SocketDropped? {
        DisconnectedNoPongs(Next(wd, ev), w, events[1..]);
      } else if ev != Close(w) && !ev.TunnelClosed? {
        OwnerSeesPongs(Next(wd, ev), w, events[1..]);
      }
    }
  }

  // ---------- Session messages ----------

  /** Opened as a session, or refused as unsupported: never in a table. */
  predicate Tableless(env: Env, s: StreamId) { OpenedAs(env, s, KSession) || OpenedAs(env, s, KUnsupported) }

  function RunsOf(effects: seq<Effect>, s: StreamId): seq<bytes> {
    if effects == [] then []
    else (if effects[0].RunSession? && effects[0].s == s then [effects[0].data] else []) + RunsOf(effects[1..], s)
  }

  /** The payloads that ran as session messages of `s`. */
  function SessionView(wd: World, s: StreamId, events: seq<Event>): seq<bytes>
    decreases |events|
  {
    if events == [] then [] else RunsOf(Step(wd.st, events[0]).1, s) + SessionView(Next(wd, events[0]), s, events[1..])
  }

  /** The payloads of `s`. */
  function PayloadsOf(s: StreamId, events: seq<Event>): seq<bytes> {
    if events == [] then []
    else (if events[0].Data? && events[0].s == s then [events[0].data] else []) + PayloadsOf(s, events[1..])
  }

  /** What goes out on `s`, whatever it is. */
  function RepliesOf(s: StreamId, connected: bool, events: seq<Event>): seq<Effect> {
    if events == [] then []
    else
      (if connected && events[0].SessionReplies? && events[0].s == s then [SendData(s, events[0].data)] else [])
      + RepliesOf(s, connected && !Drops(events[0]), events[1..])
  }

  lemma {:induction false} NoRuns(effects: seq<Effect>, s: StreamId)
    requires forall e :: e in effects ==> !e.RunSession?
    ensures RunsOf(effects, s) == []
  {
    if effects != [] { NoRuns(effects[1..], s); }
  }

  lemma {:induction false} CloseAllRunsNone(ids: seq<StreamId>)
    ensures forall e :: e in CloseAll(ids) ==> !e.RunSession?
  {
    if ids != [] { CloseAllRunsNone(ids[1..]); }
  }

  lemma TablelessData(w: World, x: StreamId, data: bytes, s: StreamId)
    requires Inv(w) && Tableless(w.env, s)
    ensures RunsOf(OnData(w.st, x, data).1, s) == if x == s then [data] else []
  {
    OwnerFound(w, x);
    if x == s {
      assert s !in w.st.links && s !in w.st.raw && s !in w.st.dataPlane && !OwnsStream(w, s);
      assert [RunSession(s, data)][1..] == [];
    } else if OwnsStream(w, x) {
      OwnerDataRunsNone(w.st, w.env.kind[x].tunnel, data);
      NoRuns(OnData(w.st, x, data).1, s);
    } else {
      OtherDataRuns(w.st, x, data, s);
    }
  }

  lemma OwnerDataRunsNone(st: State, t: TunnelId, data: bytes)
    requires t in st.owners.at
    ensures forall e :: e in OnOwnerData(st, t, data).1 ==> !e.RunSession?
  {
  }

  lemma OtherDataRuns(st: State, x: StreamId, data: bytes, s: StreamId)
    requires x != s && FindOwner(st.owners.order, st.owners.at, x).None?
    ensures RunsOf(OnData(st, x, data).1, s) == []
  {
    var out := OnData(st, x, data).1;
    if out != [] {
      assert out == [out[0]];
      assert out[1..] == [];
    }
  }

  lemma CloseRunsNone(w: World, x: StreamId, s: StreamId)
    requires Inv(w)
    ensures RunsOf(OnClose(w.st, x).1, s) == []
  {
    CloseDispatch(w, x);
    if OwnsStream(w, x) { CloseAllRunsNone(w.st.owners.at[w.env.kind[x].tunnel].serverToOwner.order); }
    NoRuns(OnClose(w.st, x).1, s);
  }

  lemma TablelessStep(w: World, ev: Event, s: StreamId)
    requires Inv(w) && Allowed(w, ev) && Tableless(w.env, s)
    ensures RunsOf(Step(w.st, ev).1, s) == if ev.Data? && ev.s == s then [ev.data] else []
  {
    match ev
    case Data(x, data) => TablelessData(w, x, data, s);
    case Close(x) => CloseRunsNone(w, x, s);
    case _ => OthersRunNone(w.st, ev, s);
  }

  lemma OthersRunNone(st: State, ev: Event, s: StreamId)
    requires !ev.Data? && !ev.Close?
    ensures RunsOf(Step(st, ev).1, s) == []
  {
    NoRuns(Step(st, ev).1, s);
  }

  lemma StaysTableless(w: World, ev: Event, s: StreamId)
    requires Allowed(w, ev) && Tableless(w.env, s)
    ensures Tableless(NextEnv(w, ev), s)
  {
  }

  lemma TablelessOut(w: World, ev: Event, s: StreamId)
    requires Inv(w) && Allowed(w, ev) && Tableless(w.env, s)
    ensures To(Step(w.st, ev).1, s) ==
            if w.st.connected && ev.SessionReplies? && ev.s == s then [SendData(s, ev.data)] else []
  {
    match ev
    case OpenLinked(x, tunnel, initial) =>
      if tunnel in w.st.owners.at {
        var owner := w.st.owners.at[tunnel];
        assert OpenedAs(w.env, owner.streamId, KOwner(tunnel));
        SentFrameIsFor(w.st, owner.streamId, STREAM_OPEN, owner.nextStreamId, initial, s);
      }
    case Data(x, data) => DataIsSilent(w, x, data, s);
    case Close(x) => CloseIsSilent(w, x, s);
    case SessionReplies(x, data) => assert [SendData(x, data)][1..] == [];
    case _ => NothingFor(Step(w.st, ev).1, s);
  }

  /** Main result: over every allowed run, every payload of a session id runs as a session message,
      in order, and what goes out on the id is the replies to them. */
  lemma {:induction false} SessionSeesPayloads(w: World, s: StreamId, events: seq<Event>)
    requires Inv(w) && AllowedRun(w, events) && Tableless(w.env, s)
    ensures SessionView(w, s, events) == PayloadsOf(s, events)
    ensures ControlRaw.OutView(w, s, events) == RepliesOf(s, w.st.connected, events)
    decreases |events|
  {
    if events != [] {
      TablelessStep(w, events[0], s);
      StaysTableless(w, events[0], s);
      TablelessOut(w, events[0], s);
      ConnectedAfter(w.st, events[0]);
      StepKeeps(w, events[0]);
      SessionSeesPayloads(Next(w, events[0]), s, events[1..]);
    }
  }

  // ---------- Refusals and errors ----------

  /** A public stream is refused exactly when its tunnel has no owner: nothing is linked, and one
      close goes out on its id. */
  lemma RefusedIffNoOwner(w: World, s: StreamId, tunnel: TunnelId, initial: bytes)
    requires Inv(w) && Allowed(w, OpenLinked(s, tunnel, initial)) && w.st.connected
    ensures var (st, out) := Step(w.st, OpenLinked(s, tunnel, initial));
            && (tunnel !in w.st.owners.at <==> To(out, s) == [SendClose(s, "tunnel owner unavailable")])
            && (tunnel !in w.st.owners.at <==> s !in st.links)
            && (tunnel in w.st.owners.at <==> To(out, s) == [])
  {
    assert s !in w.st.links;
    if tunnel in w.st.owners.at {
      var owner := w.st.owners.at[tunnel];
      assert OpenedAs(w.env, owner.streamId, KOwner(tunnel));
      SentFrameIsFor(w.st, owner.streamId, STREAM_OPEN, owner.nextStreamId, initial, s);
    } else {
      assert [SendClose(s, "tunnel owner unavailable")][1..] == [];
    }
  }

  function Errors(effects: seq<Effect>): nat {
    if effects == [] then 0 else (if effects[0].SendError? then 1 else 0) + Errors(effects[1..])
  }

  /** The event needs a frame whose number does not fit. */
  predicate NeedsWideFrame(st: State, ev: Event) {
    match ev
    case OpenLinked(_, tunnel, _) => tunnel in st.owners.at && st.owners.at[tunnel].nextStreamId > U32_MAX
    case Data(s, _) => s in st.links && st.links[s].ownerStreamId > U32_MAX
    case Close(s) => s in st.links && st.links[s].ownerStreamId > U32_MAX
    case _ => false
  }

  lemma {:induction false} NoErrors(effects: seq<Effect>)
    requires forall e :: e in effects ==> !e.SendError?
    ensures Errors(effects) == 0
  {
    if effects != [] { NoErrors(effects[1..]); }
  }

  lemma {:induction false} CloseAllErrsNot(ids: seq<StreamId>)
    ensures forall e :: e in CloseAll(ids) ==> !e.SendError?
  {
    if ids != [] { CloseAllErrsNot(ids[1..]); }
  }

  lemma FrameErrors(st: State, x: StreamId, kind: byte, id: nat, payload: bytes)
    ensures Errors(SendFrame(st, x, kind, id, payload)) == if st.connected && id > U32_MAX then 1 else 0
  {
    var out := SendFrame(st, x, kind, id, payload);
    if out != [] { assert out == [out[0]] && out[1..] == []; }
  }

  lemma OwnerDataErrs(st: State, t: TunnelId, data: bytes)
    requires t in st.owners.at
    ensures Errors(OnOwnerData(st, t, data).1) == 0
  {
    FrameErrors(st, st.owners.at[t].streamId, PONG, 0, []);
    var out := OnOwnerData(st, t, data).1;
    if out != [] { assert out == [out[0]] && out[1..] == []; }
  }

  lemma OwnerIsNotLinked(w: World, x: StreamId)
    requires KindsAgree(w) && OwnsStream(w, x)
    ensures x !in w.st.links
  {
  }

  lemma LinkedDataErrors(st: State, x: StreamId, data: bytes)
    requires FindOwner(st.owners.order, st.owners.at, x).None? && x in st.links && st.links[x].tunnelId in st.owners.at
    ensures Errors(OnData(st, x, data).1) == if st.connected && st.links[x].ownerStreamId > U32_MAX then 1 else 0
  {
    var Link(t, o) := st.links[x];
    FrameErrors(st, st.owners.at[t].streamId, STREAM_DATA, o, data);
  }

  lemma LeafDataErrors(st: State, x: StreamId, data: bytes)
    requires FindOwner(st.owners.order, st.owners.at, x).None? && x !in st.links
    ensures Errors(OnData(st, x, data).1) == 0
  {
    NoErrors(OnData(st, x, data).1);
  }

  lemma DataErrors(w: World, x: StreamId, data: bytes)
    requires Inv(w)
    ensures Errors(OnData(w.st, x, data).1) == if w.st.connected && NeedsWideFrame(w.st, Data(x, data)) then 1 else 0
  {
    OwnerFound(w, x);
    if OwnsStream(w, x) {
      OwnerIsNotLinked(w, x);
      OwnerDataErrs(w.st, w.env.kind[x].tunnel, data);
    } else if x in w.st.links {
      LinkedOwnerLives(w.st, x);
      LinkedDataErrors(w.st, x, data);
    } else {
      LeafDataErrors(w.st, x, data);
    }
  }

  lemma CloseErrors(w: World, x: StreamId)
    requires Inv(w)
    ensures Errors(OnClose(w.st, x).1) == if w.st.connected && NeedsWideFrame(w.st, Close(x)) then 1 else 0
  {
    CloseDispatch(w, x);
    if OwnsStream(w, x) {
      OwnerIsNotLinked(w, x);
      CloseAllErrsNot(w.st.owners.at[w.env.kind[x].tunnel].serverToOwner.order);
      NoErrors(OnClose(w.st, x).1);
    } else if x in w.st.links {
      LinkedOwnerLives(w.st, x);
      var Link(t, o) := w.st.links[x];
      FrameErrors(w.st, w.st.owners.at[t].streamId, STREAM_RESET, o, []);
    } else {
      NoErrors(OnLeafClose(w.st, x).1);
    }
  }

  /** An error message goes out exactly for an unsupported target, a failed socket, and a frame whose
      number does not fit 32 bits, while the socket is there. */
  lemma ErrorsOfStep(w: World, ev: Event)
    requires Inv(w) && Allowed(w, ev)
    ensures Errors(Step(w.st, ev).1) ==
            if w.st.connected && (ev.OpenUnsupported? || ev.RawFailed? || NeedsWideFrame(w.st, ev)) then 1 else 0
  {
    match ev
    case OpenLinked(s, tunnel, initial) =>
      if tunnel in w.st.owners.at {
        var owner := w.st.owners.at[tunnel];
        FrameErrors(w.st, owner.streamId, STREAM_OPEN, owner.nextStreamId, initial);
      } else {
        NoErrors(Step(w.st, ev).1);
      }
    case Data(x, data) => DataErrors(w, x, data);
    case Close(x) => CloseErrors(w, x);
    case OpenUnsupported(_) => assert [SendError][1..] == [];
    case RawFailed(s, message) =>
      assert [SendError, SendClose(s, message)][1..] == [SendClose(s, message)];
      NoErrors([SendClose(s, message)]);
    case _ => NoErrors(Step(w.st, ev).1);
  }
}
