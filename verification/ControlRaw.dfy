/** Raw streams: what the socket behind an id is given, and what goes out on the id, equal
    pipes told without tables. */
module ControlRaw {
  import opened Wrappers
  import opened Bytes
  import opened JsMaps
  import opened ControlClient
  import opened ControlInvariant
  import opened ControlPipes
  import opened ControlReturns

  // ---------- The socket ----------

  /** What the multiplexer does to a socket. */
  datatype Act = Written(data: bytes) | Destroyed

  function ActOf(e: Effect, s: StreamId): seq<Act> {
    match e
    case WriteRaw(x, data) => if x == s then [Written(data)] else []
    case DestroyRaw(x) => if x == s then [Destroyed] else []
    case TearDown(sockets, _) => if s in sockets then [Destroyed] else []
    case _ => []
  }

  function Acts(effects: seq<Effect>, s: StreamId): seq<Act> {
    if effects == [] then [] else ActOf(effects[0], s) + Acts(effects[1..], s)
  }

  /** Everything that is done to the socket of `s` over a run. */
  function SocketView(wd: World, s: StreamId, events: seq<Event>): seq<Act>
    decreases |events|
  {
    if events == [] then [] else Acts(Step(wd.st, events[0]).1, s) + SocketView(Next(wd, events[0]), s, events[1..])
  }

  /** The socket is over: closed by the peer, by itself, or with the tunnel. */
  predicate Over(s: StreamId, ev: Event) {
    ev == Close(s) || ev == RawClosed(s) || (ev.RawFailed? && ev.s == s) || ev.TunnelClosed?
  }

  function StepActs(s: StreamId, live: bool, ev: Event): seq<Act> {
    if !live then []
    else match ev
      case Data(x, data) => if x == s then [Written(data)] else []
      case Close(x) => if x == s then [Destroyed] else []
      case TunnelClosed => [Destroyed]
      case _ => []
  }

  /** Without tables: the payloads of the id in order, until the socket is over, and its
      destruction if it was not the socket itself that ended; then nothing. */
  function SocketLife(s: StreamId, live: bool, events: seq<Event>): seq<Act> {
    if events == [] then []
    else StepActs(s, live, events[0]) + SocketLife(s, live && !Over(s, events[0]), events[1..])
  }

  predicate SparesSockets(e: Effect) { !e.WriteRaw? && !e.DestroyRaw? && !e.TearDown? }

  lemma {:induction false} NoActs(effects: seq<Effect>, s: StreamId)
    requires forall e :: e in effects ==> ActOf(e, s) == []
    ensures Acts(effects, s) == []
  {
    if effects != [] {
      assert ActOf(effects[0], s) == [];
      NoActs(effects[1..], s);
    }
  }

  lemma OneAct(e: Effect, s: StreamId)
    ensures Acts([e], s) == ActOf(e, s)
  {
    assert [e][1..] == [];
  }

  lemma OwnerDataSpares(st: State, t: TunnelId, data: bytes)
    requires t in st.owners.at
    ensures forall e :: e in OnOwnerData(st, t, data).1 ==> SparesSockets(e)
  {
  }

  lemma {:induction false} CloseAllSpares(ids: seq<StreamId>)
    ensures forall e :: e in CloseAll(ids) ==> SparesSockets(e)
  {
    if ids != [] { CloseAllSpares(ids[1..]); }
  }

  lemma SpareActs(effects: seq<Effect>, s: StreamId)
    requires forall e :: e in effects ==> SparesSockets(e)
    ensures Acts(effects, s) == []
  {
    forall e | e in effects ensures ActOf(e, s) == [] { assert SparesSockets(e); }
    NoActs(effects, s);
  }

  lemma ActsOfData(w: World, x: StreamId, data: bytes, s: StreamId)
    requires Inv(w) && OpenedAs(w.env, s, KRaw)
    ensures Acts(OnData(w.st, x, data).1, s) == StepActs(s, s in w.st.raw, Data(x, data))
  {
    OwnerFound(w, x);
    if OwnsStream(w, x) {
      OwnerDataSpares(w.st, w.env.kind[x].tunnel, data);
      SpareActs(OnData(w.st, x, data).1, s);
    } else if x in w.st.links {
      LinkedOwnerLives(w.st, x);
      assert OpenedAs(w.env, x, KLinked);
      SpareActs(OnData(w.st, x, data).1, s);
    } else {
      LeafDataActs(w.st, x, data, s);
    }
  }

  lemma LeafDataActs(st: State, x: StreamId, data: bytes, s: StreamId)
    requires FindOwner(st.owners.order, st.owners.at, x).None? && x !in st.links
    ensures Acts(OnData(st, x, data).1, s) == if x == s && s in st.raw then [Written(data)] else []
  {
    var out := OnData(st, x, data).1;
    assert out == [out[0]];
    OneAct(out[0], s);
  }

  lemma ActsOfClose(w: World, x: StreamId, s: StreamId)
    requires Inv(w) && OpenedAs(w.env, s, KRaw)
    ensures Acts(OnClose(w.st, x).1, s) == StepActs(s, s in w.st.raw, Close(x))
  {
    CloseDispatch(w, x);
    if OwnsStream(w, x) {
      CloseAllSpares(w.st.owners.at[w.env.kind[x].tunnel].serverToOwner.order);
      SpareActs(OnClose(w.st, x).1, s);
    } else if x in w.st.links {
      LinkedOwnerLives(w.st, x);
      assert OpenedAs(w.env, x, KLinked);
      SpareActs(OnClose(w.st, x).1, s);
    } else {
      LeafCloseActs(w, x, s);
    }
  }

  lemma LeafCloseActs(w: World, x: StreamId, s: StreamId)
    requires Inv(w) && OpenedAs(w.env, s, KRaw)
    ensures Acts(OnLeafClose(w.st, x).1, s) == StepActs(s, s in w.st.raw, Close(x))
  {
    if x in w.st.dataPlane { assert OpenedAs(w.env, x, KDataPlane); }
    var out := OnLeafClose(w.st, x).1;
    if out != [] {
      assert out == [out[0]];
      OneAct(out[0], s);
    }
  }

  lemma ActsOfStep(w: World, ev: Event, s: StreamId)
    requires Inv(w) && Allowed(w, ev) && OpenedAs(w.env, s, KRaw)
    ensures Acts(Step(w.st, ev).1, s) == StepActs(s, s in w.st.raw, ev)
  {
    match ev
    case Data(x, data) => ActsOfData(w, x, data, s);
    case Close(x) => ActsOfClose(w, x, s);
    case TunnelClosed => OneAct(TearDown(w.st.raw, w.st.dataPlane), s);
    case _ => SpareActs(Step(w.st, ev).1, s);
  }

  /** A raw id stays one until its socket is over. */
  lemma RawAfter(w: World, ev: Event, s: StreamId)
    requires Inv(w) && Allowed(w, ev) && OpenedAs(w.env, s, KRaw)
    ensures s in Next(w, ev).st.raw <==> s in w.st.raw && !Over(s, ev)
    ensures OpenedAs(Next(w, ev).env, s, KRaw)
  {
    match ev
    case Data(x, data) => RawAfterData(w.st, x, data);
    case Close(x) => RawAfterClose(w, x, s);
    case _ =>
  }

  lemma RawAfterData(st: State, x: StreamId, data: bytes)
    ensures OnData(st, x, data).0.raw == st.raw
  {
  }

  lemma RawAfterClose(w: World, x: StreamId, s: StreamId)
    requires Inv(w) && OpenedAs(w.env, s, KRaw)
    ensures s in OnClose(w.st, x).0.raw <==> s in w.st.raw && x != s
  {
    CloseDispatch(w, x);
    if x in w.st.links { assert OpenedAs(w.env, x, KLinked); }
    if x in w.st.dataPlane { assert OpenedAs(w.env, x, KDataPlane); }
  }

  /** Main result: over every allowed run, what is done to the socket of a raw id is its life
      without tables. */
  lemma {:induction false} SocketSeesLife(w: World, s: StreamId, events: seq<Event>)
    requires Inv(w) && AllowedRun(w, events) && OpenedAs(w.env, s, KRaw)
    ensures SocketView(w, s, events) == SocketLife(s, s in w.st.raw, events)
    decreases |events|
  {
    if events != [] {
      ActsOfStep(w, events[0], s);
      RawAfter(w, events[0], s);
      StepKeeps(w, events[0]);
      SocketSeesLife(Next(w, events[0]), s, events[1..]);
    }
  }

  // ---------- The id ----------

  /** Everything that goes out on `s` over a run. */
  function OutView(wd: World, s: StreamId, events: seq<Event>): seq<Effect>
    decreases |events|
  {
    if events == [] then [] else To(Step(wd.st, events[0]).1, s) + OutView(Next(wd, events[0]), s, events[1..])
  }

  /** The close of a socket that has ended before is not announced; its error is. */
  function StepOut(s: StreamId, live: bool, connected: bool, ev: Event): seq<Effect> {
    if !connected then []
    else match ev
      case RawData(x, data) => if x == s then [SendData(s, data)] else []
      case RawClosed(x) => if x == s && live then [SendClose(s, "target closed")] else []
      case RawFailed(x, message) => if x == s then [SendClose(s, message)] else []
      case SessionReplies(x, data) => if x == s then [SendData(s, data)] else []
      case _ => []
  }

  /** Without tables: what the socket brings, in order, and its end. */
  function OutLife(s: StreamId, live: bool, connected: bool, events: seq<Event>): seq<Effect> {
    if events == [] then []
    else
      StepOut(s, live, connected, events[0])
      + OutLife(s, live && !Over(s, events[0]), connected && !Drops(events[0]), events[1..])
  }

  lemma OneTo(e: Effect, s: StreamId)
    ensures To([e], s) == if IsFor(e, s) then [e] else []
  {
    assert [e][1..] == [];
  }

  lemma OutOfStep(w: World, ev: Event, s: StreamId)
    requires Inv(w) && Allowed(w, ev) && OpenedAs(w.env, s, KRaw)
    ensures To(Step(w.st, ev).1, s) == StepOut(s, s in w.st.raw, w.st.connected, ev)
  {
    match ev
    case OpenLinked(x, tunnel, initial) =>
      if tunnel in w.st.owners.at {
        var owner := w.st.owners.at[tunnel];
        assert OpenedAs(w.env, owner.streamId, KOwner(tunnel));
        SentFrameIsFor(w.st, owner.streamId, STREAM_OPEN, owner.nextStreamId, initial, s);
      }
    case Data(x, data) => DataIsSilent(w, x, data, s);
    case Close(x) => CloseIsSilent(w, x, s);
    case RawData(x, data) => OneTo(SendData(x, data), s);
    case RawClosed(x) => OneTo(SendClose(x, "target closed"), s);
    case RawFailed(x, message) =>
      OneTo(SendClose(x, message), s);
      assert [SendError, SendClose(x, message)][1..] == [SendClose(x, message)];
    case SessionReplies(x, data) => OneTo(SendData(x, data), s);
    case _ => NothingFor(Step(w.st, ev).1, s);
  }

  /** Main result: over every allowed run, what goes out on a raw id is its life without tables. */
  lemma {:induction false} OutSeesLife(w: World, s: StreamId, events: seq<Event>)
    requires Inv(w) && AllowedRun(w, events) && OpenedAs(w.env, s, KRaw)
    ensures OutView(w, s, events) == OutLife(s, s in w.st.raw, w.st.connected, events)
    decreases |events|
  {
    if events != [] {
      OutOfStep(w, events[0], s);
      RawAfter(w, events[0], s);
      ConnectedAfter(w.st, events[0]);
      StepKeeps(w, events[0]);
      OutSeesLife(Next(w, events[0]), s, events[1..]);
    }
  }

  /** Both, from the moment the stream is opened, in any reachable state. */
  lemma NewRawSeesLife(w: World, s: StreamId, events: seq<Event>)
    requires Inv(w) && Fresh(w.env, s) && AllowedRun(Next(w, OpenRaw(s)), events)
    ensures var w' := Next(w, OpenRaw(s));
            && SocketView(w', s, events) == SocketLife(s, true, events)
            && OutView(w', s, events) == OutLife(s, true, w.st.connected, events)
  {
    StepKeeps(w, OpenRaw(s));
    SocketSeesLife(Next(w, OpenRaw(s)), s, events);
    OutSeesLife(Next(w, OpenRaw(s)), s, events);
  }

  // ---------- What these lives are ----------

  lemma {:induction false} NothingWhenOver(s: StreamId, events: seq<Event>)
    ensures SocketLife(s, false, events) == []
  {
    if events != [] { NothingWhenOver(s, events[1..]); }
  }

  predicate OnlyLastDestroys(acts: seq<Act>) {
    forall i :: 0 <= i < |acts| - 1 ==> !acts[i].Destroyed?
  }

  lemma DestroysAfter(here: seq<Act>, rest: seq<Act>)
    requires OnlyLastDestroys(rest) && forall a :: a in here ==> !a.Destroyed?
    ensures OnlyLastDestroys(here + rest)
  {
  }

  /** A socket is destroyed at most once, and that is the last thing done to it. */
  lemma {:induction false} DestroyedOnce(s: StreamId, events: seq<Event>)
    ensures OnlyLastDestroys(SocketLife(s, true, events))
  {
    if events != [] {
      if Over(s, events[0]) {
        NothingWhenOver(s, events[1..]);
      } else {
        DestroyedOnce(s, events[1..]);
        DestroysAfter(StepActs(s, true, events[0]), SocketLife(s, true, events[1..]));
      }
    }
  }

  /** The socket keeps to what sockets do: nothing after its own end, no error after it was
      destroyed; and no session message ran on the id. */
  predicate WellBehaved(s: StreamId, live: bool, events: seq<Event>) {
    events == [] ||
    (var ev := events[0];
     && (!live ==> !(ev.RawData? && ev.s == s) && !(ev.RawFailed? && ev.s == s))
     && !(ev.SessionReplies? && ev.s == s)
     && WellBehaved(s, live && !Over(s, ev), events[1..]))
  }

  lemma {:induction false} SilentWhenOver(s: StreamId, connected: bool, events: seq<Event>)
    requires WellBehaved(s, false, events)
    ensures OutLife(s, false, connected, events) == []
    decreases |events|
  {
    if events != [] { SilentWhenOver(s, connected && !Drops(events[0]), events[1..]); }
  }

  predicate OnlyLastCloses(out: seq<Effect>) {
    forall i :: 0 <= i < |out| - 1 ==> !out[i].SendClose?
  }

  lemma ClosesAfter(here: seq<Effect>, rest: seq<Effect>)
    requires OnlyLastCloses(rest) && forall e :: e in here ==> !e.SendClose?
    ensures OnlyLastCloses(here + rest)
  {
  }

  /** Of a well-behaved socket at most one close goes out, after all of its data. */
  lemma {:induction false} ClosedOnce(s: StreamId, connected: bool, events: seq<Event>)
    requires WellBehaved(s, true, events)
    ensures OnlyLastCloses(OutLife(s, true, connected, events))
    decreases |events|
  {
    if events != [] {
      var up := connected && !Drops(events[0]);
      if Over(s, events[0]) {
        SilentWhenOver(s, up, events[1..]);
      } else {
        ClosedOnce(s, up, events[1..]);
        ClosesAfter(StepOut(s, true, connected, events[0]), OutLife(s, true, up, events[1..]));
      }
    }
  }
}
