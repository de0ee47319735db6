/** The other direction: a linked server stream receives exactly the payloads its owner
    framed with its number, in order, then at most one close. */
module ControlReturns {
  import opened Wrappers
  import opened Bytes
  import opened JsMaps
  import opened ControlClient
  import opened ControlInvariant
  import opened ControlPipes

  /** The data and close messages among `effects` that go to stream `s`. */
  function To(effects: seq<Effect>, s: StreamId): seq<Effect> {
    if effects == [] then []
    else (if IsFor(effects[0], s) then [effects[0]] else []) + To(effects[1..], s)
  }

  predicate IsFor(e: Effect, s: StreamId) {
    (e.SendData? || e.SendClose?) && e.s == s
  }

  /** What stream `s` receives for as long as it is linked. */
  function ServerView(wd: World, s: StreamId, events: seq<Event>): seq<Effect>
    decreases |events|
  {
    if events == [] || s !in wd.st.links then []
    else To(Step(wd.st, events[0]).1, s) + ServerView(Next(wd, events[0]), s, events[1..])
  }

  function Answer(s: StreamId, o: nat, data: bytes): seq<Effect> {
    var f := DecodeFrame(data);
    if s == "" || f.None? || f.value.id != o then []
    else if f.value.kind == STREAM_DATA then [SendData(s, f.value.payload)]
    else if f.value.kind == STREAM_END then [SendClose(s, "target closed")]
    else if f.value.kind == STREAM_RESET then [SendClose(s, "target reset")]
    else []
  }

  /** The pipe from number `o` of owner stream `w` back to server stream `s`, without tables. */
  function BackOut(s: StreamId, w: StreamId, o: nat, events: seq<Event>): seq<Effect> {
    if events == [] then []
    else match events[0]
      case Data(x, data) =>
        if x == w then
          Answer(s, o, data) + if s != "" && Ends(data, o) then [] else BackOut(s, w, o, events[1..])
        else BackOut(s, w, o, events[1..])
      case Close(x) =>
        if x == w then [SendClose(s, "tunnel owner closed")]
        else if x == s && o <= U32_MAX then []
        else BackOut(s, w, o, events[1..])
      case SocketDropped => []
      case TunnelClosed => []
      case _ => BackOut(s, w, o, events[1..])
  }

  function StepAnswers(st: State, s: StreamId, w: StreamId, o: nat, ev: Event): seq<Effect> {
    if !st.connected then []
    else match ev
      case Data(x, data) => if x == w then Answer(s, o, data) else []
      case Close(x) => if x == w then [SendClose(s, "tunnel owner closed")] else []
      case _ => []
  }

  lemma NothingFor(effects: seq<Effect>, s: StreamId)
    requires forall e :: e in effects ==> !IsFor(e, s)
    ensures To(effects, s) == []
  {
  }

  lemma SentFrameIsFor(st: State, x: StreamId, kind: byte, id: nat, payload: bytes, s: StreamId)
    requires x != s
    ensures To(SendFrame(st, x, kind, id, payload), s) == []
  {
    NothingFor(SendFrame(st, x, kind, id, payload), s);
  }

  lemma {:induction false} CloseAllFor(ids: seq<StreamId>, s: StreamId)
    requires NoDup(ids)
    ensures To(CloseAll(ids), s) == if s in ids then [SendClose(s, "tunnel owner closed")] else []
  {
    if ids != [] { CloseAllFor(ids[1..], s); }
  }

  lemma AnswersToOwnerData(wd: World, tunnel: TunnelId, w: StreamId, s: StreamId, o: nat, from: StreamId, data: bytes)
    requires Tables(wd.st) && KindsAgree(wd)
    requires OwnerIs(wd, tunnel, w) && OwnsStream(wd, from) && IsLink(wd.st, s, tunnel, o)
    ensures To(OnOwnerData(wd.st, wd.env.kind[from].tunnel, data).1, s) ==
            StepAnswers(wd.st, s, w, o, Data(from, data))
  {
    var t := wd.env.kind[from].tunnel;
    var owner := wd.st.owners.at[t];
    assert OpenedAs(wd.env, s, KLinked);
    SentFrameIsFor(wd.st, owner.streamId, PONG, 0, [], s);
    LinkedOwnerLives(wd.st, s);
    assert Bijection(owner);
    var f := DecodeFrame(data);
    if f.Some? && f.value.id in owner.ownerToServer {
      assert Linked(wd.st, owner.ownerToServer[f.value.id], t, f.value.id);
    }
  }

  lemma AnswersToData(wd: World, tunnel: TunnelId, w: StreamId, s: StreamId, o: nat, x: StreamId, data: bytes)
    requires Shape(wd) && OwnerIs(wd, tunnel, w) && IsLink(wd.st, s, tunnel, o)
    ensures To(OnData(wd.st, x, data).1, s) == StepAnswers(wd.st, s, w, o, Data(x, data))
  {
    OwnerFound(wd, x);
    if OwnsStream(wd, x) {
      AnswersToOwnerData(wd, tunnel, w, s, o, x, data);
    } else if x in wd.st.links {
      LinkedOwnerLives(wd.st, x);
      var Link(t, id) := wd.st.links[x];
      assert OpenedAs(wd.env, wd.st.owners.at[t].streamId, KOwner(t)) && OpenedAs(wd.env, s, KLinked);
      SentFrameIsFor(wd.st, wd.st.owners.at[t].streamId, STREAM_DATA, id, data, s);
    }
  }

  lemma AnswersToOwnerClose(st: State, tunnel: TunnelId, w: StreamId, s: StreamId, o: nat, t: TunnelId, x: StreamId)
    requires Tables(st) && IsLink(st, s, tunnel, o) && t in st.owners.at
    requires NoDup(st.owners.at[t].serverToOwner.order)
    requires forall k :: k in st.owners.at[t].serverToOwner.order <==> k in st.owners.at[t].serverToOwner.at
    requires t == tunnel <==> x == w
    ensures To(OnOwnerClose(st, t, x).1, s) == StepAnswers(st, s, w, o, Close(x))
  {
    var servers := st.owners.at[t].serverToOwner;
    LinkedOwnerLives(st, s);
    CloseAllFor(servers.order, s);
    if s in servers.order { assert Linked(st, s, t, servers.at[s]); }
  }

  lemma AnswersToClose(wd: World, tunnel: TunnelId, w: StreamId, s: StreamId, o: nat, x: StreamId)
    requires Shape(wd) && OwnerIs(wd, tunnel, w) && IsLink(wd.st, s, tunnel, o)
    ensures To(OnClose(wd.st, x).1, s) == StepAnswers(wd.st, s, w, o, Close(x))
  {
    CloseDispatch(wd, x);
    if OwnsStream(wd, x) {
      AnswersToOwnerClose(wd.st, tunnel, w, s, o, wd.env.kind[x].tunnel, x);
    } else if x in wd.st.links {
      LinkedOwnerLives(wd.st, x);
      var Link(t, id) := wd.st.links[x];
      assert OpenedAs(wd.env, wd.st.owners.at[t].streamId, KOwner(t)) && OpenedAs(wd.env, s, KLinked);
      SentFrameIsFor(wd.st, wd.st.owners.at[t].streamId, STREAM_RESET, id, [], s);
    } else {
      NothingFor(OnLeafClose(wd.st, x).1, s);
    }
  }

  lemma AnswersToOpen(wd: World, s: StreamId, ev: Event)
    requires KindsAgree(wd) && s in wd.st.links && ev.OpenLinked? && Allowed(wd, ev)
    ensures To(Step(wd.st, ev).1, s) == []
  {
    assert OpenedAs(wd.env, s, KLinked);
    if ev.tunnel in wd.st.owners.at {
      var owner := wd.st.owners.at[ev.tunnel];
      assert OpenedAs(wd.env, owner.streamId, KOwner(ev.tunnel));
      SentFrameIsFor(wd.st, owner.streamId, STREAM_OPEN, owner.nextStreamId, ev.initial, s);
    }
  }

  lemma AnswersOfStep(wd: World, tunnel: TunnelId, w: StreamId, s: StreamId, o: nat, ev: Event)
    requires Inv(wd) && Allowed(wd, ev) && OwnerIs(wd, tunnel, w) && IsLink(wd.st, s, tunnel, o)
    ensures To(Step(wd.st, ev).1, s) == StepAnswers(wd.st, s, w, o, ev)
  {
    assert OpenedAs(wd.env, s, KLinked);
    match ev
    case OpenLinked(_, _, _) => AnswersToOpen(wd, s, ev);
    case Data(x, data) => AnswersToData(wd, tunnel, w, s, o, x, data);
    case Close(x) => AnswersToClose(wd, tunnel, w, s, o, x);
    case _ => NothingFor(Step(wd.st, ev).1, s);
  }

  /** Once unlinked, or once the socket is gone, a stream receives nothing in this role. */
  lemma {:induction false} DisconnectedReceivesNothing(
      wd: World, tunnel: TunnelId, w: StreamId, s: StreamId, o: nat, events: seq<Event>)
    requires Inv(wd) && AllowedRun(wd, events) && OwnerIs(wd, tunnel, w)
    requires !wd.st.connected && IsLink(wd.st, s, tunnel, o)
    ensures ServerView(wd, s, events) == []
    decreases |events|
  {
    if events != [] {
      var ev := events[0];
      AnswersOfStep(wd, tunnel, w, s, o, ev);
      StepKeeps(wd, ev);
      if ev == Close(w) || ev.TunnelClosed? {
        UnlinkedByOwner(wd, tunnel, w, s, o, ev);
      } else {
        StepEvolves(wd, tunnel, w, s, o, ev);
        OwnerStays(wd, tunnel, w, ev);
        ConnectedAfter(wd.st, ev);
        if Breaks(s, w, o, ev) {
          LinkGone(wd, tunnel, w, s, o, ev);
        } else {
          DisconnectedReceivesNothing(Next(wd, ev), tunnel, w, s, o, events[1..]);
        }
      }
    }
  }

  lemma UnlinkedByOwner(wd: World, tunnel: TunnelId, w: StreamId, s: StreamId, o: nat, ev: Event)
    requires Shape(wd) && OwnerIs(wd, tunnel, w) && IsLink(wd.st, s, tunnel, o)
    requires ev == Close(w) || ev.TunnelClosed?
    ensures s !in Next(wd, ev).st.links
  {
    CloseDispatch(wd, w);
    LinkedOwnerLives(wd.st, s);
  }

  /** A stream that loses its link is in no link at all: links never change their owner. */
  lemma LinkGone(wd: World, tunnel: TunnelId, w: StreamId, s: StreamId, o: nat, ev: Event)
    requires Inv(wd) && OwnerIs(wd, tunnel, w) && IsLink(wd.st, s, tunnel, o)
    requires Breaks(s, w, o, ev)
    ensures s !in Next(wd, ev).st.links
  {
    assert OpenedAs(wd.env, s, KLinked);
    LinkedOwnerLives(wd.st, s);
    if ev == Close(s) && o <= U32_MAX {
      CloseDispatch(wd, s);
    } else {
      OwnerFound(wd, w);
      assert Bijection(wd.st.owners.at[tunnel]);
    }
  }

  lemma BackHead(st: State, s: StreamId, w: StreamId, o: nat, events: seq<Event>)
    requires events != [] && st.connected && s != w
    ensures BackOut(s, w, o, events) ==
            StepAnswers(st, s, w, o, events[0]) +
            if Breaks(s, w, o, events[0]) || events[0] == Close(w) || Drops(events[0]) then []
            else BackOut(s, w, o, events[1..])
  {
  }

  /** Main result: a linked stream receives exactly its return pipe. */
  lemma {:induction false} LinkedReceivesPipe(
      wd: World, tunnel: TunnelId, w: StreamId, s: StreamId, o: nat, events: seq<Event>)
    requires Inv(wd) && AllowedRun(wd, events) && OwnerIs(wd, tunnel, w)
    requires wd.st.connected && IsLink(wd.st, s, tunnel, o)
    ensures ServerView(wd, s, events) == BackOut(s, w, o, events)
    decreases |events|
  {
    if events != [] {
      var ev := events[0];
      assert OpenedAs(wd.env, s, KLinked);
      AnswersOfStep(wd, tunnel, w, s, o, ev);
      BackHead(wd.st, s, w, o, events);
      StepKeeps(wd, ev);
      if ev == Close(w) || ev.TunnelClosed? {
        UnlinkedByOwner(wd, tunnel, w, s, o, ev);
      } else {
        StepEvolves(wd, tunnel, w, s, o, ev);
        OwnerStays(wd, tunnel, w, ev);
        ConnectedAfter(wd.st, ev);
        if Breaks(s, w, o, ev) {
          LinkGone(wd, tunnel, w, s, o, ev);
        } else if Drops(ev) {
          DisconnectedReceivesNothing(Next(wd, ev), tunnel, w, s, o, events[1..]);
        } else {
          LinkedReceivesPipe(Next(wd, ev), tunnel, w, s, o, events[1..]);
        }
      }
    }
  }

  // ---------- Ids outside the public tunnels ----------

  /** If the id was opened at all, then neither as an owner nor as a linked stream. */
  predicate Untunnelled(env: Env, s: StreamId) {
    s in env.kind ==> !env.kind[s].KOwner? && !env.kind[s].KLinked?
  }

  lemma DataIsSilent(w: World, x: StreamId, data: bytes, s: StreamId)
    requires Inv(w) && Untunnelled(w.env, s)
    ensures To(OnData(w.st, x, data).1, s) == []
  {
    OwnerFound(w, x);
    if OwnsStream(w, x) {
      OwnerDataIsSilent(w, w.env.kind[x].tunnel, data, s);
    } else if x in w.st.links {
      LinkedOwnerLives(w.st, x);
      var Link(t, id) := w.st.links[x];
      assert OpenedAs(w.env, w.st.owners.at[t].streamId, KOwner(t));
      SentFrameIsFor(w.st, w.st.owners.at[t].streamId, STREAM_DATA, id, data, s);
    }
  }

  lemma OwnerDataIsSilent(w: World, t: TunnelId, data: bytes, s: StreamId)
    requires Inv(w) && Untunnelled(w.env, s) && t in w.st.owners.at
    ensures To(OnOwnerData(w.st, t, data).1, s) == []
  {
    var owner := w.st.owners.at[t];
    assert OpenedAs(w.env, owner.streamId, KOwner(t)) && Bijection(owner);
    SentFrameIsFor(w.st, owner.streamId, PONG, 0, [], s);
    var f := DecodeFrame(data);
    if f.Some? && f.value.id in owner.ownerToServer {
      var x := owner.ownerToServer[f.value.id];
      assert Linked(w.st, x, t, f.value.id);
      assert OpenedAs(w.env, x, KLinked);
    }
  }

  lemma CloseIsSilent(w: World, x: StreamId, s: StreamId)
    requires Inv(w) && Untunnelled(w.env, s)
    ensures To(OnClose(w.st, x).1, s) == []
  {
    CloseDispatch(w, x);
    if OwnsStream(w, x) {
      var t := w.env.kind[x].tunnel;
      var servers := w.st.owners.at[t].serverToOwner;
      CloseAllFor(servers.order, s);
      if s in servers.order {
        assert Linked(w.st, s, t, servers.at[s]);
      }
    } else if x in w.st.links {
      LinkedOwnerLives(w.st, x);
      var Link(t, id) := w.st.links[x];
      assert OpenedAs(w.env, w.st.owners.at[t].streamId, KOwner(t));
      SentFrameIsFor(w.st, w.st.owners.at[t].streamId, STREAM_RESET, id, [], s);
    } else {
      NothingFor(OnLeafClose(w.st, x).1, s);
    }
  }
}
