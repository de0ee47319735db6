/** The multiplexer and the data-plane sessions that run inside it: what the tunnel passes to
    a session, and what the session sends on its stream id. */
module ControlSessions {
  import opened Wrappers
  import opened Bytes
  import opened JsMaps
  import opened ControlClient
  import opened ControlInvariant
  import opened ControlPipes
  import opened ControlReturns
  import Stream = DataPlaneStream
  import Session = DataPlaneSession

  /** `log` is everything the multiplexer did so far. */
  datatype Host = Host(w: World, sessions: map<StreamId, Session.Session>, log: seq<Effect>)

  const NEW_HOST := Host(START, map[], [])

  /** A message, socket or session event of the multiplexer; or the session of a stream goes on
      after an await. */
  datatype Happening = Mux(ev: Event) | Resume(s: StreamId, result: Option<bytes>)

  predicate FromSession(ev: Event) { ev.DataPlaneSends? || ev.DataPlaneCloses? || ev.DataPlaneDone? }

  /** What a session sends reaches the multiplexer only through its hooks. */
  predicate Enabled(n: Host, h: Happening) {
    match h
    case Mux(ev) => Allowed(n.w, ev) && !FromSession(ev)
    case Resume(s, _) => s in n.sessions
  }

  /** What one effect means to the sessions. */
  function Tell(sessions: map<StreamId, Session.Session>, e: Effect): map<StreamId, Session.Session> {
    match e
    case PushDataPlane(s, data) =>
      if s in sessions then sessions[s := Session.Step(sessions[s], Session.PushEvent(data))] else sessions
    case FailDataPlane(s) =>
      if s in sessions then sessions[s := Session.Step(sessions[s], Session.FailEvent("client stream closed"))]
      else sessions
    case TearDown(_, streams) =>
      map s | s in sessions ::
        if s in streams then Session.Step(sessions[s], Session.FailEvent("connection closed")) else sessions[s]
    case _ => sessions
  }

  function TellAll(sessions: map<StreamId, Session.Session>, effects: seq<Effect>): map<StreamId, Session.Session> {
    if effects == [] then sessions else TellAll(Tell(sessions, effects[0]), effects[1..])
  }

  function EventOf(s: StreamId, o: Stream.Output): Event {
    match o
    case SentData(data) => DataPlaneSends(s, data)
    case SentClose(reason) => DataPlaneCloses(s, reason)
    case Done => DataPlaneDone(s)
  }

  function EmitOne(n: Host, s: StreamId, o: Stream.Output): Host {
    n.(w := ControlInvariant.Next(n.w, EventOf(s, o)), log := n.log + Step(n.w.st, EventOf(s, o)).1)
  }

  function Emit(n: Host, s: StreamId, outs: seq<Stream.Output>): Host
    decreases |outs|
  {
    if outs == [] then n else Emit(EmitOne(n, s, outs[0]), s, outs[1..])
  }

  /** The outputs of one step of a session. */
  function Outs(x: Session.Session, result: Option<bytes>): seq<Stream.Output> {
    var before, after := x.s.out, Session.Continue(x, result).s.out;
    if |before| <= |after| then after[|before|..] else []
  }

  function NextHost(n: Host, h: Happening): Host
    requires Enabled(n, h)
  {
    match h
    case Mux(ev) =>
      var effects := Step(n.w.st, ev).1;
      var started := if ev.OpenDataPlane? then n.sessions[ev.s := Session.NEW_SESSION] else n.sessions;
      Host(ControlInvariant.Next(n.w, ev), TellAll(started, effects), n.log + effects)
    case Resume(s, result) =>
      var x := n.sessions[s];
      Emit(n.(sessions := n.sessions[s := Session.Continue(x, result)]), s, Outs(x, result))
  }

  ghost predicate Legal(n: Host, hs: seq<Happening>)
    decreases |hs|
  {
    hs == [] || (Enabled(n, hs[0]) && Legal(NextHost(n, hs[0]), hs[1..]))
  }

  ghost function Run(n: Host, hs: seq<Happening>): Host
    requires Legal(n, hs)
    decreases |hs|
  {
    if hs == [] then n else Run(NextHost(n, hs[0]), hs[1..])
  }

  // ---------- What goes out on one id ----------

  function CloseCount(effects: seq<Effect>): nat {
    if effects == [] then 0 else (if effects[0].SendClose? then 1 else 0) + CloseCount(effects[1..])
  }

  /** A session's outputs as messages on its id. */
  function Messages(out: seq<Stream.Output>, s: StreamId): seq<Effect> {
    if out == [] then []
    else
      Messages(out[..|out| - 1], s) + MessageOf(out[|out| - 1], s)
  }

  function MessageOf(o: Stream.Output, s: StreamId): seq<Effect> {
    match o
    case SentData(data) => [SendData(s, data)]
    case SentClose(reason) => [SendClose(s, reason)]
    case Done => []
  }

  lemma {:induction false} ToConcat(a: seq<Effect>, b: seq<Effect>, s: StreamId)
    ensures To(a + b, s) == To(a, s) + To(b, s)
  {
    if a == [] {
      assert a + b == b;
    } else {
      assert (a + b)[1..] == a[1..] + b;
      ToConcat(a[1..], b, s);
    }
  }

  lemma {:induction false} CloseCountConcat(a: seq<Effect>, b: seq<Effect>)
    ensures CloseCount(a + b) == CloseCount(a) + CloseCount(b)
  {
    if a == [] {
      assert a + b == b;
    } else {
      assert (a + b)[1..] == a[1..] + b;
      CloseCountConcat(a[1..], b);
    }
  }

  lemma {:induction false} MessagesConcat(a: seq<Stream.Output>, b: seq<Stream.Output>, s: StreamId)
    ensures Messages(a + b, s) == Messages(a, s) + Messages(b, s)
  {
    if b == [] {
      assert a + b == a;
    } else {
      assert (a + b)[..|a + b| - 1] == a + b[..|b| - 1];
      MessagesConcat(a, b[..|b| - 1], s);
    }
  }

  lemma {:induction false} MessagesClose(out: seq<Stream.Output>, s: StreamId)
    ensures CloseCount(Messages(out, s)) == Stream.Closes(out)
  {
    if out != [] {
      MessagesClose(out[..|out| - 1], s);
      CloseCountConcat(Messages(out[..|out| - 1], s), Messages([out[|out| - 1]], s));
      MessagesConcat(out[..|out| - 1], [out[|out| - 1]], s);
      assert out == out[..|out| - 1] + [out[|out| - 1]];
    }
  }

  // ---------- The multiplexer leaves the ids of sessions alone ----------

  /** If the id was opened at all, then as a data-plane stream. */
  predicate NotItsOwn(env: Env, s: StreamId) { s in env.kind ==> env.kind[s] == KDataPlane }

  /** Besides what a session sends, only replies to session messages go out on such an id. */
  lemma MuxIsSilent(w: World, ev: Event, s: StreamId)
    requires Inv(w) && Allowed(w, ev) && !FromSession(ev) && NotItsOwn(NextEnv(w, ev), s) && NotItsOwn(w.env, s)
    requires ev.SessionReplies? ==> ev.s != s
    ensures To(Step(w.st, ev).1, s) == []
  {
    match ev
    case OpenLinked(x, tunnel, initial) =>
      if tunnel in w.st.owners.at {
        var owner := w.st.owners.at[tunnel];
        assert OpenedAs(w.env, owner.streamId, KOwner(tunnel));
        SentFrameIsFor(w.st, owner.streamId, STREAM_OPEN, owner.nextStreamId, initial, s);
      }
    case Data(x, data) => DataIsSilent(w, x, data, s);
    case Close(x) => CloseIsSilent(w, x, s);
    case _ => NothingFor(Step(w.st, ev).1, s);
  }

  // ---------- What the multiplexer tells the sessions ----------

  predicate Quiet(e: Effect) { !e.PushDataPlane? && !e.FailDataPlane? && !e.TearDown? }

  lemma {:induction false} QuietTellsNothing(sessions: map<StreamId, Session.Session>, effects: seq<Effect>)
    requires forall e :: e in effects ==> Quiet(e)
    ensures TellAll(sessions, effects) == sessions
  {
    if effects != [] {
      assert Quiet(effects[0]);
      QuietTellsNothing(sessions, effects[1..]);
    }
  }

  lemma {:induction false} CloseAllIsQuiet(ids: seq<StreamId>)
    ensures forall e :: e in CloseAll(ids) ==> Quiet(e)
  {
    if ids != [] { CloseAllIsQuiet(ids[1..]); }
  }

  lemma OwnerDataIsQuiet(st: State, t: TunnelId, data: bytes)
    requires t in st.owners.at
    ensures forall e :: e in OnOwnerData(st, t, data).1 ==> Quiet(e)
  {
  }

  lemma DataTells(w: World, x: StreamId, data: bytes)
    requires Inv(w)
    ensures var out := OnData(w.st, x, data).1;
            if x in w.st.dataPlane then out == [PushDataPlane(x, data)] else forall e :: e in out ==> Quiet(e)
  {
    OwnerFound(w, x);
    if x in w.st.dataPlane {
      assert OpenedAs(w.env, x, KDataPlane);
    } else if OwnsStream(w, x) {
      OwnerDataIsQuiet(w.st, w.env.kind[x].tunnel, data);
    }
  }

  lemma CloseTells(w: World, x: StreamId)
    requires Inv(w)
    ensures var out := OnClose(w.st, x).1;
            if x in w.st.dataPlane then out == [FailDataPlane(x)] else forall e :: e in out ==> Quiet(e)
  {
    CloseDispatch(w, x);
    if x in w.st.dataPlane {
      assert OpenedAs(w.env, x, KDataPlane);
    } else if OwnsStream(w, x) {
      CloseAllIsQuiet(w.st.owners.at[w.env.kind[x].tunnel].serverToOwner.order);
    }
  }

  /** What an event of the multiplexer does to the sessions, told by its table. */
  function Heard(sessions: map<StreamId, Session.Session>, table: set<StreamId>, ev: Event)
    : map<StreamId, Session.Session>
  {
    match ev
    case OpenDataPlane(s) => sessions[s := Session.NEW_SESSION]
    case Data(s, data) => if s in table then Tell(sessions, PushDataPlane(s, data)) else sessions
    case Close(s) => if s in table then Tell(sessions, FailDataPlane(s)) else sessions
    case TunnelClosed => Tell(sessions, TearDown({}, table))
    case _ => sessions
  }

  lemma TearDownTells(sessions: map<StreamId, Session.Session>, sockets: set<StreamId>, streams: set<StreamId>)
    ensures TellAll(sessions, [TearDown(sockets, streams)]) == Tell(sessions, TearDown({}, streams))
  {
    var e := TearDown(sockets, streams);
    assert [e][1..] == [];
    assert Tell(sessions, e) == Tell(sessions, TearDown({}, streams));
  }

  lemma DataHeard(w: World, sessions: map<StreamId, Session.Session>, x: StreamId, data: bytes)
    requires Inv(w)
    ensures TellAll(sessions, OnData(w.st, x, data).1) == Heard(sessions, w.st.dataPlane, Data(x, data))
  {
    DataTells(w, x, data);
    if x in w.st.dataPlane {
      OneTold(sessions, PushDataPlane(x, data));
    } else {
      QuietTellsNothing(sessions, OnData(w.st, x, data).1);
    }
  }

  lemma CloseHeard(w: World, sessions: map<StreamId, Session.Session>, x: StreamId)
    requires Inv(w)
    ensures TellAll(sessions, OnClose(w.st, x).1) == Heard(sessions, w.st.dataPlane, Close(x))
  {
    CloseTells(w, x);
    if x in w.st.dataPlane {
      OneTold(sessions, FailDataPlane(x));
    } else {
      QuietTellsNothing(sessions, OnClose(w.st, x).1);
    }
  }

  lemma OneTold(sessions: map<StreamId, Session.Session>, e: Effect)
    ensures TellAll(sessions, [e]) == Tell(sessions, e)
  {
    assert [e][1..] == [];
  }

  lemma OthersAreQuiet(st: State, ev: Event)
    requires !ev.Data? && !ev.Close? && !ev.TunnelClosed?
    ensures forall e :: e in Step(st, ev).1 ==> Quiet(e)
  {
  }

  lemma MuxTells(n: Host, ev: Event)
    requires Inv(n.w) && Enabled(n, Mux(ev))
    ensures NextHost(n, Mux(ev)).sessions == Heard(n.sessions, n.w.st.dataPlane, ev)
  {
    match ev
    case Data(x, data) => DataHeard(n.w, n.sessions, x, data);
    case Close(x) => CloseHeard(n.w, n.sessions, x);
    case TunnelClosed => TearDownTells(n.sessions, n.w.st.raw, n.w.st.dataPlane);
    case OpenDataPlane(_) =>
    case _ =>
      OthersAreQuiet(n.w.st, ev);
      QuietTellsNothing(n.sessions, Step(n.w.st, ev).1);
  }

  // ---------- What a session's outputs do to the multiplexer ----------

  ghost predicate SameButTable(n: Host, m: Host, table: set<StreamId>) {
    && m.w.env == n.w.env && m.sessions == n.sessions
    && m.w.st.connected == n.w.st.connected && m.w.st.dataPlane == table
  }

  lemma EmitOneKeeps(n: Host, s: StreamId, o: Stream.Output)
    requires Inv(n.w) && OpenedAs(n.w.env, s, KDataPlane)
    ensures Inv(EmitOne(n, s, o).w)
    ensures SameButTable(n, EmitOne(n, s, o), n.w.st.dataPlane - if o.Done? then {s} else {})
  {
    StepKeeps(n.w, EventOf(s, o));
  }

  lemma {:induction false} EmitKeeps(n: Host, s: StreamId, outs: seq<Stream.Output>)
    requires Inv(n.w) && OpenedAs(n.w.env, s, KDataPlane)
    ensures Inv(Emit(n, s, outs).w)
    ensures SameButTable(n, Emit(n, s, outs), n.w.st.dataPlane - if Stream.Done in outs then {s} else {})
    decreases |outs|
  {
    if outs != [] {
      EmitOneKeeps(n, s, outs[0]);
      EmitKeeps(EmitOne(n, s, outs[0]), s, outs[1..]);
      FirstOutput(outs, s);
    }
  }

  /** What `Emit` adds to the log, for one id. */
  lemma {:induction false} EmitLogs(n: Host, s: StreamId, outs: seq<Stream.Output>, x: StreamId)
    ensures To(Emit(n, s, outs).log, x) == To(n.log, x) + Shown(n.w.st.connected && x == s, outs, s)
    decreases |outs|
  {
    if outs != [] {
      var m := EmitOne(n, s, outs[0]);
      EmitOneLogs(n, s, outs[0], x);
      EmitLogs(m, s, outs[1..], x);
      FirstOutput(outs, s);
      var shown := n.w.st.connected && x == s;
      Assoc(To(n.log, x), Shown(shown, [outs[0]], s), Shown(shown, outs[1..], s));
    }
  }

  function Shown(shown: bool, outs: seq<Stream.Output>, s: StreamId): seq<Effect> {
    if shown then Messages(outs, s) else []
  }

  lemma Assoc(a: seq<Effect>, b: seq<Effect>, c: seq<Effect>)
    ensures (a + b) + c == a + (b + c)
  {
  }

  lemma EmitOneLogs(n: Host, s: StreamId, o: Stream.Output, x: StreamId)
    ensures EmitOne(n, s, o).w.st.connected == n.w.st.connected
    ensures To(EmitOne(n, s, o).log, x) == To(n.log, x) + Shown(n.w.st.connected && x == s, [o], s)
  {
    OneOutput(n.w.st, s, o);
    ToConcat(n.log, Step(n.w.st, EventOf(s, o)).1, x);
  }

  lemma OneOutput(st: State, s: StreamId, o: Stream.Output)
    ensures To(Step(st, EventOf(s, o)).1, s) == if st.connected then Messages([o], s) else []
    ensures forall x :: x != s ==> To(Step(st, EventOf(s, o)).1, x) == []
  {
    assert [o][..0] == [];
  }

  lemma FirstOutput(outs: seq<Stream.Output>, s: StreamId)
    requires outs != []
    ensures Messages(outs, s) == Messages([outs[0]], s) + Messages(outs[1..], s)
    ensures Stream.Done in outs <==> outs[0] == Stream.Done || Stream.Done in outs[1..]
  {
    MessagesConcat([outs[0]], outs[1..], s);
    assert outs == [outs[0]] + outs[1..];
  }

  /** Neither finished nor failed. */
  predicate Live(x: Session.Session) { !x.pc.Ended? && x.s.failure.None? }

  lemma OutsOfContinue(x: Session.Session, result: Option<bytes>)
    requires Session.Inv(x)
    ensures var y := Session.Continue(x, result);
            && Session.Inv(y) && y.s.out == x.s.out + Outs(x, result) && y.s.failure == x.s.failure
            && (x.pc.Ended? ==> y == x)
            && (Stream.Done in Outs(x, result) <==> y.pc.Ended? && !x.pc.Ended?)
  {
    Session.ContinueKeeps(x, result);
    ContinueAppends(x, result);
    DoneInOuts(x.s.out, Outs(x, result));
  }

  lemma ContinueAppends(x: Session.Session, result: Option<bytes>)
    ensures var y := Session.Continue(x, result);
            y.s.out == x.s.out + Outs(x, result) && y.s.failure == x.s.failure && (x.pc.Ended? ==> y == x)
  {
    assert x.s.out == x.s.out + [];
  }

  lemma {:induction false} DoneInOuts(out: seq<Stream.Output>, more: seq<Stream.Output>)
    ensures Session.Dones(out + more) >= Session.Dones(out)
    ensures Stream.Done in more <==> Session.Dones(out + more) > Session.Dones(out)
  {
    if more == [] {
      assert out + more == out;
    } else {
      var last := |more| - 1;
      DoneInOuts(out, more[..last]);
      Session.OutAppend(out + more[..last], more[last]);
      assert out + more == out + more[..last] + [more[last]];
      assert more == more[..last] + [more[last]];
    }
  }

  // ---------- The invariant ----------

  ghost predicate SessionsAre(ids: set<StreamId>, env: Env) {
    forall s :: s in ids <==> OpenedAs(env, s, KDataPlane)
  }

  ghost predicate LiveInTable(sessions: map<StreamId, Session.Session>, table: set<StreamId>) {
    forall s :: s in sessions ==> Session.Inv(sessions[s]) && (s in table <==> Live(sessions[s]))
  }

  /** A session for each data-plane stream ever opened; the table holds the live ones. */
  ghost predicate TableIsLive(n: Host) {
    SessionsAre(n.sessions.Keys, n.w.env) && LiveInTable(n.sessions, n.w.st.dataPlane)
  }

  /** What went out on an id is what its session sent, while the socket was there; `ran` says
      that the id had a session message run, so that replies to it went out as well. */
  ghost predicate SentIsHeard(heard: seq<Effect>, sent: seq<Effect>, connected: bool, ran: bool) {
    && CloseCount(heard) <= CloseCount(sent) && (connected ==> CloseCount(heard) == CloseCount(sent))
    && (!ran ==> heard <= sent && (connected ==> heard == sent))
  }

  ghost predicate NothingHeard(heard: seq<Effect>, ran: bool) { CloseCount(heard) == 0 && (!ran ==> heard == []) }

  ghost predicate LogOf(n: Host, s: StreamId) {
    && (s in n.sessions ==>
          SentIsHeard(To(n.log, s), Messages(n.sessions[s].s.out, s), n.w.st.connected, s in n.w.env.ran))
    && (s !in n.w.env.kind ==> NothingHeard(To(n.log, s), s in n.w.env.ran))
  }

  ghost predicate LogIsOutputs(n: Host) { forall s :: LogOf(n, s) }

  ghost predicate HostInv(n: Host) { Inv(n.w) && TableIsLive(n) && LogIsOutputs(n) }

  lemma NewHostHolds()
    ensures HostInv(NEW_HOST)
  {
    StartHolds();
  }

  // ---------- Steps of the multiplexer ----------

  function TableAfter(table: set<StreamId>, ev: Event): set<StreamId> {
    match ev
    case OpenDataPlane(s) => table + {s}
    case Close(s) => table - {s}
    case TunnelClosed => {}
    case _ => table
  }

  lemma TableOfStep(w: World, ev: Event)
    requires Inv(w) && !FromSession(ev)
    ensures Step(w.st, ev).0.dataPlane == TableAfter(w.st.dataPlane, ev)
  {
    match ev
    case Close(s) => TableOfClose(w, s);
    case Data(s, data) => TableOfData(w.st, s, data);
    case _ =>
  }

  lemma TableOfClose(w: World, s: StreamId)
    requires Inv(w)
    ensures OnClose(w.st, s).0.dataPlane == w.st.dataPlane - {s}
  {
    CloseDispatch(w, s);
    if s in w.st.dataPlane { assert OpenedAs(w.env, s, KDataPlane); }
  }

  lemma TableOfData(st: State, s: StreamId, data: bytes)
    ensures OnData(st, s, data).0.dataPlane == st.dataPlane
  {
  }

  lemma PushKeepsLive(x: Session.Session, data: bytes)
    requires Session.Inv(x)
    ensures var y := Session.Step(x, Session.PushEvent(data)); Session.Inv(y) && Live(y) == Live(x)
  {
    Session.PushKeeps(x, data);
  }

  lemma FailEndsLive(x: Session.Session, reason: string)
    requires Session.Inv(x)
    ensures var y := Session.Step(x, Session.FailEvent(reason)); Session.Inv(y) && !Live(y)
  {
    Session.FailKeeps(x, reason);
  }

  lemma HeardKeepsLive(sessions: map<StreamId, Session.Session>, table: set<StreamId>, ev: Event)
    requires LiveInTable(sessions, table) && table <= sessions.Keys
    ensures LiveInTable(Heard(sessions, table, ev), TableAfter(table, ev))
    ensures Heard(sessions, table, ev).Keys == sessions.Keys + if ev.OpenDataPlane? then {ev.s} else {}
  {
    if ev.OpenDataPlane? {
      StartKeepsLive(sessions, table, ev.s);
    } else if ev.Data? {
      DataKeepsLive(sessions, table, ev.s, ev.data);
    } else if ev.Close? {
      CloseKeepsLive(sessions, table, ev.s);
    } else if ev.TunnelClosed? {
      TearDownKeepsLive(sessions, table);
    }
  }

  lemma StartKeepsLive(sessions: map<StreamId, Session.Session>, table: set<StreamId>, s: StreamId)
    requires LiveInTable(sessions, table)
    ensures LiveInTable(sessions[s := Session.NEW_SESSION], table + {s})
    ensures sessions[s := Session.NEW_SESSION].Keys == sessions.Keys + {s}
  {
    Session.StartInv();
    OneLive(sessions, table, s, Session.NEW_SESSION);
  }

  lemma DataKeepsLive(sessions: map<StreamId, Session.Session>, table: set<StreamId>, s: StreamId, data: bytes)
    requires LiveInTable(sessions, table) && table <= sessions.Keys
    ensures LiveInTable(Heard(sessions, table, Data(s, data)), table)
    ensures Heard(sessions, table, Data(s, data)).Keys == sessions.Keys
  {
    if s in table {
      PushKeepsLive(sessions[s], data);
      OneLive(sessions, table, s, Session.Step(sessions[s], Session.PushEvent(data)));
      assert table + {s} == table;
    }
  }

  lemma CloseKeepsLive(sessions: map<StreamId, Session.Session>, table: set<StreamId>, s: StreamId)
    requires LiveInTable(sessions, table) && table <= sessions.Keys
    ensures LiveInTable(Heard(sessions, table, Close(s)), table - {s})
    ensures Heard(sessions, table, Close(s)).Keys == sessions.Keys
  {
    if s in table {
      FailEndsLive(sessions[s], "client stream closed");
      OneLive(sessions, table, s, Session.Step(sessions[s], Session.FailEvent("client stream closed")));
    } else {
      assert table - {s} == table;
    }
  }

  /** Replacing or adding one session. */
  lemma OneLive(sessions: map<StreamId, Session.Session>, table: set<StreamId>, s: StreamId, x: Session.Session)
    requires LiveInTable(sessions, table) && Session.Inv(x)
    ensures LiveInTable(sessions[s := x], if Live(x) then table + {s} else table - {s})
    ensures sessions[s := x].Keys == sessions.Keys + {s}
  {
  }

  lemma TearDownKeepsLive(sessions: map<StreamId, Session.Session>, table: set<StreamId>)
    requires LiveInTable(sessions, table)
    ensures LiveInTable(Tell(sessions, TearDown({}, table)), {})
    ensures Tell(sessions, TearDown({}, table)).Keys == sessions.Keys
  {
    var told := Tell(sessions, TearDown({}, table));
    forall s | s in told ensures Session.Inv(told[s]) && !Live(told[s]) {
      FailEndsLive(sessions[s], "connection closed");
    }
  }

  lemma HeardKeepsOut(sessions: map<StreamId, Session.Session>, table: set<StreamId>, ev: Event, s: StreamId)
    requires table <= sessions.Keys && s in sessions && (ev.OpenDataPlane? ==> ev.s != s)
    ensures s in Heard(sessions, table, ev) && Heard(sessions, table, ev)[s].s.out == sessions[s].s.out
    ensures Heard(sessions, table, ev)[s].pc == sessions[s].pc
  {
  }

  lemma KindsAfter(w: World, ids: set<StreamId>, ev: Event)
    requires SessionsAre(ids, w.env) && Allowed(w, ev)
    ensures SessionsAre(ids + if ev.OpenDataPlane? then {ev.s} else {}, NextEnv(w, ev))
  {
  }

  lemma TableHasSessions(n: Host)
    requires HostInv(n)
    ensures n.w.st.dataPlane <= n.sessions.Keys
  {
    assert forall s :: s in n.w.st.dataPlane ==> OpenedAs(n.w.env, s, KDataPlane);
  }

  lemma MuxKeepsTable(n: Host, ev: Event)
    requires HostInv(n) && Enabled(n, Mux(ev))
    ensures TableIsLive(NextHost(n, Mux(ev)))
  {
    MuxTells(n, ev);
    TableOfStep(n.w, ev);
    TableHasSessions(n);
    HeardKeepsLive(n.sessions, n.w.st.dataPlane, ev);
    KindsAfter(n.w, n.sessions.Keys, ev);
  }

  lemma SilentStays(
      heard: seq<Effect>, here: seq<Effect>, sent: seq<Effect>, before: bool, after: bool, ran: bool, runs: bool)
    requires SentIsHeard(heard, sent, before, ran) && (after ==> before) && (ran ==> runs)
    requires CloseCount(here) == 0 && (!runs ==> here == [])
    ensures SentIsHeard(heard + here, sent, after, runs)
  {
    CloseCountConcat(heard, here);
    assert heard + [] == heard;
  }

  /** What one event of the multiplexer puts on an id of a session, or a new id. */
  lemma MuxOnId(w: World, ev: Event, s: StreamId)
    requires Inv(w) && Allowed(w, ev) && !FromSession(ev) && NotItsOwn(NextEnv(w, ev), s) && NotItsOwn(w.env, s)
    ensures var here := To(Step(w.st, ev).1, s);
            CloseCount(here) == 0 && (s !in NextEnv(w, ev).ran ==> here == [])
    ensures Step(w.st, ev).0.connected ==> w.st.connected
    ensures s in w.env.ran ==> s in NextEnv(w, ev).ran
  {
    ConnectedAfter(w.st, ev);
    if ev.SessionReplies? && ev.s == s {
      RepliesEndNothing(w.st, s, ev.data);
    } else {
      MuxIsSilent(w, ev, s);
    }
  }

  lemma RepliesEndNothing(st: State, s: StreamId, data: bytes)
    ensures CloseCount(To(Step(st, SessionReplies(s, data)).1, s)) == 0
  {
  }

  lemma MuxKeepsLogOf(n: Host, ev: Event, s: StreamId)
    requires HostInv(n) && Enabled(n, Mux(ev)) && s in n.sessions
    ensures var m := NextHost(n, Mux(ev));
            && s in m.sessions
            && SentIsHeard(To(m.log, s), Messages(m.sessions[s].s.out, s), m.w.st.connected, s in m.w.env.ran)
  {
    assert OpenedAs(n.w.env, s, KDataPlane) && LogOf(n, s);
    MuxTells(n, ev);
    TableHasSessions(n);
    HeardKeepsOut(n.sessions, n.w.st.dataPlane, ev, s);
    MuxOnId(n.w, ev, s);
    ToConcat(n.log, Step(n.w.st, ev).1, s);
    SilentStays(To(n.log, s), To(Step(n.w.st, ev).1, s), Messages(n.sessions[s].s.out, s), n.w.st.connected,
                Step(n.w.st, ev).0.connected, s in n.w.env.ran, s in NextEnv(n.w, ev).ran);
  }

  lemma MuxKeepsNothing(n: Host, ev: Event, s: StreamId)
    requires HostInv(n) && Enabled(n, Mux(ev)) && s !in n.w.env.kind && NotItsOwn(NextEnv(n.w, ev), s)
    ensures NothingHeard(To(NextHost(n, Mux(ev)).log, s), s in NextEnv(n.w, ev).ran)
  {
    assert LogOf(n, s);
    MuxOnId(n.w, ev, s);
    ToConcat(n.log, Step(n.w.st, ev).1, s);
    CloseCountConcat(To(n.log, s), To(Step(n.w.st, ev).1, s));
  }

  lemma NewSessionHeard(n: Host, ev: Event, s: StreamId)
    requires HostInv(n) && Enabled(n, Mux(ev)) && ev == OpenDataPlane(s)
    ensures LogOf(NextHost(n, Mux(ev)), s)
  {
    MuxTells(n, ev);
    MuxKeepsNothing(n, ev, s);
    assert Messages(Session.NEW_SESSION.s.out, s) == [];
    assert s !in NextEnv(n.w, ev).ran by { assert s in n.w.env.ran ==> Apart(n.w, s); }
  }

  lemma MuxKeepsLog(n: Host, ev: Event)
    requires HostInv(n) && Enabled(n, Mux(ev))
    ensures LogIsOutputs(NextHost(n, Mux(ev)))
  {
    var m := NextHost(n, Mux(ev));
    MuxTells(n, ev);
    TableHasSessions(n);
    HeardKeepsLive(n.sessions, n.w.st.dataPlane, ev);
    forall s ensures LogOf(m, s) {
      if s in n.sessions {
        assert OpenedAs(n.w.env, s, KDataPlane);
        MuxKeepsLogOf(n, ev, s);
      } else if s in m.sessions {
        NewSessionHeard(n, ev, s);
      } else if s !in m.w.env.kind {
        MuxKeepsNothing(n, ev, s);
      }
    }
  }

  // ---------- Steps of a session ----------

  /** The host as the session's hooks are called. */
  function Resumed(n: Host, s: StreamId, result: Option<bytes>): Host
    requires s in n.sessions
  {
    n.(sessions := n.sessions[s := Session.Continue(n.sessions[s], result)])
  }

  lemma ResumeKeeps(n: Host, s: StreamId, result: Option<bytes>)
    requires HostInv(n) && s in n.sessions
    ensures var m := NextHost(n, Resume(s, result));
            Inv(m.w) && SameButTable(Resumed(n, s, result), m,
              n.w.st.dataPlane - if Stream.Done in Outs(n.sessions[s], result) then {s} else {})
  {
    EmitKeeps(Resumed(n, s, result), s, Outs(n.sessions[s], result));
  }

  lemma ResumeKeepsTable(n: Host, s: StreamId, result: Option<bytes>)
    requires HostInv(n) && s in n.sessions
    ensures TableIsLive(NextHost(n, Resume(s, result)))
  {
    ResumeKeeps(n, s, result);
    ContinueKeepsLive(n.sessions, n.w.st.dataPlane, s, result);
  }

  lemma ContinueKeepsLive(
      sessions: map<StreamId, Session.Session>, table: set<StreamId>, s: StreamId, result: Option<bytes>)
    requires LiveInTable(sessions, table) && s in sessions
    ensures var after := sessions[s := Session.Continue(sessions[s], result)];
            && LiveInTable(after, table - if Stream.Done in Outs(sessions[s], result) then {s} else {})
            && after.Keys == sessions.Keys
  {
    var y := Session.Continue(sessions[s], result);
    OutsOfContinue(sessions[s], result);
    OneLive(sessions, table, s, y);
    assert (if Live(y) then table + {s} else table - {s})
           == table - if Stream.Done in Outs(sessions[s], result) then {s} else {};
  }

  lemma SessionSends(
      heard: seq<Effect>, sent: seq<Effect>, more: seq<Effect>, connected: bool, ran: bool)
    requires SentIsHeard(heard, sent, connected, ran)
    ensures SentIsHeard(heard + if connected then more else [], sent + more, connected, ran)
  {
    CloseCountConcat(heard, more);
    CloseCountConcat(sent, more);
    assert heard + [] == heard;
  }

  lemma ResumeLogs(n: Host, s: StreamId, result: Option<bytes>, y: StreamId)
    requires s in n.sessions
    ensures To(NextHost(n, Resume(s, result)).log, y) ==
            To(n.log, y) + Shown(n.w.st.connected && y == s, Outs(n.sessions[s], result), s)
  {
    EmitLogs(Resumed(n, s, result), s, Outs(n.sessions[s], result), y);
  }

  lemma OwnLogOf(n: Host, s: StreamId, result: Option<bytes>, table: set<StreamId>)
    requires s in n.sessions && s in n.w.env.kind && Session.Inv(n.sessions[s]) && LogOf(n, s)
    requires SameButTable(Resumed(n, s, result), NextHost(n, Resume(s, result)), table)
    ensures LogOf(NextHost(n, Resume(s, result)), s)
  {
    var x := n.sessions[s];
    var outs := Outs(x, result);
    ResumeLogs(n, s, result, s);
    OutsOfContinue(x, result);
    MessagesConcat(x.s.out, outs, s);
    SessionSends(To(n.log, s), Messages(x.s.out, s), Messages(outs, s), n.w.st.connected, s in n.w.env.ran);
  }

  lemma OtherLogOf(n: Host, s: StreamId, result: Option<bytes>, table: set<StreamId>, y: StreamId)
    requires s in n.sessions && y != s && LogOf(n, y)
    requires SameButTable(Resumed(n, s, result), NextHost(n, Resume(s, result)), table)
    ensures LogOf(NextHost(n, Resume(s, result)), y)
  {
    ResumeLogs(n, s, result, y);
    assert To(n.log, y) + [] == To(n.log, y);
  }

  lemma ResumeKeepsLog(n: Host, s: StreamId, result: Option<bytes>)
    requires HostInv(n) && s in n.sessions
    ensures LogIsOutputs(NextHost(n, Resume(s, result)))
  {
    ResumeKeeps(n, s, result);
    assert OpenedAs(n.w.env, s, KDataPlane);
    var table := n.w.st.dataPlane - if Stream.Done in Outs(n.sessions[s], result) then {s} else {};
    forall y ensures LogOf(NextHost(n, Resume(s, result)), y) {
      if y == s { OwnLogOf(n, s, result, table); } else { OtherLogOf(n, s, result, table, y); }
    }
  }

  /** Each step keeps it that the table holds exactly the live sessions, and that what went out on
      the id of a session is what it sent. */
  lemma StepKeepsHost(n: Host, h: Happening)
    requires HostInv(n) && Enabled(n, h)
    ensures HostInv(NextHost(n, h))
  {
    match h
    case Mux(ev) =>
      StepKeeps(n.w, ev);
      MuxKeepsTable(n, ev);
      MuxKeepsLog(n, ev);
    case Resume(s, result) =>
      ResumeKeeps(n, s, result);
      ResumeKeepsTable(n, s, result);
      ResumeKeepsLog(n, s, result);
  }

  lemma {:induction false} RunKeepsHost(n: Host, hs: seq<Happening>)
    requires HostInv(n) && Legal(n, hs)
    ensures HostInv(Run(n, hs))
    decreases |hs|
  {
    if hs != [] {
      StepKeepsHost(n, hs[0]);
      RunKeepsHost(NextHost(n, hs[0]), hs[1..]);
    }
  }
}
