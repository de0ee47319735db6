/** Whole runs of the multiplexer with its data-plane sessions: what the peer of a stream
    receives, and what its session reads. */
module ControlSessionRuns {
  import opened Wrappers
  import opened Bytes
  import opened ControlClient
  import opened ControlInvariant
  import opened ControlReturns
  import opened ControlSessions
  import Stream = DataPlaneStream
  import Session = DataPlaneSession
  import Answers = DataPlaneAnswers

  // ---------- Each session runs as if alone ----------

  /** What happens to the session of `s`, in its own terms; `table` holds the live ids. */
  function HeardBy(table: set<StreamId>, h: Happening, s: StreamId): seq<Session.Event> {
    match h
    case Resume(r, result) => if r == s then [Session.Resume(result)] else []
    case Mux(ev) =>
      if s !in table then []
      else
        match ev
        case Data(x, data) => if x == s then [Session.PushEvent(data)] else []
        case Close(x) => if x == s then [Session.FailEvent("client stream closed")] else []
        case TunnelClosed => [Session.FailEvent("connection closed")]
        case _ => []
  }

  ghost function SessionEvents(n: Host, hs: seq<Happening>, s: StreamId): seq<Session.Event>
    requires Legal(n, hs)
    decreases |hs|
  {
    if hs == [] then []
    else
      (if s in n.sessions then HeardBy(n.w.st.dataPlane, hs[0], s) else [])
      + SessionEvents(NextHost(n, hs[0]), hs[1..], s)
  }

  ghost function SessionOf(n: Host, s: StreamId): Session.Session {
    if s in n.sessions then n.sessions[s] else Session.NEW_SESSION
  }

  lemma RunsAfterOne(x: Session.Session, a: seq<Session.Event>, b: seq<Session.Event>)
    requires |a| <= 1
    ensures Session.Run(x, a + b) == Session.Run(Session.Run(x, a), b)
  {
    if a == [] {
      assert a + b == b;
    } else {
      assert (a + b)[1..] == b && a[1..] == [];
      assert Session.Run(Session.Step(x, a[0]), []) == Session.Step(x, a[0]);
    }
  }

  lemma RunOne(x: Session.Session, ev: Session.Event)
    ensures Session.Run(x, [ev]) == Session.Step(x, ev)
  {
    assert [ev][1..] == [];
    assert Session.Run(Session.Step(x, ev), []) == Session.Step(x, ev);
  }

  lemma MuxRunsOne(n: Host, ev: Event, s: StreamId)
    requires HostInv(n) && Enabled(n, Mux(ev)) && s in n.sessions
    ensures var m := NextHost(n, Mux(ev));
            && s in m.sessions
            && m.sessions[s] == Session.Run(n.sessions[s], HeardBy(n.w.st.dataPlane, Mux(ev), s))
  {
    assert OpenedAs(n.w.env, s, KDataPlane);
    MuxTells(n, ev);
    TableHasSessions(n);
    HeardRunsOne(n.sessions, n.w.st.dataPlane, ev, s);
  }

  lemma HeardRunsOne(sessions: map<StreamId, Session.Session>, table: set<StreamId>, ev: Event, s: StreamId)
    requires table <= sessions.Keys && s in sessions && (ev.OpenDataPlane? ==> ev.s != s)
    ensures s in Heard(sessions, table, ev)
    ensures Heard(sessions, table, ev)[s] == Session.Run(sessions[s], HeardBy(table, Mux(ev), s))
  {
    var evs := HeardBy(table, Mux(ev), s);
    if evs != [] {
      assert evs == [evs[0]];
      RunOne(sessions[s], evs[0]);
    }
  }

  lemma MuxOpensNew(n: Host, ev: Event, s: StreamId)
    requires HostInv(n) && Enabled(n, Mux(ev)) && s !in n.sessions
    ensures SessionOf(NextHost(n, Mux(ev)), s) == Session.NEW_SESSION
  {
    MuxTells(n, ev);
    TableHasSessions(n);
    HeardKeepsLive(n.sessions, n.w.st.dataPlane, ev);
  }

  lemma ResumeRunsOne(n: Host, r: StreamId, result: Option<bytes>, s: StreamId)
    requires HostInv(n) && r in n.sessions
    ensures var evs := if s in n.sessions then HeardBy(n.w.st.dataPlane, Resume(r, result), s) else [];
            SessionOf(NextHost(n, Resume(r, result)), s) == Session.Run(SessionOf(n, s), evs)
  {
    ResumeKeeps(n, r, result);
    if r == s { RunOne(n.sessions[s], Session.Resume(result)); }
  }

  /** Over every run, what becomes of one session depends only on its own events. */
  lemma {:induction false} SessionRunsAlone(n: Host, hs: seq<Happening>, s: StreamId)
    requires HostInv(n) && Legal(n, hs)
    ensures SessionOf(Run(n, hs), s) == Session.Run(SessionOf(n, s), SessionEvents(n, hs, s))
    decreases |hs|
  {
    if hs != [] {
      match hs[0] {
        case Mux(ev) => if s in n.sessions { MuxRunsOne(n, ev, s); } else { MuxOpensNew(n, ev, s); }
        case Resume(r, result) => ResumeRunsOne(n, r, result, s);
      }
      StepKeepsHost(n, hs[0]);
      SessionRunsAlone(NextHost(n, hs[0]), hs[1..], s);
      RunsAfterOne(SessionOf(n, s), if s in n.sessions then HeardBy(n.w.st.dataPlane, hs[0], s) else [],
                   SessionEvents(NextHost(n, hs[0]), hs[1..], s));
    }
  }

  // ---------- What the peer receives ----------

  /** Main result, over every run: at most one STREAM_CLOSE goes out on the id of a data-plane
      stream, and exactly one once its session has ended by itself, if the socket is there; the
      table holds the id exactly while the session is neither ended nor failed; and, while no
      session message ran on the id, what went out on it is what the session sent, in order. */
  lemma PeerReceivesSession(hs: seq<Happening>, s: StreamId)
    requires Legal(NEW_HOST, hs) && OpenedAs(Run(NEW_HOST, hs).w.env, s, KDataPlane)
    ensures var n := Run(NEW_HOST, hs);
            && s in n.sessions
            && n.sessions[s] == Session.Run(Session.NEW_SESSION, SessionEvents(NEW_HOST, hs, s))
            && (s in n.w.st.dataPlane <==> Live(n.sessions[s]))
            && CloseCount(To(n.log, s)) <= 1
            && (n.w.st.connected && n.sessions[s].pc.Ended? && n.sessions[s].s.failure.None? ==>
                  CloseCount(To(n.log, s)) == 1)
            && (s !in n.w.env.ran ==>
                  && To(n.log, s) <= Messages(n.sessions[s].s.out, s)
                  && (n.w.st.connected ==> To(n.log, s) == Messages(n.sessions[s].s.out, s)))
  {
    NewHostHolds();
    RunKeepsHost(NEW_HOST, hs);
    var n := Run(NEW_HOST, hs);
    assert LogOf(n, s);
    MessagesClose(n.sessions[s].s.out, s);
    SessionRunsAlone(NEW_HOST, hs, s);
  }

  /** Main result, over every run in which no step of a session throws and nothing fails it: once it
      has ended, its peer has received the accept message it computed, then the response it
      computed, then the close, and nothing else, if the socket is there and no session message
      ran on the id. */
  lemma PeerReceivesAnswer(hs: seq<Happening>, s: StreamId)
    requires Legal(NEW_HOST, hs) && OpenedAs(Run(NEW_HOST, hs).w.env, s, KDataPlane)
    requires Run(NEW_HOST, hs).w.st.connected && s !in Run(NEW_HOST, hs).w.env.ran
    requires Answers.Smooth(Session.NEW_SESSION, SessionEvents(NEW_HOST, hs, s))
    requires SessionOf(Run(NEW_HOST, hs), s).pc.Ended?
    ensures var c := Answers.Computed(Session.NEW_SESSION, SessionEvents(NEW_HOST, hs, s));
            && |c| == 2
            && To(Run(NEW_HOST, hs).log, s) ==
               [SendData(s, c[0]), SendData(s, c[1]), SendClose(s, "data-plane complete")]
  {
    PeerReceivesSession(hs, s);
    var evs := SessionEvents(NEW_HOST, hs, s);
    Answers.SendsWhatItComputes(evs);
    var c := Answers.Computed(Session.NEW_SESSION, evs);
    AnswerMessages(s, c[0], c[1]);
  }

  lemma AnswerMessages(s: StreamId, accept: bytes, response: bytes)
    ensures var out := [Stream.SentData(accept), Stream.SentData(response), Stream.SentClose("data-plane complete"),
                        Stream.Done];
            Messages(out, s) == [SendData(s, accept), SendData(s, response), SendClose(s, "data-plane complete")]
  {
    var a, b := Stream.SentData(accept), Stream.SentData(response);
    var c, d := Stream.SentClose("data-plane complete"), Stream.Done;
    FirstMessage(a, [b, c, d], s);
    FirstMessage(b, [c, d], s);
    FirstMessage(c, [d], s);
    FirstMessage(d, [], s);
    assert [a, b, c, d] == [a] + [b, c, d] && [b, c, d] == [b] + [c, d] && [c, d] == [c] + [d] && [d] == [d] + [];
  }

  lemma FirstMessage(o: Stream.Output, rest: seq<Stream.Output>, s: StreamId)
    ensures Messages([o] + rest, s) == MessageOf(o, s) + Messages(rest, s)
  {
    MessagesConcat([o], rest, s);
    assert [o][..0] == [];
  }

  // ---------- After the peer's close ----------

  lemma DeadIsNotTold(sessions: map<StreamId, Session.Session>, table: set<StreamId>, ev: Event, s: StreamId)
    requires s in sessions && s !in table && (ev.OpenDataPlane? ==> ev.s != s)
    ensures s in Heard(sessions, table, ev) && Heard(sessions, table, ev)[s] == sessions[s]
  {
  }

  lemma DeadSendsNoClose(x: Session.Session, result: Option<bytes>, s: StreamId)
    requires Session.Inv(x) && !Live(x)
    ensures !Live(Session.Continue(x, result)) && CloseCount(Messages(Outs(x, result), s)) == 0
  {
    var y := Session.Continue(x, result);
    OutsOfContinue(x, result);
    if x.s.failure.Some? {
      Session.AfterFailure(x, result);
      MessagesClose(x.s.out, s);
      MessagesClose(y.s.out, s);
      MessagesConcat(x.s.out, Outs(x, result), s);
      CloseCountConcat(Messages(x.s.out, s), Messages(Outs(x, result), s));
    }
  }

  ghost predicate Dead(n: Host, s: StreamId) { s in n.sessions && !Live(n.sessions[s]) }

  lemma MuxStaysDead(n: Host, ev: Event, s: StreamId)
    requires HostInv(n) && Enabled(n, Mux(ev)) && Dead(n, s)
    ensures Dead(NextHost(n, Mux(ev)), s) && CloseCount(To(NextHost(n, Mux(ev)).log, s)) == CloseCount(To(n.log, s))
  {
    assert OpenedAs(n.w.env, s, KDataPlane);
    MuxTells(n, ev);
    DeadIsNotTold(n.sessions, n.w.st.dataPlane, ev, s);
    MuxOnId(n.w, ev, s);
    ToConcat(n.log, Step(n.w.st, ev).1, s);
    CloseCountConcat(To(n.log, s), To(Step(n.w.st, ev).1, s));
  }

  lemma OwnStaysDead(n: Host, s: StreamId, result: Option<bytes>)
    requires HostInv(n) && Dead(n, s)
    ensures var m := NextHost(n, Resume(s, result)); Dead(m, s) && CloseCount(To(m.log, s)) == CloseCount(To(n.log, s))
  {
    ResumeKeeps(n, s, result);
    ResumeLogs(n, s, result, s);
    DeadSendsNoClose(n.sessions[s], result, s);
    CloseCountConcat(To(n.log, s), Shown(n.w.st.connected, Outs(n.sessions[s], result), s));
  }

  lemma OtherStaysDead(n: Host, r: StreamId, result: Option<bytes>, s: StreamId)
    requires HostInv(n) && r in n.sessions && r != s && Dead(n, s)
    ensures var m := NextHost(n, Resume(r, result)); Dead(m, s) && CloseCount(To(m.log, s)) == CloseCount(To(n.log, s))
  {
    ResumeKeeps(n, r, result);
    ResumeLogs(n, r, result, s);
    assert To(n.log, s) + [] == To(n.log, s);
  }

  lemma {:induction false} DeadEndsNothing(n: Host, hs: seq<Happening>, s: StreamId)
    requires HostInv(n) && Legal(n, hs) && Dead(n, s)
    ensures CloseCount(To(Run(n, hs).log, s)) == CloseCount(To(n.log, s))
    decreases |hs|
  {
    if hs != [] {
      match hs[0] {
        case Mux(ev) => MuxStaysDead(n, ev, s);
        case Resume(r, result) =>
          if r == s { OwnStaysDead(n, s, result); } else { OtherStaysDead(n, r, result, s); }
      }
      StepKeepsHost(n, hs[0]);
      DeadEndsNothing(NextHost(n, hs[0]), hs[1..], s);
    }
  }

  /** Main result: after the peer's close no STREAM_CLOSE goes out on the id of a data-plane
      stream, whatever follows; and none at all if the session was live until then. */
  lemma NoCloseAfterPeerCloses(n: Host, s: StreamId, more: seq<Happening>)
    requires HostInv(n) && s in n.sessions && Legal(NextHost(n, Mux(Close(s))), more)
    ensures CloseCount(To(Run(NextHost(n, Mux(Close(s))), more).log, s)) == CloseCount(To(n.log, s))
    ensures Live(n.sessions[s]) ==> CloseCount(To(n.log, s)) == 0
  {
    assert OpenedAs(n.w.env, s, KDataPlane) && LogOf(n, s);
    MessagesClose(n.sessions[s].s.out, s);
    StepKeepsHost(n, Mux(Close(s)));
    MuxTells(n, Close(s));
    TableOfStep(n.w, Close(s));
    var m := NextHost(n, Mux(Close(s)));
    assert s in m.sessions;
    MuxOnId(n.w, Close(s), s);
    ToConcat(n.log, Step(n.w.st, Close(s)).1, s);
    CloseCountConcat(To(n.log, s), To(Step(n.w.st, Close(s)).1, s));
    DeadEndsNothing(m, more, s);
  }

  // ---------- What a session reads ----------

  /** The payloads that the peer sent on an id. */
  function Payloads(hs: seq<Happening>, s: StreamId): seq<bytes> {
    if hs == [] then [] else PayloadOf(hs[0], s) + Payloads(hs[1..], s)
  }

  function PayloadOf(h: Happening, s: StreamId): seq<bytes> {
    if h.Mux? && h.ev.Data? && h.ev.s == s then [h.ev.data] else []
  }

  /** Given the payloads so far: the session was pushed a prefix, and all while it is live. */
  ghost predicate Fed(n: Host, s: StreamId, payloads: seq<bytes>) {
    && (s in n.sessions ==>
          var pushed := Stream.Pushed(n.sessions[s].s);
          pushed <= payloads && (s in n.w.st.dataPlane ==> pushed == payloads))
    && (Fresh(n.w.env, s) ==> payloads == [])
  }

  lemma FailKeepsPushed(x: Session.Session, reason: string)
    requires Session.Inv(x)
    ensures Stream.Pushed(Session.Step(x, Session.FailEvent(reason)).s) == Stream.Pushed(x.s)
  {
    Stream.FailSettlesAll(x.s, reason);
  }

  lemma PushAddsOne(x: Session.Session, data: bytes)
    requires Session.Inv(x)
    ensures Stream.Pushed(Session.Step(x, Session.PushEvent(data)).s) == Stream.Pushed(x.s) + [data]
  {
    Stream.PushAdds(x.s, data);
  }

  /** What one event pushes to a session. */
  lemma HeardPushes(sessions: map<StreamId, Session.Session>, table: set<StreamId>, ev: Event, s: StreamId)
    requires table <= sessions.Keys && s in sessions && Session.Inv(sessions[s])
    requires ev.OpenDataPlane? ==> ev.s != s
    ensures s in Heard(sessions, table, ev)
    ensures Stream.Pushed(Heard(sessions, table, ev)[s].s) ==
            Stream.Pushed(sessions[s].s) + if s in table then PayloadOf(Mux(ev), s) else []
  {
    var pushed := Stream.Pushed(sessions[s].s);
    assert pushed + [] == pushed;
    if s in table {
      match ev
      case Data(x, data) => if x == s { PushAddsOne(sessions[s], data); }
      case Close(x) => if x == s { FailKeepsPushed(sessions[s], "client stream closed"); }
      case TunnelClosed => FailKeepsPushed(sessions[s], "connection closed");
      case _ =>
    }
  }

  lemma MoreFed(pushed: seq<bytes>, payloads: seq<bytes>, here: seq<bytes>, live: bool, liveNext: bool)
    requires pushed <= payloads && (live ==> pushed == payloads) && (liveNext ==> live)
    ensures var next := pushed + if live then here else [];
            next <= payloads + here && (liveNext ==> next == payloads + here)
  {
  }

  lemma MuxFeeds(n: Host, ev: Event, s: StreamId, payloads: seq<bytes>)
    requires HostInv(n) && Enabled(n, Mux(ev)) && Fed(n, s, payloads) && s in n.sessions
    ensures Fed(NextHost(n, Mux(ev)), s, payloads + PayloadOf(Mux(ev), s))
  {
    assert OpenedAs(n.w.env, s, KDataPlane);
    MuxTells(n, ev);
    TableHasSessions(n);
    TableOfStep(n.w, ev);
    HeardPushes(n.sessions, n.w.st.dataPlane, ev, s);
    MoreFed(Stream.Pushed(n.sessions[s].s), payloads, PayloadOf(Mux(ev), s), s in n.w.st.dataPlane,
            s in TableAfter(n.w.st.dataPlane, ev));
  }

  lemma MuxStarts(n: Host, ev: Event, s: StreamId, payloads: seq<bytes>)
    requires HostInv(n) && Enabled(n, Mux(ev)) && Fed(n, s, payloads) && s !in n.sessions
    ensures Fed(NextHost(n, Mux(ev)), s, payloads + PayloadOf(Mux(ev), s))
  {
    MuxTells(n, ev);
    TableHasSessions(n);
    HeardKeepsLive(n.sessions, n.w.st.dataPlane, ev);
    assert Stream.Pushed(Session.NEW_SESSION.s) == [];
  }

  lemma ResumeFeeds(n: Host, r: StreamId, result: Option<bytes>, s: StreamId, payloads: seq<bytes>)
    requires HostInv(n) && r in n.sessions && Fed(n, s, payloads)
    ensures Fed(NextHost(n, Resume(r, result)), s, payloads + PayloadOf(Resume(r, result), s))
  {
    assert payloads + [] == payloads;
    ResumeKeeps(n, r, result);
    Session.ContinueKeeps(n.sessions[r], result);
  }

  lemma PayloadsAssoc(a: seq<bytes>, b: seq<bytes>, c: seq<bytes>)
    ensures (a + b) + c == a + (b + c)
  {
  }

  lemma {:induction false} RunFeeds(n: Host, hs: seq<Happening>, s: StreamId, payloads: seq<bytes>)
    requires HostInv(n) && Legal(n, hs) && Fed(n, s, payloads)
    ensures Fed(Run(n, hs), s, payloads + Payloads(hs, s))
    decreases |hs|
  {
    if hs == [] {
      assert payloads + [] == payloads;
    } else {
      var now := payloads + PayloadOf(hs[0], s);
      match hs[0] {
        case Mux(ev) =>
          if s in n.sessions { MuxFeeds(n, ev, s, payloads); } else { MuxStarts(n, ev, s, payloads); }
        case Resume(r, result) => ResumeFeeds(n, r, result, s, payloads);
      }
      StepKeepsHost(n, hs[0]);
      RunFeeds(NextHost(n, hs[0]), hs[1..], s, now);
      PayloadsAssoc(payloads, PayloadOf(hs[0], s), Payloads(hs[1..], s));
    }
  }

  lemma FirstTwo(x: Session.Session, sent: seq<bytes>)
    requires Session.Inv(x) && Stream.Pushed(x.s) <= sent
    ensures x.pc.Accepting? ==> |sent| > 0 && sent[0] == x.pc.init
    ensures x.pc.Resolving? ==> |sent| > 1 && sent[1] == x.pc.frame
  {
    if x.pc.Accepting? || x.pc.Resolving? {
      Session.DeliveredGot(x.s.slots);
      var got := Stream.Delivered(x.s.slots);
      assert Stream.Pushed(x.s)[..|got|] == got;
    }
  }

  /** Main result, over every run: what is pushed to a session is what the peer sent on its id,
      in order, all of it while the session is live; so the init it accepts and the request it
      serves are the first two payloads of that id. */
  lemma SessionReadsPeer(hs: seq<Happening>, s: StreamId)
    requires Legal(NEW_HOST, hs) && OpenedAs(Run(NEW_HOST, hs).w.env, s, KDataPlane)
    ensures var n := Run(NEW_HOST, hs);
            var sent := Payloads(hs, s);
            && s in n.sessions
            && Stream.Pushed(n.sessions[s].s) <= sent
            && (s in n.w.st.dataPlane ==> Stream.Pushed(n.sessions[s].s) == sent)
            && (n.sessions[s].pc.Accepting? ==> |sent| > 0 && sent[0] == n.sessions[s].pc.init)
            && (n.sessions[s].pc.Resolving? ==> |sent| > 1 && sent[1] == n.sessions[s].pc.frame)
  {
    NewHostHolds();
    RunKeepsHost(NEW_HOST, hs);
    assert Fed(NEW_HOST, s, []);
    RunFeeds(NEW_HOST, hs, s, []);
    assert [] + Payloads(hs, s) == Payloads(hs, s);
    FirstTwo(Run(NEW_HOST, hs).sessions[s], Payloads(hs, s));
  }
}
