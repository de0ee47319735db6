/** What becomes of each request, told without the tables: a promise waits until its reply, its
    timeout or the end of the tunnel, whichever comes first; and what the endpoint itself sends. */
module TunnelFates {
  import opened Wrappers
  import opened Bytes
  import opened JsMaps
  import Frames
  import opened SecureChannel
  import opened TunnelClient
  import opened TunnelRuns
  import opened PendingRequests

  // ---------- The fate of one promise ----------

  /** The number of the last accepted frame, after one more event. */
  ghost function NextLast(l: Inbound, last: int, ev: Event): int {
    var here := Accepts(l, last, ev);
    if here == [] then last else here[0].frame.sequence
  }

  /** What a delivered message does to the promise that waits under `id`. */
  function ReplyFate(ms: seq<Message>, id: string, p: nat): Option<Settle> {
    if ms == [] || id == "" || ms[0].replyTo != Some(id) then None
    else if ms[0].isError then Some(Reject(p))
    else Some(Resolve(p, ms[0]))
  }

  /** The event closes the tunnel: from here, or by a close frame of the peer. */
  ghost predicate ClosesTunnel(l: Inbound, last: int, ev: Event) {
    ev.Closes? || (Accepts(l, last, ev) != [] && Accepts(l, last, ev)[0].frame.kind == Frames.CLOSE)
  }

  /** How one event settles promise `p`, which waits under `id`, if it does. */
  ghost function FateAt(l: Inbound, last: int, id: string, p: nat, ev: Event): Option<Settle> {
    if ev == TimesOut(p) || ClosesTunnel(l, last, ev) then Some(Reject(p))
    else if Accepts(l, last, ev) == [] then None
    else ReplyFate(MessageIn(Accepts(l, last, ev)[0], l.decode), id, p)
  }

  /** The first event that settles it decides. */
  ghost function Fate(l: Inbound, last: int, id: string, p: nat, events: seq<Event>): Option<Settle>
    decreases |events|
  {
    if events == [] then None
    else if FateAt(l, last, id, p, events[0]).Some? then FateAt(l, last, id, p, events[0])
    else Fate(l, NextLast(l, last, events[0]), id, p, events[1..])
  }

  /** The first call of the resolve or reject function of promise `p`. */
  function SettleOf(settles: seq<Settle>, p: nat): Option<Settle> {
    if settles == [] then None
    else
      var last := |settles| - 1;
      var before := SettleOf(settles[..last], p);
      if before.Some? then before
      else if settles[last].promise == p then Some(settles[last])
      else None
  }

  lemma SettleOfMore(settles: seq<Settle>, s: Settle, p: nat)
    ensures SettleOf(settles + [s], p) ==
            if SettleOf(settles, p).Some? then SettleOf(settles, p) else if s.promise == p then Some(s) else None
  {
    assert (settles + [s])[..|settles|] == settles;
  }

  lemma {:induction false} SettledIff(settles: seq<Settle>, p: nat)
    ensures p in Settled(settles) <==> SettleOf(settles, p).Some?
  {
    if settles != [] { SettledIff(settles[..|settles| - 1], p); }
  }

  /** `p` waits under `id`. */
  ghost predicate Waits(t: Tunnel, id: string, p: nat) {
    p in t.timers && t.timers[p] == id && SettleOf(t.settles, p) == None
  }

  /** `p` got this fate, or waits on. */
  ghost predicate Meets(t: Tunnel, id: string, p: nat, fate: Option<Settle>) {
    if fate.Some? then p !in t.timers && SettleOf(t.settles, p) == fate else Waits(t, id, p)
  }

  /** Removing one entry of the table, and settling it. */
  lemma SettleMeets(t: Tunnel, k: string, s: Settle, id: string, p: nat)
    requires Inv(t) && Waits(t, id, p) && k in t.pending.at && s.promise == t.pending.at[k]
    ensures Meets(t.(pending := t.pending.Delete(k), timers := t.timers - {s.promise}, settles := t.settles + [s]),
                  id, p, if k == id then Some(s) else None)
    ensures k == id <==> s.promise == p
  {
    SettleOfMore(t.settles, s, p);
  }

  lemma {:induction false} RejectEachMeets(t: Tunnel, ids: seq<string>, id: string, p: nat)
    requires Inv(t) && Waits(t, id, p)
    ensures Meets(RejectEach(t, ids), id, p, if id in ids then Some(Reject(p)) else None)
    decreases |ids|
  {
    if ids != [] {
      if ids[0] in t.pending.at {
        var q := t.pending.at[ids[0]];
        var t' := t.(pending := t.pending.Delete(ids[0]), timers := t.timers - {q}, settles := t.settles + [Reject(q)]);
        SettleKeeps(t, ids[0], Reject(q));
        SettleMeets(t, ids[0], Reject(q), id, p);
        if q == p { RejectEachKeepsSettled(t', ids[1..], p); } else { RejectEachMeets(t', ids[1..], id, p); }
      } else {
        RejectEachMeets(t, ids[1..], id, p);
      }
    }
  }

  lemma {:induction false} RejectEachKeepsSettled(t: Tunnel, ids: seq<string>, p: nat)
    requires SettleOf(t.settles, p).Some?
    ensures SettleOf(RejectEach(t, ids).settles, p) == SettleOf(t.settles, p)
    ensures p !in t.timers ==> p !in RejectEach(t, ids).timers
    decreases |ids|
  {
    if ids != [] {
      if ids[0] in t.pending.at {
        var q := t.pending.at[ids[0]];
        SettleOfMore(t.settles, Reject(q), p);
        RejectEachKeepsSettled(t.(pending := t.pending.Delete(ids[0]), timers := t.timers - {q},
                                  settles := t.settles + [Reject(q)]), ids[1..], p);
      } else {
        RejectEachKeepsSettled(t, ids[1..], p);
      }
    }
  }

  lemma CloseMeets(t: Tunnel, id: string, p: nat)
    requires Inv(t) && Waits(t, id, p)
    ensures Meets(CloseSocket(t), id, p, Some(Reject(p)))
  {
    RejectEachMeets(t, t.pending.order, id, p);
  }

  lemma ReplyMeets(t: Tunnel, m: Message, id: string, p: nat)
    requires Inv(t) && Waits(t, id, p)
    ensures Meets(ResolvePending(t, m), id, p, ReplyFate([m], id, p))
  {
    if m.replyTo.None? || m.replyTo.value == "" || m.replyTo.value !in t.pending.at {
      assert ReplyFate([m], id, p) == None;
    } else {
      var k := m.replyTo.value;
      var s := if m.isError then Reject(t.pending.at[k]) else Resolve(t.pending.at[k], m);
      SettleMeets(t, k, s, id, p);
      assert ReplyFate([m], id, p) == if k == id then Some(s) else None;
    }
  }

  lemma DispatchMeets(t: Tunnel, got: Opened, decode: bytes -> Option<Message>, id: string, p: nat)
    requires Inv(t) && Waits(t, id, p)
    ensures Meets(Dispatch(t, got, decode).0, id, p,
                  if got.frame.kind == Frames.CLOSE then Some(Reject(p)) else ReplyFate(MessageIn(got, decode), id, p))
  {
    if got.frame.kind == Frames.CLOSE {
      CloseMeets(t, id, p);
    } else {
      var ms := MessageIn(got, decode);
      if ms != [] {
        assert ms == [ms[0]];
        ReplyMeets(t, ms[0], id, p);
      }
    }
  }

  lemma HearMeets(l: Inbound, t: Tunnel, raw: bytes, id: string, p: nat)
    requires Inv(t) && Waits(t, id, p)
    ensures Meets(Hear(l, t, raw).0, id, p, FateAt(l, t.lastReceiveSequence, id, p, Hears(raw)))
  {
    StepHears(l, t, raw);
    var here := Accepts(l, t.lastReceiveSequence, Hears(raw));
    if here != [] {
      NumberKeeps(t, here[0].frame.sequence);
      DispatchMeets(t.(lastReceiveSequence := here[0].frame.sequence), here[0], l.decode, id, p);
    }
  }

  lemma TimeOutMeets(t: Tunnel, q: nat, id: string, p: nat)
    requires Inv(t) && Waits(t, id, p) && q in t.timers
    ensures Meets(TimeOut(t, q), id, p, if q == p then Some(Reject(p)) else None)
  {
    SettleMeets(t, t.timers[q], Reject(q), id, p);
  }

  lemma StepMeets(l: Inbound, t: Tunnel, ev: Event, id: string, p: nat)
    requires Inv(t) && Waits(t, id, p) && (ev.Requests? ==> ev.id !in t.pending.at)
    ensures Meets(Step(l, t, ev), id, p, FateAt(l, t.lastReceiveSequence, id, p, ev))
  {
    match ev
    case Requests(_) => assert p < t.promises by { SettledIff(t.settles, p); }
    case Sends =>
    case Hears(raw) => HearMeets(l, t, raw, id, p);
    case TimesOut(q) => if q in t.timers { TimeOutMeets(t, q, id, p); }
    case Closes => CloseMeets(t, id, p);
  }

  lemma StepLast(l: Inbound, t: Tunnel, ev: Event)
    ensures Step(l, t, ev).lastReceiveSequence == NextLast(l, t.lastReceiveSequence, ev)
  {
    RejectKeepsCounters(t);
    if ev.Hears? {
      StepHears(l, t, ev.raw);
      var here := Accepts(l, t.lastReceiveSequence, ev);
      if here != [] { RejectKeepsCounters(t.(lastReceiveSequence := here[0].frame.sequence)); }
    }
  }

  /** What is settled stays settled, the same way. */
  lemma StepKeepsSettled(l: Inbound, t: Tunnel, ev: Event, p: nat)
    requires SettleOf(t.settles, p).Some?
    ensures SettleOf(Step(l, t, ev).settles, p) == SettleOf(t.settles, p)
  {
    match ev
    case Requests(_) =>
    case Sends =>
    case Hears(raw) => HearKeepsSettled(l, t, raw, p);
    case TimesOut(q) => SettleOfMore(t.settles, Reject(q), p);
    case Closes => RejectEachKeepsSettled(t, t.pending.order, p);
  }

  lemma HearKeepsSettled(l: Inbound, t: Tunnel, raw: bytes, p: nat)
    requires SettleOf(t.settles, p).Some?
    ensures SettleOf(Hear(l, t, raw).0.settles, p) == SettleOf(t.settles, p)
  {
    StepHears(l, t, raw);
    var here := Accepts(l, t.lastReceiveSequence, Hears(raw));
    if here != [] {
      var t' := t.(lastReceiveSequence := here[0].frame.sequence);
      RejectEachKeepsSettled(t', t'.pending.order, p);
      var m := l.decode(here[0].plaintext);
      if m.Some? { ResolveKeepsSettled(t', m.value, p); }
    }
  }

  lemma ResolveKeepsSettled(t: Tunnel, m: Message, p: nat)
    requires SettleOf(t.settles, p).Some?
    ensures SettleOf(ResolvePending(t, m).settles, p) == SettleOf(t.settles, p)
  {
    if m.replyTo.Some? && m.replyTo.value in t.pending.at {
      var q := t.pending.at[m.replyTo.value];
      SettleOfMore(t.settles, if m.isError then Reject(q) else Resolve(q, m), p);
    }
  }

  lemma {:induction false} RunKeepsSettled(l: Inbound, t: Tunnel, events: seq<Event>, p: nat)
    requires SettleOf(t.settles, p).Some?
    ensures SettleOf(Run(l, t, events).settles, p) == SettleOf(t.settles, p)
    decreases |events|
  {
    if events != [] {
      StepKeepsSettled(l, t, events[0], p);
      RunKeepsSettled(l, Step(l, t, events[0]), events[1..], p);
    }
  }

  lemma {:induction false} WaiterMeetsFate(l: Inbound, t: Tunnel, events: seq<Event>, id: string, p: nat)
    requires Inv(t) && Waits(t, id, p) && DistinctIds(l, t, events)
    ensures SettleOf(Run(l, t, events).settles, p) == Fate(l, t.lastReceiveSequence, id, p, events)
    decreases |events|
  {
    if events != [] {
      var ev := events[0];
      StepMeets(l, t, ev, id, p);
      StepKeeps(l, t, ev);
      StepLast(l, t, ev);
      if FateAt(l, t.lastReceiveSequence, id, p, ev).Some? {
        RunKeepsSettled(l, Step(l, t, ev), events[1..], p);
      } else {
        WaiterMeetsFate(l, Step(l, t, ev), events[1..], id, p);
      }
    }
  }

  /** Main result: over every run with distinct ids, what becomes of a request is what the first
      of its timeout, a reply to its id, or the end of the tunnel makes of it; nothing else
      settles it, and each of these does. */
  lemma RequestMeetsFate(l: Inbound, t: Tunnel, id: string, events: seq<Event>)
    requires Inv(t) && id !in t.pending.at && DistinctIds(l, Request(t, id), events)
    ensures SettleOf(Run(l, Request(t, id), events).settles, t.promises) ==
            Fate(l, t.lastReceiveSequence, id, t.promises, events)
  {
    RequestKeeps(t, id);
    SettledIff(t.settles, t.promises);
    WaiterMeetsFate(l, Request(t, id), events, id, t.promises);
  }

  // ---------- What the endpoint sends ----------

  /** The event makes the endpoint send: a request, a message, the answer to a ping, or an error
      reply to what was refused or could not be decoded. */
  ghost predicate WantsSend(l: Inbound, last: int, ev: Event) {
    match ev
    case Requests(_) => true
    case Sends => true
    case TimesOut(_) => false
    case Closes => false
    case Hears(_) =>
      var here := Accepts(l, last, ev);
      here == [] || here[0].frame.kind == Frames.PING
      || (here[0].frame.kind !in {Frames.PONG, Frames.CLOSE} && MessageIn(here[0], l.decode) == [])
  }

  /** How many numbers a run takes, told without the tables: none once the tunnel was closed. */
  ghost function Sendings(l: Inbound, last: int, open: bool, events: seq<Event>): nat
    decreases |events|
  {
    if events == [] then 0
    else
      (if open && WantsSend(l, last, events[0]) then 1 else 0)
      + Sendings(l, NextLast(l, last, events[0]), open && !ClosesTunnel(l, last, events[0]), events[1..])
  }

  lemma StepSends(l: Inbound, t: Tunnel, ev: Event)
    ensures var r := Step(l, t, ev);
            && r.open == (t.open && !ClosesTunnel(l, t.lastReceiveSequence, ev))
            && r.sendSequence == t.sendSequence + if t.open && WantsSend(l, t.lastReceiveSequence, ev) then 1 else 0
  {
    RejectKeepsCounters(t);
    RejectKeepsOpen(t, t.pending.order);
    if ev.Hears? { HearSends(l, t, ev.raw); }
  }

  lemma {:induction false} RejectKeepsOpen(t: Tunnel, ids: seq<string>)
    ensures RejectEach(t, ids).open == t.open
    decreases |ids|
  {
    if ids != [] {
      if ids[0] in t.pending.at {
        var q := t.pending.at[ids[0]];
        RejectKeepsOpen(t.(pending := t.pending.Delete(ids[0]), timers := t.timers - {q},
                           settles := t.settles + [Reject(q)]), ids[1..]);
      } else {
        RejectKeepsOpen(t, ids[1..]);
      }
    }
  }

  lemma HearSends(l: Inbound, t: Tunnel, raw: bytes)
    ensures var r := Hear(l, t, raw).0;
            && r.open == (t.open && !ClosesTunnel(l, t.lastReceiveSequence, Hears(raw)))
            && r.sendSequence ==
               t.sendSequence + if t.open && WantsSend(l, t.lastReceiveSequence, Hears(raw)) then 1 else 0
  {
    StepHears(l, t, raw);
    var here := Accepts(l, t.lastReceiveSequence, Hears(raw));
    if here != [] { DispatchSends(t.(lastReceiveSequence := here[0].frame.sequence), here[0], l.decode); }
  }

  lemma DispatchSends(t: Tunnel, got: Opened, decode: bytes -> Option<Message>)
    ensures var r := Dispatch(t, got, decode).0;
            var kind := got.frame.kind;
            && r.open == (t.open && kind != Frames.CLOSE)
            && r.sendSequence == t.sendSequence +
                 if t.open && (kind == Frames.PING
                               || (kind !in {Frames.PONG, Frames.CLOSE} && MessageIn(got, decode) == []))
                 then 1 else 0
  {
    RejectKeepsCounters(t);
    RejectKeepsOpen(t, t.pending.order);
  }

  lemma {:induction false} RunSends(l: Inbound, t: Tunnel, events: seq<Event>)
    ensures Run(l, t, events).sendSequence ==
            t.sendSequence + Sendings(l, t.lastReceiveSequence, t.open, events)
    decreases |events|
  {
    if events != [] {
      StepSends(l, t, events[0]);
      StepLast(l, t, events[0]);
      RunSends(l, Step(l, t, events[0]), events[1..]);
    }
  }

  /** Main result: over every run with distinct ids the frames on the wire are numbered 0, 1, 2, ...,
      one for each event that wants an answer or a message while the tunnel is open. */
  lemma SentIsWanted(l: Inbound, events: seq<Event>)
    requires DistinctIds(l, FRESH, events)
    ensures var sent := Run(l, FRESH, events).sent;
            var n := Sendings(l, -1, true, events);
            && |sent| == (if n <= U64_MAX + 1 then n else U64_MAX + 1)
            && forall i :: 0 <= i < |sent| ==> sent[i] == i
  {
    PendingRequests.RunKeeps(l, FRESH, events);
    RunSends(l, FRESH, events);
  }
}
