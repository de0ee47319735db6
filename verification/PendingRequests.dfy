/** The pending table over all runs: waiting ids, unsettled promises and live timers are
    the same thing, every promise is settled at most once, and only a reply that the peer
    sealed resolves one. */
module PendingRequests {
  import opened Wrappers
  import opened Bytes
  import opened JsMaps
  import Frames
  import opened SecureChannel
  import opened TunnelClient
  import opened TunnelRuns

  /** Request ids are never used by two requests that wait at the same time. */
  ghost predicate DistinctIds(l: Inbound, t: Tunnel, events: seq<Event>)
    decreases |events|
  {
    events == [] ||
    ((events[0].Requests? ==> events[0].id !in t.pending.at) && DistinctIds(l, Step(l, t, events[0]), events[1..]))
  }

  function Settled(settles: seq<Settle>): set<nat> {
    if settles == [] then {} else Settled(settles[..|settles| - 1]) + {settles[|settles| - 1].promise}
  }

  ghost predicate SettledOnce(settles: seq<Settle>) {
    settles == [] ||
    (var last := |settles| - 1;
     settles[last].promise !in Settled(settles[..last]) && SettledOnce(settles[..last]))
  }

  lemma SettleAppends(settles: seq<Settle>, s: Settle)
    ensures Settled(settles + [s]) == Settled(settles) + {s.promise}
    ensures SettledOnce(settles) && s.promise !in Settled(settles) ==> SettledOnce(settles + [s])
  {
    assert (settles + [s])[..|settles|] == settles;
  }

  ghost predicate TimersMatchPending(t: Tunnel) {
    && (forall id :: id in t.pending.at ==> t.pending.at[id] in t.timers && t.timers[t.pending.at[id]] == id)
    && (forall p :: p in t.timers ==> t.timers[p] in t.pending.at && t.pending.at[t.timers[p]] == p)
  }

  ghost predicate TimersAreUnsettled(t: Tunnel) {
    && (forall p: nat :: p in t.timers <==> p < t.promises && p !in Settled(t.settles))
    && (forall p :: p in Settled(t.settles) ==> p < t.promises)
  }

  /** The numbers on the wire are 0, 1, 2, ... without a gap, up to the last 64-bit number. */
  ghost predicate SentInOrder(t: Tunnel) {
    && |t.sent| == (if t.sendSequence <= U64_MAX + 1 then t.sendSequence else U64_MAX + 1)
    && (forall i :: 0 <= i < |t.sent| ==> t.sent[i] == i)
  }

  ghost predicate Inv(t: Tunnel) {
    && t.pending.Valid()
    && TimersMatchPending(t)
    && TimersAreUnsettled(t)
    && SettledOnce(t.settles)
    && SentInOrder(t)
  }

  lemma SettleKeeps(t: Tunnel, id: string, s: Settle)
    requires Inv(t) && id in t.pending.at && s.promise == t.pending.at[id]
    ensures Inv(t.(pending := t.pending.Delete(id), timers := t.timers - {s.promise}, settles := t.settles + [s]))
  {
    SettleAppends(t.settles, s);
  }

  lemma {:induction false} RejectEachKeeps(t: Tunnel, ids: seq<string>)
    requires Inv(t)
    ensures var r := RejectEach(t, ids);
            && Inv(r) && r.promises == t.promises
            && (forall id :: id in r.pending.at ==> id in t.pending.at && id !in ids)
    decreases |ids|
  {
    if ids != [] {
      if ids[0] in t.pending.at {
        var p := t.pending.at[ids[0]];
        SettleKeeps(t, ids[0], Reject(p));
        RejectEachKeeps(t.(pending := t.pending.Delete(ids[0]), timers := t.timers - {p},
                           settles := t.settles + [Reject(p)]), ids[1..]);
      } else {
        RejectEachKeeps(t, ids[1..]);
      }
    }
  }

  lemma ResolveKeeps(t: Tunnel, m: Message)
    requires Inv(t)
    ensures Inv(ResolvePending(t, m))
  {
    if ResolvePending(t, m) != t {
      var p := t.pending.at[m.replyTo.value];
      SettleKeeps(t, m.replyTo.value, if m.isError then Reject(p) else Resolve(p, m));
    }
  }

  lemma DispatchKeeps(t: Tunnel, got: Opened, decode: bytes -> Option<Message>)
    requires Inv(t)
    ensures Inv(Dispatch(t, got, decode).0)
  {
    var kind := got.frame.kind;
    if kind == Frames.CLOSE {
      RejectEachKeeps(t, t.pending.order);
      CloseKeeps(RejectAll(t));
    } else if kind != Frames.PONG {
      SendKeeps(t);
      var m := decode(got.plaintext);
      if m.Some? { ResolveKeeps(t, m.value); }
    }
  }

  lemma HearKeeps(l: Inbound, t: Tunnel, raw: bytes)
    requires Inv(t)
    ensures Inv(Hear(l, t, raw).0)
  {
    SendKeeps(t);
    var unsealed := OpenFrame(l.seals, l.key, raw);
    if unsealed.Ok? {
      NumberKeeps(t, unsealed.value.frame.sequence);
      DispatchKeeps(t.(lastReceiveSequence := unsealed.value.frame.sequence), unsealed.value, l.decode);
    }
  }

  lemma SendKeeps(t: Tunnel)
    requires Inv(t)
    ensures Inv(Send(t))
  {
  }

  lemma CloseKeeps(t: Tunnel)
    requires Inv(t)
    ensures Inv(t.(open := false))
  {
  }

  lemma NumberKeeps(t: Tunnel, n: nat)
    requires Inv(t)
    ensures Inv(t.(lastReceiveSequence := n))
  {
  }

  lemma StepKeeps(l: Inbound, t: Tunnel, ev: Event)
    requires Inv(t) && (ev.Requests? ==> ev.id !in t.pending.at)
    ensures Inv(Step(l, t, ev))
  {
    match ev
    case Requests(id) => RequestKeeps(t, id);
    case Sends => SendKeeps(t);
    case Hears(raw) => HearKeeps(l, t, raw);
    case TimesOut(p) =>
      if p in t.timers { SettleKeeps(t, t.timers[p], Reject(p)); }
    case Closes => RejectEachKeeps(t, t.pending.order);
  }

  lemma RequestKeeps(t: Tunnel, id: string)
    requires Inv(t) && id !in t.pending.at
    ensures Inv(Request(t, id))
  {
    RegisterKeeps(t, id);
    SendKeeps(Register(t, id));
  }

  lemma RegisterKeeps(t: Tunnel, id: string)
    requires Inv(t) && id !in t.pending.at
    ensures Inv(Register(t, id))
  {
  }

  /** Main result, over every run with distinct ids. */
  lemma {:induction false} RunKeeps(l: Inbound, t: Tunnel, events: seq<Event>)
    requires Inv(t) && DistinctIds(l, t, events)
    ensures Inv(Run(l, t, events))
    decreases |events|
  {
    if events != [] {
      StepKeeps(l, t, events[0]);
      RunKeeps(l, Step(l, t, events[0]), events[1..]);
    }
  }

  /** What the invariant says about the three tables. */
  lemma TablesAgree(l: Inbound, events: seq<Event>)
    requires DistinctIds(l, FRESH, events)
    ensures var t := Run(l, FRESH, events);
            && t.pending.at.Values == t.timers.Keys
            && t.timers.Keys == (set p | 0 <= p < t.promises && p !in Settled(t.settles))
            && SettledOnce(t.settles)
  {
    RunKeeps(l, FRESH, events);
    var t := Run(l, FRESH, events);
    forall p ensures p in t.pending.at.Values <==> p in t.timers {
      if p in t.timers { assert t.pending.at[t.timers[p]] == p; }
    }
  }

  /** Closing settles everything that still waits. */
  lemma CloseSettlesAll(t: Tunnel)
    requires Inv(t)
    ensures var r := CloseSocket(t);
            r.timers == map[] && r.pending.at == map[] && forall p :: 0 <= p < t.promises ==> p in Settled(r.settles)
  {
    RejectEachKeeps(t, t.pending.order);
    var r := RejectAll(t);
    assert forall id :: id !in r.pending.at;
    assert forall p :: p !in r.timers;
  }

  /** Distinctness is needed, and exactly: a request keeps the tables in step if and only
      if its id is not already waiting. */
  lemma RequestKeepsIffIdNotWaiting(t: Tunnel, id: string)
    requires Inv(t)
    ensures Inv(Request(t, id)) <==> id !in t.pending.at
  {
    if id in t.pending.at {
      var p, r := t.pending.at[id], Request(t, id);
      assert p in r.timers && r.timers[p] == id && r.pending.at[id] != p;
    } else {
      RequestKeeps(t, id);
    }
  }

  // ---------- Who resolves a promise ----------

  /** The ids that requests were made with: promise `p` is that of request number `p`. */
  function Requested(events: seq<Event>): seq<string> {
    if events == [] then [] else RequestedBy(events[0]) + Requested(events[1..])
  }

  function RequestedBy(ev: Event): seq<string> { if ev.Requests? then [ev.id] else [] }

  /** Who waits for what: each waiting id is that of the request its promise was made by. */
  ghost predicate Asked(t: Tunnel, ids: seq<string>) {
    && |ids| == t.promises
    && forall id :: id in t.pending.at ==> t.pending.at[id] < |ids| && ids[t.pending.at[id]] == id
  }

  function Resolves(settles: seq<Settle>): seq<Settle> {
    if settles == [] then []
    else
      var last := |settles| - 1;
      Resolves(settles[..last]) + if settles[last].Resolve? then [settles[last]] else []
  }

  lemma ResolvesOfMore(settles: seq<Settle>, s: Settle)
    ensures Resolves(settles + [s]) == Resolves(settles) + if s.Resolve? then [s] else []
  {
    assert (settles + [s])[..|settles|] == settles;
  }

  /** Nothing was resolved, and nobody new waits. */
  ghost predicate ResolvesNone(t: Tunnel, r: Tunnel) {
    && r.pending.Valid() && r.promises == t.promises && Resolves(r.settles) == Resolves(t.settles)
    && forall id :: id in r.pending.at ==> id in t.pending.at && r.pending.at[id] == t.pending.at[id]
  }

  lemma {:induction false} RejectsResolveNone(t: Tunnel, ids: seq<string>)
    requires t.pending.Valid()
    ensures ResolvesNone(t, RejectEach(t, ids))
    decreases |ids|
  {
    if ids != [] {
      if ids[0] in t.pending.at {
        var p := t.pending.at[ids[0]];
        ResolvesOfMore(t.settles, Reject(p));
        RejectsResolveNone(t.(pending := t.pending.Delete(ids[0]), timers := t.timers - {p},
                              settles := t.settles + [Reject(p)]), ids[1..]);
      } else {
        RejectsResolveNone(t, ids[1..]);
      }
    }
  }

  lemma CloseResolvesNone(t: Tunnel, ids: seq<string>)
    requires t.pending.Valid() && Asked(t, ids)
    ensures ResolvesNone(t, CloseSocket(t)) && Asked(CloseSocket(t), ids)
  {
    RejectsResolveNone(t, t.pending.order);
  }

  /** The promise that a message resolves. */
  function Answers(t: Tunnel, m: Message): seq<Settle> {
    if m.replyTo.None? || m.replyTo.value == "" || m.replyTo.value !in t.pending.at || m.isError then []
    else [Resolve(t.pending.at[m.replyTo.value], m)]
  }

  ghost function AnswersAt(l: Inbound, t: Tunnel, ev: Event): seq<Settle> {
    var ms := Delivers(l, t, ev);
    if ms == [] then [] else Answers(t, ms[0])
  }

  lemma ReplyResolves(t: Tunnel, m: Message, ids: seq<string>)
    requires t.pending.Valid() && Asked(t, ids)
    ensures var r := ResolvePending(t, m);
            r.pending.Valid() && Asked(r, ids) && Resolves(r.settles) == Resolves(t.settles) + Answers(t, m)
  {
    if ResolvePending(t, m) != t {
      var p := t.pending.at[m.replyTo.value];
      ResolvesOfMore(t.settles, if m.isError then Reject(p) else Resolve(p, m));
    }
  }

  /** Like `Answers`, for a frame just opened. */
  function AnswersIn(t: Tunnel, got: Opened, decode: bytes -> Option<Message>): seq<Settle> {
    var ms := MessageIn(got, decode);
    if ms == [] then [] else Answers(t, ms[0])
  }

  lemma DispatchResolves(t: Tunnel, got: Opened, decode: bytes -> Option<Message>, ids: seq<string>)
    requires t.pending.Valid() && Asked(t, ids)
    ensures var r := Dispatch(t, got, decode).0;
            && r.pending.Valid() && Asked(r, ids)
            && Resolves(r.settles) == Resolves(t.settles) + AnswersIn(t, got, decode)
  {
    var kind := got.frame.kind;
    if kind == Frames.CLOSE {
      CloseResolvesNone(t, ids);
      assert AnswersIn(t, got, decode) == [];
    } else if kind != Frames.PING && kind != Frames.PONG {
      var m := decode(got.plaintext);
      if m.Some? {
        ReplyResolves(t, m.value, ids);
        assert AnswersIn(t, got, decode) == Answers(t, m.value);
      }
    }
  }

  lemma StepHears(l: Inbound, t: Tunnel, raw: bytes)
    ensures var here := Accepts(l, t.lastReceiveSequence, Hears(raw));
            && Hear(l, t, raw).0
               == (if here == [] then Send(t)
                   else Dispatch(t.(lastReceiveSequence := here[0].frame.sequence), here[0], l.decode).0)
            && AnswersAt(l, t, Hears(raw)) == if here == [] then [] else AnswersIn(t, here[0], l.decode)
  {
  }

  lemma HearResolves(l: Inbound, t: Tunnel, raw: bytes, ids: seq<string>)
    requires t.pending.Valid() && Asked(t, ids)
    ensures var r := Hear(l, t, raw).0;
            && r.pending.Valid() && Asked(r, ids)
            && Resolves(r.settles) == Resolves(t.settles) + AnswersAt(l, t, Hears(raw))
  {
    StepHears(l, t, raw);
    var here := Accepts(l, t.lastReceiveSequence, Hears(raw));
    if here != [] {
      DispatchResolves(t.(lastReceiveSequence := here[0].frame.sequence), here[0], l.decode, ids);
    }
  }

  lemma StepResolves(l: Inbound, t: Tunnel, ev: Event, ids: seq<string>)
    requires t.pending.Valid() && Asked(t, ids)
    ensures var r := Step(l, t, ev);
            && r.pending.Valid() && Asked(r, ids + RequestedBy(ev))
            && Resolves(r.settles) == Resolves(t.settles) + AnswersAt(l, t, ev)
  {
    match ev
    case Requests(id) => RequestAsks(t, id, ids);
    case Sends =>
    case Hears(raw) => HearResolves(l, t, raw, ids);
    case TimesOut(p) => if p in t.timers { TimeOutResolvesNone(t, p, ids); }
    case Closes => CloseResolvesNone(t, ids);
  }

  lemma RequestAsks(t: Tunnel, id: string, ids: seq<string>)
    requires t.pending.Valid() && Asked(t, ids)
    ensures var r := Request(t, id);
            r.pending.Valid() && r.settles == t.settles && Asked(r, ids + [id])
  {
  }

  lemma TimeOutResolvesNone(t: Tunnel, p: nat, ids: seq<string>)
    requires t.pending.Valid() && Asked(t, ids) && p in t.timers
    ensures var r := TimeOut(t, p);
            r.pending.Valid() && Asked(r, ids) && Resolves(r.settles) == Resolves(t.settles)
  {
    ResolvesOfMore(t.settles, Reject(p));
  }

  /** Each of `rs` resolves a promise with a reply to its request, which the peer sealed as
      its frame number `js[k]`. */
  ghost predicate SealedReplies(l: Inbound, rs: seq<Settle>, ids: seq<string>, peer: seq<Seal>, js: seq<nat>) {
    && |js| == |rs|
    && forall k :: 0 <= k < |js| ==>
         && js[k] < |peer| && rs[k].Resolve? && rs[k].promise < |ids|
         && l.decode(peer[js[k]].plaintext) == Some(rs[k].message)
         && rs[k].message.replyTo == Some(ids[rs[k].promise]) && !rs[k].message.isError
  }

  lemma IdsAssoc(a: seq<string>, b: seq<string>, c: seq<string>)
    ensures (a + b) + c == a + (b + c)
  {
  }

  lemma AnswerWasSealed(l: Inbound, t: Tunnel, ev: Event, ids: seq<string>, peer: seq<Seal>) returns (j: nat)
    requires Ideal(l.seals) && SealedBy(l, peer) && Asked(t, ids) && AnswersAt(l, t, ev) != []
    ensures SealedReplies(l, AnswersAt(l, t, ev), ids, peer, [j]) && j < |peer|
    ensures t.lastReceiveSequence < peer[j].sequence == Step(l, t, ev).lastReceiveSequence
  {
    j := AcceptedIsPeerSeal(l, t, ev, peer);
  }

  lemma RepliesConcat(
      l: Inbound, a: seq<Settle>, b: seq<Settle>, ids: seq<string>, more: seq<string>, peer: seq<Seal>,
      js: seq<nat>, ks: seq<nat>)
    requires SealedReplies(l, a, ids, peer, js) && SealedReplies(l, b, ids + more, peer, ks)
    ensures SealedReplies(l, a + b, ids + more, peer, js + ks)
  {
  }

  /** What one more event adds. */
  lemma MoreReplies(
      l: Inbound, t: Tunnel, ev: Event, ids: seq<string>, more: seq<string>, peer: seq<Seal>,
      rest: seq<Settle>, ks: seq<nat>)
    returns (js: seq<nat>)
    requires Ideal(l.seals) && SealedBy(l, peer) && Asked(t, ids)
    requires SealedReplies(l, rest, ids + more, peer, ks) && Increasing(ks)
    requires SealedAfter(peer, ks, Step(l, t, ev).lastReceiveSequence)
    ensures SealedReplies(l, AnswersAt(l, t, ev) + rest, ids + more, peer, js)
    ensures Increasing(js) && SealedAfter(peer, js, t.lastReceiveSequence)
  {
    var here := AnswersAt(l, t, ev);
    if here == [] {
      AdvancesOnlyOnAccept(l, t, ev);
      assert here + rest == rest;
      js := ks;
    } else {
      var j := AnswerWasSealed(l, t, ev, ids, peer);
      RepliesConcat(l, here, rest, ids, more, peer, [j], ks);
      FirstPosition(l, peer, j, ks, t.lastReceiveSequence);
      js := [j] + ks;
    }
  }

  /** Every promise that a message resolves, in order. */
  ghost function AllAnswers(l: Inbound, t: Tunnel, events: seq<Event>): seq<Settle>
    decreases |events|
  {
    if events == [] then [] else AnswersAt(l, t, events[0]) + AllAnswers(l, Step(l, t, events[0]), events[1..])
  }

  lemma SettlesAssoc(a: seq<Settle>, b: seq<Settle>, c: seq<Settle>)
    ensures (a + b) + c == a + (b + c)
  {
  }

  lemma {:induction false} ResolvesAreAnswers(l: Inbound, t: Tunnel, events: seq<Event>, ids: seq<string>)
    requires t.pending.Valid() && Asked(t, ids)
    ensures Resolves(Run(l, t, events).settles) == Resolves(t.settles) + AllAnswers(l, t, events)
    decreases |events|
  {
    if events != [] {
      var ev := events[0];
      var t' := Step(l, t, ev);
      StepResolves(l, t, ev, ids);
      ResolvesAreAnswers(l, t', events[1..], ids + RequestedBy(ev));
      SettlesAssoc(Resolves(t.settles), AnswersAt(l, t, ev), AllAnswers(l, t', events[1..]));
    }
  }

  lemma {:induction false} AnswersAreSealed(
      l: Inbound, t: Tunnel, events: seq<Event>, ids: seq<string>, peer: seq<Seal>)
    returns (js: seq<nat>)
    requires Ideal(l.seals) && SealedBy(l, peer) && t.pending.Valid() && Asked(t, ids)
    ensures SealedReplies(l, AllAnswers(l, t, events), ids + Requested(events), peer, js)
    ensures Increasing(js) && SealedAfter(peer, js, t.lastReceiveSequence)
    decreases |events|
  {
    js := [];
    if events != [] {
      var ev := events[0];
      var t' := Step(l, t, ev);
      StepResolves(l, t, ev, ids);
      var ks := AnswersAreSealed(l, t', events[1..], ids + RequestedBy(ev), peer);
      IdsAssoc(ids, RequestedBy(ev), Requested(events[1..]));
      js := MoreReplies(l, t, ev, ids, Requested(events), peer, AllAnswers(l, t', events[1..]), ks);
    }
  }

  lemma NothingFirst<T>(s: seq<T>)
    ensures [] + s == s
  {
  }

  lemma FreshHasNone()
    ensures FRESH.pending.Valid() && Asked(FRESH, []) && Resolves(FRESH.settles) == []
  {
  }

  lemma ResolvedFrom(l: Inbound, t: Tunnel, events: seq<Event>, peer: seq<Seal>) returns (js: seq<nat>)
    requires Ideal(l.seals) && SealedBy(l, peer)
    requires t.pending.Valid() && Asked(t, []) && Resolves(t.settles) == []
    ensures SealedReplies(l, Resolves(Run(l, t, events).settles), Requested(events), peer, js)
    ensures Increasing(js)
  {
    ResolvesAreAnswers(l, t, events, []);
    js := AnswersAreSealed(l, t, events, [], peer);
    NothingFirst(Requested(events));
    NothingFirst(AllAnswers(l, t, events));
  }

  /** Main result, over every run: promises are resolved with replies to their own requests,
      which the peer sealed, in the peer's order and no frame twice. */
  lemma ResolvedWasSealed(l: Inbound, events: seq<Event>, peer: seq<Seal>) returns (js: seq<nat>)
    requires Ideal(l.seals) && SealedBy(l, peer)
    ensures SealedReplies(l, Resolves(Run(l, FRESH, events).settles), Requested(events), peer, js)
    ensures Increasing(js)
  {
    FreshHasNone();
    js := ResolvedFrom(l, FRESH, events, peer);
  }
}
