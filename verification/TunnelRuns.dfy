/** Whole runs of the tunnel endpoint: a network that drops, repeats, reorders or alters
    frames, and every order of requests, frames, timeouts and closes. */
module TunnelRuns {
  import opened Wrappers
  import opened Bytes
  import opened JsMaps
  import Frames
  import opened SecureChannel
  import opened TunnelClient

  /** Everything ever sealed, the key frames are opened with, and the message decoder. */
  datatype Inbound = Inbound(seals: set<Seal>, key: bytes, decode: bytes -> Option<Message>)

  datatype Event =
    | Requests(id: string)
    | Sends
    | Hears(raw: bytes)
    | TimesOut(promise: nat)
    | Closes

  /** What the receiver does with raw message `raw`. */
  ghost function Hear(l: Inbound, t: Tunnel, raw: bytes): (Tunnel, Received) {
    Receive(t, raw, OpenFrame(l.seals, l.key, raw), l.decode)
  }

  ghost function Step(l: Inbound, t: Tunnel, ev: Event): Tunnel {
    match ev
    case Requests(id) => Request(t, id)
    case Sends => Send(t)
    case Hears(raw) => Hear(l, t, raw).0
    case TimesOut(p) => if p in t.timers then TimeOut(t, p) else t
    case Closes => CloseSocket(t)
  }

  ghost function Run(l: Inbound, t: Tunnel, events: seq<Event>): Tunnel
    decreases |events|
  {
    if events == [] then t else Run(l, Step(l, t, events[0]), events[1..])
  }

  // ---------- Receiving from any network ----------

  /** The frame that this event brings after frame number `last`, if it is opened and not refused. */
  ghost function Accepts(l: Inbound, last: int, ev: Event): seq<Opened> {
    if !ev.Hears? then []
    else
      var peeked := Frames.PeekSequence(ev.raw);
      var unsealed := OpenFrame(l.seals, l.key, ev.raw);
      if peeked.Ok? && peeked.value > last && unsealed.Ok? then [unsealed.value] else []
  }

  /** Every frame that was opened and not refused, in order of arrival. */
  ghost function Accepted(l: Inbound, t: Tunnel, events: seq<Event>): seq<Opened>
    decreases |events|
  {
    if events == [] then []
    else Accepts(l, t.lastReceiveSequence, events[0]) + Accepted(l, Step(l, t, events[0]), events[1..])
  }

  ghost function Delivers(l: Inbound, t: Tunnel, ev: Event): seq<Message> {
    if !ev.Hears? then []
    else
      var r := Hear(l, t, ev.raw).1;
      if r.Delivered? then [r.message] else []
  }

  /** Every message handed to the handlers, in order. */
  ghost function Deliveries(l: Inbound, t: Tunnel, events: seq<Event>): seq<Message>
    decreases |events|
  {
    if events == [] then [] else Delivers(l, t, events[0]) + Deliveries(l, Step(l, t, events[0]), events[1..])
  }

  function MessagesIn(frames: seq<Opened>, decode: bytes -> Option<Message>): seq<Message> {
    if frames == [] then [] else MessageIn(frames[0], decode) + MessagesIn(frames[1..], decode)
  }

  function MessageIn(f: Opened, decode: bytes -> Option<Message>): seq<Message> {
    if f.frame.kind in {Frames.PING, Frames.PONG, Frames.CLOSE} then []
    else match decode(f.plaintext)
      case None => []
      case Some(m) => [m]
  }

  /** `peer` lists, in order, everything sealed under this key. */
  ghost predicate SealedBy(l: Inbound, peer: seq<Seal>) {
    && (forall s :: s in l.seals && s.key == l.key ==> s in peer)
    && (forall i :: 0 <= i < |peer| ==> peer[i] in l.seals && peer[i].key == l.key)
    && (forall i, j :: 0 <= i < j < |peer| ==> peer[i].sequence < peer[j].sequence)
  }

  ghost predicate Increasing(js: seq<nat>) {
    forall i, j :: 0 <= i < j < |js| ==> js[i] < js[j]
  }

  /** `frames` are the peer's seals at positions `js`. */
  ghost predicate Picks(frames: seq<Opened>, peer: seq<Seal>, js: seq<nat>) {
    && |js| == |frames|
    && (forall k :: 0 <= k < |js| ==>
          js[k] < |peer| && frames[k] == Opened(PartsOf(peer[js[k]]), peer[js[k]].plaintext))
  }

  /** Every position is one of a frame after number `last`. */
  ghost predicate SealedAfter(peer: seq<Seal>, js: seq<nat>, last: int) {
    forall k :: 0 <= k < |js| ==> js[k] < |peer| && last < peer[js[k]].sequence
  }

  lemma AdvancesOnlyOnAccept(l: Inbound, t: Tunnel, ev: Event)
    requires Ideal(l.seals)
    ensures var here := Accepts(l, t.lastReceiveSequence, ev);
            && Step(l, t, ev).lastReceiveSequence
               == (if here == [] then t.lastReceiveSequence else here[0].frame.sequence)
            && (here != [] ==> t.lastReceiveSequence < here[0].frame.sequence)
            && (here == [] && ev.Hears? ==> Step(l, t, ev) == Send(t))
  {
    RejectKeepsCounters(t);
    if ev.Hears? && OpenFrame(l.seals, l.key, ev.raw).Ok? {
      var t' := t.(lastReceiveSequence := OpenFrame(l.seals, l.key, ev.raw).value.frame.sequence);
      RejectKeepsCounters(t');
      Frames.PeekAgreesWithDecode(ev.raw);
    }
  }

  lemma RejectKeepsCounters(t: Tunnel)
    ensures RejectAll(t).lastReceiveSequence == t.lastReceiveSequence
    ensures RejectAll(t).sendSequence == t.sendSequence && RejectAll(t).sent == t.sent
  {
    RejectEachKeepsCounters(t, t.pending.order);
  }

  lemma {:induction false} RejectEachKeepsCounters(t: Tunnel, ids: seq<string>)
    ensures var r := RejectEach(t, ids);
            r.lastReceiveSequence == t.lastReceiveSequence && r.sendSequence == t.sendSequence && r.sent == t.sent
    decreases |ids|
  {
    if ids != [] {
      if ids[0] in t.pending.at {
        var p := t.pending.at[ids[0]];
        RejectEachKeepsCounters(t.(pending := t.pending.Delete(ids[0]), timers := t.timers - {p},
                                   settles := t.settles + [Reject(p)]), ids[1..]);
      } else {
        RejectEachKeepsCounters(t, ids[1..]);
      }
    }
  }

  lemma PickFirst(frame: Opened, frames: seq<Opened>, peer: seq<Seal>, j: nat, js: seq<nat>)
    requires Picks(frames, peer, js) && j < |peer| && frame == Opened(PartsOf(peer[j]), peer[j].plaintext)
    ensures Picks([frame] + frames, peer, [j] + js)
  {
  }

  /** A position whose frame comes before those of all the others comes before them. */
  lemma FirstPosition(l: Inbound, peer: seq<Seal>, j: nat, js: seq<nat>, last: int)
    requires SealedBy(l, peer) && j < |peer| && last < peer[j].sequence
    requires Increasing(js) && SealedAfter(peer, js, peer[j].sequence)
    ensures Increasing([j] + js) && SealedAfter(peer, [j] + js, last)
  {
    forall k | 0 <= k < |js| ensures j < js[k] {
      assert peer[j].sequence < peer[js[k]].sequence;
    }
  }

  lemma AcceptedIsPeerSeal(l: Inbound, t: Tunnel, ev: Event, peer: seq<Seal>) returns (j: nat)
    requires Ideal(l.seals) && SealedBy(l, peer) && Accepts(l, t.lastReceiveSequence, ev) != []
    ensures j < |peer| && Accepts(l, t.lastReceiveSequence, ev) == [Opened(PartsOf(peer[j]), peer[j].plaintext)]
    ensures t.lastReceiveSequence < peer[j].sequence == Step(l, t, ev).lastReceiveSequence
  {
    AdvancesOnlyOnAccept(l, t, ev);
    var s := OpenedWasSealed(l.seals, l.key, ev.raw);
    j :| 0 <= j < |peer| && peer[j] == s;
    Frames.PeekAgreesWithDecode(ev.raw);
  }

  /** Main result: whatever arrives, and whatever is requested and closed meanwhile, the
      accepted frames are a subsequence of what the peer sealed, in the peer's order and
      without repetition. */
  lemma {:induction false} AcceptedIsSubsequence(l: Inbound, t: Tunnel, events: seq<Event>, peer: seq<Seal>)
    returns (js: seq<nat>)
    requires Ideal(l.seals) && SealedBy(l, peer)
    ensures Picks(Accepted(l, t, events), peer, js) && Increasing(js) && SealedAfter(peer, js, t.lastReceiveSequence)
    decreases |events|
  {
    js := [];
    if events != [] {
      var ev := events[0];
      AdvancesOnlyOnAccept(l, t, ev);
      var rest := AcceptedIsSubsequence(l, Step(l, t, ev), events[1..], peer);
      js := rest;
      if Accepts(l, t.lastReceiveSequence, ev) != [] {
        var j := AcceptedIsPeerSeal(l, t, ev, peer);
        PickFirst(Accepts(l, t.lastReceiveSequence, ev)[0], Accepted(l, Step(l, t, ev), events[1..]), peer, j, rest);
        FirstPosition(l, peer, j, rest, t.lastReceiveSequence);
        js := [j] + rest;
      }
    }
  }

  lemma DeliveryIsMessageOfAccepted(l: Inbound, t: Tunnel, ev: Event)
    ensures Delivers(l, t, ev) == MessagesIn(Accepts(l, t.lastReceiveSequence, ev), l.decode)
  {
    var here := Accepts(l, t.lastReceiveSequence, ev);
    if here != [] { assert MessagesIn(here, l.decode) == MessageIn(here[0], l.decode) + MessagesIn([], l.decode); }
  }

  lemma MessagesInConcat(a: seq<Opened>, b: seq<Opened>, decode: bytes -> Option<Message>)
    requires |a| <= 1
    ensures MessagesIn(a + b, decode) == MessagesIn(a, decode) + MessagesIn(b, decode)
  {
    if a == [] { assert a + b == b; } else { assert (a + b)[1..] == b; }
  }

  lemma {:induction false} DeliveriesAreAcceptedMessages(l: Inbound, t: Tunnel, events: seq<Event>)
    ensures Deliveries(l, t, events) == MessagesIn(Accepted(l, t, events), l.decode)
    decreases |events|
  {
    if events != [] {
      var t' := Step(l, t, events[0]);
      DeliveriesAreAcceptedMessages(l, t', events[1..]);
      DeliveryIsMessageOfAccepted(l, t, events[0]);
      MessagesInConcat(Accepts(l, t.lastReceiveSequence, events[0]), Accepted(l, t', events[1..]), l.decode);
    }
  }

  /** The frames of `peer`, in order, among any other events. */
  ghost predicate BringsInOrder(events: seq<Event>, peer: seq<Seal>)
    requires forall i :: 0 <= i < |peer| ==> WellFormed(peer[i])
    decreases |events|
  {
    if events == [] then peer == []
    else if !events[0].Hears? then BringsInOrder(events[1..], peer)
    else peer != [] && events[0].raw == Wire(peer[0]) && BringsInOrder(events[1..], peer[1..])
  }

  function OpenedAll(peer: seq<Seal>): seq<Opened> {
    if peer == [] then [] else [Opened(PartsOf(peer[0]), peer[0].plaintext)] + OpenedAll(peer[1..])
  }

  /** An in-order, lossless network: everything is accepted, whatever else happens meanwhile. */
  lemma {:induction false} InOrderAcceptsAll(l: Inbound, t: Tunnel, events: seq<Event>, peer: seq<Seal>)
    requires Ideal(l.seals)
    requires forall i :: 0 <= i < |peer| ==> peer[i] in l.seals && peer[i].key == l.key
    requires forall i, j :: 0 <= i < j < |peer| ==> peer[i].sequence < peer[j].sequence
    requires forall i :: 0 <= i < |peer| ==> t.lastReceiveSequence < peer[i].sequence
    requires BringsInOrder(events, peer)
    ensures Accepted(l, t, events) == OpenedAll(peer)
    decreases |events|
  {
    if events != [] {
      AdvancesOnlyOnAccept(l, t, events[0]);
      if events[0].Hears? {
        SealedOpens(l.seals, peer[0]);
        Frames.PeekAgreesWithDecode(Wire(peer[0]));
        Frames.DecodeOfEncode(PartsOf(peer[0]));
        InOrderAcceptsAll(l, Step(l, t, events[0]), events[1..], peer[1..]);
      } else {
        InOrderAcceptsAll(l, Step(l, t, events[0]), events[1..], peer);
      }
    }
  }
}
