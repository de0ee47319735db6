/** From the handshake to the service: what is served on a connection is what the client that
    completed that connection's handshake asked for. */
module DataService {
  import opened Wrappers
  import opened Bytes
  import opened DataHandshake
  import opened HandshakeAgreement
  import opened DataExchange
  import opened DataPlane
  import opened DataPlaneGate
  import opened DataPlaneRuns
  import Tickets
  import SecureChannel

  /** Connections are opened by the runs of the node, each under the key its session receives
      under. */
  ghost predicate OpenedByRuns(k: Crypto, h: History, events: seq<Event<Run, Service>>) {
    forall i :: 0 <= i < |events| && events[i].Accepted? ==>
      && events[i].run in h.runs && RunSession(k, events[i].run).Some?
      && events[i].receiveKey == RunSession(k, events[i].run).value.receiveKey
  }

  /** The payload that arrived on a run's connection is the one its client sealed. */
  ghost predicate AskedByClient(k: Crypto, v: Env, h: History, r: Run, raw: bytes, p: Payload) {
    forall d :: d in h.completions && Matches(k, d.client, Accept(d), r) ==>
      && SecureChannel.WellFormed(h.request(d)) && SecureChannel.Wire(h.request(d)) == raw
      && v.n.parsePayload(h.request(d).plaintext) == Some(p)
  }

  lemma SealedIsRequest(k: Crypto, v: Env, h: History, r: Run, raw: bytes, p: Payload)
    requires DataExchange.Sound(k, h) && SecureChannel.Ideal(v.seals) && h.seals == v.seals
    requires r in h.runs && RunSession(k, r).Some? && Sealed(v, RunSession(k, r).value.receiveKey, raw, p)
    ensures AskedByClient(k, v, h, r, raw, p)
  {
    var key := RunSession(k, r).value.receiveKey;
    var s :| s in v.seals && s.key == key && SecureChannel.WellFormed(s) && SecureChannel.Wire(s) == raw
      && v.n.parsePayload(s.plaintext) == Some(p);
    SecureChannel.SealedOpens(v.seals, s);
    forall d | d in h.completions && Matches(k, d.client, Accept(d), r)
      ensures SecureChannel.WellFormed(h.request(d)) && SecureChannel.Wire(h.request(d)) == raw
      ensures v.n.parsePayload(h.request(d).plaintext) == Some(p)
    {
      RequestIsFromPeer(k, h, d, r, raw);
    }
  }

  /** The run behind a connection on which a request arrived. */
  lemma RunOfArrival(
      k: Crypto, h: History, max: int, events: seq<Event<Run, Service>>, ev: Event<Run, Service>)
    returns (r: Run)
    requires Legal(max, events) && OpenedByRuns(k, h, events) && ev in events && ev.Arrives?
    ensures r in h.runs && RunSession(k, r).Some? && RunSession(k, r).value.receiveKey == ev.receiveKey
  {
    ArrivalWasAccepted(max, events, ev);
    var i :| 0 <= i < |events| && events[i].Accepted?
      && events[i].conn == ev.conn && events[i].receiveKey == ev.receiveKey;
    r := events[i].run;
  }

  /** Main result: over every run of the node, whatever is served came in on the connection of
      one handshake run; it is what the client of that handshake asked, if that client completed
      it; and a ticket issued for this node covers it. */
  lemma ServedIsClientsRequest(k: Crypto, v: Env, h: History, events: seq<Event<Run, Service>>, a: nat)
    returns (r: Run, p: Payload, i: Tickets.Issue)
    requires DataExchange.Sound(k, h) && SaneEnv(v) && h.seals == v.seals
    requires Honest(v, events) && OpenedByRuns(k, h, events) && Legal(v.n.maxEntries, events)
    requires a < |After(v.n.maxEntries, events).served|
    ensures var s := After(v.n.maxEntries, events).served[a];
            && s.event.Arrives? && s.event.offer.Some? && r in h.runs && RunSession(k, r).Some?
            && RunSession(k, r).value.receiveKey == s.event.receiveKey
            && AskedByClient(k, v, h, r, s.event.raw, p) && AsksFor(v.n, p, s.event.offer.value.service.request)
            && Covers(v, i, p, s.event.offer.value.service.request, s.event.now)
  {
    var s := After(v.n.maxEntries, events).served[a];
    p, i := ServedIsJustified(v, events, a);
    RunKeeps(v.n.maxEntries, events);
    r := RunOfArrival(k, h, v.n.maxEntries, events, s.event);
    SealedIsRequest(k, v, h, r, s.event.raw, p);
  }
}
