/** Every run of a node's data plane: any number of connections, any interleaving, one replay
    cache, a clock that does not go back. */
module DataPlaneRuns {
  import opened Wrappers
  import opened Bytes
  import opened Tickets
  import opened RequestTickets
  import opened Replay
  import opened ReplayRuns
  import opened DataPlane
  import opened DataPlaneGate
  import opened DataHandshake
  import Dedupe
  import ProxyServe
  import SecureChannel
  import Paseto

  /** Everything ever sealed, and every ticket ever signed. */
  datatype Env = Env(n: Node, seals: set<SecureChannel.Seal>, issues: set<Issue>)

  ghost predicate SaneEnv(v: Env) {
    SaneNode(v.n) && Issued(v.n.k, v.issues) && SecureChannel.Ideal(v.seals)
  }

  datatype Service = Service(request: ProxyServe.ServeRequest, ticket: VerifiedTicket)

  /** Everything but the replay cache: what a frame offers, if it passes. */
  ghost function OfferOf(v: Env, receiveKey: bytes, raw: bytes, now: int, later: int): Option<Offer<Service>> {
    match ReadRequest(v.n, v.seals, receiveKey, raw)
    case None => None
    case Some(p) =>
      match Bind(v.n, p)
      case Err(_) => None
      case Ok(b) => OfferBound(v, p, b, now, later)
  }

  ghost function OfferBound(v: Env, p: Payload, b: Bound, now: int, later: int): Option<Offer<Service>> {
    match CheckTicket(v.n.k, v.issues, SpendingOf(v.n, p, b.request, now, later))
    case Err(_) => None
    case Ok(t) => Some(Offer(Call(t.claims.jti, t.claims.exp, later), Service(b.serve, t)))
  }

  /** The node's decision is the offer, put to the replay cache. */
  lemma ResolveIsOffer(v: Env, c: Cache, receiveKey: bytes, raw: bytes, now: int, later: int)
    ensures var (d, next) := Resolve(v.n, v.seals, v.issues, c, receiveKey, raw, now, later);
            match OfferOf(v, receiveKey, raw, now, later)
            case None => !d.Serve? && next == c
            case Some(o) =>
              && next == Consume(c, v.n.maxEntries, o.call).0
              && d == if Consume(c, v.n.maxEntries, o.call).1 then Serve(o.service.request, o.service.ticket)
                      else Unauthorized(Replayed)
  {
  }

  /** A request frame brings the offer that the node computes from it. */
  ghost predicate HonestEvent(v: Env, ev: Event<Run, Service>) {
    ev.Arrives? ==> ev.offer == OfferOf(v, ev.receiveKey, ev.raw, ev.now, ev.later)
  }

  ghost predicate Honest(v: Env, events: seq<Event<Run, Service>>) {
    forall i :: 0 <= i < |events| ==> HonestEvent(v, events[i])
  }

  // ---------- The node's decisions, over a run ----------

  ghost function DecisionOn(v: Env, c: Cache, ev: Event<Run, Service>): (Decision, Cache)
    requires ev.Arrives?
  {
    Resolve(v.n, v.seals, v.issues, c, ev.receiveKey, ev.raw, ev.now, ev.later)
  }

  /** Refused before the replay step. */
  ghost predicate RefusedEarly(v: Env, c: Cache, ev: Event<Run, Service>) {
    ev.Arrives? &&
    match DecisionOn(v, c, ev).0
    case BadRequest => true
    case Unauthorized(x) => x != Replayed
    case Serve(_, _) => false
  }

  /** Every request of a run leaves the cache that the node's decision leaves, and is served
      exactly if that decision is to serve it, and what it says. */
  lemma ArrivalIsDecision(v: Env, w: World<Run, Service>, ev: Event<Run, Service>)
    requires ev.Arrives? && HonestEvent(v, ev)
    ensures var (d, cache) := DecisionOn(v, w.cache, ev);
            var next := Next(w, v.n.maxEntries, ev);
            && next.cache == cache
            && next.served == (if d.Serve? then w.served + [Served(ev, |w.calls|)] else w.served)
            && (d.Serve? ==> ev.offer.Some? && ev.offer.value.service == Service(d.request, d.ticket))
  {
    ResolveIsOffer(v, w.cache, ev.receiveKey, ev.raw, ev.now, ev.later);
  }

  /** Refused before the replay step, under whatever cache, is bringing no call. */
  lemma RefusedEarlyIff(v: Env, c: Cache, ev: Event<Run, Service>)
    requires HonestEvent(v, ev)
    ensures RefusedEarly(v, c, ev) <==> NoCall(ev)
  {
    if ev.Arrives? { ResolveIsOffer(v, c, ev.receiveKey, ev.raw, ev.now, ev.later); }
  }

  /** The run without the requests that were refused before the replay step. */
  ghost function WithoutRefused(v: Env, events: seq<Event<Run, Service>>): seq<Event<Run, Service>> {
    if events == [] then []
    else
      var before, ev := events[..|events| - 1], events[|events| - 1];
      WithoutRefused(v, before) +
      if RefusedEarly(v, After(v.n.maxEntries, before).cache, ev) then [] else [ev]
  }

  lemma {:induction false} RefusedAreNoCalls(v: Env, events: seq<Event<Run, Service>>)
    requires Honest(v, events)
    ensures WithoutRefused(v, events) == WithCalls(events)
    ensures Honest(v, WithoutRefused(v, events))
  {
    if events != [] {
      var before, ev := events[..|events| - 1], events[|events| - 1];
      RefusedAreNoCalls(v, before);
      RefusedEarlyIff(v, After(v.n.maxEntries, before).cache, ev);
    }
  }

  /** Main result: what the node refuses before the replay step burns no ticket and changes no
      other answer. Without those requests the run is still a run, and the cache, its history
      and everything served are the same. */
  lemma RefusedLeaveNoTrace(v: Env, events: seq<Event<Run, Service>>)
    requires Honest(v, events) && Legal(v.n.maxEntries, events)
    ensures var rest := WithoutRefused(v, events);
            && Honest(v, rest) && Legal(v.n.maxEntries, rest)
            && After(v.n.maxEntries, rest).cache == After(v.n.maxEntries, events).cache
            && After(v.n.maxEntries, rest).calls == After(v.n.maxEntries, events).calls
            && After(v.n.maxEntries, rest).served == After(v.n.maxEntries, events).served
  {
    RefusedAreNoCalls(v, events);
    WithoutNoCalls(v.n.maxEntries, events);
  }

  // ---------- What a service proves ----------

  /** `p` arrived sealed under the key of its connection. */
  ghost predicate Sealed(v: Env, receiveKey: bytes, raw: bytes, p: Payload) {
    exists s :: s in v.seals && s.key == receiveKey && SecureChannel.WellFormed(s) && SecureChannel.Wire(s) == raw
      && v.n.parsePayload(s.plaintext) == Some(p)
  }

  /** `i` was issued for this node and for the key recomputed from what is served for `p`. */
  ghost predicate Covers(v: Env, i: Issue, p: Payload, s: ProxyServe.ServeRequest, now: int) {
    && i in v.issues && i.nodeId == v.n.id
    && Dedupe.GenerateDedupeKey(v.n.e.p, BoundRequest(v.n, p, s)) == Some(i.dedupeKey)
    && i.now <= now + CLOCK_TOLERANCE && now <= ClaimsOf(i).exp + CLOCK_TOLERANCE
  }

  lemma BoundIsCovered(v: Env, p: Payload, b: Bound, now: int, later: int) returns (i: Issue)
    requires RoundTrips(v.n.k) && Paseto.Short(v.n.k.utf8(v.n.id)) && Issued(v.n.k, v.issues)
    requires |p.token| < Paseto.TWO_63
    requires OfferBound(v, p, b, now, later).Some?
    ensures i in v.issues && i.nodeId == v.n.id && Dedupe.GenerateDedupeKey(v.n.e.p, b.request) == Some(i.dedupeKey)
    ensures i.now <= now + CLOCK_TOLERANCE && now <= ClaimsOf(i).exp + CLOCK_TOLERANCE
    ensures var o := OfferBound(v, p, b, now, later).value;
            && o.call == Call(i.jti, ClaimsOf(i).exp, later)
            && o.service.request == b.serve && o.service.ticket.claims == ClaimsOf(i)
  {
    i := VerifiedWasIssued(v.n.k, v.issues, p.token, OptionsOf(SpendingOf(v.n, p, b.request, now, later)));
  }

  /** What an offer proves. */
  lemma OfferIsJustified(v: Env, receiveKey: bytes, raw: bytes, now: int, later: int) returns (p: Payload, i: Issue)
    requires SaneEnv(v) && OfferOf(v, receiveKey, raw, now, later).Some?
    ensures Sealed(v, receiveKey, raw, p)
    ensures var o := OfferOf(v, receiveKey, raw, now, later).value;
            && o.call == Call(i.jti, ClaimsOf(i).exp, later)
            && AsksFor(v.n, p, o.service.request) && Covers(v, i, p, o.service.request, now)
  {
    var s := SecureChannel.OpenedWasSealed(v.seals, receiveKey, raw);
    p := ReadRequest(v.n, v.seals, receiveKey, raw).value;
    BindMeans(v.n, p);
    i := BoundIsCovered(v, p, Bind(v.n, p).value, now, later);
  }

  /** Main result: in every run, whatever is served was sealed under its connection's key and
      is covered by a ticket issued for this node and this very request; that ticket's id is
      the one the replay cache let through. */
  lemma ServedIsJustified(v: Env, events: seq<Event<Run, Service>>, a: nat) returns (p: Payload, i: Issue)
    requires SaneEnv(v) && Honest(v, events) && Legal(v.n.maxEntries, events)
    requires a < |After(v.n.maxEntries, events).served|
    ensures var w := After(v.n.maxEntries, events);
            var s := w.served[a];
            && s.event.Arrives? && s.event.offer.Some? && s.call < |w.calls|
            && Sealed(v, s.event.receiveKey, s.event.raw, p)
            && AsksFor(v.n, p, s.event.offer.value.service.request)
            && Covers(v, i, p, s.event.offer.value.service.request, s.event.now)
            && w.calls[s.call] == Call(i.jti, ClaimsOf(i).exp, s.event.later)
  {
    var w := After(v.n.maxEntries, events);
    var s := w.served[a];
    RunKeeps(v.n.maxEntries, events);
    assert LetThrough(w.calls, v.n.maxEntries, s);
    p, i := OfferIsJustified(v, s.event.receiveKey, s.event.raw, s.event.now, s.event.later);
  }

  /** Two services, to two connections; for one ticket id only if the first ticket had expired
      by the second, or a whole cache of other ids was accepted in between. */
  ghost predicate SeparateUses(
      max: int, calls: seq<Call>, s: Served<Run, Service>, t: Served<Run, Service>, i: Issue, j: Issue)
  {
    && s.event.conn != t.event.conn && s.call < t.call < |calls|
    && (i.jti == j.jti ==>
          || ClaimsOf(i).exp <= calls[t.call].now
          || |AcceptedBetween(max, calls, s.call, t.call) - {i.jti}| >= Capacity(max))
  }

  /** Main result: over any run, a ticket is served at most once while it has not expired and
      fewer other ids than the cache holds were accepted in between. */
  lemma TicketServedOnce(v: Env, events: seq<Event<Run, Service>>, a: nat, b: nat)
    returns (p: Payload, i: Issue, q: Payload, j: Issue)
    requires SaneEnv(v) && Honest(v, events) && Legal(v.n.maxEntries, events)
    requires a < b < |After(v.n.maxEntries, events).served|
    ensures var w := After(v.n.maxEntries, events);
            var s, t := w.served[a], w.served[b];
            && s.event.Arrives? && s.event.offer.Some?
            && Covers(v, i, p, s.event.offer.value.service.request, s.event.now)
            && t.event.Arrives? && t.event.offer.Some?
            && Covers(v, j, q, t.event.offer.value.service.request, t.event.now)
            && SeparateUses(v.n.maxEntries, w.calls, s, t, i, j)
  {
    var w := After(v.n.maxEntries, events);
    RunKeeps(v.n.maxEntries, events);
    p, i := ServedIsJustified(v, events, a);
    q, j := ServedIsJustified(v, events, b);
    if i.jti == j.jti { ServedOnce(v.n.maxEntries, w, a, b); }
  }
}
