/** Connections that share one replay cache: each carries one request, and a request is
    served when its ticket id is new to the cache. */
module DataPlaneGate {
  import opened Wrappers
  import opened Bytes
  import opened JsMaps
  import opened Replay
  import opened ReplayRuns

  /** What a request that passed every other check asks the cache, and what it is to get. */
  datatype Offer<S> = Offer(call: Call, service: S)

  /** A connection waits for its one request under the key of its handshake, or is done. */
  datatype Phase = AwaitRequest(receiveKey: bytes) | Closed

  /** A handshake run completes; or a request frame arrives. `offer` is `None` when the frame is
      refused before the replay step. */
  datatype Event<H, S> =
    | Accepted(conn: nat, receiveKey: bytes, run: H)
    | Arrives(conn: nat, receiveKey: bytes, raw: bytes, now: int, later: int, offer: Option<Offer<S>>)

  /** One request served, and which call of the cache let it through. */
  datatype Served<H, S> = Served(event: Event<H, S>, call: nat)

  /** `calls` is the history of the cache. */
  datatype World<H, S> = World(
    conns: map<nat, Phase>,
    cache: Cache,
    calls: seq<Call>,
    served: seq<Served<H, S>>,
    clock: int)

  function Start<H, S>(): World<H, S> { World(map[], FRESH_CACHE, [], [], 0) }

  /** Connection ids are new; a request uses its connection's key; the clock does not go back. */
  predicate Enabled<H, S>(w: World<H, S>, ev: Event<H, S>) {
    match ev
    case Accepted(conn, _, _) => conn !in w.conns
    case Arrives(conn, key, _, now, later, offer) =>
      && conn in w.conns && w.conns[conn] == AwaitRequest(key) && w.clock <= now <= later
      && (offer.Some? ==> offer.value.call.now == later)
  }

  function Next<H, S>(w: World<H, S>, max: int, ev: Event<H, S>): World<H, S> {
    match ev
    case Accepted(conn, key, _) => w.(conns := w.conns[conn := AwaitRequest(key)])
    case Arrives(conn, _, _, _, later, offer) =>
      var closed := w.(conns := w.conns[conn := Closed], clock := later);
      match offer
      case None => closed
      case Some(o) =>
        var (cache, isNew) := Consume(w.cache, max, o.call);
        closed.(cache := cache, calls := w.calls + [o.call],
                served := if isNew then w.served + [Served(ev, |w.calls|)] else w.served)
  }

  function After<H, S>(max: int, events: seq<Event<H, S>>): World<H, S> {
    if events == [] then Start() else Next(After(max, events[..|events| - 1]), max, events[|events| - 1])
  }

  predicate Legal<H, S>(max: int, events: seq<Event<H, S>>) {
    events == [] ||
    (Legal(max, events[..|events| - 1]) && Enabled(After(max, events[..|events| - 1]), events[|events| - 1]))
  }

  // ---------- The invariant ----------

  /** The cache is what its history made it, at non-decreasing times. */
  ghost predicate CacheIsHistory<H, S>(w: World<H, S>, max: int) {
    && w.cache == Run(FRESH_CACHE, max, w.calls)
    && (forall i :: 0 <= i < |w.calls| ==> w.calls[i].now <= w.clock)
    && (forall i, j :: 0 <= i < j < |w.calls| ==> w.calls[i].now <= w.calls[j].now)
  }

  /** The cache call of a served request: in the history, and accepted there. */
  ghost predicate LetThrough<H, S>(calls: seq<Call>, max: int, s: Served<H, S>) {
    && s.call < |calls| && s.event.Arrives? && s.event.offer.Some? && s.event.offer.value.call == calls[s.call]
    && Consume(Run(FRESH_CACHE, max, calls[..s.call]), max, calls[s.call]).1
  }

  /** Each served request has its own connection, now closed, and its own cache call. */
  ghost predicate OncePerConnection<H, S>(w: World<H, S>) {
    && (forall i, j :: 0 <= i < j < |w.served| ==>
          w.served[i].call < w.served[j].call && w.served[i].event.conn != w.served[j].event.conn)
    && (forall i :: 0 <= i < |w.served| ==>
          w.served[i].event.conn in w.conns && w.conns[w.served[i].event.conn].Closed?)
  }

  ghost predicate Inv<H, S>(w: World<H, S>, max: int) {
    && CacheIsHistory(w, max)
    && (forall i :: 0 <= i < |w.served| ==> LetThrough(w.calls, max, w.served[i]))
    && OncePerConnection(w)
  }

  lemma {:induction false} RunAppend(c: Cache, max: int, calls: seq<Call>, call: Call)
    ensures Run(c, max, calls + [call]) == Consume(Run(c, max, calls), max, call).0
    decreases |calls|
  {
    if calls == [] {
      assert calls + [call] == [call];
      assert Run(Consume(c, max, call).0, max, [call][1..]) == Consume(c, max, call).0;
    } else {
      assert (calls + [call])[1..] == calls[1..] + [call];
      RunAppend(Consume(c, max, calls[0]).0, max, calls[1..], call);
    }
  }

  lemma LetThroughStays<H, S>(calls: seq<Call>, call: Call, max: int, s: Served<H, S>)
    requires LetThrough(calls, max, s)
    ensures LetThrough(calls + [call], max, s)
  {
    assert (calls + [call])[..s.call] == calls[..s.call];
  }

  lemma NewLetThrough<H, S>(w: World<H, S>, max: int, ev: Event<H, S>)
    requires w.cache == Run(FRESH_CACHE, max, w.calls) && ev.Arrives? && ev.offer.Some?
    requires Consume(w.cache, max, ev.offer.value.call).1
    ensures LetThrough(w.calls + [ev.offer.value.call], max, Served(ev, |w.calls|))
  {
    assert (w.calls + [ev.offer.value.call])[..|w.calls|] == w.calls;
  }

  lemma NextKeepsHistory<H, S>(w: World<H, S>, max: int, ev: Event<H, S>)
    requires CacheIsHistory(w, max) && Enabled(w, ev)
    ensures CacheIsHistory(Next(w, max, ev), max)
  {
    if ev.Arrives? && ev.offer.Some? { RunAppend(FRESH_CACHE, max, w.calls, ev.offer.value.call); }
  }

  lemma NextKeepsServed<H, S>(w: World<H, S>, max: int, ev: Event<H, S>)
    requires Inv(w, max) && Enabled(w, ev)
    ensures var w' := Next(w, max, ev);
            forall i :: 0 <= i < |w'.served| ==> LetThrough(w'.calls, max, w'.served[i])
  {
    if ev.Arrives? && ev.offer.Some? {
      var call := ev.offer.value.call;
      var w' := Next(w, max, ev);
      forall i | 0 <= i < |w'.served| ensures LetThrough(w'.calls, max, w'.served[i]) {
        if i < |w.served| { LetThroughStays(w.calls, call, max, w.served[i]); } else { NewLetThrough(w, max, ev); }
      }
    }
  }

  lemma NextKeepsOnce<H, S>(w: World<H, S>, max: int, ev: Event<H, S>)
    requires Inv(w, max) && Enabled(w, ev)
    ensures OncePerConnection(Next(w, max, ev))
  {
    forall i | 0 <= i < |w.served| ensures w.served[i].call < |w.calls| && w.served[i].event.conn != ev.conn {
      assert LetThrough(w.calls, max, w.served[i]);
    }
  }

  lemma {:induction false} RunKeeps<H, S>(max: int, events: seq<Event<H, S>>)
    requires Legal(max, events)
    ensures Inv(After(max, events), max)
    ensures forall i :: 0 <= i < |After(max, events).served| ==> After(max, events).served[i].event in events
  {
    if events != [] {
      var before, ev := events[..|events| - 1], events[|events| - 1];
      var w := After(max, before);
      RunKeeps(max, before);
      NextKeepsHistory(w, max, ev);
      NextKeepsServed(w, max, ev);
      NextKeepsOnce(w, max, ev);
      assert events == before + [ev];
    }
  }

  // ---------- Requests that bring the cache no call ----------

  predicate NoCall<H, S>(ev: Event<H, S>) { ev.Arrives? && ev.offer.None? }

  function WithCalls<H, S>(events: seq<Event<H, S>>): seq<Event<H, S>> {
    if events == [] then []
    else
      WithCalls(events[..|events| - 1]) +
      if NoCall(events[|events| - 1]) then [] else [events[|events| - 1]]
  }

  /** The same, but for connections that still wait and a clock that lags. */
  ghost predicate SameTrace<H, S>(w: World<H, S>, v: World<H, S>) {
    && w.cache == v.cache && w.calls == v.calls && w.served == v.served
    && w.conns.Keys == v.conns.Keys && v.clock <= w.clock
    && forall c :: c in w.conns && w.conns[c].AwaitRequest? ==> v.conns[c] == w.conns[c]
  }

  lemma OneMore<H, S>(max: int, events: seq<Event<H, S>>, ev: Event<H, S>)
    requires Legal(max, events) && Enabled(After(max, events), ev)
    ensures Legal(max, events + [ev]) && After(max, events + [ev]) == Next(After(max, events), max, ev)
  {
    assert (events + [ev])[..|events + [ev]| - 1] == events;
  }

  lemma SameNext<H, S>(w: World<H, S>, v: World<H, S>, max: int, ev: Event<H, S>)
    requires SameTrace(w, v) && Enabled(w, ev)
    ensures Enabled(v, ev) && SameTrace(Next(w, max, ev), Next(v, max, ev))
    ensures NoCall(ev) ==> SameTrace(Next(w, max, ev), v)
  {
  }

  /** Without the requests that bring no call, a run is still a run, and the cache and every
      service are the same. */
  lemma {:induction false} WithoutNoCalls<H, S>(max: int, events: seq<Event<H, S>>)
    requires Legal(max, events)
    ensures Legal(max, WithCalls(events)) && SameTrace(After(max, events), After(max, WithCalls(events)))
  {
    if events != [] {
      var before, ev := events[..|events| - 1], events[|events| - 1];
      WithoutNoCalls(max, before);
      var kept := WithCalls(before);
      SameNext(After(max, before), After(max, kept), max, ev);
      if NoCall(ev) {
        assert WithCalls(events) == kept;
      } else {
        OneMore(max, kept, ev);
        assert WithCalls(events) == kept + [ev];
      }
    }
  }

  // ---------- Where a connection's key comes from ----------

  /** Some handshake gave this connection this key. */
  predicate WasAccepted<H, S>(events: seq<Event<H, S>>, conn: nat, receiveKey: bytes) {
    exists i :: 0 <= i < |events| && events[i].Accepted? && events[i].conn == conn && events[i].receiveKey == receiveKey
  }

  lemma AcceptedStays<H, S>(events: seq<Event<H, S>>, n: nat, conn: nat, receiveKey: bytes)
    requires n <= |events| && WasAccepted(events[..n], conn, receiveKey)
    ensures WasAccepted(events, conn, receiveKey)
  {
    var before := events[..n];
    var i :| 0 <= i < n && before[i].Accepted? && before[i].conn == conn && before[i].receiveKey == receiveKey;
    assert events[i] == events[..n][i];
  }

  lemma {:induction false} WaitingWasAccepted<H, S>(max: int, events: seq<Event<H, S>>, conn: nat, receiveKey: bytes)
    requires Legal(max, events) && conn in After(max, events).conns
    requires After(max, events).conns[conn] == AwaitRequest(receiveKey)
    ensures WasAccepted(events, conn, receiveKey)
  {
    if events != [] {
      var n := |events| - 1;
      if !(events[n].Accepted? && events[n].conn == conn) {
        WaitingWasAccepted(max, events[..n], conn, receiveKey);
        AcceptedStays(events, n, conn, receiveKey);
      }
    }
  }

  /** Every request frame arrives under the key that some handshake gave its connection. */
  lemma {:induction false} ArrivalWasAccepted<H, S>(max: int, events: seq<Event<H, S>>, ev: Event<H, S>)
    requires Legal(max, events) && ev in events && ev.Arrives?
    ensures WasAccepted(events, ev.conn, ev.receiveKey)
  {
    var n := |events| - 1;
    assert events == events[..n] + [events[n]];
    if ev == events[n] {
      WaitingWasAccepted(max, events[..n], ev.conn, ev.receiveKey);
    } else {
      ArrivalWasAccepted(max, events[..n], ev);
    }
    AcceptedStays(events, n, ev.conn, ev.receiveKey);
  }

  // ---------- One request each ----------

  lemma {:induction false} ArrivedIsClosed<H, S>(max: int, events: seq<Event<H, S>>, i: nat)
    requires Legal(max, events) && i < |events| && events[i].Arrives?
    ensures var conns := After(max, events).conns; events[i].conn in conns && conns[events[i].conn].Closed?
  {
    var n := |events| - 1;
    if i < n { ArrivedIsClosed(max, events[..n], i); }
  }

  lemma {:induction false} LegalPrefix<H, S>(max: int, events: seq<Event<H, S>>, n: nat)
    requires Legal(max, events) && n <= |events|
    ensures Legal(max, events[..n])
  {
    if n < |events| {
      LegalPrefix(max, events[..|events| - 1], n);
      assert events[..|events| - 1][..n] == events[..n];
    } else {
      assert events[..n] == events;
    }
  }

  /** A connection carries one request, served or refused. */
  lemma OneRequestEach<H, S>(max: int, events: seq<Event<H, S>>, i: nat, j: nat)
    requires Legal(max, events) && i < j < |events| && events[i].Arrives? && events[j].Arrives?
    ensures events[i].conn != events[j].conn
  {
    LegalPrefix(max, events, j + 1);
    var run := events[..j + 1];
    assert run[..|run| - 1] == events[..j];
    ArrivedIsClosed(max, events[..j], i);
  }

  predicate Arrived<H, S>(events: seq<Event<H, S>>, conn: nat) {
    exists i :: 0 <= i < |events| && events[i].Arrives? && events[i].conn == conn
  }

  lemma OneMoreEvent<H, S>(before: seq<Event<H, S>>, ev: Event<H, S>, conn: nat, key: bytes)
    ensures Arrived(before + [ev], conn) <==> Arrived(before, conn) || (ev.Arrives? && ev.conn == conn)
    ensures WasAccepted(before + [ev], conn, key) <==>
            WasAccepted(before, conn, key) || (ev.Accepted? && ev.conn == conn && ev.receiveKey == key)
  {
    var all := before + [ev];
    assert all[|before|] == ev && forall i :: 0 <= i < |before| ==> all[i] == before[i];
  }

  /** A connection waits for a request under a key exactly when a handshake gave it that key and
      no request has arrived on it. */
  lemma {:induction false} WaitsIff<H, S>(max: int, events: seq<Event<H, S>>, conn: nat, key: bytes)
    requires Legal(max, events)
    ensures var conns := After(max, events).conns;
            && (conn in conns && conns[conn] == AwaitRequest(key) <==>
                WasAccepted(events, conn, key) && !Arrived(events, conn))
            && (WasAccepted(events, conn, key) || Arrived(events, conn) ==> conn in conns)
  {
    if events != [] {
      var n := |events| - 1;
      assert events == events[..n] + [events[n]];
      WaitsIff(max, events[..n], conn, key);
      OneMoreEvent(events[..n], events[n], conn, key);
      if events[n].Arrives? && events[n].conn == conn { WaitsIff(max, events[..n], conn, events[n].receiveKey); }
    }
  }

  // ---------- Single use ----------

  lemma {:induction false} RunSplit(c: Cache, max: int, a: seq<Call>, b: seq<Call>)
    ensures Run(c, max, a + b) == Run(Run(c, max, a), max, b)
    decreases |a|
  {
    if a == [] {
      assert a + b == b;
    } else {
      assert (a + b)[1..] == a[1..] + b;
      RunSplit(Consume(c, max, a[0]).0, max, a[1..], b);
    }
  }

  /** The ids the cache accepted strictly between two of its calls. */
  function AcceptedBetween(max: int, calls: seq<Call>, i: nat, j: nat): set<string>
    requires i < j < |calls|
  {
    AcceptedIds(Consume(Run(FRESH_CACHE, max, calls[..i]), max, calls[i]).0, max, calls[i + 1..j])
  }

  lemma RunBetween(max: int, calls: seq<Call>, i: nat, j: nat)
    requires i < j < |calls|
    ensures Run(FRESH_CACHE, max, calls[..j]) ==
            Run(Consume(Run(FRESH_CACHE, max, calls[..i]), max, calls[i]).0, max, calls[i + 1..j])
  {
    assert calls[..j] == calls[..i + 1] + calls[i + 1..j];
    assert calls[..i + 1] == calls[..i] + [calls[i]];
    RunSplit(FRESH_CACHE, max, calls[..i + 1], calls[i + 1..j]);
    RunAppend(FRESH_CACHE, max, calls[..i], calls[i]);
  }

  /** Main result: one ticket id is served twice only if it had expired by then, or a whole
      cache of other ids was accepted in between. */
  lemma ServedOnce<H, S>(max: int, w: World<H, S>, a: nat, b: nat)
    requires Inv(w, max) && a < b < |w.served|
    requires w.served[a].call < w.served[b].call < |w.calls|
    requires w.calls[w.served[a].call].jti == w.calls[w.served[b].call].jti
    ensures var i, j := w.served[a].call, w.served[b].call;
            || w.calls[i].exp <= w.calls[j].now
            || |AcceptedBetween(max, w.calls, i, j) - {w.calls[i].jti}| >= Capacity(max)
  {
    var i, j := w.served[a].call, w.served[b].call;
    assert LetThrough(w.calls, max, w.served[a]) && LetThrough(w.calls, max, w.served[b]);
    var c := Run(FRESH_CACHE, max, w.calls[..i]);
    RunBetween(max, w.calls, i, j);
    SizeIsBounded(FRESH_CACHE, max, w.calls[..i]);
    if w.calls[j].now < w.calls[i].exp && |AcceptedBetween(max, w.calls, i, j) - {w.calls[i].jti}| < Capacity(max) {
      SecondUseIsRefused(c, max, w.calls[i], w.calls[i + 1..j], w.calls[j]);
    }
  }
}
