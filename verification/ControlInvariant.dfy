/** What every step of the multiplexer keeps, for servers that never reuse a stream id
    and never reopen a tunnel that is still open. */
module ControlInvariant {
  import opened Wrappers
  import opened Bytes
  import opened JsMaps
  import opened ControlClient

  datatype Kind = KSession | KOwner(tunnel: TunnelId) | KLinked | KRaw | KDataPlane | KUnsupported

  /** What the outside world did so far: the target each id was opened with, the ids of
      data and close messages, the ids that had a session message run, the open sessions. */
  datatype Env = Env(
    kind: map<StreamId, Kind>,
    touched: set<StreamId>,
    ran: set<StreamId>,
    sessions: set<StreamId>)

  datatype World = World(st: State, env: Env)

  const START := World(INITIAL, Env(map[], {}, {}, {}))

  predicate Fresh(env: Env, s: StreamId) { s !in env.kind && s !in env.touched }

  predicate OpenedAs(env: Env, s: StreamId, k: Kind) { s in env.kind && env.kind[s] == k }

  predicate Allowed(w: World, ev: Event) {
    match ev
    case OpenSession(s) => Fresh(w.env, s)
    case OpenOwner(s, tunnel) => Fresh(w.env, s) && tunnel !in w.st.owners.at
    case OpenLinked(s, _, _) => Fresh(w.env, s)
    case OpenDataPlane(s) => Fresh(w.env, s)
    case OpenRaw(s) => Fresh(w.env, s)
    case OpenUnsupported(s) => Fresh(w.env, s)
    case RawData(s, _) => OpenedAs(w.env, s, KRaw)
    case RawClosed(s) => OpenedAs(w.env, s, KRaw)
    case RawFailed(s, _) => OpenedAs(w.env, s, KRaw)
    case DataPlaneSends(s, _) => OpenedAs(w.env, s, KDataPlane)
    case DataPlaneCloses(s, _) => OpenedAs(w.env, s, KDataPlane)
    case DataPlaneDone(s) => OpenedAs(w.env, s, KDataPlane)
    case SessionReplies(s, _) => s in w.env.ran
    case Data(_, _) => true
    case Close(_) => true
    case SocketDropped => true
    case TunnelClosed => true
  }

  predicate RunsSession(st: State, s: StreamId) {
    OnData(st, s, []).1 == [RunSession(s, [])]
  }

  function NextEnv(w: World, ev: Event): Env {
    var env := w.env;
    match ev
    case OpenSession(s) => env.(kind := env.kind[s := KSession], sessions := env.sessions + {s})
    case OpenOwner(s, tunnel) => env.(kind := env.kind[s := KOwner(tunnel)])
    case OpenLinked(s, _, _) => env.(kind := env.kind[s := KLinked])
    case OpenDataPlane(s) => env.(kind := env.kind[s := KDataPlane])
    case OpenRaw(s) => env.(kind := env.kind[s := KRaw])
    case OpenUnsupported(s) => env.(kind := env.kind[s := KUnsupported])
    case Data(s, _) => env.(touched := env.touched + {s},
                            ran := env.ran + if RunsSession(w.st, s) then {s} else {})
    case Close(s) => env.(touched := env.touched + {s}, sessions := env.sessions - {s})
    case TunnelClosed => env.(sessions := {})
    case _ => env
  }

  function Next(w: World, ev: Event): World {
    World(Step(w.st, ev).0, NextEnv(w, ev))
  }

  ghost predicate AllowedRun(w: World, events: seq<Event>)
    decreases |events|
  {
    events == [] || (Allowed(w, events[0]) && AllowedRun(Next(w, events[0]), events[1..]))
  }

  function After(w: World, events: seq<Event>): World
    decreases |events|
  {
    if events == [] then w else After(Next(w, events[0]), events[1..])
  }

  // ---------- The invariant ----------

  /** The two directions of one owner's stream table are mutual inverses. */
  ghost predicate Bijection(owner: Owner) {
    && owner.nextStreamId >= 1
    && (forall o :: o in owner.ownerToServer ==>
          && 1 <= o < owner.nextStreamId
          && owner.ownerToServer[o] in owner.serverToOwner.at
          && owner.serverToOwner.at[owner.ownerToServer[o]] == o)
    && (forall s :: s in owner.serverToOwner.at ==>
          && owner.serverToOwner.at[s] in owner.ownerToServer
          && owner.ownerToServer[owner.serverToOwner.at[s]] == s)
  }

  ghost predicate Linked(st: State, s: StreamId, tunnel: TunnelId, o: nat) {
    && tunnel in st.owners.at
    && s in st.owners.at[tunnel].serverToOwner.at
    && st.owners.at[tunnel].serverToOwner.at[s] == o
  }

  /** A stream is linked exactly when the owner of its tunnel lists it. */
  ghost predicate LinksMatchOwners(st: State) {
    forall s, t, o :: Linked(st, s, t, o) <==> s in st.links && st.links[s] == Link(t, o)
  }

  ghost predicate OwnersValid(st: State) {
    && st.owners.Valid()
    && (forall t :: t in st.owners.at ==> st.owners.at[t].serverToOwner.Valid())
  }

  ghost predicate Tables(st: State) {
    && (forall t :: t in st.owners.at ==> Bijection(st.owners.at[t]))
    && LinksMatchOwners(st)
  }

  predicate OwnsStream(w: World, s: StreamId) {
    && s in w.env.kind && w.env.kind[s].KOwner?
    && w.env.kind[s].tunnel in w.st.owners.at
    && w.st.owners.at[w.env.kind[s].tunnel].streamId == s
  }

  /** Every live id is of the kind it was opened as, so no two tables share an id. */
  ghost predicate KindsAgree(w: World) {
    && (forall t :: t in w.st.owners.at ==> OpenedAs(w.env, w.st.owners.at[t].streamId, KOwner(t)))
    && (forall s :: s in w.st.links ==> OpenedAs(w.env, s, KLinked))
    && (forall s :: s in w.st.raw ==> OpenedAs(w.env, s, KRaw))
    && (forall s :: s in w.st.dataPlane ==> OpenedAs(w.env, s, KDataPlane))
    && (forall s :: s in w.env.sessions ==> OpenedAs(w.env, s, KSession))
  }

  /** An id whose payloads ran as session messages is in no table, and never will be. */
  ghost predicate SessionIdsApart(w: World) {
    forall s :: s in w.env.ran ==> Apart(w, s)
  }

  predicate Apart(w: World, s: StreamId) {
    && s in w.env.touched
    && s !in w.st.links && s !in w.st.raw && s !in w.st.dataPlane && !OwnsStream(w, s)
  }

  ghost predicate ActiveAgrees(w: World) {
    forall s :: s in w.st.active <==>
      (s in w.env.sessions || OwnsStream(w, s) || s in w.st.links || s in w.st.raw || s in w.st.dataPlane)
  }

  ghost predicate Ids(w: World) {
    KindsAgree(w) && SessionIdsApart(w) && ActiveAgrees(w)
  }

  ghost predicate Inv(w: World) {
    OwnersValid(w.st) && Tables(w.st) && Ids(w)
  }

  // ---------- Looking up an owner by its stream id ----------

  lemma {:induction false} FindOwnerIsSearch(order: seq<TunnelId>, at: map<TunnelId, Owner>, s: StreamId)
    ensures match FindOwner(order, at, s)
            case Some(t) => t in order && t in at && at[t].streamId == s
            case None => forall t :: t in order && t in at ==> at[t].streamId != s
  {
    if order != [] { FindOwnerIsSearch(order[1..], at, s); }
  }

  lemma OwnerFound(w: World, s: StreamId)
    requires OwnersValid(w.st) && KindsAgree(w)
    ensures FindOwner(w.st.owners.order, w.st.owners.at, s) ==
            if OwnsStream(w, s) then Some(w.env.kind[s].tunnel) else None
  {
    FindOwnerIsSearch(w.st.owners.order, w.st.owners.at, s);
  }

  lemma CloseDispatch(w: World, s: StreamId)
    requires OwnersValid(w.st) && KindsAgree(w)
    ensures OnClose(w.st, s) ==
            if OwnsStream(w, s) then OnOwnerClose(w.st, w.env.kind[s].tunnel, s)
            else if s in w.st.links then OnLinkedClose(w.st, s)
            else OnLeafClose(w.st, s)
  {
    OwnerFound(w, s);
  }

  // ---------- Unlinking one stream ----------

  lemma CleanupTables(st: State, s: StreamId)
    requires Tables(st)
    ensures Tables(Cleanup(st, s))
  {
    if s in st.links {
      var link := st.links[s];
      assert Linked(st, s, link.tunnelId, link.ownerStreamId);
      var st' := Cleanup(st, s);
      assert Bijection(st'.owners.at[link.tunnelId]);
      forall x, t, o
        ensures Linked(st', x, t, o) <==> x in st'.links && st'.links[x] == Link(t, o)
      {
        assert Linked(st, x, t, o) <==> x in st.links && st.links[x] == Link(t, o);
      }
    }
  }

  ghost predicate SameOwnerStreams(st: State, st': State) {
    && st'.owners.at.Keys == st.owners.at.Keys
    && (forall t :: t in st.owners.at ==> st'.owners.at[t].streamId == st.owners.at[t].streamId)
  }

  lemma CleanupIds(w: World, s: StreamId)
    requires Ids(w)
    ensures Ids(w.(st := Cleanup(w.st, s)))
  {
    var st' := Cleanup(w.st, s);
    assert SameOwnerStreams(w.st, st');
    assert forall x :: OwnsStream(w.(st := st'), x) == OwnsStream(w, x);
    if s in w.st.links { assert OpenedAs(w.env, s, KLinked); }
  }

  lemma CleanupKeeps(w: World, s: StreamId)
    requires Inv(w)
    ensures Inv(w.(st := Cleanup(w.st, s)))
  {
    CleanupTables(w.st, s);
    CleanupIds(w, s);
  }

  // ---------- Opening ----------

  lemma OpenOwnerTables(st: State, s: StreamId, tunnel: TunnelId)
    requires Tables(st) && tunnel !in st.owners.at
    ensures Tables(OnOpenOwner(st, s, tunnel))
  {
    var st' := OnOpenOwner(st, s, tunnel);
    forall x, t, o
      ensures Linked(st', x, t, o) <==> x in st'.links && st'.links[x] == Link(t, o)
    {
      assert Linked(st, x, t, o) <==> Linked(st', x, t, o);
    }
  }

  lemma OpenOwnerIds(w: World, s: StreamId, tunnel: TunnelId)
    requires Ids(w) && Allowed(w, OpenOwner(s, tunnel))
    ensures Ids(Next(w, OpenOwner(s, tunnel)))
  {
    var w' := Next(w, OpenOwner(s, tunnel));
    assert forall x :: OwnsStream(w', x) <==> OwnsStream(w, x) || x == s;
  }

  lemma OpenLinkedTables(st: State, s: StreamId, tunnel: TunnelId, initial: bytes)
    requires Tables(st) && s !in st.links
    ensures Tables(OnOpenLinked(st, s, tunnel, initial).0)
  {
    if tunnel in st.owners.at {
      var st' := OnOpenLinked(st, s, tunnel, initial).0;
      forall o ensures !Linked(st, s, tunnel, o) {}
      assert s !in st.owners.at[tunnel].serverToOwner.at by {
        if s in st.owners.at[tunnel].serverToOwner.at {
          assert Linked(st, s, tunnel, st.owners.at[tunnel].serverToOwner.at[s]);
        }
      }
      assert Bijection(st.owners.at[tunnel]);
      assert Bijection(st'.owners.at[tunnel]);
      forall x, t, o
        ensures Linked(st', x, t, o) <==> x in st'.links && st'.links[x] == Link(t, o)
      {
        assert Linked(st, x, t, o) <==> x in st.links && st.links[x] == Link(t, o);
      }
    }
  }

  lemma OpenLinkedIds(w: World, s: StreamId, tunnel: TunnelId, initial: bytes)
    requires Ids(w) && Allowed(w, OpenLinked(s, tunnel, initial))
    ensures Ids(Next(w, OpenLinked(s, tunnel, initial)))
  {
    var w' := Next(w, OpenLinked(s, tunnel, initial));
    assert SameOwnerStreams(w.st, w'.st);
    assert !OwnsStream(w', s);
    assert forall x :: x != s ==> OwnsStream(w', x) == OwnsStream(w, x);
    assert w'.st.active == if tunnel in w.st.owners.at then w.st.active + {s} else w.st.active;
  }

  lemma OpenKeeps(w: World, ev: Event)
    requires Inv(w) && Allowed(w, ev)
    requires ev.OpenOwner? || ev.OpenLinked?
    ensures Inv(Next(w, ev))
  {
    match ev
    case OpenOwner(s, tunnel) =>
      OpenOwnerTables(w.st, s, tunnel);
      OpenOwnerIds(w, s, tunnel);
    case OpenLinked(s, tunnel, initial) =>
      assert s !in w.st.links;
      OpenLinkedTables(w.st, s, tunnel, initial);
      OpenLinkedIds(w, s, tunnel, initial);
  }

  // ---------- Payloads ----------

  lemma TouchKeeps(w: World, s: StreamId, ran: bool)
    requires Inv(w) && (ran ==> Apart(w.(env := w.env.(touched := w.env.touched + {s})), s))
    ensures Inv(w.(env := w.env.(touched := w.env.touched + {s},
                                 ran := w.env.ran + if ran then {s} else {})))
  {
    var w' := w.(env := w.env.(touched := w.env.touched + {s},
                               ran := w.env.ran + if ran then {s} else {}));
    assert forall x :: OwnsStream(w', x) == OwnsStream(w, x);
  }

  lemma LinkedOwnerLives(st: State, s: StreamId)
    requires Tables(st) && s in st.links
    ensures Linked(st, s, st.links[s].tunnelId, st.links[s].ownerStreamId)
    ensures st.links[s].tunnelId in st.owners.at
  {
  }

  lemma DataKeeps(w: World, s: StreamId, data: bytes)
    requires Inv(w)
    ensures Inv(Next(w, Data(s, data)))
  {
    if OwnsStream(w, s) { OwnerDataKeeps(w, s, data); } else { OtherDataKeeps(w, s, data); }
  }

  lemma OtherDataKeeps(w: World, s: StreamId, data: bytes)
    requires Inv(w) && !OwnsStream(w, s)
    ensures Inv(Next(w, Data(s, data)))
  {
    OwnerFound(w, s);
    if s in w.st.links { LinkedOwnerLives(w.st, s); }
    TouchKeeps(w, s, RunsSession(w.st, s));
  }

  lemma OwnerDataState(st: State, tunnel: TunnelId, data: bytes) returns (s: StreamId)
    requires tunnel in st.owners.at
    ensures OnOwnerData(st, tunnel, data).0 == st || OnOwnerData(st, tunnel, data).0 == Cleanup(st, s)
  {
    var f := DecodeFrame(data);
    s := if f.Some? && f.value.id in st.owners.at[tunnel].ownerToServer
         then st.owners.at[tunnel].ownerToServer[f.value.id] else "";
  }

  lemma OwnerDataKeeps(w: World, s: StreamId, data: bytes)
    requires Inv(w) && OwnsStream(w, s)
    ensures Inv(Next(w, Data(s, data)))
  {
    OwnerFound(w, s);
    TouchKeeps(w, s, false);
    var touched := w.(env := NextEnv(w, Data(s, data)));
    var server := OwnerDataState(w.st, w.env.kind[s].tunnel, data);
    CleanupKeeps(touched, server);
  }

  // ---------- Closing ----------

  lemma DropOwnerTables(st: State, tunnel: TunnelId, s: StreamId)
    requires Tables(st) && tunnel in st.owners.at
    requires forall x :: x in st.owners.at[tunnel].serverToOwner.order <==> x in st.owners.at[tunnel].serverToOwner.at
    ensures Tables(DropOwner(st, tunnel, s))
  {
    var st' := DropOwner(st, tunnel, s);
    var servers := st.owners.at[tunnel].serverToOwner.at;
    forall x ensures x in st'.links <==> x in st.links && st.links[x].tunnelId != tunnel {
      if x in servers { assert Linked(st, x, tunnel, servers[x]); }
      if x in st.links { LinkedOwnerLives(st, x); }
    }
    forall x, t, o
      ensures Linked(st', x, t, o) <==> x in st'.links && st'.links[x] == Link(t, o)
    {
      assert Linked(st, x, t, o) <==> x in st.links && st.links[x] == Link(t, o);
    }
  }

  lemma DropOwnerIds(w: World, tunnel: TunnelId, s: StreamId)
    requires OwnersValid(w.st) && Tables(w.st) && Ids(w)
    requires tunnel in w.st.owners.at && w.st.owners.at[tunnel].streamId == s
    ensures Ids(w.(st := DropOwner(w.st, tunnel, s)))
  {
    var w' := w.(st := DropOwner(w.st, tunnel, s));
    var owner := w.st.owners.at[tunnel];
    forall x | x in owner.serverToOwner.order ensures x in w.st.links {
      assert Linked(w.st, x, tunnel, owner.serverToOwner.at[x]);
    }
    assert OpenedAs(w.env, s, KOwner(tunnel));
    assert forall x :: OwnsStream(w', x) <==> OwnsStream(w, x) && x != s;
  }

  lemma SameTables(st: State, st': State)
    requires Tables(st) && st'.owners == st.owners && st'.links == st.links
    ensures Tables(st')
  {
    forall x, t, o
      ensures Linked(st', x, t, o) <==> x in st'.links && st'.links[x] == Link(t, o)
    {
      assert Linked(st, x, t, o) <==> Linked(st', x, t, o);
    }
  }

  /** A close also ends the session of that id, and marks the id as used. */
  lemma CloseMarks(w: World, s: StreamId)
    requires Inv(w) && (OpenedAs(w.env, s, KSession) ==> s !in w.st.active)
    ensures Inv(w.(env := w.env.(touched := w.env.touched + {s}, sessions := w.env.sessions - {s})))
  {
    var w' := w.(env := w.env.(touched := w.env.touched + {s}, sessions := w.env.sessions - {s}));
    assert forall x :: OwnsStream(w', x) == OwnsStream(w, x);
  }

  lemma CloseKeeps(w: World, s: StreamId)
    requires Inv(w)
    ensures Inv(Next(w, Close(s)))
  {
    OwnerFound(w, s);
    if OwnsStream(w, s) {
      DropOwnerTables(w.st, w.env.kind[s].tunnel, s);
      DropOwnerIds(w, w.env.kind[s].tunnel, s);
      CloseMarks(w.(st := DropOwner(w.st, w.env.kind[s].tunnel, s)), s);
    } else if s in w.st.links {
      LinkedCloseKeeps(w, s);
    } else {
      LeafCloseKeeps(w, s);
    }
  }

  lemma LinkedCloseKeeps(w: World, s: StreamId)
    requires Inv(w) && !OwnsStream(w, s) && s in w.st.links
    ensures Inv(Next(w, Close(s)))
  {
    OwnerFound(w, s);
    CleanupKeeps(w, s);
    CloseMarks(w.(st := OnLinkedClose(w.st, s).0), s);
  }

  /** Closing a linked stream unlinks it exactly when its number fits a frame: for a wider one
      encoding the reset throws before the tables are touched. */
  lemma CloseUnlinksIffNumberFits(w: World, s: StreamId)
    requires Inv(w) && s in w.st.links
    ensures s !in Next(w, Close(s)).st.links <==> w.st.links[s].ownerStreamId <= U32_MAX
  {
    CloseDispatch(w, s);
    LinkedOwnerLives(w.st, s);
  }

  lemma LeafCloseKeeps(w: World, s: StreamId)
    requires Inv(w) && !OwnsStream(w, s) && s !in w.st.links
    ensures Inv(Next(w, Close(s)))
  {
    OwnerFound(w, s);
    var w' := Next(w, Close(s));
    SameTables(w.st, w'.st);
    assert forall x :: OwnsStream(w', x) == OwnsStream(w, x);
  }

  lemma LeafOpenIds(w: World, ev: Event)
    requires Ids(w) && Allowed(w, ev)
    requires ev.OpenSession? || ev.OpenDataPlane? || ev.OpenRaw? || ev.OpenUnsupported?
    ensures Ids(Next(w, ev))
  {
    var w' := Next(w, ev);
    assert w'.st.owners == w.st.owners && w'.st.links == w.st.links;
    assert forall x :: OwnsStream(w', x) == OwnsStream(w, x);
  }

  lemma LeafOpenKeeps(w: World, ev: Event)
    requires Inv(w) && Allowed(w, ev)
    requires ev.OpenSession? || ev.OpenDataPlane? || ev.OpenRaw? || ev.OpenUnsupported?
    ensures Inv(Next(w, ev))
  {
    LeafOpenIds(w, ev);
    SameTables(w.st, Next(w, ev).st);
  }

  lemma CallbackKeeps(w: World, ev: Event)
    requires Inv(w) && Allowed(w, ev)
    requires ev.RawClosed? || ev.RawFailed? || ev.DataPlaneDone?
    ensures Inv(Next(w, ev))
  {
    var w' := Next(w, ev);
    SameTables(w.st, w'.st);
    assert forall x :: OwnsStream(w', x) == OwnsStream(w, x);
  }

  lemma TunnelClosedKeeps(w: World)
    requires Inv(w)
    ensures Inv(Next(w, TunnelClosed))
  {
    assert forall x, t, o :: !Linked(Next(w, TunnelClosed).st, x, t, o);
  }

  lemma SendStepKeeps(w: World, ev: Event)
    requires Inv(w)
    requires ev.RawData? || ev.DataPlaneSends? || ev.DataPlaneCloses? || ev.SessionReplies? || ev.SocketDropped?
    ensures Inv(Next(w, ev))
  {
    var w' := Next(w, ev);
    SameTables(w.st, w'.st);
    assert forall x :: OwnsStream(w', x) == OwnsStream(w, x);
  }

  lemma StepKeeps(w: World, ev: Event)
    requires Inv(w) && Allowed(w, ev)
    ensures Inv(Next(w, ev))
  {
    match ev
    case OpenOwner(_, _) => OpenKeeps(w, ev);
    case OpenLinked(_, _, _) => OpenKeeps(w, ev);
    case Data(s, data) => DataKeeps(w, s, data);
    case Close(s) => CloseKeeps(w, s);
    case RawClosed(_) => CallbackKeeps(w, ev);
    case RawFailed(_, _) => CallbackKeeps(w, ev);
    case DataPlaneDone(_) => CallbackKeeps(w, ev);
    case TunnelClosed =>  TunnelClosedKeeps(w);
    case OpenSession(_) => LeafOpenKeeps(w, ev);
    case OpenDataPlane(_) => LeafOpenKeeps(w, ev);
    case OpenRaw(_) => LeafOpenKeeps(w, ev);
    case OpenUnsupported(_) => LeafOpenKeeps(w, ev);
    case _ => SendStepKeeps(w, ev);
  }

  /** Main result: the invariant holds after every allowed run. */
  lemma {:induction false} RunKeeps(w: World, events: seq<Event>)
    requires Inv(w) && AllowedRun(w, events)
    ensures Inv(After(w, events))
    decreases |events|
  {
    if events != [] {
      StepKeeps(w, events[0]);
      RunKeeps(Next(w, events[0]), events[1..]);
    }
  }

  // ---------- What the invariant means ----------

  function OwnerStreams(st: State): set<StreamId> {
    set t | t in st.owners.at :: st.owners.at[t].streamId
  }

  ghost predicate PairwiseDisjoint(
      a: set<StreamId>, b: set<StreamId>, c: set<StreamId>, d: set<StreamId>, e: set<StreamId>)
  {
    a !! b !! c !! d !! e
  }

  lemma ActiveIsDisjointUnion(w: World)
    requires Inv(w)
    ensures w.st.active == w.env.sessions + OwnerStreams(w.st) + w.st.links.Keys + w.st.raw + w.st.dataPlane
    ensures PairwiseDisjoint(w.env.sessions, OwnerStreams(w.st), w.st.links.Keys, w.st.raw, w.st.dataPlane)
  {
    forall s ensures s in OwnerStreams(w.st) <==> OwnsStream(w, s) {
      if s in OwnerStreams(w.st) {
        var t :| t in w.st.owners.at && w.st.owners.at[t].streamId == s;
        assert OpenedAs(w.env, w.st.owners.at[t].streamId, KOwner(t));
      }
    }
  }

  /** The "tunnel owner unavailable" branch of a payload on a linked stream is dead:
      in every reachable state its owner is connected and maps it back. */
  lemma LinkedStreamHasOwner(events: seq<Event>, s: StreamId)
    requires AllowedRun(START, events)
    requires s in After(START, events).st.links
    ensures var st := After(START, events).st;
            var Link(t, o) := st.links[s];
            && t in st.owners.at
            && o in st.owners.at[t].ownerToServer && st.owners.at[t].ownerToServer[o] == s
            && o < st.owners.at[t].nextStreamId
  {
    StartHolds();
    RunKeeps(START, events);
    LinkedOwnerLives(After(START, events).st, s);
  }

  lemma StartHolds()
    ensures Inv(START)
  {
    assert forall x, t, o :: !Linked(START.st, x, t, o);
  }

  /** Opening an owner overwrites the record of its tunnel. With a fresh stream id the
      tables stay right exactly when the tunnel was not open. */
  lemma OpenOwnerKeepsIffTunnelNotOpen(w: World, s: StreamId, tunnel: TunnelId)
    requires Inv(w) && Fresh(w.env, s)
    ensures Inv(Next(w, OpenOwner(s, tunnel))) <==> tunnel !in w.st.owners.at
  {
    var w' := Next(w, OpenOwner(s, tunnel));
    if tunnel !in w.st.owners.at {
      OpenKeeps(w, OpenOwner(s, tunnel));
    } else {
      var lost := w.st.owners.at[tunnel].streamId;
      assert OpenedAs(w.env, lost, KOwner(tunnel));
      assert OwnsStream(w, lost) && lost in w'.st.active;
      assert !OwnsStream(w', lost);
      assert !ActiveAgrees(w');
    }
  }
}
