/** The stream multiplexer of the control tunnel: `startControlClient` and its
    message, socket and close handlers. One handler run is one step. */
module ControlClient {
  import opened Wrappers
  import opened Bytes
  import opened JsMaps

  type StreamId = string
  type TunnelId = string

  // ---------- Public-tunnel frames ----------

  const STREAM_OPEN: byte := 1
  const STREAM_DATA: byte := 2
  const STREAM_END: byte := 3
  const STREAM_RESET: byte := 4
  const PING: byte := 5
  const PONG: byte := 6

  datatype Frame = Frame(kind: byte, id: nat, payload: bytes)

  /** None is the RangeError of writeUInt32BE on an id that needs more than 32 bits. */
  function EncodeFrame(kind: byte, id: nat, payload: bytes): Option<bytes> {
    if id > U32_MAX then None else Some([kind] + BigEndian(id, 4) + payload)
  }

  function DecodeFrame(data: bytes): Option<Frame> {
    if |data| < 5 then None
    else Some(Frame(data[0], ReadBigEndian(data[1..5]), data[5..]))
  }

  lemma FrameRoundTrip(kind: byte, id: nat, payload: bytes)
    requires id <= U32_MAX
    ensures DecodeFrame(EncodeFrame(kind, id, payload).value) == Some(Frame(kind, id, payload))
  {
    FixedWidths();
    WriteThenRead(id, 4);
    var data := EncodeFrame(kind, id, payload).value;
    assert data[1..5] == BigEndian(id, 4);
    assert data[5..] == payload;
  }

  lemma FrameDecodeThenEncode(data: bytes)
    requires DecodeFrame(data).Some?
    ensures var f := DecodeFrame(data).value; EncodeFrame(f.kind, f.id, f.payload) == Some(data)
  {
    FixedWidths();
    ReadThenWrite(data[1..5]);
    assert data == [data[0]] + data[1..5] + data[5..];
  }

  // ---------- State ----------

  datatype Owner = Owner(
    streamId: StreamId,
    nextStreamId: nat,
    ownerToServer: map<nat, StreamId>,
    serverToOwner: JsMap<StreamId, nat>)

  datatype Link = Link(tunnelId: TunnelId, ownerStreamId: nat)

  /** `connected` is false once sends throw because the socket is gone. */
  datatype State = State(
    connected: bool,
    owners: JsMap<TunnelId, Owner>,
    links: map<StreamId, Link>,
    raw: set<StreamId>,
    dataPlane: set<StreamId>,
    active: set<StreamId>)

  const INITIAL := State(true, Empty(), map[], {}, {}, {})

  /** STREAM_OPEN targets arrive parsed. The last events are callbacks and socket events. */
  datatype Event =
    | OpenSession(s: StreamId)
    | OpenOwner(s: StreamId, tunnel: TunnelId)
    | OpenLinked(s: StreamId, tunnel: TunnelId, initial: bytes)
    | OpenDataPlane(s: StreamId)
    | OpenRaw(s: StreamId)
    | OpenUnsupported(s: StreamId)
    | Data(s: StreamId, data: bytes)
    | Close(s: StreamId)
    | RawData(s: StreamId, data: bytes)
    | RawClosed(s: StreamId)
    | RawFailed(s: StreamId, message: string)
    | DataPlaneSends(s: StreamId, data: bytes)
    | DataPlaneCloses(s: StreamId, reason: string)
    | DataPlaneDone(s: StreamId)
    | SessionReplies(s: StreamId, data: bytes)
    | SocketDropped
    | TunnelClosed

  datatype Effect =
    | SendData(s: StreamId, data: bytes)
    | SendClose(s: StreamId, reason: string)
    | SendError
    | WriteRaw(s: StreamId, data: bytes)
    | DestroyRaw(s: StreamId)
    | PushDataPlane(s: StreamId, data: bytes)
    | FailDataPlane(s: StreamId)
    | RunSession(s: StreamId, data: bytes)
    | TearDown(sockets: set<StreamId>, streams: set<StreamId>)

  function FindOwner(order: seq<TunnelId>, at: map<TunnelId, Owner>, s: StreamId): Option<TunnelId> {
    if order == [] then None
    else if order[0] in at && at[order[0]].streamId == s then Some(order[0])
    else FindOwner(order[1..], at, s)
  }

  /** `send` throws once the socket is gone, so nothing reaches the wire. */
  function Sent(st: State, effects: seq<Effect>): seq<Effect> {
    if st.connected then effects else []
  }

  /** Encoding a number of more than 32 bits throws; the handler's failure is answered with an
      error message. */
  function SendFrame(st: State, ownerStream: StreamId, kind: byte, id: nat, payload: bytes): seq<Effect> {
    match EncodeFrame(kind, id, payload)
    case None => Sent(st, [SendError])
    case Some(data) => Sent(st, [SendData(ownerStream, data)])
  }

  function Cleanup(st: State, s: StreamId): State {
    if s !in st.links then st
    else
      var link := st.links[s];
      var owners :=
        if link.tunnelId in st.owners.at then
          var owner := st.owners.at[link.tunnelId];
          st.owners.Set(link.tunnelId, owner.(
            ownerToServer := owner.ownerToServer - {link.ownerStreamId},
            serverToOwner := owner.serverToOwner.Delete(s)))
        else st.owners;
      st.(owners := owners, links := st.links - {s}, active := st.active - {s})
  }

  /** Forget the owner of `tunnel`, whose stream is `s`, and every stream linked to it. */
  function DropOwner(st: State, tunnel: TunnelId, s: StreamId): State
    requires tunnel in st.owners.at
  {
    var gone := set x | x in st.owners.at[tunnel].serverToOwner.order;
    st.(owners := st.owners.Delete(tunnel),
        links := st.links - gone,
        active := st.active - gone - {s})
  }

  function CloseAll(ids: seq<StreamId>): seq<Effect> {
    if ids == [] then [] else [SendClose(ids[0], "tunnel owner closed")] + CloseAll(ids[1..])
  }

  // ---------- Handlers ----------

  function OnOpenOwner(st: State, s: StreamId, tunnel: TunnelId): State {
    st.(active := st.active + {s},
        owners := st.owners.Set(tunnel, Owner(s, 1, map[], Empty())))
  }

  function OnOpenLinked(st: State, s: StreamId, tunnel: TunnelId, initial: bytes): (State, seq<Effect>) {
    if tunnel !in st.owners.at then (st, Sent(st, [SendClose(s, "tunnel owner unavailable")]))
    else
      var owner := st.owners.at[tunnel];
      var id := owner.nextStreamId;
      var owner' := owner.(
        nextStreamId := id + 1,
        ownerToServer := owner.ownerToServer[id := s],
        serverToOwner := owner.serverToOwner.Set(s, id));
      (st.(owners := st.owners.Set(tunnel, owner'),
           links := st.links[s := Link(tunnel, id)],
           active := st.active + {s}),
       SendFrame(st, owner.streamId, STREAM_OPEN, id, initial))
  }

  /** A payload from the owner of `tunnel`. The empty stream id is falsy in the source. */
  function OnOwnerData(st: State, tunnel: TunnelId, data: bytes): (State, seq<Effect>)
    requires tunnel in st.owners.at
  {
    var owner := st.owners.at[tunnel];
    match DecodeFrame(data)
    case None => (st, [])
    case Some(f) =>
      if f.kind == PING then (st, SendFrame(st, owner.streamId, PONG, 0, []))
      else if f.kind == PONG then (st, [])
      else if f.id !in owner.ownerToServer || owner.ownerToServer[f.id] == "" then (st, [])
      else
        var s := owner.ownerToServer[f.id];
        if f.kind == STREAM_DATA then (st, Sent(st, [SendData(s, f.payload)]))
        else if f.kind == STREAM_END then (Cleanup(st, s), Sent(st, [SendClose(s, "target closed")]))
        else if f.kind == STREAM_RESET then (Cleanup(st, s), Sent(st, [SendClose(s, "target reset")]))
        else (st, [])
  }

  function OnData(st: State, s: StreamId, data: bytes): (State, seq<Effect>) {
    var found := FindOwner(st.owners.order, st.owners.at, s);
    if found.Some? && found.value in st.owners.at then OnOwnerData(st, found.value, data)
    else if s in st.links then
      var link := st.links[s];
      if link.tunnelId !in st.owners.at then
        (Cleanup(st, s), Sent(st, [SendClose(s, "tunnel owner unavailable")]))
      else (st, SendFrame(st, st.owners.at[link.tunnelId].streamId, STREAM_DATA, link.ownerStreamId, data))
    else if s in st.raw then (st, [WriteRaw(s, data)])
    else if s in st.dataPlane then (st, [PushDataPlane(s, data)])
    else (st, [RunSession(s, data)])
  }

  function OnOwnerClose(st: State, tunnel: TunnelId, s: StreamId): (State, seq<Effect>)
    requires tunnel in st.owners.at
  {
    (DropOwner(st, tunnel, s), Sent(st, CloseAll(st.owners.at[tunnel].serverToOwner.order)))
  }

  /** The frame is encoded first: when that throws, the link stays. */
  function OnLinkedClose(st: State, s: StreamId): (State, seq<Effect>)
    requires s in st.links
  {
    var link := st.links[s];
    if link.tunnelId !in st.owners.at then (Cleanup(st, s), [])
    else
      var reset := SendFrame(st, st.owners.at[link.tunnelId].streamId, STREAM_RESET, link.ownerStreamId, []);
      (if link.ownerStreamId > U32_MAX then st else Cleanup(st, s), reset)
  }

  function OnLeafClose(st: State, s: StreamId): (State, seq<Effect>) {
    if s in st.dataPlane then
      (st.(dataPlane := st.dataPlane - {s}, active := st.active - {s}), [FailDataPlane(s)])
    else
      (st.(raw := st.raw - {s}, active := st.active - {s}),
       if s in st.raw then [DestroyRaw(s)] else [])
  }

  function OnClose(st: State, s: StreamId): (State, seq<Effect>) {
    var found := FindOwner(st.owners.order, st.owners.at, s);
    if found.Some? && found.value in st.owners.at then OnOwnerClose(st, found.value, s)
    else if s in st.links then OnLinkedClose(st, s)
    else OnLeafClose(st, s)
  }

  function Step(st: State, ev: Event): (State, seq<Effect>) {
    match ev
    case OpenSession(s) => (st.(active := st.active + {s}), [])
    case OpenOwner(s, tunnel) => (OnOpenOwner(st, s, tunnel), [])
    case OpenLinked(s, tunnel, initial) => OnOpenLinked(st, s, tunnel, initial)
    case OpenDataPlane(s) => (st.(active := st.active + {s}, dataPlane := st.dataPlane + {s}), [])
    case OpenRaw(s) => (st.(active := st.active + {s}, raw := st.raw + {s}), [])
    case OpenUnsupported(s) => (st, Sent(st, [SendError]))
    case Data(s, data) => OnData(st, s, data)
    case Close(s) => OnClose(st, s)
    case RawData(s, data) => (st, Sent(st, [SendData(s, data)]))
    case RawClosed(s) =>
      if s !in st.raw then (st, [])
      else (st.(raw := st.raw - {s}, active := st.active - {s}), Sent(st, [SendClose(s, "target closed")]))
    case RawFailed(s, message) =>
      (st.(raw := st.raw - {s}, active := st.active - {s}), Sent(st, [SendError, SendClose(s, message)]))
    case DataPlaneSends(s, data) => (st, Sent(st, [SendData(s, data)]))
    case DataPlaneCloses(s, reason) => (st, Sent(st, [SendClose(s, reason)]))
    case DataPlaneDone(s) => (st.(dataPlane := st.dataPlane - {s}, active := st.active - {s}), [])
    case SessionReplies(s, data) => (st, Sent(st, [SendData(s, data)]))
    case SocketDropped => (st.(connected := false), [])
    case TunnelClosed =>
      (State(false, Empty(), map[], {}, {}, {}), [TearDown(st.raw, st.dataPlane)])
  }
}
