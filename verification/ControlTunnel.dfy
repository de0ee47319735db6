/** The multiplexer as the object it is: maps updated in place by the message handler.
    Each method is proved against the step function of ControlClient. */
module ControlTunnel {
  import opened Wrappers
  import opened Bytes
  import opened JsMaps
  import opened ControlClient

  class Multiplexer {
    var connected: bool
    var owners: JsMap<TunnelId, Owner>
    var links: map<StreamId, Link>
    var rawStreams: set<StreamId>
    var dataPlaneStreams: set<StreamId>
    var activeStreams: set<StreamId>

    function Current(): State
      reads this
    {
      State(connected, owners, links, rawStreams, dataPlaneStreams, activeStreams)
    }

    constructor ()
      ensures Current() == INITIAL
    {
      connected := true;
      owners, links := Empty(), map[];
      rawStreams, dataPlaneStreams, activeStreams := {}, {}, {};
    }

    method OwnerOf(s: StreamId) returns (found: Option<TunnelId>)
      ensures found == FindOwner(owners.order, owners.at, s)
    {
      found := None;
      var i := 0;
      while i < |owners.order|
        invariant 0 <= i <= |owners.order|
        invariant FindOwner(owners.order, owners.at, s) == FindOwner(owners.order[i..], owners.at, s)
      {
        var t := owners.order[i];
        assert owners.order[i..][1..] == owners.order[i + 1..];
        if t in owners.at && owners.at[t].streamId == s { return Some(t); }
        i := i + 1;
      }
    }

    method CleanupPublicTunnelStream(s: StreamId)
      modifies this
      ensures Current() == Cleanup(old(Current()), s)
    {
      if s !in links { return; }
      var link := links[s];
      if link.tunnelId in owners.at {
        var owner := owners.at[link.tunnelId];
        owner := owner.(ownerToServer := owner.ownerToServer - {link.ownerStreamId});
        owner := owner.(serverToOwner := owner.serverToOwner.Delete(s));
        owners := owners.Set(link.tunnelId, owner);
      }
      links := links - {s};
      activeStreams := activeStreams - {s};
    }

    method OpenOwnerStream(s: StreamId, tunnel: TunnelId)
      modifies this
      ensures Current() == OnOpenOwner(old(Current()), s, tunnel)
    {
      activeStreams := activeStreams + {s};
      owners := owners.Set(tunnel, Owner(s, 1, map[], Empty()));
    }

    method OpenPublicStream(s: StreamId, tunnel: TunnelId, initial: bytes) returns (out: seq<Effect>)
      modifies this
      ensures (Current(), out) == OnOpenLinked(old(Current()), s, tunnel, initial)
    {
      if tunnel !in owners.at { return Sent(Current(), [SendClose(s, "tunnel owner unavailable")]); }
      var owner := owners.at[tunnel];
      var id := owner.nextStreamId;
      owner := owner.(nextStreamId := owner.nextStreamId + 1);
      owner := owner.(ownerToServer := owner.ownerToServer[id := s]);
      owner := owner.(serverToOwner := owner.serverToOwner.Set(s, id));
      owners := owners.Set(tunnel, owner);
      links := links[s := Link(tunnel, id)];
      activeStreams := activeStreams + {s};
      out := SendFrame(Current(), owner.streamId, STREAM_OPEN, id, initial);
    }

    method OwnerData(tunnel: TunnelId, data: bytes) returns (out: seq<Effect>)
      requires tunnel in owners.at
      modifies this
      ensures (Current(), out) == OnOwnerData(old(Current()), tunnel, data)
    {
      var owner := owners.at[tunnel];
      var decoded := DecodeFrame(data);
      if decoded.None? { return []; }
      var f := decoded.value;
      if f.kind == PING { return SendFrame(Current(), owner.streamId, PONG, 0, []); }
      if f.kind == PONG { return []; }
      if f.id !in owner.ownerToServer || owner.ownerToServer[f.id] == "" { return []; }
      var s := owner.ownerToServer[f.id];
      if f.kind == STREAM_DATA { return Sent(Current(), [SendData(s, f.payload)]); }
      if f.kind == STREAM_END {
        CleanupPublicTunnelStream(s);
        return Sent(Current(), [SendClose(s, "target closed")]);
      }
      if f.kind == STREAM_RESET {
        CleanupPublicTunnelStream(s);
        return Sent(Current(), [SendClose(s, "target reset")]);
      }
      return [];
    }

    method StreamData(s: StreamId, data: bytes) returns (out: seq<Effect>)
      modifies this
      ensures (Current(), out) == OnData(old(Current()), s, data)
    {
      var found := OwnerOf(s);
      if found.Some? && found.value in owners.at {
        out := OwnerData(found.value, data);
      } else if s in links {
        var link := links[s];
        if link.tunnelId !in owners.at {
          CleanupPublicTunnelStream(s);
          return Sent(Current(), [SendClose(s, "tunnel owner unavailable")]);
        }
        out := SendFrame(Current(), owners.at[link.tunnelId].streamId, STREAM_DATA, link.ownerStreamId, data);
      } else if s in rawStreams {
        out := [WriteRaw(s, data)];
      } else if s in dataPlaneStreams {
        out := [PushDataPlane(s, data)];
      } else {
        out := [RunSession(s, data)];
      }
    }

    method CloseOwner(tunnel: TunnelId, s: StreamId) returns (out: seq<Effect>)
      requires tunnel in owners.at
      modifies this
      ensures (Current(), out) == OnOwnerClose(old(Current()), tunnel, s)
    {
      var servers := owners.at[tunnel].serverToOwner.order;
      var closes: seq<Effect> := [];
      var i := 0;
      while i < |servers|
        invariant 0 <= i <= |servers|
        invariant connected == old(connected) && owners == old(owners)
        invariant rawStreams == old(rawStreams) && dataPlaneStreams == old(dataPlaneStreams)
        invariant links == old(links) - (set x | x in servers[..i])
        invariant activeStreams == old(activeStreams) - (set x | x in servers[..i])
        invariant CloseAll(servers) == closes + CloseAll(servers[i..])
      {
        assert servers[..i + 1] == servers[..i] + [servers[i]];
        assert servers[i..][1..] == servers[i + 1..];
        links := links - {servers[i]};
        activeStreams := activeStreams - {servers[i]};
        closes := closes + [SendClose(servers[i], "tunnel owner closed")];
        i := i + 1;
      }
      assert servers[..i] == servers && servers[i..] == [];
      assert closes == CloseAll(servers);
      ghost var dropped := DropOwner(old(Current()), tunnel, s);
      assert dropped.links == links && dropped.active == activeStreams - {s};
      owners := owners.Delete(tunnel);
      activeStreams := activeStreams - {s};
      out := Sent(Current(), closes);
    }

    method StreamClose(s: StreamId) returns (out: seq<Effect>)
      modifies this
      ensures (Current(), out) == OnClose(old(Current()), s)
    {
      var found := OwnerOf(s);
      if found.Some? && found.value in owners.at {
        out := CloseOwner(found.value, s);
      } else if s in links {
        var link := links[s];
        out := [];
        if link.tunnelId in owners.at {
          out := SendFrame(Current(), owners.at[link.tunnelId].streamId, STREAM_RESET, link.ownerStreamId, []);
          if link.ownerStreamId > U32_MAX { return; }
        }
        CleanupPublicTunnelStream(s);
      } else if s in dataPlaneStreams {
        dataPlaneStreams := dataPlaneStreams - {s};
        activeStreams := activeStreams - {s};
        out := [FailDataPlane(s)];
      } else {
        out := [];
        if s in rawStreams {
          rawStreams := rawStreams - {s};
          out := [DestroyRaw(s)];
        }
        assert rawStreams == old(rawStreams) - {s};
        activeStreams := activeStreams - {s};
      }
    }

    /** The socket, timer and stream callbacks, and the stream targets that only record an id. */
    method Callback(ev: Event) returns (out: seq<Effect>)
      requires !ev.OpenOwner? && !ev.OpenLinked? && !ev.Data? && !ev.Close?
      modifies this
      ensures (Current(), out) == Step(old(Current()), ev)
    {
      out := [];
      match ev
      case OpenSession(s) => activeStreams := activeStreams + {s};
      case OpenDataPlane(s) =>
        activeStreams := activeStreams + {s};
        dataPlaneStreams := dataPlaneStreams + {s};
      case OpenRaw(s) =>
        activeStreams := activeStreams + {s};
        rawStreams := rawStreams + {s};
      case OpenUnsupported(s) => out := Sent(Current(), [SendError]);
      case RawData(s, data) => out := Sent(Current(), [SendData(s, data)]);
      case RawClosed(s) =>
        if s in rawStreams {
          rawStreams := rawStreams - {s};
          activeStreams := activeStreams - {s};
          out := Sent(Current(), [SendClose(s, "target closed")]);
        }
      case RawFailed(s, message) =>
        rawStreams := rawStreams - {s};
        activeStreams := activeStreams - {s};
        out := Sent(Current(), [SendError, SendClose(s, message)]);
      case DataPlaneSends(s, data) => out := Sent(Current(), [SendData(s, data)]);
      case DataPlaneCloses(s, reason) => out := Sent(Current(), [SendClose(s, reason)]);
      case DataPlaneDone(s) =>
        dataPlaneStreams := dataPlaneStreams - {s};
        activeStreams := activeStreams - {s};
      case SessionReplies(s, data) => out := Sent(Current(), [SendData(s, data)]);
      case SocketDropped => connected := false;
      case TunnelClosed =>
        out := [TearDown(rawStreams, dataPlaneStreams)];
        connected := false;
        owners, links := Empty(), map[];
        rawStreams, dataPlaneStreams, activeStreams := {}, {}, {};
    }

    method Handle(ev: Event) returns (out: seq<Effect>)
      modifies this
      ensures (Current(), out) == Step(old(Current()), ev)
    {
      match ev
      case OpenOwner(s, tunnel) =>
        OpenOwnerStream(s, tunnel);
        out := [];
      case OpenLinked(s, tunnel, initial) => out := OpenPublicStream(s, tunnel, initial);
      case Data(s, data) => out := StreamData(s, data);
      case Close(s) => out := StreamClose(s);
      case _ => out := Callback(ev);
    }
  }
}
