/** The encrypted tunnel endpoint: send and receive sequence numbers, and the table of
    requests that wait for a reply. */
module TunnelClient {
  import opened Wrappers
  import opened Bytes
  import opened JsMaps
  import Frames
  import opened SecureChannel

  /** A decoded message, as far as the tunnel itself looks at it. */
  datatype Message = Message(replyTo: Option<string>, isError: bool, body: bytes)

  /** One call of a promise's resolve or reject function. */
  datatype Settle = Resolve(promise: nat, message: Message) | Reject(promise: nat)

  /** Promises and their timers are numbered in the order `request` made them. */
  datatype Tunnel = Tunnel(
    open: bool,
    sendSequence: nat,
    sent: seq<nat>,
    lastReceiveSequence: int,
    promises: nat,
    pending: JsMap<string, nat>,
    timers: map<nat, string>,
    settles: seq<Settle>)

  const FRESH := Tunnel(true, 0, [], -1, 0, Empty(), map[], [])

  datatype Received =
    | Replayed
    | Unopened
    | Control
    | Undecodable
    | Delivered(message: Message)

  // ---------- Requests and replies ----------

  function Register(t: Tunnel, id: string): Tunnel {
    t.(promises := t.promises + 1,
       pending := t.pending.Set(id, t.promises),
       timers := t.timers[t.promises := id])
  }

  /** The timer of promise `p` fires. */
  function TimeOut(t: Tunnel, p: nat): Tunnel
    requires p in t.timers
  {
    t.(pending := t.pending.Delete(t.timers[p]),
       timers := t.timers - {p},
       settles := t.settles + [Reject(p)])
  }

  function ResolvePending(t: Tunnel, m: Message): Tunnel {
    if m.replyTo.None? || m.replyTo.value == "" || m.replyTo.value !in t.pending.at then t
    else
      var p := t.pending.at[m.replyTo.value];
      t.(pending := t.pending.Delete(m.replyTo.value),
         timers := t.timers - {p},
         settles := t.settles + [if m.isError then Reject(p) else Resolve(p, m)])
  }

  function RejectEach(t: Tunnel, ids: seq<string>): Tunnel
    decreases |ids|
  {
    if ids == [] then t
    else if ids[0] !in t.pending.at then RejectEach(t, ids[1..])
    else
      var p := t.pending.at[ids[0]];
      RejectEach(t.(pending := t.pending.Delete(ids[0]),
                    timers := t.timers - {p},
                    settles := t.settles + [Reject(p)]), ids[1..])
  }

  function RejectAll(t: Tunnel): Tunnel { RejectEach(t, t.pending.order) }

  function CloseSocket(t: Tunnel): Tunnel { RejectAll(t).(open := false) }

  /** The promise and its timer first, then the send; a send that throws leaves them waiting. */
  function Request(t: Tunnel, id: string): Tunnel { Send(Register(t, id)) }

  // ---------- Sending and receiving ----------

  /** One `send`. Without an open socket it throws before a number is taken; a number that
      does not fit 64 bits is taken, but sealing throws. */
  function Send(t: Tunnel): Tunnel {
    if !t.open then t
    else
      t.(sendSequence := t.sendSequence + 1,
         sent := if t.sendSequence <= U64_MAX then t.sent + [t.sendSequence] else t.sent)
  }

  /** One raw message; `unsealed` is what `openFrame` makes of it. Every failure is answered
      with an error message. */
  function Receive(
      t: Tunnel, raw: bytes, unsealed: Result<Opened, OpenError>, decode: bytes -> Option<Message>)
    : (Tunnel, Received)
  {
    var peeked := Frames.PeekSequence(raw);
    if peeked.Err? then (Send(t), Unopened)
    else if peeked.value <= t.lastReceiveSequence then (Send(t), Replayed)
    else if unsealed.Err? then (Send(t), Unopened)
    else Dispatch(t.(lastReceiveSequence := unsealed.value.frame.sequence), unsealed.value, decode)
  }

  /** An opened frame, by its kind. */
  function Dispatch(t: Tunnel, got: Opened, decode: bytes -> Option<Message>): (Tunnel, Received) {
    var kind := got.frame.kind;
    if kind == Frames.PING then (Send(t), Control)
    else if kind == Frames.PONG then (t, Control)
    else if kind == Frames.CLOSE then (CloseSocket(t), Control)
    else
      match decode(got.plaintext)
      case None => (Send(t), Undecodable)
      case Some(m) => (ResolvePending(t, m), Delivered(m))
  }

  // ---------- The object ----------

  class Client {
    var tunnelOpen: bool
    var sendSequence: nat
    var sent: seq<nat>
    var lastReceiveSequence: int
    var promises: nat
    var pending: JsMap<string, nat>
    var timers: map<nat, string>
    var settles: seq<Settle>

    function Current(): Tunnel
      reads this
    {
      Tunnel(tunnelOpen, sendSequence, sent, lastReceiveSequence, promises, pending, timers, settles)
    }

    constructor ()
      ensures Current() == FRESH
    {
      tunnelOpen, sendSequence, sent, lastReceiveSequence := true, 0, [], -1;
      promises, pending, timers, settles := 0, Empty(), map[], [];
    }

    method SendMessage() returns (sequence: Option<nat>)
      modifies this
      ensures Current() == Send(old(Current()))
      ensures sequence == if old(tunnelOpen) && old(sendSequence) <= U64_MAX then Some(old(sendSequence)) else None
    {
      if !tunnelOpen { return None; }
      var n := sendSequence;
      sendSequence := sendSequence + 1;
      if n > U64_MAX { return None; }
      sent := sent + [n];
      sequence := Some(n);
    }

    method StartRequest(id: string) returns (promise: nat, sequence: Option<nat>)
      modifies this
      ensures Current() == Request(old(Current()), id) && promise == old(promises)
      ensures sequence == if old(tunnelOpen) && old(sendSequence) <= U64_MAX then Some(old(sendSequence)) else None
    {
      promise := promises;
      promises := promises + 1;
      timers := timers[promise := id];
      pending := pending.Set(id, promise);
      sequence := SendMessage();
    }

    method TimerFires(p: nat)
      requires p in timers
      modifies this
      ensures Current() == TimeOut(old(Current()), p)
    {
      pending := pending.Delete(timers[p]);
      timers := timers - {p};
      settles := settles + [Reject(p)];
    }

    method Settle(m: Message)
      modifies this
      ensures Current() == ResolvePending(old(Current()), m)
    {
      if m.replyTo.None? || m.replyTo.value == "" { return; }
      var id := m.replyTo.value;
      if id !in pending.at { return; }
      var p := pending.at[id];
      timers := timers - {p};
      pending := pending.Delete(id);
      if m.isError { settles := settles + [Reject(p)]; } else { settles := settles + [Resolve(p, m)]; }
    }

    method RejectPending()
      modifies this
      ensures Current() == RejectAll(old(Current()))
    {
      var ids := pending.order;
      var i := 0;
      while i < |ids|
        invariant 0 <= i <= |ids|
        invariant RejectEach(Current(), ids[i..]) == RejectAll(old(Current()))
      {
        var id := ids[i];
        assert ids[i..][0] == id && ids[i..][1..] == ids[i + 1..];
        if id in pending.at {
          var p := pending.at[id];
          timers := timers - {p};
          settles := settles + [Reject(p)];
          pending := pending.Delete(id);
        }
        i := i + 1;
      }
    }

    method Close()
      modifies this
      ensures Current() == CloseSocket(old(Current()))
    {
      RejectPending();
      tunnelOpen := false;
    }

    method HandleRawMessage(raw: bytes, unsealed: Result<Opened, OpenError>, decode: bytes -> Option<Message>)
      returns (r: Received)
      modifies this
      ensures (Current(), r) == Receive(old(Current()), raw, unsealed, decode)
    {
      var peeked := Frames.PeekSequence(raw);
      if peeked.Err? {
        var _ := SendMessage();
        return Unopened;
      }
      if peeked.value <= lastReceiveSequence {
        var _ := SendMessage();
        return Replayed;
      }
      if unsealed.Err? {
        var _ := SendMessage();
        return Unopened;
      }
      lastReceiveSequence := unsealed.value.frame.sequence;
      var kind := unsealed.value.frame.kind;
      if kind == Frames.PING {
        var _ := SendMessage();
        return Control;
      }
      if kind == Frames.PONG { return Control; }
      if kind == Frames.CLOSE {
        Close();
        return Control;
      }
      match decode(unsealed.value.plaintext)
      case None =>
        var _ := SendMessage();
        r := Undecodable;
      case Some(m) =>
        Settle(m);
        r := Delivered(m);
    }
  }
}
