/** One data-plane stream inside the control tunnel: an inbox, the receives that wait for it,
    and a close that is sent at most once. */
module DataPlaneStream {
  import opened Wrappers
  import opened Bytes

  /** A receive, by the order in which it was made: waiting, or settled. */
  datatype Slot = Waiting | Got(data: bytes) | Aborted(reason: string)

  /** What the stream sends back through its hooks. */
  datatype Output = SentData(data: bytes) | SentClose(reason: string) | Done

  /** `slots` and `out` are the history of the receives and of the outputs. */
  datatype Stream = Stream(
    inbox: seq<bytes>,
    waiters: seq<nat>,
    failure: Option<string>,
    closed: bool,
    slots: seq<Slot>,
    out: seq<Output>)

  const NEW_STREAM := Stream([], [], None, false, [], [])

  function Push(s: Stream, data: bytes): Stream {
    if s.waiters != [] && s.waiters[0] < |s.slots| then
      s.(waiters := s.waiters[1..], slots := s.slots[s.waiters[0] := Got(data)])
    else s.(inbox := s.inbox + [data])
  }

  /** The new receive is number `|s.slots|`. */
  function Recv(s: Stream): Stream {
    if s.inbox != [] then s.(inbox := s.inbox[1..], slots := s.slots + [Got(s.inbox[0])])
    else if s.failure.Some? then s.(slots := s.slots + [Aborted(s.failure.value)])
    else s.(waiters := s.waiters + [|s.slots|], slots := s.slots + [Waiting])
  }

  function CloseOnce(s: Stream, reason: string): Stream {
    if s.closed then s else s.(closed := true, out := s.out + [SentClose(reason)])
  }

  function Abort(slots: seq<Slot>, ids: seq<nat>, reason: string): (r: seq<Slot>)
    ensures |r| == |slots|
    ensures forall i :: 0 <= i < |slots| ==> r[i] == if i in ids then Aborted(reason) else slots[i]
  {
    if ids == [] then slots
    else
      var rest := Abort(slots, ids[1..], reason);
      if ids[0] < |slots| then rest[ids[0] := Aborted(reason)] else rest
  }

  function Fail(s: Stream, reason: string): Stream {
    s.(closed := true, failure := Some(reason), waiters := [], slots := Abort(s.slots, s.waiters, reason))
  }

  // ---------- The invariant ----------

  /** What the receives got, in the order they were made. */
  function Delivered(slots: seq<Slot>): seq<bytes> {
    if slots == [] then []
    else Delivered(slots[..|slots| - 1]) + match slots[|slots| - 1] case Got(d) => [d] case _ => []
  }

  function Closes(out: seq<Output>): nat {
    if out == [] then 0 else Closes(out[..|out| - 1]) + if out[|out| - 1].SentClose? then 1 else 0
  }

  /** The waiting receives are the last ones, in order. */
  ghost predicate WaitersAreLast(s: Stream) {
    && |s.waiters| <= |s.slots|
    && (forall i :: 0 <= i < |s.waiters| ==> s.waiters[i] == |s.slots| - |s.waiters| + i)
    && (forall i :: 0 <= i < |s.slots| ==> (s.slots[i].Waiting? <==> i >= |s.slots| - |s.waiters|))
  }

  ghost predicate Valid(s: Stream) {
    && WaitersAreLast(s)
    && (s.inbox == [] || s.waiters == [])
    && (s.failure.Some? ==> s.waiters == [] && s.closed)
    && Closes(s.out) <= (if s.closed then 1 else 0)
    && (s.closed && s.failure.None? ==> Closes(s.out) == 1)
  }

  /** Everything pushed so far: first what was delivered, then what is in the inbox. */
  function Pushed(s: Stream): seq<bytes> { Delivered(s.slots) + s.inbox }

  lemma {:induction false} DeliveredAppend(slots: seq<Slot>, x: Slot)
    ensures Delivered(slots + [x]) == Delivered(slots) + match x case Got(d) => [d] case _ => []
  {
    assert (slots + [x])[..|slots|] == slots;
  }

  lemma {:induction false} NothingDelivered(slots: seq<Slot>, rest: seq<Slot>)
    requires forall i :: 0 <= i < |rest| ==> !rest[i].Got?
    ensures Delivered(slots + rest) == Delivered(slots)
  {
    if rest == [] {
      assert slots + rest == slots;
    } else {
      var n := |rest| - 1;
      assert slots + rest == slots + rest[..n] + [rest[n]];
      DeliveredAppend(slots + rest[..n], rest[n]);
      NothingDelivered(slots, rest[..n]);
    }
  }

  /** Settling the first waiting receive appends to what was delivered. */
  lemma PushDelivers(s: Stream, data: bytes)
    requires Valid(s) && s.waiters != []
    ensures Delivered(Push(s, data).slots) == Delivered(s.slots) + [data]
  {
    var k := s.waiters[0];
    var before, after := s.slots[..k], s.slots[k + 1..];
    assert s.slots == before + ([s.slots[k]] + after);
    assert Push(s, data).slots == before + [Got(data)] + after;
    NothingDelivered(before, [s.slots[k]] + after);
    NothingDelivered(before + [Got(data)], after);
    DeliveredAppend(before, Got(data));
  }

  lemma {:induction false} AbortDelivers(slots: seq<Slot>, aborted: seq<Slot>)
    requires |aborted| == |slots|
    requires forall i :: 0 <= i < |slots| ==> aborted[i] == slots[i] || (slots[i].Waiting? && aborted[i].Aborted?)
    ensures Delivered(aborted) == Delivered(slots)
  {
    if slots != [] { AbortDelivers(slots[..|slots| - 1], aborted[..|slots| - 1]); }
  }

  /** Nothing is lost, nothing is delivered twice, and the order is kept: each operation
      leaves what was pushed as it is, except a push, which adds to its end. */
  lemma PushAdds(s: Stream, data: bytes)
    requires Valid(s)
    ensures Valid(Push(s, data)) && Pushed(Push(s, data)) == Pushed(s) + [data]
  {
    if s.waiters != [] {
      PushDelivers(s, data);
    }
  }

  lemma RecvIsValid(s: Stream)
    requires Valid(s)
    ensures Valid(Recv(s))
  {
  }

  lemma RecvMoves(s: Stream)
    requires Valid(s)
    ensures Pushed(Recv(s)) == Pushed(s)
    ensures s.inbox != [] ==> Recv(s).slots[|s.slots|] == Got(s.inbox[0])
    ensures s.inbox == [] && s.failure.Some? ==> Recv(s).slots[|s.slots|] == Aborted(s.failure.value)
    ensures s.inbox == [] && s.failure.None? ==>
              Recv(s).slots[|s.slots|] == Waiting && Recv(s).waiters == s.waiters + [|s.slots|]
  {
    if s.inbox != [] {
      DeliveredAppend(s.slots, Got(s.inbox[0]));
      assert [s.inbox[0]] + s.inbox[1..] == s.inbox;
    } else if s.failure.Some? {
      DeliveredAppend(s.slots, Aborted(s.failure.value));
    } else {
      DeliveredAppend(s.slots, Waiting);
    }
  }

  lemma FailSettlesAll(s: Stream, reason: string)
    requires Valid(s)
    ensures Valid(Fail(s, reason)) && Pushed(Fail(s, reason)) == Pushed(s) && Fail(s, reason).out == s.out
    ensures forall i :: 0 <= i < |s.slots| ==>
              Fail(s, reason).slots[i] == if s.slots[i].Waiting? then Aborted(reason) else s.slots[i]
  {
    forall i | 0 <= i < |s.slots| ensures i in s.waiters <==> s.slots[i].Waiting? {
      if s.slots[i].Waiting? { assert s.waiters[i - (|s.slots| - |s.waiters|)] == i; }
    }
    AbortDelivers(s.slots, Fail(s, reason).slots);
  }

  lemma CloseIsOnce(s: Stream, reason: string)
    requires Valid(s)
    ensures Valid(CloseOnce(s, reason)) && Pushed(CloseOnce(s, reason)) == Pushed(s)
    ensures CloseOnce(CloseOnce(s, reason), reason) == CloseOnce(s, reason)
  {
    if !s.closed { assert (s.out + [SentClose(reason)])[..|s.out|] == s.out; }
  }

  // ---------- The closure ----------

  class Channel {
    var inbox: seq<bytes>
    var waiters: seq<nat>
    var failure: Option<string>
    var closed: bool
    var slots: seq<Slot>
    var out: seq<Output>

    function Current(): Stream
      reads this
    {
      Stream(inbox, waiters, failure, closed, slots, out)
    }

    constructor ()
      ensures Current() == NEW_STREAM
    {
      inbox, waiters, failure, closed, slots, out := [], [], None, false, [], [];
    }

    method PushData(data: bytes)
      requires Valid(Current())
      modifies this
      ensures Current() == Push(old(Current()), data)
    {
      if |waiters| > 0 {
        var waiter := waiters[0];
        waiters := waiters[1..];
        slots := slots[waiter := Got(data)];
      } else {
        inbox := inbox + [data];
      }
    }

    method Receive() returns (id: nat)
      requires Valid(Current())
      modifies this
      ensures Current() == Recv(old(Current())) && id == |old(slots)|
    {
      id := |slots|;
      if |inbox| > 0 {
        var buffered := inbox[0];
        inbox := inbox[1..];
        slots := slots + [Got(buffered)];
      } else if failure.Some? {
        slots := slots + [Aborted(failure.value)];
      } else {
        waiters := waiters + [id];
        slots := slots + [Waiting];
      }
    }

    method SendClose(reason: string)
      modifies this
      ensures Current() == CloseOnce(old(Current()), reason)
    {
      if closed { return; }
      closed := true;
      out := out + [SentClose(reason)];
    }

    /** Reject the waiters one by one, oldest first. */
    method FailAll(reason: string)
      requires Valid(Current())
      modifies this
      ensures Current() == Fail(old(Current()), reason)
    {
      closed := true;
      failure := Some(reason);
      ghost var was := old(Current());
      while |waiters| > 0
        invariant Current() == was.(closed := true, failure := Some(reason), waiters := waiters, slots := slots)
        invariant |waiters| <= |was.waiters| && waiters == was.waiters[|was.waiters| - |waiters|..]
        invariant |slots| == |was.slots|
        invariant forall i :: 0 <= i < |slots| ==>
                    slots[i] == if i in was.waiters[..|was.waiters| - |waiters|] then Aborted(reason) else was.slots[i]
      {
        var waiter := waiters[0];
        ghost var n := |was.waiters| - |waiters|;
        assert was.waiters[..n + 1] == was.waiters[..n] + [waiter];
        waiters := waiters[1..];
        slots := slots[waiter := Aborted(reason)];
      }
      assert was.waiters[..|was.waiters|] == was.waiters;
      assert slots == Abort(was.slots, was.waiters, reason);
    }
  }
}
