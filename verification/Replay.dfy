/** The single-use cache for ticket ids: bounded, oldest-first eviction, and a sweep of
    expired entries at most every thirty seconds. */
module Replay {
  import opened Wrappers
  import opened JsMaps

  const SWEEP_INTERVAL_SEC := 30

  datatype Cache = Cache(seen: JsMap<string, int>, lastSweep: int)

  const FRESH_CACHE := Cache(Empty(), 0)

  predicate Sweeps(c: Cache, now: int) { now - c.lastSweep >= SWEEP_INTERVAL_SEC }

  /** The ids that are still good after `now`, in order. */
  function Unexpired(order: seq<string>, at: map<string, int>, now: int): seq<string> {
    if order == [] then []
    else if order[0] in at && at[order[0]] <= now then Unexpired(order[1..], at, now)
    else [order[0]] + Unexpired(order[1..], at, now)
  }

  function DropExpired(m: JsMap<string, int>, now: int): JsMap<string, int> {
    var keep := Unexpired(m.order, m.at, now);
    JsMap(keep, map k | k in m.at && m.at[k] > now :: m.at[k])
  }

  function Sweep(c: Cache, now: int): Cache {
    if Sweeps(c, now) then Cache(DropExpired(c.seen, now), now) else c
  }

  /** Drop the oldest entries until the size is below `max`, or nothing is left. */
  function Evict(m: JsMap<string, int>, max: int): JsMap<string, int>
    decreases |m.order|
  {
    if |m.order| < max || m.order == [] then m
    else
      var rest := m.Delete(m.order[0]);
      if |rest.order| < |m.order| then Evict(rest, max) else rest
  }

  datatype Call = Call(jti: string, exp: int, now: int)

  function Insert(m: JsMap<string, int>, max: int, call: Call): JsMap<string, int> {
    Evict(m, max).Set(call.jti, call.exp)
  }

  function Consume(c: Cache, max: int, call: Call): (Cache, bool) {
    var swept := Sweep(c, call.now);
    if call.jti in swept.seen.at then (swept, false)
    else (swept.(seen := Insert(swept.seen, max, call)), true)
  }

  // ---------- Sweeping and evicting in terms of the order ----------

  lemma {:induction false} UnexpiredMembers(order: seq<string>, at: map<string, int>, now: int)
    ensures forall k :: k in Unexpired(order, at, now) <==> k in order && (k in at ==> at[k] > now)
  {
    if order != [] { UnexpiredMembers(order[1..], at, now); }
  }

  lemma {:induction false} UnexpiredNoDup(order: seq<string>, at: map<string, int>, now: int)
    requires NoDup(order)
    ensures NoDup(Unexpired(order, at, now))
  {
    if order != [] {
      UnexpiredNoDup(order[1..], at, now);
      UnexpiredMembers(order[1..], at, now);
      var rest := Unexpired(order[1..], at, now);
      assert ([order[0]] + rest)[1..] == rest;
    }
  }

  lemma UnexpiredCons(k: string, s: seq<string>, at: map<string, int>, now: int)
    ensures Unexpired([k] + s, at, now) ==
            if k in at && at[k] <= now then Unexpired(s, at, now) else [k] + Unexpired(s, at, now)
  {
    assert ([k] + s)[0] == k && ([k] + s)[1..] == s;
  }

  lemma ConsConcat(k: string, s: seq<string>, t: seq<string>)
    ensures [k] + (s + t) == ([k] + s) + t
  {
  }

  lemma {:induction false} UnexpiredConcat(a: seq<string>, b: seq<string>, at: map<string, int>, now: int)
    ensures Unexpired(a + b, at, now) == Unexpired(a, at, now) + Unexpired(b, at, now)
  {
    if a == [] {
      assert a + b == b && [] + Unexpired(b, at, now) == Unexpired(b, at, now);
    } else {
      var k, rest := a[0], a[1..];
      assert a == [k] + rest;
      UnexpiredConcat(rest, b, at, now);
      ConsConcat(k, rest, b);
      UnexpiredCons(k, rest, at, now);
      UnexpiredCons(k, rest + b, at, now);
      ConsConcat(k, Unexpired(rest, at, now), Unexpired(b, at, now));
    }
  }

  lemma WithoutHead(order: seq<string>)
    requires NoDup(order) && order != []
    ensures Without(order, order[0]) == order[1..]
  {
  }

  lemma SweepIsValid(c: Cache, now: int)
    requires c.seen.Valid()
    ensures Sweep(c, now).seen.Valid()
  {
    UnexpiredMembers(c.seen.order, c.seen.at, now);
    UnexpiredNoDup(c.seen.order, c.seen.at, now);
  }

  function Excess(size: nat, max: int): (n: nat)
    ensures n <= size
  {
    if size < max then 0 else if max < 1 then size else size - max + 1
  }

  lemma {:induction false} EvictDropsOldest(m: JsMap<string, int>, max: int)
    requires m.Valid()
    ensures var r := Evict(m, max);
            && r.Valid()
            && r.order == m.order[Excess(|m.order|, max)..]
            && (forall k :: k in r.at ==> k in m.at && r.at[k] == m.at[k])
    decreases |m.order|
  {
    if |m.order| >= max && m.order != [] {
      WithoutHead(m.order);
      var rest := m.Delete(m.order[0]);
      assert rest.order == m.order[1..];
      EvictDropsOldest(rest, max);
      assert m.order[1..][Excess(|rest.order|, max)..] == m.order[Excess(|m.order|, max)..];
    }
  }

  lemma ConsumeIsValid(c: Cache, max: int, call: Call)
    requires c.seen.Valid()
    ensures Consume(c, max, call).0.seen.Valid()
  {
    SweepIsValid(c, call.now);
    EvictDropsOldest(Sweep(c, call.now).seen, max);
  }

  lemma UnexpiredOne(k: string, at: map<string, int>, now: int)
    ensures Unexpired([k], at, now) == if k in at && at[k] <= now then [] else [k]
  {
    assert Unexpired([k][1..], at, now) == [];
  }

  /** One iteration of the sweep, after the first `i` entries of `order`. */
  lemma SweepStep(order: seq<string>, at: map<string, int>, left: seq<string>, i: nat, now: int)
    requires i < |order| && order[i] in at && NoDup(left)
    requires left == Unexpired(order[..i], at, now) + order[i..]
    ensures order[i] in left
    ensures Unexpired(order[..i + 1], at, now) + order[i + 1..] ==
            if at[order[i]] <= now then Without(left, order[i]) else left
  {
    var k := order[i];
    var kept, rest := Unexpired(order[..i], at, now), order[i + 1..];
    assert order[i..] == [k] + rest && order[..i + 1] == order[..i] + [k];
    UnexpiredConcat(order[..i], [k], at, now);
    UnexpiredOne(k, at, now);
    assert left[|kept|] == k;
    if at[k] <= now {
      WithoutMiddle(kept, k, rest);
      assert kept + [] == kept;
    } else {
      assert kept + [k] + rest == kept + ([k] + rest);
    }
  }

  /** The sweep has looked at the first `i` entries of `all`; `left` is what remains. */
  ghost predicate SweptTo(all: JsMap<string, int>, left: JsMap<string, int>, i: nat, now: int) {
    && all.Valid() && left.Valid() && i <= |all.order|
    && left.order == Unexpired(all.order[..i], all.at, now) + all.order[i..]
    && forall k :: k in left.at ==> k in all.at && left.at[k] == all.at[k]
  }

  lemma SweepStarts(all: JsMap<string, int>, now: int)
    requires all.Valid()
    ensures SweptTo(all, all, 0, now)
  {
    assert all.order[..0] == [] && all.order[0..] == all.order && [] + all.order == all.order;
  }

  lemma SweepOne(all: JsMap<string, int>, left: JsMap<string, int>, i: nat, now: int)
    requires SweptTo(all, left, i, now) && i < |all.order|
    ensures all.order[i] in left.at
    ensures SweptTo(all, if left.at[all.order[i]] <= now then left.Delete(all.order[i]) else left, i + 1, now)
  {
    assert all.order[i] in all.at;
    SweepStep(all.order, all.at, left.order, i, now);
  }

  lemma SweepDone(all: JsMap<string, int>, left: JsMap<string, int>, now: int)
    requires SweptTo(all, left, |all.order|, now)
    ensures left == DropExpired(all, now)
  {
    assert all.order[..|all.order|] == all.order;
    assert left.order == Unexpired(all.order, all.at, now) + [];
    UnexpiredMembers(all.order, all.at, now);
    assert left.at == DropExpired(all, now).at;
  }

  // ---------- The object ----------

  class JtiReplayCache {
    var seen: JsMap<string, int>
    var lastSweep: int
    const maxEntries: int

    function Current(): Cache
      reads this
    {
      Cache(seen, lastSweep)
    }

    constructor (maxEntries: int := 100_000)
      ensures Current() == FRESH_CACHE && this.maxEntries == maxEntries
    {
      seen, lastSweep := Empty(), 0;
      this.maxEntries := maxEntries;
    }

    method RunSweep(now: int)
      requires seen.Valid()
      modifies this
      ensures Current() == Sweep(old(Current()), now)
    {
      if now - lastSweep < SWEEP_INTERVAL_SEC { return; }
      lastSweep := now;
      var all := seen;
      SweepStarts(all, now);
      var i := 0;
      while i < |all.order|
        invariant 0 <= i <= |all.order|
        invariant lastSweep == now && SweptTo(all, seen, i, now)
      {
        var k := all.order[i];
        SweepOne(all, seen, i, now);
        DropIfExpired(k, now);
        i := i + 1;
      }
      SweepDone(all, seen, now);
    }

    method DropIfExpired(k: string, now: int)
      requires k in seen.at
      modifies this
      ensures seen == if old(seen).at[k] <= now then old(seen).Delete(k) else old(seen)
      ensures lastSweep == old(lastSweep)
    {
      if seen.at[k] <= now { seen := seen.Delete(k); }
    }

    method ConsumeJti(jti: string, exp: int, now: int) returns (isNew: bool)
      requires seen.Valid()
      modifies this
      ensures seen.Valid()
      ensures (Current(), isNew) == Consume(old(Current()), maxEntries, Call(jti, exp, now))
    {
      SweepIsValid(Current(), now);
      RunSweep(now);
      if jti in seen.at { return false; }
      ghost var swept := seen;
      while |seen.order| >= maxEntries
        invariant seen.Valid() && lastSweep == Sweep(old(Current()), now).lastSweep
        invariant Evict(seen, maxEntries) == Evict(swept, maxEntries)
        decreases |seen.order|
      {
        if seen.order == [] { break; }
        seen := seen.Delete(seen.order[0]);
      }
      seen := seen.Set(jti, exp);
      isNew := true;
    }
  }

  lemma {:induction false} WithoutMiddle(a: seq<string>, k: string, b: seq<string>)
    requires NoDup(a + ([k] + b))
    ensures Without(a + ([k] + b), k) == a + b
  {
    var s := a + ([k] + b);
    if a == [] {
      assert s == [k] + b && a + b == b;
      WithoutHead(s);
    } else {
      assert s[1..] == a[1..] + ([k] + b);
      WithoutMiddle(a[1..], k, b);
      assert k in s[1..];
      assert a + b == [a[0]] + (a[1..] + b);
    }
  }
}
