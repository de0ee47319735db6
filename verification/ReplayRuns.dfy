/** The bounded replay cache against the unbounded set of ids it stands for. */
module ReplayRuns {
  import opened Wrappers
  import opened JsMaps
  import opened Replay

  function Run(c: Cache, max: int, calls: seq<Call>): Cache
    decreases |calls|
  {
    if calls == [] then c else Run(Consume(c, max, calls[0]).0, max, calls[1..])
  }

  /** The ids accepted during a run. */
  function AcceptedIds(c: Cache, max: int, calls: seq<Call>): set<string>
    decreases |calls|
  {
    if calls == [] then {}
    else (if Consume(c, max, calls[0]).1 then {calls[0].jti} else {})
         + AcceptedIds(Consume(c, max, calls[0]).0, max, calls[1..])
  }

  /** A sweep is due half a minute after the last one. */
  function NextSweep(last: int, now: int): int { if now - last >= SWEEP_INTERVAL_SEC then now else last }

  /** Some sweep of the run happened at or after time `e`. It depends on nothing but the times of
      the calls. */
  predicate SweptAt(last: int, calls: seq<Call>, e: int)
    decreases |calls|
  {
    calls != [] &&
    ((calls[0].now - last >= SWEEP_INTERVAL_SEC && calls[0].now >= e)
     || SweptAt(NextSweep(last, calls[0].now), calls[1..], e))
  }

  /** A cache of `max` entries holds at least one: the id just accepted. */
  function Capacity(max: int): nat { if max < 1 then 1 else max }

  function Elements(s: seq<string>): set<string> { set x | x in s }

  lemma {:induction false} ElementsCount(s: seq<string>)
    requires NoDup(s)
    ensures |Elements(s)| == |s|
  {
    if s == [] {
      assert Elements(s) == {};
    } else {
      ElementsCount(s[1..]);
      assert Elements(s) == {s[0]} + Elements(s[1..]);
    }
  }

  lemma {:induction false} NoDupParts(a: seq<string>, b: seq<string>)
    requires NoDup(a + b)
    ensures NoDup(a) && NoDup(b) && forall x :: x in a ==> x !in b
  {
    if a == [] {
      assert a + b == b;
    } else {
      assert (a + b)[1..] == a[1..] + b;
      NoDupParts(a[1..], b);
      assert a[0] !in a[1..] + b;
    }
  }

  // ---------- The bound ----------

  lemma {:induction false} SizeIsBounded(c: Cache, max: int, calls: seq<Call>)
    requires c.seen.Valid() && c.seen.Size() <= Capacity(max)
    ensures Run(c, max, calls).seen.Valid() && Run(c, max, calls).seen.Size() <= Capacity(max)
    decreases |calls|
  {
    if calls != [] {
      var swept := Sweep(c, calls[0].now);
      ConsumeIsValid(c, max, calls[0]);
      SweepIsValid(c, calls[0].now);
      EvictDropsOldest(swept.seen, max);
      SweepShrinks(c.seen.order, c.seen.at, calls[0].now);
      SizeIsBounded(Consume(c, max, calls[0]).0, max, calls[1..]);
    }
  }

  lemma {:induction false} SweepShrinks(order: seq<string>, at: map<string, int>, now: int)
    ensures |Unexpired(order, at, now)| <= |order|
  {
    if order != [] { SweepShrinks(order[1..], at, now); }
  }

  // ---------- Where one entry is ----------

  /** `j`, recorded with expiry `e`, is in the cache; `back` was inserted after it. */
  ghost predicate Holds(c: Cache, j: string, e: int, front: seq<string>, back: seq<string>) {
    && c.seen.Valid() && c.seen.order == front + [j] + back
    && j in c.seen.at && c.seen.at[j] == e
  }

  lemma HoldsAfterSweep(c: Cache, now: int, j: string, e: int, front: seq<string>, back: seq<string>)
    returns (front': seq<string>, back': seq<string>)
    requires Holds(c, j, e, front, back)
    requires !(Sweeps(c, now) && now >= e)
    ensures Holds(Sweep(c, now), j, e, front', back')
    ensures back' == if Sweeps(c, now) then Unexpired(back, c.seen.at, now) else back
  {
    front', back' := front, back;
    if Sweeps(c, now) {
      var at := c.seen.at;
      front', back' := Unexpired(front, at, now), Unexpired(back, at, now);
      UnexpiredConcat(front + [j], back, at, now);
      UnexpiredConcat(front, [j], at, now);
      UnexpiredOne(j, at, now);
      SweepIsValid(c, now);
    }
  }

  lemma InsertOrder(m: JsMap<string, int>, max: int, call: Call)
    requires m.Valid() && call.jti !in m.at
    ensures var r := Insert(m, max, call);
            && r.Valid()
            && r.order == m.order[Excess(|m.order|, max)..] + [call.jti]
            && (forall k :: k in r.at && k != call.jti ==> k in m.at && r.at[k] == m.at[k])
  {
    EvictDropsOldest(m, max);
  }

  lemma HoldsAfterInsert(
      m: JsMap<string, int>, last: int, max: int, call: Call, j: string, e: int, front: seq<string>,
      back: seq<string>)
    returns (front': seq<string>)
    requires Holds(Cache(m, last), j, e, front, back) && call.jti !in m.at
    requires |back| + 1 < Capacity(max)
    ensures Holds(Cache(Insert(m, max, call), last), j, e, front', back + [call.jti])
  {
    var n := Excess(|m.order|, max);
    assert n <= |front|;
    InsertOrder(m, max, call);
    front' := front[n..];
    var r := Insert(m, max, call);
    assert m.order[n..] == front' + [j] + back;
    assert r.order == front' + [j] + (back + [call.jti]);
    assert r.order[|front'|] == j;
  }

  /** Once the entries behind `j` and the new one fill the cache, `j` is the one to go. */
  lemma GoneAfterInsert(
      m: JsMap<string, int>, last: int, max: int, call: Call, j: string, e: int, front: seq<string>,
      back: seq<string>)
    requires Holds(Cache(m, last), j, e, front, back) && call.jti !in m.at
    requires |back| + 1 >= Capacity(max)
    ensures j !in Insert(m, max, call).at
  {
    var n := Excess(|m.order|, max);
    assert n >= |front| + 1;
    InsertOrder(m, max, call);
    assert m.order == (front + [j]) + back;
    NoDupParts(front + [j], back);
    assert m.order[n..] == back[n - |front| - 1..];
    assert j in front + [j];
    assert j !in Insert(m, max, call).order;
  }

  // ---------- Nothing is forgotten early ----------

  lemma FullOfOthers(c: Cache, max: int, call: Call, j: string, e: int, front: seq<string>, back: seq<string>)
    requires Holds(c, j, e, front, back) && call.jti !in c.seen.at && |back| + 1 >= Capacity(max)
    ensures |Elements(back) + {call.jti}| >= Capacity(max)
  {
    NoDupParts(front + [j], back);
    ElementsCount(back);
    assert forall x :: x in back ==> x in c.seen.order;
    assert call.jti !in c.seen.order;
  }

  function AcceptedHere(c: Cache, max: int, call: Call): set<string> {
    if Consume(c, max, call).1 then {call.jti} else {}
  }

  lemma SurvivesStep(
      c: Cache, max: int, call: Call, j: string, e: int, front: seq<string>, back: seq<string>, since: set<string>)
    returns (front': seq<string>, back': seq<string>)
    requires Holds(c, j, e, front, back) && j !in since && Elements(back) <= since
    requires !(Sweeps(c, call.now) && call.now >= e)
    ensures j !in AcceptedHere(c, max, call)
    ensures || (Holds(Consume(c, max, call).0, j, e, front', back')
                && Elements(back') <= since + AcceptedHere(c, max, call))
            || |since + AcceptedHere(c, max, call)| >= Capacity(max)
  {
    var swept := Sweep(c, call.now);
    front', back' := HoldsAfterSweep(c, call.now, j, e, front, back);
    UnexpiredMembers(back, c.seen.at, call.now);
    assert Elements(back') <= since;
    if call.jti !in swept.seen.at {
      if |back'| + 1 < Capacity(max) {
        front' := HoldsAfterInsert(swept.seen, swept.lastSweep, max, call, j, e, front', back');
        back' := back' + [call.jti];
      } else {
        FullOfOthers(swept, max, call, j, e, front', back');
        SubsetCount(Elements(back') + {call.jti}, since + {call.jti});
      }
    }
  }

  /** An entry survives a run unless a sweep happened at or after its expiry, or enough
      distinct other ids were accepted to fill the cache. */
  lemma {:induction false} SurvivesOrExcused(
      c: Cache, max: int, calls: seq<Call>, j: string, e: int,
      front: seq<string>, back: seq<string>, since: set<string>)
    requires Holds(c, j, e, front, back) && j !in since && Elements(back) <= since
    ensures || (j in Run(c, max, calls).seen.at && Run(c, max, calls).seen.at[j] == e)
            || SweptAt(c.lastSweep, calls, e)
            || |since + (AcceptedIds(c, max, calls) - {j})| >= Capacity(max)
    decreases |calls|
  {
    if calls != [] && !(Sweeps(c, calls[0].now) && calls[0].now >= e) {
      var here, next := AcceptedHere(c, max, calls[0]), Consume(c, max, calls[0]).0;
      var all := since + (AcceptedIds(c, max, calls) - {j});
      var front', back' := SurvivesStep(c, max, calls[0], j, e, front, back, since);
      if Holds(next, j, e, front', back') && Elements(back') <= since + here {
        SurvivesOrExcused(next, max, calls[1..], j, e, front', back', since + here);
        assert since + here + (AcceptedIds(next, max, calls[1..]) - {j}) == all;
      } else {
        SubsetCount(since + here, all);
      }
    }
  }

  lemma SubsetCount(a: set<string>, b: set<string>)
    requires a <= b
    ensures |a| <= |b|
  {
    assert b == a + (b - a);
  }

  /** Right after it is accepted, an id is the newest entry. */
  lemma AcceptedIsNewest(c: Cache, max: int, call: Call) returns (front: seq<string>)
    requires c.seen.Valid() && Consume(c, max, call).1
    ensures Holds(Consume(c, max, call).0, call.jti, call.exp, front, [])
  {
    SweepIsValid(c, call.now);
    var swept := Sweep(c, call.now);
    front := NewestEntry(swept.seen, swept.lastSweep, max, call);
  }

  lemma NewestEntry(m: JsMap<string, int>, last: int, max: int, call: Call) returns (front: seq<string>)
    requires m.Valid() && call.jti !in m.at
    ensures Holds(Cache(Insert(m, max, call), last), call.jti, call.exp, front, [])
  {
    InsertOrder(m, max, call);
    front := m.order[Excess(|m.order|, max)..];
    NothingBehind(front, call.jti);
    assert Insert(m, max, call).order == front + [call.jti];
    assert call.jti in front + [call.jti];
    assert Insert(m, max, call).at[call.jti] == call.exp;
  }

  lemma NothingBehind(front: seq<string>, j: string)
    ensures front + [j] + [] == front + [j]
  {
  }

  /** Main result: if an id is accepted twice, then between the two a sweep ran at or after
      the recorded expiry, or at least a full cache of distinct other ids was accepted. */
  lemma AcceptedTwiceIsExcused(c: Cache, max: int, first: Call, between: seq<Call>, second: Call)
    requires c.seen.Valid() && first.jti == second.jti
    requires Consume(c, max, first).1
    requires var after := Consume(c, max, first).0; Consume(Run(after, max, between), max, second).1
    ensures var after := Consume(c, max, first).0;
            || SweptAt(after.lastSweep, between + [second], first.exp)
            || |AcceptedIds(after, max, between) - {first.jti}| >= Capacity(max)
  {
    var after := Consume(c, max, first).0;
    var front := AcceptedIsNewest(c, max, first);
    SurvivesOrExcused(after, max, between, first.jti, first.exp, front, [], {});
    SweptAtAppend(after, max, between, second, first.exp);
    assert {} + (AcceptedIds(after, max, between) - {first.jti}) == AcceptedIds(after, max, between) - {first.jti};
    var before := Run(after, max, between);
    if first.jti in before.seen.at && before.seen.at[first.jti] == first.exp {
      assert Sweeps(before, second.now) && second.now >= first.exp;
    }
  }

  lemma {:induction false} SweptAtAppend(c: Cache, max: int, calls: seq<Call>, last: Call, e: int)
    ensures SweptAt(c.lastSweep, calls + [last], e) <==>
            SweptAt(c.lastSweep, calls, e) || (Sweeps(Run(c, max, calls), last.now) && last.now >= e)
    decreases |calls|
  {
    if calls == [] {
      assert calls + [last] == [last];
      assert !SweptAt(Consume(c, max, last).0.lastSweep, [], e);
    } else {
      assert (calls + [last])[1..] == calls[1..] + [last];
      SweptAtAppend(Consume(c, max, calls[0]).0, max, calls[1..], last, e);
    }
  }

  lemma {:induction false} NoSweepBefore(c: Cache, max: int, calls: seq<Call>, e: int)
    requires forall i :: 0 <= i < |calls| ==> calls[i].now < e
    ensures !SweptAt(c.lastSweep, calls, e)
    decreases |calls|
  {
    if calls != [] { NoSweepBefore(Consume(c, max, calls[0]).0, max, calls[1..], e); }
  }

  /** Single use: until the recorded expiry, and until the cache has been filled by other
      ids, a second use is refused. */
  lemma SecondUseIsRefused(c: Cache, max: int, first: Call, between: seq<Call>, second: Call)
    requires c.seen.Valid() && first.jti == second.jti && Consume(c, max, first).1
    requires forall i :: 0 <= i < |between| ==> between[i].now <= second.now
    requires second.now < first.exp
    requires |AcceptedIds(Consume(c, max, first).0, max, between) - {first.jti}| < Capacity(max)
    ensures !Consume(Run(Consume(c, max, first).0, max, between), max, second).1
  {
    var after := Consume(c, max, first).0;
    var calls := between + [second];
    forall i | 0 <= i < |calls| ensures calls[i].now < first.exp {
      if i < |between| { assert calls[i] == between[i]; } else { assert calls[i] == second; }
    }
    NoSweepBefore(after, max, calls, first.exp);
    if Consume(Run(after, max, between), max, second).1 {
      AcceptedTwiceIsExcused(c, max, first, between, second);
    }
  }

  // ---------- Nothing new is refused ----------

  lemma {:induction false} HeldWasAccepted(c: Cache, max: int, calls: seq<Call>)
    requires c.seen.Valid()
    ensures forall k :: k in Run(c, max, calls).seen.at ==> k in c.seen.at || k in AcceptedIds(c, max, calls)
    decreases |calls|
  {
    if calls != [] {
      var next := Consume(c, max, calls[0]).0;
      SweepIsValid(c, calls[0].now);
      EvictDropsOldest(Sweep(c, calls[0].now).seen, max);
      ConsumeIsValid(c, max, calls[0]);
      HeldWasAccepted(next, max, calls[1..]);
      forall k | k in next.seen.at ensures k in c.seen.at || (k == calls[0].jti && Consume(c, max, calls[0]).1) {}
    }
  }

  /** The other direction: an id that was never accepted before is always accepted. */
  lemma RefusedWasAccepted(max: int, calls: seq<Call>, call: Call)
    requires !Consume(Run(FRESH_CACHE, max, calls), max, call).1
    ensures call.jti in AcceptedIds(FRESH_CACHE, max, calls)
  {
    HeldWasAccepted(FRESH_CACHE, max, calls);
  }

  // ---------- Expiries that arrive in order ----------

  /** Insertion order is also expiry order. */
  ghost predicate SortedBy(order: seq<string>, at: map<string, int>) {
    order == [] ||
    ((forall k :: k in order[1..] && k in at && order[0] in at ==> at[order[0]] <= at[k]) && SortedBy(order[1..], at))
  }

  predicate Rising(calls: seq<Call>, floor: int) {
    calls == [] || (floor <= calls[0].exp && Rising(calls[1..], calls[0].exp))
  }

  ghost predicate InOrder(c: Cache, floor: int) {
    && c.seen.Valid()
    && SortedBy(c.seen.order, c.seen.at)
    && (forall k :: k in c.seen.at ==> c.seen.at[k] <= floor)
  }

  lemma {:induction false} SortedUnexpired(order: seq<string>, at: map<string, int>, now: int)
    requires SortedBy(order, at)
    ensures SortedBy(Unexpired(order, at, now), at)
  {
    if order != [] {
      SortedUnexpired(order[1..], at, now);
      UnexpiredMembers(order[1..], at, now);
      var rest := Unexpired(order[1..], at, now);
      assert ([order[0]] + rest)[1..] == rest;
    }
  }

  lemma {:induction false} SortedSuffix(order: seq<string>, at: map<string, int>, n: nat)
    requires SortedBy(order, at) && n <= |order|
    ensures SortedBy(order[n..], at)
  {
    if n > 0 {
      assert order[n..] == order[1..][n - 1..];
      SortedSuffix(order[1..], at, n - 1);
    } else {
      assert order[n..] == order;
    }
  }

  /** Only the recorded expiries of the listed ids matter. */
  lemma {:induction false} SortedSameValues(order: seq<string>, at: map<string, int>, at': map<string, int>)
    requires SortedBy(order, at)
    requires forall k :: k in order && k in at' ==> k in at && at'[k] == at[k]
    ensures SortedBy(order, at')
  {
    if order != [] { SortedSameValues(order[1..], at, at'); }
  }

  lemma {:induction false} SortedAppend(order: seq<string>, at: map<string, int>, k: string)
    requires SortedBy(order, at)
    requires k in at && forall x :: x in order && x in at ==> at[x] <= at[k]
    ensures SortedBy(order + [k], at)
  {
    if order != [] {
      SortedAppend(order[1..], at, k);
      assert (order + [k])[1..] == order[1..] + [k];
    } else {
      assert order + [k] == [k];
      assert [k][1..] == [];
    }
  }

  lemma SweepInOrder(c: Cache, now: int, floor: int)
    requires InOrder(c, floor)
    ensures InOrder(Sweep(c, now), floor)
  {
    SweepIsValid(c, now);
    if Sweeps(c, now) {
      SortedUnexpired(c.seen.order, c.seen.at, now);
      SortedSameValues(Sweep(c, now).seen.order, c.seen.at, Sweep(c, now).seen.at);
    }
  }

  lemma InsertInOrder(m: JsMap<string, int>, last: int, max: int, call: Call, floor: int)
    requires InOrder(Cache(m, last), floor) && call.jti !in m.at && floor <= call.exp
    ensures InOrder(Cache(Insert(m, max, call), last), call.exp)
  {
    InsertOrder(m, max, call);
    var r := Insert(m, max, call);
    var kept := m.order[Excess(|m.order|, max)..];
    SortedSuffix(m.order, m.at, Excess(|m.order|, max));
    assert forall k :: k in kept ==> k in m.order;
    SortedSameValues(kept, m.at, r.at);
    SortedAppend(kept, r.at, call.jti);
  }

  /** With rising expiries, insertion order stays expiry order. */
  lemma ConsumeInOrder(c: Cache, max: int, call: Call, floor: int)
    requires InOrder(c, floor) && floor <= call.exp
    ensures InOrder(Consume(c, max, call).0, call.exp)
  {
    SweepInOrder(c, call.now, floor);
    var swept := Sweep(c, call.now);
    if call.jti !in swept.seen.at { InsertInOrder(swept.seen, swept.lastSweep, max, call, floor); }
  }

  lemma TakeDrop(s: seq<string>, n: nat)
    requires n <= |s|
    ensures s[..n] + s[n..] == s
  {
  }

  /** So what eviction drops is what expires soonest. */
  lemma EvictedExpireFirst(c: Cache, max: int, floor: int, gone: string, kept: string)
    requires InOrder(c, floor)
    requires gone in c.seen.at && gone !in Evict(c.seen, max).at
    requires kept in c.seen.at && kept in Evict(c.seen, max).at
    ensures c.seen.at[gone] <= c.seen.at[kept]
  {
    EvictDropsOldest(c.seen, max);
    var n, order, left := Excess(|c.seen.order|, max), c.seen.order, Evict(c.seen, max);
    TakeDrop(order, n);
    assert gone in order && gone !in left.order && kept in left.order;
    SortedAcross(order[..n], order[n..], c.seen.at, gone, kept);
  }

  lemma {:induction false} SortedAcross(a: seq<string>, b: seq<string>, at: map<string, int>, x: string, y: string)
    requires SortedBy(a + b, at) && x in a && y in b && x in at && y in at
    ensures at[x] <= at[y]
  {
    assert (a + b)[1..] == a[1..] + b;
    if x != a[0] { SortedAcross(a[1..], b, at, x, y); } else { assert y in (a + b)[1..]; }
  }

  function AcceptedCount(c: Cache, max: int, calls: seq<Call>): nat
    decreases |calls|
  {
    if calls == [] then 0
    else (if Consume(c, max, calls[0]).1 then 1 else 0)
         + AcceptedCount(Consume(c, max, calls[0]).0, max, calls[1..])
  }

  lemma {:induction false} NothingExpires(back: seq<string>, at: map<string, int>, now: int)
    requires forall k :: k in back ==> k in at && at[k] > now
    ensures Unexpired(back, at, now) == back
  {
    if back != [] { NothingExpires(back[1..], at, now); }
  }

  /** Out of the cache, and not let in again. */
  lemma {:induction false} StaysGone(c: Cache, max: int, calls: seq<Call>, j: string)
    requires c.seen.Valid() && j !in c.seen.at && j !in AcceptedIds(c, max, calls)
    ensures j !in Run(c, max, calls).seen.at
    decreases |calls|
  {
    if calls != [] {
      SweepIsValid(c, calls[0].now);
      EvictDropsOldest(Sweep(c, calls[0].now).seen, max);
      ConsumeIsValid(c, max, calls[0]);
      StaysGone(Consume(c, max, calls[0]).0, max, calls[1..], j);
    }
  }

  lemma BackOutlives(c: Cache, j: string, e: int, front: seq<string>, back: seq<string>, floor: int, now: int)
    requires InOrder(c, floor) && Holds(c, j, e, front, back) && now < e
    ensures Unexpired(back, c.seen.at, now) == back
  {
    forall k | k in back ensures k in c.seen.at && c.seen.at[k] > now {
      assert k in c.seen.order;
      SortedAcross(front + [j], back, c.seen.at, j, k);
    }
    NothingExpires(back, c.seen.at, now);
  }

  /** One step of an entry under rising expiries: swept, pushed out, or one place older. */
  lemma ExactStep(c: Cache, max: int, call: Call, j: string, e: int, front: seq<string>, back: seq<string>, floor: int)
    returns (front': seq<string>, back': seq<string>)
    requires InOrder(c, floor) && floor <= call.exp && Holds(c, j, e, front, back)
    requires |back| < Capacity(max) && (call.jti == j ==> !Consume(c, max, call).1)
    ensures var next := Consume(c, max, call).0;
            var n := |back| + (if Consume(c, max, call).1 then 1 else 0);
            if (Sweeps(c, call.now) && call.now >= e) || n >= Capacity(max) then next.seen.Valid() && j !in next.seen.at
            else Holds(next, j, e, front', back') && |back'| == n
  {
    front', back' := front, back;
    var swept := Sweep(c, call.now);
    SweepIsValid(c, call.now);
    ConsumeIsValid(c, max, call);
    if Sweeps(c, call.now) && call.now >= e {
      if call.jti !in swept.seen.at { InsertOrder(swept.seen, max, call); }
    } else {
      front', back' := HoldsAfterSweep(c, call.now, j, e, front, back);
      if Sweeps(c, call.now) { BackOutlives(c, j, e, front, back, floor, call.now); }
      if call.jti !in swept.seen.at {
        if |back| + 1 < Capacity(max) {
          front' := HoldsAfterInsert(swept.seen, swept.lastSweep, max, call, j, e, front', back');
          back' := back' + [call.jti];
        } else {
          GoneAfterInsert(swept.seen, swept.lastSweep, max, call, j, e, front', back');
        }
      }
    }
  }

  /** Main result for tickets of one lifetime, both directions: an id is still held exactly
      when no sweep ran at or after its expiry and fewer ids than the cache holds were
      accepted since. Attempts to use it again may lie in between, as long as they failed. */
  lemma {:induction false} ExactlyRemembered(
      c: Cache, max: int, calls: seq<Call>, j: string, e: int, front: seq<string>, back: seq<string>, floor: int)
    requires InOrder(c, floor) && Rising(calls, floor) && Holds(c, j, e, front, back)
    requires |back| < Capacity(max) && j !in AcceptedIds(c, max, calls)
    ensures var r := Run(c, max, calls);
            && (j in r.seen.at <==>
                !SweptAt(c.lastSweep, calls, e) && |back| + AcceptedCount(c, max, calls) < Capacity(max))
            && (j in r.seen.at ==> r.seen.at[j] == e)
    decreases |calls|
  {
    if calls != [] {
      var next := Consume(c, max, calls[0]).0;
      var front', back' := ExactStep(c, max, calls[0], j, e, front, back, floor);
      ConsumeInOrder(c, max, calls[0], floor);
      if Holds(next, j, e, front', back') && j in next.seen.at {
        ExactlyRemembered(next, max, calls[1..], j, e, front', back', calls[0].exp);
      } else {
        StaysGone(next, max, calls[1..], j);
      }
    }
  }

  /** The same from the call that accepted the id. */
  lemma RefusedIffRemembered(c: Cache, max: int, first: Call, calls: seq<Call>, floor: int)
    requires InOrder(c, floor) && floor <= first.exp && Rising(calls, first.exp)
    requires Consume(c, max, first).1 && first.jti !in AcceptedIds(Consume(c, max, first).0, max, calls)
    ensures var after := Consume(c, max, first).0;
            var r := Run(after, max, calls).seen.at;
            && (first.jti in r <==>
                !SweptAt(after.lastSweep, calls, first.exp) && AcceptedCount(after, max, calls) < Capacity(max))
            && (first.jti in r ==> r[first.jti] == first.exp)
  {
    var front := AcceptedIsNewest(c, max, first);
    ConsumeInOrder(c, max, first, floor);
    ExactlyRemembered(Consume(c, max, first).0, max, calls, first.jti, first.exp, front, [], first.exp);
  }

  // ---------- Exactly, whatever the order of expiries ----------

  /** Of the ids in `live`, those a sweep at `now` leaves. */
  function StillLive(live: map<string, int>, now: int): map<string, int> {
    map k | k in live && live[k] > now :: live[k]
  }

  /** The ids accepted since, without those that were swept: after one more call. */
  function LiveAfter(c: Cache, max: int, call: Call, live: map<string, int>): map<string, int> {
    var left := if Sweeps(c, call.now) then StillLive(live, call.now) else live;
    if Consume(c, max, call).1 then left[call.jti := call.exp] else left
  }

  /** At no time of the run are there as many of them as the cache holds. */
  predicate NeverFull(c: Cache, max: int, calls: seq<Call>, live: map<string, int>)
    decreases |calls|
  {
    calls == [] ||
    (var more := LiveAfter(c, max, calls[0], live);
     |more| < Capacity(max) && NeverFull(Consume(c, max, calls[0]).0, max, calls[1..], more))
  }

  /** `live` is what lies behind `j`. */
  ghost predicate LiveBehind(at: map<string, int>, back: seq<string>, live: map<string, int>) {
    && live.Keys == Elements(back)
    && forall k :: k in live ==> k in at && at[k] == live[k]
  }

  lemma BehindCount(c: Cache, j: string, e: int, front: seq<string>, back: seq<string>, live: map<string, int>)
    requires Holds(c, j, e, front, back) && LiveBehind(c.seen.at, back, live)
    ensures |live| == |back|
  {
    NoDupParts(front + [j], back);
    ElementsCount(back);
    assert |live| == |live.Keys|;
  }

  lemma BehindAfterSweep(c: Cache, now: int, back: seq<string>, live: map<string, int>)
    requires c.seen.Valid() && LiveBehind(c.seen.at, back, live)
    ensures var back' := if Sweeps(c, now) then Unexpired(back, c.seen.at, now) else back;
            LiveBehind(Sweep(c, now).seen.at, back', if Sweeps(c, now) then StillLive(live, now) else live)
  {
    UnexpiredMembers(back, c.seen.at, now);
  }

  lemma BehindAfterInsert(
      m: JsMap<string, int>, last: int, max: int, call: Call, j: string, e: int,
      front: seq<string>, back: seq<string>, live: map<string, int>)
    requires Holds(Cache(m, last), j, e, front, back) && LiveBehind(m.at, back, live) && call.jti !in m.at
    requires |back| + 1 < Capacity(max)
    ensures LiveBehind(Insert(m, max, call).at, back + [call.jti], live[call.jti := call.exp])
  {
    var front' := HoldsAfterInsert(m, last, max, call, j, e, front, back);
    InsertOrder(m, max, call);
    var r := Insert(m, max, call);
    var back' := back + [call.jti];
    LastPart(front' + [j], back');
    ElementsOfMore(back, call.jti);
    assert live[call.jti := call.exp].Keys == Elements(back');
    forall k | k in live[call.jti := call.exp] ensures k in r.at && r.at[k] == live[call.jti := call.exp][k] {
      assert k in back';
      assert k in r.order;
    }
  }

  lemma LastPart(a: seq<string>, b: seq<string>)
    ensures forall k :: k in b ==> k in a + b
  {
  }

  lemma ElementsOfMore(s: seq<string>, k: string)
    ensures Elements(s + [k]) == Elements(s) + {k}
  {
  }

  /** One step of a held id: swept, pushed out, or held behind what is live then. */
  lemma LiveStep(
      c: Cache, max: int, call: Call, j: string, e: int, front: seq<string>, back: seq<string>, live: map<string, int>)
    returns (front': seq<string>, back': seq<string>)
    requires Holds(c, j, e, front, back) && LiveBehind(c.seen.at, back, live) && |back| < Capacity(max)
    requires call.jti == j ==> !Consume(c, max, call).1
    ensures var next, more := Consume(c, max, call).0, LiveAfter(c, max, call, live);
            if (Sweeps(c, call.now) && call.now >= e) || |more| >= Capacity(max)
            then next.seen.Valid() && j !in next.seen.at
            else Holds(next, j, e, front', back') && LiveBehind(next.seen.at, back', more) && |back'| < Capacity(max)
  {
    front', back' := front, back;
    var swept := Sweep(c, call.now);
    SweepIsValid(c, call.now);
    ConsumeIsValid(c, max, call);
    if Sweeps(c, call.now) && call.now >= e {
      UnexpiredMembers(c.seen.order, c.seen.at, call.now);
      if call.jti !in swept.seen.at { InsertOrder(swept.seen, max, call); }
    } else {
      var left := if Sweeps(c, call.now) then StillLive(live, call.now) else live;
      front', back' := HoldsAfterSweep(c, call.now, j, e, front, back);
      BehindAfterSweep(c, call.now, back, live);
      BehindCount(swept, j, e, front', back', left);
      SweepShrinks(back, c.seen.at, call.now);
      if call.jti !in swept.seen.at {
        NewIdGrows(swept, call, back', left);
        if |back'| + 1 < Capacity(max) {
          BehindAfterInsert(swept.seen, swept.lastSweep, max, call, j, e, front', back', left);
          front' := HoldsAfterInsert(swept.seen, swept.lastSweep, max, call, j, e, front', back');
          back' := back' + [call.jti];
        } else {
          GoneAfterInsert(swept.seen, swept.lastSweep, max, call, j, e, front', back');
        }
      }
    }
  }

  lemma NewIdGrows(c: Cache, call: Call, back: seq<string>, live: map<string, int>)
    requires LiveBehind(c.seen.at, back, live) && call.jti !in c.seen.at
    ensures |live[call.jti := call.exp]| == |live| + 1
  {
    assert call.jti !in live;
    assert live[call.jti := call.exp].Keys == live.Keys + {call.jti};
    assert |live.Keys| == |live|;
  }

  /** Main result, for any expiries: an id that is not accepted again is held exactly when no
      sweep ran at or after its expiry, and the ids accepted since and not yet swept never
      filled the cache. */
  lemma {:induction false} HeldIff(
      c: Cache, max: int, calls: seq<Call>, j: string, e: int, front: seq<string>, back: seq<string>,
      live: map<string, int>)
    requires Holds(c, j, e, front, back) && LiveBehind(c.seen.at, back, live) && |back| < Capacity(max)
    requires j !in AcceptedIds(c, max, calls)
    ensures var r := Run(c, max, calls);
            && r.seen.Valid()
            && (j in r.seen.at <==> !SweptAt(c.lastSweep, calls, e) && NeverFull(c, max, calls, live))
            && (j in r.seen.at ==> r.seen.at[j] == e)
    decreases |calls|
  {
    if calls != [] {
      var next := Consume(c, max, calls[0]).0;
      var front', back' := LiveStep(c, max, calls[0], j, e, front, back, live);
      ConsumeIsValid(c, max, calls[0]);
      if Holds(next, j, e, front', back') && j in next.seen.at {
        HeldIff(next, max, calls[1..], j, e, front', back', LiveAfter(c, max, calls[0], live));
      } else {
        StaysGone(next, max, calls[1..], j);
        RunIsValid(next, max, calls[1..]);
      }
    }
  }

  lemma {:induction false} RunIsValid(c: Cache, max: int, calls: seq<Call>)
    requires c.seen.Valid()
    ensures Run(c, max, calls).seen.Valid()
    decreases |calls|
  {
    if calls != [] {
      ConsumeIsValid(c, max, calls[0]);
      RunIsValid(Consume(c, max, calls[0]).0, max, calls[1..]);
    }
  }

  /** Whether the next call for a held id is refused: its own sweep comes first. */
  lemma RefusedIfHeld(c: Cache, max: int, call: Call, e: int)
    requires c.seen.Valid() && (call.jti in c.seen.at ==> c.seen.at[call.jti] == e)
    ensures !Consume(c, max, call).1 <==> call.jti in c.seen.at && !(Sweeps(c, call.now) && call.now >= e)
  {
    UnexpiredMembers(c.seen.order, c.seen.at, call.now);
  }

  /** Main result, exactly when a second use is refused, for any expiries: no sweep at or after
      the expiry, the sweep of the second use included, and the ids accepted in between and not
      yet swept never filled the cache. */
  lemma SecondUseRefusedIff(c: Cache, max: int, first: Call, between: seq<Call>, second: Call)
    requires c.seen.Valid() && Consume(c, max, first).1 && second.jti == first.jti
    requires first.jti !in AcceptedIds(Consume(c, max, first).0, max, between)
    ensures var after := Consume(c, max, first).0;
            !Consume(Run(after, max, between), max, second).1 <==>
            !SweptAt(after.lastSweep, between + [second], first.exp) && NeverFull(after, max, between, map[])
  {
    var after := Consume(c, max, first).0;
    var front := AcceptedIsNewest(c, max, first);
    assert LiveBehind(after.seen.at, [], map[]);
    HeldIff(after, max, between, first.jti, first.exp, front, [], map[]);
    SweptAtAppend(after, max, between, second, first.exp);
    RefusedIfHeld(Run(after, max, between), max, second, first.exp);
  }

  /** Fewer ids than the cache holds cannot fill it. */
  lemma {:induction false} FewNeverFill(c: Cache, max: int, calls: seq<Call>, live: map<string, int>)
    requires |live.Keys + AcceptedIds(c, max, calls)| < Capacity(max)
    ensures NeverFull(c, max, calls, live)
    decreases |calls|
  {
    if calls != [] {
      var next, more := Consume(c, max, calls[0]).0, LiveAfter(c, max, calls[0], live);
      var all := live.Keys + AcceptedIds(c, max, calls);
      SubsetCount(more.Keys + AcceptedIds(next, max, calls[1..]), all);
      SubsetCount(more.Keys, all);
      assert |more| == |more.Keys|;
      FewNeverFill(next, max, calls[1..], more);
    }
  }

  /** With fewer other ids in between than the cache holds, whatever their expiries: a second
      use is refused exactly when no sweep ran at or after the expiry. */
  lemma RefusedIffNotSwept(c: Cache, max: int, first: Call, between: seq<Call>, second: Call)
    requires c.seen.Valid() && Consume(c, max, first).1 && second.jti == first.jti
    requires first.jti !in AcceptedIds(Consume(c, max, first).0, max, between)
    requires |AcceptedIds(Consume(c, max, first).0, max, between)| < Capacity(max)
    ensures var after := Consume(c, max, first).0;
            !Consume(Run(after, max, between), max, second).1 <==>
            !SweptAt(after.lastSweep, between + [second], first.exp)
  {
    var after := Consume(c, max, first).0;
    var none: map<string, int> := map[];
    assert none.Keys + AcceptedIds(after, max, between) == AcceptedIds(after, max, between);
    FewNeverFill(after, max, between, none);
    SecondUseRefusedIff(c, max, first, between, second);
  }
}
