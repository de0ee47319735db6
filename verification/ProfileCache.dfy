/** The cache of upstream answers: a time to live, and at most a thousand entries, the
    oldest going first. */
module ProfileCache {
  import opened Wrappers
  import opened Bytes
  import opened JsMaps
  import opened Dedupe

  const MAX_ENTRIES := 1000

  /** An answer, as values. */
  datatype Answer = Answer(
    status: int,
    statusText: string,
    headers: seq<Pair>,
    body: bytes,
    profileHash: Option<string>)

  datatype Kept = Kept(value: Answer, expiresAt: int)

  type Cache = JsMap<string, Kept>

  /** The cache afterwards, and the answer if there is one. Times are in milliseconds. */
  function Find(c: Cache, key: string, now: int): (Cache, Option<Answer>) {
    if key !in c.at then (c, None)
    else if c.at[key].expiresAt <= now then (c.Delete(key), None)
    else (c, Some(c.at[key].value))
  }

  function MakeRoom(c: Cache): Cache {
    if c.Size() >= MAX_ENTRIES && c.order[0] != "" then c.Delete(c.order[0]) else c
  }

  function Store(c: Cache, key: string, value: Answer, ttl: int, now: int): Cache {
    MakeRoom(c).Set(key, Kept(value, now + ttl * 1000))
  }

  // ---------- Runs ----------

  /** Lookups and stores, interleaved in any way. */
  datatype Event = Ask(key: string, now: int) | Keep(key: string, value: Answer, ttl: int, now: int)

  function Step(c: Cache, ev: Event): Cache {
    match ev
    case Ask(key, now) => Find(c, key, now).0
    case Keep(key, value, ttl, now) => Store(c, key, value, ttl, now)
  }

  function Run(c: Cache, events: seq<Event>): Cache
    decreases |events|
  {
    if events == [] then c else Step(Run(c, events[..|events| - 1]), events[|events| - 1])
  }

  predicate NamedKeys(events: seq<Event>) { forall i :: 0 <= i < |events| ==> events[i].key != "" }

  ghost predicate Bounded(c: Cache) { c.Valid() && c.Size() <= MAX_ENTRIES && forall k :: k in c.at ==> k != "" }

  lemma StepIsBounded(c: Cache, ev: Event)
    requires Bounded(c) && ev.key != ""
    ensures Bounded(Step(c, ev))
  {
    if c.order != [] { assert c.order[0] in c.at; }
  }

  lemma {:induction false} RunIsBounded(events: seq<Event>)
    requires NamedKeys(events)
    ensures Bounded(Run(Empty(), events))
  {
    if events != [] {
      RunIsBounded(events[..|events| - 1]);
      StepIsBounded(Run(Empty(), events[..|events| - 1]), events[|events| - 1]);
    }
  }

  /** The last store under `key`. */
  predicate LatestKeep(events: seq<Event>, key: string, i: nat) {
    && i < |events| && events[i].Keep? && events[i].key == key
    && forall j :: i < j < |events| ==> events[j].Keep? ==> events[j].key != key
  }

  /** What is held under a key is what was last stored under it. */
  lemma {:induction false} HeldIsLatest(events: seq<Event>, key: string) returns (i: nat)
    requires key in Run(Empty(), events).at
    ensures LatestKeep(events, key, i)
    ensures Run(Empty(), events).at[key] == Kept(events[i].value, events[i].now + events[i].ttl * 1000)
    decreases |events|
  {
    var n := |events| - 1;
    if events[n].Keep? && events[n].key == key {
      i := n;
    } else {
      i := HeldIsLatest(events[..n], key);
    }
  }

  /** Every hit is the answer last stored under its key, less than its time to live ago. */
  lemma HitIsLatestAnswer(events: seq<Event>, key: string, now: int) returns (i: nat)
    requires Find(Run(Empty(), events), key, now).1.Some?
    ensures LatestKeep(events, key, i)
    ensures Find(Run(Empty(), events), key, now).1 == Some(events[i].value)
    ensures now - events[i].now < events[i].ttl * 1000
  {
    i := HeldIsLatest(events, key);
  }

  // ---------- Kept answers are found again ----------

  ghost predicate Behind(c: Cache, key: string, entry: Kept, front: seq<string>, back: seq<string>) {
    c.Valid() && c.order == front + [key] + back && key in c.at && c.at[key] == entry
  }

  function Keeps(events: seq<Event>): nat {
    if events == [] then 0 else (if events[0].Keep? then 1 else 0) + Keeps(events[1..])
  }

  lemma {:induction false} WithoutOther(front: seq<string>, key: string, back: seq<string>, other: string)
    returns (front': seq<string>, back': seq<string>)
    requires other != key
    ensures Without(front + [key] + back, other) == front' + [key] + back'
    ensures |back'| <= |back| && |front'| <= |front|
  {
    var s := front + [key] + back;
    if front == [] {
      assert s == [key] + back;
      front', back' := [], Without(back, other);
      WithoutShrinks(back, other);
    } else {
      assert s[1..] == front[1..] + [key] + back;
      front', back' := WithoutOther(front[1..], key, back, other);
      if front[0] != other {
        assert [front[0]] + (front' + [key] + back') == [front[0]] + front' + [key] + back';
        front' := [front[0]] + front';
      }
    }
  }

  lemma {:induction false} WithoutShrinks(s: seq<string>, k: string)
    ensures |Without(s, k)| <= |s|
  {
    if s != [] { WithoutShrinks(s[1..], k); }
  }

  lemma {:induction false} DeleteOther(
      c: Cache, key: string, entry: Kept, front: seq<string>, back: seq<string>, other: string)
    returns (front': seq<string>, back': seq<string>)
    requires Behind(c, key, entry, front, back) && other != key
    ensures Behind(c.Delete(other), key, entry, front', back') && |back'| <= |back|
  {
    front', back' := WithoutOther(front, key, back, other);
  }

  lemma SetOther(c: Cache, key: string, entry: Kept, front: seq<string>, back: seq<string>, other: string, v: Kept)
    returns (back': seq<string>)
    requires Behind(c, key, entry, front, back) && other != key
    ensures Behind(c.Set(other, v), key, entry, front, back') && |back'| <= |back| + 1
  {
    back' := if other in c.at then back else back + [other];
    assert front + [key] + back + [other] == front + [key] + (back + [other]);
  }

  lemma StepKeepsEntry(c: Cache, key: string, entry: Kept, front: seq<string>, back: seq<string>, ev: Event)
    returns (front': seq<string>, back': seq<string>)
    requires Behind(c, key, entry, front, back) && c.Size() <= MAX_ENTRIES
    requires ev.Ask? ==> ev.key != key || ev.now < entry.expiresAt
    requires ev.Keep? ==> ev.key != key && |back| + 1 < MAX_ENTRIES
    ensures Behind(Step(c, ev), key, entry, front', back')
    ensures |back'| <= |back| + if ev.Keep? then 1 else 0
  {
    front', back' := front, back;
    match ev
    case Ask(k, now) =>
      if k != key && k in c.at && c.at[k].expiresAt <= now {
        front', back' := DeleteOther(c, key, entry, front, back, k);
      }
    case Keep(k, value, ttl, now) =>
      if c.Size() >= MAX_ENTRIES && c.order[0] != "" {
        assert |front| > 0 && c.order[0] == front[0];
        HeadIsOther(c, key, front, back);
        front', back' := DeleteOther(c, key, entry, front, back, c.order[0]);
      }
      back' := SetOther(MakeRoom(c), key, entry, front', back', k, Kept(value, now + ttl * 1000));
  }

  lemma HeadIsOther(c: Cache, key: string, front: seq<string>, back: seq<string>)
    requires c.Valid() && c.order == front + [key] + back && front != []
    ensures c.order[0] != key
  {
    assert c.order[1..][|front| - 1] == key;
  }

  lemma {:induction false} EntrySurvives(
      c: Cache, key: string, entry: Kept, front: seq<string>, back: seq<string>, events: seq<Event>)
    returns (front': seq<string>, back': seq<string>)
    requires Bounded(c) && Behind(c, key, entry, front, back) && NamedKeys(events)
    requires |back| + Keeps(events) < MAX_ENTRIES
    requires forall i :: 0 <= i < |events| ==> events[i].Keep? ==> events[i].key != key
    requires forall i :: 0 <= i < |events| && events[i].Ask? && events[i].key == key ==> events[i].now < entry.expiresAt
    ensures Behind(Forward(c, events), key, entry, front', back')
    decreases |events|
  {
    front', back' := front, back;
    if events != [] {
      front', back' := StepKeepsEntry(c, key, entry, front, back, events[0]);
      StepIsBounded(c, events[0]);
      front', back' := EntrySurvives(Step(c, events[0]), key, entry, front', back', events[1..]);
    }
  }

  /** `Run`, first event first. */
  function Forward(c: Cache, events: seq<Event>): Cache
    decreases |events|
  {
    if events == [] then c else Forward(Step(c, events[0]), events[1..])
  }

  lemma {:induction false} ForwardIsRun(c: Cache, events: seq<Event>)
    ensures Forward(c, events) == Run(c, events)
    decreases |events|
  {
    if events != [] {
      ForwardIsRun(Step(c, events[0]), events[1..]);
      RunFront(c, events);
    }
  }

  lemma {:induction false} RunFront(c: Cache, events: seq<Event>)
    requires events != []
    ensures Run(c, events) == Run(Step(c, events[0]), events[1..])
    decreases |events|
  {
    var n := |events| - 1;
    if n == 0 {
      assert events[..0] == [] && events[1..] == [];
    } else {
      RunFront(c, events[..n]);
      assert events[..n][1..] == events[1..][..n - 1];
      assert events[1..][n - 1] == events[n];
    }
  }

  /** The cache does its job: an answer stored under a new key is found until it expires, as
      long as fewer than a thousand answers are stored meanwhile, none under this key. */
  lemma KeptIsFound(c: Cache, key: string, value: Answer, ttl: int, t: int, events: seq<Event>, now: int)
    requires Bounded(c) && key !in c.at && key != "" && NamedKeys(events)
    requires Keeps(events) < MAX_ENTRIES && now < t + ttl * 1000
    requires forall i :: 0 <= i < |events| ==> events[i].Keep? ==> events[i].key != key
    requires forall i :: 0 <= i < |events| ==> events[i].Ask? ==> events[i].now <= now
    ensures Find(Run(Store(c, key, value, ttl, t), events), key, now).1 == Some(value)
  {
    var entry := Kept(value, t + ttl * 1000);
    var stored := Store(c, key, value, ttl, t);
    StepIsBounded(c, Keep(key, value, ttl, t));
    var front := MakeRoom(c).order;
    assert front + [key] + [] == front + [key];
    var f, b := EntrySurvives(stored, key, entry, front, [], events);
    ForwardIsRun(stored, events);
  }
}
