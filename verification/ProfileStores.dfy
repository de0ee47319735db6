/** The object behind the answer cache, with bodies in buffers that are never shared with a
    caller. */
module ProfileStores {
  import opened Wrappers
  import opened Bytes
  import opened JsMaps
  import Dedupe
  import opened ProfileCache

  /** An answer whose body is a buffer. */
  datatype Held = Held(
    status: int,
    statusText: string,
    headers: seq<Dedupe.Pair>,
    body: array<byte>,
    profileHash: Option<string>)

  function View(h: Held): Answer
    reads h.body
  {
    Answer(h.status, h.statusText, h.headers, h.body[..], h.profileHash)
  }

  datatype Slot = Slot(held: Held, expiresAt: int)

  /** A slot and the entry it stands for. */
  predicate Shows(slot: Slot, entry: Kept)
    reads slot.held.body
  {
    entry == Kept(View(slot.held), slot.expiresAt)
  }

  predicate Mirrors(entries: JsMap<string, Slot>, contents: Cache) {
    entries.order == contents.order && entries.at.Keys == contents.at.Keys
  }

  lemma SetMirrors(entries: JsMap<string, Slot>, contents: Cache, key: string, slot: Slot, entry: Kept)
    requires contents.Valid() && Mirrors(entries, contents)
    ensures contents.Set(key, entry).Valid() && Mirrors(entries.Set(key, slot), contents.Set(key, entry))
  {
  }

  class ProfileStore {
    var entries: JsMap<string, Slot>
    ghost var contents: Cache
    ghost var bodies: set<array<byte>>

    /** `contents` is what the buffers in `bodies` hold. */
    ghost predicate Valid()
      reads this, bodies
    {
      && contents.Valid() && Mirrors(entries, contents)
      && forall k :: k in entries.at ==> entries.at[k].held.body in bodies && Shows(entries.at[k], contents.at[k])
    }

    constructor ()
      ensures Valid() && contents == Empty() && bodies == {}
    {
      entries, contents, bodies := Empty(), Empty(), {};
    }

    /** A hit is a new copy of the body. */
    method CachedProfileResult(key: string, now: int) returns (r: Option<Held>)
      requires Valid()
      modifies this
      ensures Valid() && bodies == old(bodies)
      ensures contents == Find(old(contents), key, now).0
      ensures r.Some? == Find(old(contents), key, now).1.Some?
      ensures r.Some? ==> fresh(r.value.body) && Some(View(r.value)) == Find(old(contents), key, now).1
    {
      if key !in entries.at { return None; }
      var slot := entries.at[key];
      if slot.expiresAt <= now {
        entries, contents := entries.Delete(key), contents.Delete(key);
        return None;
      }
      var h := slot.held;
      var copy := CopyOf(h.body);
      r := Some(Held(h.status, h.statusText, h.headers, copy, h.profileHash));
    }

    /** What is kept is a new copy of the body. */
    method StoreProfileResult(key: string, value: Held, ttl: int, now: int)
      requires Valid()
      modifies this
      ensures Valid() && fresh(bodies - old(bodies))
      ensures contents == Store(old(contents), key, old(View(value)), ttl, now)
    {
      DropOldest();
      var copy := CopyOf(value.body);
      var kept := Held(value.status, value.statusText, value.headers, copy, value.profileHash);
      Put(key, kept, now + ttl * 1000);
    }

    method Put(key: string, kept: Held, expiresAt: int)
      requires Valid()
      modifies this
      ensures Valid() && bodies == old(bodies) + {kept.body}
      ensures contents == old(contents).Set(key, Kept(View(kept), expiresAt))
    {
      ghost var before, shown := entries, contents;
      bodies := bodies + {kept.body};
      entries := entries.Set(key, Slot(kept, expiresAt));
      contents := contents.Set(key, Kept(View(kept), expiresAt));
      SetMirrors(before, shown, key, entries.at[key], contents.at[key]);
      forall k | k in entries.at ensures entries.at[k].held.body in bodies && Shows(entries.at[k], contents.at[k]) {
        if k != key { assert k in before.at && entries.at[k] == before.at[k] && contents.at[k] == shown.at[k]; }
      }
    }

    method DropOldest()
      requires Valid()
      modifies this
      ensures Valid() && bodies == old(bodies) && contents == MakeRoom(old(contents))
    {
      if entries.Size() >= MAX_ENTRIES {
        var oldest := entries.order[0];
        if oldest != "" { entries, contents := entries.Delete(oldest), contents.Delete(oldest); }
      }
    }
  }

  method CopyOf(a: array<byte>) returns (b: array<byte>)
    ensures fresh(b) && b[..] == a[..]
  {
    b := new byte[a.Length](i requires 0 <= i < a.Length reads a => a[i]);
  }

  /** Writing into the body of a hit changes nothing for the next one. */
  method HitsAreIsolated(store: ProfileStore, key: string, now: int, later: int, at: nat, x: byte)
    returns (first: Option<Held>, second: Option<Held>)
    requires store.Valid() && now <= later
    requires Find(store.contents, key, later).1.Some?
    requires at < |Find(store.contents, key, later).1.value.body|
    modifies store
    ensures first.Some? && second.Some? && first.value.body != second.value.body
    ensures Some(View(second.value)) == Find(old(store.contents), key, later).1
    ensures View(first.value).body == View(second.value).body[at := x]
    ensures store.Valid() && store.contents == old(store.contents)
  {
    first := store.CachedProfileResult(key, now);
    first.value.body[at] := x;
    second := store.CachedProfileResult(key, later);
  }

  /** Writing into a buffer after handing it in does not change what was kept. */
  method KeptIsIsolated(store: ProfileStore, key: string, value: Held, ttl: int, now: int, at: nat, x: byte)
    requires store.Valid() && at < value.body.Length && value.body !in store.bodies
    modifies store, value.body
    ensures store.Valid() && store.contents == Store(old(store.contents), key, old(View(value)), ttl, now)
  {
    store.StoreProfileResult(key, value, ttl, now);
    value.body[at] := x;
  }
}
