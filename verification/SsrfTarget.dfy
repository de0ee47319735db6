/** Resolving a target: literals by their own verdict, names by all their records, with a
    short-lived cache of both outcomes. */
module SsrfTarget {
  import opened Wrappers
  import opened Strings
  import opened Numerals
  import opened Ssrf
  import opened SsrfVerdict

  const DNS_TTL := 30_000
  const DNS_NEG_TTL := 5_000

  /** A parsed URL, as far as it matters here; `decoded` is its host name percent-decoded. */
  datatype Target = Target(protocol: string, hostname: string, decoded: string)

  datatype Record = Record(address: string, family: nat)

  datatype Resolution = Resolution(ip: string, family: nat, hostname: string, isLiteral: bool)

  datatype Entry = Private(expiresAt: int) | Safe(record: Record, expiresAt: int)

  type Cache = map<string, Entry>

  /** The source throws the same error for every refusal. */
  datatype Outcome = Forbidden | Allowed(r: Resolution)

  predicate HexAt(s: string, i: nat) { i < |s| && Hex(s[i]) }

  /** Loopback, link-local, unique local, or a private IPv4 address in any spelling. */
  predicate IsPrivateIPv6(bare: string) {
    || bare == "::1"
    || StartsWith(bare, "fe80:")
    || ((StartsWith(bare, "fc") || StartsWith(bare, "fd"))
        && HexAt(bare, 2) && HexAt(bare, 3) && |bare| > 4 && bare[4] == ':')
    || (NormalizeToIPv4(bare).Some? && IsPrivateIPv4(NormalizeToIPv4(bare).value))
  }

  predicate PrivateRecord(r: Record) {
    (r.family == 4 && IsPrivateIPv4(r.address)) || (r.family == 6 && IsPrivateIPv6(ToLower(r.address)))
  }

  predicate SafeRecord(r: Record) { (r.family == 4 || r.family == 6) && !PrivateRecord(r) && r.address != "" }

  /** `r` is the first record that may be connected to. */
  predicate FirstSafe(records: seq<Record>, r: Option<Record>) {
    match r
    case None => forall i :: 0 <= i < |records| ==> !SafeRecord(records[i])
    case Some(x) =>
      exists i :: 0 <= i < |records| && records[i] == x && SafeRecord(x)
                  && forall j :: 0 <= j < i ==> !SafeRecord(records[j])
  }

  predicate AnyPrivate(records: seq<Record>) { exists i :: 0 <= i < |records| && PrivateRecord(records[i]) }

  function FirstSafeOf(records: seq<Record>): Option<Record> {
    if records == [] then None
    else
      var last := |records| - 1;
      var safe := FirstSafeOf(records[..last]);
      if safe.None? && SafeRecord(records[last]) then Some(records[last]) else safe
  }

  lemma {:induction false} FirstSafeMeans(records: seq<Record>)
    ensures FirstSafe(records, FirstSafeOf(records))
  {
    if records != [] {
      var last := |records| - 1;
      FirstSafeMeans(records[..last]);
      ScanStep(records[..last], records[last], FirstSafeOf(records[..last]));
      assert records == records[..last] + [records[last]];
    }
  }

  lemma ScanStep(records: seq<Record>, r: Record, safe: Option<Record>)
    requires FirstSafe(records, safe)
    ensures AnyPrivate(records + [r]) <==> AnyPrivate(records) || PrivateRecord(r)
    ensures FirstSafe(records + [r], if safe.None? && SafeRecord(r) then Some(r) else safe)
  {
    var all := records + [r];
    assert forall i :: 0 <= i < |records| ==> all[i] == records[i];
    assert all[|records|] == r;
  }

  /** By family; a record of another family is neither. */
  method ClassifyRecord(r: Record) returns (isPrivate: bool, isSafe: bool)
    ensures isPrivate == PrivateRecord(r) && isSafe == SafeRecord(r)
  {
    isPrivate, isSafe := false, false;
    if r.family == 4 {
      isPrivate := IsPrivateIPv4(r.address);
      isSafe := !isPrivate && r.address != "";
    } else if r.family == 6 {
      isPrivate := IsPrivateIPv6(ToLower(r.address));
      isSafe := !isPrivate && r.address != "";
    }
  }

  method ScanRecords(records: seq<Record>) returns (anyPrivate: bool, safe: Option<Record>)
    ensures anyPrivate <==> AnyPrivate(records)
    ensures FirstSafe(records, safe) && safe == FirstSafeOf(records)
  {
    anyPrivate, safe := false, None;
    var i := 0;
    while i < |records|
      invariant 0 <= i <= |records|
      invariant anyPrivate <==> AnyPrivate(records[..i])
      invariant FirstSafe(records[..i], safe)
    {
      var r := records[i];
      ScanStep(records[..i], r, safe);
      assert records[..i + 1] == records[..i] + [r];
      var isPrivate, isSafe := ClassifyRecord(r);
      if isPrivate {
        anyPrivate := true;
      } else if isSafe && safe.None? {
        safe := Some(r);
      }
      i := i + 1;
    }
    assert records[..i] == records;
    FirstSafeMeans(records);
    FirstSafeIsOne(records, safe, FirstSafeOf(records));
  }

  lemma FirstSafeIsOne(records: seq<Record>, r: Option<Record>, s: Option<Record>)
    requires FirstSafe(records, r) && FirstSafe(records, s)
    ensures r == s
  {
    if r.Some? && s.Some? {
      var i :| 0 <= i < |records| && records[i] == r.value && forall j :: 0 <= j < i ==> !SafeRecord(records[j]);
      var k :| 0 <= k < |records| && records[k] == s.value && forall j :: 0 <= j < k ==> !SafeRecord(records[j]);
      assert !(i < k) && !(k < i);
    }
  }

  /** What a cache entry says of a name, also just after the lookup that made it. */
  function Verdict(hostname: string, e: Entry): Outcome {
    match e
    case Private(_) => Forbidden
    case Safe(r, _) => if r.address == "" then Forbidden else Allowed(Resolution(r.address, r.family, hostname, false))
  }

  /** What is cached of a lookup, `None` if it failed: one private record refuses all. */
  function EntryOf(records: Option<seq<Record>>, later: int): Entry {
    match records
    case None => Private(later + DNS_NEG_TTL)
    case Some(rs) =>
      if AnyPrivate(rs) || FirstSafeOf(rs).None? then Private(later + DNS_TTL)
      else Safe(FirstSafeOf(rs).value, later + DNS_TTL)
  }

  /** The verdict that needs no lookup; `None` when a lookup is needed. */
  function WithoutLookup(cache: Cache, target: Option<Target>, now: int): (o: Option<Outcome>)
    ensures o.None? ==> target.Some?
  {
    match target
    case None => Some(Forbidden)
    case Some(t) =>
      if t.protocol != "http:" && t.protocol != "https:" then Some(Forbidden)
      else if t.hostname != t.decoded then Some(Forbidden)
      else
        var hostname := ToLower(t.hostname);
        var bare := StripBrackets(hostname);
        if IsPrivateIPv6(bare) then Some(Forbidden)
        else
          match NormalizeToIPv4(bare)
          case Some(ip) => Some(if IsPrivateIPv4(ip) then Forbidden else Allowed(Resolution(ip, 4, ip, true)))
          case None =>
            if hostname in cache && now < cache[hostname].expiresAt then Some(Verdict(hostname, cache[hostname]))
            else None
  }

  /** The object; a call awaits its lookup between `BeginResolve` and `FinishLookup`. */
  class Resolver {
    var cache: Cache

    constructor ()
      ensures cache == map[]
    {
      cache := map[];
    }

    method BeginResolve(target: Option<Target>, now: int) returns (known: Option<Outcome>, hostname: string)
      ensures known == WithoutLookup(cache, target, now)
      ensures known.None? ==> target.Some? && hostname == ToLower(target.value.hostname)
    {
      hostname := "";
      if target.None? { return Some(Forbidden), hostname; }
      var t := target.value;
      if t.protocol != "http:" && t.protocol != "https:" { return Some(Forbidden), hostname; }
      if t.hostname != t.decoded { return Some(Forbidden), hostname; }
      hostname := ToLower(t.hostname);
      var bare := StripBrackets(hostname);
      if IsPrivateIPv6(bare) { return Some(Forbidden), hostname; }
      var normalized := NormalizeToIPv4(bare);
      if normalized.Some? {
        if IsPrivateIPv4(normalized.value) { return Some(Forbidden), hostname; }
        return Some(Allowed(Resolution(normalized.value, 4, normalized.value, true))), hostname;
      }
      if hostname in cache && now < cache[hostname].expiresAt {
        return Some(Verdict(hostname, cache[hostname])), hostname;
      }
      known := None;
    }

    /** `records` is what the lookup answered, `None` if it failed; `later` is the time after it. */
    method FinishLookup(hostname: string, records: Option<seq<Record>>, later: int) returns (o: Outcome)
      modifies this
      ensures cache == old(cache)[hostname := EntryOf(records, later)]
      ensures o == Verdict(hostname, EntryOf(records, later))
    {
      if records.None? {
        cache := cache[hostname := Private(later + DNS_NEG_TTL)];
        return Forbidden;
      }
      var anyPrivate, safe := ScanRecords(records.value);
      if anyPrivate || safe.None? {
        cache := cache[hostname := Private(later + DNS_TTL)];
        return Forbidden;
      }
      cache := cache[hostname := Safe(safe.value, later + DNS_TTL)];
      o := Allowed(Resolution(safe.value.address, safe.value.family, hostname, false));
    }
  }

  /** A lookup allows a name exactly when none of its addresses is private and some address
      can be connected to. */
  lemma LookupAllowsIff(hostname: string, rs: seq<Record>, later: int)
    ensures Verdict(hostname, EntryOf(Some(rs), later)).Allowed? <==>
            !AnyPrivate(rs) && (exists i :: 0 <= i < |rs| && SafeRecord(rs[i]))
  {
    FirstSafeMeans(rs);
  }

  // ---------- Calls that overlap ----------

  /** A call starts; the lookup of a call that waits for one is answered. */
  datatype Event =
    | Started(call: nat, target: Option<Target>, now: int)
    | Answered(call: nat, records: Option<seq<Record>>, later: int)

  /** The names looked up, by call, and how the others ended. */
  datatype World = World(cache: Cache, waiting: map<nat, string>, outcomes: map<nat, Outcome>)

  predicate Enabled(w: World, ev: Event) {
    match ev
    case Started(call, _, _) => call !in w.waiting && call !in w.outcomes
    case Answered(call, _, _) => call in w.waiting
  }

  function Next(w: World, ev: Event): World
    requires Enabled(w, ev)
  {
    match ev
    case Started(call, target, now) =>
      (match WithoutLookup(w.cache, target, now)
       case Some(o) => w.(outcomes := w.outcomes[call := o])
       case None => w.(waiting := w.waiting[call := ToLower(target.value.hostname)]))
    case Answered(call, records, later) =>
      var hostname, e := w.waiting[call], EntryOf(records, later);
      World(w.cache[hostname := e], w.waiting - {call}, w.outcomes[call := Verdict(hostname, e)])
  }

  const START := World(map[], map[], map[])

  predicate Legal(events: seq<Event>)
    decreases |events|, 0
  {
    events == [] ||
    (Legal(events[..|events| - 1]) && Enabled(After(events[..|events| - 1]), events[|events| - 1]))
  }

  function After(events: seq<Event>): World
    requires Legal(events)
    decreases |events|, 1
  {
    if events == [] then START else Next(After(events[..|events| - 1]), events[|events| - 1])
  }

  lemma {:induction false} PrefixIsLegal(events: seq<Event>, n: nat)
    requires Legal(events) && n <= |events|
    ensures Legal(events[..n])
  {
    if n < |events| {
      PrefixIsLegal(events[..|events| - 1], n);
      assert events[..|events| - 1][..n] == events[..n];
    } else {
      assert events[..n] == events;
    }
  }

  /** Event `i` starts the call, for this name. */
  predicate Starts(events: seq<Event>, i: nat, call: nat, hostname: string) {
    && i < |events| && events[i].Started? && events[i].call == call
    && events[i].target.Some? && ToLower(events[i].target.value.hostname) == hostname
  }

  /** Event `j` answers a lookup of this name. */
  predicate AnswersFor(events: seq<Event>, j: nat, hostname: string)
    requires Legal(events)
  {
    && j < |events| && events[j].Answered?
    && (PrefixIsLegal(events, j);
        events[j].call in After(events[..j]).waiting && After(events[..j]).waiting[events[j].call] == hostname)
  }

  /** It is the last such event. */
  ghost predicate Latest(events: seq<Event>, j: nat, hostname: string)
    requires Legal(events)
  {
    AnswersFor(events, j, hostname) && forall k :: j < k < |events| ==> !AnswersFor(events, k, hostname)
  }

  lemma AnswersInPrefix(events: seq<Event>, n: nat, j: nat, hostname: string)
    requires Legal(events) && j < n <= |events| && Legal(events[..n])
    ensures AnswersFor(events[..n], j, hostname) <==> AnswersFor(events, j, hostname)
  {
    assert events[..n][..j] == events[..j];
    PrefixIsLegal(events, j);
  }

  lemma StillNone(events: seq<Event>, n: nat, j: nat, k: nat, hostname: string)
    requires Legal(events) && n <= |events| && Legal(events[..n]) && Latest(events[..n], j, hostname) && j < k < n
    ensures !AnswersFor(events, k, hostname)
  {
    AnswersInPrefix(events, n, k, hostname);
  }

  lemma LatestStays(events: seq<Event>, j: nat, hostname: string)
    requires Legal(events) && events != [] && Latest(events[..|events| - 1], j, hostname)
    requires !AnswersFor(events, |events| - 1, hostname)
    ensures Latest(events, j, hostname)
  {
    var n := |events| - 1;
    AnswersInPrefix(events, n, j, hostname);
    forall k | j < k < |events| ensures !AnswersFor(events, k, hostname) {
      if k < n { StillNone(events, n, j, k, hostname); }
    }
  }

  /** The cache holds, of every name, the latest answer. */
  lemma {:induction false} CacheIsLatestAnswer(events: seq<Event>, hostname: string) returns (j: nat)
    requires Legal(events) && hostname in After(events).cache
    ensures Latest(events, j, hostname)
    ensures After(events).cache[hostname] == EntryOf(events[j].records, events[j].later)
  {
    var n := |events| - 1;
    assert events[..n] == events[..|events| - 1];
    if AnswersFor(events, n, hostname) {
      j := n;
    } else {
      j := CacheIsLatestAnswer(events[..n], hostname);
      LatestStays(events, j, hostname);
    }
  }

  lemma {:induction false} WaitingWasStarted(events: seq<Event>, call: nat) returns (i: nat)
    requires Legal(events) && call in After(events).waiting
    ensures Starts(events, i, call, After(events).waiting[call])
  {
    var n := |events| - 1;
    if events[n].Started? && events[n].call == call {
      i := n;
    } else {
      i := WaitingWasStarted(events[..n], call);
    }
  }

  /** The lookup at event `j` found nothing private, and this address first of those that can
      be connected to. */
  ghost predicate FoundSafe(ev: Event, r: Resolution) {
    && ev.Answered? && ev.records.Some? && !AnyPrivate(ev.records.value)
    && FirstSafe(ev.records.value, Some(Record(r.ip, r.family)))
  }

  /** Call started at `i` was answered at `j`: by its own lookup, or by the latest one of this
      name while its entry was fresh. */
  ghost predicate Justified(events: seq<Event>, i: nat, j: nat, call: nat, r: Resolution)
    requires Legal(events)
  {
    && Starts(events, i, call, r.hostname) && AnswersFor(events, j, r.hostname) && FoundSafe(events[j], r)
    && if i < j then events[j].call == call
       else
         && events[i].now < events[j].later + DNS_TTL
         && forall k :: j < k < i ==> !AnswersFor(events, k, r.hostname)
  }

  lemma JustifiedStays(events: seq<Event>, n: nat, i: nat, j: nat, call: nat, r: Resolution)
    requires Legal(events) && n <= |events| && Legal(events[..n]) && Justified(events[..n], i, j, call, r)
    ensures Justified(events, i, j, call, r)
  {
    AnswersInPrefix(events, n, j, r.hostname);
    forall k | j < k < i ensures !AnswersFor(events, k, r.hostname) {
      AnswersInPrefix(events, n, k, r.hostname);
    }
  }

  lemma EntryAllows(hostname: string, records: Option<seq<Record>>, later: int)
    requires Verdict(hostname, EntryOf(records, later)).Allowed?
    ensures var r := Verdict(hostname, EntryOf(records, later)).r;
            && r.hostname == hostname && !r.isLiteral && records.Some? && !AnyPrivate(records.value)
            && FirstSafe(records.value, Some(Record(r.ip, r.family)))
            && EntryOf(records, later).expiresAt == later + DNS_TTL
  {
    FirstSafeMeans(records.value);
  }

  lemma JustOutcome(events: seq<Event>, call: nat) returns (i: nat, j: nat)
    requires Legal(events) && events != [] && events[|events| - 1].call == call && call in After(events).outcomes
    requires After(events).outcomes[call].Allowed? && !After(events).outcomes[call].r.isLiteral
    ensures Justified(events, i, j, call, After(events).outcomes[call].r)
  {
    var n := |events| - 1;
    var ev := events[n];
    if ev.Started? {
      i := n;
      var hostname := ToLower(ev.target.value.hostname);
      j := CacheIsLatestAnswer(events[..n], hostname);
      EntryAllows(hostname, events[j].records, events[j].later);
      AnswersInPrefix(events, n, j, hostname);
      forall k | j < k < i ensures !AnswersFor(events, k, hostname) {
        AnswersInPrefix(events, n, k, hostname);
      }
    } else {
      j := n;
      i := WaitingWasStarted(events[..n], call);
      EntryAllows(After(events[..n]).waiting[call], ev.records, ev.later);
    }
  }

  /** Main result, however calls overlap: an allowed name was allowed by a lookup of that name
      with no private record in its answer, its own or the latest one, no older than the time to
      live; and the address is the first of that answer that can be connected to. */
  lemma {:induction false} AllowedWasLookedUp(events: seq<Event>, call: nat) returns (i: nat, j: nat)
    requires Legal(events) && call in After(events).outcomes
    requires After(events).outcomes[call].Allowed? && !After(events).outcomes[call].r.isLiteral
    ensures Justified(events, i, j, call, After(events).outcomes[call].r)
  {
    var n := |events| - 1;
    if events[n].call == call {
      i, j := JustOutcome(events, call);
    } else {
      i, j := AllowedWasLookedUp(events[..n], call);
      JustifiedStays(events, n, i, j, call, After(events).outcomes[call].r);
    }
  }

  /** The address the caller will connect to is not private. */
  predicate SafeOutcome(o: Outcome) {
    o.Allowed? ==> if o.r.isLiteral then !IsPrivateIPv4(o.r.ip) else SafeRecord(Record(o.r.ip, o.r.family))
  }

  lemma {:induction false} LiteralIsSafe(events: seq<Event>, call: nat)
    requires Legal(events) && call in After(events).outcomes
    requires After(events).outcomes[call].Allowed? && After(events).outcomes[call].r.isLiteral
    ensures !IsPrivateIPv4(After(events).outcomes[call].r.ip)
  {
    var n := |events| - 1;
    if events[n].call != call { LiteralIsSafe(events[..n], call); }
  }

  /** Main result: whatever the lookups answer and however calls overlap, an allowed address is
      never private. */
  lemma RunIsSafe(events: seq<Event>, call: nat)
    requires Legal(events) && call in After(events).outcomes
    ensures SafeOutcome(After(events).outcomes[call])
  {
    var o := After(events).outcomes[call];
    if o.Allowed? {
      if o.r.isLiteral { LiteralIsSafe(events, call); } else { var i, j := AllowedWasLookedUp(events, call); }
    }
  }

  // ---------- How every call is decided ----------

  lemma {:induction false} AnsweredIsCached(events: seq<Event>, j: nat, hostname: string)
    requires Legal(events) && AnswersFor(events, j, hostname)
    ensures hostname in After(events).cache
  {
    var n := |events| - 1;
    assert events[..n] == events[..|events| - 1];
    if j < n {
      AnswersInPrefix(events, n, j, hostname);
      AnsweredIsCached(events[..n], j, hostname);
    }
  }

  lemma LatestIsOne(events: seq<Event>, i: nat, j: nat, hostname: string)
    requires Legal(events) && Latest(events, i, hostname) && Latest(events, j, hostname)
    ensures i == j
  {
  }

  /** The latest answered lookup of the name, while what was cached of it is fresh. */
  ghost predicate FreshAnswer(events: seq<Event>, j: nat, hostname: string, now: int)
    requires Legal(events)
  {
    Latest(events, j, hostname) && now < EntryOf(events[j].records, events[j].later).expiresAt
  }

  /** The host may be looked at: a web target, not percent-encoded, and no private IPv6 literal. */
  predicate Admitted(t: Target) {
    && (t.protocol == "http:" || t.protocol == "https:")
    && t.hostname == t.decoded && !IsPrivateIPv6(StripBrackets(ToLower(t.hostname)))
  }

  lemma OneMoreEvent(events: seq<Event>, ev: Event)
    requires Legal(events) && Enabled(After(events), ev)
    ensures Legal(events + [ev]) && After(events + [ev]) == Next(After(events), ev)
  {
    assert (events + [ev])[..|events + [ev]| - 1] == events;
  }

  lemma LiteralIsDecided(cache: Cache, t: Target, now: int)
    requires Admitted(t) && !DottedMapped(Split(Bare(StripBrackets(ToLower(t.hostname))), ':'))
    requires Spelled(StripBrackets(ToLower(t.hostname))).Some?
    ensures var v := Spelled(StripBrackets(ToLower(t.hostname))).value;
            WithoutLookup(cache, Some(t), now) ==
            Some(if InSomeBlock(v) then Forbidden else Allowed(Resolution(Quad(v), 4, Quad(v), true)))
  {
    RawIsQuad(StripBrackets(ToLower(t.hostname)));
    QuadVerdict(Spelled(StripBrackets(ToLower(t.hostname))).value);
  }

  /** Main result, however calls overlap: a target that is no web target, is percent-encoded or is a
      private IPv6 literal is refused; an IPv4 literal in any spelling is allowed, as its address,
      exactly if that is in no listed block. */
  lemma TargetIsDecided(events: seq<Event>, call: nat, t: Target, now: int)
    requires Legal(events) && Enabled(After(events), Started(call, Some(t), now))
    ensures Legal(events + [Started(call, Some(t), now)])
    ensures var w := After(events + [Started(call, Some(t), now)]);
            var bare := StripBrackets(ToLower(t.hostname));
            && (!Admitted(t) ==> call in w.outcomes && w.outcomes[call] == Forbidden)
            && (Admitted(t) && !DottedMapped(Split(Bare(bare), ':')) && Spelled(bare).Some? ==>
                  && call in w.outcomes
                  && w.outcomes[call] ==
                     if InSomeBlock(Spelled(bare).value) then Forbidden
                     else Allowed(Resolution(Quad(Spelled(bare).value), 4, Quad(Spelled(bare).value), true)))
  {
    OneMoreEvent(events, Started(call, Some(t), now));
    var bare := StripBrackets(ToLower(t.hostname));
    if Admitted(t) && !DottedMapped(Split(Bare(bare), ':')) && Spelled(bare).Some? {
      LiteralIsDecided(After(events).cache, t, now);
    }
  }

  /** Main result, however calls overlap: a name with a fresh answer gets the verdict of that answer
      at once; any other waits for a lookup of its own. */
  lemma NameIsDecided(events: seq<Event>, call: nat, t: Target, now: int)
    requires Legal(events) && Enabled(After(events), Started(call, Some(t), now))
    requires Admitted(t) && NormalizeToIPv4(StripBrackets(ToLower(t.hostname))).None?
    ensures Legal(events + [Started(call, Some(t), now)])
    ensures var w := After(events + [Started(call, Some(t), now)]);
            var name := ToLower(t.hostname);
            && (forall j: nat :: FreshAnswer(events, j, name, now) ==>
                  && call in w.outcomes
                  && w.outcomes[call] == Verdict(name, EntryOf(events[j].records, events[j].later)))
            && ((forall j: nat :: !FreshAnswer(events, j, name, now)) ==> call in w.waiting && w.waiting[call] == name)
  {
    OneMoreEvent(events, Started(call, Some(t), now));
    var name := ToLower(t.hostname);
    var cache := After(events).cache;
    if name in cache {
      var i := CacheIsLatestAnswer(events, name);
      forall j: nat | FreshAnswer(events, j, name, now) ensures j == i { LatestIsOne(events, i, j, name); }
      assert FreshAnswer(events, i, name, now) <==> now < cache[name].expiresAt;
    } else {
      forall j: nat ensures !FreshAnswer(events, j, name, now) {
        if FreshAnswer(events, j, name, now) { AnsweredIsCached(events, j, name); }
      }
    }
  }

  /** An answered lookup decides its call: what was waiting for it gets its verdict. */
  lemma AnswerDecides(events: seq<Event>, call: nat, records: Option<seq<Record>>, later: int)
    requires Legal(events) && Enabled(After(events), Answered(call, records, later))
    ensures Legal(events + [Answered(call, records, later)])
    ensures var w := After(events + [Answered(call, records, later)]);
            && call in w.outcomes && call !in w.waiting
            && (w.outcomes[call].Allowed? <==>
                  && records.Some? && !AnyPrivate(records.value)
                  && exists i :: 0 <= i < |records.value| && SafeRecord(records.value[i]))
  {
    OneMoreEvent(events, Answered(call, records, later));
    if records.Some? { LookupAllowsIff(After(events).waiting[call], records.value, later); }
  }

  // ---------- Private IPv6 literals ----------

  lemma FourDigits(s: string)
    requires |s| == 4
    ensures ReadNumber(s, 16) ==
            DigitValue(s[0]) * 0x1000 + DigitValue(s[1]) * 0x100 + DigitValue(s[2]) * 0x10 + DigitValue(s[3])
  {
    assert s[..3][..2] == s[..2] && s[..2][..1] == s[..1] && s[..1][..0] == "";
    assert ReadNumber(s[..1], 16) == DigitValue(s[0]);
    assert ReadNumber(s[..2], 16) == DigitValue(s[0]) * 16 + DigitValue(s[1]);
    assert ReadNumber(s[..3], 16) == (DigitValue(s[0]) * 16 + DigitValue(s[1])) * 16 + DigitValue(s[2]);
  }

  lemma DigitIs(c: char, d: char)
    requires Hex(c) && Hex(d)
    ensures (DigitValue(c) == DigitValue(d) <==> c == d) && DigitValue(c) < 16
  {
  }

  lemma GroupRange(a: nat, b: nat, c: nat, d: nat)
    requires a < 16 && b < 16 && c < 16 && d < 16
    ensures var v := a * 0x1000 + b * 0x100 + c * 0x10 + d;
            && (v == 0xfe80 <==> a == 15 && b == 14 && c == 8 && d == 0)
            && (0xfc00 <= v <= 0xfdff <==> a == 15 && (b == 12 || b == 13))
  {
  }

  lemma FirstGroupText(s: string)
    requires |s| > 4 && s[4] == ':' && Hex(s[0]) && Hex(s[1]) && Hex(s[2]) && Hex(s[3]) && NormalizeToIPv4(s).None?
    ensures IsPrivateIPv6(s) <==>
            s[0] == 'f' && ((s[1] == 'e' && s[2] == '8' && s[3] == '0') || s[1] == 'c' || s[1] == 'd')
  {
    assert StartsWith(s, "fe80:") <==> s[..5] == "fe80:";
    assert StartsWith(s, "fc") <==> s[..2] == "fc";
    assert StartsWith(s, "fd") <==> s[..2] == "fd";
    assert s[..5] == [s[0], s[1], s[2], s[3], s[4]] && s[..2] == [s[0], s[1]];
  }

  /** An IPv6 literal with a first group of four digits is private exactly when that group is fe80,
      or from fc00 to fdff. */
  lemma FirstGroupDecides(s: string)
    requires |s| > 4 && s[4] == ':' && All(s[..4], Hex) && NormalizeToIPv4(s).None?
    ensures IsPrivateIPv6(s) <==> ReadNumber(s[..4], 16) == 0xfe80 || 0xfc00 <= ReadNumber(s[..4], 16) <= 0xfdff
  {
    assert forall i :: 0 <= i < 4 ==> s[..4][i] == s[i] && Hex(s[i]);
    FourDigits(s[..4]);
    FirstGroupText(s);
    DigitIs(s[0], 'f');
    DigitIs(s[1], 'e');
    DigitIs(s[1], 'c');
    DigitIs(s[1], 'd');
    DigitIs(s[2], '8');
    DigitIs(s[3], '0');
    GroupRange(DigitValue(s[0]), DigitValue(s[1]), DigitValue(s[2]), DigitValue(s[3]));
  }
}
