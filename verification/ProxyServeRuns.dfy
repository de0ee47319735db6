/** Serving over time: when the cache answers, and what it answers with. */
module ProxyServeRuns {
  import opened Wrappers
  import opened Bytes
  import opened JsMaps
  import opened Strings
  import opened Dedupe
  import opened Profile
  import opened ProfileNormal
  import opened ProfileRequests
  import opened ProfileCache
  import opened ProxyServe

  /** A request comes in, or the upstream has answered one; any interleaving. `plan` is what
      the request's headers, profile and target come to. */
  datatype Moment =
    | Start(request: ServeRequest, plan: Result<Plan, Error>, now: int)
    | Finish(request: ServeRequest, plan: Result<Plan, Error>, answer: Answer, now: int)

  ghost predicate Honest(e: Engine, trace: seq<Moment>) {
    forall i :: 0 <= i < |trace| ==> trace[i].plan == PlanFor(e, trace[i].request)
  }

  datatype Outcome = Refused(error: Error) | Hit(answer: Answer) | Fetch(plan: Plan)

  function Begin(c: Cache, planned: Result<Plan, Error>, now: int): (Cache, Outcome) {
    match planned
    case Err(x) => (c, Refused(x))
    case Ok(plan) =>
      match plan.key
      case None => (c, Fetch(plan))
      case Some(key) =>
        match Find(c, key, now)
        case (c', None) => (c', Fetch(plan))
        case (c', Some(answer)) => (c', Hit(answer))
  }

  predicate Success(a: Answer) { 200 <= a.status < 300 }

  function End(c: Cache, planned: Result<Plan, Error>, answer: Answer, now: int): Cache {
    match planned
    case Err(_) => c
    case Ok(plan) =>
      if plan.key.Some? && Success(answer) then Store(c, plan.key.value, answer, plan.ttl, now) else c
  }

  function Advance(c: Cache, m: Moment): Cache {
    match m
    case Start(_, planned, now) => Begin(c, planned, now).0
    case Finish(_, planned, answer, now) => End(c, planned, answer, now)
  }

  function After(trace: seq<Moment>): Cache {
    if trace == [] then Empty() else Advance(After(trace[..|trace| - 1]), trace[|trace| - 1])
  }

  /** Keys are digests, which are never empty. */
  predicate NamedKey(planned: Result<Plan, Error>) { planned.Ok? ==> planned.value.key != Some("") }

  lemma AdvanceIsBounded(c: Cache, m: Moment)
    requires Bounded(c) && NamedKey(m.plan)
    ensures Bounded(Advance(c, m))
  {
    if m.plan.Ok? && m.plan.value.key.Some? {
      var key := m.plan.value.key.value;
      match m
      case Start(_, _, now) => StepIsBounded(c, Ask(key, now));
      case Finish(_, planned, answer, now) =>
        if Success(answer) { StepIsBounded(c, Keep(key, answer, planned.value.ttl, now)); }
    }
  }

  /** At every moment the cache holds at most a thousand answers. */
  lemma {:induction false} CacheIsBounded(trace: seq<Moment>)
    requires forall i :: 0 <= i < |trace| ==> NamedKey(trace[i].plan)
    ensures Bounded(After(trace))
  {
    if trace != [] {
      CacheIsBounded(trace[..|trace| - 1]);
      AdvanceIsBounded(After(trace[..|trace| - 1]), trace[|trace| - 1]);
    }
  }

  /** `m` is the upstream's answer that is held as `entry` under `key`. */
  predicate Source(m: Moment, key: string, entry: ProfileCache.Kept) {
    && m.Finish? && m.plan.Ok? && m.plan.value.key == Some(key) && Success(m.answer)
    && entry == ProfileCache.Kept(m.answer, m.now + m.plan.value.ttl * 1000)
  }

  lemma {:induction false} HeldWasAnswered(trace: seq<Moment>, key: string) returns (i: nat)
    requires key in After(trace).at
    ensures i < |trace| && Source(trace[i], key, After(trace).at[key])
    decreases |trace|
  {
    var n := |trace| - 1;
    if Source(trace[n], key, After(trace).at[key]) {
      i := n;
    } else {
      i := HeldWasAnswered(trace[..n], key);
    }
  }

  /** The moments of cacheable requests: a GET or HEAD under a profile. */
  function Cacheable(trace: seq<Moment>): seq<Moment> {
    if trace == [] then []
    else
      var m := trace[|trace| - 1];
      Cacheable(trace[..|trace| - 1]) + if m.plan.Ok? && m.plan.value.key.Some? then [m] else []
  }

  /** All other requests leave the cache as if they had never been, over any interleaving. */
  lemma {:induction false} OthersLeaveNoTrace(trace: seq<Moment>)
    ensures After(trace) == After(Cacheable(trace))
  {
    if trace != [] {
      var before, m := trace[..|trace| - 1], trace[|trace| - 1];
      OthersLeaveNoTrace(before);
      if m.plan.Ok? && m.plan.value.key.Some? {
        assert (Cacheable(before) + [m])[..|Cacheable(before)|] == Cacheable(before);
      } else {
        assert Cacheable(before) + [] == Cacheable(before);
      }
    }
  }

  /** What a hit for `r` means: an earlier answer of the upstream to a caller that asked the same. */
  ghost predicate Faithful(e: Engine, m: Moment, r: ServeRequest, now: int, answer: Answer) {
    && m.Finish? && SameRequest(e, m.request, r)
    && (forall p :: GoesUp(m.request.headers, p) <==> GoesUp(r.headers, p))
    && VerbAsked(r) in CACHEABLE_METHODS
    && m.answer == answer && Success(answer)
    && now - m.now < Normalize(e, r.profile.value).value.cacheTtl * 1000
  }

  /** Main result: every cached answer is a successful answer of the upstream to a GET or HEAD of a
      caller that asked the same and sent the same headers upstream, given less than the profile's
      time to live ago. */
  lemma CachedAnswersAreTrue(e: Engine, trace: seq<Moment>, r: ServeRequest, now: int) returns (i: nat)
    requires Ideal(e.p) && Honest(e, trace)
    requires Begin(After(trace), PlanFor(e, r), now).1.Hit?
    ensures i < |trace|
    ensures Faithful(e, trace[i], r, now, Begin(After(trace), PlanFor(e, r), now).1.answer)
  {
    var plan := PlanFor(e, r);
    i := HeldWasAnswered(trace, plan.value.key.value);
    var theirs := trace[i].request;
    assert trace[i].plan == PlanFor(e, theirs);
    SameKeyIffSameRequest(e, theirs, r);
    PlanKey(e, r);
    PlanMeans(e, r);
    PlanMeans(e, theirs);
  }

  // ---------- Answers are found again ----------

  /** What a moment asks of the cache. */
  function CacheEvent(m: Moment): seq<ProfileCache.Event> {
    if m.plan.Err? || m.plan.value.key.None? then []
    else
      match m
      case Start(_, planned, now) => [Ask(planned.value.key.value, now)]
      case Finish(_, planned, answer, now) =>
        if Success(answer) then [Keep(planned.value.key.value, answer, planned.value.ttl, now)] else []
  }

  function CacheEvents(trace: seq<Moment>): seq<ProfileCache.Event> {
    if trace == [] then [] else CacheEvents(trace[..|trace| - 1]) + CacheEvent(trace[|trace| - 1])
  }

  function From(c: Cache, trace: seq<Moment>): Cache {
    if trace == [] then c else Advance(From(c, trace[..|trace| - 1]), trace[|trace| - 1])
  }

  lemma {:induction false} FromIsRun(c: Cache, trace: seq<Moment>)
    ensures From(c, trace) == Run(c, CacheEvents(trace))
  {
    if trace != [] {
      var before, m := trace[..|trace| - 1], trace[|trace| - 1];
      FromIsRun(c, before);
      var evs := CacheEvents(before);
      if CacheEvent(m) == [] {
        assert evs + [] == evs;
      } else {
        assert (evs + CacheEvent(m))[..|evs|] == evs;
      }
    }
  }

  lemma {:induction false} AfterConcat(a: seq<Moment>, b: seq<Moment>)
    ensures After(a + b) == From(After(a), b)
  {
    if b == [] {
      assert a + b == a;
    } else {
      assert (a + b)[..|a + b| - 1] == a + b[..|b| - 1];
      AfterConcat(a, b[..|b| - 1]);
    }
  }

  /** What may happen between an answer and the next request for it: fewer than a thousand other
      answers are kept, none under its key, and nobody looks later than that request. */
  ghost predicate Between(events: seq<ProfileCache.Event>, key: string, now: int) {
    && NamedKeys(events) && Keeps(events) < MAX_ENTRIES
    && (forall i :: 0 <= i < |events| ==> events[i].Keep? ==> events[i].key != key)
    && (forall i :: 0 <= i < |events| ==> events[i].Ask? ==> events[i].now <= now)
  }

  /** Main result: after a successful answer to a GET or HEAD under a profile, a caller that asks
      the same is given it from the cache, until the time to live is over or a thousand others
      were kept. */
  lemma AnswersAreFoundAgain(
      e: Engine, before: seq<Moment>, m: Moment, between: seq<Moment>, r: ServeRequest, now: int)
    requires Ideal(e.p) && Honest(e, before + [m] + between)
    requires forall i :: 0 <= i < |before| ==> NamedKey(before[i].plan)
    requires m.Finish? && m.plan == PlanFor(e, m.request) && m.plan.Ok? && Success(m.answer) && NamedKey(m.plan)
    requires SameRequest(e, m.request, r) && VerbAsked(r) in CACHEABLE_METHODS && PlanFor(e, r).Ok?
    requires m.plan.value.key.Some? && m.plan.value.key.value !in After(before).at
    requires Between(CacheEvents(between), m.plan.value.key.value, now)
    requires now < m.now + Normalize(e, r.profile.value).value.cacheTtl * 1000
    ensures Begin(After(before + [m] + between), PlanFor(e, r), now).1 == Hit(m.answer)
  {
    var key, ttl := m.plan.value.key.value, m.plan.value.ttl;
    PlanMeans(e, m.request);
    PlanMeans(e, r);
    PlanKey(e, r);
    SameKeyIffSameRequest(e, m.request, r);
    CacheIsBounded(before);
    assert (before + [m])[..|before|] == before;
    AfterConcat(before + [m], between);
    FromIsRun(After(before + [m]), between);
    KeptIsFound(After(before), key, m.answer, ttl, m.now, CacheEvents(between), now);
  }
}
