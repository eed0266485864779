/**
 _execute_module as a state machine.  A request's first stretch of code runs from the
 rate limiter's answer to the call into the hub; the second runs when that call, with
 the usage tracking after it, has succeeded or failed.  Any number of calls may be out.
 */
module GatewayModel {
  import opened Prelude
  import opened Breaker
  import opened CacheKeys
  import Cache = ResultCache

  type CallId = nat

  datatype ExecRequest = ExecRequest(
    tenant: TenantId, moduleId: Option<string>, action: string, payload: Payload, stream: bool)

  /** A response, tagged with the request id it was made for. */
  datatype Result = Result(id: CallId, body: string)

  /** The rate limiter's answer, or its own failure. */
  datatype Limit = Allowed | Exceeded | Broken

  datatype Reply = Refused | Cached(result: Result) | Forwarded

  datatype Completion = Answered(body: string) | CallFailed

  datatype Gateway = Gateway(
    breakers: map<string, Breaker>,
    cache: Cache.Cache<Result>,
    calls: map<CallId, ExecRequest>,      // calls now out at the hub
    requests: map<CallId, ExecRequest>,   // history: all calls ever made
    log: seq<Cache.Stored<Result>>)       // history: everything ever cached

  const START := Gateway(map[], Cache.Empty(), map[], map[], [])

  /** `module_id or action` */
  function Service(r: ExecRequest): string {
    if Truthy(r.moduleId) then r.moduleId.value else r.action
  }

  function KeyOf(r: ExecRequest): string {
    CacheKey(r.tenant, r.moduleId, r.action, r.payload)
  }

  function BreakerOf(g: Gateway, service: string): Breaker {
    if service in g.breakers then g.breakers[service] else FRESH
  }

  function RecordFailure(g: Gateway, service: string, now: Time): Gateway {
    g.(breakers := g.breakers[service := Fail(BreakerOf(g, service), now)])
  }

  function RecordSuccess(g: Gateway, service: string): Gateway {
    if service in g.breakers then g.(breakers := g.breakers[service := Succeed(g.breakers[service])]) else g
  }

  /** The breaker after the first stretch of a request; an exception on the way is recorded as a failure. */
  function BreakerAtBegin(b: Breaker, limit: Limit, now: Time): Breaker {
    if limit != Allowed then Fail(b, now)
    else if Refuses(b, now) then Fail(Check(b, now), now)
    else Check(b, now)
  }

  /** How the first stretch of a request ends: 429 or 503, a cached response, or a call to the hub. */
  function ReplyTo(g: Gateway, r: ExecRequest, limit: Limit, now: Time, ttl: Time): Reply {
    if limit != Allowed || Refuses(BreakerOf(g, Service(r)), now) then Refused
    else
      match Cache.Lookup(g.cache, KeyOf(r), now, ttl)
      case Some(result) => Cached(result)
      case None => Forwarded
  }

  /** From the limiter's answer to the hub call. */
  function Begin(g: Gateway, r: ExecRequest, limit: Limit, now: Time, ttl: Time, id: CallId): Gateway {
    var forwarded := ReplyTo(g, r, limit, now, ttl) == Forwarded;
    Gateway(g.breakers[Service(r) := BreakerAtBegin(BreakerOf(g, Service(r)), limit, now)],
            g.cache,
            if forwarded then g.calls[id := r] else g.calls,
            if forwarded then g.requests[id := r] else g.requests,
            g.log)
  }

  /** The hub call of id has come back. */
  function Complete(g: Gateway, id: CallId, c: Completion, now: Time): Gateway
    requires id in g.calls && Cache.WF(g.cache)
  {
    var r := g.calls[id];
    var g1 := g.(calls := g.calls - {id});
    match c
    case CallFailed => RecordFailure(g1, Service(r), now)
    case Answered(body) =>
      if r.stream then g1
      else RecordSuccess(g1.(cache := Cache.Store(g1.cache, KeyOf(r), Result(id, body), now),
                             log := g1.log + [Cache.Stored(KeyOf(r), Result(id, body), now)]),
                         Service(r))
  }

  // ---------- Runs ----------

  datatype Event =
    | Arrive(r: ExecRequest, limit: Limit, now: Time, id: CallId)
    | Return(id: CallId, c: Completion, now: Time)

  ghost predicate Inv(g: Gateway) {
    && g.cache == Cache.After(g.log)
    && (forall id <- g.calls :: id in g.requests && g.requests[id] == g.calls[id])
    && (forall id <- g.calls :: Service(g.calls[id]) in g.breakers)
    && (forall k <- g.cache.entries ::
          && g.cache.entries[k].result.id in g.requests
          && KeyOf(g.requests[g.cache.entries[k].result.id]) == k
          && !g.requests[g.cache.entries[k].result.id].stream)
  }

  predicate Enabled(g: Gateway, e: Event) {
    match e
    case Arrive(_, _, _, id) => id !in g.requests  // a fresh uuid4
    case Return(id, _, _) => id in g.calls
  }

  function Apply(g: Gateway, e: Event, ttl: Time): Gateway
    requires Cache.WF(g.cache) && Enabled(g, e)
  {
    match e
    case Arrive(r, limit, now, id) => Begin(g, r, limit, now, ttl, id)
    case Return(id, c, now) => Complete(g, id, c, now)
  }

  lemma StoreInv(g: Gateway, id: CallId, body: string, now: Time)
    requires Inv(g) && id in g.calls && !g.calls[id].stream
    ensures var key := KeyOf(g.calls[id]);
      var log := g.log + [Cache.Stored(key, Result(id, body), now)];
      var cache := Cache.Store(g.cache, key, Result(id, body), now);
      && cache == Cache.After(log)
      && forall k <- cache.entries ::
           && cache.entries[k].result.id in g.requests
           && KeyOf(g.requests[cache.entries[k].result.id]) == k
           && !g.requests[cache.entries[k].result.id].stream
  {
    var key := KeyOf(g.calls[id]);
    var s := Cache.Stored(key, Result(id, body), now);
    var log := g.log + [s];
    assert log[..|log| - 1] == g.log;
    Cache.PutWF(g.cache, key, Cache.Entry(s.result, now));
    Cache.EvictFacts(Cache.Put(g.cache, key, Cache.Entry(s.result, now)));
  }

  lemma BeginInv(g: Gateway, r: ExecRequest, limit: Limit, now: Time, ttl: Time, id: CallId)
    requires Inv(g) && id !in g.requests
    ensures Inv(Begin(g, r, limit, now, ttl, id))
  {
  }

  lemma CompleteInv(g: Gateway, id: CallId, c: Completion, now: Time)
    requires Inv(g) && id in g.calls
    ensures Inv(Complete(g, id, c, now))
  {
    var h := Complete(g, id, c, now);
    assert h.requests == g.requests && h.calls == g.calls - {id};
    assert h.breakers.Keys == g.breakers.Keys;
    if c.Answered? && !g.calls[id].stream {
      StoreInv(g, id, c.body, now);
    } else {
      assert h.cache == g.cache && h.log == g.log;
    }
  }

  function FailuresOf(g: Gateway, service: string): nat {
    if service in g.breakers then g.breakers[service].failures else 0
  }

  function LastOf(g: Gateway, service: string): Option<Time> {
    if service in g.breakers then g.breakers[service].lastFailure else None
  }

  /** The first stretch: who is refused, what that costs the service, and what else it touches. */
  lemma BeginEffects(g: Gateway, r: ExecRequest, limit: Limit, now: Time, ttl: Time, id: CallId)
    requires Inv(g) && id !in g.requests
    ensures var service := if r.moduleId.Some? && r.moduleId.value != "" then r.moduleId.value else r.action;
      var reply, h := ReplyTo(g, r, limit, now, ttl), Begin(g, r, limit, now, ttl, id);
      && h.breakers - {service} == g.breakers - {service} && service in h.breakers
      && h.cache == g.cache && h.log == g.log
      && h.calls == (if reply == Forwarded then g.calls[id := r] else g.calls)
      && (limit != Allowed ==> reply == Refused)
      && (limit == Allowed && (service in g.breakers ==> g.breakers[service].phase != Open) ==> reply != Refused)
      && (reply != Refused ==>
            && h.breakers[service].lastFailure == LastOf(g, service)
            && h.breakers[service].failures == FailuresOf(g, service))
      && (reply == Refused ==>
            && h.breakers[service].lastFailure == Some(now)
            && h.breakers[service].failures == FailuresOf(g, service) + 1)
  {
    var h := Begin(g, r, limit, now, ttl, id);
    assert h.breakers - {Service(r)} == g.breakers - {Service(r)};
  }

  lemma StoredIfKept(c: Cache.Cache<Result>, key: string, result: Result, now: Time)
    requires Cache.WF(c)
    ensures var d := Cache.Store(c, key, result, now);
      key in d.entries ==> d.entries[key] == Cache.Entry(result, now)
  {
    Cache.PutWF(c, key, Cache.Entry(result, now));
  }

  /** The second stretch, the call having raised: one more failure of the service, and nothing else. */
  lemma FailureEffects(g: Gateway, id: CallId, now: Time)
    requires Inv(g) && id in g.calls
    ensures var r := g.calls[id];
      var service := if r.moduleId.Some? && r.moduleId.value != "" then r.moduleId.value else r.action;
      var h := Complete(g, id, CallFailed, now);
      && service in g.breakers && service in h.breakers
      && h.breakers - {service} == g.breakers - {service}
      && h.breakers[service].failures == g.breakers[service].failures + 1
      && h.breakers[service].lastFailure == Some(now)
      && h.breakers[service].successes == g.breakers[service].successes
      && h == g.(calls := g.calls - {id}, breakers := h.breakers)
  {
    var h, service := Complete(g, id, CallFailed, now), Service(g.calls[id]);
    assert h.breakers - {service} == g.breakers - {service};
  }

  /** The second stretch, the call having answered: stored, and one more success; a streamed answer leaves no trace. */
  lemma AnswerEffects(g: Gateway, id: CallId, body: string, now: Time)
    requires Inv(g) && id in g.calls
    ensures var r, h := g.calls[id], Complete(g, id, Answered(body), now);
      var service := if r.moduleId.Some? && r.moduleId.value != "" then r.moduleId.value else r.action;
      && h.calls == g.calls - {id}
      && (r.stream ==> h == g.(calls := h.calls))
      && (!r.stream ==>
            && service in g.breakers && service in h.breakers
            && h.breakers - {service} == g.breakers - {service}
            && h.breakers[service].successes == g.breakers[service].successes + 1
            && h.breakers[service].lastFailure == g.breakers[service].lastFailure
            && (KeyOf(r) in h.cache.entries ==>
                  h.cache.entries[KeyOf(r)] == Cache.Entry(Result(id, body), now))
            && h.log == g.log + [Cache.Stored(KeyOf(r), Result(id, body), now)])
  {
    if !g.calls[id].stream {
      var h, service := Complete(g, id, Answered(body), now), Service(g.calls[id]);
      StoredIfKept(g.cache, KeyOf(g.calls[id]), Result(id, body), now);
      assert h.breakers == g.breakers[service := Succeed(g.breakers[service])];
      assert h.breakers - {service} == g.breakers - {service};
    }
  }

  lemma StepInv(g: Gateway, e: Event, ttl: Time)
    requires Inv(g) && Enabled(g, e)
    ensures Inv(Apply(g, e, ttl))
  {
    match e
    case Arrive(r, limit, now, id) => BeginInv(g, r, limit, now, ttl, id);
    case Return(id, c, now) => CompleteInv(g, id, c, now);
  }

  ghost predicate Run(g: Gateway, es: seq<Event>, ttl: Time)
    requires Inv(g)
    decreases |es|
  {
    es == [] || (Enabled(g, es[0]) && (StepInv(g, es[0], ttl); Run(Apply(g, es[0], ttl), es[1..], ttl)))
  }

  ghost function End(g: Gateway, es: seq<Event>, ttl: Time): (r: Gateway)
    requires Inv(g) && Run(g, es, ttl)
    ensures Inv(r)
    decreases |es|
  {
    if es == [] then g
    else
      StepInv(g, es[0], ttl);
      End(Apply(g, es[0], ttl), es[1..], ttl)
  }

  /** What e does to the breaker of service. */
  function OpsOf(g: Gateway, e: Event, service: string): seq<Op> {
    match e
    case Arrive(r, limit, now, _) =>
      if Service(r) != service then []
      else if limit != Allowed then [Failed(now)]
      else if Refuses(BreakerOf(g, service), now) then [Checked(now), Failed(now)]
      else [Checked(now)]
    case Return(id, c, now) =>
      if id !in g.calls || Service(g.calls[id]) != service then []
      else if c.CallFailed? then [Failed(now)]
      else if g.calls[id].stream then []
      else [Succeeded]
  }

  /** The history of service's breaker over a run. */
  ghost function History(g: Gateway, es: seq<Event>, service: string, ttl: Time): seq<Op>
    requires Inv(g) && Run(g, es, ttl)
    decreases |es|
  {
    if es == [] then []
    else
      StepInv(g, es[0], ttl);
      OpsOf(g, es[0], service) + History(Apply(g, es[0], ttl), es[1..], service, ttl)
  }
}
