/**
 The breaker and the executor together, and the cache across tenants, over every run of
 arriving requests and returning calls.
 */
module GatewayRuns {
  import opened Prelude
  import opened Breaker
  import opened CacheKeys
  import opened GatewayModel
  import Cache = ResultCache

  // ---------- The breaker is a function of its history ----------

  function Replay(b: Breaker, ops: seq<Op>): Breaker
    decreases |ops|
  {
    if ops == [] then b else Replay(Step(b, ops[0]), ops[1..])
  }

  lemma {:induction false} ReplayConcat(b: Breaker, xs: seq<Op>, ys: seq<Op>)
    ensures Replay(b, xs + ys) == Replay(Replay(b, xs), ys)
    decreases |xs|
  {
    if xs == [] {
      assert xs + ys == ys;
    } else {
      assert (xs + ys)[1..] == xs[1..] + ys;
      ReplayConcat(Step(b, xs[0]), xs[1..], ys);
    }
  }

  lemma {:induction false} ReplayIsAfter(ops: seq<Op>)
    ensures Replay(FRESH, ops) == After(ops)
  {
    if ops != [] {
      var front, last := ops[..|ops| - 1], ops[|ops| - 1];
      assert ops == front + [last];
      ReplayConcat(FRESH, front, [last]);
      ReplayIsAfter(front);
      assert Replay(After(front), [last]) == Step(After(front), last);
    }
  }

  lemma StepFollowsOps(g: Gateway, e: Event, service: string, ttl: Time)
    requires Inv(g) && Enabled(g, e)
    ensures BreakerOf(Apply(g, e, ttl), service) == Replay(BreakerOf(g, service), OpsOf(g, e, service))
  {
    var b := BreakerOf(g, service);
    match e
    case Arrive(r, limit, now, id) =>
      ReplayUpToTwo(b, Checked(now), Failed(now));
      assert Service(r) == service ==> BreakerOf(Apply(g, e, ttl), service) == BreakerAtBegin(b, limit, now);
    case Return(id, c, now) =>
      ReplayUpToTwo(b, Succeeded, Failed(now));
  }

  lemma ReplayUpToTwo(b: Breaker, x: Op, y: Op)
    ensures Replay(b, [x]) == Step(b, x) && Replay(b, [y]) == Step(b, y) && Replay(b, [x, y]) == Step(Step(b, x), y)
  {
    assert [x, y][1..] == [y] && [x][1..] == [] && [y][1..] == [];
    assert Replay(b, [x, y]) == Replay(Step(b, x), [y]) == Replay(Step(Step(b, x), y), []);
  }

  lemma {:induction false} RunFollowsHistory(g: Gateway, es: seq<Event>, service: string, ttl: Time)
    requires Inv(g) && Run(g, es, ttl)
    ensures BreakerOf(End(g, es, ttl), service) == Replay(BreakerOf(g, service), History(g, es, service, ttl))
    decreases |es|
  {
    if es != [] {
      var h := Apply(g, es[0], ttl);
      StepInv(g, es[0], ttl);
      StepFollowsOps(g, es[0], service, ttl);
      RunFollowsHistory(h, es[1..], service, ttl);
      ReplayConcat(BreakerOf(g, service), OpsOf(g, es[0], service), History(h, es[1..], service, ttl));
    }
  }

  /** On every run the breaker of a service is the one its history of checks, successes and failures gives. */
  lemma BreakerFollowsHistory(es: seq<Event>, service: string, ttl: Time)
    requires Run(START, es, ttl)
    ensures BreakerOf(End(START, es, ttl), service) == After(History(START, es, service, ttl))
  {
    RunFollowsHistory(START, es, service, ttl);
    ReplayIsAfter(History(START, es, service, ttl));
  }

  /**
   After any run, a request is refused exactly when the rate limiter does not let it through,
   or the circuit is open and its last failure or refusal lies at most a minute back.
   */
  lemma RefusedIff(es: seq<Event>, r: ExecRequest, limit: Limit, now: Time, ttl: Time)
    requires Run(START, es, ttl)
    ensures ReplyTo(End(START, es, ttl), r, limit, now, ttl) == Refused <==>
      limit != Allowed || CircuitBars(History(START, es, Service(r), ttl), now)
  {
    BreakerFollowsHistory(es, Service(r), ttl);
    CountersAreHistory(History(START, es, Service(r), ttl));
  }

  /** Open, with a failure at most a minute back (or at time zero, which the code takes for none). */
  predicate CircuitBars(ops: seq<Op>, now: Time) {
    After(ops).phase == Open &&
    !(LastFailure(ops).Some? && LastFailure(ops).value != 0.0 && now - LastFailure(ops).value > 60.0)
  }

  // ---------- Locked out ----------

  /** When e is a refusal or a failure for service, its time; else the time before. */
  function Trouble(g: Gateway, e: Event, service: string, last: Time): Time {
    match e
    case Arrive(r, _, now, _) => if Service(r) == service then now else last
    case Return(id, c, now) =>
      if c.CallFailed? && id in g.calls && Service(g.calls[id]) == service then now else last
  }

  /** No request for service arrives more than a minute after the last arrival or failed call. */
  ghost predicate KeepsKnocking(g: Gateway, es: seq<Event>, service: string, last: Time, ttl: Time)
    requires Inv(g) && Run(g, es, ttl)
    decreases |es|
  {
    es != [] ==>
      && (es[0].Arrive? && Service(es[0].r) == service ==> es[0].now - last <= 60.0)
      && (StepInv(g, es[0], ttl);
          KeepsKnocking(Apply(g, es[0], ttl), es[1..], service, Trouble(g, es[0], service, last), ttl))
  }

  /** Requests for service that are not refused. */
  ghost function LetThrough(g: Gateway, es: seq<Event>, service: string, ttl: Time): nat
    requires Inv(g) && Run(g, es, ttl)
    decreases |es|
  {
    if es == [] then 0
    else
      StepInv(g, es[0], ttl);
      (if es[0].Arrive? && Service(es[0].r) == service && ReplyTo(g, es[0].r, es[0].limit, es[0].now, ttl) != Refused
       then 1 else 0)
      + LetThrough(Apply(g, es[0], ttl), es[1..], service, ttl)
  }

  /** The circuit of service is open and last saw trouble at `last`. */
  ghost predicate OpenSince(g: Gateway, service: string, last: Time) {
    var b := BreakerOf(g, service);
    b.phase == Open && b.failures > 5 && b.lastFailure == Some(last)
  }

  lemma StepLockedOut(g: Gateway, e: Event, service: string, last: Time, ttl: Time)
    requires Inv(g) && Enabled(g, e) && OpenSince(g, service, last)
    requires e.Arrive? && Service(e.r) == service ==> e.now - last <= 60.0
    ensures OpenSince(Apply(g, e, ttl), service, Trouble(g, e, service, last))
    ensures e.Arrive? && Service(e.r) == service ==> ReplyTo(g, e.r, e.limit, e.now, ttl) == Refused
  {
    StepFollowsOps(g, e, service, ttl);
    match e
    case Arrive(r, limit, now, id) =>
      ReplayUpToTwo(BreakerOf(g, service), Checked(now), Failed(now));
    case Return(id, c, now) =>
  }

  /**
   Once a circuit is open, clients that keep asking at most a minute apart stay locked
   out for good: every refusal counts as a new failure.  Calls that were out and return
   successfully in the meantime make no difference.
   */
  lemma {:induction false} KnockingStaysLockedOut(g: Gateway, es: seq<Event>, service: string, last: Time, ttl: Time)
    requires Inv(g) && Run(g, es, ttl) && OpenSince(g, service, last)
    requires KeepsKnocking(g, es, service, last, ttl)
    ensures BreakerOf(End(g, es, ttl), service).phase == Open
    ensures LetThrough(g, es, service, ttl) == 0
    decreases |es|
  {
    if es != [] {
      StepInv(g, es[0], ttl);
      StepLockedOut(g, es[0], service, last, ttl);
      KnockingStaysLockedOut(Apply(g, es[0], ttl), es[1..], service, Trouble(g, es[0], service, last), ttl);
    }
  }

  /** Every open circuit of a reachable gateway is open since some time, so the lemma above applies to it. */
  lemma OpenIsOpenSince(es: seq<Event>, service: string, ttl: Time)
    requires Run(START, es, ttl) && BreakerOf(End(START, es, ttl), service).phase == Open
    ensures exists last :: OpenSince(End(START, es, ttl), service, last)
  {
    BreakerFollowsHistory(es, service, ttl);
    var ops := History(START, es, service, ttl);
    CountersAreHistory(ops);
    OpenHasFailure(ops);
    assert OpenSince(End(START, es, ttl), service, LastFailure(ops).value);
  }

  lemma {:induction false} OpenHasFailure(ops: seq<Op>)
    ensures After(ops).failures > 0 ==> LastFailure(ops).Some?
  {
    if ops != [] { OpenHasFailure(ops[..|ops| - 1]); }
  }

  // ---------- Who is served whose answer ----------

  /** Module id and action as the cache key joins them. */
  function AddressOf(r: ExecRequest): string {
    Address(r.moduleId, r.action)
  }

  /** y's request can be given an answer made for x's: same tenant, same payload, module and action that join alike. */
  predicate Alike(x: ExecRequest, y: ExecRequest) {
    x.tenant == y.tenant && x.payload == y.payload && AddressOf(x) == AddressOf(y)
  }

  lemma SameKeyIffAlike(x: ExecRequest, y: ExecRequest)
    ensures KeyOf(x) == KeyOf(y) <==> Alike(x, y)
  {
    EqualKeysIff(x.tenant, x.moduleId, x.action, x.payload, y.tenant, y.moduleId, y.action, y.payload);
  }

  /**
   On every run, a cached answer was computed for a request of the same tenant with the
   same payload, whose module and action join to the same string.
   */
  lemma CachedForSameTenant(es: seq<Event>, r: ExecRequest, now: Time, ttl: Time)
    requires Run(START, es, ttl)
    requires ReplyTo(End(START, es, ttl), r, Allowed, now, ttl).Cached?
    ensures var g := End(START, es, ttl);
      var made := ReplyTo(g, r, Allowed, now, ttl).result.id;
      made in g.requests && Alike(g.requests[made], r) && !g.requests[made].stream
  {
    var g := End(START, es, ttl);
    SameKeyIffAlike(g.requests[ReplyTo(g, r, Allowed, now, ttl).result.id], r);
  }

  /** The gateway when x's request, its first, is out, and when it has been answered. */
  lemma FirstAnswer(x: ExecRequest, body: string, now: Time, ttl: Time)
    requires !x.stream
    ensures var g := Begin(START, x, Allowed, now, ttl, 0);
      && g == Gateway(map[Service(x) := FRESH], START.cache, map[0 := x], map[0 := x], [])
      && var h := Complete(g, 0, Answered(body), now);
        && h.requests == map[0 := x] && h.breakers == map[Service(x) := Succeed(FRESH)]
        && h.cache.entries == map[KeyOf(x) := Cache.Entry(Result(0, body), now)]
  {
    var g := Begin(START, x, Allowed, now, ttl, 0);
    assert g == Gateway(map[Service(x) := FRESH], START.cache, map[0 := x], map[0 := x], []);
    var h := Complete(g, 0, Answered(body), now);
    assert h.cache == Cache.Store(START.cache, KeyOf(x), Result(0, body), now);
  }

  lemma TwoSteps(e: Event, f: Event, ttl: Time)
    requires Enabled(START, e)
    requires (StepInv(START, e, ttl); Enabled(Apply(START, e, ttl), f))
    ensures Run(START, [e, f], ttl)
    ensures (StepInv(START, e, ttl); End(START, [e, f], ttl) == Apply(Apply(START, e, ttl), f, ttl))
  {
    StepInv(START, e, ttl);
    var g := Apply(START, e, ttl);
    StepInv(g, f, ttl);
    var h := Apply(g, f, ttl);
    assert [e, f][1..] == [f] && [f][1..] == [];
    assert Run(h, [], ttl) && Run(g, [f], ttl);
    assert End(START, [e, f], ttl) == End(g, [f], ttl) == End(h, [], ttl) == h;
  }

  /** x's request is answered, then y asks for a request with the same key. */
  lemma SameKeyIsServed(x: ExecRequest, y: ExecRequest, body: string, now: Time, ttl: Time)
    requires KeyOf(x) == KeyOf(y) && !x.stream && ttl > 0.0
    ensures var es := [Arrive(x, Allowed, now, 0), Return(0, Answered(body), now)];
      && Run(START, es, ttl)
      && ReplyTo(End(START, es, ttl), y, Allowed, now, ttl) == Cached(Result(0, body))
      && End(START, es, ttl).requests == map[0 := x]
  {
    FirstAnswer(x, body, now, ttl);
    TwoSteps(Arrive(x, Allowed, now, 0), Return(0, Answered(body), now), ttl);
  }

  /** y is answered from the cache, with the answer made for x. */
  predicate ServedFrom(g: Gateway, y: ExecRequest, now: Time, ttl: Time, x: ExecRequest) {
    var reply := ReplyTo(g, y, Allowed, now, ttl);
    reply.Cached? && reply.result.id in g.requests && g.requests[reply.result.id] == x
  }

  /** On some run, y is answered with what was computed for x. */
  ghost predicate CanBeServed(x: ExecRequest, y: ExecRequest, ttl: Time) {
    exists es: seq<Event>, now: Time :: Run(START, es, ttl) && ServedFrom(End(START, es, ttl), y, now, ttl, x)
  }

  lemma ServedMeansAlike(es: seq<Event>, x: ExecRequest, y: ExecRequest, now: Time, ttl: Time)
    requires Run(START, es, ttl) && ServedFrom(End(START, es, ttl), y, now, ttl, x)
    ensures Alike(x, y) && !x.stream
  {
    var reply := ReplyTo(End(START, es, ttl), y, Allowed, now, ttl);
    assert reply.Cached?;
    CachedForSameTenant(es, y, now, ttl);
  }

  /**
   A request can be served an answer made for another exactly when the two have the same
   tenant and payload and their modules and actions join to the same string; an answer that
   was streamed is never served again.
   */
  lemma ServedIffAlike(x: ExecRequest, y: ExecRequest, ttl: Time)
    requires ttl > 0.0
    ensures CanBeServed(x, y, ttl) <==> Alike(x, y) && !x.stream
  {
    forall es: seq<Event>, now: Time | Run(START, es, ttl) && ServedFrom(End(START, es, ttl), y, now, ttl, x)
      ensures Alike(x, y) && !x.stream
    {
      ServedMeansAlike(es, x, y, now, ttl);
    }
    if Alike(x, y) && !x.stream { AlikeIsServed(x, y, ttl); }
  }

  lemma AlikeIsServed(x: ExecRequest, y: ExecRequest, ttl: Time)
    requires Alike(x, y) && !x.stream && ttl > 0.0
    ensures CanBeServed(x, y, ttl)
  {
    var es := [Arrive(x, Allowed, 0.0, 0), Return(0, Answered(""), 0.0)];
    SameKeyIffAlike(x, y);
    SameKeyIsServed(x, y, "", 0.0, ttl);
    assert ServedFrom(End(START, es, ttl), y, 0.0, ttl, x);
  }

  /** Module "billing" with action "report:delete" answers for module "billing:report" with action "delete". */
  lemma AnotherModulesAnswer(tenant: TenantId, ttl: Time)
    requires ttl > 0.0
    ensures CanBeServed(ExecRequest(tenant, Some("billing"), "report:delete", EmptyDump(), false),
                        ExecRequest(tenant, Some("billing:report"), "delete", EmptyDump(), false), ttl)
  {
    var x := ExecRequest(tenant, Some("billing"), "report:delete", EmptyDump(), false);
    var y := ExecRequest(tenant, Some("billing:report"), "delete", EmptyDump(), false);
    assert AddressOf(x) == "billing:report:delete" == AddressOf(y);
    AlikeIsServed(x, y, ttl);
  }

  /**
   On every run, a request is given the cached answer v exactly when it is not refused, its key
   has not been evicted, v is what was stored last under it, and that is less than ttl ago.
   */
  lemma CachedIsLatest(es: seq<Event>, r: ExecRequest, limit: Limit, now: Time, ttl: Time, v: Result)
    requires Run(START, es, ttl)
    ensures var g := End(START, es, ttl);
      var latest := Cache.Latest(g.log, KeyOf(r));
      ReplyTo(g, r, limit, now, ttl) == Cached(v) <==>
        && limit == Allowed && !CircuitBars(History(START, es, Service(r), ttl), now)
        && KeyOf(r) in g.cache.entries
        && latest.Some? && latest.value.result == v && now - latest.value.at < ttl
  {
    var g := End(START, es, ttl);
    RefusedIff(es, r, limit, now, ttl);
    Cache.HitIsLatest(g.log, KeyOf(r), now, ttl, v);
  }

  /**
   An answer that has just come back, and was not streamed, is served to every alike request
   of the following ttl that the limiter and the circuit let through.
   */
  lemma JustAnsweredIsServed(g: Gateway, id: CallId, body: string, at: Time, y: ExecRequest, now: Time, ttl: Time)
    requires Inv(g) && id in g.calls && !g.calls[id].stream && Alike(g.calls[id], y)
    requires Cache.Timely(Complete(g, id, Answered(body), at).log)
    requires now - at < ttl
    ensures var h := Complete(g, id, Answered(body), at);
      ReplyTo(h, y, Allowed, now, ttl) ==
        if Refuses(BreakerOf(h, Service(y)), now) then Refused else Cached(Result(id, body))
  {
    var h, key := Complete(g, id, Answered(body), at), KeyOf(g.calls[id]);
    CompleteInv(g, id, Answered(body), at);
    SameKeyIffAlike(g.calls[id], y);
    assert h.log == g.log + [Cache.Stored(key, Result(id, body), at)];
    Cache.JustStoredStays(h.log);
    Cache.HitIsLatest(h.log, key, now, ttl, Result(id, body));
  }
}
