/** The APIGateway object: circuit breakers and result cache updated in place. */
module APIGatewayServer {
  import opened Prelude
  import opened Breaker
  import opened GatewayModel
  import Cache = ResultCache

  class APIGateway {
    var circuitBreakers: map<string, Breaker>
    var cacheOrder: seq<string>                          // the keys of request_cache, oldest insertion first
    var requestCache: map<string, Cache.Entry<Result>>
    var calls: map<CallId, ExecRequest>                  // coroutines waiting for the hub
    const cacheTtl: Time
    ghost var state: Gateway

    ghost predicate Valid()
      reads this
    {
      Inv(state) && Shows(state)
    }

    /** The fields are what g says. */
    ghost predicate Shows(g: Gateway)
      reads this
    {
      circuitBreakers == g.breakers && calls == g.calls && Cache.Cache(cacheOrder, requestCache) == g.cache
    }

    constructor (ttl: Time)
      ensures Valid() && state == START && cacheTtl == ttl
    {
      circuitBreakers, cacheOrder, requestCache, calls, cacheTtl := map[], [], map[], map[], ttl;
      state := START;
    }

    // ---------- The breaker ----------

    /** _is_circuit_open. */
    method IsCircuitOpen(service: string, now: Time) returns (open: bool)
      modifies this`circuitBreakers
      ensures var b := if service in old(circuitBreakers) then old(circuitBreakers)[service] else FRESH;
        open == Refuses(b, now) && circuitBreakers == old(circuitBreakers)[service := Check(b, now)]
    {
      if service !in circuitBreakers {
        circuitBreakers := circuitBreakers[service := FRESH];
      }
      var breaker := circuitBreakers[service];
      if breaker.phase == Open {
        if breaker.lastFailure.Some? && breaker.lastFailure.value != 0.0 {
          var timeSinceFailure := now - breaker.lastFailure.value;
          if timeSinceFailure > RETRY_AFTER {
            circuitBreakers := circuitBreakers[service := breaker.(phase := HalfOpen)];
            return false;
          }
        }
        return true;
      }
      return false;
    }

    /** _record_success. */
    method RecordSuccess(service: string)
      modifies this`circuitBreakers
      ensures circuitBreakers == if service in old(circuitBreakers)
        then old(circuitBreakers)[service := Succeed(old(circuitBreakers)[service])] else old(circuitBreakers)
    {
      if service in circuitBreakers {
        var breaker := circuitBreakers[service];
        breaker := breaker.(successes := breaker.successes + 1);
        if breaker.phase == HalfOpen && breaker.successes > 5 {
          breaker := breaker.(phase := Closed, failures := 0);
        }
        circuitBreakers := circuitBreakers[service := breaker];
      }
    }

    /** _record_failure. */
    method RecordFailure(service: string, now: Time)
      modifies this`circuitBreakers
      ensures circuitBreakers == old(circuitBreakers)[service :=
        Fail(if service in old(circuitBreakers) then old(circuitBreakers)[service] else FRESH, now)]
    {
      var breaker := FRESH;
      if service in circuitBreakers {
        breaker := circuitBreakers[service];
      }
      breaker := breaker.(failures := breaker.failures + 1, lastFailure := Some(now));
      if breaker.failures > 5 {
        breaker := breaker.(phase := Open);
      }
      circuitBreakers := circuitBreakers[service := breaker];
    }

    // ---------- The cache ----------

    /** _get_cached_result. */
    method GetCachedResult(key: string, now: Time) returns (result: Option<Result>)
      ensures result == Cache.Lookup(Cache.Cache(cacheOrder, requestCache), key, now, cacheTtl)
      ensures result.Some? <==> key in requestCache && now - requestCache[key].at < cacheTtl
      ensures result.Some? ==> result.value == requestCache[key].result
    {
      if key in requestCache {
        var cached := requestCache[key];
        if now - cached.at < cacheTtl {
          return Some(cached.result);
        }
      }
      return None;
    }

    /** _cache_result. */
    method CacheResult(key: string, result: Result, now: Time)
      requires Cache.WF(Cache.Cache(cacheOrder, requestCache))
      modifies this`cacheOrder, this`requestCache
      ensures Cache.Cache(cacheOrder, requestCache) ==
        Cache.Store(old(Cache.Cache(cacheOrder, requestCache)), key, result, now)
      ensures |old(cacheOrder)| < 1000 ==>
        && requestCache == old(requestCache)[key := Cache.Entry(result, now)]
        && cacheOrder == if key in old(requestCache) then old(cacheOrder) else old(cacheOrder) + [key]
    {
      Cache.PutWF(Cache.Cache(cacheOrder, requestCache), key, Cache.Entry(result, now));
      if key !in requestCache {
        cacheOrder := cacheOrder + [key];
      }
      requestCache := requestCache[key := Cache.Entry(result, now)];
      CleanOldEntries();
    }

    /** The cleaning pass of _cache_result. */
    method CleanOldEntries()
      requires Cache.WF(Cache.Cache(cacheOrder, requestCache))
      modifies this`cacheOrder, this`requestCache
      ensures Cache.Cache(cacheOrder, requestCache) == Cache.Evict(old(Cache.Cache(cacheOrder, requestCache)))
    {
      if |cacheOrder| > Cache.LIMIT {
        var sortedKeys := Cache.SortByTime(cacheOrder, requestCache);
        Cache.SortByTimeFacts(cacheOrder, requestCache);
        assert Cache.Elements(sortedKeys[..0]) == {};
        WithoutNone(cacheOrder);
        for i := 0 to Cache.BATCH
          invariant cacheOrder == Cache.Without(old(cacheOrder), Cache.Elements(sortedKeys[..i]))
          invariant requestCache == old(requestCache) - Cache.Elements(sortedKeys[..i])
        {
          DropOneMore(old(cacheOrder), old(requestCache), sortedKeys, i);
          DeleteEntry(sortedKeys[i]);
        }
      }
    }

    /** del self.request_cache[key] */
    method DeleteEntry(key: string)
      modifies this`cacheOrder, this`requestCache
      ensures cacheOrder == Cache.Without(old(cacheOrder), {key}) && requestCache == old(requestCache) - {key}
    {
      cacheOrder := Cache.Without(cacheOrder, {key});
      requestCache := requestCache - {key};
    }

    // ---------- The executor ----------

    /** _execute_module from the rate limiter's answer to the hub call. */
    method ExecuteBegin(r: ExecRequest, limit: Limit, now: Time, id: CallId) returns (reply: Reply)
      requires Valid() && id !in state.requests
      modifies this`circuitBreakers, this`calls, this`state
      ensures Valid() && state == Begin(old(state), r, limit, now, cacheTtl, id)
      ensures reply == ReplyTo(old(state), r, limit, now, cacheTtl)
      ensures limit != Allowed ==> reply == Refused
      ensures calls == if reply == Forwarded then old(calls)[id := r] else old(calls)
    {
      var service := Service(r);
      BeginInv(state, r, limit, now, cacheTtl, id);
      ghost var next := Begin(state, r, limit, now, cacheTtl, id);
      if limit != Allowed {
        RecordFailure(service, now);  // 429, caught by the method's own handler
        reply := Refused;
      } else {
        var open := IsCircuitOpen(service, now);
        if open {
          RecordFailure(service, now);  // 503, likewise
          reply := Refused;
        } else {
          var cached := GetCachedResult(KeyOf(r), now);
          if cached.Some? {
            reply := Cached(cached.value);
          } else {
            calls := calls[id := r];
            reply := Forwarded;
          }
        }
      }
      state := next;
    }

    /** _execute_module once the hub call and the usage tracking have succeeded, or one of them has raised. */
    method ExecuteEnd(id: CallId, c: Completion, now: Time)
      requires Valid() && id in calls
      modifies this
      ensures Valid() && state == Complete(old(state), id, c, now)
      ensures calls == old(calls) - {id}
    {
      match c {
        case CallFailed => CallRaised(id, now);
        case Answered(body) => CallAnswered(id, body, now);
      }
    }

    /** Its handler. */
    method CallRaised(id: CallId, now: Time)
      requires Valid() && id in calls
      modifies this`circuitBreakers, this`calls, this`state
      ensures Valid() && state == Complete(old(state), id, CallFailed, now)
      ensures calls == old(calls) - {id}
    {
      CompleteInv(state, id, CallFailed, now);
      ghost var next := Complete(state, id, CallFailed, now);
      var r := calls[id];
      calls := calls - {id};
      RecordFailure(Service(r), now);
      state := next;
    }

    /** Its way to the answer. */
    method CallAnswered(id: CallId, body: string, now: Time)
      requires Valid() && id in calls
      modifies this
      ensures Valid() && state == Complete(old(state), id, Answered(body), now)
      ensures calls == old(calls) - {id}
    {
      CompleteInv(state, id, Answered(body), now);
      ghost var next := Complete(state, id, Answered(body), now);
      var r := calls[id];
      calls := calls - {id};
      if !r.stream {
        RecordAnswer(Service(r), KeyOf(r), Result(id, body), now);
      }
      CatchUp(next);
    }

    /** The abstract state catches up with the fields. */
    ghost method CatchUp(next: Gateway)
      requires Inv(next) && Shows(next)
      modifies this`state
      ensures Valid() && state == next
    {
      state := next;
    }

    /** What _execute_module does with an answer before returning it. */
    method RecordAnswer(service: string, key: string, result: Result, now: Time)
      requires Cache.WF(Cache.Cache(cacheOrder, requestCache)) && service in circuitBreakers
      modifies this`circuitBreakers, this`cacheOrder, this`requestCache
      ensures Cache.Cache(cacheOrder, requestCache) ==
        Cache.Store(old(Cache.Cache(cacheOrder, requestCache)), key, result, now)
      ensures circuitBreakers == old(circuitBreakers)[service := Succeed(old(circuitBreakers)[service])]
    {
      CacheResult(key, result, now);
      RecordSuccess(service);
    }
  }

  lemma DropOneMore<R>(order: seq<string>, entries: map<string, R>, sorted: seq<string>, i: nat)
    requires i < |sorted|
    ensures Cache.Without(order, Cache.Elements(sorted[..i + 1])) ==
      Cache.Without(Cache.Without(order, Cache.Elements(sorted[..i])), {sorted[i]})
    ensures entries - Cache.Elements(sorted[..i + 1]) == entries - Cache.Elements(sorted[..i]) - {sorted[i]}
  {
    assert Cache.Elements(sorted[..i + 1]) == Cache.Elements(sorted[..i]) + {sorted[i]};
    WithoutBoth(order, Cache.Elements(sorted[..i]), {sorted[i]});
  }

  lemma {:induction false} WithoutNone(order: seq<string>)
    ensures Cache.Without(order, {}) == order
  {
    if order != [] { WithoutNone(order[..|order| - 1]); }
  }

  lemma {:induction false} WithoutBoth(order: seq<string>, a: set<string>, b: set<string>)
    ensures Cache.Without(order, a + b) == Cache.Without(Cache.Without(order, a), b)
  {
    if order != [] {
      var front, last := order[..|order| - 1], order[|order| - 1];
      WithoutBoth(front, a, b);
      if last !in a {
        assert Cache.Without(order, a)[..|Cache.Without(front, a)|] == Cache.Without(front, a);
      } else {
        assert Cache.Without(order, a) == Cache.Without(front, a);
      }
    }
  }
}
