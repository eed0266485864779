/**
 Usage tracking: events are buffered, taken off in batches, and inserted while other
 calls go on; a separate real-time counter is incremented per call.  The lemmas account
 for every event and every unit of usage at every point where tasks may switch.
 */
module UsagePipeline {
  import opened Prelude

  datatype Metric = ApiCalls | ComputeTime | StorageBytes | BandwidthBytes | Tokens | Credits | Custom

  datatype UsageEvent = UsageEvent(id: nat, tenant: string, metric: Metric, value: real, at: Time)

  /** What has become of the insert of a batch. */
  datatype Status = Inserting | Persisted | Lost

  /** A batch taken off the buffer; caller is the event of the track_usage call that flushed, if one did. */
  datatype Batch = Batch(events: seq<UsageEvent>, caller: Option<UsageEvent>, status: Status)

  /** Months are numbered; a counter is kept per tenant, metric and month. */
  datatype CounterKey = CounterKey(tenant: string, metric: Metric, month: nat)

  datatype Pipeline = Pipeline(
    buffer: seq<UsageEvent>,
    counting: seq<UsageEvent>,          // track_usage calls about to increment the counter
    counters: map<CounterKey, real>,
    arrived: seq<UsageEvent>,           // history: all tracked events
    taken: seq<Batch>,                  // history: all batches, in the order they were taken
    counted: seq<UsageEvent>,           // history: events whose increment took place
    abandoned: seq<UsageEvent>)         // history: events of calls ended by an exception before that

  const START := Pipeline([], [], map[], [], [], [], [])

  datatype Event =
    | Track(e: UsageEvent)
    | Tick                              // the aggregator looks at the buffer
    | Inserted(i: nat, ok: bool)        // the insert of batch i ends
    | Counted(j: nat, month: nat, outcome: Increment)  // call j ends at the counter

  /**
   The two Redis commands of a call: both done, the increment done and the expiry raising, or the
   increment raising.
   */
  datatype Increment = Complete | Unexpired | Failed

  // ---------- Steps ----------

  /** The synchronous part of _flush_usage_buffer. */
  function Take(s: Pipeline, size: nat, caller: Option<UsageEvent>): Pipeline {
    if s.buffer == [] then s
    else if |s.buffer| <= size then s.(buffer := [], taken := s.taken + [Batch(s.buffer, caller, Inserting)])
    else s.(buffer := s.buffer[size..], taken := s.taken + [Batch(s.buffer[..size], caller, Inserting)])
  }

  /** track_usage up to its first suspension. */
  function Tracked(s: Pipeline, size: nat, e: UsageEvent): Pipeline {
    var s1 := s.(buffer := s.buffer + [e], arrived := s.arrived + [e]);
    if |s1.buffer| >= size then Take(s1, size, Some(e)) else s1.(counting := s1.counting + [e])
  }

  /** The insert of batch i returns or raises; a track_usage call behind it goes on, or ends. */
  function InsertEnds(s: Pipeline, i: nat, ok: bool): Pipeline
    requires i < |s.taken|
  {
    var b := s.taken[i];
    var s1 := s.(taken := s.taken[i := b.(status := if ok then Persisted else Lost)]);
    if ok then s1.(counting := Push(s1.counting, b.caller)) else s1.(abandoned := Push(s1.abandoned, b.caller))
  }

  function Counter(counters: map<CounterKey, real>, k: CounterKey): real {
    if k in counters then counters[k] else 0.0
  }

  /** _update_usage_counter: an increment stands even when the call is then cut short. */
  function CountEnds(s: Pipeline, j: nat, month: nat, outcome: Increment): Pipeline
    requires j < |s.counting|
  {
    var e := s.counting[j];
    var k := CounterKey(e.tenant, e.metric, month);
    var s1 := s.(counting := RemoveAt(s.counting, j));
    if outcome != Failed then s1.(counters := s1.counters[k := Counter(s1.counters, k) + e.value],
        counted := s1.counted + [e])
    else s1.(abandoned := s1.abandoned + [e])
  }

  predicate Enabled(s: Pipeline, v: Event) {
    match v
    case Inserted(i, _) => i < |s.taken| && s.taken[i].status == Inserting
    case Counted(j, _, _) => j < |s.counting|
    case _ => true
  }

  function Apply(s: Pipeline, size: nat, v: Event): Pipeline
    requires Enabled(s, v)
  {
    match v
    case Track(e) => Tracked(s, size, e)
    case Tick => Take(s, size, None)
    case Inserted(i, ok) => InsertEnds(s, i, ok)
    case Counted(j, month, outcome) => CountEnds(s, j, month, outcome)
  }

  ghost predicate Run(s: Pipeline, size: nat, vs: seq<Event>)
    decreases |vs|
  {
    vs == [] || (Enabled(s, vs[0]) && Run(Apply(s, size, vs[0]), size, vs[1..]))
  }

  ghost function End(s: Pipeline, size: nat, vs: seq<Event>): Pipeline
    requires Run(s, size, vs)
    decreases |vs|
  {
    if vs == [] then s else End(Apply(s, size, vs[0]), size, vs[1..])
  }

  // ---------- Events are conserved ----------

  function Flatten(bs: seq<Batch>): seq<UsageEvent> {
    if bs == [] then [] else Flatten(bs[..|bs| - 1]) + bs[|bs| - 1].events
  }

  ghost predicate Conserved(s: Pipeline, size: nat) {
    && s.arrived == Flatten(s.taken) + s.buffer
    && |s.buffer| < size
    && (forall b <- s.taken :: 1 <= |b.events| <= size && (b.caller.Some? ==> |b.events| == size))
  }

  lemma {:induction false} FlattenSameEvents(a: seq<Batch>, b: seq<Batch>)
    requires |a| == |b| && forall i :: 0 <= i < |a| ==> a[i].events == b[i].events
    ensures Flatten(a) == Flatten(b)
  {
    if a != [] { FlattenSameEvents(a[..|a| - 1], b[..|b| - 1]); }
  }

  lemma TakeConserves(s: Pipeline, size: nat, caller: Option<UsageEvent>)
    requires size >= 1 && s.arrived == Flatten(s.taken) + s.buffer && |s.buffer| <= size
    requires caller.Some? ==> |s.buffer| == size
    requires forall b <- s.taken :: 1 <= |b.events| <= size && (b.caller.Some? ==> |b.events| == size)
    ensures Conserved(Take(s, size, caller), size)
  {
  }

  lemma StepConserves(s: Pipeline, size: nat, v: Event)
    requires size >= 1 && Enabled(s, v) && Conserved(s, size)
    ensures Conserved(Apply(s, size, v), size)
  {
    match v
    case Track(e) =>
      var s1 := s.(buffer := s.buffer + [e], arrived := s.arrived + [e]);
      assert s1.arrived == Flatten(s1.taken) + s1.buffer;
      if |s1.buffer| >= size { TakeConserves(s1, size, Some(e)); }
    case Tick => TakeConserves(s, size, None);
    case Inserted(i, ok) => FlattenSameEvents(s.taken, InsertEnds(s, i, ok).taken);
    case Counted(j, month, outcome) =>
  }

  // ---------- Usage is conserved ----------

  /** Usage of one tenant and metric in a sequence of events. */
  function Amount(t: string, m: Metric, s: seq<UsageEvent>): real {
    if s == [] then 0.0
    else Amount(t, m, s[..|s| - 1]) + Worth(t, m, s[|s| - 1])
  }

  function Worth(t: string, m: Metric, e: UsageEvent): real {
    if e.tenant == t && e.metric == m then e.value else 0.0
  }

  function WorthOf(t: string, m: Metric, o: Option<UsageEvent>): real {
    if o.Some? then Worth(t, m, o.value) else 0.0
  }

  /** Usage in the batches of one status. */
  function Held(t: string, m: Metric, bs: seq<Batch>, status: Status): real {
    if bs == [] then 0.0
    else
      Held(t, m, bs[..|bs| - 1], status)
      + (if bs[|bs| - 1].status == status then Amount(t, m, bs[|bs| - 1].events) else 0.0)
  }

  /** Usage of the track_usage calls that flushed a batch of one status. */
  function Callers(t: string, m: Metric, bs: seq<Batch>, status: Status): real {
    if bs == [] then 0.0
    else
      Callers(t, m, bs[..|bs| - 1], status)
      + (if bs[|bs| - 1].status == status then WorthOf(t, m, bs[|bs| - 1].caller) else 0.0)
  }

  lemma {:induction false} AmountConcat(t: string, m: Metric, a: seq<UsageEvent>, b: seq<UsageEvent>)
    ensures Amount(t, m, a + b) == Amount(t, m, a) + Amount(t, m, b)
  {
    if b == [] {
      assert a + b == a;
    } else {
      assert (a + b)[..|a + b| - 1] == a + b[..|b| - 1];
      AmountConcat(t, m, a, b[..|b| - 1]);
    }
  }

  lemma AmountPush(t: string, m: Metric, s: seq<UsageEvent>, o: Option<UsageEvent>)
    ensures Amount(t, m, Push(s, o)) == Amount(t, m, s) + WorthOf(t, m, o)
  {
  }

  lemma AmountRemove(t: string, m: Metric, s: seq<UsageEvent>, j: nat)
    requires j < |s|
    ensures Amount(t, m, s) == Amount(t, m, RemoveAt(s, j)) + Worth(t, m, s[j])
  {
    assert s == Push(s[..j], Some(s[j])) + s[j + 1..];
    AmountConcat(t, m, Push(s[..j], Some(s[j])), s[j + 1..]);
    AmountPush(t, m, s[..j], Some(s[j]));
    AmountConcat(t, m, s[..j], s[j + 1..]);
  }

  lemma {:induction false} BatchesByStatus(t: string, m: Metric, bs: seq<Batch>)
    ensures Amount(t, m, Flatten(bs)) == Held(t, m, bs, Persisted) + Held(t, m, bs, Inserting) + Held(t, m, bs, Lost)
  {
    if bs != [] {
      BatchesByStatus(t, m, bs[..|bs| - 1]);
      AmountConcat(t, m, Flatten(bs[..|bs| - 1]), bs[|bs| - 1].events);
    }
  }

  lemma CallersAppend(t: string, m: Metric, bs: seq<Batch>, b: Batch, status: Status)
    ensures Callers(t, m, bs + [b], status) ==
      Callers(t, m, bs, status) + (if b.status == status then WorthOf(t, m, b.caller) else 0.0)
  {
  }

  lemma {:induction false} CallersSettled(t: string, m: Metric, bs: seq<Batch>, i: nat, end: Status, status: Status)
    requires i < |bs| && bs[i].status == Inserting && end != Inserting
    ensures Callers(t, m, bs[i := bs[i].(status := end)], status) ==
      Callers(t, m, bs, status) + (if status == end then WorthOf(t, m, bs[i].caller)
                                   else if status == Inserting then -WorthOf(t, m, bs[i].caller) else 0.0)
  {
    var cs := bs[i := bs[i].(status := end)];
    if i == |bs| - 1 {
      assert cs[..|cs| - 1] == bs[..|bs| - 1];
    } else {
      assert cs[..|cs| - 1] == bs[..|bs| - 1][i := bs[i].(status := end)];
      CallersSettled(t, m, bs[..|bs| - 1], i, end, status);
    }
  }

  /**
   Every tracked unit is counted, about to be counted, waiting for an insert, or its call was cut
   short before the counter.
   */
  ghost predicate CallsBalance(t: string, m: Metric, s: Pipeline) {
    Amount(t, m, s.arrived) ==
      Amount(t, m, s.counted) + Amount(t, m, s.counting) + Callers(t, m, s.taken, Inserting) + Amount(t, m, s.abandoned)
  }

  lemma TrackBalances(t: string, m: Metric, s: Pipeline, size: nat, e: UsageEvent)
    requires size >= 1 && CallsBalance(t, m, s)
    ensures CallsBalance(t, m, Tracked(s, size, e))
  {
    AmountPush(t, m, s.arrived, Some(e));
    AmountPush(t, m, s.counting, Some(e));
    var buffer := s.buffer + [e];
    CallersAppend(t, m, s.taken, Batch(buffer, Some(e), Inserting), Inserting);
    if |buffer| > size { CallersAppend(t, m, s.taken, Batch(buffer[..size], Some(e), Inserting), Inserting); }
  }

  lemma InsertBalances(t: string, m: Metric, s: Pipeline, i: nat, ok: bool)
    requires i < |s.taken| && s.taken[i].status == Inserting && CallsBalance(t, m, s)
    ensures CallsBalance(t, m, InsertEnds(s, i, ok))
  {
    CallersSettled(t, m, s.taken, i, if ok then Persisted else Lost, Inserting);
    AmountPush(t, m, s.counting, s.taken[i].caller);
    AmountPush(t, m, s.abandoned, s.taken[i].caller);
  }

  lemma CountBalances(t: string, m: Metric, s: Pipeline, j: nat, month: nat, outcome: Increment)
    requires j < |s.counting| && CallsBalance(t, m, s)
    ensures CallsBalance(t, m, CountEnds(s, j, month, outcome))
  {
    AmountRemove(t, m, s.counting, j);
    AmountPush(t, m, s.counted, Some(s.counting[j]));
    AmountPush(t, m, s.abandoned, Some(s.counting[j]));
  }

  lemma StepBalances(t: string, m: Metric, s: Pipeline, size: nat, v: Event)
    requires size >= 1 && Enabled(s, v) && CallsBalance(t, m, s)
    ensures CallsBalance(t, m, Apply(s, size, v))
  {
    match v
    case Track(e) => TrackBalances(t, m, s, size, e);
    case Tick =>
      CallersAppend(t, m, s.taken, Batch(s.buffer, None, Inserting), Inserting);
      if |s.buffer| > size { CallersAppend(t, m, s.taken, Batch(s.buffer[..size], None, Inserting), Inserting); }
    case Inserted(i, ok) => InsertBalances(t, m, s, i, ok);
    case Counted(j, month, outcome) => CountBalances(t, m, s, j, month, outcome);
  }

  // ---------- Counters ----------

  /** The counters of a tenant and metric, summed over the first n months. */
  function OverMonths(counters: map<CounterKey, real>, t: string, m: Metric, n: nat): real {
    if n == 0 then 0.0 else OverMonths(counters, t, m, n - 1) + Counter(counters, CounterKey(t, m, n - 1))
  }

  ghost predicate CountersCover(t: string, m: Metric, s: Pipeline) {
    forall n: nat :: (forall k <- s.counters :: k.month < n) ==>
        OverMonths(s.counters, t, m, n) == Amount(t, m, s.counted)
  }

  lemma {:induction false} OneCounterMore(counters: map<CounterKey, real>, k: CounterKey, x: real, t: string,
      m: Metric, n: nat)
    ensures OverMonths(counters[k := Counter(counters, k) + x], t, m, n) ==
      OverMonths(counters, t, m, n) + (if k.tenant == t && k.metric == m && k.month < n then x else 0.0)
  {
    if n > 0 { OneCounterMore(counters, k, x, t, m, n - 1); }
  }

  lemma CountCovers(t: string, m: Metric, s: Pipeline, j: nat, month: nat, outcome: Increment, n: nat)
    requires j < |s.counting| && outcome != Failed && CountersCover(t, m, s)
    requires forall k <- CountEnds(s, j, month, outcome).counters :: k.month < n
    ensures OverMonths(CountEnds(s, j, month, outcome).counters, t, m, n) == Amount(t, m, CountEnds(s, j,
        month, outcome).counted)
  {
    var e := s.counting[j];
    var k := CounterKey(e.tenant, e.metric, month);
    var counters := s.counters[k := Counter(s.counters, k) + e.value];
    assert CountEnds(s, j, month, outcome).counters == counters;
    assert k in counters && forall x <- s.counters :: x in counters;
    OneCounterMore(s.counters, k, e.value, t, m, n);
    AmountPush(t, m, s.counted, Some(e));
  }

  lemma StepCounters(t: string, m: Metric, s: Pipeline, size: nat, v: Event)
    requires Enabled(s, v) && CountersCover(t, m, s)
    ensures CountersCover(t, m, Apply(s, size, v))
  {
    if v.Counted? && v.outcome != Failed {
      forall n: nat | forall x <- CountEnds(s, v.j, v.month, v.outcome).counters :: x.month < n
        ensures OverMonths(CountEnds(s, v.j, v.month, v.outcome).counters, t, m, n) == Amount(t, m,
            CountEnds(s, v.j, v.month, v.outcome).counted)
      {
        CountCovers(t, m, s, v.j, v.month, v.outcome, n);
      }
    } else {
      assert Apply(s, size, v).counters == s.counters && Apply(s, size, v).counted == s.counted;
    }
  }

  // ---------- Every run ----------

  lemma {:induction false} RunKeeps(t: string, m: Metric, s: Pipeline, size: nat, vs: seq<Event>)
    requires size >= 1 && Run(s, size, vs) && Conserved(s, size) && CallsBalance(t, m, s) && CountersCover(t, m, s)
    ensures Conserved(End(s, size, vs), size) && CallsBalance(t, m, End(s, size, vs)) &&
        CountersCover(t, m, End(s, size, vs))
    decreases |vs|
  {
    if vs != [] {
      StepConserves(s, size, vs[0]);
      StepBalances(t, m, s, size, vs[0]);
      StepCounters(t, m, s, size, vs[0]);
      RunKeeps(t, m, Apply(s, size, vs[0]), size, vs[1..]);
    }
  }

  lemma {:induction false} CountersOfNothing(t: string, m: Metric, n: nat)
    ensures OverMonths(map[], t, m, n) == 0.0
  {
    if n > 0 { CountersOfNothing(t, m, n - 1); }
  }

  lemma StartKeeps(t: string, m: Metric, size: nat)
    requires size >= 1
    ensures Conserved(START, size) && CallsBalance(t, m, START) && CountersCover(t, m, START)
  {
    forall n: nat ensures OverMonths(map[], t, m, n) == 0.0 { CountersOfNothing(t, m, n); }
  }

  /**
   At every point of every interleaving: the arrivals are the batches taken so far, in
   order, followed by the buffer; a batch has at most buffer_size events, exactly that
   many when a track_usage call flushed it; and the buffer stays below buffer_size.
   */
  lemma EventsConserved(size: nat, vs: seq<Event>)
    requires size >= 1 && Run(START, size, vs)
    ensures Conserved(End(START, size, vs), size)
  {
    StartKeeps("", ApiCalls, size);
    RunKeeps("", ApiCalls, START, size, vs);
  }

  /**
   The counter against the durable log, at every point of every interleaving.  What the
   counter is short of is in calls still going or cut short before it; what the log is short of is
   in batches being inserted or lost, and in the buffer.
   */
  lemma CounterAndLogBalance(t: string, m: Metric, size: nat, vs: seq<Event>, n: nat)
    requires size >= 1 && Run(START, size, vs)
    requires forall k <- End(START, size, vs).counters :: k.month < n
    ensures var s := End(START, size, vs);
      OverMonths(s.counters, t, m, n)
      + Amount(t, m, s.counting) + Callers(t, m, s.taken, Inserting) + Amount(t, m, s.abandoned) ==
      Held(t, m, s.taken, Persisted) + Held(t, m, s.taken, Inserting) + Held(t, m, s.taken, Lost) + Amount(t,
          m, s.buffer)
  {
    StartKeeps(t, m, size);
    RunKeeps(t, m, START, size, vs);
    var s := End(START, size, vs);
    AmountConcat(t, m, Flatten(s.taken), s.buffer);
    BatchesByStatus(t, m, s.taken);
  }

  lemma {:induction false} NothingHeld(t: string, m: Metric, bs: seq<Batch>, status: Status)
    requires forall b <- bs :: b.status != status
    ensures Held(t, m, bs, status) == 0.0
  {
    if bs != [] { NothingHeld(t, m, bs[..|bs| - 1], status); }
  }

  lemma {:induction false} NobodyWaiting(t: string, m: Metric, bs: seq<Batch>)
    requires forall b <- bs :: b.status == Inserting ==> b.caller == None
    ensures Callers(t, m, bs, Inserting) == 0.0
  {
    if bs != [] { NobodyWaiting(t, m, bs[..|bs| - 1]); }
  }

  /**
   When no insert has failed and no track_usage call is midway or was cut short before counting, the
   counter equals what is persisted, plus what periodic flushes are inserting, plus what
   is still in the buffer.
   */
  lemma CounterAgreesWithLog(t: string, m: Metric, size: nat, vs: seq<Event>, n: nat)
    requires size >= 1 && Run(START, size, vs)
    requires forall k <- End(START, size, vs).counters :: k.month < n
    requires End(START, size, vs).counting == [] && End(START, size, vs).abandoned == []
    requires forall b <- End(START, size, vs).taken :: b.status != Lost && (b.status == Inserting ==> b.caller == None)
    ensures var s := End(START, size, vs);
      OverMonths(s.counters, t, m, n) ==
      Held(t, m, s.taken, Persisted) + Held(t, m, s.taken, Inserting) + Amount(t, m, s.buffer)
  {
    CounterAndLogBalance(t, m, size, vs, n);
    NothingHeld(t, m, End(START, size, vs).taken, Lost);
    NobodyWaiting(t, m, End(START, size, vs).taken);
  }

  // ---------- The events of a run tell its outcome ----------

  /** What v adds to counter k: the value of the call that ends there, in the month of its increment. */
  function AddedBy(s: Pipeline, v: Event, k: CounterKey): real
    requires Enabled(s, v)
  {
    if v.Counted? && v.outcome != Failed && v.month == k.month then Worth(k.tenant, k.metric, s.counting[v.j]) else 0.0
  }

  /** What v takes from the counters by an increment that raises. */
  function MissedBy(s: Pipeline, v: Event, t: string, m: Metric): real
    requires Enabled(s, v)
  {
    if v.Counted? && v.outcome == Failed then Worth(t, m, s.counting[v.j]) else 0.0
  }

  ghost function Added(s: Pipeline, size: nat, vs: seq<Event>, k: CounterKey): real
    requires Run(s, size, vs)
    decreases |vs|
  {
    if vs == [] then 0.0 else AddedBy(s, vs[0], k) + Added(Apply(s, size, vs[0]), size, vs[1..], k)
  }

  ghost function Missed(s: Pipeline, size: nat, vs: seq<Event>, t: string, m: Metric): real
    requires Run(s, size, vs)
    decreases |vs|
  {
    if vs == [] then 0.0 else MissedBy(s, vs[0], t, m) + Missed(Apply(s, size, vs[0]), size, vs[1..], t, m)
  }

  lemma {:induction false} CounterGrows(s: Pipeline, size: nat, vs: seq<Event>, k: CounterKey)
    requires Run(s, size, vs)
    ensures Counter(End(s, size, vs).counters, k) == Counter(s.counters, k) + Added(s, size, vs, k)
    decreases |vs|
  {
    if vs != [] { CounterGrows(Apply(s, size, vs[0]), size, vs[1..], k); }
  }

  /**
   On every run, the counter of a tenant, metric and month is the sum of the values whose
   increment took place in that month.
   */
  lemma CounterIsMonthsUsage(size: nat, vs: seq<Event>, t: string, m: Metric, month: nat)
    requires Run(START, size, vs)
    ensures Counter(End(START, size, vs).counters, CounterKey(t, m, month)) ==
      Added(START, size, vs, CounterKey(t, m, month))
  {
    CounterGrows(START, size, vs, CounterKey(t, m, month));
  }

  lemma StepAbandons(t: string, m: Metric, s: Pipeline, size: nat, v: Event)
    requires Enabled(s, v)
    ensures var r := Apply(s, size, v);
      Amount(t, m, r.abandoned) - Callers(t, m, r.taken, Lost) ==
      Amount(t, m, s.abandoned) - Callers(t, m, s.taken, Lost) + MissedBy(s, v, t, m)
  {
    match v
    case Track(e) =>
      var buffer := s.buffer + [e];
      CallersAppend(t, m, s.taken, Batch(buffer, Some(e), Inserting), Lost);
      if |buffer| > size { CallersAppend(t, m, s.taken, Batch(buffer[..size], Some(e), Inserting), Lost); }
    case Tick =>
      CallersAppend(t, m, s.taken, Batch(s.buffer, None, Inserting), Lost);
      if |s.buffer| > size { CallersAppend(t, m, s.taken, Batch(s.buffer[..size], None, Inserting), Lost); }
    case Inserted(i, ok) =>
      CallersSettled(t, m, s.taken, i, if ok then Persisted else Lost, Lost);
      AmountPush(t, m, s.abandoned, s.taken[i].caller);
    case Counted(j, month, outcome) => AmountPush(t, m, s.abandoned, Some(s.counting[j]));
  }

  lemma {:induction false} RunAbandons(t: string, m: Metric, s: Pipeline, size: nat, vs: seq<Event>)
    requires Run(s, size, vs)
    ensures var r := End(s, size, vs);
      Amount(t, m, r.abandoned) - Callers(t, m, r.taken, Lost) ==
      Amount(t, m, s.abandoned) - Callers(t, m, s.taken, Lost) + Missed(s, size, vs, t, m)
    decreases |vs|
  {
    if vs != [] {
      StepAbandons(t, m, s, size, vs[0]);
      RunAbandons(t, m, Apply(s, size, vs[0]), size, vs[1..]);
    }
  }

  /** On every run, the usage of calls cut short is that of failed increments and of the callers of lost batches. */
  lemma AbandonedIs(t: string, m: Metric, size: nat, vs: seq<Event>)
    requires Run(START, size, vs)
    ensures var s := End(START, size, vs);
      Amount(t, m, s.abandoned) == Callers(t, m, s.taken, Lost) + Missed(START, size, vs, t, m)
  {
    RunAbandons(t, m, START, size, vs);
  }

  /** The fate of a batch not yet settled is told by the events to come. */
  lemma {:induction false} FateFrom(s: Pipeline, size: nat, vs: seq<Event>, i: nat)
    requires Run(s, size, vs) && i < |End(s, size, vs).taken|
    requires i < |s.taken| ==> s.taken[i].status == Inserting
    ensures End(s, size, vs).taken[i].status ==
      if Inserted(i, true) in vs then Persisted else if Inserted(i, false) in vs then Lost else Inserting
    ensures !(Inserted(i, true) in vs && Inserted(i, false) in vs)
    decreases |vs|
  {
    if vs != [] {
      var r := Apply(s, size, vs[0]);
      assert forall x :: x in vs <==> x == vs[0] || x in vs[1..];
      if i < |r.taken| && r.taken[i].status != Inserting {
        assert vs[0] == Inserted(i, true) || vs[0] == Inserted(i, false);
        Settled(r, size, vs[1..], i);
      } else {
        FateFrom(r, size, vs[1..], i);
      }
    }
  }

  lemma {:induction false} Settled(s: Pipeline, size: nat, vs: seq<Event>, i: nat)
    requires Run(s, size, vs) && i < |s.taken| && s.taken[i].status != Inserting
    ensures i < |End(s, size, vs).taken| && End(s, size, vs).taken[i] == s.taken[i]
    ensures Inserted(i, true) !in vs && Inserted(i, false) !in vs
    decreases |vs|
  {
    if vs != [] {
      assert forall x :: x in vs <==> x == vs[0] || x in vs[1..];
      Settled(Apply(s, size, vs[0]), size, vs[1..], i);
    }
  }

  /** On every run, a batch is persisted exactly when its insert returned and lost exactly when it raised. */
  lemma BatchFateIff(size: nat, vs: seq<Event>, i: nat)
    requires Run(START, size, vs) && i < |End(START, size, vs).taken|
    ensures End(START, size, vs).taken[i].status == Persisted <==> Inserted(i, true) in vs
    ensures End(START, size, vs).taken[i].status == Lost <==> Inserted(i, false) in vs
  {
    FateFrom(START, size, vs, i);
  }
}
