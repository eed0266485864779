/** The BillingService object: the usage buffer updated in place, and the loops that price usage. */
module BillingServer {
  import opened Prelude
  import opened UsagePipeline
  import opened Pricing

  class BillingService {
    var usageBuffer: seq<UsageEvent>
    var counters: map<CounterKey, real>  // usage:{tenant}:{metric}:{month} in Redis
    const bufferSize: nat
    ghost var state: Pipeline

    ghost predicate Valid()
      reads this
    {
      bufferSize >= 1 && Conserved(state, bufferSize) && usageBuffer == state.buffer && counters == state.counters
    }

    constructor (size: nat)
      requires size >= 1
      ensures Valid() && state == START && bufferSize == size
    {
      usageBuffer, counters, bufferSize, state := [], map[], size, START;
    }

    /** track_usage up to its first suspension: the batch to insert, or None when it goes on to the counter. */
    method TrackUsage(e: UsageEvent) returns (events: Option<seq<UsageEvent>>)
      requires Valid()
      modifies this`usageBuffer, this`state
      ensures Valid() && state == Tracked(old(state), bufferSize, e)
      ensures events.Some? <==> |old(usageBuffer)| + 1 == bufferSize
      ensures events.None? ==> usageBuffer == old(usageBuffer) + [e] && state.counting == old(state.counting) + [e]
      ensures events.Some? ==>
        && events.value == old(usageBuffer) + [e] && usageBuffer == []
        && state.taken == old(state.taken) + [Batch(events.value, Some(e), Inserting)]
    {
      StepConserves(state, bufferSize, Track(e));
      ghost var next := Tracked(state, bufferSize, e);
      events := None;
      usageBuffer := usageBuffer + [e];
      if |usageBuffer| >= bufferSize {
        events := FlushUsageBuffer();
        assert events.value + [] == events.value;
      }
      state := next;
    }

    /** The synchronous part of _flush_usage_buffer; slices past the end are cut short, as in Python. */
    method FlushUsageBuffer() returns (events: Option<seq<UsageEvent>>)
      requires bufferSize >= 1
      modifies this`usageBuffer
      ensures old(usageBuffer) == [] ==> events == None && usageBuffer == []
      ensures old(usageBuffer) != [] ==>
        events.Some? && old(usageBuffer) == events.value + usageBuffer &&
        |events.value| == (if |old(usageBuffer)| <= bufferSize then |old(usageBuffer)| else bufferSize)
    {
      if usageBuffer == [] {
        return None;
      }
      var end := if |usageBuffer| <= bufferSize then |usageBuffer| else bufferSize;
      events := Some(usageBuffer[..end]);
      usageBuffer := usageBuffer[end..];
    }

    /** The flush of _usage_aggregator. */
    method AggregatorTick() returns (events: Option<seq<UsageEvent>>)
      requires Valid()
      modifies this`usageBuffer, this`state
      ensures Valid() && state == Take(old(state), bufferSize, None)
      ensures events.Some? <==> old(usageBuffer) != []
      ensures events.Some? ==> events.value == old(usageBuffer)
      ensures usageBuffer == []
    {
      StepConserves(state, bufferSize, Tick);
      ghost var next := Take(state, bufferSize, None);
      events := None;
      if usageBuffer != [] {
        events := FlushUsageBuffer();
      }
      state := next;
    }

    /** _update_usage_counter; false when it raises, which may be after the increment. */
    method UpdateUsageCounter(ghost j: nat, e: UsageEvent, month: nat, incrementOk: bool, expireOk: bool)
        returns (ok: bool)
      requires Valid() && j < |state.counting| && state.counting[j] == e
      modifies this`counters, this`state
      ensures Valid() && ok == (incrementOk && expireOk)
      ensures counters == if incrementOk
        then old(counters)[CounterKey(e.tenant, e.metric, month) :=
          (if CounterKey(e.tenant, e.metric, month) in old(counters)
           then old(counters)[CounterKey(e.tenant, e.metric, month)] else 0.0) + e.value]
        else old(counters)
      ensures state == CountEnds(old(state), j, month,
        if !incrementOk then Failed else if !expireOk then Unexpired else Complete)
    {
      ghost var outcome := if !incrementOk then Failed else if !expireOk then Unexpired else Complete;
      StepConserves(state, bufferSize, Counted(j, month, outcome));
      if incrementOk {
        var key := CounterKey(e.tenant, e.metric, month);
        counters := counters[key := Counter(counters, key) + e.value];
      }
      state := CountEnds(state, j, month, outcome);
      ok := incrementOk && expireOk;
    }

    /** _calculate_usage_cost: the loop over the rows finds the cost whatever their order. */
    method CalculateUsageCost(rows: seq<(Metric, real)>, tier: Option<Tier>) returns (totalCost: real)
      requires Grouped(rows)
      ensures totalCost == if tier.Some? then Cost(tier.value, UsageOf(rows)) else 0.0
      ensures tier.Some? ==> forall i :: 0 <= i < |rows| ==>
        IsPrice(tier.value, rows[i].0, rows[i].1,
                totalCost - Cost(tier.value, AtQuota(tier.value, UsageOf(rows), rows[i].0)))
    {
      if tier.None? {
        return 0.0;
      }
      totalCost := 0.0;
      for i := 0 to |rows|
        invariant totalCost == SumCharges(tier.value, rows[..i])
      {
        assert rows[..i + 1][..i] == rows[..i];
        var metric, value := rows[i].0, rows[i].1;
        if value - Included(tier.value, metric) > 0.0 && metric in tier.value.rates {
          totalCost := totalCost + (value - Included(tier.value, metric)) * tier.value.rates[metric];
        }
      }
      assert rows[..|rows|] == rows;
      SumChargesIsCost(tier.value, rows);
      forall i | 0 <= i < |rows|
        ensures IsPrice(tier.value, rows[i].0, rows[i].1,
                        totalCost - Cost(tier.value, AtQuota(tier.value, UsageOf(rows), rows[i].0)))
      {
        UsageOfRow(rows, i);
        UsagePrice(tier.value, UsageOf(rows), rows[i].0);
      }
    }

    /** generate_invoice up to its INSERT; None when it raises: no subscription, or a plan without a tier. */
    method GenerateInvoice(subscription: Option<(Plan, Period)>, u: Usage) returns (bill: Option<Bill>)
      ensures bill.None? <==> subscription.None? || TierOf(subscription.value.0).None?
      ensures bill.Some? ==>
        var tier := TierOf(subscription.value.0).value;
        && Itemised(bill.value.lines, tier, subscription.value.1, u)
        && bill.value.subtotal == SumLines(bill.value.lines) == Subtotal(tier, subscription.value.1, u)
        && PricesUsage(tier, subscription.value.1, u, bill.value.subtotal)
        && bill.value.subtotal <= BasePrice(tier, subscription.value.1) + Cost(tier, u)
        && bill.value.total == bill.value.subtotal + bill.value.tax &&
            10.0 * bill.value.tax == bill.value.subtotal >= 0.0
        && -1 <= Hundredths(bill.value.total) - (Hundredths(bill.value.subtotal) + Hundredths(bill.value.tax)) <= 1
    {
      if subscription.None? {
        return None;  // "No active subscription"
      }
      var tier := TierOf(subscription.value.0);
      TiersPriced(subscription.value.0);
      if tier.None? {
        return None;  // AttributeError
      }
      var lines, subtotal := InvoiceLines(tier.value, subscription.value.1, u);
      SubtotalFacts(tier.value, subscription.value.1, u);
      var tax := subtotal * 0.10;
      return Some(Bill(lines, subtotal, tax, subtotal + tax));
    }

    /** The line items of generate_invoice; their amounts make up the subtotal. */
    method InvoiceLines(tier: Tier, period: Period, u: Usage) returns (lines: seq<Line>, subtotal: real)
      requires Priced(tier)
      ensures Itemised(lines, tier, period, u)
      ensures subtotal == SumLines(lines) == Subtotal(tier, period, u)
    {
      var basePrice := BasePrice(tier, period);
      var apiCharge := OverageCharge(tier, ApiCalls, Trunc(Used(u, ApiCalls)) as real);
      var computeCharge := OverageCharge(tier, ComputeTime, Used(u, ComputeTime));
      lines, subtotal := AddLines(tier.baseMonthly > 0.0, basePrice, apiCharge, computeCharge);
      LinesItemised(tier, period, u);
      LinesSum(tier.baseMonthly > 0.0, basePrice, apiCharge, computeCharge);
    }

    /** The accumulation of lines and subtotal; a line without overage is left out. */
    method AddLines(hasBase: bool, basePrice: real, apiCharge: real, computeCharge: real)
      returns (lines: seq<Line>, subtotal: real)
      requires apiCharge >= 0.0 && computeCharge >= 0.0 && (!hasBase ==> basePrice == 0.0)
      ensures lines == Lines(hasBase, basePrice, apiCharge, computeCharge)
      ensures subtotal == basePrice + apiCharge + computeCharge
    {
      lines, subtotal := [], 0.0;
      if hasBase {
        lines := lines + [BaseFee(basePrice)];
        subtotal := subtotal + basePrice;
      }
      if apiCharge > 0.0 {
        lines := lines + [ApiOverage(apiCharge)];
        subtotal := subtotal + apiCharge;
      }
      if computeCharge > 0.0 {
        lines := lines + [ComputeOverage(computeCharge)];
        subtotal := subtotal + computeCharge;
      }
    }

    /** The amount of an overage line; zero when there is none. */
    method OverageCharge(tier: Tier, m: Metric, value: real) returns (amount: real)
      requires Priced(tier)
      ensures amount == Charge(tier, m, value) && amount >= 0.0
    {
      ChargeSign(tier, m, value);
      amount := 0.0;
      if m in tier.rates {
        var overage := value - Included(tier, m);
        if overage > 0.0 {
          amount := overage * tier.rates[m];
        }
      }
    }
  }
}
