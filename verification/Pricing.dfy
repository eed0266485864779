/**
 Usage cost and invoices.  Overage is priced in two places, by _calculate_usage_cost over
 all metrics and by generate_invoice over two of them; the lemmas compare the two, bound
 the effect of rounding, and say what splitting a billing period does to the cost.
 */
module Pricing {
  import opened Prelude
  import opened UsagePipeline

  datatype Tier = Tier(
    baseMonthly: real,
    baseYearly: real,
    included: map<Metric, nat>,
    rates: map<Metric, real>)

  const GB := 1024 * 1024 * 1024

  const FREE := Tier(0.0, 0.0, map[ApiCalls := 1000, ComputeTime := 1, StorageBytes := GB], map[])
  const STARTER := Tier(4900.0, 49000.0,
    map[ApiCalls := 100000, ComputeTime := 100, StorageBytes := 50 * GB],
    map[ApiCalls := 0.05, ComputeTime := 50.0, StorageBytes := 10.0])
  const PROFESSIONAL := Tier(19900.0, 199000.0,
    map[ApiCalls := 1000000, ComputeTime := 500, StorageBytes := 500 * GB],
    map[ApiCalls := 0.03, ComputeTime := 40.0, StorageBytes := 8.0])
  const ENTERPRISE := Tier(99900.0, 999000.0,
    map[ApiCalls := 10000000, ComputeTime := 2000, StorageBytes := 5000 * GB],
    map[ApiCalls := 0.02, ComputeTime := 30.0, StorageBytes := 5.0])

  datatype Plan = Free | Starter | Professional | Enterprise | CustomPlan

  /** pricing_tiers.get(plan): there is no custom tier. */
  function TierOf(p: Plan): Option<Tier> {
    match p
    case Free => Some(FREE)
    case Starter => Some(STARTER)
    case Professional => Some(PROFESSIONAL)
    case Enterprise => Some(ENTERPRISE)
    case CustomPlan => None
  }

  /** All rates are positive; it is so in the four tiers. */
  predicate Priced(tier: Tier) {
    forall m <- tier.rates :: tier.rates[m] > 0.0
  }

  lemma TiersPriced(p: Plan)
    ensures var t := TierOf(p); t.Some? ==> Priced(t.value) && t.value.baseMonthly >= 0.0 && t.value.baseYearly >= 0.0
  {
  }

  // ---------- Cost of usage ----------

  type Usage = map<Metric, real>

  function Used(u: Usage, m: Metric): real {
    if m in u then u[m] else 0.0
  }

  function Included(tier: Tier, m: Metric): real {
    if m in tier.included then tier.included[m] as real else 0.0
  }

  /** The overage charge of one metric. */
  function Charge(tier: Tier, m: Metric, value: real): real {
    if m in tier.rates && value > Included(tier, m) then (value - Included(tier, m)) * tier.rates[m] else 0.0
  }

  /** What the usage costs, metric by metric. */
  function Cost(tier: Tier, u: Usage): real {
    Charge(tier, ApiCalls, Used(u, ApiCalls)) + Charge(tier, ComputeTime, Used(u, ComputeTime)) + OtherCost(tier, u)
  }

  /** The charges no invoice line exists for. */
  function OtherCost(tier: Tier, u: Usage): real {
    Charge(tier, StorageBytes, Used(u, StorageBytes)) + Charge(tier, BandwidthBytes, Used(u, BandwidthBytes))
    + Charge(tier, Tokens, Used(u, Tokens)) + Charge(tier, Credits, Used(u, Credits))
    + Charge(tier, Custom, Used(u, Custom))
  }

  lemma ProductNonNegative(x: real, y: real)
    requires x >= 0.0 && y >= 0.0
    ensures x * y >= 0.0
  {
  }

  lemma ChargeSign(tier: Tier, m: Metric, value: real)
    requires Priced(tier)
    ensures Charge(tier, m, value) >= 0.0
    ensures Charge(tier, m, value) == 0.0 <==> m !in tier.rates || value <= Included(tier, m)
  {
    if m in tier.rates && value > Included(tier, m) {
      ProductStrict(0.0, value - Included(tier, m), tier.rates[m]);
    }
  }

  lemma EveryMetric(m: Metric)
    ensures m in {ApiCalls, ComputeTime, StorageBytes, BandwidthBytes, Tokens, Credits, Custom}
  {
  }

  /** Nothing is charged exactly when every priced metric is within its quota. */
  lemma CostZeroIffWithinQuota(tier: Tier, u: Usage)
    requires Priced(tier)
    ensures Cost(tier, u) >= 0.0
    ensures Cost(tier, u) == 0.0 <==> forall m <- tier.rates :: Used(u, m) <= Included(tier, m)
  {
    forall m ensures Charge(tier, m, Used(u, m)) >= 0.0
      && (Charge(tier, m, Used(u, m)) == 0.0 <==> m !in tier.rates || Used(u, m) <= Included(tier, m)) {
      ChargeSign(tier, m, Used(u, m));
    }
    if Cost(tier, u) == 0.0 {
      forall m <- tier.rates ensures Used(u, m) <= Included(tier, m) {
        EveryMetric(m);
      }
    }
  }

  /**
   The marginal price: above the quota a unit costs the metric's rate, up to the quota nothing,
   and a metric without a rate nothing ever.
   */
  lemma MarginalPrice(tier: Tier, u: Usage, m: Metric, x: real, y: real)
    ensures var quota := if m in tier.included then tier.included[m] as real else 0.0;
      var more := Cost(tier, u[m := y]) - Cost(tier, u[m := x]);
      && (m in tier.rates && x >= quota && y >= quota ==> more == (y - x) * tier.rates[m])
      && (m in tier.rates && x <= quota && y <= quota ==> more == 0.0)
      && (m !in tier.rates ==> more == 0.0)
  {
    CostButOne(tier, u, m, x, y);
    ChargeMargin(tier, m, x, y);
  }

  lemma ChargeAbove(tier: Tier, m: Metric, x: real)
    requires m in tier.rates && x >= Included(tier, m)
    ensures Charge(tier, m, x) == (x - Included(tier, m)) * tier.rates[m]
  {
    if x == Included(tier, m) {
      assert x - Included(tier, m) == 0.0;
      assert 0.0 * tier.rates[m] == 0.0;
    }
  }

  lemma ChargeMargin(tier: Tier, m: Metric, x: real, y: real)
    ensures var more := Charge(tier, m, y) - Charge(tier, m, x);
      && (m in tier.rates && x >= Included(tier, m) && y >= Included(tier, m) ==> more == (y - x) * tier.rates[m])
      && ((x <= Included(tier, m) && y <= Included(tier, m)) || m !in tier.rates ==> more == 0.0)
  {
    if m in tier.rates && x >= Included(tier, m) && y >= Included(tier, m) {
      var q, rate := Included(tier, m), tier.rates[m];
      ChargeAbove(tier, m, x);
      ChargeAbove(tier, m, y);
      assert (y - q) * rate - (x - q) * rate == (y - x) * rate;
    }
  }

  lemma CostButOne(tier: Tier, u: Usage, m: Metric, x: real, y: real)
    ensures Cost(tier, u[m := x]) - Charge(tier, m, x) == Cost(tier, u[m := y]) - Charge(tier, m, y)
  {
    EveryMetric(m);
  }

  /** No usage costs nothing, so the marginal price determines the cost. */
  lemma NoUsageCostsNothing(tier: Tier)
    ensures Cost(tier, map[]) == 0.0
  {
    forall m ensures Charge(tier, m, 0.0) == 0.0 { ChargeOfNothing(tier, m); }
  }

  // ---------- The loop of _calculate_usage_cost ----------

  /** The rows of the usage query: one value per metric, in any order. */
  function UsageOf(rows: seq<(Metric, real)>): Usage {
    if rows == [] then map[] else UsageOf(rows[..|rows| - 1])[rows[|rows| - 1].0 := rows[|rows| - 1].1]
  }

  predicate Grouped(rows: seq<(Metric, real)>) {
    forall i, j :: 0 <= i < j < |rows| ==> rows[i].0 != rows[j].0
  }

  lemma {:induction false} UsageOfKeys(rows: seq<(Metric, real)>, m: Metric)
    ensures m in UsageOf(rows) <==> exists i :: 0 <= i < |rows| && rows[i].0 == m
  {
    if rows != [] {
      UsageOfKeys(rows[..|rows| - 1], m);
      if m in UsageOf(rows[..|rows| - 1]) {
        var i :| 0 <= i < |rows| - 1 && rows[..|rows| - 1][i].0 == m;
        assert rows[i].0 == m;
      }
      if i :| 0 <= i < |rows| && rows[i].0 == m {
        if i < |rows| - 1 { assert rows[..|rows| - 1][i].0 == m; }
      }
    }
  }

  lemma ChargeOfNothing(tier: Tier, m: Metric)
    ensures Charge(tier, m, 0.0) == 0.0
  {
  }

  lemma CostOfOneMore(tier: Tier, u: Usage, m: Metric, value: real)
    requires m !in u
    ensures Cost(tier, u[m := value]) == Cost(tier, u) + Charge(tier, m, value)
  {
  }

  /** What the loop of _calculate_usage_cost adds up. */
  function SumCharges(tier: Tier, rows: seq<(Metric, real)>): real {
    if rows == [] then 0.0
    else SumCharges(tier, rows[..|rows| - 1]) + Charge(tier, rows[|rows| - 1].0, rows[|rows| - 1].1)
  }

  /** The sum is the cost of the usage, whatever the order of the rows. */
  lemma {:induction false} SumChargesIsCost(tier: Tier, rows: seq<(Metric, real)>)
    requires Grouped(rows)
    ensures SumCharges(tier, rows) == Cost(tier, UsageOf(rows))
  {
    if rows == [] {
      forall m ensures Charge(tier, m, 0.0) == 0.0 { ChargeOfNothing(tier, m); }
    } else {
      var front, last := rows[..|rows| - 1], rows[|rows| - 1];
      SumChargesIsCost(tier, front);
      UsageOfKeys(front, last.0);
      CostOfOneMore(tier, UsageOf(front), last.0, last.1);
    }
  }

  lemma {:induction false} UsageOfRow(rows: seq<(Metric, real)>, i: nat)
    requires Grouped(rows) && i < |rows|
    ensures rows[i].0 in UsageOf(rows) && UsageOf(rows)[rows[i].0] == rows[i].1
  {
    if i < |rows| - 1 { UsageOfRow(rows[..|rows| - 1], i); }
  }

  /** The usage with metric m at its quota. */
  function AtQuota(tier: Tier, u: Usage, m: Metric): Usage {
    u[m := if m in tier.included then tier.included[m] as real else 0.0]
  }

  /** The price of value: what lies beyond the quota, at the metric's rate. */
  predicate IsPrice(tier: Tier, m: Metric, value: real, price: real) {
    var over := value - if m in tier.included then tier.included[m] as real else 0.0;
    price == if m in tier.rates && over > 0.0 then over * tier.rates[m] else 0.0
  }

  lemma ChargeIsPrice(tier: Tier, m: Metric, value: real)
    ensures IsPrice(tier, m, value, Charge(tier, m, value))
  {
  }

  /** Every metric adds its price to the cost of the rest. */
  lemma UsagePrice(tier: Tier, u: Usage, m: Metric)
    requires m in u
    ensures IsPrice(tier, m, u[m], Cost(tier, u) - Cost(tier, AtQuota(tier, u, m)))
  {
    var q := Included(tier, m);
    CostButOne(tier, u, m, q, u[m]);
    assert u[m := u[m]] == u && AtQuota(tier, u, m) == u[m := q];
    assert Charge(tier, m, q) == 0.0;
    ChargeIsPrice(tier, m, u[m]);
  }

  // ---------- Invoices ----------

  datatype Period = Monthly | Quarterly | Yearly

  datatype Line = BaseFee(amount: real) | ApiOverage(amount: real) | ComputeOverage(amount: real)

  /** The amounts generate_invoice inserts. */
  datatype Bill = Bill(lines: seq<Line>, subtotal: real, tax: real, total: real)

  /** int(..) of a decimal: towards zero. */
  function Trunc(x: real): int {
    if x >= 0.0 then x.Floor else -((-x).Floor)
  }

  function BasePrice(tier: Tier, period: Period): real {
    if tier.baseMonthly > 0.0 then
      if period == Monthly then tier.baseMonthly else tier.baseYearly / 12.0
    else 0.0
  }

  /** The overage part of an invoice: whole API calls, and compute time. */
  function InvoiceOverage(tier: Tier, u: Usage): real {
    Charge(tier, ApiCalls, Trunc(Used(u, ApiCalls)) as real) + Charge(tier, ComputeTime, Used(u, ComputeTime))
  }

  function Subtotal(tier: Tier, period: Period, u: Usage): real {
    BasePrice(tier, period) + InvoiceOverage(tier, u)
  }

  lemma SubtotalNonNegative(tier: Tier, period: Period, u: Usage)
    requires Priced(tier) && tier.baseYearly >= 0.0
    ensures Subtotal(tier, period, u) >= 0.0
  {
  }

  /** int(..) drops the fraction, whatever the sign. */
  lemma TruncTowardsZero(x: real)
    ensures x >= 0.0 ==> 0.0 <= Trunc(x) as real <= x < Trunc(x) as real + 1.0
    ensures x <= 0.0 ==> Trunc(x) as real - 1.0 < x <= Trunc(x) as real <= 0.0
  {
  }

  /** The base fee alone: the monthly price, or a twelfth of the yearly price for any other period. */
  lemma BaseFeeAlone(tier: Tier, period: Period)
    ensures tier.baseMonthly <= 0.0 ==> Subtotal(tier, period, map[]) == 0.0
    ensures tier.baseMonthly > 0.0 && period == Monthly ==> Subtotal(tier, period, map[]) == tier.baseMonthly
    ensures tier.baseMonthly > 0.0 && period != Monthly ==> 12.0 * Subtotal(tier, period, map[]) == tier.baseYearly
  {
    ChargeOfNothing(tier, ApiCalls);
    ChargeOfNothing(tier, ComputeTime);
    assert Trunc(0.0) == 0;
  }

  /** The marginal price on an invoice: whole API calls and compute time at their rates, anything else free. */
  lemma InvoiceMarginalPrice(tier: Tier, period: Period, u: Usage, m: Metric, x: real, y: real)
    ensures InvoiceMargin(tier, m, x, y, Subtotal(tier, period, u[m := y]) - Subtotal(tier, period, u[m := x]))
  {
    InvoiceButOne(tier, period, u, m, x, y);
    if m == ApiCalls {
      ApiMargin(tier, x, y);
    } else if m == ComputeTime {
      ChargeMargin(tier, m, x, y);
    }
  }

  /** more is what the invoice says for y instead of x. */
  predicate InvoiceMargin(tier: Tier, m: Metric, x: real, y: real, more: real) {
    var quota := if m in tier.included then tier.included[m] as real else 0.0;
    && (m == ComputeTime && m in tier.rates && x >= quota && y >= quota ==> more == (y - x) * tier.rates[m])
    && (m == ApiCalls && m in tier.rates && x >= quota && y >= quota ==>
          more == (y.Floor as real - x.Floor as real) * tier.rates[m])
    && (x <= quota && y <= quota ==> more == 0.0)
    && ((m != ComputeTime && m != ApiCalls) || m !in tier.rates ==> more == 0.0)
  }

  /** Every metric used has its price in the subtotal. */
  ghost predicate PricesUsage(tier: Tier, period: Period, u: Usage, subtotal: real) {
    forall m <- u ::
      InvoiceMargin(tier, m, Included(tier, m), u[m], subtotal - Subtotal(tier, period, AtQuota(tier, u, m)))
  }

  lemma InvoicePrices(tier: Tier, period: Period, u: Usage)
    ensures PricesUsage(tier, period, u, Subtotal(tier, period, u))
  {
    forall m <- u ensures InvoiceMargin(tier, m, Included(tier, m), u[m],
        Subtotal(tier, period, u) - Subtotal(tier, period, AtQuota(tier, u, m)))
    {
      InvoiceMarginalPrice(tier, period, u, m, Included(tier, m), u[m]);
      assert u[m := u[m]] == u && AtQuota(tier, u, m) == u[m := Included(tier, m)];
    }
  }

  lemma TruncAtQuota(x: real, quota: nat)
    ensures if x >= quota as real then Trunc(x) == x.Floor >= quota else Trunc(x) <= quota
  {
  }

  lemma ApiMargin(tier: Tier, x: real, y: real)
    ensures InvoiceMargin(tier, ApiCalls, x, y,
        Charge(tier, ApiCalls, Trunc(y) as real) - Charge(tier, ApiCalls, Trunc(x) as real))
  {
    var quota := if ApiCalls in tier.included then tier.included[ApiCalls] else 0;
    TruncAtQuota(x, quota);
    TruncAtQuota(y, quota);
    ChargeMargin(tier, ApiCalls, Trunc(x) as real, Trunc(y) as real);
  }

  lemma InvoiceButOne(tier: Tier, period: Period, u: Usage, m: Metric, x: real, y: real)
    ensures Subtotal(tier, period, u[m := y]) - Subtotal(tier, period, u[m := x]) ==
      if m == ApiCalls then Charge(tier, m, Trunc(y) as real) - Charge(tier, m, Trunc(x) as real)
      else if m == ComputeTime then Charge(tier, m, y) - Charge(tier, m, x)
      else 0.0
  {
  }

  lemma UnitPrice(tier: Tier, m: Metric, quota: nat, rate: real)
    requires m in tier.included && tier.included[m] == quota && m in tier.rates && tier.rates[m] == rate
    ensures Cost(tier, map[m := quota as real]) == 0.0
    ensures Cost(tier, map[m := quota as real + 1.0]) == rate
  {
    MarginalPrice(tier, map[], m, 0.0, quota as real);
    MarginalPrice(tier, map[], m, quota as real, quota as real + 1.0);
    NoUsageCostsNothing(tier);
    forall m ensures Charge(tier, m, 0.0) == 0.0 { ChargeOfNothing(tier, m); }
  }

  /** The price list: the cost of one unit beyond a quota. */
  lemma UnitPrices(u: Usage)
    ensures Cost(FREE, u) == 0.0
    ensures Cost(STARTER, map[ApiCalls := 100000.0]) == 0.0 && Cost(STARTER, map[ApiCalls := 100001.0]) == 0.05
    ensures Cost(STARTER, map[ComputeTime := 100.0]) == 0.0 && Cost(STARTER, map[ComputeTime := 101.0]) == 50.0
    ensures Cost(PROFESSIONAL, map[ApiCalls := 1000000.0]) == 0.0
    ensures Cost(PROFESSIONAL, map[ApiCalls := 1000001.0]) == 0.03
    ensures Cost(PROFESSIONAL, map[ComputeTime := 500.0]) == 0.0
    ensures Cost(PROFESSIONAL, map[ComputeTime := 501.0]) == 40.0
    ensures Cost(ENTERPRISE, map[ApiCalls := 10000000.0]) == 0.0
    ensures Cost(ENTERPRISE, map[ApiCalls := 10000001.0]) == 0.02
    ensures Cost(ENTERPRISE, map[ComputeTime := 2000.0]) == 0.0
    ensures Cost(ENTERPRISE, map[ComputeTime := 2001.0]) == 30.0
  {
    UnitPrice(STARTER, ApiCalls, 100000, 0.05);
    UnitPrice(STARTER, ComputeTime, 100, 50.0);
    UnitPrice(PROFESSIONAL, ApiCalls, 1000000, 0.03);
    UnitPrice(PROFESSIONAL, ComputeTime, 500, 40.0);
    UnitPrice(ENTERPRISE, ApiCalls, 10000000, 0.02);
    UnitPrice(ENTERPRISE, ComputeTime, 2000, 30.0);
  }

  /** The price list: the subtotal of a month without usage. */
  lemma BaseFees(u: Usage)
    ensures Subtotal(FREE, Monthly, u) == 0.0 == Subtotal(FREE, Yearly, u)
    ensures Subtotal(STARTER, Monthly, map[]) == 4900.0 && 12.0 * Subtotal(STARTER, Yearly, map[]) == 49000.0
    ensures Subtotal(PROFESSIONAL, Monthly, map[]) == 19900.0
    ensures 12.0 * Subtotal(PROFESSIONAL, Yearly, map[]) == 199000.0
    ensures Subtotal(ENTERPRISE, Monthly, map[]) == 99900.0
    ensures 12.0 * Subtotal(ENTERPRISE, Yearly, map[]) == 999000.0
  {
    forall tier: Tier, period: Period
      ensures Subtotal(tier, period, map[]) == BasePrice(tier, period)
    {
      assert Trunc(0.0) == 0;
      ChargeOfNothing(tier, ApiCalls);
      ChargeOfNothing(tier, ComputeTime);
    }
  }

  function SumLines(lines: seq<Line>): real {
    if lines == [] then 0.0 else SumLines(lines[..|lines| - 1]) + lines[|lines| - 1].amount
  }

  lemma SumLinesPush(lines: seq<Line>, l: Line)
    ensures SumLines(lines + [l]) == SumLines(lines) + l.amount
  {
  }

  lemma ProductMonotone(x: real, y: real, rate: real)
    requires x <= y && rate >= 0.0
    ensures x * rate <= y * rate
  {
    ProductNonNegative(y - x, rate);
    assert (y - x) * rate == y * rate - x * rate;
  }

  lemma ProductStrict(x: real, y: real, rate: real)
    requires x < y && rate > 0.0
    ensures x * rate < y * rate
  {
    assert (y - x) * rate > 0.0;
    assert (y - x) * rate == y * rate - x * rate;
  }

  /** Rounding calls down loses part of the charge exactly when a fraction lies above the quota. */
  lemma TruncCharge(tier: Tier, value: real)
    requires Priced(tier)
    ensures Charge(tier, ApiCalls, Trunc(value) as real) <= Charge(tier, ApiCalls, value)
    ensures Charge(tier, ApiCalls, Trunc(value) as real) == Charge(tier, ApiCalls, value) <==>
      ApiCalls !in tier.rates || value <= Included(tier, ApiCalls) || value == Trunc(value) as real
  {
    var q := Included(tier, ApiCalls);
    var whole := Trunc(value) as real;
    assert value > 0.0 ==> whole <= value;
    if ApiCalls in tier.rates && value > q {
      var rate := tier.rates[ApiCalls];
      if whole <= q {
        ProductStrict(0.0, value - q, rate);
      } else if whole < value {
        ProductStrict(whole - q, value - q, rate);
      }
    }
  }

  /**
   The invoice never charges more overage than the usage cost, and charges the same
   exactly when API usage is whole or within quota and no other priced metric is over
   its quota.
   */
  lemma InvoiceVersusCost(tier: Tier, u: Usage)
    requires Priced(tier)
    ensures InvoiceOverage(tier, u) <= Cost(tier, u)
    ensures InvoiceOverage(tier, u) == Cost(tier, u) <==>
      && (ApiCalls !in tier.rates || Used(u, ApiCalls) <= Included(tier, ApiCalls)
          || Used(u, ApiCalls) == Trunc(Used(u, ApiCalls)) as real)
      && forall m <- tier.rates :: m == ApiCalls || m == ComputeTime || Used(u, m) <= Included(tier, m)
  {
    TruncCharge(tier, Used(u, ApiCalls));
    OtherCostSign(tier, u);
  }

  lemma OtherCostSign(tier: Tier, u: Usage)
    requires Priced(tier)
    ensures OtherCost(tier, u) >= 0.0
    ensures OtherCost(tier, u) == 0.0 <==>
      forall m <- tier.rates :: m == ApiCalls || m == ComputeTime || Used(u, m) <= Included(tier, m)
  {
    forall m ensures Charge(tier, m, Used(u, m)) >= 0.0
      && (Charge(tier, m, Used(u, m)) == 0.0 <==> m !in tier.rates || Used(u, m) <= Included(tier, m)) {
      ChargeSign(tier, m, Used(u, m));
    }
    if OtherCost(tier, u) == 0.0 {
      forall m <- tier.rates | m != ApiCalls && m != ComputeTime ensures Used(u, m) <= Included(tier, m) {
        EveryMetric(m);
      }
    }
  }

  // ---------- The items of an invoice ----------

  function Lines(hasBase: bool, basePrice: real, apiCharge: real, computeCharge: real): seq<Line> {
    (if hasBase then [BaseFee(basePrice)] else [])
    + (if apiCharge > 0.0 then [ApiOverage(apiCharge)] else [])
    + (if computeCharge > 0.0 then [ComputeOverage(computeCharge)] else [])
  }

  /** What each line says: the base fee, the price of whole API calls, or the price of compute time. */
  predicate LineRight(l: Line, tier: Tier, period: Period, u: Usage) {
    match l
    case BaseFee(x) => tier.baseMonthly > 0.0 && (if period == Monthly then x == tier.baseMonthly
                                                 else 12.0 * x == tier.baseYearly)
    case ApiOverage(x) => x > 0.0 && IsPrice(tier, ApiCalls, Trunc(Used(u, ApiCalls)) as real, x)
    case ComputeOverage(x) => x > 0.0 && IsPrice(tier, ComputeTime, Used(u, ComputeTime), x)
  }

  /** Every line is right, no line is there twice, and none is missing. */
  ghost predicate Itemised(lines: seq<Line>, tier: Tier, period: Period, u: Usage) {
    && (forall l <- lines :: LineRight(l, tier, period, u))
    && (forall i, j :: 0 <= i < j < |lines| ==> lines[i] != lines[j])
    && (forall l :: LineRight(l, tier, period, u) ==> l in lines)
  }

  lemma LinesItemised(tier: Tier, period: Period, u: Usage)
    ensures Itemised(
      Lines(tier.baseMonthly > 0.0, BasePrice(tier, period),
            Charge(tier, ApiCalls, Trunc(Used(u, ApiCalls)) as real), Charge(tier, ComputeTime, Used(u, ComputeTime))),
      tier, period, u)
  {
    var base, api, compute := BasePrice(tier, period),
      Charge(tier, ApiCalls, Trunc(Used(u, ApiCalls)) as real), Charge(tier, ComputeTime, Used(u, ComputeTime));
    ChargeIsPrice(tier, ApiCalls, Trunc(Used(u, ApiCalls)) as real);
    ChargeIsPrice(tier, ComputeTime, Used(u, ComputeTime));
    ItemisedIf(Lines(tier.baseMonthly > 0.0, base, api, compute), base, api, compute, tier, period, u);
  }

  lemma ItemisedIf(lines: seq<Line>, base: real, api: real, compute: real, tier: Tier, period: Period, u: Usage)
    requires lines == Lines(tier.baseMonthly > 0.0, base, api, compute) && base == BasePrice(tier, period)
    requires IsPrice(tier, ApiCalls, Trunc(Used(u, ApiCalls)) as real, api)
    requires IsPrice(tier, ComputeTime, Used(u, ComputeTime), compute)
    ensures Itemised(lines, tier, period, u)
  {
    LinesMembers(tier.baseMonthly > 0.0, base, api, compute);
    forall l ensures LineRight(l, tier, period, u) <==> l in lines {
      LineRightIff(l, base, api, compute, tier, period, u);
    }
  }

  lemma LineRightIff(l: Line, base: real, api: real, compute: real, tier: Tier, period: Period, u: Usage)
    requires base == BasePrice(tier, period)
    requires IsPrice(tier, ApiCalls, Trunc(Used(u, ApiCalls)) as real, api)
    requires IsPrice(tier, ComputeTime, Used(u, ComputeTime), compute)
    ensures LineRight(l, tier, period, u) <==>
      || (tier.baseMonthly > 0.0 && l == BaseFee(base))
      || (api > 0.0 && l == ApiOverage(api))
      || (compute > 0.0 && l == ComputeOverage(compute))
  {
  }

  lemma LinesMembers(hasBase: bool, base: real, api: real, compute: real)
    ensures var lines := Lines(hasBase, base, api, compute);
      && (forall i, j :: 0 <= i < j < |lines| ==> lines[i] != lines[j])
      && forall l :: l in lines <==>
           || (hasBase && l == BaseFee(base))
           || (api > 0.0 && l == ApiOverage(api))
           || (compute > 0.0 && l == ComputeOverage(compute))
  {
  }

  lemma LinesSum(hasBase: bool, base: real, api: real, compute: real)
    requires api >= 0.0 && compute >= 0.0 && (!hasBase ==> base == 0.0)
    ensures SumLines(Lines(hasBase, base, api, compute)) == base + api + compute
  {
    var lines := if hasBase then [BaseFee(base)] else [];
    SumLinesPush([], BaseFee(base));
    SumLinesPush(lines, ApiOverage(api));
    SumLinesPush(lines, ComputeOverage(compute));
    SumLinesPush(lines + [ApiOverage(api)], ComputeOverage(compute));
  }

  // ---------- Rounding ----------

  /** A DECIMAL(10,2) column, in hundredths: rounding half away from zero. */
  function Hundredths(x: real): int {
    if x >= 0.0 then (100.0 * x + 0.5).Floor else -((-100.0 * x + 0.5).Floor)
  }

  /** The nearest hundredth; of two equally near ones the one farther from zero. */
  lemma HundredthsNearest(x: real)
    ensures -0.5 <= 100.0 * x - Hundredths(x) as real <= 0.5
    ensures 100.0 * x - Hundredths(x) as real == 0.5 ==> x < 0.0
    ensures 100.0 * x - Hundredths(x) as real == -0.5 ==> x > 0.0
  {
  }

  function Tax(subtotal: real): real {
    subtotal * 0.10
  }

  /** Rounded one by one, subtotal and tax add up to the rounded total within one hundredth. */
  lemma StoredTotalWithinAHundredth(subtotal: real)
    requires subtotal >= 0.0
    ensures -1 <= Hundredths(subtotal + Tax(subtotal)) - (Hundredths(subtotal) + Hundredths(Tax(subtotal))) <= 1
  {
  }

  /** What the two columns subtotal and tax lose to rounding, in hundredths. */
  function RoundedAway(subtotal: real): real {
    (100.0 * subtotal - Hundredths(subtotal) as real) + (100.0 * Tax(subtotal) - Hundredths(Tax(subtotal)) as real)
  }

  /** Exactly when the stored total is the sum of stored subtotal and stored tax. */
  lemma StoredTotalAddsUpIff(subtotal: real)
    requires subtotal >= 0.0
    ensures Hundredths(subtotal + Tax(subtotal)) == Hundredths(subtotal) + Hundredths(Tax(subtotal)) <==>
      -0.5 <= RoundedAway(subtotal) < 0.5
  {
  }

  /** It always is for a subtotal in whole hundredths: nothing is rounded but the tax. */
  lemma WholeHundredthsAddUp(n: nat)
    ensures var subtotal := n as real / 100.0;
      Hundredths(subtotal + Tax(subtotal)) == Hundredths(subtotal) + Hundredths(Tax(subtotal))
  {
    var subtotal := n as real / 100.0;
    assert Hundredths(subtotal) == n;
    StoredTotalAddsUpIff(subtotal);
  }

  /** The difference does occur: the starter plan with 0.000094 hours of compute time over its quota. */
  lemma StoredTotalCanDiffer()
    ensures var subtotal := Subtotal(STARTER, Monthly, map[ComputeTime := 100.000094]);
      Hundredths(subtotal + Tax(subtotal)) == Hundredths(subtotal) + Hundredths(Tax(subtotal)) + 1
  {
    var u: Usage := map[ComputeTime := 100.000094];
    assert Charge(STARTER, ComputeTime, Used(u, ComputeTime)) == 0.0047;
    assert Trunc(Used(u, ApiCalls)) == 0;
    var subtotal := Subtotal(STARTER, Monthly, u);
    assert subtotal == 4900.0047;
    assert Hundredths(subtotal) == 490000;
    assert Hundredths(Tax(subtotal)) == 49000;
    assert Hundredths(subtotal + Tax(subtotal)) == 539001;
  }

  lemma SubtotalFacts(tier: Tier, period: Period, u: Usage)
    requires Priced(tier) && tier.baseYearly >= 0.0
    ensures var subtotal := Subtotal(tier, period, u);
      && 0.0 <= subtotal <= BasePrice(tier, period) + Cost(tier, u)
      && PricesUsage(tier, period, u, subtotal)
      && -1 <= Hundredths(subtotal + Tax(subtotal)) - (Hundredths(subtotal) + Hundredths(Tax(subtotal))) <= 1
  {
    InvoiceVersusCost(tier, u);
    SubtotalNonNegative(tier, period, u);
    StoredTotalWithinAHundredth(Subtotal(tier, period, u));
    InvoicePrices(tier, period, u);
  }

  // ---------- Splitting a period ----------

  /** SUM(value) over a tenant's events of one metric with a <= timestamp < b. */
  function UsageBetween(log: seq<UsageEvent>, t: string, m: Metric, a: Time, b: Time): real {
    if log == [] then 0.0
    else
      UsageBetween(log[..|log| - 1], t, m, a, b)
      + (if a <= log[|log| - 1].at < b then Worth(t, m, log[|log| - 1]) else 0.0)
  }

  const METRICS: set<Metric> := {ApiCalls, ComputeTime, StorageBytes, BandwidthBytes, Tokens, Credits, Custom}

  /** The rows of the usage query of get_usage_summary; a metric without events has no row. */
  function Summary(log: seq<UsageEvent>, t: string, a: Time, b: Time): Usage {
    map m | m in METRICS && (exists e <- log :: e.tenant == t && e.metric == m && a <= e.at < b)
      :: UsageBetween(log, t, m, a, b)
  }

  lemma {:induction false} UsageBetweenNone(log: seq<UsageEvent>, t: string, m: Metric, a: Time, b: Time)
    requires forall e <- log :: !(e.tenant == t && e.metric == m && a <= e.at < b)
    ensures UsageBetween(log, t, m, a, b) == 0.0
  {
    if log != [] {
      assert log[|log| - 1] in log;
      UsageBetweenNone(log[..|log| - 1], t, m, a, b);
    }
  }

  /** One event counts with its value, from the start of the period to just before its end. */
  lemma UsageOfEvent(e: UsageEvent, t: string, m: Metric, a: Time, b: Time)
    ensures UsageBetween([e], t, m, a, b) == if e.tenant == t && e.metric == m && a <= e.at < b then e.value else 0.0
  {
    assert [e][..0] == [];
  }

  /** The usage of two logs together is the sum of theirs. */
  lemma {:induction false} UsageOfBoth(p: seq<UsageEvent>, q: seq<UsageEvent>, t: string, m: Metric, a: Time, b: Time)
    ensures UsageBetween(p + q, t, m, a, b) == UsageBetween(p, t, m, a, b) + UsageBetween(q, t, m, a, b)
  {
    if q == [] {
      assert p + q == p;
    } else {
      assert (p + q)[..|p + q| - 1] == p + q[..|q| - 1];
      UsageOfBoth(p, q[..|q| - 1], t, m, a, b);
    }
  }

  lemma SummaryIsUsage(log: seq<UsageEvent>, t: string, a: Time, b: Time, m: Metric)
    ensures Used(Summary(log, t, a, b), m) == UsageBetween(log, t, m, a, b)
  {
  }

  lemma {:induction false} UsageAdds(log: seq<UsageEvent>, t: string, m: Metric, a: Time, b: Time, c: Time)
    requires a <= b <= c
    ensures UsageBetween(log, t, m, a, c) == UsageBetween(log, t, m, a, b) + UsageBetween(log, t, m, b, c)
  {
    if log != [] { UsageAdds(log[..|log| - 1], t, m, a, b, c); }
  }

  predicate NonNegative(log: seq<UsageEvent>) {
    forall e <- log :: e.value >= 0.0
  }

  lemma {:induction false} UsageNonNegative(log: seq<UsageEvent>, t: string, m: Metric, a: Time, b: Time)
    requires NonNegative(log)
    ensures UsageBetween(log, t, m, a, b) >= 0.0
  {
    if log != [] {
      assert log[|log| - 1] in log;
      UsageNonNegative(log[..|log| - 1], t, m, a, b);
    }
  }

  lemma ChargeSuperadditive(tier: Tier, m: Metric, x: real, y: real)
    requires Priced(tier) && x >= 0.0 && y >= 0.0
    ensures Charge(tier, m, x) + Charge(tier, m, y) <= Charge(tier, m, x + y)
  {
    var q := Included(tier, m);
    if m !in tier.rates || (x <= q && y <= q) {
      ChargeSign(tier, m, x + y);
    } else if x <= q {
      assert Charge(tier, m, x) == 0.0;
      ChargeMonotone(tier, m, y, x + y);
    } else if y <= q {
      assert Charge(tier, m, y) == 0.0;
      ChargeMonotone(tier, m, x, x + y);
    } else {
      SumOfProducts(x - q, y - q, x + y - q, tier.rates[m]);
    }
  }

  lemma ChargeMonotone(tier: Tier, m: Metric, x: real, y: real)
    requires Priced(tier) && x <= y
    ensures Charge(tier, m, x) <= Charge(tier, m, y)
  {
    ChargeSign(tier, m, y);
    if m in tier.rates { ProductMonotone(x - Included(tier, m), y - Included(tier, m), tier.rates[m]); }
  }

  /** More usage of any metric never costs less. */
  lemma CostMonotone(tier: Tier, u: Usage, v: Usage)
    requires Priced(tier) && forall m :: Used(u, m) <= Used(v, m)
    ensures Cost(tier, u) <= Cost(tier, v)
  {
    forall m ensures Charge(tier, m, Used(u, m)) <= Charge(tier, m, Used(v, m)) {
      ChargeMonotone(tier, m, Used(u, m), Used(v, m));
    }
  }

  lemma SumOfProducts(x: real, y: real, z: real, rate: real)
    requires x + y <= z && rate >= 0.0
    ensures x * rate + y * rate <= z * rate
  {
    ProductMonotone(x + y, z, rate);
    assert (x + y) * rate == x * rate + y * rate;
  }

  /** Costs of adjacent periods add up to at most the cost of the whole. */
  lemma CostSuperadditive(tier: Tier, log: seq<UsageEvent>, t: string, a: Time, b: Time, c: Time)
    requires Priced(tier) && NonNegative(log) && a <= b <= c
    ensures Cost(tier, Summary(log, t, a, b)) + Cost(tier, Summary(log, t, b, c)) <= Cost(tier, Summary(log, t, a, c))
  {
    forall m
      ensures Charge(tier, m, Used(Summary(log, t, a, b), m)) + Charge(tier, m, Used(Summary(log, t, b, c), m))
              <= Charge(tier, m, Used(Summary(log, t, a, c), m))
    {
      SummaryIsUsage(log, t, a, b, m);
      SummaryIsUsage(log, t, b, c, m);
      SummaryIsUsage(log, t, a, c, m);
      UsageAdds(log, t, m, a, b, c);
      UsageNonNegative(log, t, m, a, b);
      UsageNonNegative(log, t, m, b, c);
      ChargeSuperadditive(tier, m, UsageBetween(log, t, m, a, b), UsageBetween(log, t, m, b, c));
    }
  }

  /** The costs of the periods between consecutive cut points. */
  function SplitCost(tier: Tier, log: seq<UsageEvent>, t: string, cuts: seq<Time>): real {
    if |cuts| < 2 then 0.0
    else Cost(tier, Summary(log, t, cuts[0], cuts[1])) + SplitCost(tier, log, t, cuts[1..])
  }

  /** Splitting a billing period, in any number of places, never makes it dearer. */
  lemma {:induction false} SplittingNeverDearer(tier: Tier, log: seq<UsageEvent>, t: string, cuts: seq<Time>)
    requires Priced(tier) && NonNegative(log) && |cuts| >= 2
    requires forall i, j :: 0 <= i < j < |cuts| ==> cuts[i] <= cuts[j]
    ensures SplitCost(tier, log, t, cuts) <= Cost(tier, Summary(log, t, cuts[0], cuts[|cuts| - 1]))
  {
    if |cuts| > 2 {
      SplittingNeverDearer(tier, log, t, cuts[1..]);
      CostSuperadditive(tier, log, t, cuts[0], cuts[1], cuts[|cuts| - 1]);
    } else {
      assert SplitCost(tier, log, t, cuts[1..]) == 0.0;
    }
  }
}
