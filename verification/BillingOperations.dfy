/** The billing operations run one after another: rows updated in place, and the loops of the background tasks. */
module BillingOperations {
  import opened Prelude
  import opened Lifecycle

  class BillingDatabase {
    var subs: seq<Subscription>
    var invoices: seq<Invoice>
    var payments: seq<Payment>

    /** One active subscription a tenant, one invoice a tenant and period, one payment of the total per PAID invoice. */
    ghost predicate Valid()
      reads this
    {
      && (forall t :: Sum(ActiveOf(t), subs) <= 1)
      && (forall t, p :: Sum(InvoicesOf(t, p), invoices) <= 1)
      && (forall i: nat :: i < |invoices| ==>
            Sum(PaymentsFor(i), payments) == if invoices[i].status == Paid then 1 else 0)
      && (forall x <- payments ::
            && x.invoice < |invoices|
            && x.amount == invoices[x.invoice].total && x.tenant == invoices[x.invoice].tenant)
    }

    constructor ()
      ensures Valid() && subs == [] && invoices == [] && payments == []
    {
      subs, invoices, payments := [], [], [];
    }

    /** create_subscription. */
    method CreateSubscription(tenant: string)
      requires Valid()
      modifies this`subs
      ensures Valid()
      ensures Sum(ActiveOf(tenant), subs) == 1
      ensures |subs| == |old(subs)| + 1 && subs[|old(subs)|] == Subscription(tenant, true)
      ensures forall k :: 0 <= k < |old(subs)| ==>
        (subs[k] == if old(subs)[k].tenant == tenant then old(subs)[k].(active := false) else old(subs)[k])
    {
      assert forall t :: Sum(ActiveOf(t), subs) <= 1;
      if k :| 0 <= k < |subs| && subs[k] == Subscription(tenant, true) {
        forall t ensures Sum(ActiveOf(t), subs[k := Subscription(tenant, false)]) ==
          Sum(ActiveOf(t), subs) - (if t == tenant then 1 else 0) {
          SumUpdate(ActiveOf(t), subs, k, Subscription(tenant, false));
        }
        forall j | 0 <= j < |subs| && j != k ensures subs[j].tenant == tenant ==> !subs[j].active {
          SumOnlyOne(ActiveOf(tenant), subs, k, j);
        }
        subs := subs[k := Subscription(tenant, false)];
      } else {
        NoneActive(tenant);
      }
      forall t ensures Sum(ActiveOf(t), subs + [Subscription(tenant, true)]) ==
        Sum(ActiveOf(t), subs) + (if t == tenant then 1 else 0) {
        SumPush(ActiveOf(t), subs, Some(Subscription(tenant, true)));
      }
      subs := subs + [Subscription(tenant, true)];
    }

    lemma NoneActive(tenant: string)
      requires forall k :: 0 <= k < |subs| ==> subs[k] != Subscription(tenant, true)
      ensures Sum(ActiveOf(tenant), subs) == 0
    {
      SumPositive(ActiveOf(tenant), subs);
    }

    /** process_payment; false when it raises. */
    method ProcessPayment(i: nat, stripeOk: bool) returns (ok: bool)
      requires Valid()
      modifies this`invoices, this`payments
      ensures Valid()
      ensures ok <==> i < |old(invoices)| && old(invoices)[i].status != Paid && stripeOk
      ensures !ok ==> invoices == old(invoices) && payments == old(payments)
      ensures ok ==>
        && invoices == old(invoices)[i := old(invoices)[i].(status := Paid)]
        && payments == old(payments) + [Payment(i, old(invoices)[i].tenant, old(invoices)[i].total)]
    {
      if i >= |invoices| || invoices[i].status == Paid || !stripeOk {
        return false;
      }
      var row := Payment(i, invoices[i].tenant, invoices[i].total);
      forall k
        ensures Sum(PaymentsFor(k), payments + [row]) == Sum(PaymentsFor(k), payments) + (if k == i then 1 else 0)
      {
        SumPush(PaymentsFor(k), payments, Some(row));
      }
      forall t, p
        ensures Sum(InvoicesOf(t, p), invoices[i := invoices[i].(status := Paid)]) == Sum(InvoicesOf(t, p), invoices)
      {
        SumUpdate(InvoicesOf(t, p), invoices, i, invoices[i].(status := Paid));
      }
      payments := payments + [row];
      invoices := invoices[i := invoices[i].(status := Paid)];
      ok := true;
    }

    /**
     _process_auto_payments over the rows of its join, in which an invoice appears once per
     subscription of its tenant; stripeOk[k] is Stripe's answer should it be asked for row k.
     */
    method ProcessAutoPayments(rows: seq<nat>, stripeOk: seq<bool>)
      requires Valid() && |stripeOk| == |rows|
      modifies this`invoices, this`payments
      ensures Valid()
      ensures |invoices| == |old(invoices)|
      ensures forall i: nat :: i < |invoices| ==>
        invoices[i] == if PaidBy(i, rows, stripeOk, |rows|) then old(invoices)[i].(status := Paid) else old(invoices)[i]
      ensures old(payments) <= payments
    {
      for k := 0 to |rows|
        invariant Valid() && |invoices| == |old(invoices)| && old(payments) <= payments
        invariant forall i: nat :: i < |invoices| ==>
          (invoices[i] == if PaidBy(i, rows, stripeOk, k) then old(invoices)[i].(status := Paid) else old(invoices)[i])
      {
        var ok := ProcessPayment(rows[k], stripeOk[k]);
        forall i
          ensures PaidBy(i, rows, stripeOk, k + 1) <==> PaidBy(i, rows, stripeOk, k) || (rows[k] == i && stripeOk[k])
        {
          PaidByOneMore(i, rows, stripeOk, k);
        }
      }
    }

    /**
     _generate_monthly_invoices for the tenants of the active monthly subscriptions; totals[k]
     is what generate_invoice would store for row k, None if it raises.
     */
    method GenerateMonthlyInvoices(periodStart: nat, tenants: seq<string>, totals: seq<Option<int>>)
      requires Valid() && |totals| == |tenants|
      modifies this`invoices
      ensures Valid()
      ensures old(invoices) <= invoices
      ensures forall k :: 0 <= k < |tenants| && totals[k].Some? ==> Billed(tenants[k], periodStart)
      ensures forall v <- invoices[|old(invoices)|..] :: AsPriced(v, periodStart, tenants, totals)
      ensures (forall k :: 0 <= k < |tenants| && totals[k].Some? ==> old(Billed(tenants[k], periodStart))) ==>
        invoices == old(invoices)
    {
      for k := 0 to |tenants|
        invariant Valid() && old(invoices) <= invoices
        invariant forall j :: 0 <= j < k && totals[j].Some? ==> Billed(tenants[j], periodStart)
        invariant forall v <- invoices[|old(invoices)|..] :: AsPriced(v, periodStart, tenants, totals)
        invariant (forall j :: 0 <= j < k && totals[j].Some? ==> old(Billed(tenants[j], periodStart))) ==>
          invoices == old(invoices)
      {
        if totals[k].Some? {
          GenerateIfMissing(tenants[k], periodStart, totals[k].value);
        }
      }
    }

    /** v is the pending invoice of one of the tenants, with the total priced for it. */
    ghost predicate AsPriced(v: Invoice, periodStart: nat, tenants: seq<string>, totals: seq<Option<int>>)
      requires |totals| == |tenants|
    {
      exists k :: 0 <= k < |tenants| && totals[k].Some?
        && v == Invoice(tenants[k], periodStart, totals[k].value, Pending)
    }

    ghost predicate Billed(tenant: string, periodStart: nat)
      reads this
    {
      Sum(InvoicesOf(tenant, periodStart), invoices) >= 1
    }

    /** The body of the loop of _generate_monthly_invoices. */
    method GenerateIfMissing(tenant: string, periodStart: nat, total: int)
      requires Valid()
      modifies this`invoices
      ensures Valid() && Billed(tenant, periodStart)
      ensures invoices == if old(Billed(tenant, periodStart)) then old(invoices)
                          else old(invoices) + [Invoice(tenant, periodStart, total, Pending)]
      ensures forall t, p :: old(Billed(t, p)) ==> Billed(t, p)
    {
      SumPositive(InvoicesOf(tenant, periodStart), invoices);
      if k :| 0 <= k < |invoices| && invoices[k].tenant == tenant && invoices[k].periodStart == periodStart {
        assert InvoicesOf(tenant, periodStart)(invoices[k]) == 1;
        return;
      }
      var row := Invoice(tenant, periodStart, total, Pending);
      forall t, p ensures Sum(InvoicesOf(t, p), invoices + [row]) ==
        Sum(InvoicesOf(t, p), invoices) + (if t == tenant && p == periodStart then 1 else 0) {
        SumPush(InvoicesOf(t, p), invoices, Some(row));
      }
      SumPositive(PaymentsFor(|invoices|), payments);
      invoices := invoices + [row];
    }
  }

  /** Among the first n rows, one asks for invoice i and Stripe would accept. */
  ghost predicate PaidBy(i: nat, rows: seq<nat>, stripeOk: seq<bool>, n: nat)
    requires n <= |rows| == |stripeOk|
  {
    exists k :: 0 <= k < n && rows[k] == i && stripeOk[k]
  }

  lemma PaidByOneMore(i: nat, rows: seq<nat>, stripeOk: seq<bool>, n: nat)
    requires n < |rows| == |stripeOk|
    ensures PaidBy(i, rows, stripeOk, n + 1) <==> PaidBy(i, rows, stripeOk, n) || (rows[n] == i && stripeOk[n])
  {
  }
}
