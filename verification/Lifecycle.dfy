/**
 Subscriptions, invoices and payments, one database statement at a time.  An operation
 that reads first and writes later can be overtaken between the two.  The lemmas say, for
 each tenant, period and invoice, exactly which overlaps break the rule of one active
 subscription, one invoice and one payment.
 */
module Lifecycle {
  import opened Prelude

  datatype Subscription = Subscription(tenant: string, active: bool)
  datatype Status = Pending | Paid
  datatype Invoice = Invoice(tenant: string, periodStart: nat, total: int, status: Status)
  datatype Payment = Payment(invoice: nat, tenant: string, amount: int)

  /** Where an operation stands between two statements. */
  datatype Task =
    | Creating(tenant: string, existing: Option<nat>)      // active subscription looked up
    | Replacing(tenant: string)                            // old one deactivated, new one not yet inserted
    | Generating(tenant: string, periodStart: nat, total: int)  // no invoice found, usage priced
    | Charged(invoice: nat)                                // Stripe has the money, no row yet
    | Recorded(invoice: nat)                               // payment row inserted, invoice not yet PAID

  datatype Ledger = Ledger(
    subs: seq<Subscription>,
    invoices: seq<Invoice>,
    payments: seq<Payment>,
    tasks: seq<Task>)

  const START := Ledger([], [], [], [])

  datatype Event =
    | Subscribe(tenant: string, existing: Option<nat>)     // SELECT .. WHERE is_active: one row, if any
    | Bill(tenant: string, periodStart: nat, total: int, checked: bool)  // checked: by the monthly generator
    | Pay(invoice: nat, stripeOk: bool)
    | Go(j: nat)                                           // the next statement of task j
    | Fail(j: nat)                                         // .. raises, and the operation ends there

  ghost predicate HasInvoice(s: Ledger, tenant: string, periodStart: nat) {
    exists v <- s.invoices :: v.tenant == tenant && v.periodStart == periodStart
  }

  ghost predicate Enabled(s: Ledger, e: Event) {
    match e
    case Subscribe(tenant, existing) =>
      if existing.Some? then existing.value < |s.subs| && s.subs[existing.value] == Subscription(tenant, true)
      else forall x <- s.subs :: !(x.tenant == tenant && x.active)
    case Go(j) => j < |s.tasks| && Sane(s, s.tasks[j])
    case Fail(j) => j < |s.tasks|
    case _ => true
  }

  /** The rows a task refers to exist; rows are never deleted. */
  predicate Sane(s: Ledger, t: Task) {
    match t
    case Creating(_, existing) => existing.Some? ==> existing.value < |s.subs|
    case Charged(i) => i < |s.invoices|
    case Recorded(i) => i < |s.invoices|
    case _ => true
  }

  ghost function Apply(s: Ledger, e: Event): Ledger
    requires Enabled(s, e)
  {
    match e
    case Subscribe(tenant, existing) => s.(tasks := s.tasks + [Creating(tenant, existing)])
    case Bill(tenant, p, total, checked) =>
      if checked && HasInvoice(s, tenant, p) then s else s.(tasks := s.tasks + [Generating(tenant, p, total)])
    case Pay(i, stripeOk) =>
      // unknown, already paid, or declined by Stripe: the operation raises
      if i < |s.invoices| && s.invoices[i].status != Paid && stripeOk then s.(tasks := s.tasks + [Charged(i)]) else s
    case Go(j) => Advance(s, j)
    case Fail(j) => s.(tasks := RemoveAt(s.tasks, j))
  }

  function Advance(s: Ledger, j: nat): Ledger
    requires j < |s.tasks| && Sane(s, s.tasks[j])
  {
    match s.tasks[j]
    case Creating(tenant, existing) =>
      s.(subs := if existing.Some? then s.subs[existing.value := s.subs[existing.value].(active := false)] else s.subs,
         tasks := s.tasks[j := Replacing(tenant)])
    case Replacing(tenant) =>
      s.(subs := s.subs + [Subscription(tenant, true)], tasks := RemoveAt(s.tasks, j))
    case Generating(tenant, p, total) =>
      s.(invoices := s.invoices + [Invoice(tenant, p, total, Pending)], tasks := RemoveAt(s.tasks, j))
    case Charged(i) =>
      s.(payments := s.payments + [Payment(i, s.invoices[i].tenant, s.invoices[i].total)],
         tasks := s.tasks[j := Recorded(i)])
    case Recorded(i) =>
      s.(invoices := s.invoices[i := s.invoices[i].(status := Paid)], tasks := RemoveAt(s.tasks, j))
  }

  ghost predicate Run(s: Ledger, es: seq<Event>)
    decreases |es|
  {
    es == [] || (Enabled(s, es[0]) && Run(Apply(s, es[0]), es[1..]))
  }

  ghost function End(s: Ledger, es: seq<Event>): Ledger
    requires Run(s, es)
    decreases |es|
  {
    if es == [] then s else End(Apply(s, es[0]), es[1..])
  }

  // ---------- What is counted ----------

  function ActiveOf(t: string): Subscription -> nat {
    (x: Subscription) => if x.tenant == t && x.active then 1 else 0
  }

  function CreatesFor(t: string): Task -> nat {
    (x: Task) => if (x.Creating? || x.Replacing?) && x.tenant == t then 1 else 0
  }

  function InvoicesOf(t: string, p: nat): Invoice -> nat {
    (x: Invoice) => if x.tenant == t && x.periodStart == p then 1 else 0
  }

  function GeneratesFor(t: string, p: nat): Task -> nat {
    (x: Task) => if x.Generating? && x.tenant == t && x.periodStart == p then 1 else 0
  }

  function PaymentsFor(i: nat): Payment -> nat {
    (x: Payment) => if x.invoice == i then 1 else 0
  }

  function ChargedFor(i: nat): Task -> nat {
    (x: Task) => if x == Charged(i) then 1 else 0
  }

  function RecordedFor(i: nat): Task -> nat {
    (x: Task) => if x == Recorded(i) then 1 else 0
  }

  /** What task j turns into. */
  function Successor(x: Task): Option<Task> {
    match x
    case Creating(tenant, _) => Some(Replacing(tenant))
    case Charged(i) => Some(Recorded(i))
    case _ => None
  }

  /** What a step of task j does to a count of tasks. */
  lemma CountStep(f: Task -> nat, s: Ledger, j: nat)
    requires j < |s.tasks| && Sane(s, s.tasks[j])
    ensures Sum(f, Advance(s, j).tasks) + f(s.tasks[j]) ==
      Sum(f, s.tasks) + (if Successor(s.tasks[j]).Some? then f(Successor(s.tasks[j]).value) else 0)
  {
    var next := Successor(s.tasks[j]);
    if next.Some? {
      SumUpdate(f, s.tasks, j, next.value);
    } else {
      SumRemove(f, s.tasks, j);
    }
  }

  /** What starting an operation does to a count of tasks. */
  lemma CountStart(f: Task -> nat, s: Ledger, e: Event)
    requires Enabled(s, e) && Opens(e)
    ensures Sum(f, Apply(s, e).tasks) == Sum(f, s.tasks) + (if Starts(s, e).Some? then f(Starts(s, e).value) else 0)
  {
    SumPush(f, s.tasks, Starts(s, e));
  }

  /** The operation e starts, if it starts one. */
  ghost function Starts(s: Ledger, e: Event): Option<Task> {
    match e
    case Subscribe(tenant, existing) => Some(Creating(tenant, existing))
    case Bill(tenant, p, total, checked) =>
      if checked && HasInvoice(s, tenant, p) then None else Some(Generating(tenant, p, total))
    case Pay(i, stripeOk) =>
      if i < |s.invoices| && s.invoices[i].status != Paid && stripeOk then Some(Charged(i)) else None
    case _ => None
  }

  /** Starting: a new operation, or none. */
  predicate Opens(e: Event) {
    e.Subscribe? || e.Bill? || e.Pay?
  }

  /** No operation counted by f fails in the middle. */
  ghost predicate NoneFails(s: Ledger, es: seq<Event>, f: Task -> nat)
    requires Run(s, es)
    decreases |es|
  {
    es != [] ==> (es[0].Fail? ==> f(s.tasks[es[0].j]) == 0) && NoneFails(Apply(s, es[0]), es[1..], f)
  }

  // ---------- Payments of one invoice ----------

  function Rows(s: Ledger, i: nat): nat {
    Sum(PaymentsFor(i), s.payments)
  }

  /** The payment rows invoice i should have when no payment of it is under way. */
  function Due(s: Ledger, i: nat): nat {
    if i < |s.invoices| && s.invoices[i].status == Paid then 1 else 0
  }

  function PaymentsUnderWay(s: Ledger, i: nat): nat {
    Sum(ChargedFor(i), s.tasks) + Sum(RecordedFor(i), s.tasks)
  }

  /** What holds whatever overlaps or fails: a PAID invoice and a payment waiting for its update have their rows. */
  ghost predicate Backed(s: Ledger, i: nat) {
    && Due(s, i) + Sum(RecordedFor(i), s.tasks) <= Rows(s, i)
    && (i >= |s.invoices| ==> PaymentsUnderWay(s, i) == Rows(s, i) == 0)
    && RowsRight(s)
  }

  /** Every payment row has the total and the tenant of its invoice. */
  ghost predicate RowsRight(s: Ledger) {
    forall x <- s.payments ::
      && x.invoice < |s.invoices|
      && x.amount == s.invoices[x.invoice].total && x.tenant == s.invoices[x.invoice].tenant
  }

  lemma StepRows(s: Ledger, e: Event)
    requires Enabled(s, e) && RowsRight(s)
    ensures RowsRight(Apply(s, e))
  {
  }

  /** Payment rows of i beyond the one that makes it PAID and those waiting for their update. */
  function Excess(s: Ledger, i: nat): int {
    Rows(s, i) - Due(s, i) - Sum(RecordedFor(i), s.tasks)
  }

  /** If e ends a payment of i after its row is written, then by an update that turns the invoice PAID. */
  predicate UpdateTells(s: Ledger, e: Event, i: nat)
    requires e.Go? || e.Fail? ==> e.j < |s.tasks|
  {
    && (e.Go? && s.tasks[e.j] == Recorded(i) ==> Due(s, i) == 0)
    && (e.Fail? ==> s.tasks[e.j] != Recorded(i))
  }

  lemma TaskCounts(s: Ledger, e: Event, i: nat)
    requires Enabled(s, e)
    ensures var r := Apply(s, e);
      && Sum(ChargedFor(i), r.tasks) == Sum(ChargedFor(i), s.tasks)
           + (if Accepts(s, e, i) then 1 else 0) - (if (e.Go? || e.Fail?) && s.tasks[e.j] == Charged(i) then 1 else 0)
      && Sum(RecordedFor(i), r.tasks) == Sum(RecordedFor(i), s.tasks)
           + (if e.Go? && s.tasks[e.j] == Charged(i) then 1 else 0)
           - (if (e.Go? || e.Fail?) && s.tasks[e.j] == Recorded(i) then 1 else 0)
  {
    if e.Go? {
      CountStep(ChargedFor(i), s, e.j);
      CountStep(RecordedFor(i), s, e.j);
    } else if e.Fail? {
      SumRemove(ChargedFor(i), s.tasks, e.j);
      SumRemove(RecordedFor(i), s.tasks, e.j);
    } else {
      CountStart(ChargedFor(i), s, e);
      CountStart(RecordedFor(i), s, e);
    }
  }

  lemma RowCounts(s: Ledger, e: Event, i: nat)
    requires Enabled(s, e)
    ensures Rows(Apply(s, e), i) == Rows(s, i) + (if e.Go? && s.tasks[e.j] == Charged(i) then 1 else 0)
  {
    if e.Go? && s.tasks[e.j].Charged? {
      var x := s.tasks[e.j].invoice;
      SumPush(PaymentsFor(i), s.payments, Some(Payment(x, s.invoices[x].tenant, s.invoices[x].total)));
    }
  }

  lemma StepBacked(s: Ledger, e: Event, i: nat)
    requires Enabled(s, e) && Backed(s, i)
    ensures Backed(Apply(s, e), i)
  {
    TaskCounts(s, e, i);
    RowCounts(s, e, i);
    StepRows(s, e);
  }

  lemma StepExcess(s: Ledger, e: Event, i: nat)
    requires Enabled(s, e) && Backed(s, i)
    ensures Backed(Apply(s, e), i)
    ensures Excess(Apply(s, e), i) == Excess(s, i) + (if UpdateTells(s, e, i) then 0 else 1)
  {
    StepBacked(s, e, i);
    TaskCounts(s, e, i);
    RowCounts(s, e, i);
  }

  ghost predicate UpdatesTell(s: Ledger, es: seq<Event>, i: nat)
    requires Run(s, es)
    decreases |es|
  {
    es != [] ==> UpdateTells(s, es[0], i) && UpdatesTell(Apply(s, es[0]), es[1..], i)
  }

  lemma {:induction false} RunExcess(s: Ledger, es: seq<Event>, i: nat)
    requires Run(s, es) && Backed(s, i)
    ensures Backed(End(s, es), i) && Excess(End(s, es), i) >= Excess(s, i) >= 0
    ensures Excess(End(s, es), i) == Excess(s, i) <==> UpdatesTell(s, es, i)
    decreases |es|
  {
    if es != [] {
      StepExcess(s, es[0], i);
      RunExcess(Apply(s, es[0]), es[1..], i);
    }
  }

  /**
   On every run, failures and overlaps included: with no payment of it under way, an invoice
   has exactly one payment row if it is PAID and none otherwise, if and only if no status
   update of it failed and none found it PAID already.  Every row has the stored total and tenant.
   */
  lemma OnePaymentIffUpdatesTell(es: seq<Event>, i: nat)
    requires Run(START, es) && i < |End(START, es).invoices| && PaymentsUnderWay(End(START, es), i) == 0
    ensures var s := End(START, es);
      && (Rows(s, i) == (if s.invoices[i].status == Paid then 1 else 0) <==> UpdatesTell(START, es, i))
      && forall x <- s.payments ::
           x.invoice == i ==> x.amount == s.invoices[i].total && x.tenant == s.invoices[i].tenant
  {
    RunExcess(START, es, i);
  }

  // ---------- When a second payment may start ----------

  /** Payments of invoice i accepted so far: recorded in a row, or charged and not yet recorded. */
  function Accepted(s: Ledger, i: nat): nat {
    Rows(s, i) + Sum(ChargedFor(i), s.tasks)
  }

  /** e is a payment of i that passes the checks and that Stripe accepts. */
  predicate Accepts(s: Ledger, e: Event, i: nat) {
    e == Pay(i, true) && i < |s.invoices| && s.invoices[i].status != Paid
  }

  /** If e is an accepted payment of i, none is under way. */
  predicate PaymentApart(s: Ledger, e: Event, i: nat) {
    Accepts(s, e, i) ==> PaymentsUnderWay(s, i) == 0
  }

  /** A row of i is explained by the status or by a payment waiting for its update. */
  ghost predicate Explained(s: Ledger, i: nat) {
    Backed(s, i) && (Rows(s, i) >= 1 ==> Due(s, i) == 1 || Sum(RecordedFor(i), s.tasks) >= 1)
  }

  lemma StepAccepted(s: Ledger, e: Event, i: nat)
    requires Enabled(s, e) && Explained(s, i) && (e.Fail? ==> s.tasks[e.j] != Recorded(i))
    ensures Explained(Apply(s, e), i)
    ensures Accepted(Apply(s, e), i) == Accepted(s, i)
      + (if Accepts(s, e, i) then 1 else 0) - (if e.Fail? && s.tasks[e.j] == Charged(i) then 1 else 0)
    ensures Accepted(s, i) <= 1 && Accepts(s, e, i) ==> (Accepted(Apply(s, e), i) <= 1 <==> PaymentApart(s, e, i))
  {
    StepBacked(s, e, i);
    TaskCounts(s, e, i);
    RowCounts(s, e, i);
  }

  ghost predicate PaymentsApart(s: Ledger, es: seq<Event>, i: nat)
    requires Run(s, es)
    decreases |es|
  {
    es != [] ==> PaymentApart(s, es[0], i) && PaymentsApart(Apply(s, es[0]), es[1..], i)
  }

  lemma {:induction false} RunAccepted(s: Ledger, es: seq<Event>, i: nat)
    requires Run(s, es) && Explained(s, i) && NoneFails(s, es, RecordedFor(i))
    ensures Explained(End(s, es), i)
    ensures Accepted(s, i) <= 1 && PaymentsApart(s, es, i) ==> Accepted(End(s, es), i) <= 1
    ensures NoneFails(s, es, ChargedFor(i)) ==> Accepted(End(s, es), i) >= Accepted(s, i)
    ensures NoneFails(s, es, ChargedFor(i)) && Accepted(s, i) <= 1 && Accepted(End(s, es), i) <= 1 ==>
      PaymentsApart(s, es, i)
    decreases |es|
  {
    if es != [] {
      StepAccepted(s, es[0], i);
      RunAccepted(Apply(s, es[0]), es[1..], i);
    }
  }

  /**
   When no status update of the invoice fails, it is enough that no payment of it is
   accepted while another is under way; and when no payment row fails to be written
   either, it is also necessary.
   */
  lemma OnePaymentIffApart(es: seq<Event>, i: nat)
    requires Run(START, es) && i < |End(START, es).invoices| && PaymentsUnderWay(End(START, es), i) == 0
    requires NoneFails(START, es, RecordedFor(i))
    ensures var s := End(START, es);
      var oneRow := Rows(s, i) == (if s.invoices[i].status == Paid then 1 else 0);
      && (PaymentsApart(START, es, i) ==> oneRow)
      && (NoneFails(START, es, ChargedFor(i)) && oneRow ==> PaymentsApart(START, es, i))
  {
    RunAccepted(START, es, i);
  }

  // ---------- Invoices of one tenant and period ----------

  /** Invoices stored or being generated. */
  function Billed(s: Ledger, t: string, p: nat): nat {
    Sum(InvoicesOf(t, p), s.invoices) + Sum(GeneratesFor(t, p), s.tasks)
  }

  /** If e starts a generation for t and p, there is no such invoice and none is being generated. */
  ghost predicate BillApart(s: Ledger, e: Event, t: string, p: nat) {
    Starts(s, e).Some? && GeneratesFor(t, p)(Starts(s, e).value) == 1 ==>
      !HasInvoice(s, t, p) && Sum(GeneratesFor(t, p), s.tasks) == 0
  }

  lemma StepBilled(s: Ledger, e: Event, t: string, p: nat)
    requires Enabled(s, e)
    ensures (e.Fail? ==> GeneratesFor(t, p)(s.tasks[e.j]) == 0) ==> Billed(Apply(s, e), t, p) >= Billed(s, t, p)
    ensures Billed(s, t, p) <= 1 ==> (Billed(Apply(s, e), t, p) <= 1 <==> BillApart(s, e, t, p))
  {
    if e.Go? {
      var x := s.tasks[e.j];
      CountStep(GeneratesFor(t, p), s, e.j);
      match x
      case Generating(tenant, q, total) =>
        SumPush(InvoicesOf(t, p), s.invoices, Some(Invoice(tenant, q, total, Pending)));
      case Recorded(i) => SumUpdate(InvoicesOf(t, p), s.invoices, i, s.invoices[i].(status := Paid));
      case _ =>
    } else if e.Fail? {
      SumRemove(GeneratesFor(t, p), s.tasks, e.j);
    } else {
      CountStart(GeneratesFor(t, p), s, e);
      SumPositive(InvoicesOf(t, p), s.invoices);
    }
  }

  ghost predicate BillsApart(s: Ledger, es: seq<Event>, t: string, p: nat)
    requires Run(s, es)
    decreases |es|
  {
    es != [] ==> BillApart(s, es[0], t, p) && BillsApart(Apply(s, es[0]), es[1..], t, p)
  }

  lemma {:induction false} RunBilled(s: Ledger, es: seq<Event>, t: string, p: nat)
    requires Run(s, es)
    ensures Billed(s, t, p) <= 1 && BillsApart(s, es, t, p) ==> Billed(End(s, es), t, p) <= 1
    ensures NoneFails(s, es, GeneratesFor(t, p)) ==> Billed(End(s, es), t, p) >= Billed(s, t, p)
    ensures NoneFails(s, es, GeneratesFor(t, p)) && Billed(s, t, p) <= 1 && Billed(End(s, es), t, p) <= 1 ==>
      BillsApart(s, es, t, p)
    decreases |es|
  {
    if es != [] {
      StepBilled(s, es[0], t, p);
      RunBilled(Apply(s, es[0]), es[1..], t, p);
    }
  }

  /**
   A tenant has at most one invoice for a period start, however often the generator runs,
   as long as no generation for the two starts while one is under way or, unchecked, when
   the invoice exists.  When all generations for them are done and none failed, only then.
   */
  lemma OneInvoiceIffApart(es: seq<Event>, t: string, p: nat)
    requires Run(START, es)
    ensures BillsApart(START, es, t, p) ==> Sum(InvoicesOf(t, p), End(START, es).invoices) <= 1
    ensures Sum(GeneratesFor(t, p), End(START, es).tasks) == 0 && NoneFails(START, es, GeneratesFor(t, p)) ==>
      (Sum(InvoicesOf(t, p), End(START, es).invoices) <= 1 <==> BillsApart(START, es, t, p))
  {
    RunBilled(START, es, t, p);
  }

  // ---------- Active subscriptions of one tenant ----------

  /** Active rows of t that no pending creation is about to deactivate. */
  function Spared(s: Ledger, t: string): set<nat> {
    set k: nat | k < |s.subs| && s.subs[k] == Subscription(t, true) && Creating(t, Some(k)) !in s.tasks
  }

  /** The active rows t will have once its pending creations are done. */
  function Prospects(s: Ledger, t: string): nat {
    |Spared(s, t)| + Sum(CreatesFor(t), s.tasks)
  }

  /** The row a creation found active belongs to its tenant. */
  ghost predicate CreationsLinked(s: Ledger) {
    forall x <- s.tasks :: x.Creating? && x.existing.Some? ==>
      x.existing.value < |s.subs| && s.subs[x.existing.value].tenant == x.tenant
  }

  /** If e subscribes t, no subscribe call of t is under way. */
  predicate SubscribeApart(s: Ledger, e: Event, t: string) {
    e.Subscribe? && e.tenant == t ==> Sum(CreatesFor(t), s.tasks) == 0
  }

  lemma TasksBut(tasks: seq<Task>, j: nat, x: Task, y: Task)
    requires j < |tasks| && tasks[j] != y && x != y
    ensures y in RemoveAt(tasks, j) <==> y in tasks
    ensures y in tasks[j := x] <==> y in tasks
  {
    if y in tasks {
      var i :| 0 <= i < |tasks| && tasks[i] == y;
      assert RemoveAt(tasks, j)[if i < j then i else i - 1] == y;
      assert tasks[j := x][i] == y;
    }
  }

  lemma StartSpares(s: Ledger, e: Event, t: string)
    requires Enabled(s, e) && Opens(e)
    ensures Spared(Apply(s, e), t) ==
      if e.Subscribe? && e.tenant == t && e.existing.Some? then Spared(s, t) - {e.existing.value} else Spared(s, t)
  {
  }

  lemma GoSpares(s: Ledger, j: nat, t: string)
    requires j < |s.tasks| && Sane(s, s.tasks[j]) && CreationsLinked(s)
    ensures Spared(Advance(s, j), t) == if s.tasks[j] == Replacing(t) then Spared(s, t) + {|s.subs|} else Spared(s, t)
  {
    var r, x := Advance(s, j), s.tasks[j];
    var next := if Successor(x).Some? then Successor(x).value else x;
    forall k: nat | k < |r.subs|
      ensures k in Spared(r, t) <==> k in Spared(s, t) || (x == Replacing(t) && k == |s.subs|)
    {
      if x != Creating(t, Some(k)) { TasksBut(s.tasks, j, next, Creating(t, Some(k))); }
    }
  }

  /** A creation that fails spares at most the row it was about to deactivate. */
  lemma FailSpares(s: Ledger, j: nat, t: string)
    requires j < |s.tasks|
    ensures Prospects(s.(tasks := RemoveAt(s.tasks, j)), t) <= Prospects(s, t)
    ensures CreatesFor(t)(s.tasks[j]) == 0 ==> Prospects(s.(tasks := RemoveAt(s.tasks, j)), t) == Prospects(s, t)
  {
    var r, x := s.(tasks := RemoveAt(s.tasks, j)), s.tasks[j];
    var own := if x.Creating? && x.tenant == t && x.existing.Some? then {x.existing.value} else {};
    SumRemove(CreatesFor(t), s.tasks, j);
    forall k: nat | k < |s.subs| && k !in own ensures k in Spared(r, t) <==> k in Spared(s, t) {
      TasksBut(s.tasks, j, Replacing(t), Creating(t, Some(k)));
    }
    assert own == {} ==> Spared(r, t) == Spared(s, t);
    SetSize(Spared(r, t), Spared(s, t), own);
  }

  lemma StepLinked(s: Ledger, e: Event)
    requires Enabled(s, e) && CreationsLinked(s)
    ensures CreationsLinked(Apply(s, e))
  {
  }

  /** A subscribe call that starts alone leaves at most one prospect, and one that does not leaves two. */
  lemma SubscribeProspects(s: Ledger, e: Event)
    requires Enabled(s, e) && e.Subscribe?
    ensures Prospects(Apply(s, e), e.tenant) >= Prospects(s, e.tenant)
    ensures Prospects(s, e.tenant) <= 1 ==>
      (Prospects(Apply(s, e), e.tenant) <= 1 <==> Sum(CreatesFor(e.tenant), s.tasks) == 0)
  {
    var t := e.tenant;
    CountStart(CreatesFor(t), s, e);
    StartSpares(s, e, t);
    if e.existing == None {
      assert Spared(s, t) == {};
    } else if Creating(t, e.existing) in s.tasks {
      SumPositive(CreatesFor(t), s.tasks);
    } else {
      assert e.existing.value in Spared(s, t);
    }
  }

  lemma GoProspects(s: Ledger, j: nat, t: string)
    requires j < |s.tasks| && Sane(s, s.tasks[j]) && CreationsLinked(s)
    ensures Prospects(Advance(s, j), t) == Prospects(s, t)
  {
    CountStep(CreatesFor(t), s, j);
    GoSpares(s, j, t);
    assert |s.subs| !in Spared(s, t);
  }

  lemma OtherProspects(s: Ledger, e: Event, t: string)
    requires Enabled(s, e) && Opens(e) && !(e.Subscribe? && e.tenant == t)
    ensures Prospects(Apply(s, e), t) == Prospects(s, t)
  {
    CountStart(CreatesFor(t), s, e);
    StartSpares(s, e, t);
  }

  lemma StepProspects(s: Ledger, e: Event, t: string)
    requires Enabled(s, e) && CreationsLinked(s)
    ensures (e.Fail? ==> CreatesFor(t)(s.tasks[e.j]) == 0) ==> Prospects(Apply(s, e), t) >= Prospects(s, t)
    ensures Prospects(s, t) <= 1 ==> (Prospects(Apply(s, e), t) <= 1 <==> SubscribeApart(s, e, t))
  {
    if e.Fail? {
      FailSpares(s, e.j, t);
    } else if e.Go? {
      GoProspects(s, e.j, t);
    } else if e.Subscribe? && e.tenant == t {
      SubscribeProspects(s, e);
    } else {
      OtherProspects(s, e, t);
    }
  }

  ghost predicate SubscribesApart(s: Ledger, es: seq<Event>, t: string)
    requires Run(s, es)
    decreases |es|
  {
    es != [] ==> SubscribeApart(s, es[0], t) && SubscribesApart(Apply(s, es[0]), es[1..], t)
  }

  lemma {:induction false} RunProspects(s: Ledger, es: seq<Event>, t: string)
    requires Run(s, es) && CreationsLinked(s)
    ensures Prospects(s, t) <= 1 && SubscribesApart(s, es, t) ==> Prospects(End(s, es), t) <= 1
    ensures NoneFails(s, es, CreatesFor(t)) ==> Prospects(End(s, es), t) >= Prospects(s, t)
    ensures NoneFails(s, es, CreatesFor(t)) && Prospects(s, t) <= 1 && Prospects(End(s, es), t) <= 1 ==>
      SubscribesApart(s, es, t)
    decreases |es|
  {
    if es != [] {
      StepProspects(s, es[0], t);
      StepLinked(s, es[0]);
      RunProspects(Apply(s, es[0]), es[1..], t);
    }
  }

  /** The active rows of t. */
  function RowsOf(subs: seq<Subscription>, t: string): set<nat> {
    set k: nat | k < |subs| && subs[k] == Subscription(t, true)
  }

  lemma RowsPush(front: seq<Subscription>, last: Subscription, t: string)
    ensures |RowsOf(front + [last], t)| == |RowsOf(front, t)| + (if last == Subscription(t, true) then 1 else 0)
  {
    assert RowsOf(front + [last], t) ==
      RowsOf(front, t) + (if last == Subscription(t, true) then {|front|} else {});
  }

  lemma {:induction false} ActiveRows(subs: seq<Subscription>, t: string)
    ensures |RowsOf(subs, t)| == Sum(ActiveOf(t), subs)
  {
    if subs == [] {
      assert RowsOf(subs, t) == {};
    } else {
      var front, last := subs[..|subs| - 1], subs[|subs| - 1];
      ActiveRows(front, t);
      assert subs == front + [last] == Push(front, Some(last));
      RowsPush(front, last, t);
      SumPush(ActiveOf(t), front, Some(last));
    }
  }

  /** The rows pending creations of t are about to deactivate. */
  function Targets(tasks: seq<Task>, t: string): set<nat> {
    set x <- tasks | x.Creating? && x.tenant == t && x.existing.Some? :: x.existing.value
  }

  lemma {:induction false} TargetsAreFew(tasks: seq<Task>, t: string)
    ensures |Targets(tasks, t)| <= Sum(CreatesFor(t), tasks)
  {
    if tasks != [] {
      var x := tasks[0];
      TargetsAreFew(tasks[1..], t);
      assert Targets(tasks, t) == Targets(tasks[1..], t)
        + (if x.Creating? && x.tenant == t && x.existing.Some? then {x.existing.value} else {});
    }
  }

  lemma SetSize(a: set<nat>, b: set<nat>, c: set<nat>)
    requires a <= b + c
    ensures |a| <= |b| + |c|
  {
    assert b + c == b + (c - b) && b + c == a + (b + c - a);
  }

  /** Active rows never outnumber prospects, and are as many when no creation is pending. */
  lemma ActiveProspects(s: Ledger, t: string)
    ensures Sum(ActiveOf(t), s.subs) <= Prospects(s, t)
    ensures Sum(CreatesFor(t), s.tasks) == 0 ==> Sum(ActiveOf(t), s.subs) == Prospects(s, t)
  {
    var rows := RowsOf(s.subs, t);
    ActiveRows(s.subs, t);
    TargetsAreFew(s.tasks, t);
    assert forall k <- rows :: k in Spared(s, t) || k in Targets(s.tasks, t);
    SetSize(rows, Spared(s, t), Targets(s.tasks, t));
    SetSize(Spared(s, t), rows, {});
  }

  /**
   A tenant has at most one active subscription as long as no subscribe call of the tenant
   starts while another of the tenant is under way.  When all its calls are done and none
   failed, only then.
   */
  lemma OneActiveIffApart(es: seq<Event>, t: string)
    requires Run(START, es)
    ensures SubscribesApart(START, es, t) ==> Sum(ActiveOf(t), End(START, es).subs) <= 1
    ensures Sum(CreatesFor(t), End(START, es).tasks) == 0 && NoneFails(START, es, CreatesFor(t)) ==>
      (Sum(ActiveOf(t), End(START, es).subs) <= 1 <==> SubscribesApart(START, es, t))
  {
    assert Spared(START, t) == {};
    RunProspects(START, es, t);
    ActiveProspects(End(START, es), t);
  }

  // ---------- Whatever overlaps ----------

  /** PAID never reverts and totals never change, on any run whatever, overlapping or not. */
  lemma {:induction false} PaidIsForever(s: Ledger, es: seq<Event>, i: nat)
    requires Run(s, es) && i < |s.invoices|
    ensures i < |End(s, es).invoices|
    ensures s.invoices[i].status == Paid ==> End(s, es).invoices[i].status == Paid
    ensures SameBill(End(s, es).invoices[i], s.invoices[i])
    decreases |es|
  {
    if es != [] {
      PaidIsForever(Apply(s, es[0]), es[1..], i);
    }
  }

  predicate SameBill(v: Invoice, u: Invoice) {
    v.tenant == u.tenant && v.periodStart == u.periodStart && v.total == u.total
  }

  /** Invoice v was in the table already, was about to be inserted, or e or a later event of the run asks for it. */
  ghost predicate Ordered(s: Ledger, es: seq<Event>, v: Invoice) {
    || (exists u <- s.invoices :: SameBill(v, u))
    || Generating(v.tenant, v.periodStart, v.total) in s.tasks
    || Bill(v.tenant, v.periodStart, v.total, true) in es
    || Bill(v.tenant, v.periodStart, v.total, false) in es
  }

  lemma OrderedBefore(s: Ledger, es: seq<Event>, v: Invoice)
    requires es != [] && Enabled(s, es[0]) && Ordered(Apply(s, es[0]), es[1..], v)
    ensures Ordered(s, es, v)
  {
    var r := Apply(s, es[0]);
    if u :| u in r.invoices && SameBill(v, u) {
      var k :| 0 <= k < |r.invoices| && r.invoices[k] == u;
      if k < |s.invoices| {
        assert SameBill(v, s.invoices[k]);
      } else {
        assert s.tasks[es[0].j] == Generating(v.tenant, v.periodStart, v.total);
      }
    } else if Generating(v.tenant, v.periodStart, v.total) in r.tasks {
      assert Generating(v.tenant, v.periodStart, v.total) in s.tasks
        || es[0] == Bill(v.tenant, v.periodStart, v.total, es[0].checked);
    }
  }

  lemma {:induction false} RunOrdered(s: Ledger, es: seq<Event>, v: Invoice)
    requires Run(s, es) && v in End(s, es).invoices
    ensures Ordered(s, es, v)
    decreases |es|
  {
    if es == [] {
      assert SameBill(v, v);
    } else {
      RunOrdered(Apply(s, es[0]), es[1..], v);
      OrderedBefore(s, es, v);
    }
  }

  /** On every run, every invoice is one that was asked for: its tenant, its period, and its total as priced. */
  lemma InvoicesAsBilled(es: seq<Event>, v: Invoice)
    requires Run(START, es) && v in End(START, es).invoices
    ensures Bill(v.tenant, v.periodStart, v.total, true) in es || Bill(v.tenant, v.periodStart, v.total, false) in es
  {
    RunOrdered(START, es, v);
  }

  // ---------- What an overlap does ----------

  ghost predicate Steps(s: Ledger, e: Event, t: Ledger) {
    Enabled(s, e) && Apply(s, e) == t
  }

  lemma RunOfSix(es: seq<Event>, ss: seq<Ledger>)
    requires |es| == 6 && |ss| == 7
    requires forall k :: 0 <= k < 6 ==> Steps(ss[k], es[k], ss[k + 1])
    ensures Run(ss[0], es) && End(ss[0], es) == ss[6]
  {
    RunFrom(es, ss, 0);
    assert es[0..] == es;
  }

  lemma {:induction false} RunFrom(es: seq<Event>, ss: seq<Ledger>, k: nat)
    requires k <= |es| && |ss| == |es| + 1
    requires forall i :: 0 <= i < |es| ==> Steps(ss[i], es[i], ss[i + 1])
    ensures Run(ss[k], es[k..]) && End(ss[k], es[k..]) == ss[|es|]
    decreases |es| - k
  {
    if k < |es| {
      RunFrom(es, ss, k + 1);
      assert Steps(ss[k], es[k], ss[k + 1]);
      assert es[k..][0] == es[k] && es[k..][1..] == es[k + 1..];
    }
  }

  lemma PairOfTasks(a: Task, b: Task, c: Task)
    ensures [a] + [b] == [a, b] && [a, b][0 := c] == [c, b] && [a, b][1 := c] == [a, c]
    ensures RemoveAt([a, b], 0) == [b] && RemoveAt([a], 0) == []
  {
  }

  /** Both payments read the invoice, both write their row, both update the status. */
  function TwoPayments(i: nat): seq<Event> {
    [Pay(i, true), Pay(i, true), Go(0), Go(1), Go(0), Go(0)]
  }

  /** The ledger before and after each event. */
  function PaymentStates(s: Ledger, i: nat): (ss: seq<Ledger>)
    requires i < |s.invoices|
    ensures |ss| == 7
  {
    var p := Payment(i, s.invoices[i].tenant, s.invoices[i].total);
    var paid := s.invoices[i := s.invoices[i].(status := Paid)];
    var s3 := s.(payments := s.payments + [p], tasks := [Recorded(i), Charged(i)]);
    var s4 := s.(payments := s.payments + [p] + [p], tasks := [Recorded(i), Recorded(i)]);
    [s, s.(tasks := [Charged(i)]), s.(tasks := [Charged(i), Charged(i)]), s3, s4,
     s4.(invoices := paid, tasks := [Recorded(i)]), s4.(invoices := paid, tasks := [])]
  }

  lemma PaymentSteps(s: Ledger, i: nat)
    requires s.tasks == [] && i < |s.invoices| && s.invoices[i].status == Pending
    ensures var es, ss := TwoPayments(i), PaymentStates(s, i);
      forall k :: 0 <= k < 6 ==> Steps(ss[k], es[k], ss[k + 1])
  {
  }

  /** Two payments of one invoice that both read it before either writes end with two payment rows for it. */
  lemma OverlappingPaymentsPayTwice(s: Ledger, i: nat)
    requires s.tasks == [] && i < |s.invoices| && s.invoices[i].status == Pending
    ensures Run(s, TwoPayments(i)) && Rows(End(s, TwoPayments(i)), i) == Rows(s, i) + 2
  {
    var p := Payment(i, s.invoices[i].tenant, s.invoices[i].total);
    PaymentSteps(s, i);
    RunOfSix(TwoPayments(i), PaymentStates(s, i));
    SumPush(PaymentsFor(i), s.payments, Some(p));
    SumPush(PaymentsFor(i), s.payments + [p], Some(p));
  }

  lemma CreatingSteps(s: Ledger, j: nat, tenant: string)
    requires j < |s.tasks| && s.tasks[j] == Creating(tenant, None)
    ensures Steps(s, Go(j), s.(tasks := s.tasks[j := Replacing(tenant)]))
  {
  }

  lemma ReplacingSteps(s: Ledger, j: nat, tenant: string)
    requires j < |s.tasks| && s.tasks[j] == Replacing(tenant)
    ensures Steps(s, Go(j), s.(subs := s.subs + [Subscription(tenant, true)], tasks := RemoveAt(s.tasks, j)))
  {
  }

  /** Two subscribe calls that both look before either writes leave the tenant with two active subscriptions. */
  lemma OverlappingSubscribesLeaveTwo(tenant: string)
    ensures var es := [Subscribe(tenant, None), Subscribe(tenant, None), Go(0), Go(1), Go(0), Go(0)];
      Run(START, es) && Sum(ActiveOf(tenant), End(START, es).subs) == 2
  {
    var es := [Subscribe(tenant, None), Subscribe(tenant, None), Go(0), Go(1), Go(0), Go(0)];
    var x := Subscription(tenant, true);
    var look, write := Creating(tenant, None), Replacing(tenant);
    var s1, s2 := START.(tasks := [look]), START.(tasks := [look, look]);
    var s3, s4 := START.(tasks := [write, look]), START.(tasks := [write, write]);
    var s5, s6 := Ledger([x], [], [], [write]), Ledger([x] + [x], [], [], []);
    PairOfTasks(look, look, write);
    PairOfTasks(write, look, write);
    PairOfTasks(write, write, write);
    assert Steps(START, es[0], s1) && Steps(s1, es[1], s2);
    CreatingSteps(s2, 0, tenant);
    CreatingSteps(s3, 1, tenant);
    ReplacingSteps(s4, 0, tenant);
    ReplacingSteps(s5, 0, tenant);
    RunOfSix(es, [START, s1, s2, s3, s4, s5, s6]);
    SumConcat(ActiveOf(tenant), [x], [x]);
  }
}
