/**
 The gateway's circuit breaker for one service, and its state read off the history of
 checks, successes and failures.
 */
module Breaker {
  import opened Prelude

  datatype Phase = Closed | Open | HalfOpen

  datatype Breaker = Breaker(failures: nat, successes: nat, phase: Phase, lastFailure: Option<Time>)

  const FRESH := Breaker(0, 0, Closed, None)
  const RETRY_AFTER: Time := 60.0

  /** `if breaker['last_failure']` and more than a minute since: a reading of exactly 0.0 counts as none. */
  predicate MayProbe(last: Option<Time>, now: Time) {
    last.Some? && last.value != 0.0 && now - last.value > RETRY_AFTER
  }

  /** _is_circuit_open: the breaker afterwards. */
  function Check(b: Breaker, now: Time): Breaker {
    if b.phase == Open && MayProbe(b.lastFailure, now) then b.(phase := HalfOpen) else b
  }

  /** _is_circuit_open: its answer. */
  predicate Refuses(b: Breaker, now: Time) {
    b.phase == Open && !MayProbe(b.lastFailure, now)
  }

  /** _record_success on an existing breaker. */
  function Succeed(b: Breaker): Breaker {
    var b1 := b.(successes := b.successes + 1);
    if b1.phase == HalfOpen && b1.successes > 5 then b1.(phase := Closed, failures := 0) else b1
  }

  /** _record_failure. */
  function Fail(b: Breaker, now: Time): Breaker {
    var b1 := b.(failures := b.failures + 1, lastFailure := Some(now));
    if b1.failures > 5 then b1.(phase := Open) else b1
  }

  // ---------- Histories ----------

  datatype Op = Checked(now: Time) | Succeeded | Failed(now: Time)

  function Step(b: Breaker, op: Op): Breaker {
    match op
    case Checked(now) => Check(b, now)
    case Succeeded => Succeed(b)
    case Failed(now) => Fail(b, now)
  }

  /** The breaker after a history, oldest operation first. */
  function After(ops: seq<Op>): Breaker {
    if ops == [] then FRESH else Step(After(ops[..|ops| - 1]), ops[|ops| - 1])
  }

  function Failures(ops: seq<Op>): nat {
    if ops == [] then 0 else Failures(ops[..|ops| - 1]) + if ops[|ops| - 1].Failed? then 1 else 0
  }

  function Successes(ops: seq<Op>): nat {
    if ops == [] then 0 else Successes(ops[..|ops| - 1]) + if ops[|ops| - 1].Succeeded? then 1 else 0
  }

  function LastFailure(ops: seq<Op>): Option<Time> {
    if ops == [] then None
    else if ops[|ops| - 1].Failed? then Some(ops[|ops| - 1].now)
    else LastFailure(ops[..|ops| - 1])
  }

  /** Operation i takes the breaker from open or half-open to closed. */
  predicate ClosesAt(ops: seq<Op>, i: nat)
    requires i < |ops|
  {
    After(ops[..i]).phase != Closed && After(ops[..i + 1]).phase == Closed
  }

  /** i is where the current count of failures began: creation, or just after the last closing. */
  ghost predicate CountsFrom(ops: seq<Op>, i: nat)
    requires i <= |ops|
  {
    (i == 0 || ClosesAt(ops, i - 1)) && forall j :: i <= j < |ops| ==> !ClosesAt(ops, j)
  }

  /** Operation i lets a probe through: half a reopening. */
  ghost predicate ProbesAt(ops: seq<Op>, i: nat)
    requires i < |ops|
  {
    var last := LastFailure(ops[..i]);
    && ops[i].Checked? && After(ops[..i]).phase == Open
    && last.Some? && last.value != 0.0 && ops[i].now - last.value > 60.0
  }

  lemma {:induction false} CountersAreHistory(ops: seq<Op>)
    ensures After(ops).successes == Successes(ops)
    ensures After(ops).lastFailure == LastFailure(ops)
    ensures After(ops).phase != Closed ==> After(ops).failures > 5
    ensures After(ops).phase == Closed ==> After(ops).failures <= 5
  {
    if ops != [] { CountersAreHistory(ops[..|ops| - 1]); }
  }

  /** The recorded failure count is the number of failures since the count began. */
  lemma {:induction false} FailuresAreHistory(ops: seq<Op>, i: nat)
    requires i <= |ops| && CountsFrom(ops, i)
    ensures After(ops).failures == Failures(ops[i..])
  {
    CountersAreHistory(ops);
    if i == |ops| {
      assert ops[..|ops|] == ops;
      if i > 0 { CountersAreHistory(ops[..i - 1]); }
    } else {
      var front := ops[..|ops| - 1];
      assert forall j :: 0 <= j <= |front| ==> front[..j] == ops[..j];
      assert forall j :: 0 <= j < |front| ==> (ClosesAt(front, j) <==> ClosesAt(ops, j));
      FailuresAreHistory(front, i);
      CountersAreHistory(front);
      assert ops[i..][..|ops[i..]| - 1] == front[i..];
      assert ops[..|ops| - 1] == front && ops[..|ops|] == ops;
      assert !ClosesAt(ops, |ops| - 1);
    }
  }

  /** Closed means: at most five failures since creation or since the last closing. */
  lemma ClosedIffFewFailures(ops: seq<Op>, i: nat)
    requires i <= |ops| && CountsFrom(ops, i)
    ensures After(ops).phase == Closed <==> Failures(ops[i..]) <= 5
  {
    FailuresAreHistory(ops, i);
    CountersAreHistory(ops);
  }

  /** There always is such a point, so the characterisation above covers every history. */
  lemma {:induction false} CountBegins(ops: seq<Op>) returns (i: nat)
    ensures i <= |ops| && CountsFrom(ops, i)
  {
    if ops == [] {
      i := 0;
    } else {
      var front := ops[..|ops| - 1];
      assert forall j :: 0 <= j <= |front| ==> front[..j] == ops[..j];
      if ClosesAt(ops, |ops| - 1) {
        i := |ops|;
      } else {
        i := CountBegins(front);
        assert forall j :: 0 <= j < |front| ==> (ClosesAt(front, j) <==> ClosesAt(ops, j));
      }
    }
  }

  /** The breaker closes exactly at a success while half-open that is at least the sixth success ever. */
  lemma ClosesIff(ops: seq<Op>, i: nat)
    requires i < |ops|
    ensures ClosesAt(ops, i) <==>
      ops[i].Succeeded? && After(ops[..i]).phase == HalfOpen && Successes(ops[..i + 1]) > 5
  {
    assert ops[..i + 1][..i] == ops[..i];
    CountersAreHistory(ops[..i]);
    CountersAreHistory(ops[..i + 1]);
  }

  /** Operation i let a probe through, and since then nothing failed and nothing closed the circuit. */
  ghost predicate Probing(ops: seq<Op>, i: nat) {
    i < |ops| && ProbesAt(ops, i) && forall j :: i < j < |ops| ==> !ops[j].Failed? && !ClosesAt(ops, j)
  }

  lemma ProbingStep(ops: seq<Op>, i: nat)
    requires i < |ops| - 1
    ensures Probing(ops, i) <==>
      Probing(ops[..|ops| - 1], i) && !ops[|ops| - 1].Failed? && !ClosesAt(ops, |ops| - 1)
  {
    var n := |ops| - 1;
    var front := ops[..n];
    assert forall j :: 0 <= j <= n ==> front[..j] == ops[..j];
    assert forall j :: 0 <= j < n ==> (ClosesAt(front, j) <==> ClosesAt(ops, j));
    assert ProbesAt(front, i) <==> ProbesAt(ops, i);
    if Probing(front, i) && !ops[n].Failed? && !ClosesAt(ops, n) {
      forall j | i < j < |ops| ensures !ops[j].Failed? && !ClosesAt(ops, j) {
        if j < n { assert !front[j].Failed? && !ClosesAt(front, j); }
      }
    }
  }

  /**
   Half-open means: a check while open, over a minute after the last failure, started a probe that is
   still undecided.
   */
  lemma {:induction false} HalfOpenIff(ops: seq<Op>)
    ensures After(ops).phase == HalfOpen <==> exists i: nat :: Probing(ops, i)
  {
    if ops != [] {
      var n := |ops| - 1;
      var front := ops[..n];
      HalfOpenIff(front);
      CountersAreHistory(front);
      assert ops[..n + 1] == ops;
      if After(ops).phase == HalfOpen {
        if After(front).phase == HalfOpen {
          var i: nat :| Probing(front, i);
          ProbingStep(ops, i);
        } else {
          assert ProbesAt(ops, n) && Probing(ops, n);
        }
      }
      if i: nat :| Probing(ops, i) {
        if i < n { ProbingStep(ops, i); }
      }
    }
  }
}
