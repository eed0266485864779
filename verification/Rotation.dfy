/**
 Refresh-token rotation, on every run: overlapping refreshes, failing stores and restarts
 included.  For each token the lemmas say when it is redeemed more than once, and for each
 login when it has other than one unredeemed token.
 */
module Rotation {
  import opened Prelude
  import opened AuthModel

  function RedemptionsOf(rt: RefreshToken): ((RefreshToken, RefreshToken)) -> nat {
    (x: (RefreshToken, RefreshToken)) => if x.0 == rt then 1 else 0
  }

  /** How often rt was exchanged for a successor. */
  function Redemptions(s: Auth, rt: RefreshToken): nat {
    Sum(RedemptionsOf(rt), s.redeemed)
  }

  /** Issued and not yet exchanged for a successor. */
  predicate Unredeemed(s: Auth, rt: RefreshToken) {
    rt in s.stored && Redemptions(s, rt) == 0
  }

  /** Refreshes of rt under way. */
  function RefreshesOf(rt: RefreshToken): Task -> nat {
    (t: Task) => if (t.RefreshFound? || t.RefreshStored?) && t.prev == rt then 1 else 0
  }

  /** e completes a refresh of rt. */
  predicate Redeems(s: Auth, e: Event, rt: RefreshToken) {
    e.Go? && e.ok && e.j < |s.tasks| && s.tasks[e.j].RefreshStored? && s.tasks[e.j].prev == rt
  }

  // ---------- What holds on every run ----------

  ghost predicate Accounted(s: Auth) {
    && (forall rt :: rt in s.live <==> Unredeemed(s, rt) && rt !in s.expired)
    && (forall rt <- s.stored :: rt.family < s.logins)
    && s.expired <= s.stored
    && (forall rt :: Redemptions(s, rt) > 0 ==> rt in s.stored)
    && (forall t <- s.tasks :: TaskAccounted(s, t))
    && (forall family :: Sum(LoginsOf(family), s.tasks) <= 1)
  }

  /** Logins about to store the first token of the family. */
  function LoginsOf(family: nat): Task -> nat {
    (t: Task) => if t.LoginStoring? && t.rt.family == family then 1 else 0
  }

  ghost predicate TaskAccounted(s: Auth, t: Task) {
    match t
    case LoginStoring(_, rt) => rt.family < s.logins && forall x <- s.stored :: x.family != rt.family
    case RefreshFound(prev) => prev in s.stored
    case RefreshStored(prev, next) =>
      prev in s.stored && next in s.stored && prev != next && prev.family == next.family
    case _ => true
  }

  lemma RedemptionsStep(s: Auth, e: Event, expiry: Time, rt: RefreshToken)
    requires Enabled(s, e, expiry)
    ensures Redemptions(Apply(s, e, expiry), rt) == Redemptions(s, rt) + (if Redeems(s, e, rt) then 1 else 0)
  {
    if e.Go? && e.ok && s.tasks[e.j].RefreshStored? {
      SumPush(RedemptionsOf(rt), s.redeemed, Some((s.tasks[e.j].prev, s.tasks[e.j].next)));
    }
  }

  /** What an event does to a count of tasks, when it is no restart. */
  lemma TasksStep(f: Task -> nat, s: Auth, e: Event, expiry: Time)
    requires Enabled(s, e, expiry) && !e.Restart?
    ensures Sum(f, Apply(s, e, expiry).tasks) + (if e.Go? then f(s.tasks[e.j]) else 0) ==
      Sum(f, s.tasks) + (if Next(s, e).Some? then f(Next(s, e).value) else 0)
  {
    if e.Go? {
      if Next(s, e).Some? {
        SumUpdate(f, s.tasks, e.j, Next(s, e).value);
      } else {
        SumRemove(f, s.tasks, e.j);
      }
    } else {
      SumPush(f, s.tasks, Next(s, e));
    }
  }

  /** The task e starts, or the one it turns the task it resumes into. */
  function Next(s: Auth, e: Event): Option<Task>
    requires e.Go? ==> e.j < |s.tasks|
  {
    match e
    case Login(tok, rt, _) => Some(LoginStoring(tok, rt))
    case Revoke(tok) => Some(RevokeMarking(tok))
    case Refresh(prev) => if prev in s.live then Some(RefreshFound(prev)) else None
    case Go(j, _, ok, _, rt) =>
      if !ok then None
      else
        (match s.tasks[j]
         case LoginStoring(t, _) => Some(LoginInserting(t))
         case LoginInserting(t) => Some(LoginCaching(t))
         case RevokeMarking(t) => Some(RevokeUpdating(t))
         case RefreshFound(prev) => Some(RefreshStored(prev, rt))
         case _ => None)
    case _ => None
  }

  lemma LiveAccounted(s: Auth, e: Event, expiry: Time)
    requires Accounted(s) && Enabled(s, e, expiry)
    ensures var r := Apply(s, e, expiry);
      && (forall rt :: rt in r.live <==> Unredeemed(r, rt) && rt !in r.expired)
      && (forall rt <- r.stored :: rt.family < r.logins)
      && r.expired <= r.stored
      && (forall rt :: Redemptions(r, rt) > 0 ==> rt in r.stored)
  {
    if e.Go? { assert TaskAccounted(s, s.tasks[e.j]); }
    var r := Apply(s, e, expiry);
    forall rt ensures Redemptions(r, rt) == Redemptions(s, rt) + (if Redeems(s, e, rt) then 1 else 0) {
      RedemptionsStep(s, e, expiry, rt);
    }
  }

  lemma TasksAccounted(s: Auth, e: Event, expiry: Time)
    requires Accounted(s) && Enabled(s, e, expiry)
    ensures forall t <- Apply(s, e, expiry).tasks :: TaskAccounted(Apply(s, e, expiry), t)
  {
    var r := Apply(s, e, expiry);
    if e.Go? { assert TaskAccounted(s, s.tasks[e.j]); }
    forall k | 0 <= k < |r.tasks| ensures TaskAccounted(r, r.tasks[k]) {
      var i := if e.Go? && |r.tasks| < |s.tasks| && k >= e.j then k + 1 else k;
      if i < |s.tasks| {
        assert TaskAccounted(s, s.tasks[i]);
        if e.Go? && i != e.j {
          assert r.tasks[k] == s.tasks[i];
          if s.tasks[e.j].LoginStoring? { SumOnlyOne(LoginsOf(s.tasks[e.j].rt.family), s.tasks, e.j, i); }
        }
      }
    }
  }

  lemma LoginsApart(s: Auth, e: Event, expiry: Time, family: nat)
    requires Accounted(s) && Enabled(s, e, expiry)
    ensures Sum(LoginsOf(family), Apply(s, e, expiry).tasks) <= 1
  {
    if !e.Restart? { TasksStep(LoginsOf(family), s, e, expiry); }
    if e.Login? && e.rt.family == family {
      forall t <- s.tasks ensures LoginsOf(family)(t) == 0 { assert TaskAccounted(s, t); }
      SumPositive(LoginsOf(family), s.tasks);
    }
  }

  lemma StepAccounted(s: Auth, e: Event, expiry: Time)
    requires Accounted(s) && Enabled(s, e, expiry)
    ensures Accounted(Apply(s, e, expiry))
  {
    LiveAccounted(s, e, expiry);
    TasksAccounted(s, e, expiry);
    forall family ensures Sum(LoginsOf(family), Apply(s, e, expiry).tasks) <= 1 { LoginsApart(s, e, expiry, family); }
  }

  lemma {:induction false} RunAccounted(s: Auth, es: seq<Event>, expiry: Time)
    requires Accounted(s) && Run(s, es, expiry)
    ensures Accounted(End(s, es, expiry))
    ensures s.expired <= End(s, es, expiry).expired
    decreases |es|
  {
    if es != [] {
      StepAccounted(s, es[0], expiry);
      RunAccounted(Apply(s, es[0], expiry), es[1..], expiry);
    }
  }

  // ---------- Redeemed at most once ----------

  /** If e starts a refresh of rt, which is still live, none is under way. */
  predicate RefreshApart(s: Auth, e: Event, rt: RefreshToken) {
    e == Refresh(rt) && rt in s.live ==> Sum(RefreshesOf(rt), s.tasks) == 0
  }

  ghost predicate RefreshesApart(s: Auth, es: seq<Event>, expiry: Time, rt: RefreshToken)
    requires Run(s, es, expiry)
    decreases |es|
  {
    es != [] ==> RefreshApart(s, es[0], rt) && RefreshesApart(Apply(s, es[0], expiry), es[1..], expiry, rt)
  }

  /** Refreshes of rt done or under way. */
  function Exchanges(s: Auth, rt: RefreshToken): nat {
    Redemptions(s, rt) + Sum(RefreshesOf(rt), s.tasks)
  }

  lemma StepOnce(s: Auth, e: Event, expiry: Time, rt: RefreshToken)
    requires Accounted(s) && Enabled(s, e, expiry) && RefreshApart(s, e, rt) && Exchanges(s, rt) <= 1
    ensures Exchanges(Apply(s, e, expiry), rt) <= 1
  {
    RedemptionsStep(s, e, expiry, rt);
    if !e.Restart? { TasksStep(RefreshesOf(rt), s, e, expiry); }
  }

  lemma {:induction false} RunOnce(s: Auth, es: seq<Event>, expiry: Time, rt: RefreshToken)
    requires Accounted(s) && Run(s, es, expiry) && RefreshesApart(s, es, expiry, rt) && Exchanges(s, rt) <= 1
    ensures Exchanges(End(s, es, expiry), rt) <= 1
    decreases |es|
  {
    if es != [] {
      StepOnce(s, es[0], expiry, rt);
      StepAccounted(s, es[0], expiry);
      RunOnce(Apply(s, es[0], expiry), es[1..], expiry, rt);
    }
  }

  /** A refresh token is redeemed at most once if no refresh of it starts while another is under way. */
  lemma RedeemedAtMostOnce(es: seq<Event>, expiry: Time, rt: RefreshToken)
    requires Run(START, es, expiry) && RefreshesApart(START, es, expiry, rt)
    ensures Redemptions(End(START, es, expiry), rt) <= 1
  {
    RunOnce(START, es, expiry, rt);
  }

  /** e cuts no task counted by f short. */
  predicate Uncut(s: Auth, e: Event, f: Task -> nat)
    requires e.Go? ==> e.j < |s.tasks|
  {
    match e
    case Go(j, _, ok, _, _) => f(s.tasks[j]) > 0 ==> ok
    case Restart => Sum(f, s.tasks) == 0
    case _ => true
  }

  ghost predicate UncutThroughout(s: Auth, es: seq<Event>, expiry: Time, f: Task -> nat)
    requires Run(s, es, expiry)
    decreases |es|
  {
    es != [] ==> Uncut(s, es[0], f) && UncutThroughout(Apply(s, es[0], expiry), es[1..], expiry, f)
  }

  /** Unless cut short, refreshes of rt become more exactly when one starts on the live token. */
  lemma StepExchanges(s: Auth, e: Event, expiry: Time, rt: RefreshToken)
    requires Accounted(s) && Enabled(s, e, expiry) && Uncut(s, e, RefreshesOf(rt))
    ensures Exchanges(Apply(s, e, expiry), rt) == Exchanges(s, rt) + (if e == Refresh(rt) && rt in s.live then 1 else 0)
    ensures Exchanges(s, rt) <= 1 ==> (Exchanges(Apply(s, e, expiry), rt) <= 1 <==> RefreshApart(s, e, rt))
  {
    RedemptionsStep(s, e, expiry, rt);
    if !e.Restart? { TasksStep(RefreshesOf(rt), s, e, expiry); }
  }

  lemma {:induction false} RunExchanges(s: Auth, es: seq<Event>, expiry: Time, rt: RefreshToken)
    requires Accounted(s) && Run(s, es, expiry) && UncutThroughout(s, es, expiry, RefreshesOf(rt))
    ensures Exchanges(End(s, es, expiry), rt) >= Exchanges(s, rt)
    ensures Exchanges(s, rt) <= 1 ==>
      (Exchanges(End(s, es, expiry), rt) <= 1 <==> RefreshesApart(s, es, expiry, rt))
    decreases |es|
  {
    if es != [] {
      StepExchanges(s, es[0], expiry, rt);
      StepAccounted(s, es[0], expiry);
      RunExchanges(Apply(s, es[0], expiry), es[1..], expiry, rt);
    }
  }

  /**
   When no refresh of the token was cut short and none is under way, the token was redeemed
   at most once if and only if no refresh of it, while it was live, started while another
   was under way.
   */
  lemma RedeemedOnceIffApart(es: seq<Event>, expiry: Time, rt: RefreshToken)
    requires Run(START, es, expiry) && UncutThroughout(START, es, expiry, RefreshesOf(rt))
    requires Sum(RefreshesOf(rt), End(START, es, expiry).tasks) == 0
    ensures Redemptions(End(START, es, expiry), rt) <= 1 <==> RefreshesApart(START, es, expiry, rt)
  {
    RunExchanges(START, es, expiry, rt);
  }

  /** If e deletes rt, the key is there. */
  predicate DeleteFindsKey(s: Auth, e: Event, rt: RefreshToken) {
    Redeems(s, e, rt) ==> rt in s.live
  }

  ghost predicate DeletesFindKey(s: Auth, es: seq<Event>, expiry: Time, rt: RefreshToken)
    requires Run(s, es, expiry)
    decreases |es|
  {
    es != [] ==> DeleteFindsKey(s, es[0], rt) && DeletesFindKey(Apply(s, es[0], expiry), es[1..], expiry, rt)
  }

  lemma StepRepeats(s: Auth, e: Event, expiry: Time, rt: RefreshToken)
    requires Accounted(s) && Enabled(s, e, expiry) && rt !in s.expired && Redemptions(s, rt) <= 1
    ensures Redemptions(Apply(s, e, expiry), rt) <= 1 <==> DeleteFindsKey(s, e, rt)
  {
    RedemptionsStep(s, e, expiry, rt);
    if e.Go? { assert TaskAccounted(s, s.tasks[e.j]); }
  }

  lemma {:induction false} RunRepeats(s: Auth, es: seq<Event>, expiry: Time, rt: RefreshToken)
    requires Accounted(s) && Run(s, es, expiry) && rt !in End(s, es, expiry).expired
    ensures Redemptions(End(s, es, expiry), rt) >= Redemptions(s, rt)
    ensures Redemptions(s, rt) <= 1 ==>
      (Redemptions(End(s, es, expiry), rt) <= 1 <==> DeletesFindKey(s, es, expiry, rt))
    decreases |es|
  {
    if es != [] {
      var t := Apply(s, es[0], expiry);
      RunAccounted(s, es, expiry);
      RedemptionsStep(s, es[0], expiry, rt);
      StepAccounted(s, es[0], expiry);
      RunRepeats(t, es[1..], expiry, rt);
      if Redemptions(s, rt) <= 1 { StepRepeats(s, es[0], expiry, rt); }
    }
  }

  /**
   On every run, overlapping or not: a token Redis has not let expire is redeemed at most
   once exactly when every delete of its key found the key.
   */
  lemma RedeemedOnceIffKeyFound(es: seq<Event>, expiry: Time, rt: RefreshToken)
    requires Run(START, es, expiry) && rt !in End(START, es, expiry).expired
    ensures Redemptions(End(START, es, expiry), rt) <= 1 <==> DeletesFindKey(START, es, expiry, rt)
  {
    RunRepeats(START, es, expiry, rt);
  }

  /**
   On every run: the refresh about to delete its old token repeats an earlier refresh of it
   exactly when the key it deletes is gone already, unless Redis has let the key expire.
   */
  lemma RepeatsIffKeyGone(es: seq<Event>, expiry: Time, j: nat)
    requires Run(START, es, expiry)
    requires j < |End(START, es, expiry).tasks| && End(START, es, expiry).tasks[j].RefreshStored?
    requires End(START, es, expiry).tasks[j].prev !in End(START, es, expiry).expired
    ensures var s := End(START, es, expiry);
      Redemptions(s, s.tasks[j].prev) > 0 <==> s.tasks[j].prev !in s.live
  {
    RunAccounted(START, es, expiry);
    var s := End(START, es, expiry);
    assert TaskAccounted(s, s.tasks[j]);
  }

  // ---------- One heir a login ----------

  /** The unredeemed refresh tokens of a login. */
  function Heirs(s: Auth, family: nat): set<RefreshToken> {
    set x | x in s.stored && Redemptions(s, x) == 0 && x.family == family
  }

  /** Refreshes of the login between their two writes. */
  function HalfDone(family: nat): Task -> nat {
    (t: Task) => if t.RefreshStored? && t.prev.family == family then 1 else 0
  }

  predicate Known(s: Auth, family: nat) {
    exists x :: x in s.stored && x.family == family
  }

  /** Unredeemed tokens beyond the successors whose predecessors are about to be deleted. */
  function Surplus(s: Auth, family: nat): int {
    |Heirs(s, family)| - Sum(HalfDone(family), s.tasks)
  }

  /** e cuts no refresh of the login short between its two writes, and repeats none. */
  predicate InOrder(s: Auth, e: Event, family: nat)
    requires e.Go? ==> e.j < |s.tasks|
  {
    match e
    case Go(j, _, ok, _, _) =>
      HalfDone(family)(s.tasks[j]) == 1 ==> ok && Redemptions(s, s.tasks[j].prev) == 0
    case Restart => Sum(HalfDone(family), s.tasks) == 0
    case _ => true
  }

  /** What an event does to the login's unredeemed tokens. */
  lemma HeirsStep(s: Auth, e: Event, expiry: Time, family: nat)
    requires Accounted(s) && Enabled(s, e, expiry)
    ensures Heirs(Apply(s, e, expiry), family) == Heirs(s, family) + Gained(s, e, family) - Spent(s, e, family)
  {
    var r := Apply(s, e, expiry);
    if e.Go? { assert TaskAccounted(s, s.tasks[e.j]); }
    forall x ensures x in Heirs(r, family) <==> x in Heirs(s, family) + Gained(s, e, family) - Spent(s, e, family) {
      RedemptionsStep(s, e, expiry, x);
    }
  }

  function Gained(s: Auth, e: Event, family: nat): set<RefreshToken>
    requires e.Go? ==> e.j < |s.tasks|
  {
    if e.Go? && e.ok && s.tasks[e.j].LoginStoring? && s.tasks[e.j].rt.family == family then {s.tasks[e.j].rt}
    else if e.Go? && e.ok && s.tasks[e.j].RefreshFound? && s.tasks[e.j].prev.family == family then {e.rt}
    else {}
  }

  function Spent(s: Auth, e: Event, family: nat): set<RefreshToken>
    requires e.Go? ==> e.j < |s.tasks|
  {
    if e.Go? && e.ok && s.tasks[e.j].RefreshStored? && s.tasks[e.j].prev.family == family then {s.tasks[e.j].prev}
    else {}
  }

  lemma Cardinality(h: set<RefreshToken>, gained: set<RefreshToken>, spent: set<RefreshToken>)
    requires h !! gained && gained !! spent
    ensures |h + gained - spent| == |h| + |gained| - |h * spent|
  {
    assert h + gained - spent == (h - h * spent) + gained;
  }

  lemma HeirsCount(s: Auth, e: Event, expiry: Time, family: nat)
    requires Accounted(s) && Enabled(s, e, expiry)
    ensures |Heirs(Apply(s, e, expiry), family)| ==
      |Heirs(s, family)| + |Gained(s, e, family)| - |Heirs(s, family) * Spent(s, e, family)|
  {
    HeirsStep(s, e, expiry, family);
    if e.Go? { assert TaskAccounted(s, s.tasks[e.j]); }
    Cardinality(Heirs(s, family), Gained(s, e, family), Spent(s, e, family));
  }

  /** The delete of a refresh of the login takes an unredeemed token away, or finds it redeemed before. */
  lemma SpentCount(s: Auth, e: Event, family: nat)
    requires Accounted(s) && (e.Go? ==> e.j < |s.tasks|)
    ensures |Heirs(s, family) * Spent(s, e, family)| ==
      if Spent(s, e, family) != {} && Redemptions(s, s.tasks[e.j].prev) == 0 then 1 else 0
  {
    if Spent(s, e, family) != {} {
      assert s.tasks[e.j] in s.tasks && TaskAccounted(s, s.tasks[e.j]);
      assert Heirs(s, family) * Spent(s, e, family) ==
        if Redemptions(s, s.tasks[e.j].prev) == 0 then {s.tasks[e.j].prev} else {};
    }
  }

  lemma StepSurplus(s: Auth, e: Event, expiry: Time, family: nat)
    requires Accounted(s) && Enabled(s, e, expiry) && Known(s, family)
    ensures Known(Apply(s, e, expiry), family)
    ensures Surplus(Apply(s, e, expiry), family) >= Surplus(s, family)
    ensures Surplus(Apply(s, e, expiry), family) == Surplus(s, family) <==> InOrder(s, e, family)
  {
    var r := Apply(s, e, expiry);
    var known :| known in s.stored && known.family == family;
    assert known in r.stored;
    HeirsCount(s, e, expiry, family);
    SpentCount(s, e, family);
    if !e.Restart? { TasksStep(HalfDone(family), s, e, expiry); }
    if e.Go? { assert TaskAccounted(s, s.tasks[e.j]); }
  }

  /** Before its first refresh token is stored, a login has no half-done refresh. */
  lemma UnknownHalfDone(s: Auth, family: nat)
    requires Accounted(s) && !Known(s, family)
    ensures Heirs(s, family) == {} && Sum(HalfDone(family), s.tasks) == 0
  {
    forall t <- s.tasks ensures HalfDone(family)(t) == 0 { assert TaskAccounted(s, t); }
    SumPositive(HalfDone(family), s.tasks);
  }

  lemma StepUnknown(s: Auth, e: Event, expiry: Time, family: nat)
    requires Accounted(s) && Enabled(s, e, expiry) && !Known(s, family)
    ensures InOrder(s, e, family)
    ensures Known(Apply(s, e, expiry), family) ==> Surplus(Apply(s, e, expiry), family) == 1
  {
    UnknownHalfDone(s, family);
    if e.Go? {
      SumPositive(HalfDone(family), s.tasks);
      assert s.tasks[e.j] in s.tasks && TaskAccounted(s, s.tasks[e.j]);
    }
    if Known(Apply(s, e, expiry), family) {
      HeirsStep(s, e, expiry, family);
      TasksStep(HalfDone(family), s, e, expiry);
    }
  }

  ghost predicate InOrderThroughout(s: Auth, es: seq<Event>, expiry: Time, family: nat)
    requires Run(s, es, expiry)
    decreases |es|
  {
    es != [] ==> InOrder(s, es[0], family) && InOrderThroughout(Apply(s, es[0], expiry), es[1..], expiry, family)
  }

  lemma {:induction false} RunSurplus(s: Auth, es: seq<Event>, expiry: Time, family: nat)
    requires Accounted(s) && Run(s, es, expiry) && Known(End(s, es, expiry), family)
    requires Known(s, family) ==> Surplus(s, family) >= 1
    ensures Surplus(End(s, es, expiry), family) >= 1
    ensures Known(s, family) ==> Surplus(End(s, es, expiry), family) >= Surplus(s, family)
    ensures (Known(s, family) ==> Surplus(s, family) == 1) ==>
      (Surplus(End(s, es, expiry), family) == 1 <==> InOrderThroughout(s, es, expiry, family))
    decreases |es|
  {
    if es != [] {
      var t := Apply(s, es[0], expiry);
      StepAccounted(s, es[0], expiry);
      if Known(s, family) { StepSurplus(s, es[0], expiry, family); } else { StepUnknown(s, es[0], expiry, family); }
      RunSurplus(t, es[1..], expiry, family);
    }
  }

  /**
   On every run: a login whose refresh token was stored, with no refresh half done, has at
   least one unredeemed refresh token, and exactly one if and only if no refresh of the login
   was cut short between its two writes or repeated.  The live tokens of the login are its
   unredeemed ones that Redis has not let expire.
   */
  lemma OneHeirIffInOrder(es: seq<Event>, expiry: Time, family: nat)
    requires Run(START, es, expiry) && Known(End(START, es, expiry), family)
    requires Sum(HalfDone(family), End(START, es, expiry).tasks) == 0
    ensures var s := End(START, es, expiry);
      && |Heirs(s, family)| >= 1
      && (|Heirs(s, family)| == 1 <==> InOrderThroughout(START, es, expiry, family))
      && forall x :: x in s.live && x.family == family <==> x in Heirs(s, family) && x !in s.expired
  {
    RunSurplus(START, es, expiry, family);
    RunAccounted(START, es, expiry);
  }

  // ---------- In the middle of a refresh ----------

  /** Refreshes of any token of the login. */
  function RefreshesIn(family: nat): Task -> nat {
    (t: Task) => if (t.RefreshFound? || t.RefreshStored?) && t.prev.family == family then 1 else 0
  }

  /** If e refreshes a live token of the login, no refresh of that token is under way. */
  predicate FamilyApart(s: Auth, e: Event, family: nat) {
    e.Refresh? && e.prev.family == family && e.prev in s.live ==> Sum(RefreshesOf(e.prev), s.tasks) == 0
  }

  ghost predicate FamilyApartThroughout(s: Auth, es: seq<Event>, expiry: Time, family: nat)
    requires Run(s, es, expiry)
    decreases |es|
  {
    es != [] ==>
      FamilyApart(s, es[0], family) && FamilyApartThroughout(Apply(s, es[0], expiry), es[1..], expiry, family)
  }

  /** At most one refresh of the login is under way, of an unredeemed token, and its successor is unredeemed too. */
  ghost predicate OneAtATime(s: Auth, family: nat) {
    && Sum(RefreshesIn(family), s.tasks) <= 1
    && (forall t <- s.tasks :: RefreshesIn(family)(t) == 1 ==>
          Redemptions(s, t.prev) == 0 && (t.RefreshStored? ==> Redemptions(s, t.next) == 0))
  }

  lemma HalfDoneAmongRefreshes(s: Auth, t: Task, family: nat)
    requires t in s.tasks && RefreshesIn(family)(t) == 1 && Sum(RefreshesIn(family), s.tasks) <= 1
    ensures Sum(HalfDone(family), s.tasks) == if t.RefreshStored? then 1 else 0
  {
    var i :| 0 <= i < |s.tasks| && s.tasks[i] == t;
    SumRemove(RefreshesIn(family), s.tasks, i);
    SumRemove(HalfDone(family), s.tasks, i);
    SumMonotone(HalfDone(family), RefreshesIn(family), RemoveAt(s.tasks, i));
  }

  /** While a refresh is under way, its token, and its successor once stored, are all the login has. */
  lemma RefreshHolds(s: Auth, t: Task, family: nat)
    requires Accounted(s) && OneAtATime(s, family) && Surplus(s, family) == 1
    requires t in s.tasks && RefreshesIn(family)(t) == 1
    ensures Heirs(s, family) == {t.prev} + if t.RefreshStored? then {t.next} else {}
  {
    assert TaskAccounted(s, t);
    HalfDoneAmongRefreshes(s, t, family);
    var held := {t.prev} + if t.RefreshStored? then {t.next} else {};
    assert |held| == if t.RefreshStored? then 2 else 1;
    assert held <= Heirs(s, family);
    assert Heirs(s, family) == held + (Heirs(s, family) - held);
  }

  /** So no refresh of another of its tokens can start. */
  lemma NoSecondRefresh(s: Auth, prev: RefreshToken, t: Task)
    requires Accounted(s) && OneAtATime(s, prev.family) && Surplus(s, prev.family) == 1
    requires prev in s.live && !SecretRefresh(s, prev) && Sum(RefreshesOf(prev), s.tasks) == 0
    requires t in s.tasks
    ensures RefreshesIn(prev.family)(t) == 0
  {
    SumPositive(RefreshesOf(prev), s.tasks);
    assert RefreshesOf(prev)(t) == 0;
    assert prev in Heirs(s, prev.family);
    if RefreshesIn(prev.family)(t) == 1 { RefreshHolds(s, t, prev.family); }
  }

  lemma StepOneAtATime(s: Auth, e: Event, expiry: Time, family: nat)
    requires Accounted(s) && Enabled(s, e, expiry) && FamilyApart(s, e, family) && InOrder(s, e, family)
    requires OneAtATime(s, family) && (Known(s, family) ==> Surplus(s, family) == 1)
    ensures OneAtATime(Apply(s, e, expiry), family)
  {
    var r := Apply(s, e, expiry);
    if !e.Restart? {
      TasksStep(RefreshesIn(family), s, e, expiry);
      if e.Refresh? && e.prev in s.live && e.prev.family == family {
        forall t <- s.tasks ensures RefreshesIn(family)(t) == 0 { NoSecondRefresh(s, e.prev, t); }
        SumPositive(RefreshesIn(family), s.tasks);
      }
      forall t <- r.tasks | RefreshesIn(family)(t) == 1
        ensures Redemptions(r, t.prev) == 0 && (t.RefreshStored? ==> Redemptions(r, t.next) == 0)
      {
        StaysUnredeemed(s, e, expiry, family, t);
      }
    }
  }

  lemma OldOrNext(s: Auth, e: Event, expiry: Time, t: Task)
    requires Enabled(s, e, expiry) && !e.Restart? && t in Apply(s, e, expiry).tasks
    ensures t in s.tasks || Next(s, e) == Some(t)
  {
  }

  lemma StaysUnredeemed(s: Auth, e: Event, expiry: Time, family: nat, t: Task)
    requires Accounted(s) && Enabled(s, e, expiry) && !e.Restart? && OneAtATime(s, family)
    requires Sum(RefreshesIn(family), Apply(s, e, expiry).tasks) <= 1
    requires t in Apply(s, e, expiry).tasks && RefreshesIn(family)(t) == 1
    ensures Redemptions(Apply(s, e, expiry), t.prev) == 0
    ensures t.RefreshStored? ==> Redemptions(Apply(s, e, expiry), t.next) == 0
  {
    RedemptionsStep(s, e, expiry, t.prev);
    if t.RefreshStored? { RedemptionsStep(s, e, expiry, t.next); }
    TasksStep(RefreshesIn(family), s, e, expiry);
    SumPositive(RefreshesIn(family), Apply(s, e, expiry).tasks);
    if e.Go? {
      assert s.tasks[e.j] in s.tasks && TaskAccounted(s, s.tasks[e.j]);
      if s.tasks[e.j].RefreshStored? { assert s.tasks[e.j].prev.family != family; }
    }
    OldOrNext(s, e, expiry, t);
    if t in s.tasks { assert TaskAccounted(s, t); }
  }

  lemma {:induction false} RunOneAtATime(s: Auth, es: seq<Event>, expiry: Time, family: nat)
    requires Accounted(s) && Run(s, es, expiry)
    requires FamilyApartThroughout(s, es, expiry, family) && InOrderThroughout(s, es, expiry, family)
    requires OneAtATime(s, family) && (Known(s, family) ==> Surplus(s, family) == 1)
    ensures OneAtATime(End(s, es, expiry), family)
    ensures Known(End(s, es, expiry), family) ==> Surplus(End(s, es, expiry), family) == 1
    decreases |es|
  {
    if es != [] {
      StepAccounted(s, es[0], expiry);
      StepOneAtATime(s, es[0], expiry, family);
      if Known(s, family) { StepSurplus(s, es[0], expiry, family); } else { StepUnknown(s, es[0], expiry, family); }
      RunOneAtATime(Apply(s, es[0], expiry), es[1..], expiry, family);
    }
  }

  lemma PairHeld(s: Auth, t: Task, family: nat)
    requires Accounted(s) && OneAtATime(s, family) && (Known(s, family) ==> Surplus(s, family) == 1)
    requires t in s.tasks && t.RefreshStored? && t.prev.family == family
    ensures Heirs(s, family) == {t.prev, t.next}
    ensures forall x <- s.live :: x.family == family ==> x in Heirs(s, family)
  {
    assert TaskAccounted(s, t);
    RefreshHolds(s, t, family);
  }

  /**
   If, besides, no two refreshes of one of its tokens overlap, then in the middle of a
   refresh the login has two unredeemed tokens, the old one and its successor, and no other
   can be live.
   */
  lemma PairInMidRefresh(es: seq<Event>, expiry: Time, t: Task)
    requires Run(START, es, expiry) && t in End(START, es, expiry).tasks && t.RefreshStored?
    requires FamilyApartThroughout(START, es, expiry, t.prev.family)
    requires InOrderThroughout(START, es, expiry, t.prev.family)
    ensures var s := End(START, es, expiry);
      && Heirs(s, t.prev.family) == {t.prev, t.next}
      && forall x <- s.live :: x.family == t.prev.family ==> x == t.prev || x == t.next
  {
    RunAccounted(START, es, expiry);
    RunOneAtATime(START, es, expiry, t.prev.family);
    PairHeld(End(START, es, expiry), t, t.prev.family);
  }

  // ---------- One heir, seen from the caller ----------

  lemma {:induction false} UncutParts(s: Auth, es: seq<Event>, expiry: Time, f: Task -> nat, g: Task -> nat)
    requires Run(s, es, expiry) && UncutThroughout(s, es, expiry, f) && forall t :: g(t) <= f(t)
    ensures UncutThroughout(s, es, expiry, g)
    decreases |es|
  {
    if es != [] {
      SumMonotone(g, f, s.tasks);
      UncutParts(Apply(s, es[0], expiry), es[1..], expiry, f, g);
    }
  }

  /** A login in order redeems no token twice. */
  lemma {:induction false} InOrderRedeemsOnce(s: Auth, es: seq<Event>, expiry: Time, rt: RefreshToken)
    requires Run(s, es, expiry) && InOrderThroughout(s, es, expiry, rt.family) && Redemptions(s, rt) <= 1
    ensures Redemptions(End(s, es, expiry), rt) <= 1
    decreases |es|
  {
    if es != [] {
      RedemptionsStep(s, es[0], expiry, rt);
      InOrderRedeemsOnce(Apply(s, es[0], expiry), es[1..], expiry, rt);
    }
  }

  lemma {:induction false} ApartTokenByToken(s: Auth, es: seq<Event>, expiry: Time, family: nat)
    requires Run(s, es, expiry)
    requires forall rt: RefreshToken :: rt.family == family ==> RefreshesApart(s, es, expiry, rt)
    ensures FamilyApartThroughout(s, es, expiry, family)
    decreases |es|
  {
    if es != [] {
      assert es[0].Refresh? && es[0].prev.family == family ==> RefreshesApart(s, es, expiry, es[0].prev);
      forall rt: RefreshToken | rt.family == family
        ensures RefreshesApart(Apply(s, es[0], expiry), es[1..], expiry, rt)
      {
        assert RefreshesApart(s, es, expiry, rt);
      }
      ApartTokenByToken(Apply(s, es[0], expiry), es[1..], expiry, family);
    }
  }

  /** Apart and uncut, a login stays in order. */
  lemma {:induction false} ApartMeansInOrder(s: Auth, es: seq<Event>, expiry: Time, family: nat)
    requires Accounted(s) && Run(s, es, expiry)
    requires UncutThroughout(s, es, expiry, RefreshesIn(family)) && FamilyApartThroughout(s, es, expiry, family)
    requires forall rt: RefreshToken :: rt.family == family ==> Exchanges(s, rt) <= 1
    ensures InOrderThroughout(s, es, expiry, family)
    decreases |es|
  {
    if es != [] {
      var e, t := es[0], Apply(s, es[0], expiry);
      if e.Go? && s.tasks[e.j].RefreshStored? && s.tasks[e.j].prev.family == family {
        SumPositive(RefreshesOf(s.tasks[e.j].prev), s.tasks);
        assert s.tasks[e.j] in s.tasks && RefreshesOf(s.tasks[e.j].prev)(s.tasks[e.j]) == 1;
      }
      SumMonotone(HalfDone(family), RefreshesIn(family), s.tasks);
      forall rt: RefreshToken | rt.family == family ensures Exchanges(t, rt) <= 1 {
        StepOnce(s, e, expiry, rt);
      }
      StepAccounted(s, e, expiry);
      ApartMeansInOrder(t, es[1..], expiry, family);
    }
  }

  /**
   When no refresh of the login was cut short and none is under way, the login has exactly
   one unredeemed refresh token if and only if none of its tokens, while live, was refreshed
   while another refresh of that token was under way.
   */
  lemma OneHeirIffApart(es: seq<Event>, expiry: Time, family: nat)
    requires Run(START, es, expiry) && Known(End(START, es, expiry), family)
    requires UncutThroughout(START, es, expiry, RefreshesIn(family))
    requires Sum(RefreshesIn(family), End(START, es, expiry).tasks) == 0
    ensures |Heirs(End(START, es, expiry), family)| == 1 <==> FamilyApartThroughout(START, es, expiry, family)
  {
    var s := End(START, es, expiry);
    SumMonotone(HalfDone(family), RefreshesIn(family), s.tasks);
    OneHeirIffInOrder(es, expiry, family);
    if InOrderThroughout(START, es, expiry, family) {
      forall rt: RefreshToken | rt.family == family ensures RefreshesApart(START, es, expiry, rt) {
        InOrderRedeemsOnce(START, es, expiry, rt);
        UncutParts(START, es, expiry, RefreshesIn(family), RefreshesOf(rt));
        SumMonotone(RefreshesOf(rt), RefreshesIn(family), s.tasks);
        RedeemedOnceIffApart(es, expiry, rt);
      }
      ApartTokenByToken(START, es, expiry, family);
    }
    if FamilyApartThroughout(START, es, expiry, family) {
      ApartMeansInOrder(START, es, expiry, family);
    }
  }

  // ---------- Overlapping refreshes ----------

  ghost predicate Steps(s: Auth, e: Event, t: Auth, expiry: Time) {
    Enabled(s, e, expiry) && Apply(s, e, expiry) == t
  }

  lemma {:induction false} RunFrom(es: seq<Event>, ss: seq<Auth>, k: nat, expiry: Time)
    requires k <= |es| && |ss| == |es| + 1
    requires forall i :: 0 <= i < |es| ==> Steps(ss[i], es[i], ss[i + 1], expiry)
    ensures Run(ss[k], es[k..], expiry) && End(ss[k], es[k..], expiry) == ss[|es|]
    decreases |es| - k
  {
    if k < |es| {
      RunFrom(es, ss, k + 1, expiry);
      assert Steps(ss[k], es[k], ss[k + 1], expiry);
      assert es[k..][0] == es[k] && es[k..][1..] == es[k + 1..];
    }
  }

  /** A fresh pair of tokens that a refresh of rt may generate. */
  predicate FreshPair(s: Auth, rt: RefreshToken, tok: Token, next: RefreshToken, expiry: Time) {
    FreshToken(s, tok, s.clock, expiry) && next.family == rt.family && next !in s.stored && next !in s.live
  }

  /** Both refreshes look the token up, both store a successor, both delete it. */
  function Overlap(s: Auth, rt: RefreshToken, a: Token, b: Token, x: RefreshToken, y: RefreshToken): seq<Event> {
    [Refresh(rt), Refresh(rt), Go(0, s.clock, true, a, x), Go(1, s.clock, true, b, y),
     Go(0, s.clock, true, a, x), Go(0, s.clock, true, b, y)]
  }

  /** The state before and after each event of the overlap. */
  function Between(s: Auth, rt: RefreshToken, a: Token, b: Token, x: RefreshToken, y: RefreshToken): (ss: seq<Auth>)
    ensures |ss| == 7
  {
    var found, toX, toY := RefreshFound(rt), RefreshStored(rt, x), RefreshStored(rt, y);
    var s1, s2 := s.(tasks := [found]), s.(tasks := [found, found]);
    var s3 := s2.(live := s.live + {x}, stored := s.stored + {x},
                  minted := s.minted + {a}, refreshed := s.refreshed + {a}, tasks := [toX, found]);
    var s4 := s3.(live := s3.live + {y}, stored := s3.stored + {y},
                  minted := s3.minted + {b}, refreshed := s3.refreshed + {b}, tasks := [toX, toY]);
    var s5 := s4.(live := s4.live - {rt}, redeemed := s.redeemed + [(rt, x)], tasks := [toY]);
    var s6 := s5.(live := s5.live - {rt}, redeemed := s5.redeemed + [(rt, y)], tasks := []);
    [s, s1, s2, s3, s4, s5, s6]
  }

  lemma OverlapSteps(s: Auth, rt: RefreshToken, a: Token, b: Token, x: RefreshToken, y: RefreshToken, expiry: Time)
    requires s.tasks == [] && rt in s.live && a != b && x != y
    requires FreshPair(s, rt, a, x, expiry) && FreshPair(s, rt, b, y, expiry)
    ensures var es, ss := Overlap(s, rt, a, b, x, y), Between(s, rt, a, b, x, y);
      forall k :: 0 <= k < 6 ==> Steps(ss[k], es[k], ss[k + 1], expiry)
  {
  }

  /** Two refreshes of one live token that both look it up before either deletes it are both answered. */
  lemma OverlappingRefreshesRedeemTwice(
      s: Auth, rt: RefreshToken, a: Token, b: Token, x: RefreshToken, y: RefreshToken, expiry: Time)
    requires s.tasks == [] && rt in s.live && a != b && x != y
    requires FreshPair(s, rt, a, x, expiry) && FreshPair(s, rt, b, y, expiry)
    ensures var es := Overlap(s, rt, a, b, x, y);
      && Run(s, es, expiry)
      && End(s, es, expiry).redeemed == s.redeemed + [(rt, x), (rt, y)]
      && End(s, es, expiry).live == s.live - {rt} + {x, y}
  {
    var es, ss := Overlap(s, rt, a, b, x, y), Between(s, rt, a, b, x, y);
    OverlapSteps(s, rt, a, b, x, y, expiry);
    RunFrom(es, ss, 0, expiry);
    assert es[0..] == es;
    assert ss[6].redeemed == s.redeemed + [(rt, x), (rt, y)];
    assert ss[6].live == s.live - {rt} + {x, y};
  }
}
