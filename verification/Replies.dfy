/**
 Where replies come from, and that they come: a correlated RESPONSE is the work of a handler
 that returned, a correlated ERROR of one that did not, and a request between two connected
 modules makes its way there and back.
 */
module Replies {
  import opened Prelude
  import opened HubModel
  import opened HubEffects
  import opened HubAnswers
  import opened Network
  import opened Correlation

  // ---------- Where replies come from ----------

  /** The outcome that makes a reply of this kind. */
  function OutcomeOf(kind: Kind): Outcome {
    if kind == Response then Replied else Errored
  }

  predicate Carries(m: Message, kind: Kind, c: CorrId) {
    m.kind == kind && m.corr == Some(c)
  }

  /** No reply of this kind to c is on its way or delivered. */
  ghost predicate NoneCarries(s: Net, kind: Kind, c: CorrId) {
    && (forall e <- s.inbox :: !Carries(e.msg, kind, c))
    && (forall x <- s.sends :: !Carries(x.msg, kind, c))
    && (forall e <- s.mail :: !Carries(e.msg, kind, c))
    && (forall e <- s.delivered :: !Carries(e.msg, kind, c))
  }

  /** In es, an endpoint handled the request c with the outcome that makes a reply of this kind. */
  ghost predicate WasServed(s: Net, es: seq<Event>, kind: Kind, c: CorrId)
    requires Ok(s) && Run(s, es)
    decreases |es|
  {
    es != [] &&
    ((es[0].Serve? && es[0].result == OutcomeOf(kind) && Carries(s.mail[es[0].k].msg, Request, c))
     || (ApplyOk(s, es[0]); WasServed(Apply(s, es[0]), es[1..], kind, c)))
  }

  lemma StepCarries(s: Net, e: Event, kind: Kind, c: CorrId)
    requires Correlated(s) && Enabled(s, e) && Disciplined(s, e) && kind in {Response, Error}
    requires NoneCarries(s, kind, c)
    requires !(e.Serve? && e.result == OutcomeOf(kind) && Carries(s.mail[e.k].msg, Request, c))
    ensures NoneCarries(Apply(s, e), kind, c)
  {
    match e
    case Arrive(i, now, o) =>
      ReceivePasses(s.hub, s.inbox[i].peer, s.inbox[i].msg, now, o);
      ReplaceMembers(s.inbox, i, None);
    case Wake(j, ok, y) =>
      FinishPasses(s.hub, s.sends[j], ok, y);
      ReplaceMembers(s.sends, j, Finish(s.hub, s.sends[j], ok, y).send);
    case Serve(k, result) =>
      ReplaceMembers(s.mail, k, None);
    case _ =>
  }

  lemma {:induction false} RunCarries(s: Net, es: seq<Event>, kind: Kind, c: CorrId)
    requires Correlated(s) && AtMostOnce(s) && Run(s, es) && DisciplinedThroughout(s, es)
    requires kind in {Response, Error} && NoneCarries(s, kind, c) && !WasServed(s, es, kind, c)
    ensures NoneCarries(End(s, es), kind, c)
    decreases |es|
  {
    if es != [] {
      StepCarries(s, es[0], kind, c);
      StepCorrelated(s, es[0]);
      RunCarries(Apply(s, es[0]), es[1..], kind, c);
    }
  }

  /**
   Every correlated RESPONSE ever delivered answers a request some endpoint handled with
   success, and every correlated ERROR one it handled without.
   */
  lemma RepliesTellTheOutcome(es: seq<Event>, e: Envelope, c: CorrId)
    requires Run(START, es) && DisciplinedThroughout(START, es)
    requires e in End(START, es).delivered && IsReply(e.msg) && e.msg.corr == Some(c)
    ensures WasServed(START, es, e.msg.kind, c)
  {
    if !WasServed(START, es, e.msg.kind, c) { RunCarries(START, es, e.msg.kind, c); }
  }

  // ---------- There and back ----------

  /** inbox[i] is read, and the send it leads to completes. */
  function Trip(s: Net, i: nat, now: Time): seq<Event> {
    [Arrive(i, now, Oracle([], Stop)), Wake(|s.sends|, true, Stop)]
  }

  /** t is s with e in place of inbox[i], delivered. */
  predicate Delivers(s: Net, t: Net, i: nat, e: Envelope)
    requires i < |s.inbox|
  {
    && t.inbox == RemoveAt(s.inbox, i) && t.sends == s.sends && t.issued == s.issued
    && t.mail == s.mail + [e] && t.delivered == s.delivered + [e] && t.hub.modules == s.hub.modules
  }

  /** A message for a connected module is delivered to it. */
  lemma DirectTrip(s: Net, i: nat, now: Time)
    requires Ok(s) && i < |s.inbox| && s.inbox[i].msg.wellFormed
    requires s.inbox[i].msg.kind in {Request, Response, Event, Error}
    requires HasTarget(s.inbox[i].msg) && s.inbox[i].msg.target.value in s.hub.modules
    ensures Run(s, Trip(s, i, now))
    ensures Delivers(s, End(s, Trip(s, i, now)), i, Envelope(s.inbox[i].msg.target.value, s.inbox[i].msg))
  {
    var source, msg, o := s.inbox[i].peer, s.inbox[i].msg, Oracle([], Stop);
    var first, second := Arrive(i, now, o), Wake(|s.sends|, true, Stop);
    var t := Apply(s, first);
    ApplyOk(s, first);
    DirectRouting(s.hub, source, msg, now, o);
    HandlingEffects(s.hub, source, msg, now, o);
    assert t.sends == s.sends + [Send(s.hub.modules[msg.target.value], msg, Report(source))];
    DirectWake(s, t, second);
    var u := Apply(t, second);
    ApplyOk(t, second);
    assert Trip(s, i, now)[1..] == [second] && [second][1..] == [];
    assert Run(u, []) && Run(t, [second]);
    assert End(s, Trip(s, i, now)) == End(t, [second]) == End(u, []) == u;
  }

  lemma DirectWake(s: Net, t: Net, e: Event)
    requires Ok(s) && Ok(t) && t.hub.modules == s.hub.modules && |t.hub.conns| == |s.hub.conns| && Grows(s.hub, t.hub)
    requires |t.sends| == |s.sends| + 1 && t.sends[..|s.sends|] == s.sends && t.sends[|s.sends|].after.Report?
    requires e == Wake(|s.sends|, true, Stop)
    ensures Enabled(t, e)
    ensures var x, u := t.sends[|s.sends|], Apply(t, e);
      && u.sends == s.sends && u.inbox == t.inbox && u.issued == t.issued && u.hub.modules == s.hub.modules
      && u.mail == t.mail + [Envelope(s.hub.conns[x.conn].id, x.msg)]
      && u.delivered == t.delivered + [Envelope(s.hub.conns[x.conn].id, x.msg)]
  {
    var x := t.sends[|s.sends|];
    SendEnds(t.hub, x, true, Stop);
    SendEndEffects(t.hub, x, true, Stop, x.conn);
    assert RemoveAt(t.sends, |s.sends|) == s.sends;
  }

  /** u is s after inbox[i] was delivered to its target and handled there. */
  predicate HandledThere(s: Net, u: Net, i: nat, callee: ModuleId, result: Outcome)
    requires i < |s.inbox|
  {
    && u.sends == s.sends && u.hub.modules == s.hub.modules && |u.inbox| == |s.inbox|
    && u.delivered == s.delivered + [Envelope(callee, s.inbox[i].msg)]
    && var back := u.inbox[|s.inbox| - 1];
    && back.peer == callee && back.msg.wellFormed && back.msg.source == Some(callee)
    && back.msg.target == s.inbox[i].msg.source && back.msg.corr == s.inbox[i].msg.corr
    && back.msg.kind == (if result == Replied then Response else Error)
  }

  lemma There(s: Net, i: nat, now: Time, callee: ModuleId, result: Outcome)
    requires Ok(s) && i < |s.inbox| && callee != "" && callee in s.hub.modules && result != Lost
    requires var m := s.inbox[i].msg; m.wellFormed && m.kind == Request && m.target == Some(callee)
    ensures var es := Trip(s, i, now) + [Serve(|s.mail|, result)];
      Run(s, es) && HandledThere(s, End(s, es), i, callee, result)
  {
    DirectTrip(s, i, now);
    var t := End(s, Trip(s, i, now));
    assert t.mail[|s.mail|] == Envelope(callee, s.inbox[i].msg);
    RunOne(t, Serve(|s.mail|, result));
    assert Apply(t, Serve(|s.mail|, result)) == Served(t, |s.mail|, result);
    RunConcat(s, Trip(s, i, now), [Serve(|s.mail|, result)]);
  }

  /** The five steps of a call between two connected modules, from inbox[i] to the caller's mail. */
  function Call(s: Net, i: nat, now: Time, result: Outcome): seq<Event>
    requires i < |s.inbox|
  {
    Trip(s, i, now) + [Serve(|s.mail|, result)]
    + [Arrive(|s.inbox| - 1, now, Oracle([], Stop)), Wake(|s.sends|, true, Stop)]
  }

  /** What a call adds to the deliveries: the request to the callee, and its answer to the caller. */
  predicate CameBack(s: Net, t: Net, i: nat, caller: ModuleId, callee: ModuleId, result: Outcome)
    requires i < |s.inbox|
  {
    && |t.delivered| == |s.delivered| + 2 && t.delivered[..|s.delivered|] == s.delivered
    && t.delivered[|s.delivered|] == Envelope(callee, s.inbox[i].msg)
    && var back := t.delivered[|s.delivered| + 1];
    && back.peer == caller && back.msg.corr == s.inbox[i].msg.corr && back.msg.source == Some(callee)
    && back.msg.kind == (if result == Replied then Response else Error)
  }

  lemma Back(s: Net, u: Net, i: nat, now: Time, caller: ModuleId, callee: ModuleId, result: Outcome)
    requires i < |s.inbox| && Ok(u) && HandledThere(s, u, i, callee, result)
    requires caller != "" && caller in u.hub.modules && s.inbox[i].msg.source == Some(caller)
    ensures Run(u, Trip(u, |s.inbox| - 1, now))
    ensures CameBack(s, End(u, Trip(u, |s.inbox| - 1, now)), i, caller, callee, result)
  {
    var k := |s.inbox| - 1;
    var back := u.inbox[k].msg;
    assert HasTarget(back) && back.target.value == caller;
    DirectTrip(u, k, now);
    var t := End(u, Trip(u, k, now));
    assert t.delivered == s.delivered + [Envelope(callee, s.inbox[i].msg)] + [Envelope(caller, back)];
  }

  /**
   From any state: a request of one connected module to another reaches it, and its answer
   reaches the caller under the same correlation id, a RESPONSE if the handler returned and
   an ERROR if not.  Nothing else is delivered.
   */
  lemma CallComesBack(s: Net, i: nat, now: Time, caller: ModuleId, callee: ModuleId, result: Outcome)
    requires Ok(s) && i < |s.inbox| && caller != "" && callee != "" && result != Lost
    requires caller in s.hub.modules && callee in s.hub.modules
    requires var m := s.inbox[i].msg;
      m.wellFormed && m.kind == Request && m.source == Some(caller) && m.target == Some(callee)
    ensures Run(s, Call(s, i, now, result))
    ensures CameBack(s, End(s, Call(s, i, now, result)), i, caller, callee, result)
  {
    There(s, i, now, callee, result);
    CallJoins(s, Trip(s, i, now) + [Serve(|s.mail|, result)], i, now, caller, callee, result);
  }

  lemma CallJoins(s: Net, es: seq<Event>, i: nat, now: Time, caller: ModuleId, callee: ModuleId, result: Outcome)
    requires Ok(s) && i < |s.inbox| && es == Trip(s, i, now) + [Serve(|s.mail|, result)]
    requires Run(s, es) && HandledThere(s, End(s, es), i, callee, result)
    requires caller != "" && caller in s.hub.modules && s.inbox[i].msg.source == Some(caller)
    ensures Run(s, Call(s, i, now, result))
    ensures CameBack(s, End(s, Call(s, i, now, result)), i, caller, callee, result)
  {
    var u := End(s, es);
    var fs := Trip(u, |s.inbox| - 1, now);
    assert Call(s, i, now, result) == es + fs;
    Back(s, u, i, now, caller, callee, result);
    RunConcat(s, es, fs);
  }
}
