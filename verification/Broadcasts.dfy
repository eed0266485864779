/**
 A broadcast reaches every other module exactly once, as long as no module comes or goes and
 none of its sends fails: whatever else is sent, heard, monitored or answered in between.
 */
module Broadcasts {
  import opened Prelude
  import opened HubModel
  import opened HubEffects
  import opened HubAnswers
  import opened Network

  /** m names neither target nor action, so the hub broadcasts it. */
  predicate IsBroadcast(m: Message) {
    m.wellFormed && m.kind in {Request, Response, Event, Error} && !HasTarget(m) && !HasAction(m)
  }

  /** Copies of m delivered to d. */
  function Got(m: Message, d: ModuleId): Envelope -> nat {
    (e: Envelope) => if e == Envelope(d, m) then 1 else 0
  }

  /** Copies of m a pending send will bring d: its own, or a later turn of its loop. */
  function DueTo(h: Hub, m: Message, d: ModuleId): Send -> nat {
    (x: Send) => if x.conn < |h.conns| && x.msg == m then
        (if h.conns[x.conn].id == d then 1 else 0)
        + (if x.after.Broadcast? && d in x.after.todo && d != x.after.source then 1 else 0)
      else 0
  }

  function Owed(s: Net, m: Message, d: ModuleId): nat {
    Sum(Got(m, d), s.delivered) + Sum(DueTo(s.hub, m, d), s.sends)
  }

  /** Sends of m are turns of broadcast loops that began with the registry as it is. */
  ghost predicate Current(s: Net, m: Message) {
    Ok(s) && forall x <- s.sends :: x.msg == m ==> CurrentSend(s.hub, x)
  }

  predicate CurrentSend(h: Hub, x: Send) {
    x.after.Broadcast? && x.after.size == |h.modules| && x.after.epoch == h.epoch && x.after.todo <= h.modules.Keys
  }

  /** e lets no module come or go, and no send of m fail. */
  ghost predicate Steady(s: Net, e: Event, m: Message)
    requires Ok(s) && Enabled(s, e)
  {
    Apply(s, e).hub.epoch == s.hub.epoch && (e.Wake? && s.sends[e.j].msg == m ==> e.ok)
  }

  lemma {:induction false} SweepEpoch(h: Hub, order: seq<ModuleId>, now: Time)
    requires WF(h)
    ensures Sweeping(h, order, now).epoch >= h.epoch
    ensures Sweeping(h, order, now).epoch == h.epoch ==> Sweeping(h, order, now) == h
  {
    if order != [] { SweepEpoch(h, order[..|order| - 1], now); }
  }

  lemma SteadyKeys(s: Net, e: Event, m: Message)
    requires Ok(s) && Enabled(s, e) && Steady(s, e, m)
    ensures Apply(s, e).hub.modules.Keys == s.hub.modules.Keys && |Apply(s, e).hub.modules| == |s.hub.modules|
  {
    var g := Apply(s, e).hub;
    match e {
      case Sweep(order, now) => SweepEpoch(s.hub, order, now);
      case Arrive(i, now, o) => HandlingEffects(s.hub, s.inbox[i].peer, s.inbox[i].msg, now, o);
      case Wake(j, ok, y) => SendEndEffects(s.hub, s.sends[j], ok, y, s.sends[j].conn);
      case _ =>
    }
    assert |g.modules| == |g.modules.Keys| && |s.hub.modules| == |s.hub.modules.Keys|;
  }

  // ---------- One step ----------

  /** e is the arrival of m from a module other than d. */
  predicate ArrivesFor(s: Net, e: Event, m: Message, d: ModuleId) {
    e.Arrive? && e.i < |s.inbox| && s.inbox[e.i].msg == m && s.inbox[e.i].peer != d
  }

  /** Old connection objects keep their ids, so what old sends owe stays the same. */
  lemma DueStays(h: Hub, g: Hub, m: Message, d: ModuleId, sends: seq<Send>)
    requires Grows(h, g) && forall x <- sends :: x.conn < |h.conns|
    ensures Sum(DueTo(g, m, d), sends) == Sum(DueTo(h, m, d), sends)
  {
    SumMonotone(DueTo(g, m, d), DueTo(h, m, d), sends);
    SumMonotone(DueTo(h, m, d), DueTo(g, m, d), sends);
  }

  /** What handling a message leaves pending is the message itself or a malformed one of the hub. */
  lemma SendsItOrMalformed(h: Hub, source: ModuleId, msg: Message, now: Time, o: Oracle)
    requires WF(h) && OracleOk(h, source, msg, o)
    ensures var send := Receive(h, source, msg, now, o).send;
      send.Some? ==> send.value.msg == msg || !send.value.msg.wellFormed
  {
    OtherAnswers(h, source, msg, now, o);
    if msg.wellFormed && msg.kind in {Request, Response, Event, Error} {
      if HasTarget(msg) {
        DirectRouting(h, source, msg, now, o);
      } else if HasAction(msg) {
        ActionRouting(h, source, msg, now, o);
      } else {
        BroadcastStart(h, source, msg, now, o);
      }
    }
  }

  /** An arriving broadcast comes to owe one copy to every module but its sender; other arrivals owe none. */
  lemma ArrivalOwes(h: Hub, source: ModuleId, msg: Message, now: Time, o: Oracle, m: Message, d: ModuleId)
    requires WF(h) && OracleOk(h, source, msg, o) && IsBroadcast(m) && d in h.modules
    ensures var send := Receive(h, source, msg, now, o).send;
      && (send.Some? && send.value.msg == m ==> CurrentSend(h, send.value))
      && (if send.Some? then DueTo(h, m, d)(send.value) else 0) == (if msg == m && source != d then 1 else 0)
  {
    SendsItOrMalformed(h, source, msg, now, o);
    if msg == m {
      BroadcastStart(h, source, msg, now, o);
      assert source != d ==> d in h.modules.Keys - {source};
    }
  }

  lemma ArrivedOwed(s: Net, i: nat, now: Time, o: Oracle, m: Message, d: ModuleId)
    requires Current(s, m) && Enabled(s, Arrive(i, now, o)) && IsBroadcast(m) && d in s.hub.modules
    ensures Current(Arrived(s, i, now, o), m)
    ensures Owed(Arrived(s, i, now, o), m, d) ==
      Owed(s, m, d) + (if ArrivesFor(s, Arrive(i, now, o), m, d) then 1 else 0)
  {
    var h, source, msg := s.hub, s.inbox[i].peer, s.inbox[i].msg;
    var out := Receive(h, source, msg, now, o);
    ArrivedOk(s, i, now, o);
    HandlingEffects(h, source, msg, now, o);
    ArrivalOwes(h, source, msg, now, o, m, d);
    SumPush(DueTo(out.hub, m, d), s.sends, out.send);
    DueStays(h, out.hub, m, d, s.sends);
    assert out.send.Some? ==> DueTo(out.hub, m, d)(out.send.value) == DueTo(h, m, d)(out.send.value);
  }

  /** What a loop still owes: nothing when no one is left, else the next module's copy and the rest. */
  lemma LoopOwes(h: Hub, x: Send, id: ModuleId, m: Message, d: ModuleId)
    requires WF(h) && CurrentSend(h, x) && x.msg == m && id in x.after.todo - {x.after.source}
    ensures var next := Send(h.modules[id], m, Broadcast(x.after.source, x.after.todo - {id}, x.after.size, h.epoch));
      && CurrentSend(h, next)
      && DueTo(h, m, d)(next) == if d in x.after.todo && d != x.after.source then 1 else 0
  {
    assert h.conns[h.modules[id]].id == id;
    assert d in x.after.todo - {id} <==> d in x.after.todo && d != id;
  }

  lemma PassesOn(h: Hub, x: Send, y: Yield, d: ModuleId)
    requires WF(h) && x.conn < |h.conns| && FinishOk(h, x, true, y) && CurrentSend(h, x) && x.msg.wellFormed
    ensures var send := Finish(h, x, true, y).send;
      && (send.Some? ==> send.value.msg == x.msg && CurrentSend(h, send.value))
      && (if send.Some? then DueTo(h, x.msg, d)(send.value) else 0) ==
           if d in x.after.todo && d != x.after.source then 1 else 0
  {
    SendEnds(h, x, true, y);
    var todo, source := x.after.todo, x.after.source;
    if todo - {source} != {} {
      var id :| id in todo - {source}
        && IsForward(h, Finish(h, x, true, y).send, id, x.msg, Broadcast(source, todo - {id}, x.after.size, h.epoch));
      LoopOwes(h, x, id, x.msg, d);
    } else {
      assert d in todo && d != source ==> d in todo - {source};
    }
  }

  /** A turn of the loop that ends well passes on exactly what it still owes. */
  lemma TurnOwes(h: Hub, x: Send, ok: bool, y: Yield, m: Message, d: ModuleId)
    requires WF(h) && x.conn < |h.conns| && FinishOk(h, x, ok, y) && IsBroadcast(m)
    requires x.msg == m ==> ok && CurrentSend(h, x)
    ensures var send := Finish(h, x, ok, y).send;
      && (send.Some? && send.value.msg == m ==> CurrentSend(h, send.value))
      && DueTo(h, m, d)(x) ==
           (if x.msg == m && h.conns[x.conn].id == d then 1 else 0)
           + (if send.Some? then DueTo(h, m, d)(send.value) else 0)
  {
    if x.msg == m { PassesOn(h, x, y, d); } else { EndsItOrMalformed(h, x, ok, y); }
  }

  lemma EndsItOrMalformed(h: Hub, x: Send, ok: bool, y: Yield)
    requires WF(h) && x.conn < |h.conns| && FinishOk(h, x, ok, y)
    ensures var send := Finish(h, x, ok, y).send;
      send.Some? ==> send.value.msg == x.msg || !send.value.msg.wellFormed
  {
  }

  lemma WokenCurrent(s: Net, j: nat, ok: bool, y: Yield, m: Message)
    requires Current(s, m) && Enabled(s, Wake(j, ok, y)) && IsBroadcast(m) && (s.sends[j].msg == m ==> ok)
    ensures Current(Woken(s, j, ok, y), m)
  {
    WokenOk(s, j, ok, y);
    SendEndEffects(s.hub, s.sends[j], ok, y, s.sends[j].conn);
    TurnOwes(s.hub, s.sends[j], ok, y, m, "");
    ReplaceMembers(s.sends, j, Finish(s.hub, s.sends[j], ok, y).send);
  }

  /** What the sends owe after a wake-up, in the words of the hub before it. */
  lemma WokenSends(s: Net, j: nat, ok: bool, y: Yield, m: Message, d: ModuleId)
    requires Ok(s) && Enabled(s, Wake(j, ok, y))
    ensures Sum(DueTo(Woken(s, j, ok, y).hub, m, d), Woken(s, j, ok, y).sends) ==
      Sum(DueTo(s.hub, m, d), Woken(s, j, ok, y).sends)
  {
    WokenOk(s, j, ok, y);
    var h, g, sends := s.hub, Woken(s, j, ok, y).hub, Woken(s, j, ok, y).sends;
    SendEndEffects(h, s.sends[j], ok, y, s.sends[j].conn);
    SumMonotone(DueTo(g, m, d), DueTo(h, m, d), sends);
    SumMonotone(DueTo(h, m, d), DueTo(g, m, d), sends);
  }

  lemma WokenOwed(s: Net, j: nat, ok: bool, y: Yield, m: Message, d: ModuleId)
    requires Current(s, m) && Enabled(s, Wake(j, ok, y)) && IsBroadcast(m) && (s.sends[j].msg == m ==> ok)
    ensures Owed(Woken(s, j, ok, y), m, d) == Owed(s, m, d)
  {
    var x, send := s.sends[j], Finish(s.hub, s.sends[j], ok, y).send;
    WokenSends(s, j, ok, y, m, d);
    TurnOwes(s.hub, x, ok, y, m, d);
    SumReplace(DueTo(s.hub, m, d), s.sends, j, send);
    var got := if ok then Some(Letter(s, j)) else None;
    assert s.delivered + [] == s.delivered;
    assert Woken(s, j, ok, y).delivered == Push(s.delivered, got);
    SumPush(Got(m, d), s.delivered, got);
  }

  // ---------- Runs ----------

  lemma OtherOwed(s: Net, e: Event, m: Message, d: ModuleId)
    requires Current(s, m) && Enabled(s, e) && Steady(s, e, m) && !e.Arrive? && !e.Wake?
    ensures Current(Apply(s, e), m) && Owed(Apply(s, e), m, d) == Owed(s, m, d)
  {
    ApplyOk(s, e);
    SteadyKeys(s, e, m);
    DueStays(s.hub, Apply(s, e).hub, m, d, s.sends);
  }

  lemma StepOwed(s: Net, e: Event, m: Message, d: ModuleId)
    requires Current(s, m) && Enabled(s, e) && Steady(s, e, m) && IsBroadcast(m) && d in s.hub.modules
    ensures Current(Apply(s, e), m) && d in Apply(s, e).hub.modules
    ensures Owed(Apply(s, e), m, d) == Owed(s, m, d) + (if ArrivesFor(s, e, m, d) then 1 else 0)
  {
    ApplyOk(s, e);
    SteadyKeys(s, e, m);
    match e
    case Arrive(i, now, o) => ArrivedOwed(s, i, now, o, m, d);
    case Wake(j, ok, y) => WokenCurrent(s, j, ok, y, m); WokenOwed(s, j, ok, y, m, d);
    case _ => OtherOwed(s, e, m, d);
  }

  ghost predicate SteadyThroughout(s: Net, es: seq<Event>, m: Message)
    requires Ok(s) && Run(s, es)
    decreases |es|
  {
    es != [] ==> Steady(s, es[0], m) && (ApplyOk(s, es[0]); SteadyThroughout(Apply(s, es[0]), es[1..], m))
  }

  ghost function Arrivals(s: Net, es: seq<Event>, m: Message, d: ModuleId): nat
    requires Ok(s) && Run(s, es)
    decreases |es|
  {
    if es == [] then 0
    else
      ApplyOk(s, es[0]);
      (if ArrivesFor(s, es[0], m, d) then 1 else 0) + Arrivals(Apply(s, es[0]), es[1..], m, d)
  }

  lemma {:induction false} RunOwed(s: Net, es: seq<Event>, m: Message, d: ModuleId)
    requires Current(s, m) && Run(s, es) && SteadyThroughout(s, es, m) && IsBroadcast(m) && d in s.hub.modules
    ensures Owed(End(s, es), m, d) == Owed(s, m, d) + Arrivals(s, es, m, d)
    decreases |es|
  {
    if es != [] {
      StepOwed(s, es[0], m, d);
      RunOwed(Apply(s, es[0]), es[1..], m, d);
    }
  }

  lemma NothingPending(s: Net, m: Message, d: ModuleId)
    requires forall x <- s.sends :: x.msg != m
    ensures Owed(s, m, d) == Sum(Got(m, d), s.delivered)
  {
    SumPositive(DueTo(s.hub, m, d), s.sends);
  }

  /**
   Between two points with no send of m pending, while no module comes or goes and no send of
   m fails, each connected module is delivered m exactly as often as the hub reads it from
   another module.
   */
  lemma BroadcastReachesEveryOther(s: Net, es: seq<Event>, m: Message, d: ModuleId)
    requires Ok(s) && Run(s, es) && SteadyThroughout(s, es, m) && IsBroadcast(m) && d in s.hub.modules
    requires (forall x <- s.sends :: x.msg != m) && forall x <- End(s, es).sends :: x.msg != m
    ensures Sum(Got(m, d), End(s, es).delivered) == Sum(Got(m, d), s.delivered) + Arrivals(s, es, m, d)
  {
    RunOwed(s, es, m, d);
    NothingPending(s, m, d);
    NothingPending(End(s, es), m, d);
  }
}
