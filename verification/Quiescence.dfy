/**
 Message traffic dies out.  With at most n modules connected, the weight below bounds
 the number of hub and endpoint steps still to come; only application code that puts
 a new message on its socket adds to it.
 */
module Quiescence {
  import opened Prelude
  import opened HubModel
  import opened Network

  /** Steps a delivered message can still cause: a request brings one reply, a probe one malformed answer. */
  function MailWeight(n: nat): Envelope -> nat {
    (e: Envelope) => MailCost(n, e.msg)
  }

  function MailCost(n: nat, m: Message): nat {
    match m.kind
    case Request => 2 * n + 6
    case Heartbeat => 4
    case Query => 4
    case _ => 1
  }

  /** Steps a pending send can still cause: its own, the receiver's, an error report, and the rest of a broadcast. */
  function SendWeight(n: nat): Send -> nat {
    (x: Send) => SendCost(n, x)
  }

  function SendCost(n: nat, x: Send): nat {
    match x.after
    case Swallow => 1 + MailCost(n, x.msg)
    case Report(_) => 3 + MailCost(n, x.msg)
    case Broadcast(_, todo, _, _) => 3 + MailCost(n, x.msg) + |todo| * (1 + MailCost(n, x.msg))
  }

  /** Steps a message on its way to the hub can still cause; a broadcast fans it out to at most n modules. */
  function InboxWeight(n: nat): Envelope -> nat {
    (e: Envelope) => InboxCost(n, e.msg)
  }

  function InboxCost(n: nat, m: Message): nat {
    if !m.wellFormed then 3
    else if Routable(m.kind) then 4 + MailCost(n, m) + n * (1 + MailCost(n, m))
    else 5
  }

  function Weight(n: nat, s: Net): nat {
    Sum(InboxWeight(n), s.inbox) + Sum(SendWeight(n), s.sends) + Sum(MailWeight(n), s.mail)
  }

  function OptCost(n: nat, x: Option<Send>): nat {
    if x.Some? then SendCost(n, x.value) else 0
  }

  // ---------- One step ----------

  lemma SendErrorCost(n: nat, h: Hub, id: ModuleId, code: ErrorCode)
    requires WF(h)
    ensures OptCost(n, SendError(h, id, code).send) <= 2
  {
  }

  lemma Scale(t: nat, u: nat, w: nat)
    requires t <= u
    ensures t * w <= u * w
  {
  }

  lemma BroadcastTurnCost(
      n: nat, h: Hub, source: ModuleId, msg: Message, todo: set<ModuleId>, size: nat, epoch: nat, y: Yield)
    requires WF(h) && YieldOk(h, source, todo, size, epoch, y)
    ensures OptCost(n, BroadcastTurn(h, source, msg, todo, size, epoch, y).send) <= 2 + |todo| * (1 + MailCost(n, msg))
  {
  }

  lemma RouteByCapabilityCost(n: nat, h: Hub, source: ModuleId, msg: Message, order: seq<ModuleId>)
    requires WF(h) && msg.action.Some?
    ensures OptCost(n, RouteByCapability(h, source, msg, order).send) <= 3 + MailCost(n, msg)
  {
  }

  lemma RouteCost(n: nat, h: Hub, source: ModuleId, msg: Message, o: Oracle)
    requires WF(h) && OracleOk(h, source, msg, o) && |h.modules| <= n
    ensures OptCost(n, Route(h, source, msg, o).send) <= 3 + MailCost(n, msg) + n * (1 + MailCost(n, msg))
  {
    Scale(0, n, 1 + MailCost(n, msg));
    if Truthy(msg.target) {
      SendErrorCost(n, h, source, ModuleNotFound);
    } else if Truthy(msg.action) {
      RouteByCapabilityCost(n, h, source, msg, o.order);
    } else {
      assert |h.modules.Keys| == |h.modules|;
      BroadcastTurnCost(n, h, source, msg, h.modules.Keys, |h.modules|, h.epoch, o.yielded);
      Scale(|h.modules.Keys|, n, 1 + MailCost(n, msg));
    }
  }

  lemma ReceiveCost(n: nat, h: Hub, source: ModuleId, msg: Message, now: Time, o: Oracle)
    requires WF(h) && OracleOk(h, source, msg, o) && |h.modules| <= n
    ensures OptCost(n, Receive(h, source, msg, now, o).send) < InboxCost(n, msg)
  {
    if !msg.wellFormed {
      SendErrorCost(n, h, source, InvalidMessage);
    } else {
      var h1 := Touch(h, source, now);
      assert OracleOk(h1, source, msg, o);
      SendErrorCost(n, h1, source, ProcessingError);
      if Routable(msg.kind) { RouteCost(n, h1, source, msg, o); }
    }
  }

  lemma FinishBroadcastCost(n: nat, h: Hub, x: Send, y: Yield)
    requires WF(h) && x.conn < |h.conns| && x.after.Broadcast? && FinishOk(h, x, true, y)
    ensures MailCost(n, x.msg) + OptCost(n, Finish(h, x, true, y).send) < SendCost(n, x)
  {
    var h1 := Released(h, x, true);
    var b := x.after;
    assert YieldOk(h1, b.source, b.todo, b.size, b.epoch, y);
    BroadcastTurnCost(n, h1, b.source, x.msg, b.todo, b.size, b.epoch, y);
  }

  /** A send's weight pays for what it delivers and for what the hub does next. */
  lemma FinishCost(n: nat, h: Hub, x: Send, ok: bool, y: Yield)
    requires WF(h) && x.conn < |h.conns| && FinishOk(h, x, ok, y)
    ensures (if ok then MailCost(n, x.msg) else 0) + OptCost(n, Finish(h, x, ok, y).send) < SendCost(n, x)
  {
    var h1 := Released(h, x, ok);
    match x.after {
      case Swallow =>
      case Report(source) => SendErrorCost(n, h1, source, ProcessingError);
      case Broadcast(source, todo, size, epoch) =>
        if ok {
          FinishBroadcastCost(n, h, x, y);
        } else {
          SendErrorCost(n, h1, source, ProcessingError);
          Scale(0, |todo|, 1 + MailCost(n, x.msg));
        }
    }
  }

  lemma ReplyCost(n: nat, self: ModuleId, m: Message, result: Outcome)
    ensures var reply := EndpointReply(self, m, result);
      (if reply.Some? then InboxCost(n, reply.value) else 0) < MailCost(n, m)
  {
  }

  predicate IsMessageStep(e: Event) {
    e.Arrive? || e.Wake? || e.Serve?
  }

  lemma ArrivedLighter(n: nat, s: Net, i: nat, now: Time, o: Oracle)
    requires Ok(s) && Enabled(s, Arrive(i, now, o)) && |s.hub.modules| <= n
    ensures Weight(n, Arrived(s, i, now, o)) < Weight(n, s)
  {
    ReceiveCost(n, s.hub, s.inbox[i].peer, s.inbox[i].msg, now, o);
    var out := Receive(s.hub, s.inbox[i].peer, s.inbox[i].msg, now, o);
    SumRemove(InboxWeight(n), s.inbox, i);
    SumPush(SendWeight(n), s.sends, out.send);
  }

  lemma WokenLighter(n: nat, s: Net, j: nat, ok: bool, y: Yield)
    requires Ok(s) && Enabled(s, Wake(j, ok, y))
    ensures Weight(n, Woken(s, j, ok, y)) < Weight(n, s)
  {
    var x := s.sends[j];
    FinishCost(n, s.hub, x, ok, y);
    SumReplace(SendWeight(n), s.sends, j, Finish(s.hub, x, ok, y).send);
    if ok {
      SumPush(MailWeight(n), s.mail, Some(Letter(s, j)));
    } else {
      assert s.mail + [] == s.mail;
    }
  }

  lemma ServedLighter(n: nat, s: Net, k: nat, result: Outcome)
    requires Ok(s) && Enabled(s, Serve(k, result))
    ensures Weight(n, Served(s, k, result)) < Weight(n, s)
  {
    ReplyCost(n, s.mail[k].peer, s.mail[k].msg, result);
    SumRemove(MailWeight(n), s.mail, k);
    var reply := EndpointReply(s.mail[k].peer, s.mail[k].msg, result);
    if reply.Some? {
      SumPush(InboxWeight(n), s.inbox, Some(Envelope(s.mail[k].peer, reply.value)));
    }
  }

  // ---------- Whole runs ----------

  ghost predicate AtMost(n: nat, s: Net, es: seq<Event>)
    requires Ok(s) && Run(s, es)
    decreases |es|
  {
    |s.hub.modules| <= n && (es != [] ==> (ApplyOk(s, es[0]); AtMost(n, Apply(s, es[0]), es[1..])))
  }

  function MessageSteps(es: seq<Event>): nat {
    if es == [] then 0 else (if IsMessageStep(es[0]) then 1 else 0) + MessageSteps(es[1..])
  }

  function EmittedWeight(n: nat, es: seq<Event>): nat {
    if es == [] then 0
    else (if es[0].Emit? then InboxCost(n, es[0].msg) else 0) + EmittedWeight(n, es[1..])
  }

  /**
   Connects, disconnects, timeouts and failing sends may interleave freely: the hub and
   endpoint steps of a run, plus the traffic left at its end, are paid for by the traffic
   at its start and what applications emit.
   */
  lemma {:induction false} TrafficDiesOut(n: nat, s: Net, es: seq<Event>)
    requires Ok(s) && Run(s, es) && AtMost(n, s, es)
    ensures MessageSteps(es) + Weight(n, End(s, es)) <= Weight(n, s) + EmittedWeight(n, es)
    decreases |es|
  {
    if es != [] {
      var t := Apply(s, es[0]);
      ApplyOk(s, es[0]);
      match es[0] {
        case Emit(id, msg) => SumPush(InboxWeight(n), s.inbox, Some(Envelope(id, msg)));
        case Arrive(i, now, o) => ArrivedLighter(n, s, i, now, o);
        case Wake(j, ok, y) => WokenLighter(n, s, j, ok, y);
        case Serve(k, result) => ServedLighter(n, s, k, result);
        case _ =>
      }
      TrafficDiesOut(n, t, es[1..]);
    }
  }

  predicate Quiet(s: Net) {
    s.inbox == [] && s.sends == [] && s.mail == []
  }

  /** As long as any message is in transit, some hub or endpoint step can be taken. */
  lemma TrafficNeverStuck(s: Net)
    requires Ok(s) && !Quiet(s)
    ensures exists e :: IsMessageStep(e) && Enabled(s, e)
  {
    if s.mail != [] {
      assert Enabled(s, Serve(0, Replied));
    } else if s.sends != [] {
      assert Enabled(s, Wake(0, false, Stop));
    } else {
      var source, msg := s.inbox[0].peer, s.inbox[0].msg;
      var order: seq<ModuleId> := [];
      if Truthy(msg.action) { order := SomeOrder(Indexed(s.hub.index, msg.action.value)); }
      var rest := s.hub.modules.Keys - {source};
      assert |s.hub.modules.Keys| == |s.hub.modules|;
      if rest == {} {
        assert Enabled(s, Arrive(0, 0.0, Oracle(order, Stop)));
      } else {
        var id :| id in rest;
        assert Enabled(s, Arrive(0, 0.0, Oracle(order, Next(id, id))));
      }
    }
  }

  lemma SomeOrder(ids: set<ModuleId>) returns (order: seq<ModuleId>)
    ensures Lists(order, ids)
  {
    if ids == {} {
      order := [];
    } else {
      var id :| id in ids;
      order := SomeOrder(ids - {id});
      order := order + [id];
    }
  }
}
