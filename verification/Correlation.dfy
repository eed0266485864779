/**
 Requests and replies find each other.  When application code uses the socket only as
 call_module and emit_event do, every reply that reaches a module answers a request of
 that module, and a request with a target or an action is forwarded to at most one
 module and answered at most once, whatever fails, reconnects or times out on the way.
 */
module Correlation {
  import opened Prelude
  import opened HubModel
  import opened HubEffects
  import opened Network

  predicate IsReply(m: Message) {
    m.kind == Response || m.kind == Error
  }

  /** Correlated messages are requests under the sender's own id, with a correlation id nobody used before. */
  ghost predicate Disciplined(s: Net, e: Event) {
    e.Emit? && e.msg.corr.Some? ==>
      e.msg.kind == Request && e.msg.source == Some(e.id) && e.id != "" && e.msg.corr.value !in s.issued
  }

  ghost predicate DisciplinedThroughout(s: Net, es: seq<Event>)
    requires Ok(s) && Run(s, es)
    decreases |es|
  {
    es != [] ==> Disciplined(s, es[0]) && (ApplyOk(s, es[0]); DisciplinedThroughout(Apply(s, es[0]), es[1..]))
  }

  // ---------- Who a correlated message belongs to ----------

  ghost predicate Owned(issued: map<CorrId, Issue>, m: Message) {
    m.corr.Some? ==>
      && m.corr.value in issued
      && var i := issued[m.corr.value];
      && i.owner != ""
      && ((m.kind == Request && m.source == Some(i.owner) && Addressed(m) == i.addressed)
          || (IsReply(m) && m.target == Some(i.owner)))
  }

  /** A pending send goes where its target says, and only unaddressed messages are broadcast. */
  ghost predicate Directed(h: Hub, x: Send) {
    && x.conn < |h.conns|
    && (Truthy(x.msg.target) ==> h.conns[x.conn].id == x.msg.target.value)
    && (x.after.Broadcast? ==> !Addressed(x.msg))
  }

  ghost predicate Reaches(issued: map<CorrId, Issue>, e: Envelope) {
    Owned(issued, e.msg) && (IsReply(e.msg) && e.msg.corr.Some? ==> e.msg.target == Some(e.peer))
  }

  ghost predicate Correlated(s: Net) {
    && Ok(s)
    && (forall e <- s.inbox :: Owned(s.issued, e.msg))
    && (forall x <- s.sends :: Owned(s.issued, x.msg) && Directed(s.hub, x))
    && (forall e <- s.mail :: Reaches(s.issued, e))
    && (forall e <- s.delivered :: Reaches(s.issued, e))
  }

  // ---------- What hub code puts on a socket ----------

  /** The pending send carries msg itself, properly directed, or a message without correlation id. */
  ghost predicate Passes(h: Hub, msg: Message, send: Option<Send>) {
    send.Some? ==> Directed(h, send.value) && (send.value.msg == msg || send.value.msg.corr.None?)
  }

  lemma SendErrorPasses(h: Hub, id: ModuleId, code: ErrorCode, msg: Message)
    requires WF(h)
    ensures Passes(SendError(h, id, code).hub, msg, SendError(h, id, code).send)
  {
  }

  lemma BroadcastTurnPasses(h: Hub, source: ModuleId, msg: Message, todo: set<ModuleId>, size: nat, epoch: nat,
      y: Yield)
    requires WF(h) && !Addressed(msg)
    ensures var out := BroadcastTurn(h, source, msg, todo, size, epoch, y); Passes(out.hub, msg, out.send)
  {
  }

  lemma RouteByCapabilityPasses(h: Hub, source: ModuleId, msg: Message, order: seq<ModuleId>)
    requires WF(h) && msg.action.Some? && !Truthy(msg.target)
    ensures var out := RouteByCapability(h, source, msg, order); Passes(out.hub, msg, out.send)
  {
  }

  lemma RoutePasses(h: Hub, source: ModuleId, msg: Message, o: Oracle)
    requires WF(h)
    ensures var out := Route(h, source, msg, o); Passes(out.hub, msg, out.send)
  {
    if Truthy(msg.target) {
      SendErrorPasses(h, source, ModuleNotFound, msg);
    } else if Truthy(msg.action) {
      RouteByCapabilityPasses(h, source, msg, o.order);
    } else {
      BroadcastTurnPasses(h, source, msg, h.modules.Keys, |h.modules|, h.epoch, o.yielded);
    }
  }

  lemma ReceivePasses(h: Hub, source: ModuleId, msg: Message, now: Time, o: Oracle)
    requires WF(h)
    ensures var out := Receive(h, source, msg, now, o); Passes(out.hub, msg, out.send)
  {
    if !msg.wellFormed {
      SendErrorPasses(h, source, InvalidMessage, msg);
    } else {
      var h1 := Touch(h, source, now);
      TouchTame(h, source, now);
      SendErrorPasses(h1, source, ProcessingError, msg);
      if Routable(msg.kind) { RoutePasses(h1, source, msg, o); }
    }
  }

  lemma FinishPasses(h: Hub, x: Send, ok: bool, y: Yield)
    requires WF(h) && Directed(h, x)
    ensures var out := Finish(h, x, ok, y);
      && Passes(out.hub, x.msg, out.send)
      && (out.send.Some? && Addressed(x.msg) ==> out.send.value.msg.corr.None?)
  {
  }

  // ---------- Counting the copies of one request ----------

  function Carrying(c: CorrId): Envelope -> nat {
    (e: Envelope) => if e.msg.corr == Some(c) then 1 else 0
  }

  function Requests(c: CorrId): Envelope -> nat {
    (e: Envelope) => if e.msg.corr == Some(c) && e.msg.kind == Request then 1 else 0
  }

  function Replies(c: CorrId): Envelope -> nat {
    (e: Envelope) => if e.msg.corr == Some(c) && IsReply(e.msg) then 1 else 0
  }

  function SendsCarrying(c: CorrId): Send -> nat {
    (x: Send) => if x.msg.corr == Some(c) then 1 else 0
  }

  function SendsOfRequest(c: CorrId): Send -> nat {
    (x: Send) => if x.msg.corr == Some(c) && x.msg.kind == Request then 1 else 0
  }

  /** The request somewhere on its way, its reply on its way, or its reply delivered. */
  function Copies(s: Net, c: CorrId): nat {
    Sum(Carrying(c), s.inbox) + Sum(SendsCarrying(c), s.sends) + Sum(Requests(c), s.mail) + Sum(Replies(c), s.delivered)
  }

  /** The request not yet forwarded, being forwarded, or forwarded. */
  function Forwards(s: Net, c: CorrId): nat {
    Sum(Requests(c), s.inbox) + Sum(SendsOfRequest(c), s.sends) + Sum(Requests(c), s.delivered)
  }

  ghost predicate AtMostOnce(s: Net) {
    forall c <- s.issued :: s.issued[c].addressed ==> Copies(s, c) <= 1 && Forwards(s, c) <= 1
  }

  lemma UnissuedNowhere(s: Net, c: CorrId)
    requires Correlated(s) && c !in s.issued
    ensures Copies(s, c) == 0 && Forwards(s, c) == 0
  {
    SumPositive(Carrying(c), s.inbox);
    SumPositive(Requests(c), s.inbox);
    SumPositive(SendsCarrying(c), s.sends);
    SumPositive(SendsOfRequest(c), s.sends);
    SumPositive(Requests(c), s.mail);
    SumPositive(Requests(c), s.delivered);
    SumPositive(Replies(c), s.delivered);
  }

  // ---------- Steps ----------

  lemma ArrivedCorrelated(s: Net, i: nat, now: Time, o: Oracle)
    requires Correlated(s) && Enabled(s, Arrive(i, now, o))
    ensures Correlated(Arrived(s, i, now, o))
  {
    ArrivedOk(s, i, now, o);
    ReceivePasses(s.hub, s.inbox[i].peer, s.inbox[i].msg, now, o);
    ReplaceMembers(s.inbox, i, None);
  }

  lemma ArrivedOnce(s: Net, i: nat, now: Time, o: Oracle)
    requires Correlated(s) && Enabled(s, Arrive(i, now, o)) && AtMostOnce(s)
    ensures AtMostOnce(Arrived(s, i, now, o))
  {
    var out := Receive(s.hub, s.inbox[i].peer, s.inbox[i].msg, now, o);
    ReceivePasses(s.hub, s.inbox[i].peer, s.inbox[i].msg, now, o);
    forall c <- s.issued
      ensures Copies(Arrived(s, i, now, o), c) <= Copies(s, c) && Forwards(Arrived(s, i, now, o), c) <= Forwards(s, c)
    {
      SumRemove(Carrying(c), s.inbox, i);
      SumRemove(Requests(c), s.inbox, i);
      SumPush(SendsCarrying(c), s.sends, out.send);
      SumPush(SendsOfRequest(c), s.sends, out.send);
    }
  }

  lemma WokenCorrelated(s: Net, j: nat, ok: bool, y: Yield)
    requires Correlated(s) && Enabled(s, Wake(j, ok, y))
    ensures Correlated(Woken(s, j, ok, y))
  {
    WokenOk(s, j, ok, y);
    FinishPasses(s.hub, s.sends[j], ok, y);
    ReplaceMembers(s.sends, j, Finish(s.hub, s.sends[j], ok, y).send);
    assert Reaches(s.issued, Letter(s, j));
  }

  lemma WokenOnce(s: Net, j: nat, ok: bool, y: Yield)
    requires Correlated(s) && Enabled(s, Wake(j, ok, y)) && AtMostOnce(s)
    ensures AtMostOnce(Woken(s, j, ok, y))
  {
    var x := s.sends[j];
    var out := Finish(s.hub, x, ok, y);
    FinishPasses(s.hub, x, ok, y);
    var got := if ok then Some(Letter(s, j)) else None;
    assert s.mail + [] == s.mail && s.delivered + [] == s.delivered;
    var t := Woken(s, j, ok, y);
    assert t.mail == Push(s.mail, got) && t.delivered == Push(s.delivered, got);
    forall c <- s.issued
      ensures s.issued[c].addressed ==> Copies(t, c) <= Copies(s, c) && Forwards(t, c) <= Forwards(s, c)
    {
      SumReplace(SendsCarrying(c), s.sends, j, out.send);
      SumReplace(SendsOfRequest(c), s.sends, j, out.send);
      SumPush(Requests(c), s.mail, got);
      SumPush(Requests(c), s.delivered, got);
      SumPush(Replies(c), s.delivered, got);
      if s.issued[c].addressed && x.msg.corr == Some(c) {
        assert Addressed(x.msg);  // a reply has its target, a request of this kind a target or an action
      }
    }
  }

  lemma ServedCorrelated(s: Net, k: nat, result: Outcome)
    requires Correlated(s) && Enabled(s, Serve(k, result))
    ensures Correlated(Served(s, k, result))
  {
    ReplaceMembers(s.mail, k, None);
    var reply := EndpointReply(s.mail[k].peer, s.mail[k].msg, result);
    assert Reaches(s.issued, s.mail[k]);
    assert reply.Some? ==> Owned(s.issued, reply.value);
  }

  lemma ServedOnce(s: Net, k: nat, result: Outcome)
    requires Correlated(s) && Enabled(s, Serve(k, result)) && AtMostOnce(s)
    ensures AtMostOnce(Served(s, k, result))
  {
    var self := s.mail[k].peer;
    var reply := EndpointReply(self, s.mail[k].msg, result);
    var back := if reply.Some? then Some(Envelope(self, reply.value)) else None;
    var t := Served(s, k, result);
    assert t.inbox == Push(s.inbox, back);
    forall c <- s.issued ensures Copies(t, c) <= Copies(s, c) && Forwards(t, c) <= Forwards(s, c) {
      SumRemove(Requests(c), s.mail, k);
      SumPush(Carrying(c), s.inbox, back);
      SumPush(Requests(c), s.inbox, back);
    }
  }

  lemma EmittedCorrelated(s: Net, id: ModuleId, msg: Message)
    requires Correlated(s) && AtMostOnce(s) && Disciplined(s, Emit(id, msg))
    ensures Correlated(Emitted(s, id, msg)) && AtMostOnce(Emitted(s, id, msg))
  {
    var t := Emitted(s, id, msg);
    assert t.inbox == Push(s.inbox, Some(Envelope(id, msg)));
    assert forall m: Message :: Owned(s.issued, m) ==> Owned(t.issued, m);
    forall c <- t.issued
      ensures t.issued[c].addressed ==> Copies(t, c) <= 1 && Forwards(t, c) <= 1
    {
      SumPush(Carrying(c), s.inbox, Some(Envelope(id, msg)));
      SumPush(Requests(c), s.inbox, Some(Envelope(id, msg)));
      if c !in s.issued { UnissuedNowhere(s, c); }
    }
  }

  /** A change of the hub's own registry leaves every message where it was. */
  lemma HubOnlyCorrelated(s: Net, h: Hub)
    requires Correlated(s) && AtMostOnce(s) && Grows(s.hub, h) && Ok(s.(hub := h))
    ensures Correlated(s.(hub := h)) && AtMostOnce(s.(hub := h))
  {
  }

  lemma StepCorrelated(s: Net, e: Event)
    requires Correlated(s) && AtMostOnce(s) && Enabled(s, e) && Disciplined(s, e)
    ensures Correlated(Apply(s, e)) && AtMostOnce(Apply(s, e))
  {
    ApplyOk(s, e);
    match e
    case Emit(id, msg) => EmittedCorrelated(s, id, msg);
    case Arrive(i, now, o) => ArrivedCorrelated(s, i, now, o); ArrivedOnce(s, i, now, o);
    case Wake(j, ok, y) => WokenCorrelated(s, j, ok, y); WokenOnce(s, j, ok, y);
    case Serve(k, result) => ServedCorrelated(s, k, result); ServedOnce(s, k, result);
    case _ => HubOnlyCorrelated(s, Apply(s, e).hub);
  }

  lemma {:induction false} RunCorrelated(s: Net, es: seq<Event>)
    requires Correlated(s) && AtMostOnce(s) && Run(s, es) && DisciplinedThroughout(s, es)
    ensures Correlated(End(s, es)) && AtMostOnce(End(s, es))
    decreases |es|
  {
    if es != [] {
      StepCorrelated(s, es[0]);
      RunCorrelated(Apply(s, es[0]), es[1..]);
    }
  }

  /** Every correlated reply ever delivered reached the module that issued that correlation id. */
  lemma RepliesReachTheirRequester(es: seq<Event>, e: Envelope, c: CorrId)
    requires Run(START, es) && DisciplinedThroughout(START, es)
    requires e in End(START, es).delivered && IsReply(e.msg) && e.msg.corr == Some(c)
    ensures c in End(START, es).issued && End(START, es).issued[c].owner == e.peer
  {
    RunCorrelated(START, es);
    assert Reaches(End(START, es).issued, e);
  }

  /** A request naming a target or an action is delivered at most once and answered at most once. */
  lemma RequestsServedAtMostOnce(es: seq<Event>, c: CorrId)
    requires Run(START, es) && DisciplinedThroughout(START, es)
    requires c in End(START, es).issued && End(START, es).issued[c].addressed
    ensures Sum(Requests(c), End(START, es).delivered) <= 1
    ensures Sum(Replies(c), End(START, es).delivered) <= 1
  {
    RunCorrelated(START, es);
  }
}
