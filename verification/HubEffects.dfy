/** What hub code does to the registry while it handles messages. */
module HubEffects {
  import opened Prelude
  import opened HubModel

  // ---------- _select_module ----------

  /** No candidate before the i-th is as good as m. */
  ghost predicate FirstSuch(h: Hub, order: seq<ModuleId>, m: ModuleId, i: nat)
    requires WF(h) && m in h.modules
    requires forall id <- order :: id in h.modules
  {
    && i < |order| && order[i] == m
    && forall j :: 0 <= j < i && ConnOf(h, order[j]).online ==> ConnOf(h, order[j]).load > ConnOf(h, m).load
  }

  /** m is what the loop must find: online, of least load, and the first such in the order. */
  ghost predicate LeastLoaded(h: Hub, order: seq<ModuleId>, m: ModuleId)
    requires WF(h)
    requires forall id <- order :: id in h.modules
  {
    && m in order && ConnOf(h, m).online
    && (forall id <- order :: ConnOf(h, id).online ==> ConnOf(h, m).load <= ConnOf(h, id).load)
    && exists i :: FirstSuch(h, order, m, i)
  }

  lemma {:induction false} SelectLeastLoaded(h: Hub, order: seq<ModuleId>)
    requires WF(h)
    requires forall id <- order :: id in h.modules
    ensures Select(h, order) == None <==> forall id <- order :: !ConnOf(h, id).online
    ensures Select(h, order).Some? ==> LeastLoaded(h, order, Select(h, order).value)
  {
    if order != [] {
      var front, last := order[..|order| - 1], order[|order| - 1];
      assert order == front + [last];
      SelectLeastLoaded(h, front);
      var best := Select(h, front);
      if Select(h, order) == best && best.Some? {
        var i :| FirstSuch(h, front, best.value, i);
        assert FirstSuch(h, order, best.value, i);
      } else if Select(h, order).Some? {
        assert FirstSuch(h, order, last, |order| - 1);
      }
    }
  }

  predicate Announces(msg: Message) {
    msg.wellFormed && msg.kind == Announce
  }

  // ---------- Message handling ----------

  /**
   No module comes or goes, no object changes id, capabilities or status, and load counts
   rise by one exactly on the object of the send left pending, which is a registered one.
   A cache entry is an old one, or names a connected module found in the index.
   */
  ghost predicate Tame(h: Hub, g: Hub, sent: Option<Send>) {
    && WF(g) && g.modules == h.modules && g.index == h.index && g.epoch == h.epoch && |g.conns| == |h.conns|
    && (forall k: nat :: k < |h.conns| ==> TameConn(h.conns[k], g.conns[k], sent.Some? && sent.value.conn == k))
    && (sent.Some? ==> sent.value.conn < |g.conns| && Registered(g, sent.value.conn))
    && (forall a <- g.cache :: CachedOk(h, g.cache, a))
  }

  ghost predicate CachedOk(h: Hub, cache: map<Capability, ModuleId>, a: Capability)
    requires a in cache
  {
    || (a in h.cache && cache[a] == h.cache[a])
    || (cache[a] in h.modules && cache[a] in Indexed(h.index, a))
  }

  ghost predicate TameConn(c: Conn, d: Conn, sending: bool) {
    && d.id == c.id && d.caps == c.caps && d.online == c.online
    && d.load == c.load + (if sending then 1 else 0)
  }

  lemma TameThen(h: Hub, g: Hub, out: Out)
    requires Tame(h, g, None) && Tame(g, out.hub, out.send)
    ensures Tame(h, out.hub, out.send)
  {
    forall a <- out.hub.cache ensures CachedOk(h, out.hub.cache, a) {
      assert CachedOk(g, out.hub.cache, a);
      if a in g.cache { assert CachedOk(h, g.cache, a); }
    }
    forall k: nat | k < |h.conns|
      ensures TameConn(h.conns[k], out.hub.conns[k], out.send.Some? && out.send.value.conn == k)
    {
      assert TameConn(h.conns[k], g.conns[k], false);
    }
  }

  lemma BeginSendTame(h: Hub, id: ModuleId, msg: Message, after: After)
    requires WF(h) && id in h.modules
    ensures var out := BeginSend(h, id, msg, after); Tame(h, out.hub, out.send)
  {
  }

  lemma SendErrorTame(h: Hub, id: ModuleId, code: ErrorCode)
    requires WF(h)
    ensures var out := SendError(h, id, code); Tame(h, out.hub, out.send)
  {
  }

  lemma BroadcastTurnTame(h: Hub, source: ModuleId, msg: Message, todo: set<ModuleId>, size: nat, epoch: nat, y: Yield)
    requires WF(h)
    ensures var out := BroadcastTurn(h, source, msg, todo, size, epoch, y); Tame(h, out.hub, out.send)
  {
    SendErrorTame(h, source, ProcessingError);
    if y.Next? && y.id in h.modules {
      BeginSendTame(h, y.id, msg, Broadcast(source, todo - {y.dropped}, size, epoch));
    }
  }

  lemma RouteByCapabilityTame(h: Hub, source: ModuleId, msg: Message, order: seq<ModuleId>)
    requires WF(h) && msg.action.Some? && Lists(order, Indexed(h.index, msg.action.value))
    ensures var out := RouteByCapability(h, source, msg, order); Tame(h, out.hub, out.send)
  {
    var action := msg.action.value;
    SendErrorTame(h, source, NoCapability);
    SendErrorTame(h, source, ProcessingError);
    if action in h.cache && h.cache[action] in h.modules {
      BeginSendTame(h, h.cache[action], msg, Report(source));
    } else if forall id <- order :: id in h.modules {
      SelectLeastLoaded(h, order);
      var best := Select(h, order);
      if best.Some? { CacheThenSendTame(h, action, best.value, msg, Report(source)); }
    }
  }

  lemma CacheThenSendTame(h: Hub, action: Capability, id: ModuleId, msg: Message, after: After)
    requires WF(h) && id in h.modules && id in Indexed(h.index, action)
    ensures var out := BeginSend(h.(cache := h.cache[action := id]), id, msg, after); Tame(h, out.hub, out.send)
  {
  }

  lemma RouteTame(h: Hub, source: ModuleId, msg: Message, o: Oracle)
    requires WF(h) && OracleOk(h, source, msg, o)
    ensures var out := Route(h, source, msg, o); Tame(h, out.hub, out.send)
  {
    if Truthy(msg.target) {
      SendErrorTame(h, source, ModuleNotFound);
      if msg.target.value in h.modules { BeginSendTame(h, msg.target.value, msg, Report(source)); }
    } else if Truthy(msg.action) {
      RouteByCapabilityTame(h, source, msg, o.order);
    } else {
      BroadcastTurnTame(h, source, msg, h.modules.Keys, |h.modules|, h.epoch, o.yielded);
    }
  }

  lemma DispatchTame(h: Hub, source: ModuleId, msg: Message, o: Oracle)
    requires WF(h) && OracleOk(h, source, msg, o) && !msg.kind.Announce?
    ensures var out := Dispatch(h, source, msg, o); Tame(h, out.hub, out.send)
  {
    match msg.kind
    case Heartbeat => if source in h.modules { BeginSendTame(h, source, ACK, Report(source)); }
    case Query => if source in h.modules { BeginSendTame(h, source, CAPABILITIES, Report(source)); }
    case Stream =>
    case Request => RouteTame(h, source, msg, o);
    case Response => RouteTame(h, source, msg, o);
    case Event => RouteTame(h, source, msg, o);
    case Error => RouteTame(h, source, msg, o);
    case _ => SendErrorTame(h, source, ProcessingError);
  }

  lemma TouchTame(h: Hub, source: ModuleId, now: Time)
    requires WF(h)
    ensures Tame(h, Touch(h, source, now), None)
  {
  }

  lemma ReceiveTame(h: Hub, source: ModuleId, msg: Message, now: Time, o: Oracle)
    requires WF(h) && OracleOk(h, source, msg, o) && !Announces(msg)
    ensures var out := Receive(h, source, msg, now, o); Tame(h, out.hub, out.send)
  {
    if !msg.wellFormed {
      SendErrorTame(h, source, InvalidMessage);
    } else {
      var h1 := Touch(h, source, now);
      TouchTame(h, source, now);
      DispatchTame(h1, source, msg, o);
      TameThen(h, h1, Dispatch(h1, source, msg, o));
    }
  }

  lemma FinishTame(h: Hub, s: Send, ok: bool, y: Yield)
    requires WF(h) && s.conn < |h.conns|
    ensures var out := Finish(h, s, ok, y); Tame(Released(h, s, ok), out.hub, out.send)
  {
    var h1 := Released(h, s, ok);
    match s.after {
      case Swallow =>
      case Report(source) => SendErrorTame(h1, source, ProcessingError);
      case Broadcast(source, todo, size, epoch) =>
        SendErrorTame(h1, source, ProcessingError);
        BroadcastTurnTame(h1, source, s.msg, todo, size, epoch, y);
    }
  }

}
