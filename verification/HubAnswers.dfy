/**
 What the hub sends, message by message: for every hub and every message, what handling it
 leaves pending and changes, and what the end of a pending send leads to.
 */
module HubAnswers {
  import opened Prelude
  import opened HubModel
  import opened HubEffects

  /** The pending send is msg on the object registered under id. */
  predicate IsForward(h: Hub, send: Option<Send>, id: ModuleId, msg: Message, after: After) {
    id in h.modules && send == Some(Send(h.modules[id], msg, after))
  }

  /** The pending send is the error message of this code on id's object; for an unknown id there is none. */
  predicate IsReport(h: Hub, send: Option<Send>, id: ModuleId, code: ErrorCode) {
    if id in h.modules
    then IsForward(h, send, id, Message(false, Error, None, None, None, {}, None, Some(code)), Swallow)
    else send == None
  }

  predicate HasTarget(msg: Message) {
    msg.target.Some? && msg.target.value != ""
  }

  predicate HasAction(msg: Message) {
    msg.action.Some? && msg.action.value != ""
  }

  // ---------- Handling a message ----------

  /** A message with a target goes to the target and nowhere else, or back as MODULE_NOT_FOUND. */
  lemma DirectRouting(h: Hub, source: ModuleId, msg: Message, now: Time, o: Oracle)
    requires WF(h) && msg.wellFormed && msg.kind in {Request, Response, Event, Error} && HasTarget(msg)
    ensures var send := Receive(h, source, msg, now, o).send;
      if msg.target.value in h.modules then IsForward(h, send, msg.target.value, msg, Report(source))
      else IsReport(h, send, source, ModuleNotFound)
  {
  }

  /** The fate of a message for action a: the cached module, the least loaded of the indexed ones, or an error. */
  ghost predicate RoutedByAction(h: Hub, source: ModuleId, msg: Message, a: Capability, order: seq<ModuleId>, out: Out)
    requires WF(h) && forall id :: id in order <==> id in Indexed(h.index, a)
  {
    var all := Indexed(h.index, a);
    if a in h.cache && h.cache[a] in h.modules then
      IsForward(h, out.send, h.cache[a], msg, Report(source)) && out.hub.cache == h.cache
    else if all == {} then IsReport(h, out.send, source, NoCapability) && out.hub.cache == h.cache
    else if (exists id <- all :: id !in h.modules) || (forall id <- all :: !ConnOf(h, id).online) then
      IsReport(h, out.send, source, ProcessingError) && out.hub.cache == h.cache
    else
      exists id <- all ::
        && IsForward(h, out.send, id, msg, Report(source)) && out.hub.cache == h.cache[a := id]
        && LeastLoaded(h, order, id)
  }

  lemma ActionRouted(h: Hub, source: ModuleId, msg: Message, order: seq<ModuleId>)
    requires WF(h) && msg.action.Some? && Lists(order, Indexed(h.index, msg.action.value))
    ensures RoutedByAction(h, source, msg, msg.action.value, order, RouteByCapability(h, source, msg, order))
  {
    var all := Indexed(h.index, msg.action.value);
    if all != {} {
      var some :| some in all;
      assert some in order;
    }
    if forall id <- all :: id in h.modules {
      SelectLeastLoaded(h, order);
      assert (forall id <- order :: !ConnOf(h, id).online) <==> forall id <- all :: !ConnOf(h, id).online;
    } else {
      assert exists id <- order :: id !in h.modules;
    }
  }

  /** A message with an action and no target. */
  lemma ActionRouting(h: Hub, source: ModuleId, msg: Message, now: Time, o: Oracle)
    requires WF(h) && msg.wellFormed && msg.kind in {Request, Response, Event, Error}
    requires !HasTarget(msg) && HasAction(msg)
    requires Lists(o.order, Indexed(h.index, msg.action.value))
    ensures RoutedByAction(h, source, msg, msg.action.value, o.order, Receive(h, source, msg, now, o))
  {
    var h1, a := Touch(h, source, now), msg.action.value;
    var out := Receive(h, source, msg, now, o);
    TouchedLoads(h, source, now);
    ActionRouted(h1, source, msg, o.order);
    assert out == RouteByCapability(h1, source, msg, o.order);
    SameFate(h, h1, source, msg, a, o.order, out);
  }

  ghost predicate SameLoads(h: Hub, g: Hub) {
    && WF(h) && WF(g) && g.modules == h.modules && g.index == h.index && g.cache == h.cache
    && forall id <- h.modules ::
         ConnOf(g, id).load == ConnOf(h, id).load && ConnOf(g, id).online == ConnOf(h, id).online
  }

  lemma SameFate(h: Hub, g: Hub, source: ModuleId, msg: Message, a: Capability, order: seq<ModuleId>, out: Out)
    requires SameLoads(h, g) && forall id :: id in order <==> id in Indexed(h.index, a)
    requires RoutedByAction(g, source, msg, a, order, out)
    ensures RoutedByAction(h, source, msg, a, order, out)
  {
    var all := Indexed(h.index, a);
    if forall id <- all :: id in h.modules {
      forall id <- all | LeastLoaded(g, order, id) ensures LeastLoaded(h, order, id) {
        SameLeast(h, g, order, id);
      }
    }
  }

  lemma TouchedLoads(h: Hub, source: ModuleId, now: Time)
    requires WF(h)
    ensures SameLoads(h, Touch(h, source, now))
  {
  }

  lemma SameLeast(h: Hub, g: Hub, order: seq<ModuleId>, m: ModuleId)
    requires SameLoads(h, g) && (forall id <- order :: id in h.modules) && LeastLoaded(g, order, m)
    ensures LeastLoaded(h, order, m)
  {
    var i :| FirstSuch(g, order, m, i);
    assert FirstSuch(h, order, m, i);
  }

  /** A message with neither starts a broadcast: to some other module first, with all the rest still to do. */
  lemma BroadcastStart(h: Hub, source: ModuleId, msg: Message, now: Time, o: Oracle)
    requires WF(h) && msg.wellFormed && msg.kind in {Request, Response, Event, Error}
    requires !HasTarget(msg) && !HasAction(msg)
    requires OracleOk(h, source, msg, o)
    ensures var send := Receive(h, source, msg, now, o).send;
      if h.modules.Keys - {source} == {} then send == None
      else
        exists id <- h.modules.Keys - {source} ::
          IsForward(h, send, id, msg, Broadcast(source, h.modules.Keys - {id}, |h.modules|, h.epoch))
  {
  }

  /** Everything that is not routed. */
  lemma OtherAnswers(h: Hub, source: ModuleId, msg: Message, now: Time, o: Oracle)
    requires WF(h)
    ensures var send := Receive(h, source, msg, now, o).send;
      && (!msg.wellFormed ==> IsReport(h, send, source, InvalidMessage))
      && (msg.wellFormed && msg.kind == Heartbeat && source in h.modules ==>
            IsForward(h, send, source, Message(false, HeartbeatAck, None, None, None, {}, None, None), Report(source)))
      && (msg.wellFormed && msg.kind == Query && source in h.modules ==>
            IsForward(h, send, source,
                      Message(false, CapabilityResponse, None, None, None, {}, None, None), Report(source)))
      && (msg.wellFormed && msg.kind in {Heartbeat, Query} && source !in h.modules ==> send == None)
      && (msg.wellFormed && msg.kind in {Announce, Stream} ==> send == None)
      && (msg.wellFormed && msg.kind in {HeartbeatAck, CapabilityResponse, Unknown} ==>
            IsReport(h, send, source, ProcessingError))
  {
  }

  /**
   Connection object k after msg from source: counted, heard, loaded by the pending send, its
   capabilities replaced.
   */
  predicate ConnAfter(h: Hub, source: ModuleId, msg: Message, now: Time, sent: Option<Send>, k: nat, c: Conn)
    requires k < |h.conns|
  {
    var b := h.conns[k];
    var his := msg.wellFormed && source in h.modules && h.modules[source] == k;
    c == Conn(b.id,
              if his && msg.kind == Announce then msg.caps else b.caps,
              b.online,
              if his then now else b.lastHeartbeat,
              if his then b.requests + 1 else b.requests,
              b.errors,
              if sent.Some? && sent.value.conn == k then b.load + 1 else b.load)
  }

  /** g is h with one more load on the object of the pending send, and possibly another cache. */
  ghost predicate Loaded(h: Hub, g: Hub, sent: Option<Send>) {
    && g == h.(conns := g.conns, cache := g.cache) && |g.conns| == |h.conns|
    && forall k: nat :: k < |h.conns| ==> ConnLoaded(h.conns[k], g.conns[k], sent.Some? && sent.value.conn == k)
  }

  predicate ConnLoaded(c: Conn, d: Conn, sending: bool) {
    d == c.(load := c.load + if sending then 1 else 0)
  }

  lemma ErrorLoads(h: Hub, id: ModuleId, code: ErrorCode)
    requires WF(h)
    ensures Loaded(h, SendError(h, id, code).hub, SendError(h, id, code).send)
    ensures SendError(h, id, code).hub.cache == h.cache
  {
  }

  lemma BroadcastLoads(h: Hub, source: ModuleId, msg: Message, todo: set<ModuleId>, size: nat, epoch: nat, y: Yield)
    requires WF(h)
    ensures var out := BroadcastTurn(h, source, msg, todo, size, epoch, y);
      Loaded(h, out.hub, out.send) && out.hub.cache == h.cache
  {
    ErrorLoads(h, source, ProcessingError);
  }

  lemma ActionLoads(h: Hub, source: ModuleId, msg: Message, order: seq<ModuleId>)
    requires WF(h) && msg.action.Some?
    ensures var out := RouteByCapability(h, source, msg, order); Loaded(h, out.hub, out.send)
  {
    ErrorLoads(h, source, NoCapability);
    ErrorLoads(h, source, ProcessingError);
  }

  lemma DispatchLoads(h: Hub, source: ModuleId, msg: Message, o: Oracle)
    requires WF(h) && msg.kind != Announce
    ensures var out := Dispatch(h, source, msg, o); Loaded(h, out.hub, out.send)
  {
    ErrorLoads(h, source, ProcessingError);
    ErrorLoads(h, source, ModuleNotFound);
    if Routable(msg.kind) && !Truthy(msg.target) {
      if Truthy(msg.action) {
        ActionLoads(h, source, msg, o.order);
      } else {
        BroadcastLoads(h, source, msg, h.modules.Keys, |h.modules|, h.epoch, o.yielded);
      }
    }
  }

  /** What handling a message does to the connection objects and the registry. */
  lemma HandlingEffects(h: Hub, source: ModuleId, msg: Message, now: Time, o: Oracle)
    requires WF(h)
    ensures var out := Receive(h, source, msg, now, o);
      && out.hub.modules == h.modules && out.hub.epoch == h.epoch && |out.hub.conns| == |h.conns|
      && ((msg.wellFormed && msg.kind == Announce) || out.hub.index == h.index)
      && forall k: nat :: k < |h.conns| ==> ConnAfter(h, source, msg, now, out.send, k, out.hub.conns[k])
  {
    var out := Receive(h, source, msg, now, o);
    if !msg.wellFormed {
      ErrorLoads(h, source, InvalidMessage);
    } else if msg.kind != Announce {
      var h1 := Touch(h, source, now);
      TouchTame(h, source, now);
      DispatchLoads(h1, source, msg, o);
      forall k: nat | k < |h.conns| ensures ConnAfter(h, source, msg, now, out.send, k, out.hub.conns[k]) {
        assert ConnLoaded(h1.conns[k], out.hub.conns[k], out.send.Some? && out.send.value.conn == k);
      }
    }
  }

  // ---------- The end of a pending send ----------

  /**
   A forward that fails is reported to its sender as PROCESSING_ERROR, one that succeeds ends
   there.  A broadcast goes on to another module it still owes the message, as long as the
   registry has not changed; a failing send ends it, and so does a change of the registry's size.
   */
  lemma SendEnds(h: Hub, x: Send, ok: bool, y: Yield)
    requires WF(h) && x.conn < |h.conns| && FinishOk(h, x, ok, y)
    ensures var send := Finish(h, x, ok, y).send;
      match x.after
      case Swallow => send == None
      case Report(source) => if ok then send == None else IsReport(h, send, source, ProcessingError)
      case Broadcast(source, todo, size, epoch) =>
        if !ok || |h.modules| != size then IsReport(h, send, source, ProcessingError)
        else if h.epoch != epoch then true  // whatever the dict iterator finds
        else if todo - {source} == {} then send == None
        else exists id <- todo - {source} ::
               if id in h.modules then IsForward(h, send, id, x.msg, Broadcast(source, todo - {id}, size, epoch))
               else IsReport(h, send, source, ProcessingError)
  {
  }

  lemma NextLoads(h: Hub, x: Send, ok: bool, y: Yield)
    requires WF(h) && x.conn < |h.conns|
    ensures var out := Finish(h, x, ok, y);
      Loaded(Released(h, x, ok), out.hub, out.send) && out.hub.cache == h.cache
  {
    var h1 := Released(h, x, ok);
    match x.after {
      case Swallow =>
      case Report(source) => ErrorLoads(h1, source, ProcessingError);
      case Broadcast(source, todo, size, epoch) =>
        ErrorLoads(h1, source, ProcessingError);
        BroadcastLoads(h1, source, x.msg, todo, size, epoch, y);
    }
  }

  predicate ConnReleased(c: Conn, d: Conn, finished: bool, ok: bool, sending: bool) {
    d == c.(load := c.load - (if finished then 1 else 0) + (if sending then 1 else 0),
            errors := c.errors + if finished && !ok then 1 else 0)
  }

  /** The object of the finished send is relieved of it, and charged with a failure; the next send loads its own. */
  lemma SendEndEffects(h: Hub, x: Send, ok: bool, y: Yield, k: nat)
    requires WF(h) && x.conn < |h.conns| && k < |h.conns|
    ensures var out := Finish(h, x, ok, y);
      && out.hub == h.(conns := out.hub.conns) && |out.hub.conns| == |h.conns|
      && ConnReleased(h.conns[k], out.hub.conns[k], k == x.conn, ok, out.send.Some? && out.send.value.conn == k)
  {
    var h1, out := Released(h, x, ok), Finish(h, x, ok, y);
    NextLoads(h, x, ok, y);
    assert ConnLoaded(h1.conns[k], out.hub.conns[k], out.send.Some? && out.send.value.conn == k);
  }
}
