/**
 The MCPHub object itself: its dictionaries, and connection objects updated in place and
 shared with suspended sends.  Each method runs up to the next point where the event loop
 may switch tasks, and is proved to do to the abstract state what HubModel says.
 */
module HubServer {
  import opened Prelude
  import opened HubModel
  import opened HubAnswers
  import opened HubEffects

  class ModuleConnection {
    const moduleId: ModuleId
    ghost const serial: nat  // how many connections were made before this one
    var capabilities: set<Capability>
    var online: bool
    var lastHeartbeat: Time
    var requestCount: nat
    var errorCount: nat
    var currentLoad: int

    ghost function Value(): Conn
      reads this
    {
      Conn(moduleId, capabilities, online, lastHeartbeat, requestCount, errorCount, currentLoad)
    }

    constructor (id: ModuleId, caps: set<Capability>, now: Time, ghost n: nat)
      ensures Value() == Conn(id, caps, true, now, 0, 0, 0) && serial == n
    {
      moduleId, serial, capabilities, online, lastHeartbeat := id, n, caps, true, now;
      requestCount, errorCount, currentLoad := 0, 0, 0;
    }
  }

  /** A coroutine stopped at the socket send of _send_to_module; it keeps the object, not the id. */
  datatype Pending = Pending(connection: ModuleConnection, msg: Message, after: After)

  /** How a stretch of hub code ends. */
  datatype Flow = Done | Suspended(pending: Pending) | Raised

  ghost function SendOf(f: Flow): Option<Send> {
    if f.Suspended? then Some(Send(f.pending.connection.serial, f.pending.msg, f.pending.after)) else None
  }

  /** The flow of a hub method is the model's outcome; an escaping exception ends as PROCESSING_ERROR. */
  ghost predicate Settled(before: Hub, source: ModuleId, f: Flow, after: Hub, out: Out)
    requires WF(before)
  {
    if f.Raised? then after == before && out == SendError(before, source, ProcessingError)
    else out == Out(after, SendOf(f))
  }

  /** now is the index was, with id added under each of caps. */
  ghost predicate IndexPlus(was: Index, now: Index, caps: set<Capability>, id: ModuleId) {
    now.Keys == was.Keys + caps && forall c <- now :: now[c] == Indexed(was, c) + (if c in caps then {id} else {})
  }

  lemma IndexPlusStep(was: Index, now: Index, caps: set<Capability>, c: Capability, id: ModuleId)
    requires IndexPlus(was, now, caps, id) && c !in caps
    ensures IndexPlus(was, now[c := Indexed(now, c) + {id}], caps + {c}, id)
  {
  }

  lemma IndexPlusIs(was: Index, now: Index, caps: set<Capability>, id: ModuleId)
    requires IndexPlus(was, now, caps, id)
    ensures now == AddAll(was, caps, id)
  {
  }

  /** now is the index was, with id discarded under each of caps. */
  ghost predicate IndexMinus(was: Index, now: Index, caps: set<Capability>, id: ModuleId) {
    now.Keys == was.Keys && forall c <- now :: now[c] == was[c] - (if c in caps then {id} else {})
  }

  lemma IndexMinusStep(was: Index, now: Index, caps: set<Capability>, c: Capability, id: ModuleId)
    requires IndexMinus(was, now, caps, id)
    ensures IndexMinus(was, if c in now then now[c := now[c] - {id}] else now, caps + {c}, id)
  {
  }

  lemma IndexMinusIs(was: Index, now: Index, caps: set<Capability>, id: ModuleId)
    requires IndexMinus(was, now, caps, id)
    ensures now == DiscardAll(was, caps, id)
  {
  }

  /** now is the index was, with id moved from under gone to under caps. */
  ghost predicate IndexMoved(was: Index, now: Index, gone: set<Capability>, caps: set<Capability>, id: ModuleId) {
    forall c :: Indexed(now, c) == Indexed(was, c) - (if c in gone then {id} else {}) + (if c in caps then {id} else {})
  }

  lemma MinusThenPlus(was: Index, mid: Index, now: Index, gone: set<Capability>, caps: set<Capability>, id: ModuleId)
    requires IndexMinus(was, mid, gone, id) && IndexPlus(mid, now, caps, id)
    ensures IndexMoved(was, now, gone, caps, id)
  {
  }

  /** The first i elements. */
  ghost function Members(order: seq<ModuleId>, i: nat): set<ModuleId>
    requires i <= |order|
  {
    set id | id in order[..i]
  }

  lemma MembersStep(order: seq<ModuleId>, i: nat)
    requires i < |order| && forall j, k :: 0 <= j < k < |order| ==> order[j] != order[k]
    ensures order[i] !in Members(order, i) && Members(order, i + 1) == Members(order, i) + {order[i]}
  {
    assert order[..i + 1] == order[..i] + [order[i]];
  }

  /** Object k when the monitor has looked at the modules in done. */
  ghost function PartlyChecked(h: Hub, k: nat, done: set<ModuleId>, now: Time, timeout: Time): Conn
    requires k < |h.conns|
  {
    if h.conns[k].id in done then Checked(h, k, now, timeout) else h.conns[k]
  }

  class MCPHub {
    var modules: map<ModuleId, ModuleConnection>
    var capabilitiesIndex: Index
    var routingCache: map<Capability, ModuleId>
    var epoch: nat  // version of the modules dict, which a running iterator notices
    const heartbeatTimeout: Time
    ghost var objects: seq<ModuleConnection>  // every connection object made so far
    ghost var state: Hub                      // the abstract state

    /** The fields and the connection objects are what the abstract state says. */
    ghost predicate Valid()
      reads this, objects
    {
      && WF(state)
      && |objects| == |state.conns|
      && (forall k: nat :: k < |objects| ==> objects[k].serial == k && objects[k].Value() == state.conns[k])
      && modules.Keys == state.modules.Keys
      && (forall id <- modules :: objects[state.modules[id]] == modules[id])
      && capabilitiesIndex == state.index && routingCache == state.cache && epoch == state.epoch
    }

    ghost predicate Knows(f: Flow)
      reads this
    {
      f.Suspended? ==>
        f.pending.connection.serial < |objects| && objects[f.pending.connection.serial] == f.pending.connection
    }

    /** The flow stopped at the send of msg on the object registered under id. */
    ghost predicate Forwards(f: Flow, id: ModuleId, msg: Message, after: After)
      reads this
    {
      id in modules && f == Suspended(Pending(modules[id], msg, after))
    }

    /** The flow stopped at the send of this error to id, or ended there if id is unknown. */
    ghost predicate Reports(f: Flow, id: ModuleId, code: ErrorCode)
      reads this
    {
      if id in modules
      then Forwards(f, id, Message(false, Error, None, None, None, {}, None, Some(code)), Swallow)
      else f == Done
    }

    constructor (timeout: Time)
      ensures Valid() && state == EMPTY && heartbeatTimeout == timeout
    {
      modules, capabilitiesIndex, routingCache, epoch := map[], map[], map[], 0;
      heartbeatTimeout := timeout;
      objects, state := [], EMPTY;
    }

    // ---------- Sending ----------

    /** _send_to_module up to its await. */
    method SendToModule(id: ModuleId, msg: Message, after: After) returns (f: Flow)
      requires Valid()
      modifies this`state, objects
      ensures Valid() && Knows(f)
      ensures id !in modules ==> f == Raised && state == old(state)
      ensures id in modules ==> f.Suspended? && Out(state, SendOf(f)) == BeginSend(old(state), id, msg, after)
      ensures id in modules ==>
        Forwards(f, id, msg, after) && modules[id].currentLoad == old(modules[id].currentLoad) + 1
    {
      if id !in modules {
        return Raised;
      }
      var connection := modules[id];
      connection.currentLoad := connection.currentLoad + 1;
      f := Suspended(Pending(connection, msg, after));
      state := BeginSend(state, id, msg, after).hub;
    }

    /** _send_error up to its await: what it raises itself is only logged. */
    method SendErrorTo(id: ModuleId, code: ErrorCode) returns (f: Flow)
      requires Valid()
      modifies this`state, objects
      ensures Valid() && Knows(f) && f != Raised
      ensures Out(state, SendOf(f)) == SendError(old(state), id, code)
      ensures Reports(f, id, code)
    {
      f := SendToModule(id, HubError(code), Swallow);
      if f.Raised? {
        f := Done;
      }
    }

    /** The except and finally blocks of _send_to_module. */
    method Release(p: Pending, ok: bool)
      requires Valid() && Knows(Suspended(p))
      modifies this`state, objects
      ensures Valid() && state == Released(old(state), Send(p.connection.serial, p.msg, p.after), ok)
      ensures p.connection.currentLoad == old(p.connection.currentLoad) - 1
      ensures p.connection.errorCount == old(p.connection.errorCount) + if ok then 0 else 1
    {
      if !ok {
        p.connection.errorCount := p.connection.errorCount + 1;
      }
      p.connection.currentLoad := p.connection.currentLoad - 1;
      state := Released(state, Send(p.connection.serial, p.msg, p.after), ok);
    }

    /** The rest of _send_to_module once the socket send has returned or raised, and of its callers. */
    method Resume(p: Pending, ok: bool, yielded: Yield) returns (f: Flow)
      requires Valid() && Knows(Suspended(p))
      modifies this`state, objects
      ensures Valid() && Knows(f) && f != Raised
      ensures Out(state, SendOf(f)) == Finish(old(state), Send(p.connection.serial, p.msg, p.after), ok, yielded)
      ensures p.after.Swallow? || (p.after.Report? && ok) ==> f == Done
      ensures !p.after.Swallow? && !ok ==> Reports(f, p.after.source, ProcessingError)
      ensures p.after.Broadcast? && ok ==> TurnTaken(f, p.after.source, p.msg, p.after.todo, p.after.size,
                                                     p.after.epoch, yielded)
    {
      Release(p, ok);
      match p.after {
        case Swallow => f := Done;
        case Report(source) =>
          if ok { f := Done; } else { f := SendErrorTo(source, ProcessingError); }
        case Broadcast(source, todo, size, version) =>
          f := Raised;
          if ok { f := BroadcastOn(source, p.msg, todo, size, version, yielded); }
          if f.Raised? { f := SendErrorTo(source, ProcessingError); }
      }
    }

    // ---------- Routing ----------

    /** What a turn of the broadcast loop leads to, its exception already reported. */
    ghost predicate TurnTaken(f: Flow, source: ModuleId, msg: Message, todo: set<ModuleId>, size: nat, version: nat,
                              yielded: Yield)
      reads this
    {
      match yielded
      case Stop => f == Done
      case Fail => Reports(f, source, ProcessingError)
      case Next(id, dropped) =>
        if id in modules then Forwards(f, id, msg, Broadcast(source, todo - {dropped}, size, version))
        else Reports(f, source, ProcessingError)
    }

    /** One turn of the loop over self.modules; the dict iterator's answer comes in as yielded. */
    method BroadcastOn(source: ModuleId, msg: Message, todo: set<ModuleId>, size: nat, version: nat, yielded: Yield)
      returns (f: Flow)
      requires Valid()
      modifies this`state, objects
      ensures Valid() && Knows(f)
      ensures Settled(old(state), source, f, state,
                      BroadcastTurn(old(state), source, msg, todo, size, version, yielded))
      ensures f == Raised || TurnTaken(f, source, msg, todo, size, version, yielded)
      ensures f == Raised <==> yielded.Fail? || (yielded.Next? && yielded.id !in modules)
    {
      match yielded {
        case Stop => f := Done;
        case Fail => f := Raised;
        case Next(id, dropped) =>
          f := SendToModule(id, msg, Broadcast(source, todo - {dropped}, size, version));
      }
    }

    /** Routing can raise for an action without a usable candidate, and when the dict iterator breaks. */
    predicate RoutingMayRaise(cache: map<Capability, ModuleId>, msg: Message, o: Oracle)
      reads this
    {
      if HasTarget(msg) then false
      else if HasAction(msg) then o.order != [] && !(msg.action.value in cache && cache[msg.action.value] in modules)
      else o.yielded.Fail? || (o.yielded.Next? && o.yielded.id !in modules)
    }

    /** _route_message; an exception it lets escape is answered by its caller. */
    method RouteMessage(source: ModuleId, msg: Message, o: Oracle) returns (f: Flow)
      requires Valid() && OracleOk(state, source, msg, o)
      modifies this`routingCache, this`state, objects
      ensures Valid() && Knows(f)
      ensures Settled(old(state), source, f, state, Route(old(state), source, msg, o))
      ensures HasTarget(msg) ==>
        if msg.target.value in modules then Forwards(f, msg.target.value, msg, Report(source))
        else Reports(f, source, ModuleNotFound)
      ensures !HasTarget(msg) && HasAction(msg) ==> ActionTaken(old(routingCache), f, source, msg, o.order)
      ensures !HasTarget(msg) && !HasAction(msg) ==>
        f == Raised || TurnTaken(f, source, msg, modules.Keys, |modules|, epoch, o.yielded)
      ensures f == Raised ==> RoutingMayRaise(old(routingCache), msg, o)
    {
      if Truthy(msg.target) {
        if msg.target.value in modules {
          f := SendToModule(msg.target.value, msg, Report(source));
        } else {
          f := SendErrorTo(source, ModuleNotFound);
        }
      } else if Truthy(msg.action) {
        f := RouteByAction(source, msg, o.order);
      } else {
        f := BroadcastOn(source, msg, modules.Keys, |modules|, epoch, o.yielded);
        assert |modules| == |modules.Keys| == |state.modules|;
      }
    }

    /** What routing by action leads to; an exception is still to be reported. */
    ghost predicate ActionTaken(cache: map<Capability, ModuleId>, f: Flow, source: ModuleId, msg: Message,
                                order: seq<ModuleId>)
      requires msg.action.Some?
      reads this
    {
      var action := msg.action.value;
      if action in cache && cache[action] in modules then
        Forwards(f, cache[action], msg, Report(source)) && routingCache == cache
      else if order == [] then Reports(f, source, NoCapability) && routingCache == cache
      else if f == Raised then routingCache == cache
      else exists id <- order :: Forwards(f, id, msg, Report(source)) && routingCache == cache[action := id]
    }

    /** The CAPABILITY branch of _route_message; order is what list() makes of the candidate set. */
    method RouteByAction(source: ModuleId, msg: Message, order: seq<ModuleId>) returns (f: Flow)
      requires Valid() && msg.action.Some? && Lists(order, Indexed(capabilitiesIndex, msg.action.value))
      modifies this`routingCache, this`state, objects
      ensures Valid() && Knows(f)
      ensures Settled(old(state), source, f, state, RouteByCapability(old(state), source, msg, order))
      ensures ActionTaken(old(routingCache), f, source, msg, order)
    {
      var action := msg.action.value;
      if action in routingCache && routingCache[action] in modules {
        f := SendToModule(routingCache[action], msg, Report(source));
      } else if order == [] {
        f := SendErrorTo(source, NoCapability);
        assert forall id :: id !in Indexed(old(state).index, action);
      } else {
        assert order[0] in Indexed(state.index, action);
        f := RouteToSelected(source, msg, order);
      }
    }

    /** The selection, the caching of the decision, and the send. */
    method RouteToSelected(source: ModuleId, msg: Message, order: seq<ModuleId>) returns (f: Flow)
      requires Valid() && msg.action.Some?
      modifies this`routingCache, this`state, objects
      ensures Valid() && Knows(f)
      ensures (exists id <- order :: id !in old(modules)) || Select(old(state), order) == None ==>
        f == Raised && state == old(state) && routingCache == old(routingCache)
      ensures f != Raised ==> exists id <- order ::
        Forwards(f, id, msg, Report(source)) && routingCache == old(routingCache)[msg.action.value := id]
      ensures (forall id <- order :: id in modules) && Select(old(state), order).Some? ==>
        Select(old(state), order).value in modules &&
        Out(state, SendOf(f)) ==
          BeginSend(old(state).(cache := old(state).cache[msg.action.value := Select(old(state), order).value]),
                    Select(old(state), order).value, msg, Report(source)) && f.Suspended?
    {
      var selected := SelectModule(order);
      if selected.None? {
        return Raised;
      }
      SelectLeastLoaded(state, order);
      CacheRoute(msg.action.value, selected.value);
      f := SendToModule(selected.value, msg, Report(source));
    }

    /** self.routing_cache[action] = id */
    method CacheRoute(action: Capability, id: ModuleId)
      requires Valid()
      modifies this`routingCache, this`state
      ensures Valid() && state == old(state).(cache := old(state).cache[action := id])
      ensures routingCache == old(routingCache)[action := id]
    {
      routingCache := routingCache[action := id];
      state := state.(cache := routingCache);
    }

    /** _select_module; None when it raises, for an unknown id or for want of an online one. */
    method SelectModule(moduleIds: seq<ModuleId>) returns (selected: Option<ModuleId>)
      requires Valid()
      ensures (exists id <- moduleIds :: id !in modules) ==> selected == None
      ensures (forall id <- moduleIds :: id in modules) ==> selected == Select(state, moduleIds)
      ensures selected.Some? ==> selected.value in modules
    {
      if id :| id in moduleIds && id !in modules {
        return None;  // KeyError in the list comprehension
      }
      var onlineModules: seq<ModuleId> := [];
      for i := 0 to |moduleIds|
        invariant onlineModules == OnlineOnly(state, moduleIds[..i])
      {
        assert moduleIds[..i + 1] == moduleIds[..i] + [moduleIds[i]];
        if modules[moduleIds[i]].online {
          onlineModules := onlineModules + [moduleIds[i]];
        }
      }
      assert moduleIds[..|moduleIds|] == moduleIds;
      SelectOnlineOnly(state, moduleIds);
      selected := LeastLoadedOf(onlineModules);
    }

    /** The loop of _select_module over the online candidates. */
    method LeastLoadedOf(onlineModules: seq<ModuleId>) returns (selected: Option<ModuleId>)
      requires Valid()
      requires forall id <- onlineModules :: id in modules && ConnOf(state, id).online
      ensures selected == Select(state, onlineModules)
      ensures selected.Some? ==> selected.value in modules
    {
      selected := None;
      var minLoad: Option<int> := None;  // float('inf')
      for i := 0 to |onlineModules|
        invariant selected == Select(state, onlineModules[..i])
        invariant selected.Some? ==> selected.value in modules
        invariant minLoad == if selected.Some? then Some(ConnOf(state, selected.value).load) else None
      {
        var connection := modules[onlineModules[i]];
        assert onlineModules[..i + 1] == onlineModules[..i] + [onlineModules[i]];
        if minLoad.None? || connection.currentLoad < minLoad.value {
          minLoad := Some(connection.currentLoad);
          selected := Some(onlineModules[i]);
        }
      }
      assert onlineModules[..|onlineModules|] == onlineModules;
    }

    /** The metrics update of _handle_message. */
    method TouchModule(source: ModuleId, now: Time)
      requires Valid()
      modifies this`state, objects
      ensures Valid() && state == Touch(old(state), source, now)
      ensures source in modules ==>
        modules[source].requestCount == old(modules[source].requestCount) + 1 && modules[source].lastHeartbeat == now
    {
      if source in modules {
        var connection := modules[source];
        connection.requestCount := connection.requestCount + 1;
        connection.lastHeartbeat := now;
        state := Touch(state, source, now);
      }
    }

    /** What a valid message from source leads to, by its kind. */
    ghost predicate Answered(cache: map<Capability, ModuleId>, f: Flow, source: ModuleId, msg: Message, o: Oracle)
      reads this
    {
      if msg.kind in {Request, Response, Event, Error} then
        if HasTarget(msg) then
          if msg.target.value in modules then Forwards(f, msg.target.value, msg, Report(source))
          else Reports(f, source, ModuleNotFound)
        else if HasAction(msg) then ActionTaken(cache, f, source, msg, o.order)
        else TurnTaken(f, source, msg, modules.Keys, |modules|, epoch, o.yielded)
      else if msg.kind == Heartbeat && source in modules then
        Forwards(f, source, Message(false, HeartbeatAck, None, None, None, {}, None, None), Report(source))
      else if msg.kind == Query && source in modules then
        Forwards(f, source, Message(false, CapabilityResponse, None, None, None, {}, None, None), Report(source))
      else if msg.kind in {HeartbeatAck, CapabilityResponse, Unknown} then Reports(f, source, ProcessingError)
      else f == Done
    }

    /** The messages whose handling can raise. */
    predicate MayRaise(cache: map<Capability, ModuleId>, msg: Message, o: Oracle)
      reads this
    {
      if msg.kind in {Request, Response, Event, Error} then RoutingMayRaise(cache, msg, o)
      else msg.kind in {Query, HeartbeatAck, CapabilityResponse, Unknown}
    }

    /** _handle_message up to its first suspension; an exception becomes a PROCESSING_ERROR. */
    method HandleMessage(source: ModuleId, msg: Message, now: Time, o: Oracle) returns (f: Flow)
      requires Valid() && OracleOk(state, source, msg, o)
      modifies this`routingCache, this`capabilitiesIndex, this`state, objects
      ensures Valid() && Knows(f) && f != Raised
      ensures Out(state, SendOf(f)) == Receive(old(state), source, msg, now, o)
      ensures !msg.wellFormed ==> Reports(f, source, InvalidMessage)
      ensures msg.wellFormed ==>
        || Answered(old(routingCache), f, source, msg, o)
        || (MayRaise(old(routingCache), msg, o) && Reports(f, source, ProcessingError))
    {
      if msg.wellFormed {
        TouchModule(source, now);
        f := DispatchMessage(source, msg, o);
        if f.Raised? {
          f := SendErrorTo(source, ProcessingError);
        }
      } else {
        f := SendErrorTo(source, InvalidMessage);
      }
    }

    /** The dispatch of _handle_message on the message type. */
    method DispatchMessage(source: ModuleId, msg: Message, o: Oracle) returns (f: Flow)
      requires Valid() && OracleOk(state, source, msg, o)
      modifies this`routingCache, this`capabilitiesIndex, this`state, objects
      ensures Valid() && Knows(f)
      ensures Settled(old(state), source, f, state, Dispatch(old(state), source, msg, o))
      ensures if f == Raised then MayRaise(old(routingCache), msg, o)
              else Answered(old(routingCache), f, source, msg, o)
    {
      match msg.kind {
        case Heartbeat =>
          f := Done;
          if source in modules { f := SendToModule(source, ACK, Report(source)); }
        case Announce =>
          HandleCapabilityAnnounce(source, msg.caps);
          f := Done;
        case Query => f := SendToModule(source, CAPABILITIES, Report(source));
        case Stream => f := Done;
        case Request => f := RouteMessage(source, msg, o);
        case Response => f := RouteMessage(source, msg, o);
        case Event => f := RouteMessage(source, msg, o);
        case Error => f := RouteMessage(source, msg, o);
        case _ => f := Raised;  // MessageType(..) knows no such value
      }
    }

    // ---------- The registry ----------

    /** Registration in _handle_websocket_connection. */
    method Register(id: ModuleId, caps: set<Capability>, now: Time) returns (connection: ModuleConnection)
      requires Valid()
      modifies this
      ensures Valid() && objects == old(objects) + [connection] && fresh(connection)
      ensures state == Connecting(old(state), id, caps, now)
      ensures connection.Value() == Conn(id, caps, true, now, 0, 0, 0) && modules == old(modules)[id := connection]
      ensures IndexPlus(old(capabilitiesIndex), capabilitiesIndex, caps, id)
      ensures routingCache == old(routingCache)
    {
      connection := new ModuleConnection(id, caps, now, |objects|);
      AddObject(connection);
      InsertConnection(connection);
      AddToIndex(id, caps);
      state := state.(index := capabilitiesIndex);
    }

    /** A connection object exists from now on. */
    ghost method AddObject(connection: ModuleConnection)
      requires Valid() && connection.serial == |objects|
      modifies this`objects, this`state
      ensures Valid() && objects == old(objects) + [connection]
      ensures state == old(state).(conns := old(state).conns + [connection.Value()])
    {
      state := state.(conns := state.conns + [connection.Value()]);
      objects := objects + [connection];
    }

    /** self.modules[module_id] = connection */
    method InsertConnection(connection: ModuleConnection)
      requires Valid() && connection.serial < |objects| && objects[connection.serial] == connection
      modifies this`modules, this`epoch, this`state
      ensures Valid()
      ensures state ==
        old(state).(modules := old(state).modules[connection.moduleId := connection.serial], epoch := epoch)
      ensures modules == old(modules)[connection.moduleId := connection]
      ensures epoch == old(epoch) + (if connection.moduleId in old(modules) then 0 else 1)
    {
      if connection.moduleId !in modules { epoch := epoch + 1; }
      modules := modules[connection.moduleId := connection];
      state := state.(modules := state.modules[connection.moduleId := connection.serial], epoch := epoch);
    }

    /** for capability in caps: capabilities_index[capability].add(id) */
    method AddToIndex(id: ModuleId, caps: set<Capability>)
      modifies this`capabilitiesIndex
      ensures capabilitiesIndex == AddAll(old(capabilitiesIndex), caps, id)
      ensures IndexPlus(old(capabilitiesIndex), capabilitiesIndex, caps, id)
    {
      var todo := caps;
      while todo != {}
        invariant todo <= caps && IndexPlus(old(capabilitiesIndex), capabilitiesIndex, caps - todo, id)
        decreases |todo|
      {
        var c :| c in todo;
        assert caps - (todo - {c}) == (caps - todo) + {c};
        IndexPlusStep(old(capabilitiesIndex), capabilitiesIndex, caps - todo, c, id);
        capabilitiesIndex := capabilitiesIndex[c := Indexed(capabilitiesIndex, c) + {id}];
        todo := todo - {c};
      }
      assert caps - {} == caps;
      IndexPlusIs(old(capabilitiesIndex), capabilitiesIndex, caps, id);
    }

    /** for capability in caps: if it is in the index, discard id there */
    method DiscardFromIndex(id: ModuleId, caps: set<Capability>)
      modifies this`capabilitiesIndex
      ensures capabilitiesIndex == DiscardAll(old(capabilitiesIndex), caps, id)
      ensures IndexMinus(old(capabilitiesIndex), capabilitiesIndex, caps, id)
    {
      var todo := caps;
      while todo != {}
        invariant todo <= caps && IndexMinus(old(capabilitiesIndex), capabilitiesIndex, caps - todo, id)
        decreases |todo|
      {
        var c :| c in todo;
        assert caps - (todo - {c}) == (caps - todo) + {c};
        IndexMinusStep(old(capabilitiesIndex), capabilitiesIndex, caps - todo, c, id);
        if c in capabilitiesIndex {
          capabilitiesIndex := capabilitiesIndex[c := capabilitiesIndex[c] - {id}];
        }
        todo := todo - {c};
      }
      assert caps - {} == caps;
      IndexMinusIs(old(capabilitiesIndex), capabilitiesIndex, caps, id);
    }

    /** connection.capabilities = caps */
    method SetCapabilities(id: ModuleId, caps: set<Capability>)
      requires Valid() && id in modules
      modifies this`state, objects
      ensures Valid()
      ensures var k := old(state).modules[id];
        state == old(state).(conns := old(state).conns[k := old(state).conns[k].(caps := caps)])
    {
      var connection := modules[id];
      connection.capabilities := caps;
      ghost var k := state.modules[id];
      state := state.(conns := state.conns[k := state.conns[k].(caps := caps)]);
    }

    method HandleCapabilityAnnounce(id: ModuleId, caps: set<Capability>)
      requires Valid()
      modifies this`capabilitiesIndex, this`state, objects
      ensures Valid()
      ensures state == Announcing(old(state), id, caps)
      ensures id in modules ==>
        && modules[id].capabilities == caps
        && IndexMoved(old(capabilitiesIndex), capabilitiesIndex, old(modules[id].capabilities), caps, id)
    {
      if id in modules {
        var oldCaps := modules[id].capabilities;
        SetCapabilities(id, caps);
        DiscardFromIndex(id, oldCaps);
        ghost var mid := capabilitiesIndex;
        AddToIndex(id, caps);
        MinusThenPlus(old(capabilitiesIndex), mid, capabilitiesIndex, oldCaps, caps, id);
        state := state.(index := capabilitiesIndex);
      }
    }

    method UnregisterModule(id: ModuleId)
      requires Valid()
      modifies this`modules, this`capabilitiesIndex, this`routingCache, this`epoch, this`state
      ensures Valid()
      ensures state == Unregister(old(state), id)
      ensures modules == old(modules) - {id}
      ensures id in old(modules) ==>
        routingCache == map a | a in old(routingCache) && old(routingCache)[a] != id :: old(routingCache)[a]
      ensures id in old(modules) ==>
        IndexMinus(old(capabilitiesIndex), capabilitiesIndex, old(modules[id].capabilities), id)
    {
      if id in modules {
        DiscardFromIndex(id, modules[id].capabilities);
        modules := modules - {id};
        epoch := epoch + 1;
        routingCache := map a | a in routingCache && routingCache[a] != id :: routingCache[a];
        state := Unregister(state, id);
      }
    }

    /** The fields agree with state once the monitor's verdict on the modules in done is added to it. */
    ghost predicate PartlyMonitored(done: set<ModuleId>, now: Time)
      reads this, objects
    {
      && WF(state) && |objects| == |state.conns|
      && modules.Keys == state.modules.Keys
      && (forall id <- modules :: objects[state.modules[id]] == modules[id])
      && (forall k: nat :: k < |objects| ==> objects[k].serial == k)
      && (forall k: nat :: k < |objects| ==> objects[k].Value() == PartlyChecked(state, k, done, now, heartbeatTimeout))
    }

    /** One pass of _heartbeat_monitor over the modules in the given order. */
    method HeartbeatMonitor(order: seq<ModuleId>, now: Time)
      requires Valid() && Lists(order, modules.Keys)
      modifies this`state, objects
      ensures Valid()
      ensures state == Monitoring(old(state), now, heartbeatTimeout)
      ensures forall id <- modules ::
        modules[id].online == (old(modules[id].online) && now - modules[id].lastHeartbeat <= heartbeatTimeout)
    {
      assert forall id <- modules :: Registered(state, state.modules[id]);
      ghost var done := CheckAll(order, now);
      ConcludeMonitoring(done, now);
    }

    /** Its loop. */
    method CheckAll(order: seq<ModuleId>, now: Time) returns (ghost done: set<ModuleId>)
      requires Valid() && Lists(order, modules.Keys)
      modifies objects
      ensures PartlyMonitored(done, now) && modules.Keys <= done
    {
      done := {};
      for i := 0 to |order|
        invariant PartlyMonitored(done, now) && done == Members(order, i)
      {
        MembersStep(order, i);
        CheckHeartbeat(order[i], done, now);
        done := done + {order[i]};
      }
    }

    /** Every registered module has been looked at: the abstract state catches up with the objects. */
    ghost method ConcludeMonitoring(done: set<ModuleId>, now: Time)
      requires PartlyMonitored(done, now) && modules.Keys <= done
      requires capabilitiesIndex == state.index && routingCache == state.cache && epoch == state.epoch
      modifies this`state
      ensures Valid() && state == Monitoring(old(state), now, heartbeatTimeout)
    {
      AllMonitored(done, now);
      state := Monitoring(state, now, heartbeatTimeout);
    }

    /** When every registered module has been looked at, each object is as the pass leaves it. */
    lemma AllMonitored(done: set<ModuleId>, now: Time)
      requires PartlyMonitored(done, now) && modules.Keys <= done
      ensures WF(Monitoring(state, now, heartbeatTimeout))
      ensures forall k: nat :: k < |objects| ==> objects[k].Value() == Monitoring(state, now, heartbeatTimeout).conns[k]
    {
    }

    /** The body of the loop of _heartbeat_monitor. */
    method CheckHeartbeat(id: ModuleId, ghost done: set<ModuleId>, now: Time)
      requires id in modules && id !in done && PartlyMonitored(done, now)
      modifies objects
      ensures PartlyMonitored(done + {id}, now)
    {
      var connection := modules[id];
      if now - connection.lastHeartbeat > heartbeatTimeout {
        if connection.online {
          connection.online := false;
        }
      }
    }

    /** Offline and silent for over thirty minutes. */
    ghost predicate IsStale(connection: ModuleConnection, now: Time)
      reads connection
    {
      !connection.online && now - connection.lastHeartbeat > 1800.0
    }

    /** The body of the loop of _cleanup_stale_connections. */
    method RemoveIfStale(id: ModuleId, now: Time)
      requires Valid() && id in modules
      modifies this`modules, this`capabilitiesIndex, this`routingCache, this`epoch, this`state
      ensures Valid()
      ensures modules == if IsStale(old(modules)[id], now) then old(modules) - {id} else old(modules)
      ensures state == if Stale(old(state), id, now) then Unregister(old(state), id) else old(state)
    {
      var connection := modules[id];
      if !connection.online && now - connection.lastHeartbeat > STALE_AFTER {
        UnregisterModule(id);
      }
    }

    /** One pass of _cleanup_stale_connections over the ids in the given order. */
    method CleanupStaleConnections(order: seq<ModuleId>, now: Time)
      requires Valid() && Lists(order, modules.Keys)
      modifies this`modules, this`capabilitiesIndex, this`routingCache, this`epoch, this`state
      ensures Valid()
      ensures state == Sweeping(old(state), order, now)
    {
      for i := 0 to |order|
        invariant Valid() && state == Sweeping(old(state), order[..i], now)
        invariant forall j :: i <= j < |order| ==> order[j] in modules
      {
        assert order[..i + 1][..i] == order[..i];
        RemoveIfStale(order[i], now);
      }
      assert order[..|order|] == order;
    }
  }

  /** The list comprehension of _select_module. */
  function OnlineOnly(h: Hub, order: seq<ModuleId>): seq<ModuleId>
    requires WF(h)
    requires forall id <- order :: id in h.modules
  {
    if order == [] then []
    else
      OnlineOnly(h, order[..|order| - 1]) +
      if ConnOf(h, order[|order| - 1]).online then [order[|order| - 1]] else []
  }

  lemma {:induction false} OnlineOnlyMembers(h: Hub, order: seq<ModuleId>)
    requires WF(h)
    requires forall id <- order :: id in h.modules
    ensures forall id <- OnlineOnly(h, order) :: id in h.modules && ConnOf(h, id).online
  {
    if order != [] { OnlineOnlyMembers(h, order[..|order| - 1]); }
  }

  /** One more candidate. */
  lemma SelectPush(h: Hub, order: seq<ModuleId>, id: ModuleId)
    requires WF(h)
    requires id in h.modules && forall x <- order :: x in h.modules
    ensures var best := Select(h, order);
      Select(h, order + [id]) ==
        if !ConnOf(h, id).online then best
        else if best.Some? && best.value in h.modules && ConnOf(h, best.value).load <= ConnOf(h, id).load then best
        else Some(id)
  {
  }

  /** Filtering first does not change which module is found. */
  lemma {:induction false} SelectOnlineOnly(h: Hub, order: seq<ModuleId>)
    requires WF(h)
    requires forall id <- order :: id in h.modules
    ensures forall id <- OnlineOnly(h, order) :: id in h.modules && ConnOf(h, id).online
    ensures Select(h, OnlineOnly(h, order)) == Select(h, order)
  {
    OnlineOnlyMembers(h, order);
    if order != [] {
      var front, last := order[..|order| - 1], order[|order| - 1];
      assert order == front + [last];
      SelectOnlineOnly(h, front);
      SelectPush(h, front, last);
      if ConnOf(h, last).online {
        SelectPush(h, OnlineOnly(h, front), last);
      } else {
        assert OnlineOnly(h, order) == OnlineOnly(h, front);
      }
    }
  }
}
