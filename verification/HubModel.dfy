/**
 The registry and router of the MCP Hub as functions on values.

 Every function here is one stretch of hub code between two points where the
 event loop may switch tasks.  A coroutine stopped at `await connection.send(..)`
 is a `Send` value; what it does when it wakes up is its `after` field.
 Connection objects are named by their creation number, so that an object which
 has been replaced under its id, while a send on it is still pending, stays visible.
 */
module HubModel {
  import opened Prelude

  type ModuleId = string
  /** Actions and capabilities are the same strings. */
  type Capability = string
  type Index = map<Capability, set<ModuleId>>
  /** Correlation ids; the original draws them with uuid4. */
  type CorrId = nat

  datatype Kind =
    | Request | Response | Event | Error
    | Heartbeat | Announce | Query | Stream
    | HeartbeatAck | CapabilityResponse
    | Unknown  // a type string that is in no enumeration

  datatype ErrorCode = InvalidMessage | ModuleNotFound | NoCapability | ProcessingError

  datatype Message = Message(
    wellFormed: bool,  // has both an "id" and a "type" field
    kind: Kind,
    source: Option<ModuleId>,
    target: Option<ModuleId>,
    action: Option<Capability>,
    caps: set<Capability>,
    corr: Option<CorrId>,
    code: Option<ErrorCode>)  // only on errors made by the hub itself

  function HubError(code: ErrorCode): Message {
    Message(false, Error, None, None, None, {}, None, Some(code))
  }

  const ACK := Message(false, HeartbeatAck, None, None, None, {}, None, None)
  const CAPABILITIES := Message(false, CapabilityResponse, None, None, None, {}, None, None)

  /** The mutable fields of a ModuleConnection. */
  datatype Conn = Conn(
    id: ModuleId,
    caps: set<Capability>,
    online: bool,
    lastHeartbeat: Time,
    requests: nat,
    errors: nat,
    load: int)

  datatype Hub = Hub(
    conns: seq<Conn>,                     // every connection object ever made
    modules: map<ModuleId, nat>,
    index: Index,
    cache: map<Capability, ModuleId>,
    epoch: nat)                           // how often a key was added to or removed from modules

  const EMPTY := Hub([], map[], map[], map[], 0)

  /** What a suspended send does when it is resumed. */
  datatype After =
    | Report(source: ModuleId)  // a failure becomes PROCESSING_ERROR to source
    | Swallow                   // inside _send_error: a failure is only logged
    | Broadcast(source: ModuleId, todo: set<ModuleId>, size: nat, epoch: nat)

  datatype Send = Send(conn: nat, msg: Message, after: After)

  /** The result of running hub code up to its next suspension. */
  datatype Out = Out(hub: Hub, send: Option<Send>)

  /** What the dict iterator of the broadcast loop yields next. */
  datatype Yield = Stop | Fail | Next(id: ModuleId, dropped: ModuleId)

  /** Choices the hub code leaves to the runtime: the order of list(set), and the dict iterator. */
  datatype Oracle = Oracle(order: seq<ModuleId>, yielded: Yield)

  // ---------- Well-formedness and the basic reads ----------

  ghost predicate WF(h: Hub) {
    forall id <- h.modules :: h.modules[id] < |h.conns| && h.conns[h.modules[id]].id == id
  }

  function ConnOf(h: Hub, id: ModuleId): Conn
    requires WF(h) && id in h.modules
  {
    h.conns[h.modules[id]]
  }

  /** Object k is the one its id currently stands for. */
  predicate Registered(h: Hub, k: nat)
    requires k < |h.conns|
  {
    h.conns[k].id in h.modules && h.modules[h.conns[k].id] == k
  }

  function Indexed(index: Index, c: Capability): set<ModuleId> {
    if c in index then index[c] else {}
  }

  // ---------- Sending ----------

  /** _send_to_module up to its await. */
  function BeginSend(h: Hub, id: ModuleId, msg: Message, after: After): Out
    requires WF(h) && id in h.modules
  {
    var k := h.modules[id];
    Out(h.(conns := h.conns[k := h.conns[k].(load := h.conns[k].load + 1)]), Some(Send(k, msg, after)))
  }

  /** _send_error: an unknown id raises inside it and the exception is swallowed. */
  function SendError(h: Hub, id: ModuleId, code: ErrorCode): Out
    requires WF(h)
  {
    if id in h.modules then BeginSend(h, id, HubError(code), Swallow) else Out(h, None)
  }

  // ---------- Routing ----------

  /** The first module of least load among the online ones, as the loop of _select_module finds it. */
  function Select(h: Hub, order: seq<ModuleId>): Option<ModuleId>
    requires WF(h)
    requires forall id <- order :: id in h.modules
  {
    if order == [] then None
    else
      var best := Select(h, order[..|order| - 1]);
      var id := order[|order| - 1];
      if !ConnOf(h, id).online then best
      else if best.Some? && best.value in h.modules && ConnOf(h, best.value).load <= ConnOf(h, id).load then best
      else Some(id)
  }

  /** order lists the set s, each element once. */
  ghost predicate Lists(order: seq<ModuleId>, s: set<ModuleId>) {
    && (forall id :: id in order <==> id in s)
    && (forall i, j :: 0 <= i < j < |order| ==> order[i] != order[j])
  }

  /** One turn of the broadcast loop: size and epoch were read when the loop began. */
  ghost predicate YieldOk(h: Hub, source: ModuleId, todo: set<ModuleId>, size: nat, epoch: nat, y: Yield) {
    if |h.modules| != size then y == Fail  // "dictionary changed size during iteration"
    else if h.epoch == epoch then
      if todo - {source} == {} then y == Stop
      else y.Next? && y.id == y.dropped && y.id in todo && y.id != source
    else  // the size is the same after removals and additions: the iterator may do any of these
      y.Next? ==> y.dropped in todo && y.id in h.modules && y.id != source
  }

  function BroadcastTurn(
      h: Hub, source: ModuleId, msg: Message, todo: set<ModuleId>, size: nat, epoch: nat, y: Yield): Out
    requires WF(h)
  {
    match y
    case Stop => Out(h, None)
    case Fail => SendError(h, source, ProcessingError)
    case Next(id, dropped) =>
      if id in h.modules then
        BeginSend(h, id, msg, Broadcast(source, todo - {dropped}, size, epoch))
      else SendError(h, source, ProcessingError)
  }

  /** _route_message, with _determine_routing, up to its first suspension. */
  function Route(h: Hub, source: ModuleId, msg: Message, o: Oracle): Out
    requires WF(h)
  {
    if Truthy(msg.target) then
      if msg.target.value in h.modules then BeginSend(h, msg.target.value, msg, Report(source))
      else SendError(h, source, ModuleNotFound)
    else if Truthy(msg.action) then RouteByCapability(h, source, msg, o.order)
    else BroadcastTurn(h, source, msg, h.modules.Keys, |h.modules|, h.epoch, o.yielded)
  }

  function RouteByCapability(h: Hub, source: ModuleId, msg: Message, order: seq<ModuleId>): Out
    requires WF(h) && msg.action.Some?
  {
    var action := msg.action.value;
    if action in h.cache && h.cache[action] in h.modules then
      BeginSend(h, h.cache[action], msg, Report(source))
    else if Indexed(h.index, action) == {} then
      SendError(h, source, NoCapability)
    else if exists id <- order :: id !in h.modules then
      SendError(h, source, ProcessingError)  // KeyError in _select_module
    else
      match Select(h, order)
      case None => SendError(h, source, ProcessingError)  // "No online modules available"
      case Some(id) =>
        if id in h.modules then
          BeginSend(h.(cache := h.cache[action := id]), id, msg, Report(source))
        else Out(h, None)
  }

  /** The oracle's answers are ones the runtime could give. */
  ghost predicate OracleOk(h: Hub, source: ModuleId, msg: Message, o: Oracle) {
    if Truthy(msg.target) then true
    else if Truthy(msg.action) then Lists(o.order, Indexed(h.index, msg.action.value))
    else YieldOk(h, source, h.modules.Keys, |h.modules|, h.epoch, o.yielded)
  }

  /** The metrics update at the head of _handle_message. */
  function Touch(h: Hub, source: ModuleId, now: Time): Hub
    requires WF(h)
  {
    if source in h.modules then
      var k := h.modules[source];
      h.(conns := h.conns[k := h.conns[k].(requests := h.conns[k].requests + 1, lastHeartbeat := now)])
    else h
  }

  predicate Routable(kind: Kind) {
    kind in {Request, Response, Event, Error}
  }

  /** The dispatch on the message type in _handle_message. */
  function Dispatch(h: Hub, source: ModuleId, msg: Message, o: Oracle): Out
    requires WF(h)
  {
    match msg.kind
    case Heartbeat =>
      if source in h.modules then BeginSend(h, source, ACK, Report(source)) else Out(h, None)
    case Announce => Out(Announcing(h, source, msg.caps), None)
    case Query =>
      if source in h.modules then BeginSend(h, source, CAPABILITIES, Report(source)) else Out(h, None)
    case Stream => Out(h, None)
    case HeartbeatAck => SendError(h, source, ProcessingError)
    case CapabilityResponse => SendError(h, source, ProcessingError)
    case Unknown => SendError(h, source, ProcessingError)
    case _ => Route(h, source, msg, o)
  }

  /** _handle_message up to its first suspension. */
  function Receive(h: Hub, source: ModuleId, msg: Message, now: Time, o: Oracle): Out
    requires WF(h)
  {
    if !msg.wellFormed then SendError(h, source, InvalidMessage)
    else Dispatch(Touch(h, source, now), source, msg, o)
  }

  /** The hub after the except and finally blocks of a resumed send. */
  function Released(h: Hub, s: Send, ok: bool): Hub
    requires s.conn < |h.conns|
  {
    var c := h.conns[s.conn];
    h.(conns := h.conns[s.conn := c.(load := c.load - 1, errors := c.errors + (if ok then 0 else 1))])
  }

  /** A pending send wakes up: its finally block runs, and its caller goes on to the next suspension. */
  function Finish(h: Hub, s: Send, ok: bool, y: Yield): Out
    requires WF(h) && s.conn < |h.conns|
  {
    var h1 := Released(h, s, ok);
    match s.after
    case Swallow => Out(h1, None)
    case Report(source) => if ok then Out(h1, None) else SendError(h1, source, ProcessingError)
    case Broadcast(source, todo, size, epoch) =>
      if ok then BroadcastTurn(h1, source, s.msg, todo, size, epoch, y)
      else SendError(h1, source, ProcessingError)
  }

  ghost predicate FinishOk(h: Hub, s: Send, ok: bool, y: Yield) {
    ok && s.after.Broadcast? ==> YieldOk(h, s.after.source, s.after.todo, s.after.size, s.after.epoch, y)
  }

  // ---------- The registry ----------

  /** The index after id is added under each capability in caps. */
  function AddAll(index: Index, caps: set<Capability>, id: ModuleId): Index {
    map c | c in index.Keys + caps :: Indexed(index, c) + (if c in caps then {id} else {})
  }

  /** The index after id is discarded from each existing entry in caps. */
  function DiscardAll(index: Index, caps: set<Capability>, id: ModuleId): Index {
    map c | c in index :: index[c] - (if c in caps then {id} else {})
  }

  /** Registration of a new connection, under an id that may be in use. */
  function Connecting(h: Hub, id: ModuleId, caps: set<Capability>, now: Time): Hub {
    Hub(h.conns + [Conn(id, caps, true, now, 0, 0, 0)],
        h.modules[id := |h.conns|],
        AddAll(h.index, caps, id),
        h.cache,
        h.epoch + (if id in h.modules then 0 else 1))
  }

  function Announcing(h: Hub, id: ModuleId, caps: set<Capability>): Hub
    requires WF(h)
  {
    if id !in h.modules then h
    else
      var k := h.modules[id];
      h.(conns := h.conns[k := h.conns[k].(caps := caps)],
         index := AddAll(DiscardAll(h.index, h.conns[k].caps, id), caps, id))
  }

  function Unregister(h: Hub, id: ModuleId): Hub
    requires WF(h)
  {
    if id !in h.modules then h
    else
      Hub(h.conns,
          h.modules - {id},
          DiscardAll(h.index, ConnOf(h, id).caps, id),
          map a | a in h.cache && h.cache[a] != id :: h.cache[a],
          h.epoch + 1)
  }

  /** One pass of _heartbeat_monitor. */
  function Monitoring(h: Hub, now: Time, timeout: Time): Hub {
    h.(conns := seq(|h.conns|, k requires 0 <= k < |h.conns| => Checked(h, k, now, timeout)))
  }

  function Checked(h: Hub, k: nat, now: Time, timeout: Time): Conn
    requires k < |h.conns|
  {
    if Registered(h, k) && now - h.conns[k].lastHeartbeat > timeout then h.conns[k].(online := false) else h.conns[k]
  }

  const STALE_AFTER: Time := 1800.0

  predicate Stale(h: Hub, id: ModuleId, now: Time)
    requires WF(h)
  {
    id in h.modules && !ConnOf(h, id).online && now - ConnOf(h, id).lastHeartbeat > STALE_AFTER
  }

  /** One pass of _cleanup_stale_connections over the ids in the given order. */
  function Sweeping(h: Hub, order: seq<ModuleId>, now: Time): (r: Hub)
    requires WF(h)
    ensures WF(r) && r.conns == h.conns
  {
    if order == [] then h
    else
      var h1 := Sweeping(h, order[..|order| - 1], now);
      var id := order[|order| - 1];
      if Stale(h1, id, now) then Unregister(h1, id) else h1
  }
}
