/**
 The hub together with its modules: messages on their way to the hub, sends the hub
 has pending, and messages an SDK endpoint has received but not yet handled.
 Steps interleave freely, and messages may overtake one another.
 */
module Network {
  import opened Prelude
  import opened HubModel
  import opened HubEffects

  /** A message and the module at the other end of the socket. */
  datatype Envelope = Envelope(peer: ModuleId, msg: Message)

  /** A request issued through call_module: who made it, and whether it names a target or an action. */
  datatype Issue = Issue(owner: ModuleId, addressed: bool)

  datatype Net = Net(
    hub: Hub,
    sends: seq<Send>,
    inbox: seq<Envelope>,      // sent by a module, not yet read by the hub
    mail: seq<Envelope>,       // delivered to a module, not yet handled
    issued: map<CorrId, Issue>,  // history: every correlated request
    delivered: seq<Envelope>)    // history: everything ever delivered to a module

  const START := Net(EMPTY, [], [], [], map[], [])

  /** How an endpoint's attempt to serve a message ends. */
  datatype Outcome = Replied | Errored | Lost

  datatype Event =
    | Connect(id: ModuleId, caps: set<Capability>, now: Time)
    | Drop(id: ModuleId)                      // the finally block of a connection handler
    | Monitor(now: Time, timeout: Time)
    | Sweep(order: seq<ModuleId>, now: Time)
    | Emit(id: ModuleId, msg: Message)        // application code uses the socket
    | Arrive(i: nat, now: Time, o: Oracle)    // the hub reads inbox[i]
    | Wake(j: nat, ok: bool, y: Yield)        // sends[j] completes or fails
    | Serve(k: nat, result: Outcome)          // an endpoint handles mail[k]

  predicate Addressed(m: Message) {
    Truthy(m.target) || Truthy(m.action)
  }

  // ---------- The SDK endpoint ----------

  /** What Module._handle_message puts on the socket. */
  function EndpointReply(self: ModuleId, m: Message, result: Outcome): Option<Message> {
    if result == Lost then None
    else
      match m.kind
      case Request =>
        if result == Replied then Some(Message(true, Response, Some(self), m.source, m.action, {}, m.corr, None))
        else Some(Message(true, Error, Some(self), m.source, None, {}, m.corr, None))
      case Heartbeat => Some(ACK)
      case Query => Some(CAPABILITIES)
      case _ => None
  }

  // ---------- Steps ----------

  ghost predicate Ok(s: Net) {
    && WF(s.hub)
    && (forall x <- s.sends :: x.conn < |s.hub.conns|)
  }

  ghost predicate Enabled(s: Net, e: Event)
    requires Ok(s)
  {
    match e
    case Connect(id, _, _) => id != ""  // _authenticate_module
    case Sweep(order, _) => Lists(order, s.hub.modules.Keys)
    case Arrive(i, now, o) => i < |s.inbox| && OracleOk(s.hub, s.inbox[i].peer, s.inbox[i].msg, o)
    case Wake(j, ok, y) => j < |s.sends| && FinishOk(s.hub, s.sends[j], ok, y)
    case Serve(k, _) => k < |s.mail|
    case _ => true
  }

  function Apply(s: Net, e: Event): Net
    requires Ok(s) && Enabled(s, e)
  {
    match e
    case Connect(id, caps, now) => s.(hub := Connecting(s.hub, id, caps, now))
    case Drop(id) => s.(hub := Unregister(s.hub, id))
    case Monitor(now, timeout) => s.(hub := Monitoring(s.hub, now, timeout))
    case Sweep(order, now) => s.(hub := Sweeping(s.hub, order, now))
    case Emit(id, msg) => Emitted(s, id, msg)
    case Arrive(i, now, o) => Arrived(s, i, now, o)
    case Wake(j, ok, y) => Woken(s, j, ok, y)
    case Serve(k, result) => Served(s, k, result)
  }

  function Emitted(s: Net, id: ModuleId, msg: Message): Net {
    s.(inbox := s.inbox + [Envelope(id, msg)],
       issued := if msg.corr.Some? then s.issued[msg.corr.value := Issue(id, Addressed(msg))] else s.issued)
  }

  function Arrived(s: Net, i: nat, now: Time, o: Oracle): Net
    requires WF(s.hub) && i < |s.inbox|
  {
    var out := Receive(s.hub, s.inbox[i].peer, s.inbox[i].msg, now, o);
    s.(hub := out.hub, inbox := RemoveAt(s.inbox, i), sends := Push(s.sends, out.send))
  }

  function Woken(s: Net, j: nat, ok: bool, y: Yield): Net
    requires Ok(s) && j < |s.sends|
  {
    var out := Finish(s.hub, s.sends[j], ok, y);
    var got := if ok then [Letter(s, j)] else [];
    s.(hub := out.hub, sends := Push(RemoveAt(s.sends, j), out.send),
       mail := s.mail + got, delivered := s.delivered + got)
  }

  /** The envelope that a successful send[j] delivers. */
  function Letter(s: Net, j: nat): Envelope
    requires Ok(s) && j < |s.sends|
  {
    Envelope(s.hub.conns[s.sends[j].conn].id, s.sends[j].msg)
  }

  function Served(s: Net, k: nat, result: Outcome): Net
    requires k < |s.mail|
  {
    var reply := EndpointReply(s.mail[k].peer, s.mail[k].msg, result);
    s.(mail := RemoveAt(s.mail, k),
       inbox := if reply.Some? then s.inbox + [Envelope(s.mail[k].peer, reply.value)] else s.inbox)
  }

  /** Objects are never removed and keep their ids. */
  ghost predicate Grows(h: Hub, g: Hub) {
    && |h.conns| <= |g.conns|
    && forall k: nat :: k < |h.conns| ==> g.conns[k].id == h.conns[k].id
  }

  lemma ArrivedOk(s: Net, i: nat, now: Time, o: Oracle)
    requires Ok(s) && Enabled(s, Arrive(i, now, o))
    ensures Ok(Arrived(s, i, now, o)) && Grows(s.hub, Arrived(s, i, now, o).hub)
  {
    var h, source, msg := s.hub, s.inbox[i].peer, s.inbox[i].msg;
    if Announces(msg) {
      TouchTame(h, source, now);
      assert Receive(h, source, msg, now, o) == Out(Announcing(Touch(h, source, now), source, msg.caps), None);
    } else {
      ReceiveTame(h, source, msg, now, o);
    }
  }

  lemma WokenOk(s: Net, j: nat, ok: bool, y: Yield)
    requires Ok(s) && Enabled(s, Wake(j, ok, y))
    ensures Ok(Woken(s, j, ok, y)) && Grows(s.hub, Woken(s, j, ok, y).hub)
  {
    FinishTame(s.hub, s.sends[j], ok, y);
    ReplaceMembers(s.sends, j, Finish(s.hub, s.sends[j], ok, y).send);
  }

  lemma ApplyOk(s: Net, e: Event)
    requires Ok(s) && Enabled(s, e)
    ensures Ok(Apply(s, e)) && Grows(s.hub, Apply(s, e).hub)
  {
    match e
    case Arrive(i, now, o) => ArrivedOk(s, i, now, o);
    case Wake(j, ok, y) => WokenOk(s, j, ok, y);
    case _ =>
  }

  /**
   Where messages go in one step: the application and a serving endpoint put one into the inbox,
   the hub takes one out, and a send that succeeds, and no other step, delivers one, to the
   module of the object it was started on.
   */
  lemma MessagesMove(s: Net, e: Event)
    requires Ok(s) && Enabled(s, e)
    ensures var t := Apply(s, e);
      && (if e.Wake? && e.ok then
            var x := s.sends[e.j];
            var letter := Envelope(s.hub.conns[x.conn].id, x.msg);
            t.delivered == s.delivered + [letter] && t.mail == s.mail + [letter]
          else t.delivered == s.delivered && t.mail == (if e.Serve? then RemoveAt(s.mail, e.k) else s.mail))
      && (e.Emit? ==> t.inbox == s.inbox + [Envelope(e.id, e.msg)])
      && (e.Arrive? ==> t.inbox == RemoveAt(s.inbox, e.i))
      && (e.Serve? ==>
            var letter := s.mail[e.k];
            if letter.msg.kind == Request && e.result != Lost then
              |t.inbox| == |s.inbox| + 1 && t.inbox[..|s.inbox|] == s.inbox && t.inbox[|s.inbox|].peer == letter.peer
            else s.inbox <= t.inbox)
      && (e.Connect? || e.Drop? || e.Monitor? || e.Sweep? || e.Wake? ==> t.inbox == s.inbox)
      && (!e.Arrive? && !e.Wake? ==> t.sends == s.sends)
  {
  }

  // ---------- Runs ----------

  /** es can happen from s, in this order. */
  ghost predicate Run(s: Net, es: seq<Event>)
    requires Ok(s)
    decreases |es|
  {
    es == [] || (Enabled(s, es[0]) && (ApplyOk(s, es[0]); Run(Apply(s, es[0]), es[1..])))
  }

  ghost function End(s: Net, es: seq<Event>): (r: Net)
    requires Ok(s) && Run(s, es)
    ensures Ok(r)
    decreases |es|
  {
    if es == [] then s else
      ApplyOk(s, es[0]);
      End(Apply(s, es[0]), es[1..])
  }

  lemma RunOne(s: Net, e: Event)
    requires Ok(s) && Enabled(s, e)
    ensures Run(s, [e]) && End(s, [e]) == Apply(s, e)
  {
    ApplyOk(s, e);
    assert [e][1..] == [];
  }

  lemma {:induction false} RunConcat(s: Net, es: seq<Event>, fs: seq<Event>)
    requires Ok(s) && Run(s, es) && Run(End(s, es), fs)
    ensures Run(s, es + fs) && End(s, es + fs) == End(End(s, es), fs)
    decreases |es|
  {
    if es == [] {
      assert es + fs == fs;
    } else {
      assert (es + fs)[0] == es[0] && (es + fs)[1..] == es[1..] + fs;
      ApplyOk(s, es[0]);
      RunConcat(Apply(s, es[0]), es[1..], fs);
    }
  }
}
