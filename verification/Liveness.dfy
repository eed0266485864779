/**
 Heartbeat supervision over timed runs.  Whether a connection is still online is a
 fact about its history: it is, exactly when no monitor pass ever found its last valid
 message, or its connect, further back than the timeout.
 */
module Liveness {
  import opened Prelude
  import opened HubModel
  import opened HubEffects
  import opened Network

  /** e is the hub reading a valid message that came over id's socket. */
  predicate Heard(s: Net, e: Event, id: ModuleId) {
    e.Arrive? && e.i < |s.inbox| && s.inbox[e.i].peer == id && s.inbox[e.i].msg.wellFormed
  }

  function HeardAt(s: Net, e: Event, id: ModuleId, last: Time): Time {
    if Heard(s, e, id) then e.now else last
  }

  /** id neither connects again nor loses its socket. */
  predicate SocketStays(es: seq<Event>, id: ModuleId) {
    forall e <- es :: !(e.Connect? && e.id == id) && !(e.Drop? && e.id == id)
  }

  /** Some monitor pass of es comes more than its timeout after the last sign of life. */
  ghost predicate SilentAtMonitor(s: Net, es: seq<Event>, id: ModuleId, last: Time)
    requires Ok(s) && Run(s, es)
    decreases |es|
  {
    es != [] &&
    ((es[0].Monitor? && es[0].now - last > es[0].timeout)
     || (ApplyOk(s, es[0]); SilentAtMonitor(Apply(s, es[0]), es[1..], id, HeardAt(s, es[0], id, last))))
  }

  ghost function LastHeard(s: Net, es: seq<Event>, id: ModuleId, last: Time): Time
    requires Ok(s) && Run(s, es)
    decreases |es|
  {
    if es == [] then last
    else
      ApplyOk(s, es[0]);
      LastHeard(Apply(s, es[0]), es[1..], id, HeardAt(s, es[0], id, last))
  }

  /** The connection object of id is online and was last heard of at `last`. */
  ghost predicate Alive(s: Net, id: ModuleId, k: nat, last: Time)
    requires Ok(s)
  {
    && id in s.hub.modules && s.hub.modules[id] == k
    && s.hub.conns[k].online && s.hub.conns[k].lastHeartbeat == last
  }

  /** The object k of id has been marked offline, and possibly removed. */
  ghost predicate Dead(s: Net, id: ModuleId, k: nat)
    requires Ok(s)
  {
    && k < |s.hub.conns| && s.hub.conns[k].id == id && !s.hub.conns[k].online
    && (id in s.hub.modules ==> s.hub.modules[id] == k)
  }

  // ---------- What each kind of step does to one connection object ----------

  ghost predicate SameBeats(h: Hub, g: Hub) {
    |g.conns| == |h.conns| && forall k: nat :: k < |h.conns| ==> g.conns[k].lastHeartbeat == h.conns[k].lastHeartbeat
  }

  lemma RouteByCapabilityBeats(h: Hub, source: ModuleId, msg: Message, order: seq<ModuleId>)
    requires WF(h) && msg.action.Some?
    ensures SameBeats(h, RouteByCapability(h, source, msg, order).hub)
  {
  }

  lemma DispatchBeats(h: Hub, source: ModuleId, msg: Message, o: Oracle)
    requires WF(h)
    ensures SameBeats(h, Dispatch(h, source, msg, o).hub)
  {
    if Routable(msg.kind) && !Truthy(msg.target) && Truthy(msg.action) {
      RouteByCapabilityBeats(h, source, msg, o.order);
    }
  }

  lemma FinishBeats(h: Hub, x: Send, ok: bool, y: Yield)
    requires WF(h) && x.conn < |h.conns|
    ensures SameBeats(h, Finish(h, x, ok, y).hub)
  {
  }

  /** Handling a message changes no status and no registration. */
  lemma ArrivedRegistry(s: Net, i: nat, now: Time, o: Oracle, k: nat)
    requires Ok(s) && Enabled(s, Arrive(i, now, o)) && k < |s.hub.conns|
    ensures var t := Arrived(s, i, now, o);
      && t.hub.modules == s.hub.modules && |t.hub.conns| == |s.hub.conns|
      && t.hub.conns[k].id == s.hub.conns[k].id
      && t.hub.conns[k].online == s.hub.conns[k].online
  {
    var h, source, msg := s.hub, s.inbox[i].peer, s.inbox[i].msg;
    if Announces(msg) {
      TouchTame(h, source, now);
      assert Receive(h, source, msg, now, o) == Out(Announcing(Touch(h, source, now), source, msg.caps), None);
    } else {
      ReceiveTame(h, source, msg, now, o);
      var out := Receive(h, source, msg, now, o);
      assert TameConn(h.conns[k], out.hub.conns[k], out.send.Some? && out.send.value.conn == k);
    }
  }

  /** Of the last heartbeats it changes only the sender's. */
  lemma ArrivedConn(s: Net, i: nat, now: Time, o: Oracle, k: nat)
    requires Ok(s) && Enabled(s, Arrive(i, now, o)) && k < |s.hub.conns|
    ensures var t := Arrived(s, i, now, o);
      && t.hub.modules == s.hub.modules && |t.hub.conns| == |s.hub.conns|
      && t.hub.conns[k].id == s.hub.conns[k].id
      && t.hub.conns[k].online == s.hub.conns[k].online
      && t.hub.conns[k].lastHeartbeat ==
           if Registered(s.hub, k) then HeardAt(s, Arrive(i, now, o), s.hub.conns[k].id, s.hub.conns[k].lastHeartbeat)
           else s.hub.conns[k].lastHeartbeat
  {
    ArrivedRegistry(s, i, now, o, k);
    var h, source, msg := s.hub, s.inbox[i].peer, s.inbox[i].msg;
    if msg.wellFormed {
      var h1 := Touch(h, source, now);
      TouchTame(h, source, now);
      DispatchBeats(h1, source, msg, o);
    }
  }

  lemma WokenConn(s: Net, j: nat, ok: bool, y: Yield, k: nat)
    requires Ok(s) && Enabled(s, Wake(j, ok, y)) && k < |s.hub.conns|
    ensures var t := Woken(s, j, ok, y);
      && t.hub.modules == s.hub.modules && |t.hub.conns| == |s.hub.conns|
      && t.hub.conns[k].id == s.hub.conns[k].id
      && t.hub.conns[k].online == s.hub.conns[k].online
      && t.hub.conns[k].lastHeartbeat == s.hub.conns[k].lastHeartbeat
  {
    FinishBeats(s.hub, s.sends[j], ok, y);
    FinishTame(s.hub, s.sends[j], ok, y);
    var out := Finish(s.hub, s.sends[j], ok, y);
    assert TameConn(Released(s.hub, s.sends[j], ok).conns[k], out.hub.conns[k], out.send.Some? &&
        out.send.value.conn == k);
  }

  /** Cleanup removes a module exactly when it is offline and silent for over thirty minutes. */
  lemma {:induction false} SweepRemovesIff(h: Hub, order: seq<ModuleId>, now: Time, id: ModuleId)
    requires WF(h) && forall i, j :: 0 <= i < j < |order| ==> order[i] != order[j]
    ensures var g := Sweeping(h, order, now);
      && (id in g.modules <==>
            && id in h.modules
            && !(id in order && !ConnOf(h, id).online && now - ConnOf(h, id).lastHeartbeat > 1800.0))
      && (id in g.modules ==> g.modules[id] == h.modules[id])
  {
    if order != [] {
      var front, last := order[..|order| - 1], order[|order| - 1];
      assert order == front + [last];
      SweepRemovesIff(h, front, now, id);
      SweepRemovesIff(h, front, now, last);
    }
  }

  // ---------- Runs ----------

  lemma StepAlive(s: Net, e: Event, id: ModuleId, k: nat, last: Time)
    requires Ok(s) && Enabled(s, e) && SocketStays([e], id) && Alive(s, id, k, last)
    ensures Ok(Apply(s, e))
    ensures if e.Monitor? && e.now - last > e.timeout then Dead(Apply(s, e), id, k)
            else Alive(Apply(s, e), id, k, HeardAt(s, e, id, last))
  {
    ApplyOk(s, e);
    match e
    case Connect(other, _, _) => assert e in [e];
    case Drop(other) => assert e in [e];
    case Sweep(order, now) => SweepRemovesIff(s.hub, order, now, id);
    case Arrive(i, now, o) => ArrivedConn(s, i, now, o, k);
    case Wake(j, ok, y) => WokenConn(s, j, ok, y, k);
    case _ =>
  }

  /** The object a module's id stands for, once offline, is neither replaced nor revived. */
  lemma StepDead(s: Net, e: Event, id: ModuleId, k: nat)
    requires Ok(s) && Enabled(s, e) && Dead(s, id, k) && SocketStays([e], id)
    ensures Ok(Apply(s, e)) && Dead(Apply(s, e), id, k)
  {
    ApplyOk(s, e);
    match e
    case Connect(other, _, _) => assert e in [e];
    case Sweep(order, now) => SweepRemovesIff(s.hub, order, now, id);
    case Arrive(i, now, o) => ArrivedConn(s, i, now, o, k);
    case Wake(j, ok, y) => WokenConn(s, j, ok, y, k);
    case _ =>
  }

  lemma {:induction false} RunDead(s: Net, es: seq<Event>, id: ModuleId, k: nat)
    requires Ok(s) && Run(s, es) && Dead(s, id, k) && SocketStays(es, id)
    ensures Dead(End(s, es), id, k)
    decreases |es|
  {
    if es != [] {
      StepDead(s, es[0], id, k);
      RunDead(Apply(s, es[0]), es[1..], id, k);
    }
  }

  lemma {:induction false} RunAliveIff(s: Net, es: seq<Event>, id: ModuleId, k: nat, last: Time)
    requires Ok(s) && Run(s, es) && SocketStays(es, id) && Alive(s, id, k, last)
    ensures !SilentAtMonitor(s, es, id, last) ==> Alive(End(s, es), id, k, LastHeard(s, es, id, last))
    ensures SilentAtMonitor(s, es, id, last) ==> Dead(End(s, es), id, k)
    decreases |es|
  {
    if es != [] {
      StepAlive(s, es[0], id, k, last);
      if es[0].Monitor? && es[0].now - last > es[0].timeout {
        RunDead(Apply(s, es[0]), es[1..], id, k);
      } else {
        RunAliveIff(Apply(s, es[0]), es[1..], id, k, HeardAt(s, es[0], id, last));
      }
    }
  }

  /** The last sign of life of object k: a valid message under its id counts only while the id stands for it. */
  function BeatAt(s: Net, e: Event, k: nat, last: Time): Time
    requires k < |s.hub.conns|
  {
    if Registered(s.hub, k) then HeardAt(s, e, s.hub.conns[k].id, last) else last
  }

  /** Some monitor pass of es finds object k registered and silent for more than its timeout. */
  ghost predicate FoundSilent(s: Net, es: seq<Event>, k: nat, last: Time)
    requires Ok(s) && Run(s, es) && k < |s.hub.conns|
    decreases |es|
  {
    es != [] &&
    ((es[0].Monitor? && Registered(s.hub, k) && es[0].now - last > es[0].timeout)
     || (ApplyOk(s, es[0]); FoundSilent(Apply(s, es[0]), es[1..], k, BeatAt(s, es[0], k, last))))
  }

  lemma StepObject(s: Net, e: Event, k: nat, last: Time)
    requires Ok(s) && Enabled(s, e) && k < |s.hub.conns| && s.hub.conns[k].lastHeartbeat == last
    ensures Ok(Apply(s, e)) && k < |Apply(s, e).hub.conns|
    ensures Apply(s, e).hub.conns[k].lastHeartbeat == BeatAt(s, e, k, last)
    ensures Apply(s, e).hub.conns[k].online <==>
      s.hub.conns[k].online && !(e.Monitor? && Registered(s.hub, k) && e.now - last > e.timeout)
  {
    ApplyOk(s, e);
    match e
    case Arrive(i, now, o) => ArrivedConn(s, i, now, o, k);
    case Wake(j, ok, y) => WokenConn(s, j, ok, y, k);
    case _ =>
  }

  lemma {:induction false} RunObject(s: Net, es: seq<Event>, k: nat, last: Time)
    requires Ok(s) && Run(s, es) && k < |s.hub.conns| && s.hub.conns[k].lastHeartbeat == last
    ensures k < |End(s, es).hub.conns|
    ensures End(s, es).hub.conns[k].online <==> s.hub.conns[k].online && !FoundSilent(s, es, k, last)
    decreases |es|
  {
    if es != [] {
      StepObject(s, es[0], k, last);
      RunObject(Apply(s, es[0]), es[1..], k, BeatAt(s, es[0], k, last));
    }
  }

  /** Offline is absorbing for a connection object on every run, whatever connects or disconnects under its id. */
  lemma OfflineForever(s: Net, es: seq<Event>, k: nat)
    requires Ok(s) && Run(s, es) && k < |s.hub.conns| && !s.hub.conns[k].online
    ensures k < |End(s, es).hub.conns| && !End(s, es).hub.conns[k].online
  {
    RunObject(s, es, k, s.hub.conns[k].lastHeartbeat);
  }

  /**
   On every run after a connect, reconnects and disconnects under the id included: the
   connection object is online exactly when no monitor pass found it registered and silent
   for longer than the timeout, the connect counting as its first sign of life.
   */
  lemma ObjectOnlineIff(s: Net, id: ModuleId, caps: set<Capability>, t0: Time, es: seq<Event>)
    requires Ok(s) && Enabled(s, Connect(id, caps, t0))
    requires Ok(Apply(s, Connect(id, caps, t0))) && Run(Apply(s, Connect(id, caps, t0)), es)
    ensures var s1, k := Apply(s, Connect(id, caps, t0)), |s.hub.conns|;
      k < |End(s1, es).hub.conns| && (End(s1, es).hub.conns[k].online <==> !FoundSilent(s1, es, k, t0))
  {
    RunObject(Apply(s, Connect(id, caps, t0)), es, |s.hub.conns|, t0);
  }

  /**
   A module that connects and keeps its socket is online after a run exactly when no
   monitor pass of the run came later than the timeout after its last valid message,
   counting the connect as the first.  It is then also still registered: no cleanup
   pass has touched it.
   */
  lemma OnlineIffHeardInTime(s: Net, id: ModuleId, caps: set<Capability>, t0: Time, es: seq<Event>)
    requires Ok(s) && Enabled(s, Connect(id, caps, t0))
    requires Ok(Apply(s, Connect(id, caps, t0))) && Run(Apply(s, Connect(id, caps, t0)), es) && SocketStays(es, id)
    ensures var s1 := Apply(s, Connect(id, caps, t0));
      var h := End(s1, es).hub;
      && (id in h.modules && ConnOf(h, id).online <==> !SilentAtMonitor(s1, es, id, t0))
      && (id in h.modules && ConnOf(h, id).online ==>
            h.modules[id] == |s.hub.conns| && ConnOf(h, id).lastHeartbeat == LastHeard(s1, es, id, t0))
  {
    RunAliveIff(Apply(s, Connect(id, caps, t0)), es, id, |s.hub.conns|, t0);
  }
}
