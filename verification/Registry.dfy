/**
 What the registry keeps over every run: load counters count the pending sends, the
 routing cache names connected modules, the capability index covers the modules'
 capabilities.  And what it keeps exactly as long as no reconnect and no announcement
 takes back a capability: the index is the inverse of the capability sets, and routing
 by capability agrees with a scan of all modules.
 */
module Registry {
  import opened Prelude
  import opened HubModel
  import opened HubEffects
  import opened Network

  // ---------- Load counters ----------

  function OnConn(k: nat): Send -> nat {
    (x: Send) => if x.conn == k then 1 else 0
  }

  ghost predicate LoadsExact(s: Net)
    requires Ok(s)
  {
    forall k: nat :: k < |s.hub.conns| ==> s.hub.conns[k].load == Sum(OnConn(k), s.sends)
  }

  lemma ArrivedLoads(s: Net, i: nat, now: Time, o: Oracle)
    requires Ok(s) && Enabled(s, Arrive(i, now, o)) && LoadsExact(s)
    ensures Ok(Arrived(s, i, now, o)) && LoadsExact(Arrived(s, i, now, o))
  {
    ArrivedOk(s, i, now, o);
    var h, source, msg := s.hub, s.inbox[i].peer, s.inbox[i].msg;
    var out := Receive(h, source, msg, now, o);
    if Announces(msg) {
      TouchTame(h, source, now);
      assert out == Out(Announcing(Touch(h, source, now), source, msg.caps), None);
    } else {
      ReceiveTame(h, source, msg, now, o);
    }
    forall k: nat | k < |h.conns|
      ensures out.hub.conns[k].load == Sum(OnConn(k), Push(s.sends, out.send))
    {
      SumPush(OnConn(k), s.sends, out.send);
    }
  }

  lemma WokenLoads(s: Net, j: nat, ok: bool, y: Yield)
    requires Ok(s) && Enabled(s, Wake(j, ok, y)) && LoadsExact(s)
    ensures Ok(Woken(s, j, ok, y)) && LoadsExact(Woken(s, j, ok, y))
  {
    WokenOk(s, j, ok, y);
    FinishTame(s.hub, s.sends[j], ok, y);
    var out := Finish(s.hub, s.sends[j], ok, y);
    forall k: nat | k < |s.hub.conns|
      ensures out.hub.conns[k].load == Sum(OnConn(k), Push(RemoveAt(s.sends, j), out.send))
    {
      SumReplace(OnConn(k), s.sends, j, out.send);
    }
  }

  lemma ConnectLoads(s: Net, id: ModuleId, caps: set<Capability>, now: Time)
    requires Ok(s) && LoadsExact(s)
    ensures LoadsExact(s.(hub := Connecting(s.hub, id, caps, now)))
  {
    SumPositive(OnConn(|s.hub.conns|), s.sends);
  }

  // ---------- Cache and index on arbitrary runs ----------

  ghost predicate CacheConnected(h: Hub) {
    forall a <- h.cache :: h.cache[a] in h.modules
  }

  ghost predicate CapabilitiesIndexed(h: Hub)
    requires WF(h)
  {
    forall c :: Scan(h, c) <= Indexed(h.index, c)
  }

  ghost predicate Sound(s: Net) {
    Ok(s) && LoadsExact(s) && CacheConnected(s.hub) && CapabilitiesIndexed(s.hub)
  }

  lemma TameKeepsRegistry(h: Hub, g: Hub, sent: Option<Send>)
    requires WF(h) && Tame(h, g, sent)
    ensures CacheConnected(h) ==> CacheConnected(g)
    ensures CapabilitiesIndexed(h) ==> CapabilitiesIndexed(g)
    ensures IndexExact(h) <==> IndexExact(g)
    ensures IndexExact(h) && CacheHonest(h) ==> CacheHonest(g)
  {
  }

  // ---------- The index as an inverse ----------

  /** The connected modules whose current capabilities contain c: a scan of all modules. */
  ghost function Scan(h: Hub, c: Capability): set<ModuleId>
    requires WF(h)
  {
    set id | id in h.modules && c in ConnOf(h, id).caps
  }

  ghost predicate IndexExact(h: Hub)
    requires WF(h)
  {
    forall c :: Indexed(h.index, c) == Scan(h, c)
  }

  /** Every cached module announces the action it is cached for. */
  ghost predicate CacheHonest(h: Hub)
    requires WF(h)
  {
    forall a <- h.cache :: h.cache[a] in Scan(h, a)
  }

  /** The effect of each registry operation on one entry of the scan and of the index. */
  lemma ConnectingEntry(h: Hub, id: ModuleId, caps: set<Capability>, now: Time, c: Capability)
    requires WF(h)
    ensures var g := Connecting(h, id, caps, now);
      && WF(g)
      && Scan(g, c) == Scan(h, c) - {id} + (if c in caps then {id} else {})
      && Indexed(g.index, c) == Indexed(h.index, c) + (if c in caps then {id} else {})
  {
  }

  lemma AnnouncingEntry(h: Hub, id: ModuleId, caps: set<Capability>, c: Capability)
    requires WF(h) && id in h.modules
    ensures var g := Announcing(h, id, caps);
      && WF(g)
      && Scan(g, c) == Scan(h, c) - {id} + (if c in caps then {id} else {})
      && Indexed(g.index, c) ==
           Indexed(h.index, c) - (if c in ConnOf(h, id).caps then {id} else {}) + (if c in caps then {id} else {})
  {
  }

  lemma UnregisterEntry(h: Hub, id: ModuleId, c: Capability)
    requires WF(h) && id in h.modules
    ensures var g := Unregister(h, id);
      && WF(g)
      && Scan(g, c) == Scan(h, c) - {id}
      && Indexed(g.index, c) == Indexed(h.index, c) - (if c in ConnOf(h, id).caps then {id} else {})
  {
  }

  lemma ConnectingIndex(h: Hub, id: ModuleId, caps: set<Capability>, now: Time)
    requires WF(h)
    ensures var g := Connecting(h, id, caps, now);
      && WF(g)
      && (CacheConnected(h) ==> CacheConnected(g))
      && (CapabilitiesIndexed(h) ==> CapabilitiesIndexed(g))
  {
    var g := Connecting(h, id, caps, now);
    forall c ensures WF(g) && (CapabilitiesIndexed(h) ==> Scan(g, c) <= Indexed(g.index, c)) {
      ConnectingEntry(h, id, caps, now, c);
    }
  }

  /** A reconnect under a used id keeps the index exact if and only if it drops no capability. */
  lemma ConnectExactIff(h: Hub, id: ModuleId, caps: set<Capability>, now: Time)
    requires WF(h) && IndexExact(h)
    ensures WF(Connecting(h, id, caps, now))
    ensures IndexExact(Connecting(h, id, caps, now)) <==> (id in h.modules ==> ConnOf(h, id).caps <= caps)
  {
    var g := Connecting(h, id, caps, now);
    forall c
      ensures Scan(g, c) == Scan(h, c) - {id} + (if c in caps then {id} else {})
      ensures Indexed(g.index, c) == Scan(h, c) + (if c in caps then {id} else {})
    {
      ConnectingEntry(h, id, caps, now, c);
    }
    if id in h.modules && !(ConnOf(h, id).caps <= caps) {
      var c :| c in ConnOf(h, id).caps && c !in caps;
      assert id in Scan(h, c);
      assert id in Indexed(g.index, c) && id !in Scan(g, c);
    }
  }

  lemma AnnouncingIndex(h: Hub, id: ModuleId, caps: set<Capability>)
    requires WF(h)
    ensures var g := Announcing(h, id, caps);
      && WF(g) && g.modules == h.modules && g.cache == h.cache
      && (CapabilitiesIndexed(h) ==> CapabilitiesIndexed(g))
      && (IndexExact(h) ==> IndexExact(g))
  {
    if id in h.modules {
      var g := Announcing(h, id, caps);
      forall c
        ensures CapabilitiesIndexed(h) ==> Scan(g, c) <= Indexed(g.index, c)
        ensures IndexExact(h) ==> Scan(g, c) == Indexed(g.index, c)
      {
        AnnouncingEntry(h, id, caps, c);
      }
    }
  }

  /** An announcement keeps the cache honest if and only if it keeps the actions cached for the module. */
  lemma AnnounceHonestIff(h: Hub, id: ModuleId, caps: set<Capability>)
    requires WF(h) && CacheHonest(h)
    ensures WF(Announcing(h, id, caps))
    ensures CacheHonest(Announcing(h, id, caps)) <==> (id in h.modules ==> KeepsCached(h, id, caps))
  {
  }

  /** Every action cached for id is in caps. */
  ghost predicate KeepsCached(h: Hub, id: ModuleId, caps: set<Capability>) {
    forall a <- h.cache :: h.cache[a] == id ==> a in caps
  }

  lemma UnregisterIndex(h: Hub, id: ModuleId)
    requires WF(h)
    ensures var g := Unregister(h, id);
      && WF(g)
      && (CacheConnected(h) ==> CacheConnected(g))
      && (CapabilitiesIndexed(h) ==> CapabilitiesIndexed(g))
      && (IndexExact(h) ==> IndexExact(g))
      && (CacheHonest(h) ==> CacheHonest(g))
  {
    if id in h.modules {
      var g := Unregister(h, id);
      forall c
        ensures Scan(g, c) == Scan(h, c) - {id}
        ensures CapabilitiesIndexed(h) ==> Scan(g, c) <= Indexed(g.index, c)
        ensures IndexExact(h) ==> Scan(g, c) == Indexed(g.index, c)
      {
        UnregisterEntry(h, id, c);
      }
    }
  }

  lemma {:induction false} SweepingIndex(h: Hub, order: seq<ModuleId>, now: Time)
    requires WF(h)
    ensures var g := Sweeping(h, order, now);
      && WF(g)
      && (CacheConnected(h) ==> CacheConnected(g))
      && (CapabilitiesIndexed(h) ==> CapabilitiesIndexed(g))
      && (IndexExact(h) ==> IndexExact(g))
      && (CacheHonest(h) ==> CacheHonest(g))
  {
    if order != [] {
      SweepingIndex(h, order[..|order| - 1], now);
      UnregisterIndex(Sweeping(h, order[..|order| - 1], now), order[|order| - 1]);
    }
  }

  lemma MonitoringIndex(h: Hub, now: Time, timeout: Time)
    requires WF(h)
    ensures var g := Monitoring(h, now, timeout);
      && WF(g) && g.modules == h.modules && g.cache == h.cache && g.index == h.index
      && (forall c :: Scan(g, c) == Scan(h, c))
  {
  }

  // ---------- Every run ----------

  lemma ArrivedSound(s: Net, i: nat, now: Time, o: Oracle)
    requires Sound(s) && Enabled(s, Arrive(i, now, o))
    ensures Sound(Arrived(s, i, now, o))
    ensures IndexExact(s.hub) ==> IndexExact(Arrived(s, i, now, o).hub)
    ensures IndexExact(s.hub) && CacheHonest(s.hub) && !Announces(s.inbox[i].msg) ==>
      CacheHonest(Arrived(s, i, now, o).hub)
    ensures IndexExact(s.hub) && CacheHonest(s.hub) && Announces(s.inbox[i].msg) ==>
      (CacheHonest(Arrived(s, i, now, o).hub) <==>
        (s.inbox[i].peer in s.hub.modules ==> KeepsCached(s.hub, s.inbox[i].peer, s.inbox[i].msg.caps)))
  {
    ArrivedLoads(s, i, now, o);
    var h, source, msg := s.hub, s.inbox[i].peer, s.inbox[i].msg;
    if Announces(msg) {
      var h1 := Touch(h, source, now);
      TouchTame(h, source, now);
      TameKeepsRegistry(h, h1, None);
      AnnouncingIndex(h1, source, msg.caps);
      if CacheHonest(h1) { AnnounceHonestIff(h1, source, msg.caps); }
      assert Receive(h, source, msg, now, o) == Out(Announcing(h1, source, msg.caps), None);
    } else {
      ReceiveTame(h, source, msg, now, o);
      var out := Receive(h, source, msg, now, o);
      TameKeepsRegistry(h, out.hub, out.send);
    }
  }

  lemma WokenSound(s: Net, j: nat, ok: bool, y: Yield)
    requires Sound(s) && Enabled(s, Wake(j, ok, y))
    ensures Sound(Woken(s, j, ok, y))
    ensures IndexExact(s.hub) ==> IndexExact(Woken(s, j, ok, y).hub)
    ensures IndexExact(s.hub) && CacheHonest(s.hub) ==> CacheHonest(Woken(s, j, ok, y).hub)
  {
    WokenLoads(s, j, ok, y);
    FinishTame(s.hub, s.sends[j], ok, y);
    var h1 := Released(s.hub, s.sends[j], ok);
    assert forall c :: Scan(h1, c) == Scan(s.hub, c);
    var out := Finish(s.hub, s.sends[j], ok, y);
    TameKeepsRegistry(h1, out.hub, out.send);
  }

  lemma StepSound(s: Net, e: Event)
    requires Sound(s) && Enabled(s, e)
    ensures Sound(Apply(s, e))
  {
    match e
    case Connect(id, caps, now) =>
      ConnectLoads(s, id, caps, now);
      ConnectingIndex(s.hub, id, caps, now);
    case Drop(id) => UnregisterIndex(s.hub, id);
    case Monitor(now, timeout) => MonitoringIndex(s.hub, now, timeout);
    case Sweep(order, now) => SweepingIndex(s.hub, order, now);
    case Arrive(i, now, o) => ArrivedSound(s, i, now, o);
    case Wake(j, ok, y) => WokenSound(s, j, ok, y);
    case _ =>
  }

  lemma {:induction false} RunSound(s: Net, es: seq<Event>)
    requires Sound(s) && Run(s, es)
    ensures Sound(End(s, es))
    decreases |es|
  {
    if es != [] {
      StepSound(s, es[0]);
      RunSound(Apply(s, es[0]), es[1..]);
    }
  }

  /** The main invariant: it holds after every run from the empty hub. */
  lemma ReachableSound(es: seq<Event>)
    requires Run(START, es)
    ensures Sound(End(START, es))
  {
    RunSound(START, es);
  }

  /** With no send pending, no connection object carries load. */
  lemma NoLoadAtRest(es: seq<Event>, k: nat)
    requires Run(START, es) && End(START, es).sends == [] && k < |End(START, es).hub.conns|
    ensures End(START, es).hub.conns[k].load == 0
  {
    ReachableSound(es);
  }

  /** The load balancer compares true loads: it finds an online candidate with fewest pending sends. */
  lemma SelectFewestPending(es: seq<Event>, order: seq<ModuleId>)
    requires Run(START, es)
    requires forall id <- order :: id in End(START, es).hub.modules
    ensures var s := End(START, es);
      match Select(s.hub, order)
      case None => forall id <- order :: !ConnOf(s.hub, id).online
      case Some(m) =>
        && m in order && ConnOf(s.hub, m).online
        && forall id <- order :: ConnOf(s.hub, id).online ==>
             Sum(OnConn(s.hub.modules[m]), s.sends) <= Sum(OnConn(s.hub.modules[id]), s.sends)
  {
    ReachableSound(es);
    SelectLeastLoaded(End(START, es).hub, order);
  }
}
