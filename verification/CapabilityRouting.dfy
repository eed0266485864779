/**
 Routing by capability against its meaning: a scan of the connected modules.

 The index and the cache can disagree with the modules after a reconnect or an
 announcement that takes capabilities back.  The lemmas say exactly when they do, and
 that on all other runs a request for an action reaches a module announcing it.
 */
module CapabilityRouting {
  import opened Prelude
  import opened HubModel
  import opened HubEffects
  import opened Network
  import opened Registry

  ghost predicate Agreeing(s: Net)
    requires Ok(s)
  {
    IndexExact(s.hub) && CacheHonest(s.hub)
  }

  /** e takes no capability back that the index or the cache would still hold against the module. */
  ghost predicate Kept(s: Net, e: Event)
    requires Ok(s) && Enabled(s, e)
  {
    match e
    case Connect(id, caps, _) => id in s.hub.modules ==> ConnOf(s.hub, id).caps <= caps
    case Arrive(i, _, _) =>
      Announces(s.inbox[i].msg) && s.inbox[i].peer in s.hub.modules ==>
        KeepsCached(s.hub, s.inbox[i].peer, s.inbox[i].msg.caps)
    case _ => true
  }

  lemma StepAgreesIff(s: Net, e: Event)
    requires Sound(s) && Enabled(s, e) && Agreeing(s)
    ensures Sound(Apply(s, e))
    ensures Agreeing(Apply(s, e)) <==> Kept(s, e)
  {
    StepSound(s, e);
    match e
    case Connect(id, caps, now) => ConnectAgreesIff(s.hub, id, caps, now);
    case Drop(id) => UnregisterIndex(s.hub, id);
    case Monitor(now, timeout) => MonitoringIndex(s.hub, now, timeout);
    case Sweep(order, now) => SweepingIndex(s.hub, order, now);
    case Arrive(i, now, o) => ArrivedSound(s, i, now, o);
    case Wake(j, ok, y) => WokenSound(s, j, ok, y);
    case _ =>
  }

  lemma ConnectAgreesIff(h: Hub, id: ModuleId, caps: set<Capability>, now: Time)
    requires WF(h) && CacheConnected(h) && IndexExact(h) && CacheHonest(h)
    ensures var g := Connecting(h, id, caps, now);
      WF(g) && (IndexExact(g) && CacheHonest(g) <==> (id in h.modules ==> ConnOf(h, id).caps <= caps))
  {
    var g := Connecting(h, id, caps, now);
    ConnectExactIff(h, id, caps, now);
    if IndexExact(g) {
      forall a <- h.cache ensures h.cache[a] in Scan(g, a) {
        ConnectingEntry(h, id, caps, now, a);
        assert h.cache[a] in Scan(h, a);
      }
    }
  }

  /** Index and cache agree with the modules before, between and after the steps of es. */
  ghost predicate AgreeThroughout(s: Net, es: seq<Event>)
    requires Ok(s) && Run(s, es)
    decreases |es|
  {
    Agreeing(s) && (es != [] ==> (ApplyOk(s, es[0]); AgreeThroughout(Apply(s, es[0]), es[1..])))
  }

  ghost predicate KeptThroughout(s: Net, es: seq<Event>)
    requires Ok(s) && Run(s, es)
    decreases |es|
  {
    es != [] ==> Kept(s, es[0]) && (ApplyOk(s, es[0]); KeptThroughout(Apply(s, es[0]), es[1..]))
  }

  lemma {:induction false} RunAgreesIff(s: Net, es: seq<Event>)
    requires Sound(s) && Agreeing(s) && Run(s, es)
    ensures AgreeThroughout(s, es) <==> KeptThroughout(s, es)
    ensures KeptThroughout(s, es) ==> Agreeing(End(s, es))
    decreases |es|
  {
    if es != [] {
      StepAgreesIff(s, es[0]);
      if Kept(s, es[0]) { RunAgreesIff(Apply(s, es[0]), es[1..]); }
      else if es[1..] == [] { }
    }
  }

  /** From the empty hub: index and cache stay in agreement exactly on the runs that take nothing back. */
  lemma ReachableAgreesIff(es: seq<Event>)
    requires Run(START, es)
    ensures AgreeThroughout(START, es) <==> KeptThroughout(START, es)
    ensures KeptThroughout(START, es) ==> Agreeing(End(START, es))
  {
    assert Sound(START) && Agreeing(START);
    RunAgreesIff(START, es);
  }

  // ---------- The index alone ----------

  /** e is no reconnect that drops a capability of the module it replaces. */
  ghost predicate DropsNothing(s: Net, e: Event)
    requires Ok(s)
  {
    e.Connect? && e.id in s.hub.modules ==> ConnOf(s.hub, e.id).caps <= e.caps
  }

  lemma StepExactIff(s: Net, e: Event)
    requires Sound(s) && Enabled(s, e) && IndexExact(s.hub)
    ensures Sound(Apply(s, e))
    ensures IndexExact(Apply(s, e).hub) <==> DropsNothing(s, e)
  {
    StepSound(s, e);
    match e
    case Connect(id, caps, now) => ConnectExactIff(s.hub, id, caps, now);
    case Drop(id) => UnregisterIndex(s.hub, id);
    case Monitor(now, timeout) => MonitoringIndex(s.hub, now, timeout);
    case Sweep(order, now) => SweepingIndex(s.hub, order, now);
    case Arrive(i, now, o) => ArrivedSound(s, i, now, o);
    case Wake(j, ok, y) => WokenSound(s, j, ok, y);
    case _ =>
  }

  ghost predicate ExactThroughout(s: Net, es: seq<Event>)
    requires Ok(s) && Run(s, es)
    decreases |es|
  {
    IndexExact(s.hub) && (es != [] ==> (ApplyOk(s, es[0]); ExactThroughout(Apply(s, es[0]), es[1..])))
  }

  ghost predicate DropsNothingThroughout(s: Net, es: seq<Event>)
    requires Ok(s) && Run(s, es)
    decreases |es|
  {
    es != [] ==> DropsNothing(s, es[0]) && (ApplyOk(s, es[0]); DropsNothingThroughout(Apply(s, es[0]), es[1..]))
  }

  lemma {:induction false} RunExactIff(s: Net, es: seq<Event>)
    requires Sound(s) && IndexExact(s.hub) && Run(s, es)
    ensures ExactThroughout(s, es) <==> DropsNothingThroughout(s, es)
    ensures DropsNothingThroughout(s, es) ==> IndexExact(End(s, es).hub)
    decreases |es|
  {
    if es != [] {
      StepExactIff(s, es[0]);
      if DropsNothing(s, es[0]) { RunExactIff(Apply(s, es[0]), es[1..]); }
    }
  }

  /**
   From the empty hub: the index is the exact inverse of the modules' capability sets all
   along a run exactly when no reconnect of the run drops a capability.  Announcements,
   withdrawals included, disconnects and cleanups never spoil it.
   */
  lemma ReachableExactIff(es: seq<Event>)
    requires Run(START, es)
    ensures ExactThroughout(START, es) <==> DropsNothingThroughout(START, es)
    ensures DropsNothingThroughout(START, es) ==> IndexExact(End(START, es).hub)
  {
    assert Sound(START) && IndexExact(START.hub);
    RunExactIff(START, es);
  }

  // ---------- Routing refines the scan ----------

  /** msg asks for an action and names no target. */
  predicate ByAction(msg: Message) {
    msg.wellFormed && Routable(msg.kind) && !Truthy(msg.target) && Truthy(msg.action)
  }

  /** The three possible fates of such a message, decided by the scan. */
  ghost predicate RoutedByScan(h: Hub, source: ModuleId, msg: Message, out: Out)
    requires WF(h) && WF(out.hub) && ByAction(msg)
  {
    var action := msg.action.value;
    var scan := Scan(h, action);
    if scan == {} then
      out == SendError(h, source, NoCapability)
    else if action !in h.cache && forall id <- scan :: !ConnOf(h, id).online then
      out == SendError(h, source, ProcessingError)
    else
      && out.send.Some? && out.send.value.msg == msg && out.send.value.after == Report(source)
      && exists id <- scan ::
           && out.send.value.conn == h.modules[id]
           && if action in h.cache then id == h.cache[action]
              else ConnOf(h, id).online &&
                   forall other <- scan :: ConnOf(h, other).online ==> ConnOf(h, id).load <= ConnOf(h, other).load
  }

  lemma RouteRefinesScan(h: Hub, source: ModuleId, msg: Message, o: Oracle)
    requires WF(h) && IndexExact(h) && CacheHonest(h) && CacheConnected(h)
    requires ByAction(msg) && OracleOk(h, source, msg, o)
    ensures WF(Route(h, source, msg, o).hub)
    ensures RoutedByScan(h, source, msg, Route(h, source, msg, o))
  {
    RouteTame(h, source, msg, o);
    var action := msg.action.value;
    assert Indexed(h.index, action) == Scan(h, action);
    if action in h.cache {
      assert h.cache[action] in Scan(h, action);
    } else if Scan(h, action) != {} {
      SelectLeastLoaded(h, o.order);
      if Select(h, o.order).Some? {
        var id := Select(h, o.order).value;
        assert id in Scan(h, action);
        assert forall other <- Scan(h, action) :: other in o.order;
      } else {
        assert forall id <- Scan(h, action) :: id in o.order;
      }
    }
  }

  /**
   On every run that takes no capability back, a message asking for an action is handed
   to a connected module that announces it; NO_CAPABILITY goes to its sender exactly
   when no connected module announces it.
   */
  lemma CapabilityRoutingRefinesScan(es: seq<Event>, i: nat, now: Time, o: Oracle)
    requires Run(START, es) && KeptThroughout(START, es)
    requires Enabled(End(START, es), Arrive(i, now, o))
    requires ByAction(End(START, es).inbox[i].msg)
    ensures var s := End(START, es);
      var source, msg := s.inbox[i].peer, s.inbox[i].msg;
      var h, out := Touch(s.hub, source, now), Receive(s.hub, source, msg, now, o);
      && WF(h) && WF(out.hub)
      && RoutedByScan(h, source, msg, out)
      && Scan(h, msg.action.value) == Scan(s.hub, msg.action.value)
      && (out.send.Some? && out.send.value.msg == HubError(NoCapability) <==>
            Scan(s.hub, msg.action.value) == {} && source in s.hub.modules)
  {
    var s := End(START, es);
    ReachableSound(es);
    ReachableAgreesIff(es);
    var source, msg := s.inbox[i].peer, s.inbox[i].msg;
    var h := Touch(s.hub, source, now);
    TouchTame(s.hub, source, now);
    TameKeepsRegistry(s.hub, h, None);
    assert Scan(h, msg.action.value) == Scan(s.hub, msg.action.value);
    RouteRefinesScan(h, source, msg, o);
    assert Receive(s.hub, source, msg, now, o) == Route(h, source, msg, o);
  }

  /** On every run whatever, NO_CAPABILITY is only ever sent when no connected module announces the action. */
  lemma NoCapabilityMeansNobody(es: seq<Event>, i: nat, now: Time, o: Oracle)
    requires Run(START, es) && Enabled(End(START, es), Arrive(i, now, o))
    requires ByAction(End(START, es).inbox[i].msg)
    ensures var s := End(START, es);
      var source, msg := s.inbox[i].peer, s.inbox[i].msg;
      var out := Receive(s.hub, source, msg, now, o);
      out.send.Some? && out.send.value.msg == HubError(NoCapability) ==> Scan(s.hub, msg.action.value) == {}
  {
    ReachableSound(es);
    var s := End(START, es);
    var source, msg := s.inbox[i].peer, s.inbox[i].msg;
    TouchTame(s.hub, source, now);
    assert Receive(s.hub, source, msg, now, o) == Route(Touch(s.hub, source, now), source, msg, o);
  }

  // ---------- What goes wrong otherwise ----------

  /** After a reconnect without `c` and a disconnect, the index still offers the departed module for `c`. */
  lemma ReconnectLeavesStaleEntry(id: ModuleId, c: Capability, t: Time)
    requires id != ""
    ensures var es := [Connect(id, {c}, t), Connect(id, {}, t), Drop(id)];
      && Run(START, es)
      && id in Indexed(End(START, es).hub.index, c)
      && id !in End(START, es).hub.modules
  {
    var s1 := Apply(START, Connect(id, {c}, t));
    var s2 := Apply(s1, Connect(id, {}, t));
    var s3 := Apply(s2, Drop(id));
    assert id in Indexed(s1.hub.index, c) && id in Indexed(s2.hub.index, c);
    UnregisterEntry(s2.hub, id, c);
    assert ConnOf(s2.hub, id).caps == {};
    var es := [Connect(id, {c}, t), Connect(id, {}, t), Drop(id)];
    assert es[1..] == [Connect(id, {}, t), Drop(id)] && es[1..][1..] == [Drop(id)] && es[1..][1..][1..] == [];
    assert Run(s3, []) && Run(s2, [Drop(id)]) && Run(s1, es[1..]);
    assert End(s2, [Drop(id)]) == End(s3, []) == s3;
  }

  /** With a stale entry in the index, a request for the action gets PROCESSING_ERROR though nobody announces it. */
  lemma StaleEntryRaises(h: Hub, source: ModuleId, msg: Message, o: Oracle, ghostId: ModuleId)
    requires WF(h) && ByAction(msg) && OracleOk(h, source, msg, o) && CacheConnected(h)
    requires ghostId in Indexed(h.index, msg.action.value) && ghostId !in h.modules
    requires msg.action.value !in h.cache
    ensures Route(h, source, msg, o) == SendError(h, source, ProcessingError)
  {
  }
}
