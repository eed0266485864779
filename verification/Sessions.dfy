/** What verify_token accepts, over every run of logins, revocations, refreshes and restarts. */
module Sessions {
  import opened Prelude
  import opened AuthModel

  /** Access token of a login under way. */
  predicate LoginOf(t: Task, tok: Token) {
    (t.LoginStoring? || t.LoginInserting? || t.LoginCaching?) && t.tok == tok
  }

  /** Session rows, cache and blacklist agree. */
  ghost predicate Coherent(s: Auth, expiry: Time) {
    && (forall tok <- s.rows :: tok in s.minted && tok.signed && tok.exp <= s.rows[tok].expires)
    && (forall tok <- s.rows :: s.rows[tok].active <==> tok !in s.completed)
    && (forall tok <- s.cache :: tok in s.rows && (s.rows[tok].active || tok in s.blacklist))
    && (forall tok <- s.refreshed :: tok in s.minted && tok !in s.rows)
    && (forall tok <- s.completed :: tok.signed ==> tok in s.minted)
    && (forall tok <- s.blacklist :: tok.signed ==> tok in s.minted)
    && (forall i :: 0 <= i < |s.tasks| ==> TaskOk(s, s.tasks[i], expiry))
    && (forall i, j, tok :: 0 <= i < j < |s.tasks| && LoginOf(s.tasks[i], tok) ==> !LoginOf(s.tasks[j], tok))
  }

  ghost predicate TaskOk(s: Auth, t: Task, expiry: Time) {
    match t
    case LoginStoring(tok, _) => Unborn(s, tok, expiry)
    case LoginInserting(tok) => Unborn(s, tok, expiry)
    case LoginCaching(tok) => tok in s.rows && tok !in s.completed
    case RevokeMarking(tok) => tok in s.blacklist && (tok.signed ==> tok in s.minted)
    case RevokeUpdating(tok) => tok in s.blacklist && (tok.signed ==> tok in s.minted)
    case _ => true
  }

  /** Generated for a login, without a session yet. */
  ghost predicate Unborn(s: Auth, tok: Token, expiry: Time) {
    tok in s.minted && tok.signed && tok !in s.rows && tok !in s.completed && tok !in s.refreshed &&
        tok.exp <= s.clock + expiry
  }

  /** A revocation under way never concerns the token of a login under way. */
  ghost predicate Apart(s: Auth) {
    forall i, j :: 0 <= i < |s.tasks| && 0 <= j < |s.tasks| && (s.tasks[i].RevokeMarking? || s.tasks[i].RevokeUpdating?)
      ==> !LoginOf(s.tasks[j], s.tasks[i].tok)
  }

  ghost predicate Inv(s: Auth, expiry: Time) {
    Coherent(s, expiry) && Apart(s)
  }

  // ---------- Steps ----------

  /** Dropping a task, or everything in memory with all tasks, keeps the invariant. */
  lemma TaskDropped(s: Auth, j: nat, expiry: Time)
    requires Inv(s, expiry) && j < |s.tasks|
    ensures Inv(s.(tasks := RemoveAt(s.tasks, j)), expiry)
  {
  }

  lemma ClockForward(s: Auth, now: Time, expiry: Time)
    requires Inv(s, expiry) && s.clock <= now
    ensures Inv(s.(clock := now), expiry)
  {
  }

  lemma LoginInv(s: Auth, tok: Token, rt: RefreshToken, now: Time, expiry: Time)
    requires Inv(s, expiry) && Enabled(s, Login(tok, rt, now), expiry)
    ensures Inv(Apply(s, Login(tok, rt, now), expiry), expiry)
  {
  }

  lemma RevokeInv(s: Auth, tok: Token, expiry: Time)
    requires Inv(s, expiry) && Enabled(s, Revoke(tok), expiry)
    ensures Inv(Apply(s, Revoke(tok), expiry), expiry)
  {
    var r := Apply(s, Revoke(tok), expiry);
    forall i | 0 <= i < |r.tasks| ensures TaskOk(r, r.tasks[i], expiry) {
      if i < |s.tasks| { assert TaskOk(s, s.tasks[i], expiry); }
    }
    forall i | 0 <= i < |s.tasks| ensures !LoginOf(s.tasks[i], tok) {
      assert s.tasks[i] in s.tasks;
    }
  }

  lemma RefreshInv(s: Auth, prev: RefreshToken, expiry: Time)
    requires Inv(s, expiry) && Enabled(s, Refresh(prev), expiry)
    ensures Inv(Apply(s, Refresh(prev), expiry), expiry)
  {
    var r := Apply(s, Refresh(prev), expiry);
    forall i | 0 <= i < |r.tasks| ensures TaskOk(r, r.tasks[i], expiry) {
      if i < |s.tasks| { assert TaskOk(s, s.tasks[i], expiry); }
    }
  }

  /** Going from one stage of a login to the next. */
  lemma LoginAdvanceInv(s: Auth, j: nat, tok: Token, rt: RefreshToken, expiry: Time)
    requires Inv(s, expiry) && j < |s.tasks|
    requires s.tasks[j].LoginStoring? || s.tasks[j].LoginInserting?
    ensures Inv(Advance(s, j, tok, rt, expiry), expiry)
  {
    var r, t := Advance(s, j, tok, rt, expiry), s.tasks[j].tok;
    assert TaskOk(s, s.tasks[j], expiry);
    assert LoginOf(s.tasks[j], t);
    forall i | 0 <= i < |r.tasks| ensures TaskOk(r, r.tasks[i], expiry) {
      assert TaskOk(s, s.tasks[i], expiry);
      if i != j { assert !LoginOf(s.tasks[i], t); }
    }
    assert forall i, x :: 0 <= i < |r.tasks| ==> (LoginOf(r.tasks[i], x) <==> LoginOf(s.tasks[i], x));
  }

  lemma CachingInv(s: Auth, j: nat, tok: Token, rt: RefreshToken, expiry: Time)
    requires Inv(s, expiry) && j < |s.tasks| && s.tasks[j].LoginCaching?
    ensures Inv(Advance(s, j, tok, rt, expiry), expiry)
  {
  }

  lemma MarkingInv(s: Auth, j: nat, tok: Token, rt: RefreshToken, expiry: Time)
    requires Inv(s, expiry) && j < |s.tasks| && s.tasks[j].RevokeMarking?
    ensures Inv(Advance(s, j, tok, rt, expiry), expiry)
  {
  }

  lemma UpdatingInv(s: Auth, j: nat, tok: Token, rt: RefreshToken, expiry: Time)
    requires Inv(s, expiry) && j < |s.tasks| && s.tasks[j].RevokeUpdating?
    ensures Inv(Advance(s, j, tok, rt, expiry), expiry)
  {
    var t := s.tasks[j].tok;
    assert TaskOk(s, s.tasks[j], expiry);
    var r := Advance(s, j, tok, rt, expiry);
    forall i | 0 <= i < |r.tasks| ensures TaskOk(r, r.tasks[i], expiry) {
      var k := if i < j then i else i + 1;
      assert r.tasks[i] == s.tasks[k] && TaskOk(s, s.tasks[k], expiry);
      assert !LoginOf(s.tasks[k], t);
    }
    TaskDropped(s, j, expiry);
    assert r.tasks == s.(tasks := RemoveAt(s.tasks, j)).tasks;
  }

  lemma RefreshAdvanceInv(s: Auth, j: nat, tok: Token, rt: RefreshToken, expiry: Time)
    requires Inv(s, expiry) && j < |s.tasks|
    requires s.tasks[j].RefreshStored? || (s.tasks[j].RefreshFound? && tok !in s.minted && tok.signed)
    ensures Inv(Advance(s, j, tok, rt, expiry), expiry)
  {
    var r := Advance(s, j, tok, rt, expiry);
    if s.tasks[j].RefreshStored? {
      TaskDropped(s, j, expiry);
      var d := s.(tasks := RemoveAt(s.tasks, j));
      forall i | 0 <= i < |r.tasks| ensures TaskOk(r, r.tasks[i], expiry) { assert TaskOk(d, d.tasks[i], expiry); }
    } else {
      forall i | 0 <= i < |r.tasks| ensures TaskOk(r, r.tasks[i], expiry) { assert TaskOk(s, s.tasks[i], expiry); }
      assert forall i, x :: 0 <= i < |r.tasks| && LoginOf(r.tasks[i], x) ==> LoginOf(s.tasks[i], x);
    }
  }

  lemma StepInv(s: Auth, e: Event, expiry: Time)
    requires Inv(s, expiry) && Enabled(s, e, expiry)
    ensures Inv(Apply(s, e, expiry), expiry)
  {
    match e
    case Login(tok, rt, now) => LoginInv(s, tok, rt, now, expiry);
    case Revoke(tok) => RevokeInv(s, tok, expiry);
    case Refresh(prev) => RefreshInv(s, prev, expiry);
    case Go(j, now, ok, tok, rt) =>
      ClockForward(s, now, expiry);
      var s1 := s.(clock := now);
      if ok {
        match s1.tasks[j] {
          case LoginStoring(_, _) => LoginAdvanceInv(s1, j, tok, rt, expiry);
          case LoginInserting(_) => LoginAdvanceInv(s1, j, tok, rt, expiry);
          case LoginCaching(_) => CachingInv(s1, j, tok, rt, expiry);
          case RevokeMarking(_) => MarkingInv(s1, j, tok, rt, expiry);
          case RevokeUpdating(_) => UpdatingInv(s1, j, tok, rt, expiry);
          case _ => RefreshAdvanceInv(s1, j, tok, rt, expiry);
        }
      } else {
        TaskDropped(s1, j, expiry);
      }
    case Expire(rt) =>
      var r := Apply(s, e, expiry);
      forall i | 0 <= i < |r.tasks| ensures TaskOk(r, r.tasks[i], expiry) { assert TaskOk(s, s.tasks[i], expiry); }
    case Restart =>
  }

  lemma {:induction false} RunInv(s: Auth, es: seq<Event>, expiry: Time)
    requires Inv(s, expiry) && Run(s, es, expiry)
    ensures Inv(End(s, es, expiry), expiry)
    decreases |es|
  {
    if es != [] {
      StepInv(s, es[0], expiry);
      RunInv(Apply(s, es[0], expiry), es[1..], expiry);
    }
  }

  // ---------- What verify_token accepts ----------

  /**
   After every run, verify_token accepts exactly the signed, unexpired tokens that have a
   session, whose revocation has not completed, and which are not blacklisted in memory.
   Whether the session is cached makes no difference.
   */
  lemma VerifyIff(es: seq<Event>, expiry: Time, tok: Token, now: Time)
    requires Run(START, es, expiry)
    ensures var s := End(START, es, expiry);
      Verify(s, tok, now) <==>
        tok.signed && now < tok.exp && tok in s.rows && tok !in s.completed && tok !in s.blacklist
  {
    RunInv(START, es, expiry);
  }

  /** A token handed out by refresh_access_token has no session and is never accepted. */
  lemma RefreshedNeverAccepted(es: seq<Event>, expiry: Time, tok: Token, now: Time)
    requires Run(START, es, expiry) && tok in End(START, es, expiry).refreshed
    ensures !Verify(End(START, es, expiry), tok, now)
  {
    RunInv(START, es, expiry);
  }

  /** Once revoke_token has run to its end, the token is refused after every further run, restarts included. */
  lemma {:induction false} RevokedForGood(s: Auth, es: seq<Event>, expiry: Time, tok: Token, now: Time)
    requires Inv(s, expiry) && tok in s.completed && Run(s, es, expiry)
    ensures !Verify(End(s, es, expiry), tok, now)
    decreases |es|
  {
    if es != [] {
      StepInv(s, es[0], expiry);
      RevokedForGood(Apply(s, es[0], expiry), es[1..], expiry, tok, now);
    }
  }

  // ---------- Revocations that are cut short ----------

  predicate Revoking(t: Task, tok: Token) {
    (t.RevokeMarking? || t.RevokeUpdating?) && t.tok == tok
  }

  /** No store operation of a revocation of tok fails in e. */
  predicate RevocationGoesOn(s: Auth, e: Event, tok: Token) {
    e.Go? && e.j < |s.tasks| && Revoking(s.tasks[e.j], tok) ==> e.ok
  }

  ghost predicate RevocationsGoOn(s: Auth, es: seq<Event>, expiry: Time, tok: Token)
    requires Run(s, es, expiry)
    decreases |es|
  {
    es != [] ==> RevocationGoesOn(s, es[0], tok) && RevocationsGoOn(Apply(s, es[0], expiry), es[1..], expiry, tok)
  }

  /** If tok is blacklisted, its revocation is complete or under way. */
  ghost predicate BlacklistExplained(s: Auth, tok: Token) {
    tok in s.blacklist ==> tok in s.completed || exists t <- s.tasks :: Revoking(t, tok)
  }

  lemma StepExplained(s: Auth, e: Event, expiry: Time, tok: Token)
    requires Enabled(s, e, expiry) && BlacklistExplained(s, tok) && RevocationGoesOn(s, e, tok)
    ensures BlacklistExplained(Apply(s, e, expiry), tok)
  {
    var r := Apply(s, e, expiry);
    if tok in r.blacklist && tok !in s.blacklist {
      assert RevokeMarking(tok) in r.tasks;
    } else if tok in r.blacklist && tok !in s.completed {
      var k :| 0 <= k < |s.tasks| && Revoking(s.tasks[k], tok);
      KeepsRevoking(s, e, expiry, k, tok);
    }
  }

  lemma KeepsRevoking(s: Auth, e: Event, expiry: Time, k: nat, tok: Token)
    requires Enabled(s, e, expiry) && !e.Restart? && RevocationGoesOn(s, e, tok)
    requires k < |s.tasks| && Revoking(s.tasks[k], tok)
    ensures var r := Apply(s, e, expiry); tok in r.completed || exists t <- r.tasks :: Revoking(t, tok)
  {
    var r := Apply(s, e, expiry);
    if e.Go? && e.j == k {
      if s.tasks[k].RevokeMarking? { assert r.tasks[k] == RevokeUpdating(tok) && Revoking(r.tasks[k], tok); }
    } else if e.Go? {
      assert s.tasks[k] == r.tasks[if k < e.j || |r.tasks| == |s.tasks| then k else k - 1];
    } else {
      assert s.tasks[k] == r.tasks[k];
    }
  }

  lemma {:induction false} RunExplained(s: Auth, es: seq<Event>, expiry: Time, tok: Token)
    requires BlacklistExplained(s, tok) && Run(s, es, expiry) && RevocationsGoOn(s, es, expiry, tok)
    ensures BlacklistExplained(End(s, es, expiry), tok)
    decreases |es|
  {
    if es != [] {
      StepExplained(s, es[0], expiry, tok);
      RunExplained(Apply(s, es[0], expiry), es[1..], expiry, tok);
    }
  }

  /**
   When no revocation of the token is under way and none met a failing store, restarts or
   not, verify_token accepts it exactly if it is unexpired and has a session, and its
   revocation has not completed.  Other tokens' revocations do not matter.
   */
  lemma VerifyIffUnrevoked(es: seq<Event>, expiry: Time, tok: Token, now: Time)
    requires Run(START, es, expiry) && RevocationsGoOn(START, es, expiry, tok)
    requires forall t <- End(START, es, expiry).tasks :: !Revoking(t, tok)
    ensures var s := End(START, es, expiry);
      Verify(s, tok, now) <==> tok.signed && now < tok.exp && tok in s.rows && tok !in s.completed
  {
    VerifyIff(es, expiry, tok, now);
    RunExplained(START, es, expiry, tok);
  }

  /** A restart in the middle of a revocation brings the token back: it is accepted again. */
  lemma RestartUndoesUnfinishedRevocation(es: seq<Event>, expiry: Time, tok: Token, now: Time)
    requires Run(START, es, expiry) && Verify(End(START, es, expiry), tok, now) && !Secret(End(START, es, expiry), tok)
    ensures var s := End(START, es, expiry);
      var again := [Revoke(tok), Restart];
      && Run(s, again, expiry)
      && !Verify(Apply(s, Revoke(tok), expiry), tok, now)
      && Verify(End(s, again, expiry), tok, now)
  {
    RunInv(START, es, expiry);
    var s := End(START, es, expiry);
    VerifyIff(es, expiry, tok, now);
    var again := [Revoke(tok), Restart];
    var s1 := Apply(s, Revoke(tok), expiry);
    assert again[1..] == [Restart] && again[1..][1..] == [];
    assert Run(Apply(s1, Restart, expiry), [], expiry) && Run(s1, [Restart], expiry);
    assert End(s, again, expiry) == End(s1, [Restart], expiry) == Apply(s1, Restart, expiry);
  }
}
