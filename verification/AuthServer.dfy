/** The AuthService object: session cache and blacklist in memory, session rows and refresh tokens in its stores. */
module AuthServer {
  import opened Prelude
  import opened AuthModel
  import opened Sessions

  /** What verify_token answers or raises. */
  datatype Verdict = Accepted | TokenRevoked | InvalidToken | TokenExpired | NoSession

  class AuthService {
    var sessionsCache: set<Token>
    var tokenBlacklist: set<Token>
    var sessions: map<Token, Row>              // the sessions table
    var refreshTokens: set<RefreshToken>       // the refresh_token:* keys
    const jwtExpiry: Time
    ghost var state: Auth

    ghost predicate Valid()
      reads this
    {
      && Inv(state, jwtExpiry)
      && sessionsCache == state.cache && tokenBlacklist == state.blacklist
      && sessions == state.rows && refreshTokens == state.live
    }

    constructor (expiry: Time)
      ensures Valid() && state == START && jwtExpiry == expiry
    {
      sessionsCache, tokenBlacklist, sessions, refreshTokens, jwtExpiry := {}, {}, map[], {}, expiry;
      state := START;
    }

    /** verify_token. */
    method VerifyToken(token: Token, now: Time) returns (v: Verdict)
      requires Valid()
      ensures v == Accepted <==>
        token.signed && now < token.exp && token in state.rows && token !in state.completed && token !in state.blacklist
      ensures v == Accepted <==> Verify(state, token, now)
      ensures v == TokenRevoked <==> token in state.blacklist
      ensures v == InvalidToken <==> token !in state.blacklist && !token.signed
      ensures v == TokenExpired <==> token !in state.blacklist && token.signed && token.exp <= now
      ensures v == NoSession <==>
        && token !in state.blacklist && token.signed && now < token.exp
        && (token !in state.rows || token in state.completed)
    {
      if token in tokenBlacklist {
        return TokenRevoked;
      }
      if !token.signed {
        return InvalidToken;
      }
      if token.exp <= now {
        return TokenExpired;
      }
      if token !in sessionsCache {
        var row := token in sessions && sessions[token].active && sessions[token].expires > now;
        if !row {
          return NoSession;
        }
      }
      return Accepted;
    }

    // ---------- The segments of each coroutine, between two suspensions ----------

    /** The event of task j resuming, its awaited operation having succeeded or raised. */
    ghost function Resumes(j: nat, now: Time, ok: bool): Event {
      Go(j, now, ok, Token(0, 0.0, false), RefreshToken(0, 0))
    }

    /** authenticate up to the setex of _generate_refresh_token. */
    method IssueTokens(tok: Token, rt: RefreshToken, now: Time)
      requires Valid() && Enabled(state, Login(tok, rt, now), jwtExpiry)
      modifies this`state
      ensures Valid() && state == Apply(old(state), Login(tok, rt, now), jwtExpiry)
    {
      StepInv(state, Login(tok, rt, now), jwtExpiry);
      state := Apply(state, Login(tok, rt, now), jwtExpiry);
    }

    /** The setex of _generate_refresh_token during a login. */
    method StoreRefreshToken(ghost j: nat, tok: Token, rt: RefreshToken, now: Time, ok: bool)
      requires Valid() && j < |state.tasks| && state.tasks[j] == LoginStoring(tok, rt) && state.clock <= now
      modifies this`refreshTokens, this`state
      ensures Valid() && state == Apply(old(state), Resumes(j, now, ok), jwtExpiry)
      ensures refreshTokens == if ok then old(refreshTokens) + {rt} else old(refreshTokens)
    {
      StepInv(state, Resumes(j, now, ok), jwtExpiry);
      if ok {
        refreshTokens := refreshTokens + {rt};
      }
      state := Apply(state, Resumes(j, now, ok), jwtExpiry);
    }

    /** The INSERT of _create_session. */
    method InsertSession(ghost j: nat, tok: Token, now: Time, ok: bool)
      requires Valid() && j < |state.tasks| && state.tasks[j] == LoginInserting(tok) && state.clock <= now
      modifies this`sessions, this`state
      ensures Valid() && state == Apply(old(state), Resumes(j, now, ok), jwtExpiry)
      ensures sessions == if ok then old(sessions)[tok := Row(true, now + jwtExpiry)] else old(sessions)
    {
      StepInv(state, Resumes(j, now, ok), jwtExpiry);
      if ok {
        sessions := sessions[tok := Row(true, now + jwtExpiry)];
      }
      state := Apply(state, Resumes(j, now, ok), jwtExpiry);
    }

    /** _create_session after its INSERT. */
    method CacheSession(ghost j: nat, tok: Token, now: Time)
      requires Valid() && j < |state.tasks| && state.tasks[j] == LoginCaching(tok) && state.clock <= now
      modifies this`sessionsCache, this`state
      ensures Valid() && state == Apply(old(state), Resumes(j, now, true), jwtExpiry)
      ensures sessionsCache == old(sessionsCache) + {tok}
    {
      StepInv(state, Resumes(j, now, true), jwtExpiry);
      sessionsCache := sessionsCache + {tok};
      state := Apply(state, Resumes(j, now, true), jwtExpiry);
    }

    /** revoke_token up to its setex. */
    method Blacklist(tok: Token)
      requires Valid() && Enabled(state, Revoke(tok), jwtExpiry)
      modifies this`tokenBlacklist, this`state
      ensures Valid() && state == Apply(old(state), Revoke(tok), jwtExpiry)
      ensures tokenBlacklist == old(tokenBlacklist) + {tok}
    {
      StepInv(state, Revoke(tok), jwtExpiry);
      tokenBlacklist := tokenBlacklist + {tok};
      state := Apply(state, Revoke(tok), jwtExpiry);
    }

    /** revoke_token after its setex. */
    method DropFromCache(ghost j: nat, tok: Token, now: Time, ok: bool)
      requires Valid() && j < |state.tasks| && state.tasks[j] == RevokeMarking(tok) && state.clock <= now
      modifies this`sessionsCache, this`state
      ensures Valid() && state == Apply(old(state), Resumes(j, now, ok), jwtExpiry)
      ensures sessionsCache == if ok then old(sessionsCache) - {tok} else old(sessionsCache)
    {
      StepInv(state, Resumes(j, now, ok), jwtExpiry);
      if ok && tok in sessionsCache {
        sessionsCache := sessionsCache - {tok};
      }
      state := Apply(state, Resumes(j, now, ok), jwtExpiry);
    }

    /** The UPDATE of revoke_token. */
    method DeactivateSession(ghost j: nat, tok: Token, now: Time, ok: bool)
      requires Valid() && j < |state.tasks| && state.tasks[j] == RevokeUpdating(tok) && state.clock <= now
      modifies this`sessions, this`state
      ensures Valid() && state == Apply(old(state), Resumes(j, now, ok), jwtExpiry)
      ensures sessions == if ok && tok in old(sessions)
        then old(sessions)[tok := old(sessions)[tok].(active := false)] else old(sessions)
    {
      StepInv(state, Resumes(j, now, ok), jwtExpiry);
      if ok && tok in sessions {
        sessions := sessions[tok := sessions[tok].(active := false)];
      }
      state := Apply(state, Resumes(j, now, ok), jwtExpiry);
    }

    /** The lookup of refresh_access_token. */
    method FindRefreshToken(prev: RefreshToken) returns (found: bool)
      requires Valid() && Enabled(state, Refresh(prev), jwtExpiry)
      modifies this`state
      ensures Valid() && state == Apply(old(state), Refresh(prev), jwtExpiry)
      ensures found <==> prev in old(refreshTokens)
    {
      StepInv(state, Refresh(prev), jwtExpiry);
      found := prev in refreshTokens;
      state := Apply(state, Refresh(prev), jwtExpiry);
    }

    /** refresh_access_token from the user lookup to the setex of the successor; ok is false when either fails. */
    method StoreSuccessor(ghost j: nat, prev: RefreshToken, tok: Token, next: RefreshToken, now: Time, ok: bool)
      requires Valid() && j < |state.tasks| && state.tasks[j] == RefreshFound(prev)
      requires Enabled(state, Go(j, now, ok, tok, next), jwtExpiry)
      modifies this`refreshTokens, this`state
      ensures Valid() && state == Apply(old(state), Go(j, now, ok, tok, next), jwtExpiry)
      ensures refreshTokens == if ok then old(refreshTokens) + {next} else old(refreshTokens)
    {
      StepInv(state, Go(j, now, ok, tok, next), jwtExpiry);
      if ok {
        refreshTokens := refreshTokens + {next};
      }
      state := Apply(state, Go(j, now, ok, tok, next), jwtExpiry);
    }

    /** The delete of refresh_access_token. */
    method DeleteRefreshToken(ghost j: nat, prev: RefreshToken, ghost next: RefreshToken, now: Time, ok: bool)
      requires Valid() && j < |state.tasks| && state.tasks[j] == RefreshStored(prev, next) && state.clock <= now
      modifies this`refreshTokens, this`state
      ensures Valid() && state == Apply(old(state), Resumes(j, now, ok), jwtExpiry)
      ensures refreshTokens == if ok then old(refreshTokens) - {prev} else old(refreshTokens)
    {
      StepInv(state, Resumes(j, now, ok), jwtExpiry);
      if ok {
        refreshTokens := refreshTokens - {prev};
      }
      state := Apply(state, Resumes(j, now, ok), jwtExpiry);
    }

    /** The process is restarted: the stores survive, memory and coroutines do not. */
    method Restarted()
      requires Valid()
      modifies this`sessionsCache, this`tokenBlacklist, this`state
      ensures Valid() && state == Apply(old(state), Restart, jwtExpiry)
      ensures sessionsCache == {} && tokenBlacklist == {}
    {
      StepInv(state, Restart, jwtExpiry);
      sessionsCache, tokenBlacklist := {}, {};
      state := Apply(state, Restart, jwtExpiry);
    }

    // ---------- Whole operations, run without interruption ----------

    /** authenticate; closingOk says whether the last_login update and the audit log entry at its end succeed. */
    method Authenticate(credentials: bool, tok: Token, rt: RefreshToken, now: Time,
                        redisOk: bool, insertOk: bool, closingOk: bool)
        returns (answer: Option<(Token, RefreshToken)>)
      requires Valid() && Enabled(state, Login(tok, rt, now), jwtExpiry)
      modifies this
      ensures Valid()
      ensures answer == if credentials && redisOk && insertOk && closingOk then Some((tok, rt)) else None
      ensures forall t: Time :: Verify(state, tok, t) <==> credentials && redisOk && insertOk && t < tok.exp
      ensures refreshTokens == if credentials && redisOk then old(refreshTokens) + {rt} else old(refreshTokens)
      ensures state.tasks == old(state.tasks)
    {
      if !credentials {
        return None;
      }
      ghost var before, j := state.tasks, |state.tasks|;
      IssueTokens(tok, rt, now);
      StoreRefreshToken(j, tok, rt, now, redisOk);
      if !redisOk {
        return None;
      }
      InsertSession(j, tok, now, insertOk);
      if !insertOk {
        return None;
      }
      CacheSession(j, tok, now);
      assert state.tasks == before;
      return if closingOk then Some((tok, rt)) else None;
    }

    /** revoke_token; false when a store raises. */
    method RevokeToken(tok: Token, now: Time, redisOk: bool, updateOk: bool) returns (ok: bool)
      requires Valid() && Enabled(state, Revoke(tok), jwtExpiry) && state.clock <= now
      modifies this
      ensures Valid()
      ensures ok == (redisOk && updateOk)
      ensures ok ==> tok in state.completed
      ensures forall t: Time :: !Verify(state, tok, t)
      ensures forall x: Token, t: Time :: x != tok ==> (Verify(state, x, t) <==> Verify(old(state), x, t))
      ensures state.tasks == old(state.tasks) && refreshTokens == old(refreshTokens)
    {
      ghost var before, j := state.tasks, |state.tasks|;
      Blacklist(tok);
      DropFromCache(j, tok, now, redisOk);
      if !redisOk {
        assert state.tasks == before;
        return false;
      }
      DeactivateSession(j, tok, now, updateOk);
      assert state.tasks == before;
      return updateOk;
    }

    /** refresh_access_token. */
    method RefreshAccessToken(prev: RefreshToken, userActive: bool, tok: Token, next: RefreshToken, now: Time,
                              redisOk: bool, deleteOk: bool) returns (answer: Option<(Token, RefreshToken)>)
      requires Valid() && Enabled(state, Refresh(prev), jwtExpiry) && state.clock <= now
      requires FreshToken(state, tok, now, jwtExpiry) && next.family == prev.family && next !in state.stored
      modifies this
      ensures Valid()
      ensures answer == if prev in old(refreshTokens) && userActive && redisOk &&
          deleteOk then Some((tok, next)) else None
      ensures answer.Some? ==> refreshTokens == old(refreshTokens) + {next} - {prev}
      ensures answer.Some? ==> state.redeemed == old(state.redeemed) + [(prev, next)]
      ensures forall x: Token, t: Time :: Verify(state, x, t) <==> Verify(old(state), x, t)
      ensures forall t: Time :: !Verify(state, tok, t)
      ensures state.tasks == old(state.tasks)
    {
      ghost var before, j := state.tasks, |state.tasks|;
      var found := FindRefreshToken(prev);
      if !found {
        return None;
      }
      StoreSuccessor(j, prev, tok, next, now, userActive && redisOk);
      if !(userActive && redisOk) {
        assert state.tasks == before;
        return None;
      }
      DeleteRefreshToken(j, prev, next, now, deleteOk);
      assert state.tasks == before;
      return if deleteOk then Some((tok, next)) else None;
    }
  }
}
