/**
 Sessions, revocation and refresh rotation, one store operation at a time.  Memory (the
 session cache and the blacklist) is lost on a restart; the sessions table and Redis are not.
 */
module AuthModel {
  import opened Prelude

  /** An access token; `signed` says whether it carries this service's signature. */
  datatype Token = Token(jti: nat, exp: Time, signed: bool)

  /** A refresh token; `family` is the login it descends from. */
  datatype RefreshToken = RefreshToken(family: nat, serial: nat)

  /** A row of the sessions table, found by the hash of its token. */
  datatype Row = Row(active: bool, expires: Time)

  /** Where a coroutine stands between two store operations. */
  datatype Task =
    | LoginStoring(tok: Token, rt: RefreshToken)   // tokens generated, refresh token not yet in Redis
    | LoginInserting(tok: Token)                   // session row not yet inserted
    | LoginCaching(tok: Token)                     // row inserted, coroutine not yet resumed
    | RevokeMarking(tok: Token)                    // blacklisted in memory, Redis not yet told
    | RevokeUpdating(tok: Token)                   // out of the cache, row not yet deactivated
    | RefreshFound(prev: RefreshToken)              // the old refresh token was in Redis
    | RefreshStored(prev: RefreshToken, next: RefreshToken)  // successor in Redis, old one not yet deleted

  datatype Auth = Auth(
    clock: Time,
    cache: set<Token>,
    blacklist: set<Token>,
    rows: map<Token, Row>,
    live: set<RefreshToken>,                       // refresh_token:* keys in Redis
    tasks: seq<Task>,
    minted: set<Token>,                            // history: access tokens ever generated
    refreshed: set<Token>,                         // history: those generated by refresh_access_token
    completed: set<Token>,                         // history: revoke_token ran to its end
    stored: set<RefreshToken>,                     // history: refresh tokens ever put in Redis
    expired: set<RefreshToken>,                    // history: refresh tokens Redis dropped
    redeemed: seq<(RefreshToken, RefreshToken)>,   // history: old token and successor of each answered refresh
    logins: nat)

  const START := Auth(0.0, {}, {}, map[], {}, [], {}, {}, {}, {}, {}, [], 0)

  datatype Event =
    | Login(tok: Token, rt: RefreshToken, now: Time)       // credentials accepted, tokens generated
    | Revoke(tok: Token)
    | Refresh(prev: RefreshToken)
    // the next operation of task j, and tokens it may generate
    | Go(j: nat, now: Time, ok: bool, tok: Token, rt: RefreshToken)
    | Expire(rt: RefreshToken)
    | Restart

  /** verify_token. */
  predicate Verify(s: Auth, tok: Token, now: Time) {
    && tok !in s.blacklist
    && tok.signed && now < tok.exp
    && (tok in s.cache || (tok in s.rows && s.rows[tok].active && s.rows[tok].expires > now))
  }

  /** exp as jwt.encode writes it: whole seconds. */
  predicate FreshToken(s: Auth, tok: Token, now: Time, expiry: Time) {
    tok !in s.minted && tok.signed && tok.exp == (now + expiry).Floor as real
  }

  /** The token is not yet known outside the service. */
  predicate Secret(s: Auth, tok: Token) {
    exists t <- s.tasks :: (t.LoginStoring? || t.LoginInserting? || t.LoginCaching?) && t.tok == tok
  }

  predicate SecretRefresh(s: Auth, rt: RefreshToken) {
    exists t <- s.tasks :: (t.LoginStoring? && t.rt == rt) || (t.RefreshStored? && t.next == rt)
  }

  /** Clients present only what they were given or made up; generated tokens are unguessable. */
  predicate Enabled(s: Auth, e: Event, expiry: Time) {
    match e
    case Login(tok, rt, now) =>
      s.clock <= now && FreshToken(s, tok, now, expiry) && rt.family == s.logins
    case Revoke(tok) => !Secret(s, tok) && (tok.signed ==> tok in s.minted)
    case Refresh(prev) => !SecretRefresh(s, prev)
    case Go(j, now, ok, tok, rt) =>
      && j < |s.tasks| && s.clock <= now
      && (s.tasks[j].RefreshFound? ==>
            FreshToken(s, tok, now, expiry) && rt.family == s.tasks[j].prev.family && rt !in s.stored)
    case Expire(rt) => rt in s.live
    case Restart => true
  }

  function Apply(s: Auth, e: Event, expiry: Time): Auth
    requires Enabled(s, e, expiry)
  {
    match e
    case Login(tok, rt, now) =>
      s.(clock := now, minted := s.minted + {tok}, logins := s.logins + 1, tasks := s.tasks + [LoginStoring(tok, rt)])
    case Revoke(tok) => s.(blacklist := s.blacklist + {tok}, tasks := s.tasks + [RevokeMarking(tok)])
    case Refresh(prev) => if prev in s.live then s.(tasks := s.tasks + [RefreshFound(prev)]) else s
    case Go(j, now, ok, tok, rt) =>
      var s1 := s.(clock := now);
      if ok then Advance(s1, j, tok, rt, expiry) else s1.(tasks := RemoveAt(s.tasks, j))
    case Expire(rt) => s.(live := s.live - {rt}, expired := s.expired + {rt})
    case Restart => s.(cache := {}, blacklist := {}, tasks := [])
  }

  function Advance(s: Auth, j: nat, tok: Token, rt: RefreshToken, expiry: Time): Auth
    requires j < |s.tasks|
  {
    match s.tasks[j]
    case LoginStoring(t, r) =>
      s.(live := s.live + {r}, stored := s.stored + {r}, tasks := s.tasks[j := LoginInserting(t)])
    case LoginInserting(t) =>
      s.(rows := s.rows[t := Row(true, s.clock + expiry)], tasks := s.tasks[j := LoginCaching(t)])
    case LoginCaching(t) => s.(cache := s.cache + {t}, tasks := RemoveAt(s.tasks, j))
    case RevokeMarking(t) => s.(cache := s.cache - {t}, tasks := s.tasks[j := RevokeUpdating(t)])
    case RevokeUpdating(t) =>
      s.(rows := if t in s.rows then s.rows[t := s.rows[t].(active := false)] else s.rows,
         completed := s.completed + {t},
         tasks := RemoveAt(s.tasks, j))
    case RefreshFound(prev) =>
      s.(live := s.live + {rt}, stored := s.stored + {rt}, minted := s.minted + {tok}, refreshed := s.refreshed + {tok},
         tasks := s.tasks[j := RefreshStored(prev, rt)])
    case RefreshStored(prev, next) =>
      s.(live := s.live - {prev}, redeemed := s.redeemed + [(prev, next)], tasks := RemoveAt(s.tasks, j))
  }

  ghost predicate Run(s: Auth, es: seq<Event>, expiry: Time)
    decreases |es|
  {
    es == [] || (Enabled(s, es[0], expiry) && Run(Apply(s, es[0], expiry), es[1..], expiry))
  }

  ghost function End(s: Auth, es: seq<Event>, expiry: Time): Auth
    requires Run(s, es, expiry)
    decreases |es|
  {
    if es == [] then s else End(Apply(s, es[0], expiry), es[1..], expiry)
  }
}
