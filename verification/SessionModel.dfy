/**
 Refresh sessions: login, refresh-token rotation with reuse detection, tenant switch, logout,
 password reset and the nightly purge, as steps over the session table.

 One step is one request.  Ids and tokens are numbers; those a request makes up (session ids,
 refresh tokens, family ids, reset tokens) come with the step and have to be new.  A token
 stands for its own hash.
 */
module SessionModel {
  import opened Options

  type Id = nat
  type Token = nat

  datatype Provider = Entra

  datatype UserStatus = Active | Suspended | Inactive | Invited

  datatype User = User(status: UserStatus, deleted: bool)

  /** A row of auth_sessions; `serial` numbers the rows in the order they were created. */
  datatype Session = Session(serial: nat, sid: Id, tenant: Id, user: Id, family: Id,
                             expiresAt: int, revoked: bool, sso: Option<Provider>)

  datatype Reset = Reset(user: Id, expiresAt: int, used: bool)

  /** What a request makes up: the ids and the token of a session about to be created. */
  datatype Ids = Ids(sid: Id, token: Token, family: Id)

  datatype AuthMethod = Password | Sso

  /**
   The tables by token, then the history: sessions as created, tokens accepted, resets done,
   and the authentication method in the access token handed out with each session id.
   */
  datatype State = State(
    now: int,
    users: map<Id, User>,
    sessions: map<Token, Session>,
    resets: map<Token, Reset>,
    issued: map<Token, Session>,
    count: nat,
    accepted: seq<Token>,
    resetIssued: set<Token>,
    resetDone: seq<Token>,
    carried: map<Id, AuthMethod>)

  const INIT := State(0, map[], map[], map[], map[], 0, [], {}, [], map[])

  const ONE_DAY := 86400

  // ── The session repository ──────────────────────────────────────────────────

  datatype Filter = BySid(sid: Id) | ByFamily(family: Id) | ByUser(user: Id)

  predicate Selects(f: Filter, x: Session) {
    match f
    case BySid(sid) => x.sid == sid
    case ByFamily(family) => x.family == family
    case ByUser(user) => x.user == user
  }

  /** UPDATE auth_sessions SET is_revoked = true WHERE …: revokeById, revokeFamily, revokeAllForUser. */
  function RevokeWhere(sessions: map<Token, Session>, f: Filter): map<Token, Session> {
    map t | t in sessions :: if Selects(f, sessions[t]) then sessions[t].(revoked := true) else sessions[t]
  }

  /** DELETE … WHERE is_revoked AND expires_at < now - retention. */
  predicate Stale(x: Session, now: int, retention: nat) {
    x.revoked && x.expiresAt < now - retention
  }

  function PurgeSessions(sessions: map<Token, Session>, now: int, retention: nat): map<Token, Session> {
    map t | t in sessions && !Stale(sessions[t], now, retention) :: sessions[t]
  }

  /** DELETE FROM password_reset_tokens WHERE expires_at < now - 1 day. */
  function PurgeResets(resets: map<Token, Reset>, now: int): map<Token, Reset> {
    map t | t in resets && resets[t].expiresAt >= now - ONE_DAY :: resets[t]
  }

  ghost predicate FreshIn(issued: map<Token, Session>, ids: Ids) {
    && ids.token !in issued
    && forall t :: t in issued ==> issued[t].sid != ids.sid && issued[t].family != ids.family
  }

  ghost predicate FreshIds(s: State, ids: Ids) {
    FreshIn(s.issued, ids)
  }

  /** INSERT INTO auth_sessions, and the access token that goes with it. */
  function Create(s: State, ids: Ids, user: Id, tenant: Id, family: Id, ttl: nat, sso: Option<Provider>,
                  carries: AuthMethod): State {
    var x := Session(s.count, ids.sid, tenant, user, family, s.now + ttl, false, sso);
    s.(sessions := s.sessions[ids.token := x], issued := s.issued[ids.token := x], count := s.count + 1,
       carried := s.carried[ids.sid := carries])
  }

  /** `payload.authMethod ?? 'password'` of the access token for a session id. */
  function Carried(s: State, sid: Id): AuthMethod {
    if sid in s.carried then s.carried[sid] else Password
  }

  // ── Decisions ───────────────────────────────────────────────────────────────

  predicate Blocked(users: map<Id, User>, u: Id) {
    u !in users || users[u].deleted || users[u].status.Suspended? || users[u].status.Inactive?
  }

  /** Users who keep their sessions: `deletedAt` is null and the status is active or invited. */
  predicate InGoodStanding(users: map<Id, User>, u: Id) {
    u in users && !users[u].deleted && (users[u].status.Active? || users[u].status.Invited?)
  }

  datatype RefreshAnswer = NotFound | Reused | Expired | Deactivated | Rotated

  /** The checks of `refresh`, in their order. */
  function OnRefresh(s: State, token: Token): RefreshAnswer {
    if token !in s.sessions then NotFound
    else if s.sessions[token].revoked then Reused
    else if s.sessions[token].expiresAt < s.now then Expired
    else if Blocked(s.users, s.sessions[token].user) then Deactivated
    else Rotated
  }

  /** The method the access token of a rotation carries. */
  function MethodOf(x: Session): AuthMethod {
    if x.sso.Some? then Sso else Password
  }

  datatype ResetAnswer = Unknown | AlreadyUsed | TooLate | NoUser | Done

  /** The lookup only returns rows that have not expired by its own reading of the clock. */
  function FindReset(resets: map<Token, Reset>, token: Token, now: int): Option<Reset> {
    if token in resets && resets[token].expiresAt > now then Some(resets[token]) else None
  }

  /** The checks of `resetPassword`, in their order: the clock is read for the lookup and once more after it. */
  function ResetChecks(users: map<Id, User>, resets: map<Token, Reset>, token: Token, first: int,
                       second: int): ResetAnswer {
    match FindReset(resets, token, first)
    case None => Unknown
    case Some(r) =>
      if r.used then AlreadyUsed
      else if r.expiresAt < second then TooLate
      else if r.user !in users then NoUser
      else Done
  }

  function OnReset(s: State, token: Token): ResetAnswer {
    ResetChecks(s.users, s.resets, token, s.now, s.now)
  }

  // ── Requests ────────────────────────────────────────────────────────────────

  datatype Step =
    | Tick(elapsed: nat)
    | SetUser(u: Id, row: User)                               // created or changed by an administrator
    | Login(u: Id, passwordOk: bool, home: Option<Id>, ids: Ids, ttl: nat)
    | SignUp(u: Id, tenant: Id, ids: Ids, ttl: nat)
    | SsoLogin(u: Id, home: Option<Id>, ids: Ids, ttl: nat)
    | Refresh(token: Token, ids: Ids, ttl: nat)
    | SwitchTenant(sid: Id, u: Id, tenant: Id, member: bool, ids: Ids, ttl: nat)
    | Logout(sid: Id)
    | LogoutAll(u: Id)
    | ForgotPassword(u: Id, member: bool, token: Token, ttl: nat)
    | ResetPassword(token: Token)
    | Purge(retention: nat)

  predicate LoginAllowed(users: map<Id, User>, u: Id, passwordOk: bool, tenant: Option<Id>) {
    !Blocked(users, u) && !users[u].status.Invited? && passwordOk && tenant.Some?
  }

  /** A refused request changes nothing; `None` only when values that must be new are not. */
  ghost function Apply(s: State, step: Step): Option<State> {
    match step
    case Tick(elapsed) => Some(s.(now := s.now + elapsed))
    case SetUser(u, row) => Some(s.(users := s.users[u := row]))
    case Login(u, passwordOk, home, ids, ttl) =>
      if !FreshIds(s, ids) then None
      else if !LoginAllowed(s.users, u, passwordOk, home) then Some(s)
      else Some(Create(s, ids, u, home.value, ids.family, ttl, None, Password))
    case SignUp(u, tenant, ids, ttl) =>
      if !FreshIds(s, ids) then None
      else if u in s.users then Some(s)
      else Some(Create(s.(users := s.users[u := User(Active, false)]), ids, u, tenant, ids.family, ttl, None, Password))
    case SsoLogin(u, home, ids, ttl) =>
      if !FreshIds(s, ids) then None
      else if Blocked(s.users, u) || home.None? then Some(s)
      else Some(Create(s, ids, u, home.value, ids.family, ttl, Some(Entra), Sso))
    case Refresh(token, ids, ttl) =>
      if !FreshIds(s, ids) then None
      else if OnRefresh(s, token).Reused? then
        Some(s.(sessions := RevokeWhere(s.sessions, ByFamily(s.sessions[token].family))))
      else if OnRefresh(s, token).Rotated? then
        var x := s.sessions[token];
        Some(Create(s.(sessions := RevokeWhere(s.sessions, BySid(x.sid)), accepted := s.accepted + [token]),
                    ids, x.user, x.tenant, x.family, ttl, x.sso, MethodOf(x)))
      else Some(s)
    case SwitchTenant(sid, u, tenant, member, ids, ttl) =>
      if !FreshIds(s, ids) then None
      else if !member || Blocked(s.users, u) then Some(s)
      else Some(Create(s.(sessions := RevokeWhere(s.sessions, BySid(sid))), ids, u, tenant, ids.family, ttl, None,
                       Carried(s, sid)))
    case Logout(sid) => Some(s.(sessions := RevokeWhere(s.sessions, BySid(sid))))
    case LogoutAll(u) => Some(s.(sessions := RevokeWhere(s.sessions, ByUser(u))))
    case ForgotPassword(u, member, token, ttl) =>
      if token in s.resetIssued then None
      else if u !in s.users || s.users[u].deleted || !s.users[u].status.Active? || !member then Some(s)
      else Some(s.(resets := s.resets[token := Reset(u, s.now + ttl, false)], resetIssued := s.resetIssued + {token}))
    case ResetPassword(token) =>
      if !OnReset(s, token).Done? then Some(s)
      else Some(s.(
        resets := s.resets[token := s.resets[token].(used := true)],
        sessions := RevokeWhere(s.sessions, ByUser(s.resets[token].user)),
        resetDone := s.resetDone + [token]))
    case Purge(retention) => Some(s.(
        sessions := PurgeSessions(s.sessions, s.now, retention),
        resets := PurgeResets(s.resets, s.now)))
  }

  ghost function Exec(s: State, steps: seq<Step>): Option<State>
    decreases |steps|
  {
    if steps == [] then Some(s)
    else
      match Apply(s, steps[0])
      case None => None
      case Some(t) => Exec(t, steps[1..])
  }
}
