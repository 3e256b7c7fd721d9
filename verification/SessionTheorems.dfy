/** What holds of refresh sessions in every run of requests. */
module SessionTheorems {
  import opened Options
  import opened SessionModel

  predicate Live(sessions: map<Token, Session>, t: Token) {
    t in sessions && !sessions[t].revoked
  }

  // ── The invariant ───────────────────────────────────────────────────────────

  /** Rows are what was once created, but for the revoked flag. */
  ghost predicate RowsIssued(sessions: map<Token, Session>, issued: map<Token, Session>) {
    forall t :: t in sessions ==> t in issued && issued[t] == sessions[t].(revoked := false)
  }

  ghost predicate SerialsOk(issued: map<Token, Session>, count: nat) {
    && (forall t :: t in issued ==> issued[t].serial < count)
    && (forall t, u :: t in issued && u in issued && t != u ==>
          issued[t].serial != issued[u].serial && issued[t].sid != issued[u].sid)
  }

  /** No session of the family was created after `x`. */
  ghost predicate Newest(issued: map<Token, Session>, x: Session) {
    forall u :: u in issued && issued[u].family == x.family ==> issued[u].serial <= x.serial
  }

  /** A live session is the newest of its family. */
  ghost predicate LiveIsNewest(sessions: map<Token, Session>, issued: map<Token, Session>) {
    forall t :: Live(sessions, t) ==> Newest(issued, sessions[t])
  }

  ghost predicate Alike(x: Session, y: Session) {
    x.user == y.user && x.tenant == y.tenant && x.sso == y.sso
  }

  ghost predicate Homogeneous(issued: map<Token, Session>) {
    forall t, u :: t in issued && u in issued && issued[t].family == issued[u].family ==> Alike(issued[t], issued[u])
  }

  ghost predicate NoDup<T>(xs: seq<T>) {
    forall i, j :: 0 <= i < j < |xs| ==> xs[i] != xs[j]
  }

  ghost predicate AcceptedSpent(accepted: seq<Token>, sessions: map<Token, Session>, issued: map<Token, Session>) {
    && NoDup(accepted)
    && forall t :: t in accepted ==> t in issued && !Live(sessions, t)
  }

  ghost predicate ResetsOk(resets: map<Token, Reset>, issued: set<Token>, done: seq<Token>) {
    && resets.Keys <= issued
    && NoDup(done)
    && forall t :: t in done ==> t in issued && (t in resets ==> resets[t].used)
  }

  ghost predicate SessionsOk(sessions: map<Token, Session>, issued: map<Token, Session>, count: nat,
                             accepted: seq<Token>) {
    && RowsIssued(sessions, issued)
    && SerialsOk(issued, count)
    && LiveIsNewest(sessions, issued)
    && Homogeneous(issued)
    && AcceptedSpent(accepted, sessions, issued)
  }

  ghost predicate Inv(s: State) {
    && SessionsOk(s.sessions, s.issued, s.count, s.accepted)
    && ResetsOk(s.resets, s.resetIssued, s.resetDone)
  }

  /** Rows are only revoked or deleted. */
  ghost predicate Fewer(before: map<Token, Session>, after: map<Token, Session>) {
    forall t :: t in after ==>
      t in before && (after[t] == before[t] || after[t] == before[t].(revoked := true))
  }

  lemma FewerKeeps(before: map<Token, Session>, after: map<Token, Session>, issued: map<Token, Session>, count: nat,
                   accepted: seq<Token>)
    requires SessionsOk(before, issued, count, accepted) && Fewer(before, after)
    ensures SessionsOk(after, issued, count, accepted)
  {
    forall t | Live(after, t) ensures Newest(issued, after[t]) {
      assert Live(before, t) && after[t] == before[t];
    }
    forall t | t in accepted ensures t in issued && !Live(after, t) {
      assert !Live(before, t);
    }
  }

  /** A new session, in a new family or as the next one of a family that has no live session. */
  ghost predicate MayCreate(sessions: map<Token, Session>, issued: map<Token, Session>, x: Session, token: Token) {
    && token !in issued
    && (forall t :: t in issued ==> issued[t].sid != x.sid)
    && (forall t :: t in issued && issued[t].family == x.family ==> !Live(sessions, t) && Alike(issued[t], x))
  }

  lemma CreateKeeps(sessions: map<Token, Session>, issued: map<Token, Session>, count: nat, accepted: seq<Token>,
                    x: Session, token: Token)
    requires SessionsOk(sessions, issued, count, accepted) && MayCreate(sessions, issued, x, token)
    requires x.serial == count && !x.revoked
    ensures SessionsOk(sessions[token := x], issued[token := x], count + 1, accepted)
  {
    var after, known := sessions[token := x], issued[token := x];
    forall t | Live(after, t) ensures Newest(known, after[t]) {
      if t != token {
        assert Live(sessions, t);
        assert Newest(issued, sessions[t]) && issued[t].family == after[t].family;
      }
    }
    forall t | t in accepted ensures t in known && !Live(after, t) {
      assert !Live(sessions, t);
    }
  }

  /** A session in a new family. */
  lemma NewFamilyKeeps(sessions: map<Token, Session>, issued: map<Token, Session>, count: nat, accepted: seq<Token>,
                       x: Session, ids: Ids)
    requires SessionsOk(sessions, issued, count, accepted) && FreshIn(issued, ids)
    requires x.sid == ids.sid && x.family == ids.family && x.serial == count && !x.revoked
    ensures SessionsOk(sessions[ids.token := x], issued[ids.token := x], count + 1, accepted)
  {
    CreateKeeps(sessions, issued, count, accepted, x, ids.token);
  }

  lemma OpeningKeeps(s: State, ids: Ids, user: Id, tenant: Id, ttl: nat, sso: Option<Provider>, carries: AuthMethod)
    requires Inv(s) && FreshIds(s, ids)
    ensures Inv(Create(s, ids, user, tenant, ids.family, ttl, sso, carries))
  {
    var x := Session(s.count, ids.sid, tenant, user, ids.family, s.now + ttl, false, sso);
    NewFamilyKeeps(s.sessions, s.issued, s.count, s.accepted, x, ids);
    var after := Create(s, ids, user, tenant, ids.family, ttl, sso, carries);
    assert after.sessions == s.sessions[ids.token := x] && after.issued == s.issued[ids.token := x];
    Together(s, after);
  }

  lemma RevokeIsFewer(sessions: map<Token, Session>, f: Filter)
    ensures Fewer(sessions, RevokeWhere(sessions, f))
    ensures forall t :: Live(RevokeWhere(sessions, f), t) <==> Live(sessions, t) && !Selects(f, sessions[t])
  {
  }

  lemma RevokeKeeps(s: State, f: Filter)
    requires Inv(s)
    ensures Inv(s.(sessions := RevokeWhere(s.sessions, f)))
  {
    RevokeIsFewer(s.sessions, f);
    FewerKeeps(s.sessions, RevokeWhere(s.sessions, f), s.issued, s.count, s.accepted);
  }

  /** After the old session of a rotation is revoked, its family has no live session left. */
  lemma RotationEmptiesFamily(s: State, token: Token, t: Token)
    requires SessionsOk(s.sessions, s.issued, s.count, s.accepted) && Live(s.sessions, token)
    requires t in s.issued && s.issued[t].family == s.sessions[token].family
    ensures !Live(RevokeWhere(s.sessions, BySid(s.sessions[token].sid)), t)
  {
    RevokeIsFewer(s.sessions, BySid(s.sessions[token].sid));
    if t != token && Live(s.sessions, t) {
      assert false;
    }
  }

  lemma AcceptKeeps(sessions: map<Token, Session>, issued: map<Token, Session>, count: nat, accepted: seq<Token>,
                    token: Token)
    requires SessionsOk(sessions, issued, count, accepted)
    requires token in issued && token !in accepted && !Live(sessions, token)
    ensures SessionsOk(sessions, issued, count, accepted + [token])
  {
  }

  /** What the INSERT of a rotation adds may follow the session that was just revoked. */
  lemma RotationMayCreate(s: State, token: Token, ids: Ids, next: Session)
    requires Inv(s) && FreshIds(s, ids) && Live(s.sessions, token)
    requires next.sid == ids.sid && next.family == s.sessions[token].family && Alike(next, s.sessions[token])
    ensures MayCreate(RevokeWhere(s.sessions, BySid(s.sessions[token].sid)), s.issued, next, ids.token)
  {
    var rest := RevokeWhere(s.sessions, BySid(s.sessions[token].sid));
    forall t | t in s.issued && s.issued[t].family == next.family
      ensures !Live(rest, t) && Alike(s.issued[t], next)
    {
      RotationEmptiesFamily(s, token, t);
      assert Alike(s.issued[t], s.issued[token]);
    }
  }

  lemma RotationSessions(s: State, token: Token, ids: Ids, next: Session)
    requires Inv(s) && FreshIds(s, ids) && Live(s.sessions, token)
    requires next.sid == ids.sid && next.family == s.sessions[token].family && Alike(next, s.sessions[token])
    requires next.serial == s.count && !next.revoked
    ensures SessionsOk(RevokeWhere(s.sessions, BySid(s.sessions[token].sid))[ids.token := next],
                       s.issued[ids.token := next], s.count + 1, s.accepted + [token])
  {
    var sid := s.sessions[token].sid;
    var rest := RevokeWhere(s.sessions, BySid(sid));
    RevokeIsFewer(s.sessions, BySid(sid));
    FewerKeeps(s.sessions, rest, s.issued, s.count, s.accepted);
    AcceptKeeps(rest, s.issued, s.count, s.accepted, token);
    RotationMayCreate(s, token, ids, next);
    CreateKeeps(rest, s.issued, s.count, s.accepted + [token], next, ids.token);
  }

  lemma RotationKeeps(s: State, token: Token, ids: Ids, ttl: nat)
    requires Inv(s) && FreshIds(s, ids) && OnRefresh(s, token).Rotated?
    ensures Inv(Apply(s, Refresh(token, ids, ttl)).value)
  {
    var x := s.sessions[token];
    var next := Session(s.count, ids.sid, x.tenant, x.user, x.family, s.now + ttl, false, x.sso);
    RotationSessions(s, token, ids, next);
    var after := Apply(s, Refresh(token, ids, ttl)).value;
    assert after.sessions == RevokeWhere(s.sessions, BySid(x.sid))[ids.token := next];
    assert after.issued == s.issued[ids.token := next];
    Together(s, after);
  }

  lemma Together(s: State, t: State)
    requires SessionsOk(t.sessions, t.issued, t.count, t.accepted) && Inv(s)
    requires t.resets == s.resets && t.resetIssued == s.resetIssued && t.resetDone == s.resetDone
    ensures Inv(t)
  {
  }

  lemma PurgeKeeps(s: State, retention: nat)
    requires Inv(s)
    ensures Inv(Apply(s, Purge(retention)).value)
  {
    FewerKeeps(s.sessions, PurgeSessions(s.sessions, s.now, retention), s.issued, s.count, s.accepted);
  }

  lemma StepKeepsInv(s: State, step: Step)
    requires Inv(s) && Apply(s, step).Some?
    ensures Inv(Apply(s, step).value)
  {
    match step
    case Login(u, passwordOk, home, ids, ttl) =>
      if LoginAllowed(s.users, u, passwordOk, home) { OpeningKeeps(s, ids, u, home.value, ttl, None, Password); }
    case SignUp(u, tenant, ids, ttl) =>
      OpeningKeeps(s.(users := s.users[u := User(Active, false)]), ids, u, tenant, ttl, None, Password);
    case SsoLogin(u, home, ids, ttl) =>
      if !Blocked(s.users, u) && home.Some? { OpeningKeeps(s, ids, u, home.value, ttl, Some(Entra), Sso); }
    case Refresh(token, ids, ttl) =>
      if OnRefresh(s, token).Rotated? { RotationKeeps(s, token, ids, ttl); }
      else if OnRefresh(s, token).Reused? { RevokeKeeps(s, ByFamily(s.sessions[token].family)); }
    case SwitchTenant(sid, u, tenant, member, ids, ttl) =>
      if member && !Blocked(s.users, u) {
        RevokeKeeps(s, BySid(sid));
        OpeningKeeps(s.(sessions := RevokeWhere(s.sessions, BySid(sid))), ids, u, tenant, ttl, None, Carried(s, sid));
      }
    case Logout(sid) => RevokeKeeps(s, BySid(sid));
    case LogoutAll(u) => RevokeKeeps(s, ByUser(u));
    case ResetPassword(token) =>
      if OnReset(s, token).Done? { RevokeKeeps(s, ByUser(s.resets[token].user)); }
    case Purge(retention) => PurgeKeeps(s, retention);
    case _ =>
  }

  lemma {:induction false} RunKeepsInv(s: State, steps: seq<Step>)
    requires Inv(s) && Exec(s, steps).Some?
    ensures Inv(Exec(s, steps).value)
    decreases |steps|
  {
    if steps != [] {
      StepKeepsInv(s, steps[0]);
      RunKeepsInv(Apply(s, steps[0]).value, steps[1..]);
    }
  }

  ghost predicate Reachable(s: State) {
    exists steps :: Exec(INIT, steps) == Some(s)
  }

  lemma ReachableInv(s: State)
    requires Reachable(s)
    ensures Inv(s)
  {
    var steps :| Exec(INIT, steps) == Some(s);
    RunKeepsInv(INIT, steps);
  }

  // ── Rotation ────────────────────────────────────────────────────────────────

  /** A family has at most one unrevoked session. */
  lemma OneLiveSessionPerFamily(s: State, t: Token, u: Token)
    requires Reachable(s) && Live(s.sessions, t) && Live(s.sessions, u)
    requires s.sessions[t].family == s.sessions[u].family
    ensures t == u
  {
    ReachableInv(s);
    assert Newest(s.issued, s.sessions[t]) && Newest(s.issued, s.sessions[u]);
  }

  /** Only the newest token of a family is accepted, and no token is accepted twice. */
  lemma OnlyTheNewestTokenOnce(s: State, token: Token)
    requires Reachable(s) && OnRefresh(s, token).Rotated?
    ensures token !in s.accepted && NoDup(s.accepted)
    ensures Newest(s.issued, s.sessions[token])
  {
    ReachableInv(s);
    assert Live(s.sessions, token);
  }

  /**
   Every session of a family has the same user, tenant and SSO provider, so every rotation in
   it answers with the same authentication method.
   */
  lemma FamilyIsHomogeneous(s: State, t: Token, u: Token)
    requires Reachable(s) && t in s.sessions && u in s.sessions && s.sessions[t].family == s.sessions[u].family
    ensures s.sessions[t].user == s.sessions[u].user && s.sessions[t].tenant == s.sessions[u].tenant
    ensures MethodOf(s.sessions[t]) == MethodOf(s.sessions[u])
  {
    ReachableInv(s);
    assert Alike(s.issued[t], s.issued[u]);
  }

  lemma {:induction false} IssuedForever(s: State, steps: seq<Step>, t: Token)
    requires Exec(s, steps).Some? && t in s.issued
    ensures t in Exec(s, steps).value.issued && Exec(s, steps).value.issued[t] == s.issued[t]
    decreases |steps|
  {
    if steps != [] {
      IssuedStays(s, steps[0], t);
      IssuedForever(Apply(s, steps[0]).value, steps[1..], t);
    }
  }

  /** The method with which a session's next rotation answers. */
  function Answers(s: State, t: Token): AuthMethod
    requires t in s.sessions
  {
    MethodOf(s.sessions[t])
  }

  /** A login, an SSO login and a rotation hand out the method that the session's own rotations will answer with. */
  lemma OtherwiseTheMethodIsKept(s: State, step: Step, t: Token)
    requires (step.Login? || step.SignUp? || step.SsoLogin? || step.Refresh?) && Apply(s, step).Some?
    requires t in Apply(s, step).value.sessions && t !in s.sessions
    ensures var after := Apply(s, step).value; Carried(after, after.sessions[t].sid) == Answers(after, t)
  {
  }

  /**
   A tenant switch hands out the method of the caller's access token but opens a session
   without SSO provider.  After any later requests, the rotations of the new family answer
   with the caller's method exactly if that was 'password'.
   */
  lemma SwitchKeepsPasswordOnly(s: State, switch: Step, later: seq<Step>, t: Token)
    requires Reachable(s) && switch.SwitchTenant? && FreshIds(s, switch.ids)
    requires switch.member && !Blocked(s.users, switch.u)
    requires Exec(Apply(s, switch).value, later).Some?
    requires var after := Exec(Apply(s, switch).value, later).value;
             t in after.sessions && after.sessions[t].family == switch.ids.family
    ensures Carried(Apply(s, switch).value, switch.ids.sid) == Carried(s, switch.sid)
    ensures var after := Exec(Apply(s, switch).value, later).value;
            Answers(after, t) == Carried(s, switch.sid) <==> Carried(s, switch.sid) == Password
  {
    ReachableInv(s);
    var mid := Apply(s, switch).value;
    var after := Exec(mid, later).value;
    StepKeepsInv(s, switch);
    RunKeepsInv(mid, later);
    IssuedForever(mid, later, switch.ids.token);
    assert Alike(after.issued[t], after.issued[switch.ids.token]);
  }

  lemma ReachableStep(s: State, step: Step, t: State)
    requires Reachable(s) && Apply(s, step) == Some(t)
    ensures Reachable(t)
  {
    var steps :| Exec(INIT, steps) == Some(s);
    ExecSnoc(INIT, steps, step);
    assert Exec(INIT, steps + [step]) == Some(t);
  }

  lemma {:induction false} ExecSnoc(s: State, steps: seq<Step>, step: Step)
    requires Exec(s, steps).Some?
    ensures Exec(s, steps + [step]) == Apply(Exec(s, steps).value, step)
    decreases |steps|
  {
    if steps == [] {
      assert [] + [step] == [step] && [step][1..] == [];
    } else {
      assert (steps + [step])[1..] == steps[1..] + [step];
      ExecSnoc(Apply(s, steps[0]).value, steps[1..], step);
    }
  }

  /** An SSO user whose session is, after a switch, refreshed as a password session. */
  lemma SsoCallerBecomesPassword() returns (s: State, switch: Step)
    ensures Reachable(s) && switch.SwitchTenant? && FreshIds(s, switch.ids)
    ensures switch.member && !Blocked(s.users, switch.u) && Carried(s, switch.sid) == Sso
    ensures var t := Apply(s, switch).value;
            OnRefresh(t, switch.ids.token).Rotated? && Answers(t, switch.ids.token) == Password
  {
    var active := INIT.(users := map[5 := User(Active, false)]);
    assert Exec(INIT, []) == Some(INIT);
    ReachableStep(INIT, SetUser(5, User(Active, false)), active);
    assert active.issued == map[] && !Blocked(active.users, 5);
    s := Create(active, Ids(1, 11, 3), 5, 7, 3, 2592000, Some(Entra), Sso);
    ReachableStep(active, SsoLogin(5, Some(7), Ids(1, 11, 3), 2592000), s);
    switch := SwitchTenant(1, 5, 8, true, Ids(2, 12, 4), 2592000);
  }

  // ── Tokens that are spent, families that are dead ───────────────────────────

  /** Issued at some time, and not (or no longer) backed by an unrevoked row. */
  ghost predicate Spent(s: State, t: Token) {
    t in s.issued && !Live(s.sessions, t)
  }

  ghost predicate Dead(s: State, family: Id) {
    && (exists t :: t in s.issued && s.issued[t].family == family)
    && (forall t :: t in s.issued && s.issued[t].family == family ==> Spent(s, t))
  }

  lemma StepKeepsSpent(s: State, step: Step, t: Token)
    requires Apply(s, step).Some? && Spent(s, t)
    ensures Spent(Apply(s, step).value, t)
  {
  }

  /** What a request adds to the sessions ever issued: at most one, in a new family or in that of the token it rotates. */
  lemma NewTokenFamily(s: State, step: Step, t: Token)
    requires RowsIssued(s.sessions, s.issued) && Apply(s, step).Some?
    requires t in Apply(s, step).value.issued && t !in s.issued
    ensures var family := Apply(s, step).value.issued[t].family;
            || (step.Refresh? && Live(s.sessions, step.token) && step.token in s.issued && s.issued[step.token].family == family)
            || forall u :: u in s.issued ==> s.issued[u].family != family
  {
  }

  lemma IssuedStays(s: State, step: Step, t: Token)
    requires Apply(s, step).Some? && t in s.issued
    ensures t in Apply(s, step).value.issued && Apply(s, step).value.issued[t] == s.issued[t]
  {
  }

  lemma StepKeepsDead(s: State, step: Step, family: Id)
    requires Inv(s) && Apply(s, step).Some? && Dead(s, family)
    ensures Dead(Apply(s, step).value, family)
  {
    var after := Apply(s, step).value;
    var one :| one in s.issued && s.issued[one].family == family;
    IssuedStays(s, step, one);
    forall t | t in after.issued && after.issued[t].family == family ensures Spent(after, t) {
      if t in s.issued {
        IssuedStays(s, step, t);
        StepKeepsSpent(s, step, t);
      } else {
        NewTokenFamily(s, step, t);
        assert false;
      }
    }
  }

  /** A spent token is never accepted again, whatever happens. */
  lemma {:induction false} SpentForever(s: State, steps: seq<Step>, t: Token)
    requires Exec(s, steps).Some? && Spent(s, t)
    ensures var after := Exec(s, steps).value;
            Spent(after, t) && !OnRefresh(after, t).Rotated?
    decreases |steps|
  {
    if steps != [] {
      StepKeepsSpent(s, steps[0], t);
      SpentForever(Apply(s, steps[0]).value, steps[1..], t);
    }
  }

  /** A dead family stays dead: no token of it, old or new, is accepted again. */
  lemma {:induction false} DeadForever(s: State, steps: seq<Step>, family: Id)
    requires Inv(s) && Exec(s, steps).Some? && Dead(s, family)
    ensures var after := Exec(s, steps).value;
            forall t :: t in after.issued && after.issued[t].family == family ==> !OnRefresh(after, t).Rotated?
    decreases |steps|
  {
    if steps != [] {
      StepKeepsDead(s, steps[0], family);
      StepKeepsInv(s, steps[0]);
      DeadForever(Apply(s, steps[0]).value, steps[1..], family);
    }
  }

  /** Replaying a revoked token kills its family for good. */
  lemma ReplayKillsTheFamily(s: State, token: Token, ids: Ids, ttl: nat, later: seq<Step>)
    requires Reachable(s) && FreshIds(s, ids) && OnRefresh(s, token).Reused?
    requires Exec(Apply(s, Refresh(token, ids, ttl)).value, later).Some?
    ensures var after := Exec(Apply(s, Refresh(token, ids, ttl)).value, later).value;
            forall t :: t in after.issued && after.issued[t].family == s.sessions[token].family ==>
              !OnRefresh(after, t).Rotated?
  {
    ReachableInv(s);
    var family := s.sessions[token].family;
    var killed := Apply(s, Refresh(token, ids, ttl)).value;
    StepKeepsInv(s, Refresh(token, ids, ttl));
    assert killed.issued[token].family == family;
    forall t | t in killed.issued && killed.issued[t].family == family ensures Spent(killed, t) {
      if t in s.sessions {
        assert Selects(ByFamily(family), s.sessions[t]);
      }
    }
    DeadForever(killed, later, family);
  }

  /** The requests that end a session: its own logout or tenant switch, and whatever ends all sessions of its user. */
  ghost predicate Ends(s: State, step: Step, x: Session) {
    || step == Logout(x.sid)
    || (step.SwitchTenant? && step.sid == x.sid && step.member && InGoodStanding(s.users, step.u))
    || step == LogoutAll(x.user)
    || (step.ResetPassword? && OnReset(s, step.token).Done? && s.resets[step.token].user == x.user)
  }

  /**
   After a logout, a tenant switch, a logout from all devices or a password reset, no refresh
   token of the sessions it ends is ever accepted again, in whichever tenant.
   */
  lemma NoEarlierTokenSurvives(s: State, step: Step, later: seq<Step>, t: Token)
    requires Reachable(s) && t in s.issued && Ends(s, step, s.issued[t]) && Apply(s, step).Some?
    requires Exec(Apply(s, step).value, later).Some?
    ensures !OnRefresh(Exec(Apply(s, step).value, later).value, t).Rotated?
  {
    ReachableInv(s);
    var after := Apply(s, step).value;
    if t in s.sessions {
      assert s.sessions[t].sid == s.issued[t].sid && s.sessions[t].user == s.issued[t].user;
      assert Selects(BySid(s.issued[t].sid), s.sessions[t]) && Selects(ByUser(s.issued[t].user), s.sessions[t]);
    }
    SpentForever(after, later, t);
  }

  // ── How long a token is accepted ────────────────────────────────────────────

  /** What the table has to hold for a token to be accepted. */
  lemma AcceptedIff(s: State, token: Token)
    ensures OnRefresh(s, token).Rotated? <==>
              && token in s.sessions
              && !s.sessions[token].revoked
              && s.now <= s.sessions[token].expiresAt
              && InGoodStanding(s.users, s.sessions[token].user)
  {
  }

  /** The request opens a session with this token and time to live. */
  ghost predicate Opens(s: State, step: Step, token: Token, ttl: nat) {
    && (step.Login? || step.SignUp? || step.SsoLogin? || step.Refresh? || step.SwitchTenant?)
    && step.ids.token == token
    && step.ttl == ttl
    && Apply(s, step).Some?
    && token !in s.issued
    && token in Apply(s, step).value.issued
  }

  lemma OpensAtNow(s: State, step: Step, token: Token, ttl: nat)
    requires Opens(s, step, token, ttl)
    ensures var after := Apply(s, step).value;
            && after.issued[token].expiresAt == s.now + ttl
            && token in after.sessions && after.sessions[token] == after.issued[token]
            && !after.sessions[token].revoked
            && after.now == s.now && InGoodStanding(after.users, after.sessions[token].user)
  {
  }

  /** A token is never accepted once its time to live is over, whatever happened in between. */
  lemma NeverAcceptedPastExpiry(s: State, step: Step, token: Token, ttl: nat, later: seq<Step>)
    requires Reachable(s) && Opens(s, step, token, ttl)
    requires Exec(Apply(s, step).value, later).Some?
    ensures var after := Exec(Apply(s, step).value, later).value;
            after.now > s.now + ttl ==> !OnRefresh(after, token).Rotated?
  {
    ReachableInv(s);
    OpensAtNow(s, step, token, ttl);
    var start := Apply(s, step).value;
    StepKeepsInv(s, step);
    RunKeepsInv(start, later);
    IssuedForever(start, later, token);
    var after := Exec(start, later).value;
    assert token in after.sessions ==> after.sessions[token].expiresAt == after.issued[token].expiresAt;
  }

  /** Left alone, a token is accepted as long as its time to live lasts, and no longer. */
  lemma AcceptedUntilExpiry(s: State, step: Step, token: Token, ttl: nat, elapsed: nat)
    requires Opens(s, step, token, ttl)
    ensures var after := Exec(Apply(s, step).value, [Tick(elapsed)]);
            after.Some? && (OnRefresh(after.value, token).Rotated? <==> elapsed <= ttl)
  {
    OpensAtNow(s, step, token, ttl);
    var start := Apply(s, step).value;
    assert [Tick(elapsed)][1..] == [];
    assert Exec(start, [Tick(elapsed)]) == Some(start.(now := start.now + elapsed));
  }

  // ── Password resets ─────────────────────────────────────────────────────────

  /** A reset token works at most once. */
  lemma ResetTokenWorksOnce(s: State, token: Token)
    requires Reachable(s)
    ensures NoDup(s.resetDone)
    ensures OnReset(s, token).Done? ==> token !in s.resetDone
  {
    ReachableInv(s);
  }

  /** A reset token is stored for an active member only, and left alone it works until it expires. */
  lemma ResetTokenWorksUntilExpiry(s: State, u: Id, member: bool, token: Token, ttl: nat, elapsed: nat)
    requires Reachable(s) && token !in s.resetIssued
    ensures var after := Exec(s, [ForgotPassword(u, member, token, ttl), Tick(elapsed)]);
            after.Some?
            && (OnReset(after.value, token).Done? <==>
                  member && InGoodStanding(s.users, u) && !s.users[u].status.Invited? && elapsed < ttl)
  {
    ReachableInv(s);
    var mid := Apply(s, ForgotPassword(u, member, token, ttl)).value;
    var steps := [ForgotPassword(u, member, token, ttl), Tick(elapsed)];
    assert steps[1..] == [Tick(elapsed)] && [Tick(elapsed)][1..] == [];
    assert Exec(mid, [Tick(elapsed)]) == Some(mid.(now := mid.now + elapsed));
    assert token !in s.resets;
  }

  /**
   The "expired" answer is given exactly to an unused token that expires between the two
   readings of the clock; one that had expired before is answered as unknown.
   */
  lemma ExpiredResetLooksUnknown(users: map<Id, User>, resets: map<Token, Reset>, token: Token, first: int, second: int)
    requires first <= second
    ensures ResetChecks(users, resets, token, first, second).TooLate?
            <==> token in resets && !resets[token].used && first < resets[token].expiresAt < second
    ensures ResetChecks(users, resets, token, first, second).Unknown?
            <==> token !in resets || resets[token].expiresAt <= first
  {
  }
}
