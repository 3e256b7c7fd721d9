/**
 What the nightly purge changes.  At once: no token's acceptability.  Later: nothing, as long
 as no deleted token is presented; a deleted token is merely unknown, so presenting it no
 longer counts as reuse and no longer revokes its family.
 */
module SessionPurge {
  import opened Options
  import opened SessionModel
  import opened SessionTheorems

  /** `p` is `s` with some revoked sessions and some expired reset tokens deleted. */
  ghost predicate Purged(s: State, p: State) {
    && p == s.(sessions := p.sessions, resets := p.resets)
    && SessionsPurged(s.sessions, p.sessions)
    && ResetsPurged(s.now, s.resets, p.resets)
  }

  ghost predicate SessionsPurged(full: map<Token, Session>, kept: map<Token, Session>) {
    && (forall t :: t in kept ==> t in full && kept[t] == full[t])
    && (forall t :: Live(full, t) ==> t in kept)
  }

  ghost predicate ResetsPurged(now: int, full: map<Token, Reset>, kept: map<Token, Reset>) {
    && (forall t :: t in kept ==> t in full && kept[t] == full[t])
    && (forall t :: t in full && full[t].expiresAt > now ==> t in kept)
  }

  /** The request does not present a token whose row was deleted. */
  ghost predicate Avoids(s: State, p: State, step: Step) {
    step.Refresh? ==> (step.token in s.sessions <==> step.token in p.sessions)
  }

  lemma PurgeIsPurged(s: State, retention: nat)
    ensures Purged(s, Apply(s, Purge(retention)).value)
  {
  }

  lemma AnswersAgree(s: State, p: State, t: Token)
    requires Purged(s, p)
    ensures OnRefresh(s, t).Rotated? <==> OnRefresh(p, t).Rotated?
    ensures (t in s.sessions <==> t in p.sessions) ==> OnRefresh(s, t) == OnRefresh(p, t)
    ensures OnReset(s, t) == OnReset(p, t)
  {
    assert Live(s.sessions, t) <==> Live(p.sessions, t);
  }

  /** The purge changes no refresh token's acceptability, and no answer to a password reset. */
  lemma PurgeChangesNoAcceptance(s: State, retention: nat, t: Token)
    ensures var p := Apply(s, Purge(retention)).value;
            && (OnRefresh(p, t).Rotated? <==> OnRefresh(s, t).Rotated?)
            && OnReset(p, t) == OnReset(s, t)
  {
    PurgeIsPurged(s, retention);
    AnswersAgree(s, Apply(s, Purge(retention)).value, t);
  }

  lemma RevokePurged(full: map<Token, Session>, kept: map<Token, Session>, f: Filter)
    requires SessionsPurged(full, kept)
    ensures SessionsPurged(RevokeWhere(full, f), RevokeWhere(kept, f))
  {
    RevokeIsFewer(full, f);
  }

  lemma CreatePurged(s: State, p: State, ids: Ids, user: Id, tenant: Id, family: Id, ttl: nat, sso: Option<Provider>,
                     carries: AuthMethod)
    requires Purged(s, p)
    ensures Purged(Create(s, ids, user, tenant, family, ttl, sso, carries),
                   Create(p, ids, user, tenant, family, ttl, sso, carries))
  {
    var x := Session(s.count, ids.sid, tenant, user, family, s.now + ttl, false, sso);
    var full, kept := s.sessions[ids.token := x], p.sessions[ids.token := x];
    assert SessionsPurged(full, kept) by {
      assert forall t :: t != ids.token ==> Live(full, t) == Live(s.sessions, t);
    }
  }

  lemma RefreshKeepsPurged(s: State, p: State, token: Token, ids: Ids, ttl: nat)
    requires Purged(s, p) && (token in s.sessions <==> token in p.sessions) && FreshIds(s, ids)
    ensures Purged(Apply(s, Refresh(token, ids, ttl)).value, Apply(p, Refresh(token, ids, ttl)).value)
  {
    AnswersAgree(s, p, token);
    if OnRefresh(s, token).Reused? {
      RevokePurged(s.sessions, p.sessions, ByFamily(s.sessions[token].family));
    } else if OnRefresh(s, token).Rotated? {
      var x := s.sessions[token];
      RevokePurged(s.sessions, p.sessions, BySid(x.sid));
      CreatePurged(s.(sessions := RevokeWhere(s.sessions, BySid(x.sid)), accepted := s.accepted + [token]),
                   p.(sessions := RevokeWhere(p.sessions, BySid(x.sid)), accepted := p.accepted + [token]),
                   ids, x.user, x.tenant, x.family, ttl, x.sso, MethodOf(x));
    }
  }

  lemma ResetKeepsPurged(s: State, p: State, token: Token)
    requires Purged(s, p)
    ensures Purged(Apply(s, ResetPassword(token)).value, Apply(p, ResetPassword(token)).value)
  {
    AnswersAgree(s, p, token);
    if OnReset(s, token).Done? {
      RevokePurged(s.sessions, p.sessions, ByUser(s.resets[token].user));
    }
  }

  lemma OpeningKeepsPurged(s: State, p: State, step: Step)
    requires Purged(s, p) && (step.Login? || step.SignUp? || step.SsoLogin? || step.SwitchTenant?) && Apply(s, step).Some?
    ensures Apply(p, step).Some? && Purged(Apply(s, step).value, Apply(p, step).value)
  {
    match step
    case Login(u, passwordOk, home, ids, ttl) =>
      if home.Some? { CreatePurged(s, p, ids, u, home.value, ids.family, ttl, None, Password); }
    case SignUp(u, tenant, ids, ttl) =>
      var users := s.users[u := User(Active, false)];
      CreatePurged(s.(users := users), p.(users := users), ids, u, tenant, ids.family, ttl, None, Password);
    case SsoLogin(u, home, ids, ttl) =>
      if home.Some? { CreatePurged(s, p, ids, u, home.value, ids.family, ttl, Some(Entra), Sso); }
    case SwitchTenant(sid, u, tenant, member, ids, ttl) =>
      RevokePurged(s.sessions, p.sessions, BySid(sid));
      CreatePurged(s.(sessions := RevokeWhere(s.sessions, BySid(sid))), p.(sessions := RevokeWhere(p.sessions, BySid(sid))),
                   ids, u, tenant, ids.family, ttl, None, Carried(s, sid));
  }

  lemma PurgeKeepsPurged(s: State, p: State, retention: nat)
    requires Purged(s, p)
    ensures Purged(Apply(s, Purge(retention)).value, Apply(p, Purge(retention)).value)
  {
    var full, kept := PurgeSessions(s.sessions, s.now, retention), PurgeSessions(p.sessions, p.now, retention);
    assert SessionsPurged(full, kept) by {
      assert forall t :: Live(full, t) ==> Live(s.sessions, t);
    }
  }

  /** A request that presents no deleted token leaves the two tables apart only as before. */
  lemma StepKeepsPurged(s: State, p: State, step: Step)
    requires Purged(s, p) && Avoids(s, p, step)
    ensures Apply(s, step).Some? <==> Apply(p, step).Some?
    ensures Apply(s, step).Some? ==> Purged(Apply(s, step).value, Apply(p, step).value)
  {
    if Apply(s, step).Some? {
      match step
      case Refresh(token, ids, ttl) => RefreshKeepsPurged(s, p, token, ids, ttl);
      case Logout(sid) => RevokePurged(s.sessions, p.sessions, BySid(sid));
      case LogoutAll(u) => RevokePurged(s.sessions, p.sessions, ByUser(u));
      case ResetPassword(token) => ResetKeepsPurged(s, p, token);
      case Purge(retention) => PurgeKeepsPurged(s, p, retention);
      case Tick(_) =>
      case SetUser(_, _) =>
      case ForgotPassword(_, _, _, _) =>
      case _ => OpeningKeepsPurged(s, p, step);
    }
  }

  lemma RefreshKeepsGap(s: State, p: State, token: Token, ids: Ids, ttl: nat, t: Token)
    requires Purged(s, p) && (token in s.sessions <==> token in p.sessions) && FreshIds(s, ids)
    requires t in s.sessions <==> t in p.sessions
    ensures t in Apply(s, Refresh(token, ids, ttl)).value.sessions
            <==> t in Apply(p, Refresh(token, ids, ttl)).value.sessions
  {
    AnswersAgree(s, p, token);
  }

  lemma RevokingStepKeepsGap(s: State, p: State, step: Step, t: Token)
    requires step.ResetPassword? || step.Logout? || step.LogoutAll? || step.SwitchTenant? || step.Purge?
    requires Purged(s, p) && Apply(s, step).Some? && Apply(p, step).Some?
    requires t in s.sessions <==> t in p.sessions
    ensures t in Apply(s, step).value.sessions <==> t in Apply(p, step).value.sessions
  {
    if step.ResetPassword? { AnswersAgree(s, p, step.token); }
  }

  /** Deleted tokens stay deleted, kept ones are deleted on both sides or on neither. */
  lemma StepKeepsGap(s: State, p: State, step: Step, t: Token)
    requires Purged(s, p) && Avoids(s, p, step) && Apply(s, step).Some? && Apply(p, step).Some?
    requires t in s.sessions <==> t in p.sessions
    ensures t in Apply(s, step).value.sessions <==> t in Apply(p, step).value.sessions
  {
    if step.Refresh? {
      RefreshKeepsGap(s, p, step.token, step.ids, step.ttl, t);
    } else if step.ResetPassword? || step.Logout? || step.LogoutAll? || step.SwitchTenant? || step.Purge? {
      RevokingStepKeepsGap(s, p, step, t);
    } else {
      PlainStepKeepsGap(s, p, step, t);
    }
  }

  lemma PlainStepKeepsGap(s: State, p: State, step: Step, t: Token)
    requires step.Tick? || step.SetUser? || step.Login? || step.SignUp? || step.SsoLogin? || step.ForgotPassword?
    requires Purged(s, p) && Apply(s, step).Some? && Apply(p, step).Some?
    requires t in s.sessions <==> t in p.sessions
    ensures t in Apply(s, step).value.sessions <==> t in Apply(p, step).value.sessions
  {
  }

  ghost predicate SameAcceptance(s: State, p: State) {
    forall t :: OnRefresh(s, t).Rotated? <==> OnRefresh(p, t).Rotated?
  }

  lemma PurgedAcceptsTheSame(s: State, p: State)
    requires Purged(s, p)
    ensures SameAcceptance(s, p)
  {
    forall t ensures OnRefresh(s, t).Rotated? <==> OnRefresh(p, t).Rotated? {
      AnswersAgree(s, p, t);
    }
  }

  ghost predicate AvoidsAll(s: State, p: State, steps: seq<Step>) {
    forall i :: 0 <= i < |steps| ==> Avoids(s, p, steps[i])
  }

  /**
   From a purged table and from the unpurged one, the same later requests are possible and
   have the same live sessions and accepted tokens, as long as none presents a deleted token;
   and whatever is presented then, deleted or not, is accepted on both sides or on neither.
   */
  lemma {:induction false} FutureUnaffected(s: State, p: State, steps: seq<Step>)
    requires Purged(s, p) && AvoidsAll(s, p, steps)
    ensures Exec(s, steps).Some? <==> Exec(p, steps).Some?
    ensures Exec(s, steps).Some? ==> Purged(Exec(s, steps).value, Exec(p, steps).value)
    ensures Exec(s, steps).Some? ==> SameAcceptance(Exec(s, steps).value, Exec(p, steps).value)
    decreases |steps|
  {
    if steps == [] {
      PurgedAcceptsTheSame(s, p);
    } else {
      StepKeepsPurged(s, p, steps[0]);
      if Apply(s, steps[0]).Some? {
        var s', p' := Apply(s, steps[0]).value, Apply(p, steps[0]).value;
        forall i | 0 <= i < |steps| - 1 ensures Avoids(s', p', steps[1..][i]) {
          assert Avoids(s, p, steps[i + 1]);
          if steps[i + 1].Refresh? { StepKeepsGap(s, p, steps[0], steps[i + 1].token); }
        }
        FutureUnaffected(s', p', steps[1..]);
      }
    }
  }

  // ── The deleted token that is presented after all ───────────────────────────

  /** The purge forgets that the token was ever issued, while its family is still in use. */
  ghost predicate ForgetsReuse(s: State, retention: nat, token: Token) {
    && token in s.sessions && Stale(s.sessions[token], s.now, retention)
    && exists u :: Live(s.sessions, u) && s.sessions[u].family == s.sessions[token].family
  }

  function LiveTokens(s: State): set<Token> {
    set t | t in s.sessions && !s.sessions[t].revoked
  }

  lemma PurgeKeepsLive(s: State, retention: nat)
    ensures LiveTokens(Apply(s, Purge(retention)).value) == LiveTokens(s)
  {
  }

  /**
   A token presented after the purge leaves the same sessions alive as one presented before
   it, exactly unless the purge deletes it while its family has a live session.
   */
  lemma PurgeAndReplayCommute(s: State, retention: nat, token: Token, ids: Ids, ttl: nat)
    requires Inv(s) && FreshIds(s, ids)
    ensures var replayedThenPurged := Apply(Apply(s, Refresh(token, ids, ttl)).value, Purge(retention)).value;
            var purgedThenReplayed := Apply(Apply(s, Purge(retention)).value, Refresh(token, ids, ttl)).value;
            LiveTokens(replayedThenPurged) == LiveTokens(purgedThenReplayed) <==> !ForgetsReuse(s, retention, token)
  {
    var p := Apply(s, Purge(retention)).value;
    var replayed := Apply(s, Refresh(token, ids, ttl)).value;
    PurgeKeepsLive(replayed, retention);
    PurgeIsPurged(s, retention);
    if token in s.sessions && Stale(s.sessions[token], s.now, retention) {
      StaleReplay(s, p, token, ids, ttl);
    } else {
      StepKeepsPurged(s, p, Refresh(token, ids, ttl));
      var after := Apply(p, Refresh(token, ids, ttl)).value;
      assert forall t :: t in LiveTokens(replayed) <==> Live(replayed.sessions, t);
      assert forall t :: t in LiveTokens(after) <==> Live(after.sessions, t);
    }
  }

  lemma StaleReplay(s: State, p: State, token: Token, ids: Ids, ttl: nat)
    requires Purged(s, p) && FreshIds(s, ids)
    requires token in s.sessions && s.sessions[token].revoked && token !in p.sessions
    ensures var replayed := Apply(s, Refresh(token, ids, ttl)).value;
            var missed := Apply(p, Refresh(token, ids, ttl)).value;
            LiveTokens(replayed) == LiveTokens(missed)
            <==> !exists u :: Live(s.sessions, u) && s.sessions[u].family == s.sessions[token].family
  {
    var family := s.sessions[token].family;
    var replayed := Apply(s, Refresh(token, ids, ttl)).value;
    RevokeIsFewer(s.sessions, ByFamily(family));
    assert Apply(p, Refresh(token, ids, ttl)) == Some(p);
    assert forall t :: t in LiveTokens(p) <==> Live(s.sessions, t);
    assert forall t :: t in LiveTokens(replayed) <==> Live(s.sessions, t) && s.sessions[t].family != family;
  }

  // ── A run that gets there ───────────────────────────────────────────────────

  const DAY: nat := 86400

  /** A login for a day, rotated at once into a session for thirty days; nine days later. */
  const STALE := Session(0, 1, 7, 5, 3, DAY, true, None)
  const NEXT := Session(1, 2, 7, 5, 3, 30 * DAY, false, None)

  const ROTATED := State(9 * DAY, map[5 := User(Active, false)], map[11 := STALE, 12 := NEXT], map[],
                         map[11 := STALE.(revoked := false), 12 := NEXT], 2, [11], {}, [],
                         map[1 := Password, 2 := Password])

  lemma LoggedInIsReachable()
    ensures Reachable(LOGGED_IN)
  {
    var active := INIT.(users := map[5 := User(Active, false)]);
    assert Exec(INIT, []) == Some(INIT);
    ReachableStep(INIT, SetUser(5, User(Active, false)), active);
    ReachableStep(active, Login(5, true, Some(7), Ids(1, 11, 3), DAY), LOGGED_IN);
  }

  const LOGGED_IN := State(0, map[5 := User(Active, false)], map[11 := STALE.(revoked := false)], map[],
                           map[11 := STALE.(revoked := false)], 1, [], {}, [], map[1 := Password])

  lemma RotatedIsReachable()
    ensures Reachable(ROTATED)
  {
    LoggedInIsReachable();
    assert FreshIds(LOGGED_IN, Ids(2, 12, 4)) && OnRefresh(LOGGED_IN, 11).Rotated?;
    assert RevokeWhere(LOGGED_IN.sessions, BySid(1)) == map[11 := STALE];
    var mid := LOGGED_IN.(sessions := map[11 := STALE], accepted := LOGGED_IN.accepted + [11]);
    assert mid.accepted == [11];
    var made := Create(mid, Ids(2, 12, 4), 5, 7, 3, 30 * DAY, None, Password);
    assert made.sessions == map[11 := STALE][12 := NEXT] == ROTATED.sessions;
    assert made.issued == LOGGED_IN.issued[12 := NEXT] == ROTATED.issued;
    assert made.carried == ROTATED.carried;
    assert made == ROTATED.(now := 0);
    ReachableStep(LOGGED_IN, Refresh(11, Ids(2, 12, 4), 30 * DAY), made);
    ReachableStep(made, Tick(9 * DAY), ROTATED);
  }

  /** After the weekly purge, presenting the rotated-out token leaves its family's live session alive. */
  lemma PurgedTokenIsNoReuse() returns (s: State, token: Token)
    ensures Reachable(s) && OnRefresh(s, token).Reused?
    ensures ForgetsReuse(s, 7 * DAY, token)
    ensures OnRefresh(Apply(s, Purge(7 * DAY)).value, token).NotFound?
  {
    RotatedIsReachable();
    s, token := ROTATED, 11;
    assert Live(s.sessions, 12) && s.sessions[12].family == s.sessions[11].family;
  }
}
