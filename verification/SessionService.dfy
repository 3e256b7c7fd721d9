/**
 The authentication service as it changes the tables, request by request.  Each method makes
 one step of the session model and gives the answer the model gives.
 */
module SessionService {
  import opened Options
  import opened SessionModel

  class AuthService {
    var now: int
    var users: map<Id, User>
    var sessions: map<Token, Session>
    var resets: map<Token, Reset>

    // the history
    ghost var issued: map<Token, Session>
    ghost var accepted: seq<Token>
    ghost var resetIssued: set<Token>
    ghost var resetDone: seq<Token>
    ghost var carried: map<Id, AuthMethod>
    // how many sessions were ever created; stands for created_at
    var count: nat

    ghost function View(): State
      reads this
    {
      State(now, users, sessions, resets, issued, count, accepted, resetIssued, resetDone, carried)
    }

    ghost predicate New(ids: Ids)
      reads this
    {
      FreshIds(View(), ids)
    }

    /** sessionRepo.create */
    method Insert(ids: Ids, user: Id, tenant: Id, family: Id, ttl: nat, sso: Option<Provider>, carries: AuthMethod)
      modifies this
      ensures View() == Create(old(View()), ids, user, tenant, family, ttl, sso, carries)
    {
      var row := Session(count, ids.sid, tenant, user, family, now + ttl, false, sso);
      sessions := sessions[ids.token := row];
      issued := issued[ids.token := row];
      count := count + 1;
      carried := carried[ids.sid := carries];
    }

    /** revokeById, revokeFamily, revokeAllForUser */
    method Revoke(f: Filter)
      modifies `sessions
      ensures sessions == RevokeWhere(old(sessions), f)
    {
      sessions := map t | t in sessions ::
        if Selects(f, sessions[t]) then sessions[t].(revoked := true) else sessions[t];
    }

    method Login(u: Id, passwordOk: bool, home: Option<Id>, ids: Ids, ttl: nat) returns (ok: bool)
      requires New(ids)
      modifies this
      ensures Apply(old(View()), SessionModel.Login(u, passwordOk, home, ids, ttl)) == Some(View())
      ensures ok == LoginAllowed(old(users), u, passwordOk, home)
    {
      if u !in users { return false; }
      var user := users[u];
      if user.deleted || user.status.Suspended? || user.status.Inactive? { return false; }
      if user.status.Invited? { return false; }
      if !passwordOk { return false; }
      match home {
        case None => return false;
        case Some(tenant) =>
          Insert(ids, u, tenant, ids.family, ttl, None, Password);
          return true;
      }
    }

    method Refresh(token: Token, ids: Ids, ttl: nat) returns (answer: RefreshAnswer, authMethod: Option<AuthMethod>)
      requires New(ids)
      modifies this
      ensures answer == OnRefresh(old(View()), token)
      ensures Apply(old(View()), SessionModel.Refresh(token, ids, ttl)) == Some(View())
      ensures authMethod == if answer.Rotated? then Some(MethodOf(old(sessions)[token])) else None
      ensures answer.Rotated? ==> ids.token in sessions && authMethod == Some(MethodOf(sessions[ids.token]))
    {
      authMethod := None;
      if token !in sessions { return NotFound, None; }
      var session := sessions[token];
      if session.revoked {
        Revoke(ByFamily(session.family));
        return Reused, None;
      }
      if session.expiresAt < now { return Expired, None; }
      if session.user !in users { return Deactivated, None; }
      var user := users[session.user];
      if user.deleted || user.status.Suspended? || user.status.Inactive? { return Deactivated, None; }
      Revoke(BySid(session.sid));
      accepted := accepted + [token];
      var sessionMethod := if session.sso.Some? then Sso else Password;
      Insert(ids, session.user, session.tenant, session.family, ttl, session.sso, sessionMethod);
      return Rotated, Some(sessionMethod);
    }

    /** `presented` is the method in the caller's access token. */
    method SwitchTenant(sid: Id, u: Id, tenant: Id, presented: AuthMethod, member: bool, ids: Ids, ttl: nat)
      returns (ok: bool)
      requires New(ids) && presented == Carried(View(), sid)
      modifies this
      ensures Apply(old(View()), SessionModel.SwitchTenant(sid, u, tenant, member, ids, ttl)) == Some(View())
      ensures ok <==> member && InGoodStanding(old(users), u)
      ensures ok ==>
                && sessions.Keys == old(sessions).Keys + {ids.token}
                && sessions[ids.token]
                   == Session(old(count), ids.sid, tenant, u, ids.family, old(now) + ttl, false, None)
                && (forall t :: t in old(sessions) && t != ids.token ==>
                      sessions[t] == if old(sessions)[t].sid == sid then old(sessions)[t].(revoked := true)
                                     else old(sessions)[t])
      ensures !ok ==> View() == old(View())
    {
      if !member { return false; }
      if u !in users { return false; }
      var user := users[u];
      if user.deleted || user.status.Suspended? || user.status.Inactive? { return false; }
      Revoke(BySid(sid));
      Insert(ids, u, tenant, ids.family, ttl, None, presented);
      return true;
    }

    method Logout(sid: Id)
      modifies this
      ensures Apply(old(View()), SessionModel.Logout(sid)) == Some(View())
      ensures sessions.Keys == old(sessions).Keys
      ensures forall t :: t in old(sessions) ==>
                sessions[t] == if old(sessions)[t].sid == sid then old(sessions)[t].(revoked := true)
                               else old(sessions)[t]
    {
      Revoke(BySid(sid));
    }

    method LogoutAll(u: Id)
      modifies this
      ensures Apply(old(View()), SessionModel.LogoutAll(u)) == Some(View())
      ensures sessions.Keys == old(sessions).Keys
      ensures forall t :: t in old(sessions) ==>
                sessions[t] == if old(sessions)[t].user == u then old(sessions)[t].(revoked := true)
                               else old(sessions)[t]
    {
      Revoke(ByUser(u));
    }

    method ResetPassword(token: Token) returns (answer: ResetAnswer)
      modifies this
      ensures answer == OnReset(old(View()), token)
      ensures Apply(old(View()), SessionModel.ResetPassword(token)) == Some(View())
      ensures answer.Done? <==>
                && token in old(resets)
                && old(now) < old(resets)[token].expiresAt
                && !old(resets)[token].used
                && old(resets)[token].user in old(users)
      ensures answer.Done? ==> resets == old(resets)[token := old(resets)[token].(used := true)]
      ensures answer.Done? ==>
                && sessions.Keys == old(sessions).Keys
                && forall t :: t in old(sessions) ==>
                     sessions[t] == if old(sessions)[t].user == old(resets)[token].user
                                    then old(sessions)[t].(revoked := true) else old(sessions)[t]
      ensures !answer.Done? ==> View() == old(View())
    {
      if token !in resets || resets[token].expiresAt <= now { return Unknown; }
      var record := resets[token];
      if record.used { return AlreadyUsed; }
      // the service compares expires_at once more here; see SessionTheorems.ExpiredResetLooksUnknown
      if record.user !in users { return NoUser; }
      resets := resets[token := record.(used := true)];
      Revoke(ByUser(record.user));
      resetDone := resetDone + [token];
      return Done;
    }

    /**
     The session and reset-token part of the nightly clean-up: a session goes once it is
     revoked and past its expiry by more than the retention, a reset token once it is past
     its expiry by more than a day.
     */
    method Purge(retention: nat)
      modifies this
      ensures Apply(old(View()), SessionModel.Purge(retention)) == Some(View())
      ensures forall t :: t in sessions <==>
                t in old(sessions) && (!old(sessions)[t].revoked || old(now) <= old(sessions)[t].expiresAt + retention)
      ensures forall t :: t in sessions ==> sessions[t] == old(sessions)[t]
      ensures forall t :: t in resets <==> t in old(resets) && old(now) <= old(resets)[t].expiresAt + 86400
      ensures forall t :: t in resets ==> resets[t] == old(resets)[t]
    {
      sessions := map t | t in sessions && !(sessions[t].revoked && sessions[t].expiresAt < now - retention) ::
        sessions[t];
      resets := map t | t in resets && !(resets[t].expiresAt < now - ONE_DAY) :: resets[t];
      assert sessions == PurgeSessions(old(sessions), now, retention);
      assert resets == PurgeResets(old(resets), now);
    }
  }
}
