/**
 * The auth service over its session and reset-token tables, updated in place.
 * Each request runs here without interruption; Sessions covers every
 * interleaving of the same statements.
 */
module SessionService {
  import opened Sums
  import S = Sessions
  import opened Sessions

  /** Every live session of the chain is revoked for the cause, so none is usable, and nothing else has changed. */
  ghost predicate ChainEnded(before: Db, chain: nat, cause: Cause, after: Db) {
    && AllRevoked(after.sessions, chain)
    && after == before.(sessions := after.sessions) && after.sessions.Keys == before.sessions.Keys
    && forall i :: i in before.sessions ==>
         after.sessions[i] == if before.sessions[i].chain == chain && before.sessions[i].revoked.None?
                              then before.sessions[i].(revoked := Some(Because(cause))) else before.sessions[i]
  }

  class Service {
    var sessions: map<nat, Session>
    var nextSession: nat
    var tokens: seq<ResetToken>
    ghost var redeemed: seq<nat>

    ghost function Snapshot(): Db
      reads this
    {
      Db(sessions, nextSession, [], tokens, redeemed)
    }

    ghost predicate Valid()
      reads this
    {
      Inv(Snapshot())
    }

    constructor ()
      ensures Valid() && Snapshot() == EmptyDb()
    {
      sessions, nextSession, tokens, redeemed := map[], 0, [], [];
    }

    /** The guarded UPDATE of one row; tells whether it took effect. */
    method RevokeOne(id: nat, reason: Reason) returns (affected: nat)
      modifies this`sessions
      ensures sessions == RevokeSession(old(sessions), id, reason)
      ensures affected == if id in old(sessions) && old(sessions)[id].revoked.None? then 1 else 0
    {
      affected := if id in sessions && sessions[id].revoked.None? then 1 else 0;
      sessions := RevokeSession(sessions, id, reason);
    }

    method OpenSession(user: int, expires: int) returns (id: nat)
      requires Valid()
      modifies this
      ensures Valid() && Snapshot() == Login(old(Snapshot()), user, expires)
      ensures id !in old(sessions) && sessions == old(sessions)[id := Session(user, id, None, 0, expires, None)]
    {
      LoginKeeps(Snapshot(), user, expires);
      id := nextSession;
      sessions := sessions[id := Session(user, id, None, 0, expires, None)];
      nextSession := nextSession + 1;
    }

    /**
     * A refresh mints the one usable session of its chain, exactly when the
     * token's session is live and not expired and its account is active. It
     * kills the chain when the token was rotated before or the account is
     * inactive, and otherwise changes nothing.
     */
    method Refresh(id: nat, now: int, active: bool) returns (r: Result<nat, RefreshAnswer>)
      requires Valid()
      modifies this
      ensures Valid()
      ensures r.Success? <==> id in old(sessions) && old(sessions)[id].revoked.None? && now <= old(sessions)[id].expires && active
      ensures id !in old(sessions) ==> r == Failure(TokenInvalid) && Snapshot() == old(Snapshot())
      ensures id in old(sessions) && old(sessions)[id].revoked.Some? ==>
                && r == Failure(TokenRevoked)
                && if old(sessions)[id].revoked == Some(Rotated) then ChainEnded(old(Snapshot()), old(sessions)[id].chain, ReuseDetected, Snapshot())
                   else Snapshot() == old(Snapshot())
      ensures id in old(sessions) && old(sessions)[id].revoked.None? && old(sessions)[id].expires < now ==>
                r == Failure(TokenExpired) && Snapshot() == old(Snapshot())
      ensures id in old(sessions) && old(sessions)[id].revoked.None? && now <= old(sessions)[id].expires && !active ==>
                r == Failure(AccountInactive) && ChainEnded(old(Snapshot()), old(sessions)[id].chain, UserDeactivated, Snapshot())
      ensures r.Success? ==>
                && r.value == old(nextSession) && RotatedInto(old(sessions), id, r.value, sessions)
                && forall j :: j in sessions && sessions[j].chain == sessions[r.value].chain && j != r.value ==> sessions[j].revoked.Some?
      ensures id in old(sessions) ==>
                var intent := IntentOf(id, old(sessions)[id], now, active);
                Snapshot() == if intent == [] then old(Snapshot()) else Act(old(Snapshot()), intent[0])
    {
      if id !in sessions { return Failure(TokenInvalid); }
      var row := sessions[id];
      if row.revoked.Some? {
        if row.revoked == Some(Rotated) {
          EndingKeeps(Snapshot(), Snapshot().(sessions := S.RevokeChain(sessions, row.chain, ReuseDetected)));
          sessions := S.RevokeChain(sessions, row.chain, ReuseDetected);
        }
        return Failure(TokenRevoked);
      }
      if row.expires < now { return Failure(TokenExpired); }
      if !active {
        EndingKeeps(Snapshot(), Snapshot().(sessions := S.RevokeChain(sessions, row.chain, UserDeactivated)));
        sessions := S.RevokeChain(sessions, row.chain, UserDeactivated);
        return Failure(AccountInactive);
      }
      RotateKeeps(Snapshot(), id, row);
      RotatedTables(Snapshot(), id, row);
      var affected := RevokeOne(id, Rotated);
      if affected == 0 { return Failure(TokenRevoked); }
      var child := nextSession;
      sessions := sessions[child := Session(row.user, row.chain, Some(id), row.counter + 1, row.expires, None)];
      nextSession := nextSession + 1;
      forall j | j in sessions && sessions[j].chain == sessions[child].chain && j != child
        ensures sessions[j].revoked.Some?
      {
        OneLiveOf(sessions, child, j);
      }
      r := Success(child);
    }

    /** Signing out kills the presented chain, or every login of the user, and the current session. */
    method Logout(current: Option<nat>, token: Option<nat>, everywhere: Option<int>)
      requires Valid()
      modifies this
      ensures Valid()
      ensures everywhere.Some? ==> forall i :: i in sessions && sessions[i].user == everywhere.value ==> sessions[i].revoked.Some?
      ensures everywhere.None? && token.Some? && token.value in old(sessions) ==> AllRevoked(sessions, old(sessions)[token.value].chain)
      ensures current.Some? && current.value in sessions ==> sessions[current.value].revoked.Some?
      ensures OnlyEnds(old(sessions), sessions)
      ensures forall i :: i in old(sessions) && sessions[i] != old(sessions)[i] ==>
                sessions[i].revoked == Some(Because(if everywhere.Some? then LogoutAll else S.Logout))
      ensures forall i :: i in old(sessions) && current != Some(i)
                          && !(everywhere.Some? && old(sessions)[i].user == everywhere.value)
                          && !(everywhere.None? && token.Some? && token.value in old(sessions) && old(sessions)[i].chain == old(sessions)[token.value].chain)
                          ==> sessions[i] == old(sessions)[i]
      ensures nextSession == old(nextSession) && tokens == old(tokens) && redeemed == old(redeemed)
    {
      var cause := if everywhere.Some? then LogoutAll else S.Logout;
      ghost var before := Snapshot();
      if everywhere.Some? {
        sessions := S.RevokeUser(sessions, everywhere.value, cause);
      } else if token.Some? && token.value in sessions {
        sessions := S.RevokeChain(sessions, sessions[token.value].chain, cause);
      }
      EndingKeeps(before, Snapshot());
      ghost var middle := sessions;
      if current.Some? && current.value in sessions {
        ghost var between := Snapshot();
        var _ := RevokeOne(current.value, Because(cause));
        EndingKeeps(between, Snapshot());
      }
      assert forall i :: i in before.sessions ==> Ended(before.sessions[i], middle[i]) && Ended(middle[i], sessions[i]);
    }

    method ChangePassword(user: int)
      requires Valid()
      modifies this
      ensures Valid() && Snapshot() == S.ChangePassword(old(Snapshot()), user)
      ensures forall i :: i in sessions && sessions[i].user == user ==> sessions[i].revoked.Some?
      ensures forall t :: 0 <= t < |tokens| && tokens[t].user == user ==> tokens[t].used
    {
      ghost var before := Snapshot();
      sessions := S.RevokeUser(sessions, user, PasswordChanged);
      tokens := InvalidateTokens(tokens, user);
      EndingKeeps(before, Snapshot());
    }

    /** The links a user asked for before stop working. */
    method RequestPasswordReset(user: int, expires: int) returns (token: nat)
      requires Valid()
      modifies this
      ensures Valid() && Snapshot() == RequestReset(old(Snapshot()), user, expires)
      ensures token == |old(tokens)| < |tokens| && tokens[token] == ResetToken(user, expires, false)
      ensures forall t :: 0 <= t < |tokens| && tokens[t].user == user && t != token ==> tokens[t].used
    {
      StepKeeps(Snapshot(), Forgot(user, expires));
      token := |tokens|;
      tokens := InvalidateTokens(tokens, user) + [ResetToken(user, expires, false)];
    }

    /** Single use and expiry are the guard of one UPDATE. */
    method ResetPassword(token: nat, now: int) returns (ok: bool)
      requires Valid()
      modifies this
      ensures Valid() && Snapshot() == S.ResetPassword(old(Snapshot()), token, now)
      ensures ok <==> token < |old(tokens)| && !old(tokens)[token].used && now < old(tokens)[token].expires
      ensures ok ==> !CanRedeem(Snapshot(), token, now)
      ensures ok ==> forall i :: i in sessions && sessions[i].user == tokens[token].user ==> sessions[i].revoked.Some?
    {
      if token >= |tokens| || tokens[token].used || tokens[token].expires <= now { return false; }
      ghost var before := Snapshot();
      tokens := tokens[token := tokens[token].(used := true)];
      redeemed := redeemed + [token];
      sessions := S.RevokeUser(sessions, tokens[token].user, PasswordChanged);
      EndingKeeps(before, Snapshot());
      ok := true;
    }

    method PurgeExpired(cutoff: int)
      requires Valid()
      modifies this`sessions
      ensures Valid() && sessions == Purge(old(sessions), cutoff)
      ensures forall i :: i in sessions <==> i in old(sessions) && old(sessions)[i].expires >= cutoff
      ensures forall i :: i in sessions ==> sessions[i] == old(sessions)[i]
    {
      PurgeKeeps(Snapshot(), cutoff);
      PurgedTables(sessions, cutoff);
      sessions := Purge(sessions, cutoff);
    }
  }
}
