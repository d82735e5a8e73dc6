/** What each authentication operation achieves for sessions and streams. */
module SessionLife {
  import opened Prelude
  import opened AuthState

  // A login or a change of the credential takes effect at once and for exactly the time it
  // promises; whatever ends a session ends its streams.

  /** The token is that of a stored session. */
  predicate IsStored(s: Auth, token: string) {
    exists k :: 0 <= k < |s.sessions| && s.sessions[k].token == token
  }

  lemma StoredIff(s: Auth, token: string)
    ensures IsStored(s, token) <==> !FreshToken(s, token)
  {
  }

  /** The token is authentic from now on for exactly its time to live. */
  ghost predicate AuthenticUntil(s: Auth, token: string, expiresAt: int) {
    IsStored(s, token) && forall later: int :: IsAuthentic(s, Some(token), later) <==> later < expiresAt
  }

  lemma LastIsAuthentic(s: Auth, token: string, now: int, generation: nat, hash: string, limits: Limits)
    requires SessionsOk(s, limits) && s.passwordHash.Some? && FreshToken(s, token)
    ensures AuthenticUntil(Issue(s, token, now, generation, hash, limits), token, now + limits.sessionTtlMs)
  {
    RoomKeepsSessions(s, token, now, limits);
    IssuedIsLast(s, token, now, generation, hash, limits);
    StoredIff(Issue(s, token, now, generation, hash, limits), token);
  }

  /** The login in flight succeeds: its credential still holds, and the password was right. */
  predicate Succeeds(s: Auth, e: AuthEvent) {
    && e.LoginFinished? && e.verified && s.login.Some? && s.login.value.hash.Some?
    && s.login.value.generation == s.generation
  }

  /** A successful login issues a session that lasts its time to live, and leaves the credential alone. */
  lemma LoginIssues(s: Auth, e: AuthEvent, limits: Limits)
    requires AuthOk(s, limits) && AuthAdmissible(s, e) && Succeeds(s, e)
    ensures var t := AuthStep(s, e, limits);
      && AuthenticUntil(t, e.token, e.now + limits.sessionTtlMs)
      && t.login.None? && t.passwordHash == s.passwordHash && t.generation == s.generation
  {
    var settled := s.(login := None, failures := [], history := []);
    LastIsAuthentic(settled, e.token, e.now, s.login.value.generation, s.login.value.hash.value, limits);
  }

  /** Any other finish issues nothing. */
  lemma FailedLoginIssuesNothing(s: Auth, e: AuthEvent, limits: Limits)
    requires AuthOk(s, limits) && e.LoginFinished? && !Succeeds(s, e)
    ensures var t := AuthStep(s, e, limits);
      t.sessions == s.sessions && t.leases == s.leases && t.login.None?
  {
  }

  /** A new credential takes effect: no earlier session, no remembered failure, no stream is left. */
  lemma ActivationTakesEffect(s: Auth, e: AuthEvent, limits: Limits)
    requires AuthOk(s, limits) && e.Activated?
    ensures var t := AuthStep(s, e, limits);
      && t.passwordHash == e.passwordHash && t.generation == s.generation + 1
      && t.sessions == [] && t.failures == [] && t.login == s.login
      && |t.leases| == |s.leases|
      && forall id :: 0 <= id < |t.leases| && !t.leases[id].released ==> t.leases[id].aborted && !t.leases[id].armed
  {
    var t := AuthStep(s, e, limits);
    forall id | 0 <= id < |t.leases| && !t.leases[id].released ensures t.leases[id].aborted && !t.leases[id].armed {
      assert ListedIn(s.sessions, id) || EndedLease(s.leases[id]);
    }
  }

  /** The owner of a new password gets the one session, and a login in flight is superseded. */
  lemma UpdateIssues(s: Auth, e: AuthEvent, limits: Limits)
    requires AuthOk(s, limits) && AuthAdmissible(s, e) && e.UpdateFinished? && e.newHash.Some?
    ensures var t := AuthStep(s, e, limits);
      && t.passwordHash == e.newHash && |t.sessions| == 1
      && AuthenticUntil(t, e.token, e.now + limits.sessionTtlMs)
      && (t.login.Some? ==> Superseded(t, t.login.value))
  {
    RevokeAllKeepsSessions(s, e.newHash, limits);
    LastIsAuthentic(Activate(s, e.newHash), e.token, e.now, s.generation + 1, e.newHash.value, limits);
  }

  /** An expired or ended session is gone with its streams. */
  ghost predicate Gone(s: Auth, t: Auth, token: string) {
    && !IsStored(t, token)
    && |t.leases| == |s.leases|
    && forall id :: 0 <= id < |t.leases| && t.leases[id].token == token && !t.leases[id].released ==>
         t.leases[id].aborted && !t.leases[id].armed
  }

  lemma RevokedGone(s: Auth, token: string, limits: Limits)
    requires AuthOk(s, limits)
    ensures Gone(s, Revoke(s, token), token)
  {
    var t := Revoke(s, token);
    RevokedIsGone(s, token);
    StoredIff(t, token);
    RevokeKeepsOk(s, token, limits);
    forall id | 0 <= id < |t.leases| && t.leases[id].token == token && !t.leases[id].released
      ensures t.leases[id].aborted && !t.leases[id].armed
    {
      forall k | 0 <= k < |t.sessions| ensures id !in t.sessions[k].streams {
        assert StreamsOk(t.sessions[k], t.leases);
      }
    }
  }

  /** Presenting a token tells whether it is authentic, and ends its session otherwise. */
  lemma PresentedIs(s: Auth, e: AuthEvent, limits: Limits)
    requires AuthOk(s, limits) && e.Authenticated? && s.passwordHash.Some? && e.presented.Some?
    ensures var t := AuthStep(s, e, limits);
      if IsAuthentic(s, e.presented, e.now) then t == s else Gone(s, t, e.presented.value)
  {
    RevokedGone(s, e.presented.value, limits);
  }

  /** So does a logout, at any time, and the timer of a stream. */
  lemma LogoutEnds(s: Auth, e: AuthEvent, limits: Limits)
    requires AuthOk(s, limits)
    ensures e.LoggedOut? && e.presented.Some? ==> Gone(s, AuthStep(s, e, limits), e.presented.value)
    ensures e.TimerFired? && e.id < |s.leases| && s.leases[e.id].armed ==>
      Gone(s, AuthStep(s, e, limits), s.leases[e.id].token)
  {
    if e.LoggedOut? && e.presented.Some? {
      RevokedGone(s, e.presented.value, limits);
    } else if e.TimerFired? && e.id < |s.leases| {
      RevokedGone(s, s.leases[e.id].token, limits);
    }
  }

  /** An authentic token opens a stream that lives until its session ends or it is released. */
  lemma StreamOpens(s: Auth, e: AuthEvent, limits: Limits)
    requires AuthOk(s, limits) && e.StreamOpened? && s.passwordHash.Some? && e.presented.Some?
    requires IsAuthentic(s, e.presented, e.now)
    ensures var t := AuthStep(s, e, limits);
      var id := |s.leases|;
      && |t.leases| == id + 1 && t.leases[..id] == s.leases
      && t.leases[id].armed && !t.leases[id].aborted && !t.leases[id].released
      && t.leases[id].token == e.presented.value && ListedIn(t.sessions, id)
  {
    var i := SessionAt(s.sessions, e.presented.value);
    var t := AuthStep(s, e, limits);
    assert t.sessions[i].streams[|s.sessions[i].streams|] == |s.leases|;
  }

  /** Releasing a stream cancels its timer and takes it off its session; all others stay as they are. */
  lemma StreamReleases(s: Auth, e: AuthEvent, limits: Limits)
    requires AuthOk(s, limits) && e.StreamReleased? && e.id < |s.leases|
    ensures var t := AuthStep(s, e, limits);
      && |t.leases| == |s.leases| && t.leases[e.id].released && !t.leases[e.id].armed
      && (forall id :: 0 <= id < |s.leases| && id != e.id ==> t.leases[id] == s.leases[id])
      && t.leases[e.id].aborted == s.leases[e.id].aborted
      && !ListedIn(t.sessions, e.id)
      && |t.sessions| == |s.sessions|
      && forall k :: 0 <= k < |s.sessions| ==> t.sessions[k].token == s.sessions[k].token
  {
    var t := AuthStep(s, e, limits);
    ReleaseKeepsSessions(s, e.id, limits);
    forall k | 0 <= k < |t.sessions| ensures e.id !in t.sessions[k].streams {
      assert StreamsOk(t.sessions[k], t.leases);
    }
  }
}
