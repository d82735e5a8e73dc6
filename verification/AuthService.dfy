/**
 `ServerAuthService`: the object itself, with its fields updated step by step. Each
 method is proved to perform the corresponding transition of module AuthState.
 */
module AuthService {
  import opened Prelude
  import opened AuthState

  datatype LoginOutcome = Waiting | RateLimited(retryAfterSeconds: int) | Verifying

  datatype IssuedSession = Denied | IssuedSession(token: string, expiresAt: int)

  lemma AbortedTwice(leases: seq<Lease>, gone: seq<Stored>, e: Stored)
    ensures Aborted(Aborted(leases, gone), [e]) == Aborted(leases, gone + [e])
  {
    forall id | 0 <= id < |leases|
      ensures ListedIn(gone + [e], id) <==> ListedIn(gone, id) || ListedIn([e], id)
    {
      if ListedIn(gone, id) {
        var k :| 0 <= k < |gone| && id in gone[k].streams;
        assert id in (gone + [e])[k].streams;
      }
      if ListedIn([e], id) {
        assert id in (gone + [e])[|gone|].streams;
      }
    }
  }

  lemma NoneAborted(leases: seq<Lease>)
    ensures Aborted(leases, []) == leases
  {
  }

  lemma OpenKeepsOk(s: Auth, token: Option<string>, now: int, limits: Limits)
    requires AuthOk(s, limits) && limits.maxLoginFailures >= 1
    ensures AuthOk(OpenStream(s, token, now), limits)
  {
    OpenKeepsSessions(s, token, now, limits);
  }

  /** The first session with a token is the one at hand. */
  lemma SessionAtIs(sessions: seq<Stored>, i: nat)
    requires DistinctTokens(sessions) && i < |sessions|
    ensures SessionAt(sessions, sessions[i].token) == i
  {
  }

  /** Revoking a session that is at hand takes out just that one. */
  lemma RevokeIs(s: Auth, kept: seq<Stored>, e: Stored, rest: seq<Stored>)
    requires DistinctTokens(s.sessions) && s.sessions == kept + ([e] + rest)
    ensures Revoke(s, e.token) == s.(sessions := kept + rest, leases := Aborted(s.leases, [e]))
  {
    assert s.sessions[|kept|] == e;
    SessionAtIs(s.sessions, |kept|);
    assert s.sessions[..|kept|] == kept && s.sessions[|kept| + 1..] == rest;
  }

  /** Revoking the oldest remaining session, when those before it are gone. */
  lemma RevokeHead(s: Auth, leases: seq<Lease>, all: seq<Stored>, k: nat)
    requires DistinctTokens(s.sessions) && k < |all| && s.sessions == all[k..]
    requires s.leases == Aborted(leases, all[..k])
    ensures Revoke(s, all[k].token) == s.(sessions := all[k + 1..], leases := Aborted(leases, all[..k + 1]))
  {
    assert s.sessions == [] + ([all[k]] + all[k + 1..]);
    RevokeIs(s, [], all[k], all[k + 1..]);
    AbortedTwice(leases, all[..k], all[k]);
    assert all[..k + 1] == all[..k] + [all[k]];
    assert [] + all[k + 1..] == all[k + 1..];
  }

  lemma ExpiryStep(all: seq<Stored>, k: nat, now: int)
    requires k < |all|
    ensures var kept, gone := Unexpired(all[..k], now), Expired(all[..k], now);
      && kept + all[k..] == kept + ([all[k]] + all[k + 1..])
      && (all[k].expiresAt <= now ==>
            Unexpired(all[..k + 1], now) == kept && Expired(all[..k + 1], now) == gone + [all[k]])
      && (all[k].expiresAt > now ==>
            Unexpired(all[..k + 1], now) + all[k + 1..] == kept + all[k..] && Expired(all[..k + 1], now) == gone)
  {
    assert all[..k + 1][..k] == all[..k];
    assert all[k..] == [all[k]] + all[k + 1..];
  }

  class ServerAuthService {
    const limits: Limits
    var passwordHash: Option<string>
    var credentialGeneration: nat
    /** The session map, in insertion order. */
    var sessions: seq<Stored>
    var failedLoginTimes: seq<int>
    /** Abort controllers and expiry timers of all streams opened so far. */
    var leases: seq<Lease>
    /** The login that holds the login lock across its awaited verification. */
    var inFlight: Option<Attempt>
    ghost var history: seq<int>
    ghost var clock: int

    ghost function View(): Auth
      reads this
    {
      Auth(passwordHash, credentialGeneration, sessions, leases, inFlight, failedLoginTimes, history, clock)
    }

    ghost predicate Valid()
      reads this
    {
      limits.maxLoginFailures >= 1 && AuthOk(View(), limits)
    }

    constructor (limits: Limits, passwordHash: Option<string>)
      requires limits.maxLoginFailures >= 1
      ensures Valid() && this.limits == limits && View() == Initial(passwordHash)
    {
      this.limits := limits;
      this.passwordHash := passwordHash;
      credentialGeneration := 0;
      sessions, leases := [], [];
      failedLoginTimes := [];
      inFlight := None;
      history, clock := [], 0;
    }

    /** Cancel each timer and abort each controller of one session. */
    method AbortStreams(session: Stored)
      requires forall j :: 0 <= j < |session.streams| ==> session.streams[j] < |leases|
      modifies this`leases
      ensures leases == Aborted(old(leases), [session])
    {
      for j := 0 to |session.streams|
        invariant |leases| == |old(leases)|
        invariant forall id :: 0 <= id < |leases| ==>
          leases[id] == if id in session.streams[..j] then Abort(old(leases)[id]) else old(leases)[id]
      {
        var id := session.streams[j];
        leases := leases[id := Abort(leases[id])];
      }
      assert session.streams[..|session.streams|] == session.streams;
      forall id | 0 <= id < |leases| ensures ListedIn([session], id) <==> id in session.streams {
        if id in session.streams {
          assert id in [session][0].streams;
        }
      }
    }

    /** `revokeSession`: delete the record, then end its streams. */
    method RevokeSession(token: string)
      requires SessionsOk(View(), limits)
      modifies this`sessions, this`leases
      ensures View() == Revoke(old(View()), token)
      ensures SessionsOk(View(), limits)
    {
      RevokeKeepsSessions(View(), token, limits);
      var i := SessionAt(sessions, token);
      if i < |sessions| {
        var session := sessions[i];
        assert StreamsOk(session, leases);
        sessions := sessions[..i] + sessions[i + 1..];
        AbortStreams(session);
      }
      assert View() == Revoke(old(View()), token);
    }

    method RevokeAllSessions()
      requires SessionsOk(View(), limits)
      modifies this`sessions, this`leases
      ensures View() == RevokeAll(old(View()))
    {
      var all := sessions;
      NoneAborted(leases);
      for k := 0 to |all|
        invariant SessionsOk(View(), limits)
        invariant sessions == all[k..] && leases == Aborted(old(leases), all[..k])
      {
        RevokeHead(View(), old(leases), all, k);
        RevokeSession(all[k].token);
      }
      assert all[..|all|] == all;
    }

    /** `pruneSessions`: visit every session once and revoke the expired ones. */
    method PruneExpired(now: int)
      requires SessionsOk(View(), limits)
      modifies this`sessions, this`leases
      ensures View() == PruneSessions(old(View()), now)
      ensures SessionsOk(View(), limits)
    {
      var all := sessions;
      NoneAborted(leases);
      for k := 0 to |all|
        invariant SessionsOk(View(), limits)
        invariant sessions == Unexpired(all[..k], now) + all[k..]
        invariant leases == Aborted(old(leases), Expired(all[..k], now))
      {
        ExpiryStep(all, k, now);
        if all[k].expiresAt <= now {
          RevokeIs(View(), Unexpired(all[..k], now), all[k], all[k + 1..]);
          AbortedTwice(old(leases), Expired(all[..k], now), all[k]);
          RevokeSession(all[k].token);
        }
      }
      assert all[..|all|] == all;
    }

    /** The eviction loop of `issueSession`: the oldest session goes first. */
    method EvictOldest()
      requires SessionsOk(View(), limits)
      modifies this`sessions, this`leases
      ensures View() == Evict(old(View()), limits.maxSessions)
      ensures SessionsOk(View(), limits)
    {
      var all := sessions;
      ghost var k := 0;
      NoneAborted(leases);
      while |sessions| >= limits.maxSessions && sessions != []
        invariant 0 <= k <= Surplus(|all|, limits.maxSessions)
        invariant SessionsOk(View(), limits)
        invariant sessions == all[k..] && leases == Aborted(old(leases), all[..k])
        decreases |sessions|
      {
        RevokeHead(View(), old(leases), all, k);
        RevokeSession(sessions[0].token);
        k := k + 1;
      }
      assert k == Surplus(|all|, limits.maxSessions);
    }

    /** `issueSession`; the credential the session stems from is recorded for the proof. */
    method IssueSession(token: string, now: int, generation: nat, hash: string) returns (issued: IssuedSession)
      requires SessionsOk(View(), limits) && FreshToken(View(), token)
      requires generation == credentialGeneration && (passwordHash.Some? ==> passwordHash == Some(hash))
      modifies this`sessions, this`leases
      ensures View() == Issue(old(View()), token, now, generation, hash, limits)
      ensures SessionsOk(View(), limits)
      ensures issued == if passwordHash.None? then Denied else IssuedSession(token, now + limits.sessionTtlMs)
    {
      if passwordHash.None? {
        return Denied;
      }
      IssueKeepsSessions(View(), token, now, generation, hash, limits);
      PruneExpired(now);
      EvictOldest();
      assert View() == MakeRoom(old(View()), now, limits.maxSessions);
      sessions := sessions + [Stored(token, now + limits.sessionTtlMs, [], generation, hash)];
      issued := IssuedSession(token, now + limits.sessionTtlMs);
    }

    method ActivateCredential(hash: Option<string>)
      requires Valid()
      modifies this
      ensures Valid() && View() == Activate(old(View()), hash)
    {
      AuthStepKeepsOk(View(), Activated(hash), limits);
      RevokeAllSessions();
      passwordHash := hash;
      credentialGeneration := credentialGeneration + 1;
      failedLoginTimes := [];
      history := [];
    }

    /** `pruneFailures`. */
    method PruneFailures(now: int)
      modifies this`failedLoginTimes
      ensures failedLoginTimes == Recent(old(failedLoginTimes), now, limits.loginWindowMs)
    {
      var times := failedLoginTimes;
      var kept: seq<int> := [];
      for k := 0 to |times|
        invariant kept == Recent(times[..k], now, limits.loginWindowMs)
      {
        assert times[..k + 1][..k] == times[..k];
        if times[k] > now - limits.loginWindowMs {
          kept := kept + [times[k]];
        }
      }
      assert times[..|times|] == times;
      failedLoginTimes := kept;
    }

    /** Prune, then either refuse or start verifying. */
    method Admit(now: int) returns (outcome: LoginOutcome)
      requires limits.maxLoginFailures >= 1 && inFlight.None?
      modifies this
      ensures View() == LoginStart(old(View()), now, limits)
      ensures outcome ==
        if Limited(old(View()), now, limits)
        then RateLimited(RetryAfterSeconds(old(View()), now, limits)) else Verifying
    {
      PruneFailures(now);
      clock := now;
      if |failedLoginTimes| >= limits.maxLoginFailures {
        var retryAt := failedLoginTimes[0] + limits.loginWindowMs;
        return RateLimited(Max(1, CeilSeconds(retryAt - now)));
      }
      inFlight := Some(Attempt(now, passwordHash, credentialGeneration));
      return Verifying;
    }

    /** `login` up to its await: refused, waiting for the lock, or verifying. */
    method StartLogin(now: int) returns (outcome: LoginOutcome)
      requires Valid() && now >= clock
      modifies this
      ensures Valid() && View() == LoginStart(old(View()), now, limits)
      ensures outcome ==
        if old(inFlight).Some? then Waiting
        else if Limited(old(View()), now, limits) then RateLimited(RetryAfterSeconds(old(View()), now, limits))
        else Verifying
    {
      AuthStepKeepsOk(View(), LoginStarted(now), limits);
      if inFlight.Some? {
        return Waiting;
      }
      outcome := Admit(now);
    }

    /** `login` after its await. */
    method FinishLogin(verified: bool, token: string, now: int) returns (issued: IssuedSession)
      requires Valid() && inFlight.Some? && FreshToken(View(), token)
      modifies this
      ensures Valid() && View() == LoginFinish(old(View()), verified, token, now, limits)
      ensures issued.IssuedSession? <==>
        !Superseded(old(View()), old(inFlight).value) && old(inFlight).value.hash.Some? && verified
      ensures issued.IssuedSession? ==>
        issued == IssuedSession(token, now + limits.sessionTtlMs) && failedLoginTimes == []
      ensures var a := old(inFlight).value;
        a.generation == credentialGeneration && !(a.hash.Some? && verified) ==>
          failedLoginTimes == old(failedLoginTimes) + [a.startedAt]
    {
      AuthStepKeepsOk(View(), LoginFinished(verified, token, now), limits);
      var attempt := inFlight.value;
      inFlight := None;
      if attempt.generation != credentialGeneration || attempt.hash != passwordHash {
        return Denied;
      }
      if attempt.hash.None? || !verified {
        failedLoginTimes := failedLoginTimes + [attempt.startedAt];
        history := history + [attempt.startedAt];
        return Denied;
      }
      failedLoginTimes := [];
      history := [];
      issued := IssueSession(token, now, attempt.generation, attempt.hash.value);
    }

    /** The last, unawaited part of `updatePassword`. */
    method CompleteUpdate(newHash: Option<string>, token: string, now: int) returns (issued: IssuedSession)
      requires Valid() && FreshToken(View(), token)
      modifies this
      ensures Valid() && View() == FinishUpdate(old(View()), newHash, token, now, limits)
      ensures issued == if newHash.None? then Denied else IssuedSession(token, now + limits.sessionTtlMs)
    {
      AuthStepKeepsOk(View(), UpdateFinished(newHash, token, now), limits);
      ActivateCredential(newHash);
      if newHash.None? {
        return Denied;
      }
      issued := IssueSession(token, now, credentialGeneration, newHash.value);
    }

    method AuthenticateToken(token: Option<string>, now: int) returns (ok: bool)
      requires Valid()
      modifies this`sessions, this`leases
      ensures Valid() && View() == Authenticate(old(View()), token, now)
      ensures ok == IsAuthentic(old(View()), token, now)
    {
      if passwordHash.None? {
        return true;
      }
      if token.None? {
        return false;
      }
      var i := SessionAt(sessions, token.value);
      if i == |sessions| {
        return false;
      }
      if sessions[i].expiresAt <= now {
        AuthStepKeepsOk(View(), Authenticated(token, now), limits);
        RevokeSession(token.value);
        return false;
      }
      return true;
    }

    method LogoutToken(token: Option<string>)
      requires Valid()
      modifies this`sessions, this`leases
      ensures Valid() && View() == Logout(old(View()), token)
    {
      AuthStepKeepsOk(View(), LoggedOut(token), limits);
      if token.Some? {
        RevokeSession(token.value);
      }
    }

    /** `openSessionStream`: a new controller and an armed expiry timer, listed with the session. */
    method OpenSessionStream(token: Option<string>, now: int) returns (lease: Option<nat>)
      requires Valid()
      modifies this`sessions, this`leases
      ensures Valid() && View() == OpenStream(old(View()), token, now)
      ensures lease.Some? <==> passwordHash.Some? && token.Some? && IsAuthentic(old(View()), token, now)
      ensures lease.Some? ==> lease == Some(|old(leases)|) && |leases| == |old(leases)| + 1
    {
      OpenKeepsOk(View(), token, now, limits);
      lease := Open(token, now);
    }

    method Open(token: Option<string>, now: int) returns (lease: Option<nat>)
      requires Valid()
      modifies this`sessions, this`leases
      ensures View() == OpenStream(old(View()), token, now)
      ensures lease.Some? <==> passwordHash.Some? && token.Some? && IsAuthentic(old(View()), token, now)
      ensures lease.Some? ==> lease == Some(|old(leases)|) && |leases| == |old(leases)| + 1
    {
      if passwordHash.None? {
        return None;
      }
      var ok := AuthenticateToken(token, now);
      if !ok || token.None? {
        return None;
      }
      var id := AttachStream(token.value, now);
      return Some(id);
    }

    /** Record a stream on its session, with a timer due when the session expires. */
    method AttachStream(token: string, now: int) returns (id: nat)
      requires SessionAt(sessions, token) < |sessions|
      modifies this`sessions, this`leases
      ensures var i := SessionAt(old(sessions), token);
        var session := old(sessions)[i];
        && id == |old(leases)|
        && leases == old(leases) + [Lease(token, now + Max(0, session.expiresAt - now), true, false, false)]
        && sessions == old(sessions)[i := session.(streams := session.streams + [id])]
    {
      var i := SessionAt(sessions, token);
      var session := sessions[i];
      var expiresIn := Max(0, session.expiresAt - now);
      id := |leases|;
      leases := leases + [Lease(token, now + expiresIn, true, false, false)];
      sessions := sessions[i := session.(streams := session.streams + [id])];
    }

    /** `streams.delete(controller)` on whichever session still lists it. */
    method ForgetStream(id: nat)
      modifies this`sessions
      ensures |sessions| == |old(sessions)|
      ensures forall k :: 0 <= k < |sessions| ==> sessions[k] == WithoutStream(old(sessions)[k], id)
    {
      for k := 0 to |sessions|
        invariant |sessions| == |old(sessions)|
        invariant forall i :: 0 <= i < |sessions| ==>
          sessions[i] == if i < k then WithoutStream(old(sessions)[i], id) else old(sessions)[i]
      {
        sessions := sessions[k := WithoutStream(sessions[k], id)];
      }
    }

    /** Cancel the timer and forget the stream, once. */
    method EndLease(id: nat)
      requires id < |leases|
      modifies this`sessions, this`leases
      ensures View() == Release(old(View()), id)
    {
      if !leases[id].released {
        leases := leases[id := leases[id].(armed := false, released := true)];
        ForgetStream(id);
        assert sessions == Release(old(View()), id).sessions;
      }
    }

    /** The `release` of a lease; a second call does nothing. */
    method ReleaseLease(id: nat)
      requires Valid() && id < |leases|
      modifies this`sessions, this`leases
      ensures Valid() && View() == Release(old(View()), id)
    {
      AuthStepKeepsOk(View(), StreamReleased(id), limits);
      EndLease(id);
    }

    /** The callback of an expiry timer that was armed. */
    method FireTimer(id: nat)
      requires Valid() && id < |leases| && leases[id].armed
      modifies this`sessions, this`leases
      ensures Valid() && View() == TimerFires(old(View()), id)
      ensures !leases[id].armed && leases[id].aborted
    {
      AuthStepKeepsOk(View(), TimerFired(id), limits);
      FiredIsAborted(View(), limits, id);
      RevokeSession(leases[id].token);
    }
  }

  /** A timer that fires ends its own stream. */
  lemma FiredIsAborted(s: Auth, limits: Limits, id: nat)
    requires AuthOk(s, limits) && id < |s.leases| && s.leases[id].armed
    ensures var t := TimerFires(s, id);
      id < |t.leases| && !t.leases[id].armed && t.leases[id].aborted
  {
    assert ListedIn(s.sessions, id);
    var k :| 0 <= k < |s.sessions| && id in s.sessions[k].streams;
    assert s.sessions[k] in s.sessions;
    StreamToken(s.sessions, s.leases, s.sessions[k], id);
    SessionAtIs(s.sessions, k);
    assert id in [s.sessions[k]][0].streams;
  }
}
