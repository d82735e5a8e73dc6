/** The authentication service as a state machine. */
module AuthState {
  import opened Prelude

  // What each operation does to the credential, the stored sessions, the stream leases and
  // the failed login times. A login is split at its awaited password verification, so that
  // other operations interleave.

  datatype Limits = Limits(sessionTtlMs: int, loginWindowMs: int, maxLoginFailures: int, maxSessions: int)

  /**
   A stored session, with the ids of its open streams in opening order. `generation` and
   `hash` record the credential whose verification led to it.
   */
  datatype Stored = Stored(token: string, expiresAt: int, streams: seq<nat>, generation: nat, hash: string)

  /** One opened stream: its abort controller, its expiry timer and its release flag. */
  datatype Lease = Lease(token: string, dueAt: int, armed: bool, aborted: bool, released: bool)

  /** A login that is waiting for its password verification. */
  datatype Attempt = Attempt(startedAt: int, hash: Option<string>, generation: nat)

  /**
   `failures` holds the failed login times still remembered; `history` all those since the
   last reset, and `clock` the time of the latest login start.
   */
  datatype Auth = Auth(
    passwordHash: Option<string>, generation: nat, sessions: seq<Stored>, leases: seq<Lease>,
    login: Option<Attempt>, failures: seq<int>, history: seq<int>, clock: int)

  function Initial(passwordHash: Option<string>): Auth {
    Auth(passwordHash, 0, [], [], None, [], [], 0)
  }

  /* ---------- revoking sessions ---------- */

  function SessionAt(sessions: seq<Stored>, token: string): (i: nat)
    ensures i <= |sessions|
    ensures i < |sessions| ==> sessions[i].token == token
    ensures forall k :: 0 <= k < i ==> sessions[k].token != token
  {
    if sessions == [] || sessions[0].token == token then 0 else 1 + SessionAt(sessions[1..], token)
  }

  predicate ListedIn(sessions: seq<Stored>, id: nat) {
    exists k :: 0 <= k < |sessions| && id in sessions[k].streams
  }

  function Abort(lease: Lease): Lease {
    lease.(armed := false, aborted := true)
  }

  /** Cancel the timers and abort the controllers of all streams of these sessions. */
  function Aborted(leases: seq<Lease>, gone: seq<Stored>): (r: seq<Lease>)
    ensures |r| == |leases|
    ensures forall id :: 0 <= id < |leases| ==> r[id] == if ListedIn(gone, id) then Abort(leases[id]) else leases[id]
  {
    seq(|leases|, id requires 0 <= id < |leases| => if ListedIn(gone, id) then Abort(leases[id]) else leases[id])
  }

  function Revoke(s: Auth, token: string): Auth {
    var i := SessionAt(s.sessions, token);
    if i == |s.sessions| then s
    else s.(sessions := s.sessions[..i] + s.sessions[i + 1..], leases := Aborted(s.leases, [s.sessions[i]]))
  }

  function RevokeAll(s: Auth): Auth {
    s.(sessions := [], leases := Aborted(s.leases, s.sessions))
  }

  function Unexpired(sessions: seq<Stored>, now: int): seq<Stored> {
    if sessions == [] then []
    else
      var last := sessions[|sessions| - 1];
      Unexpired(sessions[..|sessions| - 1], now) + if last.expiresAt <= now then [] else [last]
  }

  function Expired(sessions: seq<Stored>, now: int): seq<Stored> {
    if sessions == [] then []
    else
      var last := sessions[|sessions| - 1];
      Expired(sessions[..|sessions| - 1], now) + if last.expiresAt <= now then [last] else []
  }

  function PruneSessions(s: Auth, now: int): Auth {
    s.(sessions := Unexpired(s.sessions, now), leases := Aborted(s.leases, Expired(s.sessions, now)))
  }

  /** How many of the oldest sessions must go before one more may be stored. */
  function Surplus(count: nat, maxSessions: int): (k: nat)
    ensures k <= count
  {
    Max(0, Min(count, count - maxSessions + 1))
  }

  function Evict(s: Auth, maxSessions: int): Auth {
    var k := Surplus(|s.sessions|, maxSessions);
    s.(sessions := s.sessions[k..], leases := Aborted(s.leases, s.sessions[..k]))
  }

  /** Drop what has expired, then the oldest sessions in excess. */
  function MakeRoom(s: Auth, now: int, maxSessions: int): Auth {
    Evict(PruneSessions(s, now), maxSessions)
  }

  /* ---------- operations ---------- */

  function Issue(s: Auth, token: string, now: int, generation: nat, hash: string, limits: Limits): Auth {
    if s.passwordHash.None? then s
    else
      var room := MakeRoom(s, now, limits.maxSessions);
      room.(sessions := room.sessions + [Stored(token, now + limits.sessionTtlMs, [], generation, hash)])
  }

  function Activate(s: Auth, passwordHash: Option<string>): Auth {
    RevokeAll(s).(passwordHash := passwordHash, generation := s.generation + 1, failures := [], history := [])
  }

  function Recent(failures: seq<int>, now: int, window: int): seq<int> {
    if failures == [] then []
    else
      var last := failures[|failures| - 1];
      Recent(failures[..|failures| - 1], now, window) + if last > now - window then [last] else []
  }

  function CeilSeconds(ms: int): int {
    -((-ms) / 1000)
  }

  predicate Limited(s: Auth, now: int, limits: Limits) {
    |Recent(s.failures, now, limits.loginWindowMs)| >= limits.maxLoginFailures
  }

  function RetryAfterSeconds(s: Auth, now: int, limits: Limits): int
    requires limits.maxLoginFailures >= 1 && Limited(s, now, limits)
  {
    var retryAt := Recent(s.failures, now, limits.loginWindowMs)[0] + limits.loginWindowMs;
    Max(1, CeilSeconds(retryAt - now))
  }

  /** Up to the awaited verification; a second login waits for the first. */
  function LoginStart(s: Auth, now: int, limits: Limits): Auth {
    if s.login.Some? then s
    else
      var pruned := s.(failures := Recent(s.failures, now, limits.loginWindowMs), clock := now);
      if Limited(s, now, limits) then pruned
      else pruned.(login := Some(Attempt(now, s.passwordHash, s.generation)))
  }

  predicate Superseded(s: Auth, a: Attempt) {
    a.generation != s.generation || a.hash != s.passwordHash
  }

  /** After the verification. */
  function LoginFinish(s: Auth, verified: bool, token: string, now: int, limits: Limits): Auth {
    if s.login.None? then s
    else
      var a := s.login.value;
      var settled := s.(login := None);
      if Superseded(s, a) then settled
      else if a.hash.None? || !verified then
        settled.(failures := s.failures + [a.startedAt], history := s.history + [a.startedAt])
      else
        Issue(settled.(failures := [], history := []), token, now, a.generation, a.hash.value, limits)
  }

  /** The end of `updatePassword`: the new credential takes effect and its owner gets a session. */
  function FinishUpdate(s: Auth, newHash: Option<string>, token: string, now: int, limits: Limits): Auth {
    var t := Activate(s, newHash);
    if newHash.None? then t else Issue(t, token, now, t.generation, newHash.value, limits)
  }

  /** `issueSession` called from outside, under the current credential. */
  function IssueCurrent(s: Auth, token: string, now: int, limits: Limits): Auth {
    if s.passwordHash.None? then s else Issue(s, token, now, s.generation, s.passwordHash.value, limits)
  }

  predicate IsAuthentic(s: Auth, token: Option<string>, now: int) {
    s.passwordHash.None?
    || (
        && token.Some?
        && var i := SessionAt(s.sessions, token.value);
           i < |s.sessions| && s.sessions[i].expiresAt > now)
  }

  function Authenticate(s: Auth, token: Option<string>, now: int): Auth {
    if s.passwordHash.None? || token.None? || IsAuthentic(s, token, now) then s else Revoke(s, token.value)
  }

  function Logout(s: Auth, token: Option<string>): Auth {
    if token.None? then s else Revoke(s, token.value)
  }

  function OpenStream(s: Auth, token: Option<string>, now: int): Auth {
    if s.passwordHash.None? || token.None? || !IsAuthentic(s, token, now) then Authenticate(s, token, now)
    else
      var i := SessionAt(s.sessions, token.value);
      var session := s.sessions[i];
      var lease := Lease(token.value, now + Max(0, session.expiresAt - now), true, false, false);
      s.(sessions := s.sessions[i := session.(streams := session.streams + [|s.leases|])],
         leases := s.leases + [lease])
  }

  function Remove(ids: seq<nat>, id: nat): seq<nat> {
    if ids == [] then []
    else Remove(ids[..|ids| - 1], id) + if ids[|ids| - 1] == id then [] else [ids[|ids| - 1]]
  }

  function WithoutStream(session: Stored, id: nat): Stored {
    session.(streams := Remove(session.streams, id))
  }

  function Release(s: Auth, id: nat): Auth {
    if id >= |s.leases| || s.leases[id].released then s
    else
      s.(sessions := seq(|s.sessions|, k requires 0 <= k < |s.sessions| => WithoutStream(s.sessions[k], id)),
         leases := s.leases[id := s.leases[id].(armed := false, released := true)])
  }

  /** The expiry timer of a stream goes off. */
  function TimerFires(s: Auth, id: nat): Auth {
    if id < |s.leases| && s.leases[id].armed then Revoke(s, s.leases[id].token) else s
  }

  /* ---------- runs ---------- */

  datatype AuthEvent =
    | LoginStarted(now: int)
    | LoginFinished(verified: bool, token: string, now: int)
    | Activated(passwordHash: Option<string>)
    | UpdateFinished(newHash: Option<string>, token: string, now: int)
    | SessionIssued(token: string, now: int)
    | Authenticated(presented: Option<string>, now: int)
    | LoggedOut(presented: Option<string>)
    | StreamOpened(presented: Option<string>, now: int)
    | StreamReleased(id: nat)
    | TimerFired(id: nat)

  function AuthStep(s: Auth, e: AuthEvent, limits: Limits): Auth {
    match e
    case LoginStarted(now) => LoginStart(s, now, limits)
    case LoginFinished(verified, token, now) => LoginFinish(s, verified, token, now, limits)
    case Activated(hash) => Activate(s, hash)
    case UpdateFinished(hash, token, now) => FinishUpdate(s, hash, token, now, limits)
    case SessionIssued(token, now) => IssueCurrent(s, token, now, limits)
    case Authenticated(token, now) => Authenticate(s, token, now)
    case LoggedOut(token) => Logout(s, token)
    case StreamOpened(token, now) => OpenStream(s, token, now)
    case StreamReleased(id) => Release(s, id)
    case TimerFired(id) => TimerFires(s, id)
  }

  function AuthRun(s: Auth, es: seq<AuthEvent>, limits: Limits): Auth {
    if es == [] then s else AuthStep(AuthRun(s, es[..|es| - 1], limits), es[|es| - 1], limits)
  }

  predicate FreshToken(s: Auth, token: string) {
    SessionAt(s.sessions, token) == |s.sessions|
  }

  /** The clock does not run backwards between logins, and issued tokens are new. */
  predicate AuthAdmissible(s: Auth, e: AuthEvent) {
    && (e.LoginStarted? ==> e.now >= s.clock)
    && (e.LoginFinished? || e.UpdateFinished? || e.SessionIssued? ==> FreshToken(s, e.token))
  }

  ghost predicate AuthAdmissibleRun(s: Auth, es: seq<AuthEvent>, limits: Limits) {
    forall k :: 0 <= k < |es| ==> AuthAdmissible(AuthRun(s, es[..k], limits), es[k])
  }

  /* ---------- invariants ---------- */

  predicate DistinctTokens(sessions: seq<Stored>) {
    forall i, j :: 0 <= i < j < |sessions| ==> sessions[i].token != sessions[j].token
  }

  predicate IssuedUnder(session: Stored, generation: nat, hash: Option<string>) {
    session.generation == generation && hash == Some(session.hash)
  }

  /** Every stored session stems from a verification of the current credential. */
  ghost predicate CredentialsOk(s: Auth) {
    forall k :: 0 <= k < |s.sessions| ==> IssuedUnder(s.sessions[k], s.generation, s.passwordHash)
  }

  predicate LiveLease(lease: Lease, session: Stored) {
    && lease.armed && !lease.aborted && !lease.released
    && lease.token == session.token && lease.dueAt == session.expiresAt
  }

  predicate DistinctIds(ids: seq<nat>) {
    forall i, j :: 0 <= i < j < |ids| ==> ids[i] != ids[j]
  }

  /** The streams a session lists are live leases on it. */
  predicate StreamsOk(session: Stored, leases: seq<Lease>) {
    && DistinctIds(session.streams)
    && forall j :: 0 <= j < |session.streams| ==>
         session.streams[j] < |leases| && LiveLease(leases[session.streams[j]], session)
  }

  predicate EndedLease(lease: Lease) {
    !lease.armed && (lease.released || lease.aborted)
  }

  /** A lease is listed by a stored session, or it ended. */
  ghost predicate LeasesOk(sessions: seq<Stored>, leases: seq<Lease>) {
    && (forall k :: 0 <= k < |sessions| ==> StreamsOk(sessions[k], leases))
    && (forall id :: 0 <= id < |leases| ==> ListedIn(sessions, id) || EndedLease(leases[id]))
  }

  ghost predicate SessionsOk(s: Auth, limits: Limits) {
    && DistinctTokens(s.sessions)
    && CredentialsOk(s)
    && |s.sessions| <= Max(1, limits.maxSessions)
    && LeasesOk(s.sessions, s.leases)
  }

  ghost predicate Sorted(times: seq<int>) {
    forall i, j :: 0 <= i < j < |times| ==> times[i] <= times[j]
  }

  /** Any `max + 1` consecutive times span at least the window. */
  ghost predicate SpacedOut(times: seq<int>, max: int, window: int) {
    forall i, j :: 0 <= i < j < |times| && j == i + max ==> times[j] - times[i] >= window
  }

  /** The remembered failures are the recent end of the history; the rest are outside the window. */
  ghost predicate TimesOk(failures: seq<int>, history: seq<int>, clock: int, limits: Limits) {
    && |failures| <= |history|
    && history[|history| - |failures|..] == failures
    && |failures| <= limits.maxLoginFailures
    && Sorted(history)
    && (forall i :: 0 <= i < |history| ==> history[i] <= clock)
    && (forall i :: 0 <= i < |history| - |failures| ==> history[i] <= clock - limits.loginWindowMs)
    && SpacedOut(history, limits.maxLoginFailures, limits.loginWindowMs)
  }

  ghost predicate FailuresOk(s: Auth, limits: Limits) {
    TimesOk(s.failures, s.history, s.clock, limits)
  }

  ghost predicate LoginOk(s: Auth, limits: Limits) {
    s.login.Some? ==>
      var a := s.login.value;
      && a.startedAt == s.clock
      && a.generation <= s.generation
      && (a.generation == s.generation ==> a.hash == s.passwordHash && |s.failures| < limits.maxLoginFailures)
  }

  ghost predicate AuthOk(s: Auth, limits: Limits) {
    SessionsOk(s, limits) && FailuresOk(s, limits) && LoginOk(s, limits)
  }

  /* ---------- sessions and leases ---------- */

  /** `kept` and `gone` share out the sessions. */
  ghost predicate SharedOut(sessions: seq<Stored>, kept: seq<Stored>, gone: seq<Stored>) {
    && (forall e :: e in sessions <==> e in kept || e in gone)
    && DistinctTokens(kept)
    && (forall e, f :: e in kept && f in gone ==> e.token != f.token)
  }

  lemma ListedMember(sessions: seq<Stored>, id: nat) returns (e: Stored)
    requires ListedIn(sessions, id)
    ensures e in sessions && id in e.streams
  {
    var k :| 0 <= k < |sessions| && id in sessions[k].streams;
    e := sessions[k];
  }

  lemma MemberListed(sessions: seq<Stored>, e: Stored, id: nat)
    requires e in sessions && id in e.streams
    ensures ListedIn(sessions, id)
  {
    var k :| 0 <= k < |sessions| && sessions[k] == e;
  }

  lemma StreamToken(sessions: seq<Stored>, leases: seq<Lease>, e: Stored, id: nat)
    requires LeasesOk(sessions, leases) && e in sessions && id in e.streams
    ensures id < |leases| && LiveLease(leases[id], e)
  {
    var k :| 0 <= k < |sessions| && sessions[k] == e;
    assert StreamsOk(sessions[k], leases);
    var j :| 0 <= j < |e.streams| && e.streams[j] == id;
  }

  /** Streams of a kept session are not listed by those that went. */
  lemma KeptNotAborted(
    sessions: seq<Stored>, leases: seq<Lease>, kept: seq<Stored>, gone: seq<Stored>, e: Stored, id: nat)
    requires LeasesOk(sessions, leases) && SharedOut(sessions, kept, gone) && e in kept && id in e.streams
    ensures !ListedIn(gone, id)
  {
    if ListedIn(gone, id) {
      var f := ListedMember(gone, id);
      StreamToken(sessions, leases, e, id);
      StreamToken(sessions, leases, f, id);
      assert false;
    }
  }

  /** Dropping sessions and aborting their streams keeps every lease accounted for. */
  lemma DropKeepsLeases(sessions: seq<Stored>, leases: seq<Lease>, kept: seq<Stored>, gone: seq<Stored>)
    requires LeasesOk(sessions, leases) && SharedOut(sessions, kept, gone)
    ensures LeasesOk(kept, Aborted(leases, gone))
  {
    var after := Aborted(leases, gone);
    forall k | 0 <= k < |kept| ensures StreamsOk(kept[k], after) {
      var e := kept[k];
      assert e in sessions;
      var i :| 0 <= i < |sessions| && sessions[i] == e;
      assert StreamsOk(sessions[i], leases);
      forall j | 0 <= j < |e.streams| ensures e.streams[j] < |after| && LiveLease(after[e.streams[j]], e) {
        KeptNotAborted(sessions, leases, kept, gone, e, e.streams[j]);
      }
    }
    forall id | 0 <= id < |leases| ensures ListedIn(kept, id) || EndedLease(after[id]) {
      if ListedIn(sessions, id) && !ListedIn(gone, id) {
        var e := ListedMember(sessions, id);
        if e in gone {
          MemberListed(gone, e, id);
        }
        MemberListed(kept, e, id);
      }
    }
  }

  lemma RemoveShares(sessions: seq<Stored>, i: nat)
    requires DistinctTokens(sessions) && i < |sessions|
    ensures SharedOut(sessions, sessions[..i] + sessions[i + 1..], [sessions[i]])
  {
    var kept := sessions[..i] + sessions[i + 1..];
    assert sessions == sessions[..i] + [sessions[i]] + sessions[i + 1..];
    forall a | 0 <= a < |kept| ensures kept[a] == sessions[Skip(a, i)] {}
    DistinctKept(sessions, i, kept);
  }

  function Skip(a: nat, i: nat): nat {
    if a < i then a else a + 1
  }

  lemma DistinctKept(sessions: seq<Stored>, i: nat, kept: seq<Stored>)
    requires DistinctTokens(sessions) && i < |sessions| && |kept| == |sessions| - 1
    requires forall a :: 0 <= a < |kept| ==> kept[a] == sessions[Skip(a, i)]
    ensures DistinctTokens(kept) && forall e :: e in kept ==> e.token != sessions[i].token
  {
    forall e | e in kept ensures e.token != sessions[i].token {
      var a :| 0 <= a < |kept| && kept[a] == e;
      assert e == sessions[Skip(a, i)];
    }
  }

  lemma PrefixShares(sessions: seq<Stored>, k: nat)
    requires DistinctTokens(sessions) && k <= |sessions|
    ensures SharedOut(sessions, sessions[k..], sessions[..k])
  {
    assert sessions == sessions[..k] + sessions[k..];
    forall e, f | e in sessions[k..] && f in sessions[..k] ensures e.token != f.token {
      var a :| 0 <= a < |sessions| - k && sessions[k..][a] == e;
      var b :| 0 <= b < k && sessions[..k][b] == f;
      assert sessions[k + a] == e && sessions[b] == f;
    }
  }

  lemma {:induction false} ExpiryMembers(sessions: seq<Stored>, now: int)
    ensures forall e :: e in Unexpired(sessions, now) <==> e in sessions && e.expiresAt > now
    ensures forall e :: e in Expired(sessions, now) <==> e in sessions && e.expiresAt <= now
    ensures |Unexpired(sessions, now)| <= |sessions|
  {
    if sessions != [] {
      var front, last := sessions[..|sessions| - 1], sessions[|sessions| - 1];
      ExpiryMembers(front, now);
      assert sessions == front + [last];
    }
  }

  lemma {:induction false} UnexpiredDistinct(sessions: seq<Stored>, now: int)
    requires DistinctTokens(sessions)
    ensures DistinctTokens(Unexpired(sessions, now))
  {
    if sessions != [] {
      var front, last := sessions[..|sessions| - 1], sessions[|sessions| - 1];
      UnexpiredDistinct(front, now);
      ExpiryMembers(front, now);
      var kept := Unexpired(front, now);
      forall k | 0 <= k < |kept| ensures kept[k].token != last.token {
        assert kept[k] in front;
      }
    }
  }

  lemma DistinctMembers(sessions: seq<Stored>, e: Stored, f: Stored)
    requires DistinctTokens(sessions) && e in sessions && f in sessions && e.token == f.token
    ensures e == f
  {
  }

  lemma ExpiryShares(sessions: seq<Stored>, now: int)
    requires DistinctTokens(sessions)
    ensures SharedOut(sessions, Unexpired(sessions, now), Expired(sessions, now))
    ensures |Unexpired(sessions, now)| <= |sessions|
  {
    ExpiryMembers(sessions, now);
    UnexpiredDistinct(sessions, now);
    forall e, f | e in Unexpired(sessions, now) && f in Expired(sessions, now) ensures e.token != f.token {
      if e.token == f.token {
        DistinctMembers(sessions, e, f);
        assert false;
      }
    }
  }

  lemma SharedCredentials(s: Auth, kept: seq<Stored>, gone: seq<Stored>)
    requires CredentialsOk(s) && SharedOut(s.sessions, kept, gone)
    ensures forall k :: 0 <= k < |kept| ==> IssuedUnder(kept[k], s.generation, s.passwordHash)
  {
    forall k | 0 <= k < |kept| ensures IssuedUnder(kept[k], s.generation, s.passwordHash) {
      assert kept[k] in kept;
    }
  }

  lemma DropKeepsSessions(s: Auth, kept: seq<Stored>, gone: seq<Stored>, limits: Limits)
    requires SessionsOk(s, limits) && SharedOut(s.sessions, kept, gone) && |kept| <= |s.sessions|
    ensures SessionsOk(s.(sessions := kept, leases := Aborted(s.leases, gone)), limits)
  {
    SharedCredentials(s, kept, gone);
    DropKeepsLeases(s.sessions, s.leases, kept, gone);
  }

  lemma RevokeKeepsSessions(s: Auth, token: string, limits: Limits)
    requires SessionsOk(s, limits)
    ensures SessionsOk(Revoke(s, token), limits)
  {
    var i := SessionAt(s.sessions, token);
    if i < |s.sessions| {
      RemoveShares(s.sessions, i);
      DropKeepsSessions(s, s.sessions[..i] + s.sessions[i + 1..], [s.sessions[i]], limits);
    }
  }

  /** Nothing is left, whatever the credential becomes. */
  lemma RevokeAllKeepsSessions(s: Auth, passwordHash: Option<string>, limits: Limits)
    requires SessionsOk(s, limits)
    ensures SessionsOk(Activate(s, passwordHash), limits)
  {
    PrefixShares(s.sessions, |s.sessions|);
    assert s.sessions[|s.sessions|..] == [] && s.sessions[..|s.sessions|] == s.sessions;
    DropKeepsLeases(s.sessions, s.leases, [], s.sessions);
  }

  lemma PruneKeepsSessions(s: Auth, now: int, limits: Limits)
    requires SessionsOk(s, limits)
    ensures SessionsOk(PruneSessions(s, now), limits)
  {
    ExpiryShares(s.sessions, now);
    DropKeepsSessions(s, Unexpired(s.sessions, now), Expired(s.sessions, now), limits);
  }

  lemma EvictKeepsSessions(s: Auth, limits: Limits)
    requires SessionsOk(s, limits)
    ensures SessionsOk(Evict(s, limits.maxSessions), limits)
    ensures |Evict(s, limits.maxSessions).sessions| + 1 <= Max(1, limits.maxSessions)
  {
    var k := Surplus(|s.sessions|, limits.maxSessions);
    PrefixShares(s.sessions, k);
    DropKeepsSessions(s, s.sessions[k..], s.sessions[..k], limits);
  }

  lemma FreshStays(sessions: seq<Stored>, token: string, kept: seq<Stored>, gone: seq<Stored>)
    requires SessionAt(sessions, token) == |sessions| && SharedOut(sessions, kept, gone)
    ensures SessionAt(kept, token) == |kept|
  {
    forall k | 0 <= k < |kept| ensures kept[k].token != token {
      assert kept[k] in kept && kept[k] in sessions;
    }
  }

  /** A new session is appended to the room made for it. */
  lemma AppendKeepsSessions(s: Auth, session: Stored, limits: Limits)
    requires SessionsOk(s, limits) && |s.sessions| + 1 <= Max(1, limits.maxSessions)
    requires session.streams == [] && IssuedUnder(session, s.generation, s.passwordHash)
    requires SessionAt(s.sessions, session.token) == |s.sessions|
    ensures SessionsOk(s.(sessions := s.sessions + [session]), limits)
  {
    var after := s.sessions + [session];
    forall k | 0 <= k < |after|
      ensures StreamsOk(after[k], s.leases) && IssuedUnder(after[k], s.generation, s.passwordHash)
    {
      assert k < |s.sessions| ==> after[k] == s.sessions[k] && StreamsOk(s.sessions[k], s.leases);
    }
    forall id | 0 <= id < |s.leases| ensures ListedIn(after, id) || EndedLease(s.leases[id]) {
      if ListedIn(s.sessions, id) {
        var e := ListedMember(s.sessions, id);
        MemberListed(after, e, id);
      }
    }
  }

  lemma RoomKeepsSessions(s: Auth, token: string, now: int, limits: Limits)
    requires SessionsOk(s, limits) && FreshToken(s, token)
    ensures var room := MakeRoom(s, now, limits.maxSessions);
      && SessionsOk(room, limits) && FreshToken(room, token)
      && |room.sessions| + 1 <= Max(1, limits.maxSessions)
      && room.generation == s.generation && room.passwordHash == s.passwordHash
  {
    var pruned := PruneSessions(s, now);
    PruneKeepsSessions(s, now, limits);
    PruneKeepsFresh(s, token, now);
    EvictKeepsSessions(pruned, limits);
    EvictKeepsFresh(pruned, token, limits.maxSessions);
  }

  lemma IssueKeepsSessions(s: Auth, token: string, now: int, generation: nat, hash: string, limits: Limits)
    requires SessionsOk(s, limits) && FreshToken(s, token)
    requires generation == s.generation && s.passwordHash == Some(hash)
    ensures SessionsOk(Issue(s, token, now, generation, hash, limits), limits)
  {
    var room := MakeRoom(s, now, limits.maxSessions);
    var session := Stored(token, now + limits.sessionTtlMs, [], generation, hash);
    RoomKeepsSessions(s, token, now, limits);
    AppendKeepsSessions(room, session, limits);
    assert Issue(s, token, now, generation, hash, limits) == room.(sessions := room.sessions + [session]);
  }

  lemma PruneKeepsFresh(s: Auth, token: string, now: int)
    requires DistinctTokens(s.sessions) && FreshToken(s, token)
    ensures FreshToken(PruneSessions(s, now), token)
  {
    ExpiryShares(s.sessions, now);
    FreshStays(s.sessions, token, Unexpired(s.sessions, now), Expired(s.sessions, now));
  }

  lemma EvictKeepsFresh(s: Auth, token: string, maxSessions: int)
    requires FreshToken(s, token)
    ensures FreshToken(Evict(s, maxSessions), token)
  {
  }

  lemma OpenKeepsLeases(sessions: seq<Stored>, leases: seq<Lease>, i: nat, lease: Lease)
    requires DistinctTokens(sessions) && LeasesOk(sessions, leases) && i < |sessions| && LiveLease(lease, sessions[i])
    ensures var session := sessions[i].(streams := sessions[i].streams + [|leases|]);
      LeasesOk(sessions[i := session], leases + [lease])
  {
    var session := sessions[i].(streams := sessions[i].streams + [|leases|]);
    var after, more := sessions[i := session], leases + [lease];
    forall k | 0 <= k < |after| ensures StreamsOk(after[k], more) {
      assert StreamsOk(sessions[k], leases);
      if k == i {
        forall j | 0 <= j < |session.streams|
          ensures session.streams[j] < |more| && LiveLease(more[session.streams[j]], session)
        {
          assert j < |sessions[i].streams| ==> LiveLease(leases[sessions[i].streams[j]], sessions[i]);
        }
      }
    }
    forall id | 0 <= id < |more| ensures ListedIn(after, id) || EndedLease(more[id]) {
      if id == |leases| {
        assert id == session.streams[|sessions[i].streams|];
        assert id in after[i].streams;
      } else if ListedIn(sessions, id) {
        var k :| 0 <= k < |sessions| && id in sessions[k].streams;
        assert id in after[k].streams;
      }
    }
  }

  lemma OpenKeepsSessions(s: Auth, token: Option<string>, now: int, limits: Limits)
    requires SessionsOk(s, limits)
    ensures SessionsOk(OpenStream(s, token, now), limits)
  {
    if s.passwordHash.None? || token.None? || !IsAuthentic(s, token, now) {
      if s.passwordHash.Some? && token.Some? {
        RevokeKeepsSessions(s, token.value, limits);
      }
    } else {
      var i := SessionAt(s.sessions, token.value);
      var t := OpenStream(s, token, now);
      OpenKeepsLeases(s.sessions, s.leases, i, t.leases[|s.leases|]);
      forall k | 0 <= k < |t.sessions| ensures IssuedUnder(t.sessions[k], t.generation, t.passwordHash) {
        assert IssuedUnder(s.sessions[k], s.generation, s.passwordHash);
      }
    }
  }

  lemma {:induction false} RemoveIs(ids: seq<nat>, id: nat)
    requires DistinctIds(ids)
    ensures DistinctIds(Remove(ids, id))
    ensures forall x :: x in Remove(ids, id) <==> x in ids && x != id
  {
    if ids != [] {
      var front, last := ids[..|ids| - 1], ids[|ids| - 1];
      RemoveIs(front, id);
      assert ids == front + [last];
      assert last !in front;
      forall i | 0 <= i < |Remove(front, id)| ensures Remove(front, id)[i] != last {
        assert Remove(front, id)[i] in front;
      }
    }
  }

  lemma ReleaseKeepsStreams(session: Stored, leases: seq<Lease>, id: nat, lease: Lease)
    requires StreamsOk(session, leases) && id < |leases|
    ensures StreamsOk(WithoutStream(session, id), leases[id := lease])
  {
    var after := WithoutStream(session, id);
    RemoveIs(session.streams, id);
    forall j | 0 <= j < |after.streams|
      ensures after.streams[j] < |leases| && LiveLease(leases[id := lease][after.streams[j]], after)
    {
      assert after.streams[j] in session.streams && after.streams[j] != id;
      var i :| 0 <= i < |session.streams| && session.streams[i] == after.streams[j];
    }
  }

  lemma ReleaseKeepsLeases(s: Auth, id: nat)
    requires LeasesOk(s.sessions, s.leases)
    ensures LeasesOk(Release(s, id).sessions, Release(s, id).leases)
  {
    var t := Release(s, id);
    if t != s {
      forall k | 0 <= k < |t.sessions| ensures StreamsOk(t.sessions[k], t.leases) {
        assert StreamsOk(s.sessions[k], s.leases);
        ReleaseKeepsStreams(s.sessions[k], s.leases, id, t.leases[id]);
      }
      forall x | 0 <= x < |t.leases| ensures ListedIn(t.sessions, x) || EndedLease(t.leases[x]) {
        if x != id && ListedIn(s.sessions, x) {
          var k :| 0 <= k < |s.sessions| && x in s.sessions[k].streams;
          assert StreamsOk(s.sessions[k], s.leases);
          RemoveIs(s.sessions[k].streams, id);
          assert x in t.sessions[k].streams;
        }
      }
    }
  }

  lemma ReleaseKeepsSessions(s: Auth, id: nat, limits: Limits)
    requires SessionsOk(s, limits)
    ensures SessionsOk(Release(s, id), limits)
  {
    ReleaseKeepsLeases(s, id);
    forall k | 0 <= k < |s.sessions| && Release(s, id) != s
      ensures IssuedUnder(Release(s, id).sessions[k], s.generation, s.passwordHash)
    {
      assert IssuedUnder(s.sessions[k], s.generation, s.passwordHash);
    }
  }

  /* ---------- failures ---------- */

  lemma {:induction false} AllOld(times: seq<int>, now: int, window: int)
    requires forall i :: 0 <= i < |times| ==> times[i] <= now - window
    ensures Recent(times, now, window) == []
  {
    if times != [] {
      AllOld(times[..|times| - 1], now, window);
    }
  }

  lemma SortedFront(times: seq<int>)
    requires Sorted(times) && times != []
    ensures Sorted(times[..|times| - 1])
    ensures forall i :: 0 <= i < |times| ==> times[i] <= times[|times| - 1]
  {
  }

  /** `times[..p]` are outside the window and the rest inside. */
  ghost predicate SplitsAt(times: seq<int>, p: nat, cutoff: int) {
    && p <= |times|
    && (forall i :: 0 <= i < p ==> times[i] <= cutoff)
    && (forall i :: p <= i < |times| ==> times[i] > cutoff)
  }

  lemma SplitsFurther(front: seq<int>, last: int, p: nat, cutoff: int)
    requires SplitsAt(front, p, cutoff) && last > cutoff
    ensures SplitsAt(front + [last], p, cutoff) && (front + [last])[p..] == front[p..] + [last]
  {
  }

  /** Forgetting old times keeps the recent end of a sorted list. */
  lemma {:induction false} RecentIsSuffix(times: seq<int>, now: int, window: int) returns (p: nat)
    requires Sorted(times)
    ensures SplitsAt(times, p, now - window)
    ensures Recent(times, now, window) == times[p..]
  {
    if times == [] {
      p := 0;
    } else {
      var front, last := times[..|times| - 1], times[|times| - 1];
      SortedFront(times);
      if last <= now - window {
        AllOld(times, now, window);
        p := |times|;
      } else {
        p := RecentIsSuffix(front, now, window);
        SplitsFurther(front, last, p, now - window);
        assert times == front + [last];
      }
    }
  }

  /** Pruning at a later time: what is dropped now is outside the window as well. */
  lemma PruneKeepsTimes(failures: seq<int>, history: seq<int>, clock: int, now: int, limits: Limits)
    requires TimesOk(failures, history, clock, limits) && now >= clock
    ensures TimesOk(Recent(failures, now, limits.loginWindowMs), history, now, limits)
  {
    var d := |history| - |failures|;
    FailuresSorted(failures, history, clock, limits);
    var p := RecentIsSuffix(failures, now, limits.loginWindowMs);
    assert history[d + p..] == history[d..][p..];
    forall i | 0 <= i < d + p ensures history[i] <= now - limits.loginWindowMs {
      if i >= d {
        assert history[d..][i - d] == history[i];
      }
    }
  }

  lemma FailuresSorted(failures: seq<int>, history: seq<int>, clock: int, limits: Limits)
    requires TimesOk(failures, history, clock, limits)
    ensures Sorted(failures)
  {
    var d := |history| - |failures|;
    forall i, j | 0 <= i < j < |failures| ensures failures[i] <= failures[j] {
      assert failures[i] == history[d..][i] == history[d + i];
      assert failures[j] == history[d..][j] == history[d + j];
    }
  }

  lemma StartKeepsFailures(s: Auth, now: int, limits: Limits)
    requires FailuresOk(s, limits) && LoginOk(s, limits) && now >= s.clock
    ensures FailuresOk(LoginStart(s, now, limits), limits) && LoginOk(LoginStart(s, now, limits), limits)
  {
    if s.login.None? {
      PruneKeepsTimes(s.failures, s.history, s.clock, now, limits);
    }
  }

  /** A recorded failure is far enough from the one `max` places before it. */
  lemma RecordKeepsFailures(s: Auth, limits: Limits)
    requires FailuresOk(s, limits) && |s.failures| < limits.maxLoginFailures
    ensures FailuresOk(s.(login := None, failures := s.failures + [s.clock], history := s.history + [s.clock]), limits)
  {
    var h := s.history + [s.clock];
    var d := |s.history| - |s.failures|;
    assert h[d..] == s.history[d..] + [s.clock];
    forall i, j | 0 <= i < j < |h| && j == i + limits.maxLoginFailures
      ensures h[j] - h[i] >= limits.loginWindowMs
    {
      if j == |s.history| {
        assert i < d;
      }
    }
  }

  /* ---------- every operation keeps the invariant ---------- */

  lemma LoginFinishKeepsOk(s: Auth, verified: bool, token: string, now: int, limits: Limits)
    requires AuthOk(s, limits) && FreshToken(s, token) && limits.maxLoginFailures >= 1
    ensures AuthOk(LoginFinish(s, verified, token, now, limits), limits)
  {
    if s.login.Some? && !Superseded(s, s.login.value) {
      var a := s.login.value;
      if a.hash.None? || !verified {
        RecordKeepsFailures(s, limits);
      } else {
        IssueKeepsSessions(
          s.(login := None, failures := [], history := []), token, now, a.generation, a.hash.value, limits);
      }
    }
  }

  lemma CredentialChangeKeepsOk(s: Auth, e: AuthEvent, limits: Limits)
    requires AuthOk(s, limits) && AuthAdmissible(s, e) && limits.maxLoginFailures >= 1
    requires e.Activated? || e.UpdateFinished? || e.SessionIssued?
    ensures AuthOk(AuthStep(s, e, limits), limits)
  {
    if e.SessionIssued? {
      if s.passwordHash.Some? {
        IssueKeepsSessions(s, e.token, e.now, s.generation, s.passwordHash.value, limits);
      }
    } else {
      var hash := if e.Activated? then e.passwordHash else e.newHash;
      var t := Activate(s, hash);
      RevokeAllKeepsSessions(s, hash, limits);
      if e.UpdateFinished? && hash.Some? {
        IssueKeepsSessions(t, e.token, e.now, t.generation, hash.value, limits);
      }
    }
  }

  lemma RevokeKeepsOk(s: Auth, token: string, limits: Limits)
    requires AuthOk(s, limits)
    ensures AuthOk(Revoke(s, token), limits)
  {
    RevokeKeepsSessions(s, token, limits);
  }

  lemma RevokingKeepsOk(s: Auth, e: AuthEvent, limits: Limits)
    requires AuthOk(s, limits) && (e.Authenticated? || e.LoggedOut? || e.TimerFired?)
    ensures AuthOk(AuthStep(s, e, limits), limits)
  {
    match e {
      case Authenticated(token, now) => if token.Some? { RevokeKeepsOk(s, token.value, limits); }
      case LoggedOut(token) => if token.Some? { RevokeKeepsOk(s, token.value, limits); }
      case TimerFired(id) => if id < |s.leases| { RevokeKeepsOk(s, s.leases[id].token, limits); }
    }
  }

  lemma StreamEventKeepsOk(s: Auth, e: AuthEvent, limits: Limits)
    requires AuthOk(s, limits) && (e.StreamOpened? || e.StreamReleased?)
    ensures AuthOk(AuthStep(s, e, limits), limits)
  {
    match e {
      case StreamOpened(token, now) => OpenKeepsSessions(s, token, now, limits);
      case StreamReleased(id) => ReleaseKeepsSessions(s, id, limits);
    }
  }

  lemma AuthStepKeepsOk(s: Auth, e: AuthEvent, limits: Limits)
    requires AuthOk(s, limits) && AuthAdmissible(s, e) && limits.maxLoginFailures >= 1
    ensures AuthOk(AuthStep(s, e, limits), limits)
  {
    if e.LoginStarted? {
      StartKeepsFailures(s, e.now, limits);
    } else if e.LoginFinished? {
      LoginFinishKeepsOk(s, e.verified, e.token, e.now, limits);
    } else if e.Activated? || e.UpdateFinished? || e.SessionIssued? {
      CredentialChangeKeepsOk(s, e, limits);
    } else if e.StreamOpened? || e.StreamReleased? {
      StreamEventKeepsOk(s, e, limits);
    } else {
      RevokingKeepsOk(s, e, limits);
    }
  }

  lemma AuthAdmissibleFront(s: Auth, es: seq<AuthEvent>, limits: Limits)
    requires AuthAdmissibleRun(s, es, limits) && es != []
    ensures var n := |es| - 1;
      AuthAdmissibleRun(s, es[..n], limits) && AuthAdmissible(AuthRun(s, es[..n], limits), es[n])
  {
    var front := es[..|es| - 1];
    forall k | 0 <= k < |front| ensures AuthAdmissible(AuthRun(s, front[..k], limits), front[k]) {
      assert front[..k] == es[..k];
    }
  }

  /**
   Under every interleaving: stored sessions stem from the current credential and stay
   within their bound, leases are accounted for, and failures are spaced out.
   */
  lemma {:induction false} AuthRunKeepsOk(s: Auth, es: seq<AuthEvent>, limits: Limits)
    requires AuthOk(s, limits) && AuthAdmissibleRun(s, es, limits) && limits.maxLoginFailures >= 1
    ensures AuthOk(AuthRun(s, es, limits), limits)
  {
    if es != [] {
      AuthAdmissibleFront(s, es, limits);
      AuthRunKeepsOk(s, es[..|es| - 1], limits);
      AuthStepKeepsOk(AuthRun(s, es[..|es| - 1], limits), es[|es| - 1], limits);
    }
  }

  lemma InitialOk(passwordHash: Option<string>, limits: Limits)
    requires limits.maxLoginFailures >= 1
    ensures AuthOk(Initial(passwordHash), limits)
  {
  }

  /* ---------- what follows ---------- */

  /** Any `maxLoginFailures + 1` consecutive failures since a reset span at least the window. */
  lemma FailuresSpanWindow(hash: Option<string>, es: seq<AuthEvent>, limits: Limits, i: nat)
    requires AuthAdmissibleRun(Initial(hash), es, limits) && limits.maxLoginFailures >= 1
    requires i + limits.maxLoginFailures < |AuthRun(Initial(hash), es, limits).history|
    ensures var h := AuthRun(Initial(hash), es, limits).history;
      h[i + limits.maxLoginFailures] - h[i] >= limits.loginWindowMs
  {
    InitialOk(hash, limits);
    AuthRunKeepsOk(Initial(hash), es, limits);
  }

  /** While no failure is added, a login is rate limited exactly until the oldest one leaves the window. */
  lemma LimitedUntil(s: Auth, now: int, later: int, limits: Limits)
    requires FailuresOk(s, limits) && limits.maxLoginFailures >= 1 && Limited(s, now, limits) && later >= now
    ensures |Recent(s.failures, now, limits.loginWindowMs)| > 0
    ensures Limited(s, later, limits)
      <==> later < Recent(s.failures, now, limits.loginWindowMs)[0] + limits.loginWindowMs
  {
    FailuresSorted(s.failures, s.history, s.clock, limits);
    var p := RecentIsSuffix(s.failures, now, limits.loginWindowMs);
    var q := RecentIsSuffix(s.failures, later, limits.loginWindowMs);
    assert p == 0 && s.failures[0..] == s.failures;
  }

  /** The hint is exact: that many seconds later a login is admitted, one second less and it is not. */
  lemma RetryHintExact(s: Auth, now: int, limits: Limits)
    requires FailuresOk(s, limits) && limits.maxLoginFailures >= 1 && Limited(s, now, limits)
    ensures var seconds := RetryAfterSeconds(s, now, limits);
      && seconds >= 1
      && !Limited(s, now + 1000 * seconds, limits)
      && Limited(s, now + 1000 * (seconds - 1), limits)
  {
    var seconds := RetryAfterSeconds(s, now, limits);
    LimitedUntil(s, now, now, limits);
    LimitedUntil(s, now, now + 1000 * seconds, limits);
    LimitedUntil(s, now, now + 1000 * (seconds - 1), limits);
  }

  /** The hint in terms of logins: the next one after it goes ahead, one a second earlier does not. */
  lemma AdmittedAfterHint(s: Auth, now: int, limits: Limits, seconds: int)
    requires FailuresOk(s, limits) && s.login.None?
    requires limits.maxLoginFailures >= 1 && Limited(s, now, limits) && seconds == RetryAfterSeconds(s, now, limits)
    ensures LoginStart(s, now + 1000 * seconds, limits).login.Some?
    ensures LoginStart(s, now + 1000 * (seconds - 1), limits).login.None?
  {
    RetryHintExact(s, now, limits);
    AdmittedIff(s, now + 1000 * seconds, limits);
    AdmittedIff(s, now + 1000 * (seconds - 1), limits);
  }

  /** The same with the state a rate-limited login leaves behind. */
  lemma RetryAfterRejection(s: Auth, now: int, limits: Limits, seconds: int)
    requires FailuresOk(s, limits) && s.login.None? && now >= s.clock
    requires limits.maxLoginFailures >= 1 && Limited(s, now, limits) && seconds == RetryAfterSeconds(s, now, limits)
    ensures var t := LoginStart(s, now, limits);
      && t.login.None?
      && LoginStart(t, now + 1000 * seconds, limits).login.Some?
      && LoginStart(t, now + 1000 * (seconds - 1), limits).login.None?
  {
    PruneKeepsTimes(s.failures, s.history, s.clock, now, limits);
    PrunedHint(s, now, limits);
    AdmittedAfterHint(LoginStart(s, now, limits), now, limits, seconds);
  }

  /** Pruning twice at the same time is pruning once. */
  lemma PrunedHint(s: Auth, now: int, limits: Limits)
    requires FailuresOk(s, limits) && s.login.None? && limits.maxLoginFailures >= 1 && Limited(s, now, limits)
    ensures var t := LoginStart(s, now, limits);
      && t == s.(failures := Recent(s.failures, now, limits.loginWindowMs), clock := now)
      && Limited(t, now, limits)
      && RetryAfterSeconds(t, now, limits) == RetryAfterSeconds(s, now, limits)
  {
    FailuresSorted(s.failures, s.history, s.clock, limits);
    RecentTwice(s.failures, now, limits.loginWindowMs);
  }

  lemma AdmittedIff(s: Auth, now: int, limits: Limits)
    requires s.login.None?
    ensures LoginStart(s, now, limits).login.Some? <==> !Limited(s, now, limits)
  {
  }

  lemma RecentTwice(times: seq<int>, now: int, window: int)
    requires Sorted(times)
    ensures Recent(Recent(times, now, window), now, window) == Recent(times, now, window)
  {
    var p := RecentIsSuffix(times, now, window);
    assert forall i :: 0 <= i < |times| - p ==> times[p..][i] == times[p + i];
    var q := RecentIsSuffix(times[p..], now, window);
    assert q == 0 && times[p..][0..] == times[p..];
  }

  /**
   In every reachable state an unreleased lease is live on a stored session with its timer armed, or
   aborted with its timer cancelled.
   */
  lemma LeaseAccounted(s: Auth, limits: Limits, id: nat)
    requires AuthOk(s, limits) && id < |s.leases| && !s.leases[id].released
    ensures if s.leases[id].armed
            then !s.leases[id].aborted && SessionAt(s.sessions, s.leases[id].token) < |s.sessions|
                 && id in s.sessions[SessionAt(s.sessions, s.leases[id].token)].streams
                 && s.leases[id].dueAt == s.sessions[SessionAt(s.sessions, s.leases[id].token)].expiresAt
            else s.leases[id].aborted
  {
    if ListedIn(s.sessions, id) {
      var k :| 0 <= k < |s.sessions| && id in s.sessions[k].streams;
      assert s.sessions[k] in s.sessions;
      StreamToken(s.sessions, s.leases, s.sessions[k], id);
      assert SessionAt(s.sessions, s.sessions[k].token) == k;
    }
  }

  /** Room is made at the expense of expired sessions first, then of the oldest, and only when the table is full. */
  lemma OnlySurplusEvicted(s: Auth, now: int, limits: Limits) returns (k: nat)
    ensures var live := Unexpired(s.sessions, now);
      && k <= |live|
      && MakeRoom(s, now, limits.maxSessions).sessions == live[k..]
      && (k > 0 ==> |live[k..]| + 1 == Max(1, limits.maxSessions))
      && (forall e :: e in live <==> e in s.sessions && e.expiresAt > now)
  {
    k := Surplus(|Unexpired(s.sessions, now)|, limits.maxSessions);
    ExpiryMembers(s.sessions, now);
  }

  lemma IssuedIsLast(s: Auth, token: string, now: int, generation: nat, hash: string, limits: Limits)
    requires s.passwordHash.Some? && FreshToken(MakeRoom(s, now, limits.maxSessions), token)
    ensures var t := Issue(s, token, now, generation, hash, limits);
      && t.sessions != [] && SessionAt(t.sessions, token) == |t.sessions| - 1
      && t.sessions[|t.sessions| - 1].expiresAt == now + limits.sessionTtlMs
  {
    var room := MakeRoom(s, now, limits.maxSessions);
    var t := Issue(s, token, now, generation, hash, limits);
    assert forall k :: 0 <= k < |room.sessions| ==> t.sessions[k] == room.sessions[k];
    assert t.sessions[|room.sessions|].token == token;
  }

  /** A session just issued is authentic exactly until its time to live has passed, and not after a logout. */
  lemma IssuedUntilExpiry(s: Auth, token: string, now: int, later: int, limits: Limits)
    requires AuthOk(s, limits) && FreshToken(s, token) && s.passwordHash.Some?
    ensures var t := IssueCurrent(s, token, now, limits);
      && (IsAuthentic(t, Some(token), later) <==> later < now + limits.sessionTtlMs)
      && !IsAuthentic(Logout(t, Some(token)), Some(token), later)
  {
    var t := IssueCurrent(s, token, now, limits);
    RoomKeepsSessions(s, token, now, limits);
    IssuedIsLast(s, token, now, s.generation, s.passwordHash.value, limits);
    IssueKeepsSessions(s, token, now, s.generation, s.passwordHash.value, limits);
    RevokedIsGone(t, token);
  }

  lemma RevokedIsGone(s: Auth, token: string)
    requires DistinctTokens(s.sessions)
    ensures FreshToken(Revoke(s, token), token)
  {
    var i := SessionAt(s.sessions, token);
    if i < |s.sessions| {
      RemoveShares(s.sessions, i);
      var kept := s.sessions[..i] + s.sessions[i + 1..];
      forall k | 0 <= k < |kept| ensures kept[k].token != token {
        assert kept[k] in kept;
      }
    }
  }

  /**
   In every interleaving, with an unchanged generation the hash is unchanged too: the second comparison
   never decides.
   */
  lemma GenerationDecides(hash: Option<string>, es: seq<AuthEvent>, limits: Limits)
    requires AuthAdmissibleRun(Initial(hash), es, limits) && limits.maxLoginFailures >= 1
    requires AuthRun(Initial(hash), es, limits).login.Some?
    ensures var s := AuthRun(Initial(hash), es, limits);
      Superseded(s, s.login.value) <==> s.login.value.generation != s.generation
  {
    InitialOk(hash, limits);
    AuthRunKeepsOk(Initial(hash), es, limits);
  }

  predicate ChangesCredential(e: AuthEvent) {
    e.Activated? || e.UpdateFinished?
  }

  lemma OneInFlightStays(s: Auth, e: AuthEvent, limits: Limits)
    requires s.login.Some? && !e.LoginFinished?
    ensures AuthStep(s, e, limits).login == s.login
    ensures AuthStep(s, e, limits).generation == s.generation + if ChangesCredential(e) then 1 else 0
  {
  }

  lemma {:induction false} InFlightStays(s: Auth, es: seq<AuthEvent>, limits: Limits)
    requires s.login.Some? && forall k :: 0 <= k < |es| ==> !es[k].LoginFinished?
    ensures AuthRun(s, es, limits).login == s.login
    ensures AuthRun(s, es, limits).generation >= s.generation
    ensures forall k :: 0 <= k < |es| && ChangesCredential(es[k]) ==> AuthRun(s, es, limits).generation > s.generation
  {
    if es != [] {
      InFlightStays(s, es[..|es| - 1], limits);
      OneInFlightStays(AuthRun(s, es[..|es| - 1], limits), es[|es| - 1], limits);
    }
  }

  /** A login in flight across a credential change issues no session and records no failure. */
  lemma LoginDoesNotSurviveChange(
    s: Auth, started: int, es: seq<AuthEvent>, verified: bool, token: string, now: int, limits: Limits)
    requires s.login.None? && LoginStart(s, started, limits).login.Some?
    requires forall k :: 0 <= k < |es| ==> !es[k].LoginFinished?
    requires exists k :: 0 <= k < |es| && ChangesCredential(es[k])
    ensures var before := AuthRun(LoginStart(s, started, limits), es, limits);
      LoginFinish(before, verified, token, now, limits) == before.(login := None)
  {
    InFlightStays(LoginStart(s, started, limits), es, limits);
  }
}
