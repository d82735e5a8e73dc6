/** When a login is refused, told from what happened before. */
module LoginLimit {
  import opened Prelude
  import opened AuthState

  // The log of failed logins is read off the events of a run; the service itself remembers
  // only the recent end of it.

  /** A login in flight under the current credential ends with a wrong password, or there is no password. */
  predicate Fails(s: Auth, e: AuthEvent) {
    && e.LoginFinished? && s.login.Some? && s.login.value.generation == s.generation
    && (s.login.value.hash.None? || !e.verified)
  }

  /** Failures are forgotten: by a successful login, or by a change of the credential. */
  predicate Forgives(s: Auth, e: AuthEvent) {
    || ChangesCredential(e)
    || (&& e.LoginFinished? && s.login.Some? && s.login.value.generation == s.generation
        && s.login.value.hash.Some? && e.verified)
  }

  /** The start times of the logins that failed since failures were last forgotten. */
  function FailureLog(s: Auth, es: seq<AuthEvent>, limits: Limits): seq<int> {
    if es == [] then []
    else
      var front, last := es[..|es| - 1], es[|es| - 1];
      var mid := AuthRun(s, front, limits);
      if Forgives(mid, last) then []
      else FailureLog(s, front, limits) + if Fails(mid, last) then [mid.login.value.startedAt] else []
  }

  function CountAfter(times: seq<int>, bound: int): nat {
    if times == [] then 0
    else CountAfter(times[..|times| - 1], bound) + if times[|times| - 1] > bound then 1 else 0
  }

  lemma {:induction false} RecentCounts(times: seq<int>, now: int, window: int)
    ensures |Recent(times, now, window)| == CountAfter(times, now - window)
  {
    if times != [] {
      RecentCounts(times[..|times| - 1], now, window);
    }
  }

  lemma {:induction false} CountConcat(a: seq<int>, b: seq<int>, bound: int)
    ensures CountAfter(a + b, bound) == CountAfter(a, bound) + CountAfter(b, bound)
  {
    if b == [] {
      assert a + b == a;
    } else {
      assert (a + b)[..|a + b| - 1] == a + b[..|b| - 1];
      CountConcat(a, b[..|b| - 1], bound);
    }
  }

  lemma {:induction false} NoneAfter(times: seq<int>, bound: int)
    requires forall i :: 0 <= i < |times| ==> times[i] <= bound
    ensures CountAfter(times, bound) == 0
  {
    if times != [] {
      NoneAfter(times[..|times| - 1], bound);
    }
  }

  /** What is not remembered is outside the window of any later login. */
  lemma RememberedCount(s: Auth, now: int, limits: Limits)
    requires FailuresOk(s, limits) && now >= s.clock
    ensures CountAfter(s.failures, now - limits.loginWindowMs) == CountAfter(s.history, now - limits.loginWindowMs)
  {
    var d := |s.history| - |s.failures|;
    assert s.history == s.history[..d] + s.failures;
    NoneAfter(s.history[..d], now - limits.loginWindowMs);
    CountConcat(s.history[..d], s.failures, now - limits.loginWindowMs);
  }

  lemma LogStep(s: Auth, e: AuthEvent, limits: Limits)
    requires AuthOk(s, limits)
    ensures AuthStep(s, e, limits).history
         == if Forgives(s, e) then [] else s.history + if Fails(s, e) then [s.login.value.startedAt] else []
  {
  }

  /** The history of the model is that log. */
  lemma {:induction false} HistoryIsLog(hash: Option<string>, es: seq<AuthEvent>, limits: Limits)
    requires AuthAdmissibleRun(Initial(hash), es, limits) && limits.maxLoginFailures >= 1
    ensures AuthRun(Initial(hash), es, limits).history == FailureLog(Initial(hash), es, limits)
  {
    if es != [] {
      var front, last := es[..|es| - 1], es[|es| - 1];
      AuthAdmissibleFront(Initial(hash), es, limits);
      HistoryIsLog(hash, front, limits);
      InitialOk(hash, limits);
      AuthRunKeepsOk(Initial(hash), front, limits);
      LogStep(AuthRun(Initial(hash), front, limits), last, limits);
    }
  }

  /**
   In every interleaving, a login that need not wait is refused exactly when at least
   `maxLoginFailures` logins that started within the window before it have failed since a
   success or a change of the credential; otherwise it goes ahead under the current one.
   */
  lemma RefusedIff(hash: Option<string>, es: seq<AuthEvent>, now: int, limits: Limits)
    requires AuthAdmissibleRun(Initial(hash), es, limits) && limits.maxLoginFailures >= 1
    requires AuthRun(Initial(hash), es, limits).login.None? && now >= AuthRun(Initial(hash), es, limits).clock
    ensures var s := AuthRun(Initial(hash), es, limits);
      var failed := CountAfter(FailureLog(Initial(hash), es, limits), now - limits.loginWindowMs);
      LoginStart(s, now, limits).login
      == if failed >= limits.maxLoginFailures then None else Some(Attempt(now, s.passwordHash, s.generation))
  {
    var s := AuthRun(Initial(hash), es, limits);
    InitialOk(hash, limits);
    AuthRunKeepsOk(Initial(hash), es, limits);
    HistoryIsLog(hash, es, limits);
    RefusedByHistory(s, now, limits);
  }

  lemma RefusedByHistory(s: Auth, now: int, limits: Limits)
    requires FailuresOk(s, limits) && s.login.None? && now >= s.clock
    ensures LoginStart(s, now, limits).login
         == if CountAfter(s.history, now - limits.loginWindowMs) >= limits.maxLoginFailures then None
            else Some(Attempt(now, s.passwordHash, s.generation))
  {
    RememberedCount(s, now, limits);
    RecentCounts(s.failures, now, limits.loginWindowMs);
  }

  /* ---------- a series of wrong passwords ---------- */

  /** Logins at these times, one after the other, each with a wrong password. */
  function WrongPasswords(times: seq<int>): seq<AuthEvent> {
    if times == [] then []
    else
      var t := times[|times| - 1];
      WrongPasswords(times[..|times| - 1]) + [LoginStarted(t)] + [LoginFinished(false, "", t)]
  }

  lemma {:induction false} RecentAll(times: seq<int>, now: int, window: int)
    requires forall i :: 0 <= i < |times| ==> times[i] > now - window
    ensures Recent(times, now, window) == times
  {
    if times != [] {
      RecentAll(times[..|times| - 1], now, window);
    }
  }

  lemma RunTwoMore(s: Auth, es: seq<AuthEvent>, a: AuthEvent, b: AuthEvent, limits: Limits)
    ensures AuthRun(s, es + [a] + [b], limits) == AuthStep(AuthStep(AuthRun(s, es, limits), a, limits), b, limits)
  {
    assert (es + [a] + [b])[..|es| + 1] == es + [a];
    assert (es + [a])[..|es|] == es;
  }

  /** All failed: one more login is refused exactly when the limit is reached. */
  predicate WithinOneWindow(times: seq<int>, now: int, window: int) {
    && (forall i :: 0 <= i < |times| ==> now - window < times[i] <= now)
    && (forall i, j :: 0 <= i < j < |times| ==> times[i] <= times[j])
  }

  lemma {:induction false} WrongPasswordsAreRecorded(s: Auth, times: seq<int>, now: int, limits: Limits)
    requires s.login.None? && s.failures == [] && |times| <= limits.maxLoginFailures
    requires WithinOneWindow(times, now, limits.loginWindowMs)
    ensures var t := AuthRun(s, WrongPasswords(times), limits);
      t.login.None? && t.failures == times && t.passwordHash == s.passwordHash && t.generation == s.generation
  {
    if times != [] {
      var front, last := times[..|times| - 1], times[|times| - 1];
      WrongPasswordsAreRecorded(s, front, now, limits);
      RunTwoMore(s, WrongPasswords(front), LoginStarted(last), LoginFinished(false, "", last), limits);
      RecentAll(front, last, limits.loginWindowMs);
    }
  }

  /** After `maxLoginFailures` wrong passwords within the window the next login is refused, and not before. */
  lemma LimitEngages(s: Auth, times: seq<int>, now: int, limits: Limits)
    requires s.login.None? && s.failures == [] && |times| <= limits.maxLoginFailures
    requires WithinOneWindow(times, now, limits.loginWindowMs)
    ensures var t := AuthRun(s, WrongPasswords(times), limits);
      LoginStart(t, now, limits).login.None? <==> |times| == limits.maxLoginFailures
  {
    WrongPasswordsAreRecorded(s, times, now, limits);
    RecentAll(times, now, limits.loginWindowMs);
  }

  /** After a success, or a change of the credential, a login that need not wait goes ahead. */
  lemma ForgivenGoesAhead(s: Auth, e: AuthEvent, now: int, limits: Limits)
    requires AuthOk(s, limits) && limits.maxLoginFailures >= 1 && Forgives(s, e)
    ensures var t := AuthStep(s, e, limits);
      t.login.None? ==> LoginStart(t, now, limits).login == Some(Attempt(now, t.passwordHash, t.generation))
  {
    assert AuthStep(s, e, limits).failures == [];
  }
}
