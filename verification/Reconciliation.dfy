/** Per-project reconciliation, with its retries. */
module Reconciliation {
  import opened Prelude

  // Calls wait for the registry, then pass, retry later or leave; timers and cancellation
  // interleave at every await. One pass per project is in flight at a time, no accepted request
  // is lost, and nothing begins after shutdown.

  datatype Project = Project(workspace: string, slug: string)

  /** A retry record; `armed` says that its timer is set and has neither fired nor been cleared. */
  datatype Retry = Retry(project: Project, attempt: nat, armed: bool)

  datatype Phase = AwaitingRegistry | Passing | Finished

  datatype Call = Call(project: Project, phase: Phase)

  /**
   `retries` maps a project to its current record in `records`; older records whose timer
   is still set are found only in `records`. `owed` are the projects with a request since
   which no pass has begun, or whose latest pass failed.
   */
  datatype Reconciler = Reconciler(
    retries: map<Project, nat>, records: seq<Retry>, inFlight: set<Project>, cancelled: set<string>,
    shuttingDown: bool, calls: seq<Call>, owed: set<Project>)

  const IDLE := Reconciler(map[], [], {}, {}, false, [], {})

  /* ---------- transitions ---------- */

  function PowerOfTwo(n: nat): (p: nat)
    ensures p >= 1
  {
    if n == 0 then 1 else 2 * PowerOfTwo(n - 1)
  }

  function RetryDelay(attempt: nat): int
    requires attempt >= 1
  {
    Min(100 * PowerOfTwo(attempt - 1), 30_000)
  }

  predicate TimerSet(r: Reconciler, p: Project) {
    p in r.retries && r.retries[p] < |r.records| && r.records[r.retries[p]].armed
  }

  function NextAttempt(r: Reconciler, p: Project): nat {
    1 + if p in r.retries && r.retries[p] < |r.records| then r.records[r.retries[p]].attempt else 0
  }

  /** Drop a project's entry; its timer, if set, stays set. */
  function Forget(r: Reconciler, p: Project): Reconciler {
    r.(retries := r.retries - {p})
  }

  predicate Stopped(r: Reconciler, p: Project) {
    r.shuttingDown || p.workspace in r.cancelled
  }

  /** `scheduleProjectReconciliationRetry`. */
  function ScheduleRetry(r: Reconciler, p: Project): Reconciler {
    if Stopped(r, p) then Forget(r, p)
    else if TimerSet(r, p) then r
    else
      r.(records := r.records + [Retry(p, NextAttempt(r, p), true)],
         retries := r.retries[p := |r.records|])
  }

  /** A call to `reconcileRegisteredProject`, up to its registry read. */
  function Request(r: Reconciler, p: Project): Reconciler {
    r.(calls := r.calls + [Call(p, AwaitingRegistry)],
       owed := if r.shuttingDown then r.owed else r.owed + {p})
  }

  function Finish(r: Reconciler, c: nat): Reconciler
    requires c < |r.calls|
  {
    r.(calls := r.calls[c := r.calls[c].(phase := Finished)])
  }

  predicate IsWaiting(r: Reconciler, c: nat) {
    c < |r.calls| && r.calls[c].phase.AwaitingRegistry?
  }

  predicate IsPassing(r: Reconciler, c: nat) {
    c < |r.calls| && r.calls[c].phase.Passing?
  }

  /** The call finds its project registered, no shutdown, no timer set and no pass in flight. */
  predicate CanPass(r: Reconciler, c: nat, registered: bool)
    requires c < |r.calls|
  {
    var p := r.calls[c].project;
    registered && !r.shuttingDown && !TimerSet(r, p) && p !in r.inFlight
  }

  /** After the registry read: leave, schedule, or begin a pass. */
  function Resume(r: Reconciler, c: nat, registered: bool): Reconciler {
    if !IsWaiting(r, c) then r
    else
      var p := r.calls[c].project;
      if !registered then Finish(Forget(r, p), c).(owed := r.owed - {p})
      else
        var known := r.(cancelled := r.cancelled - {p.workspace});
        if known.shuttingDown then Finish(known, c)
        else if TimerSet(known, p) then Finish(known, c)
        else if p in known.inFlight then Finish(ScheduleRetry(known, p), c)
        else
          known.(inFlight := known.inFlight + {p},
                 calls := known.calls[c := Call(p, Passing)],
                 owed := known.owed - {p})
  }

  function PassSucceeds(r: Reconciler, c: nat): Reconciler {
    if !IsPassing(r, c) then r
    else
      var p := r.calls[c].project;
      Finish(Forget(r, p), c).(inFlight := r.inFlight - {p})
  }

  /** A failed pass is retried later, unless its project is cancelled or the runtime shuts down. */
  function PassFails(r: Reconciler, c: nat): Reconciler {
    if !IsPassing(r, c) then r
    else
      var p := r.calls[c].project;
      Finish(ScheduleRetry(r, p), c).(
        inFlight := r.inFlight - {p},
        owed := if Stopped(r, p) then r.owed else r.owed + {p})
  }

  /** A timer goes off: unless stopped, it calls `reconcileRegisteredProject`. */
  function TimerFires(r: Reconciler, t: nat): Reconciler {
    if t >= |r.records| || !r.records[t].armed then r
    else
      var p := r.records[t].project;
      var fired := r.(records := r.records[t := r.records[t].(armed := false)]);
      if Stopped(r, p) then Forget(fired, p)
      else fired.(calls := fired.calls + [Call(p, AwaitingRegistry)])
  }

  function Disarm(records: seq<Retry>, ids: set<nat>): (after: seq<Retry>)
    ensures |after| == |records|
    ensures forall t :: 0 <= t < |records| ==>
      after[t] == if t in ids then records[t].(armed := false) else records[t]
  {
    seq(|records|, t requires 0 <= t < |records| => if t in ids then records[t].(armed := false) else records[t])
  }

  function ProjectsIn(r: Reconciler, workspace: string): set<Project> {
    set p | p in r.retries && p.workspace == workspace
  }

  function TimersOf(r: Reconciler, projects: set<Project>): set<nat> {
    set p | p in projects && p in r.retries :: r.retries[p]
  }

  function CancelWorkspace(r: Reconciler, workspace: string): Reconciler {
    var projects := ProjectsIn(r, workspace);
    r.(cancelled := r.cancelled + {workspace},
       records := Disarm(r.records, TimersOf(r, projects)),
       retries := r.retries - projects,
       owed := set p | p in r.owed && p.workspace != workspace)
  }

  function Shutdown(r: Reconciler): Reconciler {
    r.(shuttingDown := true,
       records := Disarm(r.records, TimersOf(r, r.retries.Keys)),
       retries := map[],
       owed := {})
  }

  datatype Event =
    | Requested(project: Project)
    | RegistryRead(call: nat, registered: bool)
    | PassSucceeded(call: nat)
    | PassFailed(call: nat)
    | TimerFired(timer: nat)
    | WorkspaceCancelled(workspace: string)
    | ShutdownRequested

  function Step(r: Reconciler, e: Event): Reconciler {
    match e
    case Requested(p) => Request(r, p)
    case RegistryRead(c, registered) => Resume(r, c, registered)
    case PassSucceeded(c) => PassSucceeds(r, c)
    case PassFailed(c) => PassFails(r, c)
    case TimerFired(t) => TimerFires(r, t)
    case WorkspaceCancelled(workspace) => CancelWorkspace(r, workspace)
    case ShutdownRequested => Shutdown(r)
  }

  function Run(r: Reconciler, es: seq<Event>): Reconciler {
    if es == [] then r else Step(Run(r, es[..|es| - 1]), es[|es| - 1])
  }

  /* ---------- invariants ---------- */

  predicate Waiting(r: Reconciler, p: Project) {
    exists c :: 0 <= c < |r.calls| && r.calls[c] == Call(p, AwaitingRegistry)
  }

  predicate Armed(r: Reconciler, p: Project) {
    exists t :: 0 <= t < |r.records| && r.records[t].armed && r.records[t].project == p
  }

  ghost predicate EntriesOk(r: Reconciler) {
    forall p :: p in r.retries ==> r.retries[p] < |r.records| && r.records[r.retries[p]].project == p
  }

  /** The in-flight set holds exactly the projects with a pass, and each has one pass. */
  ghost predicate SingleFlight(r: Reconciler) {
    && (forall c :: 0 <= c < |r.calls| && r.calls[c].phase.Passing? ==> r.calls[c].project in r.inFlight)
    && (forall p :: p in r.inFlight ==> exists c :: 0 <= c < |r.calls| && r.calls[c] == Call(p, Passing))
    && (forall c, d :: 0 <= c < d < |r.calls| && r.calls[c].phase.Passing? && r.calls[d].phase.Passing? ==>
          r.calls[c].project != r.calls[d].project)
  }

  /** A call is waiting, or a timer will make one; in a cancelled workspace timers make none. */
  ghost predicate Wakes(r: Reconciler, p: Project) {
    if p.workspace in r.cancelled then Waiting(r, p) else Waiting(r, p) || Armed(r, p)
  }

  /** Every owed project has a call on its way or a timer that will make one. */
  ghost predicate NothingLost(r: Reconciler) {
    && (r.shuttingDown ==> r.owed == {} && r.retries == map[])
    && forall p :: p in r.owed ==> Wakes(r, p)
  }

  ghost predicate Ok(r: Reconciler) {
    EntriesOk(r) && SingleFlight(r) && NothingLost(r)
  }

  /* ---------- preservation ---------- */

  lemma WaitingKept(r: Reconciler, t: Reconciler, p: Project)
    requires Waiting(r, p) && |t.calls| >= |r.calls|
    requires forall c :: 0 <= c < |r.calls| && r.calls[c] == Call(p, AwaitingRegistry) ==> t.calls[c] == r.calls[c]
    ensures Waiting(t, p)
  {
    var c :| 0 <= c < |r.calls| && r.calls[c] == Call(p, AwaitingRegistry);
    assert t.calls[c] == Call(p, AwaitingRegistry);
  }

  lemma ArmedKept(r: Reconciler, t: Reconciler, p: Project)
    requires Armed(r, p) && |t.records| >= |r.records|
    requires forall k :: 0 <= k < |r.records| && r.records[k].project == p ==> t.records[k] == r.records[k]
    ensures Armed(t, p)
  {
    var k :| 0 <= k < |r.records| && r.records[k].armed && r.records[k].project == p;
    assert t.records[k].armed;
  }

  lemma SetIsArmed(r: Reconciler, p: Project)
    requires EntriesOk(r) && TimerSet(r, p)
    ensures Armed(r, p)
  {
    assert r.records[r.retries[p]].armed;
  }

  lemma ScheduledIsArmed(r: Reconciler, p: Project)
    requires EntriesOk(r) && !Stopped(r, p)
    ensures Armed(ScheduleRetry(r, p), p)
  {
    if TimerSet(r, p) {
      SetIsArmed(r, p);
    } else {
      assert ScheduleRetry(r, p).records[|r.records|] == Retry(p, NextAttempt(r, p), true);
    }
  }

  lemma ScheduleKeepsEntries(r: Reconciler, p: Project)
    requires EntriesOk(r)
    ensures EntriesOk(ScheduleRetry(r, p))
    ensures forall q :: q != p && Armed(r, q) ==> Armed(ScheduleRetry(r, p), q)
    ensures Armed(r, p) ==> Armed(ScheduleRetry(r, p), p)
  {
    var t := ScheduleRetry(r, p);
    forall q | Armed(r, q) ensures Armed(t, q) {
      ArmedKept(r, t, q);
    }
  }

  lemma RequestKeepsOk(r: Reconciler, p: Project)
    requires Ok(r)
    ensures Ok(Request(r, p))
  {
    var t := Request(r, p);
    assert t.calls[|r.calls|] == Call(p, AwaitingRegistry);
    forall q | q in r.inFlight ensures exists c :: 0 <= c < |t.calls| && t.calls[c] == Call(q, Passing) {
      var c :| 0 <= c < |r.calls| && r.calls[c] == Call(q, Passing);
      assert t.calls[c] == Call(q, Passing);
    }
    forall q | q in t.owed ensures Wakes(t, q) {
      if q != p {
        StillWakes(r, t, q);
      }
    }
  }

  /** Whatever woke `q` still does, when its calls, timers and cancellation are untouched. */
  lemma StillWakes(r: Reconciler, t: Reconciler, q: Project)
    requires Wakes(r, q) && |t.calls| >= |r.calls| && |t.records| >= |r.records|
    requires q.workspace in t.cancelled ==> q.workspace in r.cancelled
    requires forall c :: 0 <= c < |r.calls| && r.calls[c] == Call(q, AwaitingRegistry) ==> t.calls[c] == r.calls[c]
    requires forall k :: 0 <= k < |r.records| && r.records[k].project == q ==> t.records[k] == r.records[k]
    ensures Wakes(t, q)
  {
    if Waiting(r, q) {
      WaitingKept(r, t, q);
    } else {
      ArmedKept(r, t, q);
    }
  }

  /** The passes are those of `r`, but for one call that waited, now finished. */
  lemma FinishWaitingKeepsFlight(r: Reconciler, t: Reconciler, c: nat)
    requires SingleFlight(r) && IsWaiting(r, c) && t.inFlight == r.inFlight
    requires t.calls == r.calls[c := r.calls[c].(phase := Finished)]
    ensures SingleFlight(t)
  {
    forall q | q in r.inFlight ensures exists d :: 0 <= d < |t.calls| && t.calls[d] == Call(q, Passing) {
      var d :| 0 <= d < |r.calls| && r.calls[d] == Call(q, Passing);
      assert d != c && t.calls[d] == Call(q, Passing);
    }
  }

  lemma BeginKeepsFlight(r: Reconciler, t: Reconciler, c: nat)
    requires SingleFlight(r) && IsWaiting(r, c) && r.calls[c].project !in r.inFlight
    requires t.inFlight == r.inFlight + {r.calls[c].project}
    requires t.calls == r.calls[c := Call(r.calls[c].project, Passing)]
    ensures SingleFlight(t)
  {
    assert t.calls[c] == Call(r.calls[c].project, Passing);
    forall q | q in t.inFlight ensures exists d :: 0 <= d < |t.calls| && t.calls[d] == Call(q, Passing) {
      if q != r.calls[c].project {
        var d :| 0 <= d < |r.calls| && r.calls[d] == Call(q, Passing);
        assert t.calls[d] == Call(q, Passing);
      }
    }
  }

  lemma EndKeepsFlight(r: Reconciler, t: Reconciler, c: nat)
    requires SingleFlight(r) && IsPassing(r, c) && t.inFlight == r.inFlight - {r.calls[c].project}
    requires t.calls == r.calls[c := r.calls[c].(phase := Finished)]
    ensures SingleFlight(t)
  {
    forall q | q in t.inFlight ensures exists d :: 0 <= d < |t.calls| && t.calls[d] == Call(q, Passing) {
      var d :| 0 <= d < |r.calls| && r.calls[d] == Call(q, Passing);
      assert t.calls[d] == Call(q, Passing);
    }
    forall d | 0 <= d < |t.calls| && t.calls[d].phase.Passing? ensures t.calls[d].project in t.inFlight {
      assert d != c && r.calls[d].phase.Passing? && r.calls[c].phase.Passing?;
      assert r.calls[d].project != r.calls[c].project;
    }
  }

  lemma UnregisteredKeepsOk(r: Reconciler, c: nat)
    requires Ok(r) && IsWaiting(r, c)
    ensures Ok(Resume(r, c, false))
  {
    var t := Resume(r, c, false);
    FinishWaitingKeepsFlight(r, t, c);
    forall q | q in t.owed ensures Wakes(t, q) {
      StillWakes(r, t, q);
    }
  }

  /** Finishing a waiting call whose project has a timer set loses nothing. */
  lemma LeaveKeepsNothingLost(r: Reconciler, t: Reconciler, c: nat)
    requires NothingLost(r) && IsWaiting(r, c) && !r.shuttingDown && !t.shuttingDown && t.owed == r.owed
    requires t.calls == r.calls[c := r.calls[c].(phase := Finished)]
    requires t.cancelled == r.cancelled - {r.calls[c].project.workspace}
    requires Armed(t, r.calls[c].project)
    requires forall q :: q != r.calls[c].project && Armed(r, q) ==> Armed(t, q)
    ensures NothingLost(t)
  {
    var p := r.calls[c].project;
    forall q | q in t.owed ensures Wakes(t, q) {
      if q != p {
        if Waiting(r, q) {
          WaitingKept(r, t, q);
        }
      }
    }
  }

  lemma RegisteredKeepsOk(r: Reconciler, c: nat)
    requires Ok(r) && IsWaiting(r, c)
    ensures Ok(Resume(r, c, true))
  {
    var p := r.calls[c].project;
    var known := r.(cancelled := r.cancelled - {p.workspace});
    var t := Resume(r, c, true);
    if r.shuttingDown {
      FinishWaitingKeepsFlight(r, t, c);
    } else if TimerSet(r, p) {
      FinishWaitingKeepsFlight(r, t, c);
      SetIsArmed(t, p);
      LeaveKeepsNothingLost(r, t, c);
    } else if p in r.inFlight {
      FinishWaitingKeepsFlight(r, t, c);
      ScheduleKeepsEntries(known, p);
      ScheduledIsArmed(known, p);
      ArmedByRecords(ScheduleRetry(known, p), t);
      ArmedByRecords(r, known);
      LeaveKeepsNothingLost(r, t, c);
    } else {
      BeginKeepsFlight(r, t, c);
      forall q | q in t.owed ensures Wakes(t, q) {
        StillWakes(r, t, q);
      }
    }
  }

  lemma ArmedByRecords(r: Reconciler, t: Reconciler)
    requires t.records == r.records
    ensures forall q :: Armed(r, q) <==> Armed(t, q)
  {
    forall q ensures Armed(r, q) <==> Armed(t, q) {
      if Armed(r, q) { ArmedKept(r, t, q); }
      if Armed(t, q) { ArmedKept(t, r, q); }
    }
  }

  lemma SuccessKeepsOk(r: Reconciler, c: nat)
    requires Ok(r) && IsPassing(r, c)
    ensures Ok(PassSucceeds(r, c))
  {
    var t := PassSucceeds(r, c);
    EndKeepsFlight(r, t, c);
    forall q | q in t.owed ensures Wakes(t, q) {
      StillWakes(r, t, q);
    }
  }

  lemma FailureKeepsOk(r: Reconciler, c: nat)
    requires Ok(r) && IsPassing(r, c)
    ensures Ok(PassFails(r, c))
  {
    var p := r.calls[c].project;
    var scheduled, t := ScheduleRetry(r, p), PassFails(r, c);
    EndKeepsFlight(r, t, c);
    ScheduleKeepsEntries(r, p);
    ArmedByRecords(scheduled, t);
    forall q | q in t.owed ensures Wakes(t, q) {
      if q == p && !Stopped(r, p) {
        ScheduledIsArmed(r, p);
      } else {
        StillWakes(r, t, q);
      }
    }
  }

  lemma TimerKeepsOk(r: Reconciler, k: nat)
    requires Ok(r) && k < |r.records| && r.records[k].armed
    ensures Ok(TimerFires(r, k))
  {
    var p, t := r.records[k].project, TimerFires(r, k);
    forall q | q in t.inFlight ensures exists c :: 0 <= c < |t.calls| && t.calls[c] == Call(q, Passing) {
      var c :| 0 <= c < |r.calls| && r.calls[c] == Call(q, Passing);
      assert t.calls[c] == Call(q, Passing);
    }
    forall q | q in t.owed ensures Wakes(t, q) {
      if q != p {
        StillWakes(r, t, q);
      } else if !Stopped(r, p) {
        assert t.calls[|r.calls|] == Call(p, AwaitingRegistry);
      } else {
        WaitingKept(r, t, q);
      }
    }
  }

  lemma CancelKeepsOk(r: Reconciler, workspace: string)
    requires Ok(r)
    ensures Ok(CancelWorkspace(r, workspace))
  {
    var t := CancelWorkspace(r, workspace);
    forall q | q in t.owed ensures Wakes(t, q) {
      forall k | 0 <= k < |r.records| && r.records[k].project == q ensures t.records[k] == r.records[k] {
        assert forall p :: p in ProjectsIn(r, workspace) ==> r.records[r.retries[p]].project == p;
      }
      StillWakes(r, t, q);
    }
  }

  lemma StepKeepsOk(r: Reconciler, e: Event)
    requires Ok(r)
    ensures Ok(Step(r, e))
  {
    match e {
      case Requested(p) => RequestKeepsOk(r, p);
      case RegistryRead(c, registered) =>
        if IsWaiting(r, c) {
          if registered { RegisteredKeepsOk(r, c); } else { UnregisteredKeepsOk(r, c); }
        }
      case PassSucceeded(c) => if IsPassing(r, c) { SuccessKeepsOk(r, c); }
      case PassFailed(c) => if IsPassing(r, c) { FailureKeepsOk(r, c); }
      case TimerFired(k) => if k < |r.records| && r.records[k].armed { TimerKeepsOk(r, k); }
      case WorkspaceCancelled(workspace) => CancelKeepsOk(r, workspace);
      case ShutdownRequested =>
    }
  }

  lemma {:induction false} RunKeepsOk(r: Reconciler, es: seq<Event>)
    requires Ok(r)
    ensures Ok(Run(r, es))
  {
    if es != [] {
      RunKeepsOk(r, es[..|es| - 1]);
      StepKeepsOk(Run(r, es[..|es| - 1]), es[|es| - 1]);
    }
  }

  /** Under every interleaving at most one pass per project is in flight. */
  lemma AtMostOnePass(es: seq<Event>, c: nat, d: nat)
    requires IsPassing(Run(IDLE, es), c) && IsPassing(Run(IDLE, es), d)
    requires Run(IDLE, es).calls[c].project == Run(IDLE, es).calls[d].project
    ensures c == d
  {
    RunKeepsOk(IDLE, es);
  }

  /* ---------- no lost request ---------- */

  /** This event begins a pass for the project. */
  predicate BeginsPass(r: Reconciler, e: Event, p: Project) {
    && e.RegistryRead?
    && IsWaiting(r, e.call)
    && r.calls[e.call].project == p
    && CanPass(r, e.call, e.registered)
  }

  /** This event withdraws the project: its removal is noticed, its workspace is cancelled, or all is shut down. */
  predicate Withdraws(r: Reconciler, e: Event, p: Project) {
    || (e.RegistryRead? && IsWaiting(r, e.call) && r.calls[e.call].project == p && !e.registered)
    || (e.WorkspaceCancelled? && e.workspace == p.workspace)
    || e.ShutdownRequested?
  }

  ghost predicate Undisturbed(r: Reconciler, es: seq<Event>, p: Project) {
    forall k :: 0 <= k < |es| ==> !BeginsPass(Run(r, es[..k]), es[k], p) && !Withdraws(Run(r, es[..k]), es[k], p)
  }

  lemma OwedStays(r: Reconciler, e: Event, p: Project)
    requires p in r.owed && !BeginsPass(r, e, p) && !Withdraws(r, e, p)
    ensures p in Step(r, e).owed && Step(r, e).shuttingDown == r.shuttingDown
  {
  }

  lemma {:induction false} OwedThroughout(r: Reconciler, es: seq<Event>, p: Project)
    requires p in r.owed && Undisturbed(r, es, p)
    ensures p in Run(r, es).owed
  {
    if es != [] {
      var front := es[..|es| - 1];
      forall k | 0 <= k < |front|
        ensures !BeginsPass(Run(r, front[..k]), front[k], p) && !Withdraws(Run(r, front[..k]), front[k], p)
      {
        assert front[..k] == es[..k];
      }
      OwedThroughout(r, front, p);
      assert es[..|front|] == front;
      OwedStays(Run(r, front), es[|front|], p);
    }
  }

  /**
   No lost wake-up: from a request on, until a pass begins or the project is withdrawn, a
   call for it is waiting, or one of its timers is set and will make one, also when a success
   has dropped the entry that the timer belonged to.
   */
  lemma RequestNotLost(before: seq<Event>, p: Project, after: seq<Event>)
    requires !Run(IDLE, before).shuttingDown
    requires Undisturbed(Request(Run(IDLE, before), p), after, p)
    ensures Wakes(Run(Request(Run(IDLE, before), p), after), p)
  {
    var r := Run(IDLE, before);
    RunKeepsOk(IDLE, before);
    RequestKeepsOk(r, p);
    RunKeepsOk(Request(r, p), after);
    OwedThroughout(Request(r, p), after, p);
  }

  /** Likewise a failed pass is owed another one. */
  lemma FailureNotLost(before: seq<Event>, c: nat, after: seq<Event>)
    requires IsPassing(Run(IDLE, before), c) && !Stopped(Run(IDLE, before), Run(IDLE, before).calls[c].project)
    requires Undisturbed(PassFails(Run(IDLE, before), c), after, Run(IDLE, before).calls[c].project)
    ensures var p := Run(IDLE, before).calls[c].project;
      Wakes(Run(PassFails(Run(IDLE, before), c), after), p)
  {
    var r := Run(IDLE, before);
    var p := r.calls[c].project;
    RunKeepsOk(IDLE, before);
    FailureKeepsOk(r, c);
    RunKeepsOk(PassFails(r, c), after);
    OwedThroughout(PassFails(r, c), after, p);
  }

  /* ---------- shutdown ---------- */

  lemma ShutdownStays(r: Reconciler, e: Event)
    requires r.shuttingDown
    ensures Step(r, e).shuttingDown
  {
  }

  lemma NoBeginAfterShutdown(r: Reconciler, e: Event, c: nat)
    requires r.shuttingDown && IsPassing(Step(r, e), c)
    ensures IsPassing(r, c) && Step(r, e).calls[c] == r.calls[c]
  {
  }

  lemma {:induction false} ShutdownThroughout(r: Reconciler, es: seq<Event>)
    requires r.shuttingDown
    ensures Run(r, es).shuttingDown
  {
    if es != [] {
      ShutdownThroughout(r, es[..|es| - 1]);
      ShutdownStays(Run(r, es[..|es| - 1]), es[|es| - 1]);
    }
  }

  /** The same pass, in a later state. */
  predicate SamePass(r: Reconciler, t: Reconciler, c: nat) {
    IsPassing(r, c) && IsPassing(t, c) && t.calls[c] == r.calls[c]
  }

  /** Once shutdown is flagged, every later pass had begun before. */
  lemma {:induction false} NoNewPassAfterShutdown(r: Reconciler, es: seq<Event>, c: nat)
    requires r.shuttingDown && IsPassing(Run(r, es), c)
    ensures SamePass(r, Run(r, es), c)
  {
    if es != [] {
      var front, last := es[..|es| - 1], es[|es| - 1];
      ShutdownThroughout(r, front);
      NoBeginAfterShutdown(Run(r, front), last, c);
      NoNewPassAfterShutdown(r, front, c);
    }
  }

  /* ---------- back-off ---------- */

  lemma {:induction false} PowerGrows(m: nat, n: nat)
    requires m <= n
    ensures PowerOfTwo(m) <= PowerOfTwo(n)
    ensures n >= 9 ==> PowerOfTwo(n) >= 512
    decreases n
  {
    if m < n {
      PowerGrows(m, n - 1);
    } else if n > 9 {
      PowerGrows(n - 1, n - 1);
    } else if n == 9 {
      assert PowerOfTwo(8) == 2 * PowerOfTwo(7);
      assert PowerOfTwo(6) == 2 * PowerOfTwo(5);
      assert PowerOfTwo(4) == 2 * PowerOfTwo(3);
      assert PowerOfTwo(2) == 2 * PowerOfTwo(1);
      assert PowerOfTwo(0) == 1;
    }
  }

  /** Delays never shrink as attempts accumulate; they double until the cap and stay there from the tenth attempt. */
  lemma DelayBacksOff(attempt: nat)
    requires attempt >= 1
    ensures 100 <= RetryDelay(attempt) <= RetryDelay(attempt + 1) <= 30_000
    ensures RetryDelay(attempt + 1) == Min(2 * RetryDelay(attempt), 30_000)
    ensures attempt == 1 ==> RetryDelay(attempt) == 100
    ensures attempt >= 10 ==> RetryDelay(attempt) == 30_000
  {
    if attempt >= 10 {
      PowerGrows(9, attempt - 1);
    }
  }

  /* ---------- attempts ---------- */

  function Attempt(r: Reconciler, p: Project): nat {
    if p in r.retries && r.retries[p] < |r.records| then r.records[r.retries[p]].attempt else 0
  }

  /** The event is a failed pass of the project, or a call that finds a pass of it in flight. */
  predicate WantsRetry(r: Reconciler, e: Event, p: Project) {
    || (e.PassFailed? && IsPassing(r, e.call) && r.calls[e.call].project == p)
    || (e.RegistryRead? && e.registered && IsWaiting(r, e.call) && r.calls[e.call].project == p
        && !r.shuttingDown && p in r.inFlight)
  }

  /** The event sets a timer for the project. */
  predicate SetsTimer(r: Reconciler, e: Event, p: Project) {
    WantsRetry(r, e, p) && !TimerSet(r, p) && (e.PassFailed? ==> !Stopped(r, p))
  }

  /** The event ends a streak of retries: success, withdrawal, or a retry that comes too late. */
  predicate EndsStreak(r: Reconciler, e: Event, p: Project) {
    match e
    case Requested(_) => false
    case RegistryRead(c, registered) => !registered && IsWaiting(r, c) && r.calls[c].project == p
    case PassSucceeded(c) => IsPassing(r, c) && r.calls[c].project == p
    case PassFailed(c) => IsPassing(r, c) && r.calls[c].project == p && Stopped(r, p)
    case TimerFired(t) => t < |r.records| && r.records[t].armed && r.records[t].project == p && Stopped(r, p)
    case WorkspaceCancelled(workspace) => p.workspace == workspace
    case ShutdownRequested => true
  }

  /** How often a timer was set for the project since a streak last ended. */
  function Streak(r: Reconciler, es: seq<Event>, p: Project): nat {
    if es == [] then 0
    else
      var mid, e := Run(r, es[..|es| - 1]), es[|es| - 1];
      if EndsStreak(mid, e, p) then 0
      else Streak(r, es[..|es| - 1], p) + if SetsTimer(mid, e, p) then 1 else 0
  }

  ghost predicate CountsAttempt(r: Reconciler, e: Event, p: Project) {
    Attempt(Step(r, e), p)
    == if EndsStreak(r, e, p) then 0 else Attempt(r, p) + if SetsTimer(r, e, p) then 1 else 0
  }

  lemma CallCounts(r: Reconciler, e: Event, p: Project)
    requires EntriesOk(r) && (e.Requested? || e.RegistryRead?)
    ensures CountsAttempt(r, e, p)
  {
  }

  lemma PassEndCounts(r: Reconciler, e: Event, p: Project)
    requires EntriesOk(r) && (e.PassSucceeded? || e.PassFailed?)
    ensures CountsAttempt(r, e, p)
  {
  }

  lemma TimerCounts(r: Reconciler, e: Event, p: Project)
    requires EntriesOk(r) && e.TimerFired?
    ensures CountsAttempt(r, e, p)
  {
  }

  lemma AttemptStep(r: Reconciler, e: Event, p: Project)
    requires EntriesOk(r)
    ensures CountsAttempt(r, e, p)
  {
    if e.Requested? || e.RegistryRead? {
      CallCounts(r, e, p);
    } else if e.PassSucceeded? || e.PassFailed? {
      PassEndCounts(r, e, p);
    } else if e.TimerFired? {
      TimerCounts(r, e, p);
    }
  }

  /** In every interleaving the attempt of a project counts the timers set in its current streak. */
  lemma {:induction false} AttemptsCount(es: seq<Event>, p: Project)
    ensures Attempt(Run(IDLE, es), p) == Streak(IDLE, es, p)
  {
    if es != [] {
      var front, last := es[..|es| - 1], es[|es| - 1];
      AttemptsCount(front, p);
      RunKeepsOk(IDLE, front);
      AttemptStep(Run(IDLE, front), last, p);
    }
  }

  /** So the timer an event sets is that of its place in the streak. */
  lemma NextAttemptIs(es: seq<Event>, e: Event, p: Project)
    requires SetsTimer(Run(IDLE, es), e, p)
    ensures NextAttempt(Run(IDLE, es), p) == Streak(IDLE, es + [e], p)
    ensures TimerSet(Run(IDLE, es + [e]), p) && Attempt(Run(IDLE, es + [e]), p) == Streak(IDLE, es + [e], p)
  {
    var all := es + [e];
    assert all[..|all| - 1] == es && all[|all| - 1] == e;
    RunKeepsOk(IDLE, es);
    AttemptsCount(es, p);
    AttemptsCount(all, p);
  }
}
