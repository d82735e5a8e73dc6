/**
 The reconciliation closures of the Runtime with the variables they share. Each method is
 one stretch between awaits and performs the transition of module Reconciliation.
 */
module ReconciliationService {
  import opened Reconciliation

  lemma DisarmNone(records: seq<Retry>)
    ensures Disarm(records, {}) == records
  {
  }

  lemma DisarmOneMore(records: seq<Retry>, ids: set<nat>, id: nat)
    requires id < |records|
    ensures var some := Disarm(records, ids);
      some[id := some[id].(armed := false)] == Disarm(records, ids + {id})
  {
  }

  lemma TimersOfOneMore(r: Reconciler, projects: set<Project>, p: Project)
    requires p in r.retries
    ensures TimersOf(r, projects + {p}) == TimersOf(r, projects) + {r.retries[p]}
  {
  }

  lemma OneLess(all: set<Project>, left: set<Project>, p: Project)
    requires left <= all && p in left
    ensures left - {p} <= all && all - (left - {p}) == all - left + {p} && |left - {p}| < |left|
    ensures p in all && p !in all - left
  {
  }

  /** `r` is `was` with the entries of these projects dropped and their timers cleared. */
  ghost predicate Cleared(r: Reconciler, was: Reconciler, projects: set<Project>) {
    && r.retries == was.retries - projects
    && r.records == Disarm(was.records, TimersOf(was, projects))
  }

  lemma NoneCleared(r: Reconciler)
    ensures Cleared(r, r, {})
  {
    assert TimersOf(r, {}) == {};
    DisarmNone(r.records);
  }

  lemma ClearOneMore(r: Reconciler, cleared: set<Project>, p: Project)
    requires EntriesOk(r) && p in r.retries
    ensures var some, id := Disarm(r.records, TimersOf(r, cleared)), r.retries[p];
      && id < |some|
      && some[id := some[id].(armed := false)] == Disarm(r.records, TimersOf(r, cleared + {p}))
    ensures r.retries - cleared - {p} == r.retries - (cleared + {p})
  {
    DisarmOneMore(r.records, TimersOf(r, cleared), r.retries[p]);
    TimersOfOneMore(r, cleared, p);
  }

  /** Clearing one workspace leaves the timers of the others alone. */
  lemma OthersKeepTimers(r: Reconciler, workspace: string)
    requires EntriesOk(r)
    ensures var t := CancelWorkspace(r, workspace);
      forall p :: p in t.retries ==> TimerSet(t, p) == TimerSet(r, p)
  {
    var t := CancelWorkspace(r, workspace);
    var projects := ProjectsIn(r, workspace);
    forall p | p in t.retries ensures TimerSet(t, p) == TimerSet(r, p) {
      assert r.records[r.retries[p]].project == p;
      assert forall q :: q in projects ==> r.records[r.retries[q]].project == q && q != p;
    }
  }

  /** No timer that has an entry survives a shutdown. */
  lemma TimersCleared(r: Reconciler)
    requires EntriesOk(r)
    ensures forall p :: p in r.retries ==> !Shutdown(r).records[r.retries[p]].armed
  {
    forall p | p in r.retries ensures !Shutdown(r).records[r.retries[p]].armed {
      assert r.retries[p] in TimersOf(r, r.retries.Keys);
    }
  }

  class ProjectReconciliation {
    var retries: map<Project, nat>
    /** All retry records made so far; a timer callback keeps hold of its own. */
    var records: seq<Retry>
    var inFlight: set<Project>
    var cancelled: set<string>
    var shuttingDown: bool
    /** Calls of `reconcileRegisteredProject`, each at its current await. */
    var calls: seq<Call>
    ghost var owed: set<Project>

    ghost function View(): Reconciler
      reads this
    {
      Reconciler(retries, records, inFlight, cancelled, shuttingDown, calls, owed)
    }

    ghost predicate Valid()
      reads this
    {
      Ok(View())
    }

    constructor ()
      ensures Valid() && View() == IDLE
    {
      retries, records := map[], [];
      inFlight, cancelled := {}, {};
      shuttingDown := false;
      calls, owed := [], {};
    }

    /** `scheduleProjectReconciliationRetry`; `rethrown` when the error is passed on instead. */
    method ScheduleProjectRetry(p: Project) returns (rethrown: bool, delay: int)
      requires EntriesOk(View())
      modifies this`retries, this`records
      ensures View() == ScheduleRetry(old(View()), p)
      ensures rethrown <==> Stopped(View(), p)
      ensures if rethrown then p !in retries else TimerSet(View(), p)
      ensures !rethrown && !TimerSet(old(View()), p) ==> delay == RetryDelay(NextAttempt(old(View()), p))
    {
      delay := 0;
      if shuttingDown || p.workspace in cancelled {
        retries := retries - {p};
        return true, 0;
      }
      if p in retries && records[retries[p]].armed {
        return false, 0;
      }
      var attempt := (if p in retries then records[retries[p]].attempt else 0) + 1;
      delay := RetryDelay(attempt);
      retries := retries[p := |records|];
      records := records + [Retry(p, attempt, true)];
      rethrown := false;
    }

    /** `reconcileRegisteredProject` up to its registry read. */
    method Reconcile(p: Project) returns (call: nat)
      requires Valid()
      modifies this`calls, this`owed
      ensures Valid() && View() == Request(old(View()), p)
      ensures IsWaiting(View(), call) && calls[call].project == p
      ensures !shuttingDown ==> Wakes(View(), p)
    {
      StepKeepsOk(View(), Requested(p));
      call := |calls|;
      calls := calls + [Call(p, AwaitingRegistry)];
      if !shuttingDown {
        owed := owed + {p};
      }
    }

    /** From the registry read to the first await of a pass, or to the end of the call. */
    method AfterRegistryRead(call: nat, registered: bool) returns (began: bool)
      requires Valid() && IsWaiting(View(), call)
      modifies this
      ensures Valid() && View() == Resume(old(View()), call, registered)
      ensures began <==> CanPass(old(View()), call, registered)
      ensures began <==> IsPassing(View(), call)
      ensures var p := old(calls[call].project);
        && (began ==> p !in old(inFlight) && p in inFlight && !TimerSet(View(), p))
        && (!began && registered && !shuttingDown ==> TimerSet(View(), p))
        && (!registered ==> p !in retries)
    {
      StepKeepsOk(View(), RegistryRead(call, registered));
      began := Continue(call, registered);
    }

    method Continue(call: nat, registered: bool) returns (began: bool)
      requires EntriesOk(View()) && IsWaiting(View(), call)
      modifies this
      ensures View() == Resume(old(View()), call, registered)
      ensures began <==> CanPass(old(View()), call, registered)
      ensures began <==> IsPassing(View(), call)
      ensures var p := old(calls[call].project);
        && (began ==> p !in old(inFlight) && p in inFlight && !TimerSet(View(), p))
        && (!began && registered && !shuttingDown ==> TimerSet(View(), p))
        && (!registered ==> p !in retries)
    {
      var p := calls[call].project;
      if !registered {
        retries := retries - {p};
        calls := calls[call := calls[call].(phase := Finished)];
        owed := owed - {p};
        return false;
      }
      cancelled := cancelled - {p.workspace};
      if shuttingDown || (p in retries && records[retries[p]].armed) {
        calls := calls[call := calls[call].(phase := Finished)];
        return false;
      }
      if p in inFlight {
        var _, _ := ScheduleProjectRetry(p);
        calls := calls[call := calls[call].(phase := Finished)];
        return false;
      }
      inFlight := inFlight + {p};
      calls := calls[call := Call(p, Passing)];
      owed := owed - {p};
      return true;
    }

    /** The end of a pass: forget the retry, or schedule one, and leave the in-flight set. */
    method EndPass(call: nat, succeeded: bool)
      requires Valid() && IsPassing(View(), call)
      modifies this
      ensures Valid()
      ensures View() == if succeeded then PassSucceeds(old(View()), call) else PassFails(old(View()), call)
      ensures var p := old(calls[call].project);
        && p !in inFlight
        && (succeeded || Stopped(old(View()), p) ==> p !in retries)
        && (!succeeded && !Stopped(old(View()), p) ==> TimerSet(View(), p))
    {
      StepKeepsOk(View(), if succeeded then PassSucceeded(call) else PassFailed(call));
      var p := calls[call].project;
      if succeeded {
        retries := retries - {p};
      } else {
        var rethrown, _ := ScheduleProjectRetry(p);
        if !rethrown {
          owed := owed + {p};
        }
      }
      calls := calls[call := calls[call].(phase := Finished)];
      inFlight := inFlight - {p};
    }

    /** The callback of a retry timer. */
    method FireTimer(timer: nat)
      requires Valid() && timer < |records| && records[timer].armed
      modifies this
      ensures Valid() && View() == TimerFires(old(View()), timer)
      ensures !records[timer].armed
      ensures var p := old(records[timer].project);
        if Stopped(old(View()), p) then p !in retries && calls == old(calls) else Waiting(View(), p)
    {
      StepKeepsOk(View(), TimerFired(timer));
      var p := records[timer].project;
      records := records[timer := records[timer].(armed := false)];
      if shuttingDown || p.workspace in cancelled {
        retries := retries - {p};
      } else {
        calls := calls + [Call(p, AwaitingRegistry)];
        assert calls[|calls| - 1] == Call(p, AwaitingRegistry);
      }
    }

    /** Clear one project's timer and drop its entry. */
    method ClearRetry(p: Project, ghost was: Reconciler, ghost cleared: set<Project>)
      requires EntriesOk(was) && p in was.retries && p in retries
      requires Cleared(View(), was, cleared)
      modifies this`retries, this`records
      ensures Cleared(View(), was, cleared + {p})
    {
      ClearOneMore(was, cleared, p);
      var id := retries[p];
      records := records[id := records[id].(armed := false)];
      retries := retries - {p};
    }

    /** Clear the timers of these projects and drop their entries, one by one. */
    method ClearRetries(projects: set<Project>)
      requires EntriesOk(View()) && projects <= retries.Keys
      modifies this`retries, this`records
      ensures Cleared(View(), old(View()), projects)
    {
      var left := projects;
      ghost var was, cleared := View(), {};
      NoneCleared(was);
      while left != {}
        invariant left <= projects && cleared == projects - left
        invariant Cleared(View(), was, cleared)
        decreases |left|
      {
        var p :| p in left;
        OneLess(projects, left, p);
        ClearRetry(p, was, cleared);
        left, cleared := left - {p}, cleared + {p};
      }
    }

    method CancelWorkspaceReconciliation(workspace: string)
      requires Valid()
      modifies this
      ensures Valid() && View() == CancelWorkspace(old(View()), workspace)
      ensures workspace in cancelled && calls == old(calls) && inFlight == old(inFlight)
      ensures forall p :: p in retries <==> p in old(retries) && p.workspace != workspace
      ensures forall p :: p in retries ==> TimerSet(View(), p) == TimerSet(old(View()), p)
    {
      OthersKeepTimers(View(), workspace);
      StepKeepsOk(View(), WorkspaceCancelled(workspace));
      ghost var after := CancelWorkspace(View(), workspace);
      ClearRetries(set p | p in retries && p.workspace == workspace);
      cancelled := cancelled + {workspace};
      owed := after.owed;
      assert View() == after;
    }

    method ShutdownReconciliation()
      requires Valid()
      modifies this
      ensures Valid() && View() == Shutdown(old(View()))
      ensures shuttingDown && calls == old(calls) && inFlight == old(inFlight)
      ensures forall p :: !TimerSet(View(), p) && (p in old(retries) ==> !records[old(retries[p])].armed)
    {
      TimersCleared(View());
      StepKeepsOk(View(), ShutdownRequested);
      shuttingDown := true;
      ClearRetries(retries.Keys);
      owed := {};
      assert retries == map[];
    }
  }
}
