/** What a shutdown or a cancellation of reconciliation stops. */
module Withdrawal {
  import opened Reconciliation

  // Both are told from the event on: whatever the rest of the run does, no pass begins after a
  // shutdown, and no retry outlives a cancellation until its workspace is found registered again.

  lemma {:induction false} RunConcat(r: Reconciler, a: seq<Event>, b: seq<Event>)
    ensures Run(r, a + b) == Run(Run(r, a), b)
  {
    if b == [] {
      assert a + b == a;
    } else {
      assert (a + b)[..|a + b| - 1] == a + b[..|b| - 1];
      RunConcat(r, a, b[..|b| - 1]);
    }
  }

  lemma RunOneMore(r: Reconciler, es: seq<Event>, e: Event)
    ensures Run(r, es + [e]) == Step(Run(r, es), e)
  {
    assert (es + [e])[..|es|] == es;
  }

  /* ---------- shutdown ---------- */

  /** No timer is set, and none that is still armed makes a call. */
  ghost predicate NoTimers(r: Reconciler) {
    && (forall p: Project :: !TimerSet(r, p))
    && (forall t: nat :: Step(r, TimerFired(t)).calls == r.calls)
  }

  lemma ShutNoTimers(r: Reconciler)
    requires Ok(r) && r.shuttingDown
    ensures NoTimers(r)
  {
  }

  lemma ShutdownFlags(r: Reconciler)
    ensures Step(r, ShutdownRequested).shuttingDown && Step(r, ShutdownRequested).calls == r.calls
  {
  }

  /**
   After a shutdown, in every interleaving: a pass in flight had begun before it, no retry is
   scheduled, and no timer has an effect.
   */
  lemma ShutdownStops(before: seq<Event>, after: seq<Event>)
    ensures var r := Run(IDLE, before + [ShutdownRequested] + after);
      && NoTimers(r)
      && forall c :: IsPassing(r, c) ==> SamePass(Run(IDLE, before), r, c)
  {
    var r0 := Run(IDLE, before);
    var all := before + [ShutdownRequested] + after;
    RunConcat(IDLE, before + [ShutdownRequested], after);
    RunOneMore(IDLE, before, ShutdownRequested);
    ShutdownFlags(r0);
    var r1 := Step(r0, ShutdownRequested);
    ShutdownThroughout(r1, after);
    RunKeepsOk(IDLE, all);
    ShutNoTimers(Run(IDLE, all));
    forall c | IsPassing(Run(IDLE, all), c) ensures SamePass(r0, Run(IDLE, all), c) {
      NoNewPassAfterShutdown(r1, after, c);
    }
  }

  /* ---------- cancellation ---------- */

  /** A project of the workspace is found registered. */
  predicate Lifts(r: Reconciler, e: Event, workspace: string) {
    e.RegistryRead? && e.registered && IsWaiting(r, e.call) && r.calls[e.call].project.workspace == workspace
  }

  predicate NeverLifted(r: Reconciler, es: seq<Event>, workspace: string) {
    forall k :: 0 <= k < |es| ==> !Lifts(Run(r, es[..k]), es[k], workspace)
  }

  /** No project of the workspace has a timer set, and no armed timer of one makes a call. */
  ghost predicate NoTimersIn(r: Reconciler, workspace: string) {
    && (forall p: Project :: p.workspace == workspace ==> !TimerSet(r, p))
    && (forall t: nat :: t < |r.records| && r.records[t].project.workspace == workspace ==>
          Step(r, TimerFired(t)).calls == r.calls)
  }

  ghost predicate Withdrawn(r: Reconciler, workspace: string) {
    && workspace in r.cancelled
    && forall p :: p in r.retries ==> p.workspace != workspace
  }

  lemma WithdrawnNoTimers(r: Reconciler, workspace: string)
    requires Withdrawn(r, workspace)
    ensures NoTimersIn(r, workspace)
  {
  }

  lemma CancelWithdraws(r: Reconciler, workspace: string)
    ensures Withdrawn(Step(r, WorkspaceCancelled(workspace)), workspace)
  {
  }

  lemma WithdrawnStays(r: Reconciler, e: Event, workspace: string)
    requires Withdrawn(r, workspace) && !Lifts(r, e, workspace)
    ensures Withdrawn(Step(r, e), workspace)
  {
  }

  lemma {:induction false} WithdrawnThroughout(r: Reconciler, es: seq<Event>, workspace: string)
    requires Withdrawn(r, workspace) && NeverLifted(r, es, workspace)
    ensures Withdrawn(Run(r, es), workspace)
  {
    if es != [] {
      var front := es[..|es| - 1];
      assert forall k :: 0 <= k < |front| ==> front[..k] == es[..k] && front[k] == es[k];
      WithdrawnThroughout(r, front, workspace);
      WithdrawnStays(Run(r, front), es[|es| - 1], workspace);
    }
  }

  /** From a cancellation on, until a project of the workspace is found registered, none of them has a retry. */
  lemma CancellationStops(before: seq<Event>, workspace: string, after: seq<Event>)
    requires NeverLifted(Run(IDLE, before + [WorkspaceCancelled(workspace)]), after, workspace)
    ensures var r := Run(IDLE, before + [WorkspaceCancelled(workspace)] + after);
      workspace in r.cancelled && NoTimersIn(r, workspace)
  {
    var cancelled := before + [WorkspaceCancelled(workspace)];
    RunConcat(IDLE, cancelled, after);
    RunOneMore(IDLE, before, WorkspaceCancelled(workspace));
    CancelWithdraws(Run(IDLE, before), workspace);
    WithdrawnThroughout(Run(IDLE, cancelled), after, workspace);
    WithdrawnNoTimers(Run(IDLE, cancelled + after), workspace);
  }

  /** Exactly such a find, and nothing else, ends a cancellation. */
  lemma CancellationLiftedIff(r: Reconciler, e: Event, workspace: string)
    requires workspace in r.cancelled
    ensures workspace in Step(r, e).cancelled <==> !Lifts(r, e, workspace)
  {
  }
}
