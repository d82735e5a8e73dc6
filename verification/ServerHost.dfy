/**
 The control plane object: each method is one stretch between awaits, updates the fields
 in place, and performs the transition of module RuntimeOwnership.
 */
module ServerHost {
  import opened Prelude
  import opened RuntimeOwnership

  lemma BootClaims(h: Host)
    requires HostOk(h) && BootSafe(h)
    ensures var t := HostStep(h, Boot);
      h.mode.Ready? && h.installed.None? && !h.initialStarted && !h.pending ==> t.pending && Claims(t) == 1
  {
    CountAppend(h.queue, InitialActivation);
  }

  /** A claim is the only one, and keeps further callers out. */
  lemma ClaimIsOnly(h: Host, m: Mutation)
    requires HostOk(h) && (m == RetryActivation || m == DeleteData) && MutationAvailable(h)
    ensures Claims(Claim(h, m)) == 1 && !MutationAvailable(Claim(h, m))
  {
    CountAppend(h.queue, m);
  }

  /** A submitted setup is the one outstanding activation. */
  lemma SetupIsOnly(h: Host)
    requires HostOk(h) && h.mode.Setup? && h.mode.submitting
    ensures Claims(h) == 1
  {
  }

  /** While an activation works, nothing is installed or held, and it is the only one. */
  lemma AtWork(h: Host)
    requires HostOk(h) && InActivationPhase(h.phase)
    ensures Claims(h) == 1 && h.installed.None? && h.unclean.None? && h.mode.Ready?
  {
    HeadIsClaim(h);
  }

  /** A mutation that ended with a failure leaves no activation outstanding. */
  lemma EndedClaim(h: Host)
    requires h.queue != [] && CanActivate(h.queue[0]) && Claims(h) == 1
    ensures Claims(Done(h)) == 0
  {
  }

  /** Every Runtime but the installed one was shut down cleanly. */
  predicate OthersShutDown(h: Host) {
    forall id :: 0 <= id < |h.fates| && h.installed != Some(id) ==> h.fates[id].CleanlyShutDown?
  }

  /** Between activations, with nothing unclean, that is so. */
  lemma BetweenActivations(h: Host)
    requires HostOk(h) && h.phase.NotStarted? && h.unclean.None?
    ensures OthersShutDown(h)
  {
    forall id | 0 <= id < |h.fates| && h.installed != Some(id) ensures h.fates[id].CleanlyShutDown? {
      assert FateOk(h, id);
    }
  }

  lemma StartupLeaves(h: Host, started: bool)
    requires HostOk(h) && h.phase.Starting?
    ensures var t := RuntimeStarted(h, started);
      && HostOk(t) && t.installed.Some? == started && Claims(t) == (if started then 0 else 1)
      && (started ==> OthersShutDown(t))
  {
    AtWork(h);
    var t := RuntimeStarted(h, started);
    HostStepKeepsOk(h, Startup(started));
    if started {
      EndedClaim(h);
      BetweenActivations(t);
    }
  }

  lemma CleanupLeaves(h: Host, clean: bool)
    requires HostOk(h) && h.phase.CleaningUp?
    ensures var t := CleanedUp(h, clean);
      && HostOk(t) && t.installed.None? && t.unclean.None? == clean && Claims(t) == 0
      && if clean then OthersShutDown(t) else !MutationAvailable(t)
  {
    AtWork(h);
    EndedClaim(h);
    var t := CleanedUp(h, clean);
    HostStepKeepsOk(h, Cleanup(clean));
    if clean {
      BetweenActivations(t);
    }
  }

  lemma DeletionClaims(h: Host)
    requires HostOk(h) && HeadIs(h, DeleteData, Working)
    ensures h.pending && h.mode.Ready? && Claims(h) == 1 && Claims(Done(h)) == 0
  {
  }

  /** A setup at work belongs to a host that is not ready, and is all that is outstanding. */
  lemma SetupClaims(h: Host)
    requires HostOk(h) && HeadIs(h, CompleteSetup, Working)
    ensures h.mode == Setup(true) && Claims(h) == 1
    ensures Claims(Done(h.(mode := Setup(false)))) == 0
  {
  }

  class ArchCodeServerHost {
    var mode: Mode
    var runtimeStatus: RuntimeStatus
    var runtime: Option<nat>
    var uncleanRuntimeCandidate: Option<nat>
    var fates: seq<Fate>
    var runtimeMutationPending: bool
    var initialRuntimeActivationStarted: bool
    var booted: bool
    /** The promise chain of `mutationTail`, with the progress of its first element. */
    var mutationQueue: seq<Mutation>
    var phase: Phase
    /** Callers that resume after their mutation. */
    var recoveryCallers: nat
    var pendingHolders: nat

    ghost function View(): Host
      reads this
    {
      Host(mode, runtimeStatus, runtime, uncleanRuntimeCandidate, fates, runtimeMutationPending,
           initialRuntimeActivationStarted, booted, mutationQueue, phase, recoveryCallers, pendingHolders)
    }

    ghost predicate Valid()
      reads this
    {
      HostOk(View())
    }

    /** The host as created, with its boot call still to come; it is valid by `InitialOk`. */
    constructor (mode: Mode)
      requires StartingMode(mode)
      ensures View() == Initial(mode)
    {
      this.mode := mode;
      runtimeStatus := if mode.Ready? then Activating else NoStatus;
      runtime, uncleanRuntimeCandidate, fates := None, None, [];
      runtimeMutationPending, initialRuntimeActivationStarted, booted := false, false, false;
      mutationQueue, phase := [], NotStarted;
      recoveryCallers, pendingHolders := 0, 0;
    }

    method RunHostMutation(m: Mutation)
      modifies this`mutationQueue
      ensures mutationQueue == old(mutationQueue) + [m]
    {
      mutationQueue := mutationQueue + [m];
    }

    method StartRuntimeActivation()
      modifies this
      ensures View() == StartActivation(old(View()))
      ensures mode.Ready? ==> runtime.Some? || initialRuntimeActivationStarted || runtimeMutationPending
    {
      if !mode.Ready? || runtime.Some? {
        return;
      }
      if initialRuntimeActivationStarted {
        return;
      }
      if runtimeMutationPending {
        return;
      }
      initialRuntimeActivationStarted := true;
      runtimeMutationPending := true;
      RunHostMutation(InitialActivation);
    }

    /** The boot call, at a point where it can do no harm. */
    method Boot()
      requires Valid() && BootSafe(View())
      modifies this
      ensures Valid() && View() == HostStep(old(View()), RuntimeOwnership.Boot)
      ensures old(mode.Ready? && runtime.None? && !initialRuntimeActivationStarted && !runtimeMutationPending) ==>
        runtimeMutationPending && Claims(View()) == 1
    {
      BootKeepsIff(View());
      BootClaims(View());
      StartAndMark();
    }

    method StartAndMark()
      modifies this
      ensures View() == HostStep(old(View()), RuntimeOwnership.Boot)
    {
      StartRuntimeActivation();
      booted := true;
    }

    /** `assertRuntimeMutationAvailable` as a test. */
    method IsMutationAvailable() returns (available: bool)
      requires Valid()
      ensures available == MutationAvailable(View())
      ensures available ==> Claims(View()) == 0 && runtime.None? && uncleanRuntimeCandidate.None?
    {
      available := false;
      if !mode.Ready? {
        return;
      }
      if runtimeMutationPending || runtimeStatus.Activating? {
        return;
      }
      if runtimeStatus.Running? {
        return;
      }
      if runtimeStatus.Broken? && !runtimeStatus.recoveryAllowed {
        return;
      }
      available := true;
    }

    /** `retryRuntime` or `deleteRuntimeData` up to its await. */
    method ClaimRuntime(m: Mutation) returns (accepted: bool)
      requires Valid() && (m == RetryActivation || m == DeleteData)
      modifies this
      ensures Valid() && View() == Claim(old(View()), m)
      ensures accepted == MutationAvailable(old(View()))
      ensures if accepted then Claims(View()) == 1 && !MutationAvailable(View()) else View() == old(View())
    {
      if MutationAvailable(View()) {
        ClaimIsOnly(View(), m);
      }
      HostStepKeepsOk(View(), if m.DeleteData? then DeleteCalled else RetryCalled);
      accepted := IsMutationAvailable();
      if accepted {
        runtimeMutationPending := true;
        RunHostMutation(m);
      }
    }

    /** `completeSetup` up to its await. */
    method CompleteSetupRequest() returns (accepted: bool)
      requires Valid()
      modifies this
      ensures Valid() && View() == SubmitSetup(old(View()))
      ensures accepted == (old(mode) == Setup(false))
      ensures if accepted then mode.Setup? && Claims(View()) == 1 else View() == old(View())
    {
      HostStepKeepsOk(View(), SetupCalled);
      accepted := mode.Setup? && !mode.submitting;
      if accepted {
        mode := Setup(true);
        RunHostMutation(CompleteSetup);
        SetupIsOnly(View());
      }
    }

    /** The end of the running mutation, whose caller may have something left to do. */
    method EndMutation()
      requires mutationQueue != []
      modifies this
      ensures View() == Done(old(View()))
    {
      var m := mutationQueue[0];
      mutationQueue := mutationQueue[1..];
      phase := NotStarted;
      if m.InitialActivation? {
        runtimeMutationPending := false;
      } else if m.RetryActivation? || m.DeleteData? {
        pendingHolders := pendingHolders + 1;
      }
    }

    method RecordRuntimeFailure()
      modifies this`runtime, this`runtimeStatus
      ensures runtime == None && runtimeStatus == Broken(true)
    {
      runtime := None;
      runtimeStatus := Broken(true);
    }

    method RecordRuntimeCleanupFailure()
      modifies this`runtime, this`runtimeStatus
      ensures runtime == None && runtimeStatus == Broken(false)
    {
      runtime := None;
      runtimeStatus := Broken(false);
    }

    /** The next mutation begins; an activation goes straight to loading the configuration. */
    method BeginHead()
      requires Valid() && mutationQueue != [] && phase.NotStarted?
      modifies this
      ensures Valid() && View() == StartHead(old(View()))
      ensures phase.LoadingConfig? ==> Claims(View()) == 1 && runtime.None? && uncleanRuntimeCandidate.None?
    {
      HostStepKeepsOk(View(), HeadStarted);
      if mutationQueue[0].InitialActivation? || mutationQueue[0].RetryActivation? {
        runtimeStatus := Activating;
        phase := LoadingConfig;
        AtWork(View());
      } else {
        phase := Working;
      }
    }

    /** `deleteRuntimeData` after the deletion. */
    method AfterDeletion(complete: bool)
      requires Valid() && HeadIs(View(), DeleteData, Working)
      modifies this
      ensures Valid() && View() == DataDeleted(old(View()), complete)
      ensures runtimeMutationPending && Claims(View()) == (if complete then 1 else 0)
    {
      DeletionClaims(View());
      HostStepKeepsOk(View(), DataDeletion(complete));
      if complete {
        runtimeStatus := Activating;
        phase := LoadingConfig;
      } else {
        EndMutation();
      }
    }

    /** `completeSetup` after the configuration was written or refused. */
    method AfterInitialize(committed: bool)
      requires Valid() && HeadIs(View(), CompleteSetup, Working)
      modifies this
      ensures Valid() && View() == SetupCommitted(old(View()), committed)
      ensures if committed then mode.Ready? && Claims(View()) == 1 else mode == Setup(false) && Claims(View()) == 0
    {
      SetupClaims(View());
      HostStepKeepsOk(View(), SetupCommit(committed));
      if committed {
        mode := Ready;
        runtimeStatus := Activating;
        phase := LoadingConfig;
      } else {
        if mode.Setup? {
          mode := Setup(false);
        }
        EndMutation();
      }
    }

    /** A config recovery action after its own work. */
    method AfterRecovery(outcome: Recovery)
      requires Valid() && HeadIs(View(), RecoverConfig, Working)
      modifies this
      ensures Valid() && View() == RecoveryEnds(old(View()), outcome)
      ensures old(mode.ConfigError?) && outcome.Recovered? ==> mode.Ready? && recoveryCallers == 1
    {
      HostStepKeepsOk(View(), RecoveryEnd(outcome));
      if mode.ConfigError? {
        match outcome {
          case StillInvalid =>
          case NeedsSetup => mode := Setup(false);
          case Recovered =>
            mode := Ready;
            runtimeStatus := Activating;
            recoveryCallers := recoveryCallers + 1;
        }
      }
      EndMutation();
    }

    method AfterConfigLoad(usable: bool)
      requires Valid() && phase.LoadingConfig?
      modifies this
      ensures Valid() && View() == ConfigLoaded(old(View()), usable)
      ensures runtime.None? && uncleanRuntimeCandidate.None? && Claims(View()) == (if usable then 1 else 0)
      ensures !usable ==> runtimeStatus == Broken(true)
    {
      AtWork(View());
      EndedClaim(View());
      HostStepKeepsOk(View(), ConfigLoad(usable));
      if usable {
        phase := Creating;
      } else {
        RecordRuntimeFailure();
        EndMutation();
      }
    }

    /** `createRuntime` returned a Runtime or threw. */
    method AfterCreation(created: bool)
      requires Valid() && phase.Creating?
      modifies this
      ensures Valid() && View() == RuntimeCreated(old(View()), created)
      ensures old(runtime.None? && uncleanRuntimeCandidate.None?)
      ensures if created then Claims(View()) == 1 else fates == old(fates) && Claims(View()) == 0
    {
      AtWork(View());
      EndedClaim(View());
      HostStepKeepsOk(View(), Creation(created));
      if created {
        phase := Starting(|fates|);
        fates := fates + [InActivation];
      } else {
        RecordRuntimeFailure();
        EndMutation();
      }
    }

    /** Recovery, schedulers and app are up, or something threw and the candidate is shut down. */
    method AfterStartup(started: bool)
      requires Valid() && phase.Starting?
      modifies this
      ensures Valid() && View() == RuntimeStarted(old(View()), started)
      ensures runtime.Some? == started && Claims(View()) == (if started then 0 else 1)
      ensures started ==> OthersShutDown(View())
    {
      StartupLeaves(View(), started);
      var candidate := phase.runtime;
      if started {
        runtime := Some(candidate);
        fates := fates[candidate := Installed];
        runtimeStatus := Running;
        EndMutation();
      } else {
        phase := CleaningUp(candidate);
      }
    }

    method AfterCleanup(clean: bool)
      requires Valid() && phase.CleaningUp?
      modifies this
      ensures Valid() && View() == CleanedUp(old(View()), clean)
      ensures runtime.None? && uncleanRuntimeCandidate.None? == clean && Claims(View()) == 0
      ensures if clean then OthersShutDown(View()) else !MutationAvailable(View())
    {
      CleanupLeaves(View(), clean);
      SettleCandidate(clean);
    }

    method SettleCandidate(clean: bool)
      requires PhaseOk(View()) && FatesOk(View()) && phase.CleaningUp?
      modifies this
      ensures View() == CleanedUp(old(View()), clean)
    {
      var candidate := phase.runtime;
      if clean {
        fates := fates[candidate := CleanlyShutDown];
        RecordRuntimeFailure();
      } else {
        fates := fates[candidate := Unclean];
        uncleanRuntimeCandidate := Some(candidate);
        RecordRuntimeCleanupFailure();
      }
      EndMutation();
    }

    /** A recovery caller goes on after its mutation. */
    method ResumeRecoveryCaller()
      requires Valid() && recoveryCallers > 0
      modifies this
      ensures Valid() && View() == ResumeRecovery(old(View()))
      ensures initialRuntimeActivationStarted
      ensures mutationQueue
        == old(mutationQueue) + if old(initialRuntimeActivationStarted) then [] else [InitialActivation]
    {
      HostStepKeepsOk(View(), RecoveryResumed);
      recoveryCallers := recoveryCallers - 1;
      StartRuntimeActivation();
    }

    /** A retry or delete caller goes on after its mutation. */
    method ReleasePendingFlag()
      requires Valid() && pendingHolders > 0
      modifies this
      ensures Valid() && View() == ReleasePending(old(View()))
      ensures !runtimeMutationPending && (runtimeStatus == Broken(true) ==> MutationAvailable(View()))
    {
      HostStepKeepsOk(View(), PendingReleased);
      pendingHolders := pendingHolders - 1;
      runtimeMutationPending := false;
    }
  }
}
