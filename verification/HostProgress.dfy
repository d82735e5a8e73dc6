/** When a Runtime can still be installed. */
module HostProgress {
  import opened Prelude
  import opened RuntimeOwnership
  import opened LateBoot

  // The strategy below takes each mutation to its best end. It installs a Runtime from every
  // state that holds no unclean candidate, so that no entry point and no failure is a dead end.

  /** Some run without a boot call ends with a Runtime installed. */
  ghost predicate CanInstall(h: Host) {
    exists es: seq<HostEvent> :: Boot !in es && HostRun(h, es).installed.Some?
  }

  /** A host that started ready and has not been booted: only its boot call starts an activation. */
  predicate WaitsForBoot(h: Host) {
    h.mode.Ready? && h.status.Activating? && Claims(h) == 0
  }

  /** The states the strategy works in. */
  predicate CanGoOn(h: Host) {
    HostOk(h) && h.unclean.None? && h.installed.None? && !WaitsForBoot(h)
  }

  function EndOfWork(m: Mutation): HostEvent {
    match m
    case DeleteData => DataDeletion(true)
    case CompleteSetup => SetupCommit(true)
    case RecoverConfig => RecoveryEnd(Recovered)
    case _ => SaveEnd
  }

  function NextStep(h: Host): HostEvent {
    match h.phase
    case LoadingConfig => ConfigLoad(true)
    case Creating => Creation(true)
    case Starting(_) => Startup(true)
    case CleaningUp(_) => Cleanup(true)
    case Working => if h.queue != [] then EndOfWork(h.queue[0]) else SaveEnd
    case NotStarted =>
      if h.queue != [] then HeadStarted
      else if Starters(h) > 0 then RecoveryResumed
      else if h.pending then PendingReleased
      else
        match h.mode
        case Ready => RetryCalled
        case Setup(_) => SetupCalled
        case ConfigError => RecoveryCalled
  }

  /** How far away an activation is that is queued or running and not failing. */
  function Distance(h: Host): nat {
    if h.phase.CleaningUp? then 3
    else
      match h.mode
      case Setup(submitting) => if submitting then 0 else 1
      case ConfigError => if RecoverConfig in h.queue then 2 else 3
      case Ready =>
        if CountPending(h.queue) + CountSetups(h.queue) > 0 then 0
        else if Starters(h) > 0 || !h.pending then 1
        else 2
  }

  function PhaseRank(phase: Phase): nat {
    match phase
    case NotStarted => 5
    case Working => 4
    case LoadingConfig => 3
    case Creating => 2
    case Starting(_) => 1
    case CleaningUp(_) => 0
  }

  ghost predicate Closer(t: Host, h: Host) {
    || Distance(t) < Distance(h)
    || (Distance(t) == Distance(h) && |t.queue| < |h.queue|)
    || (Distance(t) == Distance(h) && |t.queue| == |h.queue| && PhaseRank(t.phase) < PhaseRank(h.phase))
  }

  ghost predicate GoesOn(h: Host, e: HostEvent) {
    var t := HostStep(h, e);
    !e.Boot? && (t.installed.Some? || (CanGoOn(t) && Closer(t, h)))
  }

  /* ---------- one step ---------- */

  lemma ActivationGoesOn(h: Host)
    requires CanGoOn(h) && (h.phase.LoadingConfig? || h.phase.Creating? || h.phase.Starting?)
    ensures GoesOn(h, NextStep(h))
  {
    HeadIsClaim(h);
    HostStepKeepsOk(h, NextStep(h));
  }

  lemma CleanupGoesOn(h: Host)
    requires CanGoOn(h) && h.phase.CleaningUp?
    ensures GoesOn(h, NextStep(h))
  {
    HeadIsClaim(h);
    HostStepKeepsOk(h, NextStep(h));
  }

  lemma DeletionGoesOn(h: Host)
    requires CanGoOn(h) && h.phase.Working? && h.queue[0].DeleteData?
    ensures GoesOn(h, NextStep(h))
  {
    HostStepKeepsOk(h, NextStep(h));
  }

  lemma SetupGoesOn(h: Host)
    requires CanGoOn(h) && h.phase.Working? && h.queue[0].CompleteSetup?
    ensures GoesOn(h, NextStep(h))
  {
    HostStepKeepsOk(h, NextStep(h));
  }

  lemma OtherGoesOn(h: Host)
    requires CanGoOn(h) && h.phase.Working? && (h.queue[0].SaveConfig? || h.queue[0].RecoverConfig?)
    ensures GoesOn(h, NextStep(h))
  {
    HostStepKeepsOk(h, NextStep(h));
    OtherHead(h);
    assert h.queue == [h.queue[0]] + h.queue[1..];
  }

  lemma HeadGoesOn(h: Host)
    requires CanGoOn(h) && h.phase.NotStarted? && h.queue != []
    ensures GoesOn(h, NextStep(h))
  {
    HostStepKeepsOk(h, NextStep(h));
  }

  lemma ContinuationGoesOn(h: Host)
    requires CanGoOn(h) && h.phase.NotStarted? && h.queue == [] && (Starters(h) > 0 || h.pending)
    ensures GoesOn(h, NextStep(h))
  {
    HostStepKeepsOk(h, NextStep(h));
    CountAppend([], InitialActivation);
  }

  lemma RetryIsAdmitted(h: Host)
    requires CanGoOn(h) && h.queue == [] && Starters(h) == 0 && !h.pending && h.mode.Ready?
    ensures MutationAvailable(h) && Claim(h, RetryActivation).queue == [RetryActivation]
  {
  }

  lemma ReadyCallGoesOn(h: Host)
    requires CanGoOn(h) && h.phase.NotStarted? && h.queue == [] && Starters(h) == 0 && !h.pending && h.mode.Ready?
    ensures GoesOn(h, NextStep(h))
  {
    RetryIsAdmitted(h);
    HostStepKeepsOk(h, RetryCalled);
  }

  lemma SetupCallGoesOn(h: Host)
    requires CanGoOn(h) && h.phase.NotStarted? && h.queue == [] && Starters(h) == 0 && !h.pending && h.mode.Setup?
    ensures GoesOn(h, NextStep(h))
  {
    HostStepKeepsOk(h, NextStep(h));
  }

  lemma RecoveryCallGoesOn(h: Host)
    requires CanGoOn(h) && h.phase.NotStarted? && h.queue == [] && Starters(h) == 0 && !h.pending && h.mode.ConfigError?
    ensures GoesOn(h, NextStep(h))
  {
    HostStepKeepsOk(h, NextStep(h));
    assert HostStep(h, NextStep(h)).queue == [RecoverConfig];
  }

  lemma IdleGoesOn(h: Host)
    requires CanGoOn(h) && h.phase.NotStarted? && h.queue == []
    ensures GoesOn(h, NextStep(h))
  {
    if Starters(h) > 0 || h.pending {
      ContinuationGoesOn(h);
    } else if h.mode.Ready? {
      ReadyCallGoesOn(h);
    } else if h.mode.Setup? {
      SetupCallGoesOn(h);
    } else {
      RecoveryCallGoesOn(h);
    }
  }

  lemma StrategyGoesOn(h: Host)
    requires CanGoOn(h)
    ensures GoesOn(h, NextStep(h))
  {
    match h.phase {
      case NotStarted =>
        if h.queue == [] { IdleGoesOn(h); } else { HeadGoesOn(h); }
      case Working => WorkGoesOn(h);
      case CleaningUp(_) => CleanupGoesOn(h);
      case _ => ActivationGoesOn(h);
    }
  }

  lemma WorkGoesOn(h: Host)
    requires CanGoOn(h) && h.phase.Working?
    ensures GoesOn(h, NextStep(h))
  {
    if h.queue[0].DeleteData? {
      DeletionGoesOn(h);
    } else if h.queue[0].CompleteSetup? {
      SetupGoesOn(h);
    } else {
      OtherGoesOn(h);
    }
  }

  /* ---------- the whole strategy ---------- */

  lemma {:induction false} StrategyInstalls(h: Host) returns (es: seq<HostEvent>)
    requires CanGoOn(h)
    ensures Boot !in es && HostRun(h, es).installed.Some?
    decreases Distance(h), |h.queue|, PhaseRank(h.phase)
  {
    var e, t := OneStep(h);
    var rest: seq<HostEvent> := [];
    if t.installed.None? {
      rest := StrategyInstalls(t);
    }
    Prepend(h, e, rest);
    es := [e] + rest;
  }

  lemma Prepend(h: Host, e: HostEvent, rest: seq<HostEvent>)
    requires !e.Boot? && Boot !in rest && HostRun(HostStep(h, e), rest).installed.Some?
    ensures Boot !in [e] + rest && HostRun(h, [e] + rest).installed.Some?
  {
    RunCons(h, e, rest);
  }

  lemma OneStep(h: Host) returns (e: HostEvent, t: Host)
    requires CanGoOn(h)
    ensures t == HostStep(h, e) && !e.Boot?
    ensures t.installed.Some? || (CanGoOn(t) && Closer(t, h))
  {
    e := NextStep(h);
    t := HostStep(h, e);
    StrategyGoesOn(h);
  }

  /**
   Unless it still waits for its boot call, a host can come to have a Runtime installed
   exactly when no unclean candidate is held.
   */
  lemma CanInstallIff(h: Host)
    requires HostOk(h) && !WaitsForBoot(h)
    ensures CanInstall(h) <==> h.unclean.None?
  {
    if h.unclean.Some? {
      forall es: seq<HostEvent> | Boot !in es ensures HostRun(h, es).installed.None? {
        UncleanBlocks(h, es);
        AtMostOneHeld(HostRun(h, es));
      }
    } else if h.installed.Some? {
      assert HostRun(h, []).installed.Some?;
    } else {
      var es := StrategyInstalls(h);
    }
  }

  /** A host that waits for its boot call can install a Runtime once it is booted. */
  lemma BootedCanInstall(h: Host)
    requires HostOk(h) && WaitsForBoot(h)
    ensures CanInstall(HostStep(h, Boot))
  {
    BootKeepsIff(h);
    CountAppend(h.queue, InitialActivation);
    CanInstallIff(HostStep(h, Boot));
  }

  /** From the start on, at every point of every run with safe boot calls. */
  lemma NoDeadEnd(mode: Mode, es: seq<HostEvent>)
    requires StartingMode(mode) && BootsSafe(Initial(mode), es) && HostRun(Initial(mode), es).unclean.None?
    ensures var h := HostRun(Initial(mode), es);
      CanInstall(if WaitsForBoot(h) then HostStep(h, Boot) else h)
  {
    var h := HostRun(Initial(mode), es);
    ReachableHostOk(mode, es);
    if WaitsForBoot(h) {
      BootedCanInstall(h);
    } else {
      CanInstallIff(h);
    }
  }

  /* ---------- calls and their ends ---------- */

  /** What a call queues, if it is admitted. */
  function Queued(h: Host, e: HostEvent): seq<Mutation> {
    match e
    case RetryCalled => if h.mode.Ready? && !h.pending && h.status == Broken(true) then [RetryActivation] else []
    case DeleteCalled => if h.mode.Ready? && !h.pending && h.status == Broken(true) then [DeleteData] else []
    case SetupCalled => if h.mode == Setup(false) then [CompleteSetup] else []
    case RecoveryCalled => if h.mode.ConfigError? then [RecoverConfig] else []
    case SaveCalled => [SaveConfig]
    case Boot =>
      if h.mode.Ready? && h.installed.None? && !h.initialStarted && !h.pending then [InitialActivation] else []
    case RecoveryResumed =>
      if h.deferred > 0 && h.mode.Ready? && h.installed.None? && !h.initialStarted && !h.pending
      then [InitialActivation] else []
    case _ => []
  }

  /**
   A call joins the end of the queue exactly when it is admitted, and touches neither Runtimes nor the
   work at hand.
   */
  lemma CallsJoinQueue(h: Host, e: HostEvent)
    requires e.RetryCalled? || e.DeleteCalled? || e.SetupCalled? || e.RecoveryCalled? || e.SaveCalled?
             || e.Boot? || e.RecoveryResumed?
    ensures var t := HostStep(h, e);
      && t.queue == h.queue + Queued(h, e) && t.phase == h.phase
      && t.fates == h.fates && t.installed == h.installed && t.unclean == h.unclean && t.status == h.status
      && (t.mode == if e.SetupCalled? && h.mode == Setup(false) then Setup(true) else h.mode)
  {
    assert h.queue + [] == h.queue;
  }

  /** Where the end of a mutation that does not activate leaves the host. */
  function ModeAfter(h: Host, e: HostEvent): Mode {
    match e
    case SetupCommit(false) => if h.mode.Setup? then Setup(false) else h.mode
    case RecoveryEnd(NeedsSetup) => if h.mode.ConfigError? then Setup(false) else h.mode
    case RecoveryEnd(Recovered) => if h.mode.ConfigError? then Ready else h.mode
    case _ => h.mode
  }

  /** The work of the head came to an end without an activation. */
  predicate EndsHead(h: Host, e: HostEvent) {
    && h.queue != [] && h.phase.Working?
    && match h.queue[0]
       case DeleteData => e == DataDeletion(false)
       case CompleteSetup => e == SetupCommit(false)
       case RecoverConfig => e.RecoveryEnd?
       case SaveConfig => e.SaveEnd?
       case _ => false
  }

  /** It leaves the queue, the next may begin, and its outcome decides the mode. */
  lemma HeadEnds(h: Host, e: HostEvent)
    requires HostOk(h) && EndsHead(h, e)
    ensures var t := HostStep(h, e);
      && t.queue == h.queue[1..] && t.phase.NotStarted? && t.mode == ModeAfter(h, e)
      && t.fates == h.fates && t.installed == h.installed && t.unclean == h.unclean
      && (t.status == if t.mode != h.mode && t.mode.Ready? then Activating else h.status)
      && t.deferred == h.deferred + (if t.mode != h.mode && t.mode.Ready? then 1 else 0)
  {
  }

  /** How the event ends the activation at the head: with a Runtime, or with the error to show. */
  predicate EndsActivation(h: Host, e: HostEvent) {
    || (h.phase.LoadingConfig? && e == ConfigLoad(false))
    || (h.phase.Creating? && e == Creation(false))
    || (h.phase.Starting? && e == Startup(true))
    || (h.phase.CleaningUp? && e.Cleanup?)
  }

  /** A failure may be retried unless the candidate could not be shut down. */
  function StatusAfter(e: HostEvent): RuntimeStatus {
    match e
    case Startup(true) => Running
    case Cleanup(false) => Broken(false)
    case _ => Broken(true)
  }

  /**
   The activation leaves the queue with its outcome in status, Runtime and candidate. The
   initial one lets the next mutation in at once, a retry or deletion when its caller resumes.
   */
  lemma ActivationEnds(h: Host, e: HostEvent)
    requires HostOk(h) && EndsActivation(h, e)
    ensures h.queue != []
    ensures var t := HostStep(h, e);
      var candidate := if h.phase.Starting? || h.phase.CleaningUp? then Some(h.phase.runtime) else None;
      && t.queue == h.queue[1..] && t.phase.NotStarted? && t.mode == h.mode && t.status == StatusAfter(e)
      && t.installed == (if e.Startup? then candidate else None)
      && t.unclean == (if e == Cleanup(false) then candidate else None)
      && t.pending == (h.pending && !h.queue[0].InitialActivation?)
      && t.releases == h.releases + (if h.queue[0].RetryActivation? || h.queue[0].DeleteData? then 1 else 0)
  {
    HeadIsClaim(h);
  }
}
