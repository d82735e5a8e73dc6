/** Who may create the Runtime, and when. */
module RuntimeOwnership {
  import opened Prelude

  // Four entry points lead to an activation; mutations are serialised in one queue and every
  // await is a step. At most one activation is outstanding, none creates a Runtime while one is
  // installed or an unclean candidate is held, and every Runtime ever created is accounted for.

  datatype Mode = Setup(submitting: bool) | ConfigError | Ready

  datatype RuntimeStatus = NoStatus | Activating | Running | Broken(recoveryAllowed: bool)

  /** What became of a Runtime that was created. */
  datatype Fate = InActivation | Installed | CleanlyShutDown | Unclean

  /** Queued mutations, by the entry point that queued them. */
  datatype Mutation = InitialActivation | RetryActivation | DeleteData | CompleteSetup | RecoverConfig | SaveConfig

  /** How far the mutation at the head of the queue has come. */
  datatype Phase =
    | NotStarted
    | Working
    | LoadingConfig
    | Creating
    | Starting(runtime: nat)
    | CleaningUp(runtime: nat)

  /**
   `deferred` counts recovery actions that still have to call `startRuntimeActivation`,
   `releases` the retry and delete callers that still have to clear the pending flag.
   */
  datatype Host = Host(
    mode: Mode, status: RuntimeStatus, installed: Option<nat>, unclean: Option<nat>, fates: seq<Fate>,
    pending: bool, initialStarted: bool, booted: bool,
    queue: seq<Mutation>, phase: Phase, deferred: nat, releases: nat)

  function Initial(mode: Mode): Host {
    Host(mode, if mode.Ready? then Activating else NoStatus, None, None, [], false, false, false, [], NotStarted, 0, 0)
  }

  /* ---------- entry points ---------- */

  /** `startRuntimeActivation`. */
  function StartActivation(h: Host): Host {
    if !h.mode.Ready? || h.installed.Some? || h.initialStarted || h.pending then h
    else h.(initialStarted := true, pending := true, queue := h.queue + [InitialActivation])
  }

  /** `assertRuntimeMutationAvailable`. */
  predicate MutationAvailable(h: Host) {
    h.mode.Ready? && !h.pending && h.status == Broken(true)
  }

  /** `retryRuntime` and `deleteRuntimeData` up to their await. */
  function Claim(h: Host, m: Mutation): Host {
    if MutationAvailable(h) then h.(pending := true, queue := h.queue + [m]) else h
  }

  function SubmitSetup(h: Host): Host {
    if h.mode == Setup(false) then h.(mode := Setup(true), queue := h.queue + [CompleteSetup]) else h
  }

  function RequestRecovery(h: Host): Host {
    if h.mode.ConfigError? then h.(queue := h.queue + [RecoverConfig]) else h
  }

  /* ---------- the running mutation ---------- */

  /** The head mutation ends: its caller still clears the pending flag, unless it does so itself. */
  function Done(h: Host): Host
    requires h.queue != []
  {
    var next := h.(queue := h.queue[1..], phase := NotStarted);
    match h.queue[0]
    case InitialActivation => next.(pending := false)
    case RetryActivation => next.(releases := h.releases + 1)
    case DeleteData => next.(releases := h.releases + 1)
    case _ => next
  }

  /** The start of `activateRuntimeFromCurrentConfig`. */
  function BeginActivation(h: Host): Host {
    h.(status := Activating, phase := LoadingConfig)
  }

  /** `recordRuntimeFailure`, then the end of the mutation. */
  function Fail(h: Host): Host
    requires h.queue != []
  {
    Done(h.(installed := None, status := Broken(true)))
  }

  function StartHead(h: Host): Host {
    if h.queue == [] || !h.phase.NotStarted? then h
    else if h.queue[0].InitialActivation? || h.queue[0].RetryActivation? then BeginActivation(h)
    else h.(phase := Working)
  }

  predicate HeadIs(h: Host, m: Mutation, phase: Phase) {
    h.queue != [] && h.queue[0] == m && h.phase == phase
  }

  /** Runtime data was deleted completely, or the mutation ends here. */
  function DataDeleted(h: Host, complete: bool): Host {
    if !HeadIs(h, DeleteData, Working) then h
    else if complete then BeginActivation(h)
    else Done(h)
  }

  /** The configuration was written, or the setup may be submitted again. */
  function SetupCommitted(h: Host, committed: bool): Host {
    if !HeadIs(h, CompleteSetup, Working) then h
    else if committed then BeginActivation(h.(mode := Ready))
    else Done(h.(mode := if h.mode.Setup? then Setup(false) else h.mode))
  }

  datatype Recovery = StillInvalid | NeedsSetup | Recovered

  /** The end of a config recovery action; activation is started by its caller afterwards. */
  function RecoveryEnds(h: Host, outcome: Recovery): Host {
    if !HeadIs(h, RecoverConfig, Working) then h
    else if !h.mode.ConfigError? then Done(h)
    else
      match outcome
      case StillInvalid => Done(h)
      case NeedsSetup => Done(h.(mode := Setup(false)))
      case Recovered => Done(h.(mode := Ready, status := Activating, deferred := h.deferred + 1))
  }

  function SaveEnds(h: Host): Host {
    if HeadIs(h, SaveConfig, Working) then Done(h) else h
  }

  function ConfigLoaded(h: Host, usable: bool): Host {
    if h.queue == [] || !h.phase.LoadingConfig? then h
    else if usable then h.(phase := Creating)
    else Fail(h)
  }

  function RuntimeCreated(h: Host, created: bool): Host {
    if h.queue == [] || !h.phase.Creating? then h
    else if created then h.(fates := h.fates + [InActivation], phase := Starting(|h.fates|))
    else Fail(h)
  }

  function SetFate(h: Host, runtime: nat, fate: Fate): Host {
    if runtime < |h.fates| then h.(fates := h.fates[runtime := fate]) else h
  }

  /** Recovery and schedulers started and the app was built: install; otherwise clean up. */
  function RuntimeStarted(h: Host, started: bool): Host {
    if h.queue == [] || !h.phase.Starting? then h
    else if started then
      Done(SetFate(h, h.phase.runtime, Installed).(installed := Some(h.phase.runtime), status := Running))
    else h.(phase := CleaningUp(h.phase.runtime))
  }

  function CleanedUp(h: Host, clean: bool): Host {
    if h.queue == [] || !h.phase.CleaningUp? then h
    else if clean then Fail(SetFate(h, h.phase.runtime, CleanlyShutDown))
    else
      Done(SetFate(h, h.phase.runtime, Unclean).(
        unclean := Some(h.phase.runtime), installed := None, status := Broken(false)))
  }

  /** A recovery caller resumes and starts the activation. */
  function ResumeRecovery(h: Host): Host {
    if h.deferred == 0 then h else StartActivation(h.(deferred := h.deferred - 1))
  }

  /** A retry or delete caller resumes and clears the flag. */
  function ReleasePending(h: Host): Host {
    if h.releases == 0 then h else h.(releases := h.releases - 1, pending := false)
  }

  /* ---------- runs ---------- */

  datatype HostEvent =
    | Boot
    | RetryCalled
    | DeleteCalled
    | SetupCalled
    | RecoveryCalled
    | SaveCalled
    | HeadStarted
    | DataDeletion(complete: bool)
    | SetupCommit(committed: bool)
    | RecoveryEnd(outcome: Recovery)
    | SaveEnd
    | ConfigLoad(usable: bool)
    | Creation(created: bool)
    | Startup(started: bool)
    | Cleanup(clean: bool)
    | RecoveryResumed
    | PendingReleased

  function HostStep(h: Host, e: HostEvent): Host {
    match e
    case Boot => StartActivation(h).(booted := true)
    case RetryCalled => Claim(h, RetryActivation)
    case DeleteCalled => Claim(h, DeleteData)
    case SetupCalled => SubmitSetup(h)
    case RecoveryCalled => RequestRecovery(h)
    case SaveCalled => h.(queue := h.queue + [SaveConfig])
    case HeadStarted => StartHead(h)
    case DataDeletion(complete) => DataDeleted(h, complete)
    case SetupCommit(committed) => SetupCommitted(h, committed)
    case RecoveryEnd(outcome) => RecoveryEnds(h, outcome)
    case SaveEnd => SaveEnds(h)
    case ConfigLoad(usable) => ConfigLoaded(h, usable)
    case Creation(created) => RuntimeCreated(h, created)
    case Startup(started) => RuntimeStarted(h, started)
    case Cleanup(clean) => CleanedUp(h, clean)
    case RecoveryResumed => ResumeRecovery(h)
    case PendingReleased => ReleasePending(h)
  }

  function HostRun(h: Host, es: seq<HostEvent>): Host {
    if es == [] then h else HostStep(HostRun(h, es[..|es| - 1]), es[|es| - 1])
  }

  /** The boot call comes first, once, before any request. */
  ghost predicate BootFirst(es: seq<HostEvent>) {
    forall k :: 0 <= k < |es| ==> (es[k].Boot? <==> k == 0)
  }

  /* ---------- the invariant ---------- */

  /** Mutations that set the pending flag. */
  predicate IsPendingKind(m: Mutation) {
    m.InitialActivation? || m.RetryActivation? || m.DeleteData?
  }

  predicate CanActivate(m: Mutation) {
    IsPendingKind(m) || m.CompleteSetup?
  }

  function CountPending(queue: seq<Mutation>): nat {
    if queue == [] then 0 else (if IsPendingKind(queue[0]) then 1 else 0) + CountPending(queue[1..])
  }

  function CountSetups(queue: seq<Mutation>): nat {
    if queue == [] then 0 else (if queue[0].CompleteSetup? then 1 else 0) + CountSetups(queue[1..])
  }

  /** Recovery callers that still have an activation to start: none once the initial one was started. */
  function Starters(h: Host): nat {
    if h.initialStarted then 0 else h.deferred
  }

  /** Outstanding activations: queued or running, or still to be started by a recovery caller. */
  function Claims(h: Host): nat {
    CountPending(h.queue) + CountSetups(h.queue) + Starters(h)
  }

  predicate InActivationPhase(phase: Phase) {
    phase.LoadingConfig? || phase.Creating? || phase.Starting? || phase.CleaningUp?
  }

  /** The pending flag is up exactly while one of its holders has not let go. */
  predicate PendingOk(h: Host) {
    h.releases + CountPending(h.queue) == if h.pending then 1 else 0
  }

  predicate PhaseOk(h: Host) {
    && (!h.phase.NotStarted? ==> h.queue != [])
    && (InActivationPhase(h.phase) ==>
         h.queue != [] && CanActivate(h.queue[0]) && h.status.Activating? && h.mode.Ready?)
    && (h.phase.Working? ==> h.queue != [] && !h.queue[0].InitialActivation? && !h.queue[0].RetryActivation?)
  }

  /** Before the control plane is ready nothing concerns a Runtime but a submitted setup. */
  predicate ModeOk(h: Host) {
    && (h.mode.Ready? ==> h.mode == Ready && !h.status.NoStatus?)
    && (!h.mode.Ready? ==>
          && h.fates == [] && h.installed.None? && h.unclean.None? && h.status.NoStatus?
          && !h.pending && !h.initialStarted && h.deferred == 0)
    && (h.mode.Setup? ==> CountSetups(h.queue) == if h.mode.submitting then 1 else 0)
    && (h.mode.ConfigError? ==> CountSetups(h.queue) == 0)
    && (h.mode.Ready? && CountSetups(h.queue) > 0 ==>
          CountSetups(h.queue) == 1 && h.queue[0].CompleteSetup? && InActivationPhase(h.phase))
  }

  /** The outstanding activation is running, or is the initial one. */
  predicate UnderWay(h: Host) {
    InActivationPhase(h.phase) || InitialActivation in h.queue || Starters(h) > 0
  }

  /** A host that started ready and has not seen its boot call yet. */
  predicate AwaitsBoot(h: Host) {
    && !h.booted && !h.initialStarted && !h.pending && Claims(h) == 0
    && h.installed.None? && h.unclean.None? && h.fates == []
  }

  /** In ready mode the status says whether someone is at work, and what is held otherwise. */
  predicate StatusOk(h: Host) {
    h.mode.Ready? ==>
      && Claims(h) <= 1
      && (Claims(h) == 1 ==> h.installed.None? && h.unclean.None? && (h.status.Activating? || h.status == Broken(true)))
      && (h.status.Activating? ==> (Claims(h) == 1 && UnderWay(h)) || AwaitsBoot(h))
      && (Starters(h) > 0 ==> h.status.Activating? && !h.pending)
      && (h.installed.Some? <==> h.status.Running?)
      && (h.unclean.Some? <==> h.status == Broken(false))
  }

  /** Each Runtime is where its fate says. */
  predicate FateOk(h: Host, id: nat)
    requires id < |h.fates|
  {
    match h.fates[id]
    case InActivation => h.phase == Starting(id) || h.phase == CleaningUp(id)
    case Installed => h.installed == Some(id)
    case CleanlyShutDown => true
    case Unclean => h.unclean == Some(id)
  }

  predicate FatesOk(h: Host) {
    && (forall id :: 0 <= id < |h.fates| ==> FateOk(h, id))
    && (h.phase.Starting? || h.phase.CleaningUp? ==>
          h.phase.runtime < |h.fates| && h.fates[h.phase.runtime].InActivation?)
    && (h.installed.Some? ==> h.installed.value < |h.fates| && h.fates[h.installed.value].Installed?)
    && (h.unclean.Some? ==> h.unclean.value < |h.fates| && h.fates[h.unclean.value].Unclean?)
  }

  predicate HostOk(h: Host) {
    PendingOk(h) && PhaseOk(h) && ModeOk(h) && StatusOk(h) && FatesOk(h)
  }

  /* ---------- counting ---------- */

  lemma {:induction false} CountAppend(queue: seq<Mutation>, m: Mutation)
    ensures CountPending(queue + [m]) == CountPending(queue) + if IsPendingKind(m) then 1 else 0
    ensures CountSetups(queue + [m]) == CountSetups(queue) + if m.CompleteSetup? then 1 else 0
  {
    if queue != [] {
      assert (queue + [m])[1..] == queue[1..] + [m];
      CountAppend(queue[1..], m);
    }
  }

  lemma {:induction false} InitialCounts(queue: seq<Mutation>)
    requires InitialActivation in queue
    ensures CountPending(queue) >= 1
  {
    if queue[0] != InitialActivation {
      InitialCounts(queue[1..]);
    }
  }

  /** With one claim at most, an initial activation in the queue is that claim. */
  lemma OtherHead(h: Host)
    requires h.queue != [] && CountPending(h.queue) <= 1
    ensures IsPendingKind(h.queue[0]) ==> InitialActivation !in h.queue[1..]
    ensures !IsPendingKind(h.queue[0]) ==> (InitialActivation in h.queue <==> InitialActivation in h.queue[1..])
  {
    if InitialActivation in h.queue[1..] {
      InitialCounts(h.queue[1..]);
    }
    assert h.queue == [h.queue[0]] + h.queue[1..];
  }

  /* ---------- preservation ---------- */

  lemma InitialFates(mode: Mode)
    ensures FatesOk(Initial(mode)) && PhaseOk(Initial(mode)) && PendingOk(Initial(mode))
  {
  }

  lemma InitialMode(mode: Mode)
    requires StartingMode(mode)
    ensures ModeOk(Initial(mode))
  {
  }

  lemma AwaitingIsOk(h: Host)
    requires h.mode.Ready? ==> AwaitsBoot(h) && h.status.Activating?
    ensures StatusOk(h)
  {
  }

  lemma InitialStatus(mode: Mode)
    ensures StatusOk(Initial(mode))
  {
    AwaitingIsOk(Initial(mode));
  }

  lemma InitialOk(mode: Mode)
    requires StartingMode(mode)
    ensures HostOk(Initial(mode))
  {
    InitialFates(mode);
    InitialMode(mode);
    InitialStatus(mode);
  }

  /**
   When a boot call does no harm: it does nothing, or no setup is outstanding and no
   unclean candidate is held.
   */
  predicate BootSafe(h: Host) {
    || !h.mode.Ready? || h.installed.Some? || h.initialStarted || h.pending
    || (CountSetups(h.queue) == 0 && h.unclean.None?)
  }

  /** A boot call keeps the invariant exactly when it is safe in this sense. */
  lemma BootKeepsIff(h: Host)
    requires HostOk(h)
    ensures HostOk(HostStep(h, Boot)) <==> BootSafe(h)
  {
    CountAppend(h.queue, InitialActivation);
    FatesUnchanged(h, HostStep(h, Boot));
    assert (h.queue + [InitialActivation])[|h.queue|] == InitialActivation;
  }

  lemma CallKeepsOk(h: Host, e: HostEvent)
    requires HostOk(h)
    requires e.RetryCalled? || e.DeleteCalled? || e.SetupCalled? || e.RecoveryCalled? || e.SaveCalled?
    ensures HostOk(HostStep(h, e))
  {
    var m :=
      match e
      case RetryCalled => RetryActivation
      case DeleteCalled => DeleteData
      case SetupCalled => CompleteSetup
      case RecoveryCalled => RecoverConfig
      case _ => SaveConfig;
    CountAppend(h.queue, m);
    FatesUnchanged(h, HostStep(h, e));
  }

  lemma FatesUnchanged(h: Host, t: Host)
    requires FatesOk(h) && t.fates == h.fates && t.installed == h.installed && t.unclean == h.unclean
      && t.phase == h.phase
    ensures FatesOk(t)
  {
    forall id | 0 <= id < |t.fates| ensures FateOk(t, id) {
      assert FateOk(h, id);
    }
  }

  /** Fates do not depend on phases that concern no Runtime. */
  lemma FatesAtRest(h: Host, t: Host)
    requires FatesOk(h) && t.fates == h.fates && t.installed == h.installed && t.unclean == h.unclean
    requires !h.phase.Starting? && !h.phase.CleaningUp? && !t.phase.Starting? && !t.phase.CleaningUp?
    ensures FatesOk(t)
  {
    forall id | 0 <= id < |t.fates| ensures FateOk(t, id) {
      assert FateOk(h, id);
    }
  }

  lemma StartHeadKeepsOk(h: Host)
    requires HostOk(h)
    ensures HostOk(StartHead(h))
  {
    FatesAtRestIf(h, StartHead(h));
  }

  lemma FatesAtRestIf(h: Host, t: Host)
    requires FatesOk(h) && t.fates == h.fates && t.installed == h.installed && t.unclean == h.unclean
    requires t.phase == h.phase
      || (!h.phase.Starting? && !h.phase.CleaningUp? && !t.phase.Starting? && !t.phase.CleaningUp?)
    ensures FatesOk(t)
  {
    if t.phase == h.phase {
      FatesUnchanged(h, t);
    } else {
      FatesAtRest(h, t);
    }
  }

  lemma DataDeletedKeepsOk(h: Host, complete: bool)
    requires HostOk(h)
    ensures HostOk(DataDeleted(h, complete))
  {
    if h.queue != [] {
      OtherHead(h);
    }
    FatesAtRestIf(h, DataDeleted(h, complete));
  }

  lemma SetupCommittedKeepsOk(h: Host, committed: bool)
    requires HostOk(h)
    ensures HostOk(SetupCommitted(h, committed))
  {
    if h.queue != [] {
      OtherHead(h);
    }
    FatesAtRestIf(h, SetupCommitted(h, committed));
  }

  lemma RecoveryEndKeepsOk(h: Host, outcome: Recovery)
    requires HostOk(h)
    ensures HostOk(RecoveryEnds(h, outcome))
  {
    if h.queue != [] {
      OtherHead(h);
    }
    FatesAtRestIf(h, RecoveryEnds(h, outcome));
  }

  lemma SaveEndKeepsOk(h: Host)
    requires HostOk(h)
    ensures HostOk(SaveEnds(h))
  {
    if h.queue != [] {
      OtherHead(h);
    }
    FatesAtRestIf(h, SaveEnds(h));
  }

  lemma LoadKeepsOk(h: Host, usable: bool)
    requires HostOk(h)
    ensures HostOk(ConfigLoaded(h, usable))
  {
    if h.queue != [] {
      OtherHead(h);
    }
    FatesAtRestIf(h, ConfigLoaded(h, usable));
  }

  lemma CreateKeepsOk(h: Host, created: bool)
    requires HostOk(h)
    ensures HostOk(RuntimeCreated(h, created))
  {
    var t := RuntimeCreated(h, created);
    if h.queue != [] && h.phase.Creating? {
      OtherHead(h);
      if created {
        forall id | 0 <= id < |t.fates| ensures FateOk(t, id) {
          assert id < |h.fates| ==> FateOk(h, id);
        }
      } else {
        FatesAtRest(h, t);
      }
    }
  }

  lemma StartupKeepsOk(h: Host, started: bool)
    requires HostOk(h)
    ensures HostOk(RuntimeStarted(h, started))
  {
    var t := RuntimeStarted(h, started);
    if h.queue != [] && h.phase.Starting? {
      OtherHead(h);
      forall id | 0 <= id < |t.fates| ensures FateOk(t, id) {
        assert FateOk(h, id);
      }
    }
  }

  lemma CleanupKeepsOk(h: Host, clean: bool)
    requires HostOk(h)
    ensures HostOk(CleanedUp(h, clean))
  {
    var t := CleanedUp(h, clean);
    if h.queue != [] && h.phase.CleaningUp? {
      OtherHead(h);
      forall id | 0 <= id < |t.fates| ensures FateOk(t, id) {
        assert FateOk(h, id);
      }
    }
  }

  lemma ContinuationKeepsOk(h: Host, e: HostEvent)
    requires HostOk(h) && (e.RecoveryResumed? || e.PendingReleased?)
    ensures HostOk(HostStep(h, e))
  {
    CountAppend(h.queue, InitialActivation);
    FatesUnchanged(h, HostStep(h, e));
  }

  lemma HostStepKeepsOk(h: Host, e: HostEvent)
    requires HostOk(h) && !e.Boot?
    ensures HostOk(HostStep(h, e))
  {
    match e {
      case HeadStarted => StartHeadKeepsOk(h);
      case ConfigLoad(usable) => LoadKeepsOk(h, usable);
      case Creation(created) => CreateKeepsOk(h, created);
      case Startup(started) => StartupKeepsOk(h, started);
      case Cleanup(clean) => CleanupKeepsOk(h, clean);
      case RecoveryResumed => ContinuationKeepsOk(h, e);
      case PendingReleased => ContinuationKeepsOk(h, e);
      case DataDeletion(complete) => DataDeletedKeepsOk(h, complete);
      case SetupCommit(committed) => SetupCommittedKeepsOk(h, committed);
      case RecoveryEnd(outcome) => RecoveryEndKeepsOk(h, outcome);
      case SaveEnd => SaveEndKeepsOk(h);
      case RetryCalled => CallKeepsOk(h, e);
      case DeleteCalled => CallKeepsOk(h, e);
      case SetupCalled => CallKeepsOk(h, e);
      case RecoveryCalled => CallKeepsOk(h, e);
      case SaveCalled => CallKeepsOk(h, e);
    }
  }

  predicate StartingMode(mode: Mode) {
    mode == Setup(false) || mode == ConfigError || mode == Ready
  }

  /** Every boot call of a run is safe when it is issued. */
  ghost predicate BootsSafe(h: Host, es: seq<HostEvent>) {
    forall k :: 0 <= k < |es| && es[k].Boot? ==> BootSafe(HostRun(h, es[..k]))
  }

  lemma BootsSafeFront(h: Host, es: seq<HostEvent>)
    requires es != []
    ensures BootsSafe(h, es) <==>
      BootsSafe(h, es[..|es| - 1]) && (es[|es| - 1].Boot? ==> BootSafe(HostRun(h, es[..|es| - 1])))
  {
    var front := es[..|es| - 1];
    forall k | 0 <= k < |front| ensures front[k] == es[k] && HostRun(h, front[..k]) == HostRun(h, es[..k]) {
      assert front[..k] == es[..k];
    }
  }

  lemma HostStepKeepsIff(h: Host, e: HostEvent)
    requires HostOk(h)
    ensures HostOk(HostStep(h, e)) <==> (e.Boot? ==> BootSafe(h))
  {
    if e.Boot? {
      BootKeepsIff(h);
    } else {
      HostStepKeepsOk(h, e);
    }
  }

  /** Every interleaving whose boot calls are safe keeps the invariant. */
  lemma {:induction false} HostRunKeepsOk(h: Host, es: seq<HostEvent>)
    requires HostOk(h) && BootsSafe(h, es)
    ensures HostOk(HostRun(h, es))
  {
    if es != [] {
      BootsSafeFront(h, es);
      HostRunKeepsOk(h, es[..|es| - 1]);
      HostStepKeepsIff(HostRun(h, es[..|es| - 1]), es[|es| - 1]);
    }
  }

  /** The invariant holds at every point of the run up to event `n`. */
  ghost predicate OkUpTo(h: Host, es: seq<HostEvent>, n: nat)
    requires n <= |es|
  {
    forall k :: 0 <= k <= n ==> HostOk(HostRun(h, es[..k]))
  }

  ghost predicate SafeUpTo(h: Host, es: seq<HostEvent>, n: nat)
    requires n <= |es|
  {
    forall k :: 0 <= k < n && es[k].Boot? ==> BootSafe(HostRun(h, es[..k]))
  }

  lemma OneMoreEvent(h: Host, es: seq<HostEvent>, n: nat)
    requires n < |es|
    ensures OkUpTo(h, es, n + 1) <==> OkUpTo(h, es, n) && HostOk(HostRun(h, es[..n + 1]))
    ensures SafeUpTo(h, es, n + 1) <==> SafeUpTo(h, es, n) && (es[n].Boot? ==> BootSafe(HostRun(h, es[..n])))
  {
  }

  lemma RunOneMore(h: Host, es: seq<HostEvent>, n: nat)
    requires n < |es|
    ensures HostRun(h, es[..n + 1]) == HostStep(HostRun(h, es[..n]), es[n])
  {
    assert es[..n + 1][..n] == es[..n];
  }

  /** An interleaving keeps the invariant throughout exactly when every boot call in it is safe. */
  lemma {:induction false} OkThroughoutIff(h: Host, es: seq<HostEvent>, n: nat)
    requires HostOk(h) && n <= |es|
    ensures OkUpTo(h, es, n) <==> SafeUpTo(h, es, n)
  {
    if n == 0 {
      assert es[..0] == [];
    } else {
      OneMoreEvent(h, es, n - 1);
      OkThroughoutIff(h, es, n - 1);
      if OkUpTo(h, es, n - 1) {
        assert HostOk(HostRun(h, es[..n - 1]));
        RunOneMore(h, es, n - 1);
        HostStepKeepsIff(HostRun(h, es[..n - 1]), es[n - 1]);
      }
    }
  }

  /** Boot calls are safe when the one boot call comes first, as the launcher issues it. */
  lemma BootFirstIsSafe(mode: Mode, es: seq<HostEvent>)
    requires StartingMode(mode) && BootFirst(es)
    ensures BootsSafe(Initial(mode), es)
  {
    forall k | 0 <= k < |es| && es[k].Boot? ensures BootSafe(HostRun(Initial(mode), es[..k])) {
      assert es[..0] == [];
    }
  }

  lemma ReachableHostOk(mode: Mode, es: seq<HostEvent>)
    requires StartingMode(mode) && BootsSafe(Initial(mode), es)
    ensures HostOk(HostRun(Initial(mode), es))
  {
    InitialOk(mode);
    HostRunKeepsOk(Initial(mode), es);
  }

  /* ---------- what follows ---------- */

  /** A Runtime is created only while none is installed and no unclean candidate is held. */
  lemma CreatesOnlyWhenFree(mode: Mode, es: seq<HostEvent>, e: HostEvent)
    requires StartingMode(mode) && BootsSafe(Initial(mode), es)
    requires |HostStep(HostRun(Initial(mode), es), e).fates| > |HostRun(Initial(mode), es).fates|
    ensures var h := HostRun(Initial(mode), es);
      && h.installed.None? && h.unclean.None? && Claims(h) == 1
      && forall id :: 0 <= id < |h.fates| ==> h.fates[id].CleanlyShutDown?
  {
    var h := HostRun(Initial(mode), es);
    ReachableHostOk(mode, es);
    OnlyCreationCreates(h, e);
    HeadIsClaim(h);
    forall id | 0 <= id < |h.fates| ensures h.fates[id].CleanlyShutDown? {
      assert FateOk(h, id);
    }
  }

  lemma OnlyCreationCreates(h: Host, e: HostEvent)
    requires |HostStep(h, e).fates| > |h.fates|
    ensures e == Creation(true) && h.queue != [] && h.phase.Creating?
  {
    if !e.Creation? {
      OthersCreateNothing(h, e);
      assert false;
    }
  }

  predicate RunsHead(e: HostEvent) {
    e.HeadStarted? || e.DataDeletion? || e.SetupCommit? || e.RecoveryEnd? || e.SaveEnd?
  }

  lemma OthersCreateNothing(h: Host, e: HostEvent)
    requires !e.Creation?
    ensures |HostStep(h, e).fates| == |h.fates|
  {
    if RunsHead(e) {
      HeadsCreateNothing(h, e);
    } else if e.ConfigLoad? || e.Startup? || e.Cleanup? {
      ActivationCreatesNothing(h, e);
    }
  }

  lemma HeadsCreateNothing(h: Host, e: HostEvent)
    requires RunsHead(e)
    ensures |HostStep(h, e).fates| == |h.fates|
  {
  }

  lemma ActivationCreatesNothing(h: Host, e: HostEvent)
    requires e.ConfigLoad? || e.Startup? || e.Cleanup?
    ensures |HostStep(h, e).fates| == |h.fates|
  {
    if h.queue != [] {
      if e.ConfigLoad? {
        EndingCreatesNothing(h);
      } else if e.Startup? {
        StartupCreatesNothing(h, e.started);
      } else {
        CleanupCreatesNothing(h, e.clean);
      }
    }
  }

  lemma StartupCreatesNothing(h: Host, started: bool)
    ensures |RuntimeStarted(h, started).fates| == |h.fates|
  {
  }

  lemma CleanupCreatesNothing(h: Host, clean: bool)
    ensures |CleanedUp(h, clean).fates| == |h.fates|
  {
  }

  lemma EndingCreatesNothing(h: Host)
    requires h.queue != []
    ensures Done(h).fates == h.fates && Fail(h).fates == h.fates
  {
  }

  lemma HeadIsClaim(h: Host)
    requires HostOk(h) && InActivationPhase(h.phase)
    ensures Claims(h) == 1 && h.installed.None? && h.unclean.None?
  {
  }

  /**
   Every Runtime created is installed, cleanly shut down, in activation or the unclean candidate; at
   most one is not shut down.
   */
  lemma EveryRuntimeAccounted(mode: Mode, es: seq<HostEvent>, id: nat)
    requires StartingMode(mode) && BootsSafe(Initial(mode), es)
    requires id < |HostRun(Initial(mode), es).fates|
    ensures var h := HostRun(Initial(mode), es);
      && FateOk(h, id)
      && forall other :: 0 <= other < |h.fates| && other != id && !h.fates[other].CleanlyShutDown? ==>
           h.fates[id].CleanlyShutDown?
  {
    var h := HostRun(Initial(mode), es);
    ReachableHostOk(mode, es);
    assert FateOk(h, id);
    forall other | 0 <= other < |h.fates| && other != id && !h.fates[other].CleanlyShutDown?
      ensures h.fates[id].CleanlyShutDown?
    {
      assert FateOk(h, other);
      AtMostOneHeld(h);
    }
  }

  lemma AtMostOneHeld(h: Host)
    requires HostOk(h)
    ensures !(h.installed.Some? && h.unclean.Some?)
    ensures InActivationPhase(h.phase) ==> h.installed.None? && h.unclean.None?
  {
    if InActivationPhase(h.phase) {
      HeadIsClaim(h);
    }
  }

  lemma UncleanStep(h: Host, e: HostEvent)
    requires HostOk(h) && h.unclean.Some? && (e.Boot? ==> BootSafe(h))
    ensures HostStep(h, e).unclean == h.unclean && HostStep(h, e).fates == h.fates
  {
    UncleanIsIdle(h);
  }

  lemma UncleanIsIdle(h: Host)
    requires HostOk(h) && h.unclean.Some?
    ensures Claims(h) == 0 && h.installed.None? && !InActivationPhase(h.phase)
  {
    if InActivationPhase(h.phase) {
      HeadIsClaim(h);
    }
  }

  /** An unclean candidate blocks every further activation. */
  lemma {:induction false} UncleanBlocks(h: Host, es: seq<HostEvent>)
    requires HostOk(h) && h.unclean.Some? && BootsSafe(h, es)
    ensures HostOk(HostRun(h, es))
    ensures HostRun(h, es).unclean == h.unclean && HostRun(h, es).fates == h.fates && Claims(HostRun(h, es)) == 0
  {
    if es == [] {
      UncleanIsIdle(h);
    } else {
      var front, last := es[..|es| - 1], es[|es| - 1];
      BootsSafeFront(h, es);
      UncleanBlocks(h, front);
      UncleanStep(HostRun(h, front), last);
      HostStepKeepsIff(HostRun(h, front), last);
      UncleanIsIdle(HostStep(HostRun(h, front), last));
    }
  }

  lemma EndedBooted(h: Host)
    requires h.queue != []
    ensures Done(h).booted == h.booted && Fail(h).booted == h.booted
  {
  }

  lemma BootedStays(h: Host, e: HostEvent)
    ensures HostStep(h, e).booted <==> h.booted || e.Boot?
  {
    if h.queue != [] {
      EndedBooted(h);
    }
    if RunsHead(e) {
      HeadsKeepBooted(h, e);
    } else if e.ConfigLoad? || e.Creation? || e.Startup? || e.Cleanup? {
      ActivationKeepsBooted(h, e);
    }
  }

  lemma HeadsKeepBooted(h: Host, e: HostEvent)
    requires RunsHead(e)
    ensures HostStep(h, e).booted == h.booted
  {
  }

  lemma ActivationKeepsBooted(h: Host, e: HostEvent)
    requires e.ConfigLoad? || e.Creation? || e.Startup? || e.Cleanup?
    ensures HostStep(h, e).booted == h.booted
  {
    if e.Startup? {
      StartupKeepsBooted(h, e.started);
    } else if e.Cleanup? {
      CleanupKeepsBooted(h, e.clean);
    }
  }

  lemma StartupKeepsBooted(h: Host, started: bool)
    ensures RuntimeStarted(h, started).booted == h.booted
  {
  }

  lemma CleanupKeepsBooted(h: Host, clean: bool)
    ensures CleanedUp(h, clean).booted == h.booted
  {
  }

  lemma {:induction false} BootedAfterBoot(h: Host, es: seq<HostEvent>)
    ensures HostRun(h, es).booted <==> h.booted || Boot in es
  {
    if es != [] {
      BootedAfterBoot(h, es[..|es| - 1]);
      BootedStays(HostRun(h, es[..|es| - 1]), es[|es| - 1]);
      assert es == es[..|es| - 1] + [es[|es| - 1]];
    }
  }

  /** Once the boot call was made, an activating status means that exactly one activation is outstanding. */
  lemma ActivatingHasOwner(mode: Mode, es: seq<HostEvent>)
    requires StartingMode(mode) && BootsSafe(Initial(mode), es) && Boot in es
    ensures var h := HostRun(Initial(mode), es); h.status.Activating? ==> Claims(h) == 1
  {
    ReachableHostOk(mode, es);
    BootedAfterBoot(Initial(mode), es);
  }
}
