/** When a boot call leads to a second Runtime. */
module LateBoot {
  import opened Prelude
  import opened RuntimeOwnership

  // `startRuntimeActivation` looks neither at a setup whose activation is running nor at an
  // unclean candidate. These are the only two cases in which a Runtime can be created beside
  // another that is not shut down.

  predicate Held(h: Host) {
    h.installed.Some? || h.unclean.Some?
  }

  /** The event creates a Runtime although one is installed or an unclean candidate is held. */
  predicate CreatesBeside(h: Host, e: HostEvent) {
    Held(h) && |HostStep(h, e).fates| > |h.fates|
  }

  /** Some run without a further boot call does that. */
  ghost predicate CanCreateBeside(h: Host) {
    exists es: seq<HostEvent>, e: HostEvent :: Boot !in es && CreatesBeside(HostRun(h, es), e)
  }

  /* ---------- safe boot calls ---------- */

  /** Under the invariant nothing of the kind can happen before another boot call. */
  lemma OkNeverCreatesBeside(h: Host)
    requires HostOk(h)
    ensures !CanCreateBeside(h)
  {
    forall es: seq<HostEvent>, e: HostEvent | Boot !in es ensures !CreatesBeside(HostRun(h, es), e) {
      HostRunKeepsOk(h, es);
      if |HostStep(HostRun(h, es), e).fates| > |HostRun(h, es).fates| {
        OnlyCreationCreates(HostRun(h, es), e);
        HeadIsClaim(HostRun(h, es));
      }
    }
  }

  /* ---------- unsafe boot calls ---------- */

  /** Mutations that have nothing to do with activations. */
  predicate IsOther(m: Mutation) {
    m.SaveConfig? || m.RecoverConfig?
  }

  predicate AllOther(queue: seq<Mutation>) {
    forall k :: 0 <= k < |queue| ==> IsOther(queue[k])
  }

  lemma {:induction false} OthersOnly(queue: seq<Mutation>)
    requires CountPending(queue) == 0 && CountSetups(queue) == 0
    ensures AllOther(queue)
  {
    if queue != [] {
      OthersOnly(queue[1..]);
      assert forall k :: 0 < k < |queue| ==> queue[k] == queue[1..][k - 1];
    }
  }

  /** A Runtime is held, and an activation is queued behind mutations that do not touch it. */
  predicate Behind(h: Host, others: seq<Mutation>) {
    && h.mode.Ready? && Held(h) && AllOther(others) && h.queue == others + [InitialActivation]
    && (h.phase.NotStarted? || (h.phase.Working? && others != []))
  }

  lemma ActivationBegins(h: Host) returns (es: seq<HostEvent>)
    requires Behind(h, [])
    ensures Boot !in es && CreatesBeside(HostRun(h, es), Creation(true))
  {
    assert [] + [InitialActivation] == [InitialActivation];
    var h1 := HostStep(h, HeadStarted);
    es := [HeadStarted] + ([ConfigLoad(true)] + []);
    RunCons(h1, ConfigLoad(true), []);
    RunCons(h, HeadStarted, [ConfigLoad(true)] + []);
  }

  /** The event that moves such a queue on: the head begins, or it ends. */
  function NextInQueue(h: Host): HostEvent
    requires h.queue != []
  {
    if h.phase.NotStarted? then HeadStarted
    else if h.queue[0].SaveConfig? then SaveEnd
    else RecoveryEnd(StillInvalid)
  }

  lemma QueueMoves(h: Host, others: seq<Mutation>)
    requires Behind(h, others) && others != []
    ensures Behind(HostStep(h, NextInQueue(h)), if h.phase.NotStarted? then others else others[1..])
    ensures h.phase.NotStarted? ==> HostStep(h, NextInQueue(h)).phase.Working?
  {
    assert h.queue[0] == others[0] && IsOther(others[0]);
    assert h.queue[1..] == others[1..] + [InitialActivation];
  }

  /** The queue drains, and the activation at its end creates a Runtime beside the one held. */
  lemma {:induction false} QueueDrains(h: Host, others: seq<Mutation>) returns (es: seq<HostEvent>)
    requires Behind(h, others)
    ensures Boot !in es && CreatesBeside(HostRun(h, es), Creation(true))
    decreases |others|, if h.phase.NotStarted? then 1 else 0
  {
    if others == [] {
      es := ActivationBegins(h);
    } else {
      QueueMoves(h, others);
      var e := NextInQueue(h);
      var rest := QueueDrains(HostStep(h, e), if h.phase.NotStarted? then others else others[1..]);
      RunCons(h, e, rest);
      es := [e] + rest;
    }
  }

  /** A setup activates, with an initial activation queued behind it. */
  predicate SetupFirst(h: Host, others: seq<Mutation>) {
    && h.mode.Ready? && InActivationPhase(h.phase) && AllOther(others)
    && h.queue == [CompleteSetup] + (others + [InitialActivation])
  }

  /** The event that brings the setup's activation on, to a Runtime that stays. */
  function NextInActivation(phase: Phase): HostEvent {
    match phase
    case LoadingConfig => ConfigLoad(true)
    case Creating => Creation(true)
    case Starting(_) => Startup(true)
    case _ => Cleanup(false)
  }

  function StepsLeft(phase: Phase): nat {
    if phase.LoadingConfig? then 2 else if phase.Creating? then 1 else 0
  }

  lemma SetupMoves(h: Host, others: seq<Mutation>)
    requires SetupFirst(h, others)
    ensures var t := HostStep(h, NextInActivation(h.phase));
      if StepsLeft(h.phase) == 0 then Behind(t, others)
      else SetupFirst(t, others) && StepsLeft(t.phase) < StepsLeft(h.phase)
  {
    assert h.queue[1..] == others + [InitialActivation];
  }

  lemma {:induction false} SetupLeaves(h: Host, others: seq<Mutation>) returns (es: seq<HostEvent>)
    requires SetupFirst(h, others)
    ensures Boot !in es && CreatesBeside(HostRun(h, es), Creation(true))
    decreases StepsLeft(h.phase)
  {
    SetupMoves(h, others);
    var e := NextInActivation(h.phase);
    var rest: seq<HostEvent>;
    if StepsLeft(h.phase) == 0 {
      rest := QueueDrains(HostStep(h, e), others);
    } else {
      rest := SetupLeaves(HostStep(h, e), others);
    }
    RunCons(h, e, rest);
    es := [e] + rest;
  }

  /** An unsafe boot call leaves one of the two situations. */
  lemma UnsafeBootQueues(h: Host) returns (others: seq<Mutation>)
    requires HostOk(h) && !BootSafe(h)
    ensures SetupFirst(HostStep(h, Boot), others) || Behind(HostStep(h, Boot), others)
  {
    if CountSetups(h.queue) == 0 {
      others := h.queue;
      UncleanIsIdle(h);
      OthersOnly(others);
    } else {
      others := h.queue[1..];
      OthersOnly(others);
      assert h.queue == [CompleteSetup] + others;
      assert h.queue + [InitialActivation] == [CompleteSetup] + (others + [InitialActivation]);
    }
  }

  lemma UnsafeBootCreates(h: Host)
    requires HostOk(h) && !BootSafe(h)
    ensures CanCreateBeside(HostStep(h, Boot))
  {
    var others := UnsafeBootQueues(h);
    var t := HostStep(h, Boot);
    var es: seq<HostEvent>;
    if Behind(t, others) {
      es := QueueDrains(t, others);
    } else {
      es := SetupLeaves(t, others);
    }
    assert CreatesBeside(HostRun(t, es), Creation(true));
  }

  /* ---------- the exact condition ---------- */

  /**
   After a boot call a Runtime can be created beside an installed one or an unclean
   candidate exactly when the call was not safe.
   */
  lemma BootCreatesBesideIff(h: Host)
    requires HostOk(h)
    ensures CanCreateBeside(HostStep(h, Boot)) <==> !BootSafe(h)
  {
    if BootSafe(h) {
      BootKeepsIff(h);
      OkNeverCreatesBeside(HostStep(h, Boot));
    } else {
      UnsafeBootCreates(h);
    }
  }

  /** At no point of the run up to event `n` can a Runtime be created beside a held one without another boot call. */
  ghost predicate NeverBesideUpTo(h: Host, es: seq<HostEvent>, n: nat)
    requires n <= |es|
  {
    forall k :: 0 <= k <= n ==> !CanCreateBeside(HostRun(h, es[..k]))
  }

  lemma OneMoreNeverBeside(h: Host, es: seq<HostEvent>, n: nat)
    requires n < |es|
    ensures NeverBesideUpTo(h, es, n + 1)
       <==> NeverBesideUpTo(h, es, n) && !CanCreateBeside(HostRun(h, es[..n + 1]))
  {
  }

  /**
   Over any run with boot calls anywhere: no point allows a second Runtime exactly when
   every boot call was safe when issued.
   */
  lemma {:induction false} NeverBesideIff(h: Host, es: seq<HostEvent>, n: nat)
    requires HostOk(h) && n <= |es|
    ensures NeverBesideUpTo(h, es, n) <==> SafeUpTo(h, es, n)
  {
    if n == 0 {
      assert es[..0] == [];
      OkNeverCreatesBeside(h);
    } else {
      NeverBesideIff(h, es, n - 1);
      NeverBesideStep(h, es, n - 1);
    }
  }

  lemma NeverBesideStep(h: Host, es: seq<HostEvent>, n: nat)
    requires HostOk(h) && n < |es| && (NeverBesideUpTo(h, es, n) <==> SafeUpTo(h, es, n))
    ensures NeverBesideUpTo(h, es, n + 1) <==> SafeUpTo(h, es, n + 1)
  {
    OneMoreNeverBeside(h, es, n);
    OneMoreEvent(h, es, n);
    if SafeUpTo(h, es, n) {
      NextNeverBeside(h, es, n);
    }
  }

  lemma NextNeverBeside(h: Host, es: seq<HostEvent>, n: nat)
    requires HostOk(h) && n < |es| && SafeUpTo(h, es, n)
    ensures !CanCreateBeside(HostRun(h, es[..n + 1])) <==> (es[n].Boot? ==> BootSafe(HostRun(h, es[..n])))
  {
    OkThroughoutIff(h, es, n);
    var mid := HostRun(h, es[..n]);
    assert HostOk(mid);
    RunOneMore(h, es, n);
    if es[n].Boot? {
      BootCreatesBesideIff(mid);
    } else {
      HostStepKeepsOk(mid, es[n]);
      OkNeverCreatesBeside(HostStep(mid, es[n]));
    }
  }

  /* ---------- both cases from the start ---------- */

  /** A setup is committed, its activation running, and only then comes the boot call. */
  const BOOTED_LATE := Host(
    Ready, Activating, None, None, [], true, true, true, [CompleteSetup, InitialActivation], LoadingConfig, 0, 0)

  const INSTALLED_AND_CREATING := Host(
    Ready, Activating, Some(0), None, [Installed], true, true, true, [InitialActivation], Creating, 0, 0)

  lemma LateBootQueues()
    ensures var h1 := HostStep(Initial(Setup(false)), SetupCalled);
      var h2 := HostStep(h1, HeadStarted);
      var h3 := HostStep(h2, SetupCommit(true));
      HostStep(h3, Boot) == BOOTED_LATE
  {
  }

  lemma LateBootGoesOn()
    ensures var h5 := HostStep(BOOTED_LATE, ConfigLoad(true));
      var h6 := HostStep(h5, Creation(true));
      var h7 := HostStep(h6, Startup(true));
      var h8 := HostStep(h7, HeadStarted);
      HostStep(h8, ConfigLoad(true)) == INSTALLED_AND_CREATING
  {
    assert [CompleteSetup, InitialActivation][1..] == [InitialActivation];
  }

  lemma {:induction false} HostRunConcat(h: Host, a: seq<HostEvent>, b: seq<HostEvent>)
    ensures HostRun(h, a + b) == HostRun(HostRun(h, a), b)
  {
    if b == [] {
      assert a + b == a;
    } else {
      assert (a + b)[..|a + b| - 1] == a + b[..|b| - 1];
      HostRunConcat(h, a, b[..|b| - 1]);
    }
  }

  lemma RunCons(h: Host, e: HostEvent, es: seq<HostEvent>)
    ensures HostRun(h, [e] + es) == HostRun(HostStep(h, e), es)
  {
    HostRunConcat(h, [e], es);
    assert [e][..0] == [];
  }

  const LATE_BOOT := [SetupCalled] + ([HeadStarted] + ([SetupCommit(true)] + ([Boot] + [])))

  const BOTH_CREATE := [ConfigLoad(true)]
    + ([Creation(true)] + ([Startup(true)] + ([HeadStarted] + ([ConfigLoad(true)] + []))))

  /** When the boot call comes after a committed setup, a second Runtime is created beside the installed one. */
  lemma LateBootCreatesTwice()
    ensures var h := HostRun(HostRun(Initial(Setup(false)), LATE_BOOT), BOTH_CREATE);
      && h.installed == Some(0)
      && |HostStep(h, Creation(true)).fates| == 2
  {
    LateBootRun();
    BothCreateRun();
  }

  /** A setup's candidate could not be shut down, and only then comes the boot call. */
  const HELD_AND_CREATING := Host(
    Ready, Activating, None, Some(0), [Unclean], true, true, true, [InitialActivation], Creating, 0, 0)

  const HELD := Host(Ready, Broken(false), None, Some(0), [Unclean], false, false, false, [], NotStarted, 0, 0)

  lemma SetupCreates()
    ensures var h1 := HostStep(Initial(Setup(false)), SetupCalled);
      var h2 := HostStep(h1, HeadStarted);
      var h3 := HostStep(h2, SetupCommit(true));
      HostStep(h3, ConfigLoad(true)) == SETUP_CREATING
  {
  }

  const SETUP_CREATING := Host(
    Ready, Activating, None, None, [], false, false, false, [CompleteSetup], Creating, 0, 0)

  lemma CandidateStaysUnclean()
    ensures HostStep(HostStep(HostStep(SETUP_CREATING, Creation(true)), Startup(false)), Cleanup(false)) == HELD
  {
  }

  lemma HeldBootGoesOn()
    ensures HostStep(HostStep(HostStep(HELD, Boot), HeadStarted), ConfigLoad(true)) == HELD_AND_CREATING
  {
  }

  const SETUP_TO_CREATION := [SetupCalled] + ([HeadStarted] + ([SetupCommit(true)] + ([ConfigLoad(true)] + [])))

  const LEAVE_UNCLEAN := [Creation(true)] + ([Startup(false)] + ([Cleanup(false)] + []))

  const BOOT_AND_CREATE := [Boot] + ([HeadStarted] + ([ConfigLoad(true)] + []))

  /** The other way: a boot call while an unclean candidate is held creates a second Runtime beside it. */
  lemma LateBootBesideUnclean()
    ensures var held := HostRun(HostRun(Initial(Setup(false)), SETUP_TO_CREATION), LEAVE_UNCLEAN);
      var h := HostRun(held, BOOT_AND_CREATE);
      && h.unclean == Some(0)
      && |HostStep(h, Creation(true)).fates| == 2
  {
    LeaveUncleanRun();
    BootAndCreateRun();
  }

  lemma LeaveUncleanRun()
    ensures HostRun(HostRun(Initial(Setup(false)), SETUP_TO_CREATION), LEAVE_UNCLEAN) == HELD
  {
    var h0 := Initial(Setup(false));
    var h1 := HostStep(h0, SetupCalled);
    var h2 := HostStep(h1, HeadStarted);
    var h3 := HostStep(h2, SetupCommit(true));
    RunCons(h3, ConfigLoad(true), []);
    RunCons(h2, SetupCommit(true), [ConfigLoad(true)] + []);
    RunCons(h1, HeadStarted, [SetupCommit(true)] + ([ConfigLoad(true)] + []));
    RunCons(h0, SetupCalled, [HeadStarted] + ([SetupCommit(true)] + ([ConfigLoad(true)] + [])));
    SetupCreates();
    CandidateRun();
  }

  lemma CandidateRun()
    ensures HostRun(SETUP_CREATING, LEAVE_UNCLEAN) == HELD
  {
    var h1 := HostStep(SETUP_CREATING, Creation(true));
    var h2 := HostStep(h1, Startup(false));
    RunCons(h2, Cleanup(false), []);
    RunCons(h1, Startup(false), [Cleanup(false)] + []);
    RunCons(SETUP_CREATING, Creation(true), [Startup(false)] + ([Cleanup(false)] + []));
    CandidateStaysUnclean();
  }

  lemma BootAndCreateRun()
    ensures HostRun(HELD, BOOT_AND_CREATE) == HELD_AND_CREATING
  {
    var h1 := HostStep(HELD, Boot);
    var h2 := HostStep(h1, HeadStarted);
    RunCons(h2, ConfigLoad(true), []);
    RunCons(h1, HeadStarted, [ConfigLoad(true)] + []);
    RunCons(HELD, Boot, [HeadStarted] + ([ConfigLoad(true)] + []));
    HeldBootGoesOn();
  }

  lemma LateBootRun()
    ensures HostRun(Initial(Setup(false)), LATE_BOOT) == BOOTED_LATE
  {
    var h0 := Initial(Setup(false));
    var h1 := HostStep(h0, SetupCalled);
    var h2 := HostStep(h1, HeadStarted);
    var h3 := HostStep(h2, SetupCommit(true));
    RunCons(h3, Boot, []);
    RunCons(h2, SetupCommit(true), [Boot] + []);
    RunCons(h1, HeadStarted, [SetupCommit(true)] + ([Boot] + []));
    RunCons(h0, SetupCalled, [HeadStarted] + ([SetupCommit(true)] + ([Boot] + [])));
    LateBootQueues();
  }

  lemma BothCreateRun()
    ensures HostRun(BOOTED_LATE, BOTH_CREATE) == INSTALLED_AND_CREATING
  {
    var h4 := BOOTED_LATE;
    var h5 := HostStep(h4, ConfigLoad(true));
    var h6 := HostStep(h5, Creation(true));
    var h7 := HostStep(h6, Startup(true));
    var h8 := HostStep(h7, HeadStarted);
    RunCons(h8, ConfigLoad(true), []);
    RunCons(h7, HeadStarted, [ConfigLoad(true)] + []);
    RunCons(h6, Startup(true), [HeadStarted] + ([ConfigLoad(true)] + []));
    RunCons(h5, Creation(true), [Startup(true)] + ([HeadStarted] + ([ConfigLoad(true)] + [])));
    RunCons(h4, ConfigLoad(true), [Creation(true)] + ([Startup(true)] + ([HeadStarted] + ([ConfigLoad(true)] + []))));
    LateBootGoesOn();
  }
}
