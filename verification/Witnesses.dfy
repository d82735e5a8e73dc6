/**
 Concrete runs from the empty projection that show what can go wrong: each satisfies every
 assumption on inputs, and ends in a projection that a reader might not expect.
 */
module Witnesses {
  import opened Prelude
  import opened Utf8
  import opened SessionTypes
  import opened ExecutionLifecycle
  import opened Messages
  import opened Reducer
  import opened Steps
  import opened MessageIdentity
  import opened Inputs
  import opened Runs
  import opened AfterEnd
  import opened FinalAnswer
  import opened FinalSelection

  /** A reduction context at a given time; ids are told apart by their number. */
  function At(now: int, id: string): Context {
    Context(now, id, id, (t: Text) => t, (a: string) => 0.0)
  }

  function Lives(l: LifecycleEvent, now: int): Input {
    Input(Lifecycle(l), At(now, "unused"))
  }

  lemma RunCons(s: Session, input: Input, inputs: seq<Input>)
    ensures Run(s, [input] + inputs) == Run(After(s, input), inputs)
  {
    RunConcat(s, [input], inputs);
    assert [input][..0] == [];
  }

  lemma AdmissibleCons(s: Session, input: Input, inputs: seq<Input>)
    requires AdmissibleInput(s, input) && AdmissibleRun(After(s, input), inputs)
    ensures AdmissibleRun(s, [input] + inputs)
  {
    var all := [input] + inputs;
    forall k | 0 <= k < |all| ensures AdmissibleInput(Run(s, all[..k]), all[k]) {
      if k > 0 {
        assert all[..k] == [input] + inputs[..k - 1];
        RunCons(s, input, inputs[..k - 1]);
      } else {
        assert all[..0] == [];
      }
    }
  }

  /** The inputs are an admissible run from `s` to `t`; the trigger keeps the definition folded. */
  ghost predicate Leads(s: Session, inputs: seq<Input>, t: Session) {
    forall k: int {:trigger Unfolds(k)} :: Unfolds(k) ==> AdmissibleRun(s, inputs) && Run(s, inputs) == t
  }

  lemma LeadsIff(s: Session, inputs: seq<Input>, t: Session)
    ensures Leads(s, inputs, t) <==> AdmissibleRun(s, inputs) && Run(s, inputs) == t
  {
    assert Unfolds(0);
  }

  lemma NoSteps(s: Session)
    ensures Leads(s, [], s)
  {
    LeadsIff(s, [], s);
  }

  lemma StepThen(s: Session, input: Input, mid: Session, inputs: seq<Input>, t: Session)
    requires AdmissibleInput(s, input) && Reduces(s, input.event, input.ctx, mid) && Leads(mid, inputs, t)
    ensures Leads(s, [input] + inputs, t)
  {
    ReducesIff(s, input.event, input.ctx, mid);
    assert After(s, input) == mid;
    LeadsIff(mid, inputs, t);
    AdmissibleCons(s, input, inputs);
    RunCons(s, input, inputs);
    LeadsIff(s, [input] + inputs, t);
  }

  /* ---------- lifecycle events on one record ---------- */

  /** A projection that holds nothing but one execution. */
  function Only(x: Execution): Session {
    EMPTY_SESSION.(
      executions := [x], executionCount := 1, isRunning := x.status.Running?,
      currentExecutionId := if x.status.Terminal? then None else Some(x.id))
  }

  lemma FreshForOnly(x: Execution, now: int)
    requires now > 0
    ensures FreshContext(Only(x), At(now, "unused")) && FreshContext(EMPTY_SESSION, At(now, "unused"))
  {
  }

  /** A valid lifecycle event takes one such projection to the next. */
  lemma OnlyMoves(x: Execution, l: LifecycleEvent, now: int) returns (y: Execution)
    requires WellFormed(x) && x.id == LifecycleId(l) && ValidateOne(x, l).Valid? && !l.ExecutionStart? && now > 0
    requires !x.status.Terminal? && (l.ExecutionEnd? ==> l.end.finalOutputStepId.None?)
    ensures y == ApplyOne(x, l, now) && WellFormed(y) && y.id == x.id
    ensures AdmissibleInput(Only(x), Lives(l, now)) && Reduces(Only(x), Lifecycle(l), At(now, "unused"), Only(y))
  {
    y := OneRecord(x, l, now);
    FreshForOnly(x, now);
    OnlyAfter(x, l, now, y);
    LifecycleReduces(Only(x), l, At(now, "unused"));
  }

  lemma OnlyAfter(x: Execution, l: LifecycleEvent, now: int, y: Execution)
    requires Validate([x], l).Valid? && Apply([x], l, now) == [y] && x.id == LifecycleId(l) && !l.ExecutionStart?
    requires !x.status.Terminal? && ValidateOne(x, l).Valid? && y == ApplyOne(x, l, now) && WellFormed(x)
    requires l.ExecutionEnd? ==> l.end.finalOutputStepId.None?
    ensures OnLifecycle(Only(x), l, now) == Only(y)
  {
    if l.ExecutionEnd? {
      assert EndedMessages([], None, l.end) == [];
    }
  }

  const START := Start("x", "", 1, None, "", "", "", "", "")
  const SETTLEMENT := SettlementInput("", None)
  const SUSPEND := ExecutionSuspended("x", Hitl("batch", []), 10, NO_USAGE, SETTLEMENT)
  const READY := SuspensionUpdated("x", ResumePending("batch", 11))
  const RESUME := ExecutionResumed("x", 1, "")
  const END := End("x", Failed, None, 15, Some(15), Some(NO_USAGE), Some(SETTLEMENT), SETTLEMENT, None)

  lemma Started()
    ensures WellFormed(NewExecution(START, 1))
    ensures AdmissibleInput(EMPTY_SESSION, Lives(ExecutionStart(START), 1))
    ensures Reduces(EMPTY_SESSION, Lifecycle(ExecutionStart(START)), At(1, "unused"), Only(NewExecution(START, 1)))
  {
    var x := NewExecution(START, 1);
    NewIsWellFormed(START, 1);
    FreshForOnly(x, 1);
    assert Apply([], ExecutionStart(START), 1) == [x];
    assert OnLifecycle(EMPTY_SESSION, ExecutionStart(START), 1) == Only(x);
    LifecycleReduces(EMPTY_SESSION, ExecutionStart(START), At(1, "unused"));
  }

  /** Start at 1, suspend dated 10, ready at 11, resume at 5: the second run starts before the first has ended. */
  lemma Resumed() returns (x0: Execution, x1: Execution, x2: Execution, x3: Execution)
    ensures x0 == NewExecution(START, 1) && x1 == ApplyOne(x0, SUSPEND, 10)
    ensures x2 == ApplyOne(x1, READY, 11) && x3 == ApplyOne(x2, RESUME, 5)
    ensures WellFormed(x3) && x3.id == "x"
    ensures AdmissibleInput(Only(x0), Lives(SUSPEND, 10))
      && Reduces(Only(x0), Lifecycle(SUSPEND), At(10, "unused"), Only(x1))
    ensures AdmissibleInput(Only(x1), Lives(READY, 11))
      && Reduces(Only(x1), Lifecycle(READY), At(11, "unused"), Only(x2))
    ensures AdmissibleInput(Only(x2), Lives(RESUME, 5))
      && Reduces(Only(x2), Lifecycle(RESUME), At(5, "unused"), Only(x3))
  {
    x0 := NewExecution(START, 1);
    NewIsWellFormed(START, 1);
    x1 := OnlyMoves(x0, SUSPEND, 10);
    x2 := OnlyMoves(x1, READY, 11);
    x3 := OnlyMoves(x2, RESUME, 5);
  }

  const TO_RESUME := [Lives(ExecutionStart(START), 1)]
    + ([Lives(SUSPEND, 10)] + ([Lives(READY, 11)] + ([Lives(RESUME, 5)] + [])))

  lemma ResumeRun() returns (x3: Execution)
    ensures Leads(EMPTY_SESSION, TO_RESUME, Only(x3)) && WellFormed(x3) && x3.id == "x"
    ensures x3 == ApplyOne(ApplyOne(ApplyOne(NewExecution(START, 1), SUSPEND, 10), READY, 11), RESUME, 5)
  {
    var x0, x1, x2, x := Resumed();
    x3 := x;
    Started();
    NoSteps(Only(x3));
    var r3 := [Lives(RESUME, 5)] + [];
    var r2 := [Lives(READY, 11)] + r3;
    var r1 := [Lives(SUSPEND, 10)] + r2;
    StepThen(Only(x2), Lives(RESUME, 5), Only(x3), [], Only(x3));
    StepThen(Only(x1), Lives(READY, 11), Only(x2), r3, Only(x3));
    StepThen(Only(x0), Lives(SUSPEND, 10), Only(x1), r2, Only(x3));
    StepThen(EMPTY_SESSION, Lives(ExecutionStart(START), 1), Only(x0), r1, Only(x3));
  }

  lemma ResumedRecord()
    ensures var x := ApplyOne(ApplyOne(ApplyOne(NewExecution(START, 1), SUSPEND, 10), READY, 11), RESUME, 5);
      && x.status.Running? && x.durationMs == 9 && x.startedAt == 1
      && |x.runs| == 2 && x.runs[1].startedAt == 5 && x.runs[1].close.None?
  {
  }

  lemma LeadsOn(s: Session, a: seq<Input>, mid: Session, input: Input, t: Session)
    requires Leads(s, a, mid) && AdmissibleInput(mid, input) && Reduces(mid, input.event, input.ctx, t)
    ensures Leads(s, a + [input], t)
  {
    ReducesIff(mid, input.event, input.ctx, t);
    var all := a + [input];
    LeadsIff(s, a, mid);
    LeadsIff(s, all, t);
    assert all[..|a|] == a;
    forall k | 0 <= k < |all| ensures AdmissibleInput(Run(s, all[..k]), all[k]) {
      if k < |a| {
        assert all[..k] == a[..k] && all[k] == a[k];
        assert AdmissibleInput(Run(s, a[..k]), a[k]);
      }
    }
  }

  /** A resume dated before the previous run's end: the active time, 19, exceeds the elapsed time, 14. */
  lemma LateResumeOverruns() returns (x: Execution)
    ensures Leads(EMPTY_SESSION, TO_RESUME + [Lives(ExecutionEnd(END), 15)], Only(x))
    ensures x.status.Terminal? && x.durationMs == 19 && x.status.endedAt - x.startedAt == 14 && !WithinElapsed(x)
  {
    var x3 := ResumeRun();
    ResumedRecord();
    x := OnlyMoves(x3, ExecutionEnd(END), 15);
    LeadsOn(EMPTY_SESSION, TO_RESUME, Only(x3), Lives(ExecutionEnd(END), 15), Only(x));
  }

  /** The suspend of the first run, delivered again, suspends the second. */
  lemma OldSuspendAppliesAgain() returns (x: Execution)
    ensures Lives(SUSPEND, 10) in TO_RESUME
    ensures Leads(EMPTY_SESSION, TO_RESUME + [Lives(SUSPEND, 20)], Only(x))
    ensures WellFormed(x) && x.id == "x" && x.status == Suspended(Hitl("batch", []))
    ensures |x.runs| == 2 && x.runs[1].close.Some? && x.runs[1].close.value.endedAt == 10
  {
    var x3 := ResumeRun();
    ResumedRecord();
    assert TO_RESUME[1] == Lives(SUSPEND, 10);
    x := OnlyMoves(x3, SUSPEND, 20);
    LeadsOn(EMPTY_SESSION, TO_RESUME, Only(x3), Lives(SUSPEND, 20), Only(x));
  }

  /** And then its readiness, delivered again, makes the second suspension ready. */
  lemma OldReadinessAppliesAgain() returns (x: Execution)
    ensures Lives(READY, 11) in TO_RESUME
    ensures Leads(EMPTY_SESSION, TO_RESUME + [Lives(SUSPEND, 20)] + [Lives(READY, 21)], Only(x))
    ensures IsReady(x) && |x.runs| == 2
  {
    var x4 := OldSuspendAppliesAgain();
    assert TO_RESUME[2] == Lives(READY, 11);
    x := OnlyMoves(x4, READY, 21);
    LeadsOn(EMPTY_SESSION, TO_RESUME + [Lives(SUSPEND, 20)], Only(x4), Lives(READY, 21), Only(x));
  }

  const BLOCKED_A := SuspensionUpdated("x", Hitl("batch", ["a"]))
  const BLOCKED_B := SuspensionUpdated("x", Hitl("batch", ["b"]))
  const STARTED := [] + [Lives(ExecutionStart(START), 1)]
  const UPDATED_TWICE := STARTED + [Lives(SUSPEND, 10)] + [Lives(BLOCKED_A, 11)] + [Lives(BLOCKED_B, 12)]

  lemma StartRun(x: Execution)
    requires x == NewExecution(START, 1)
    ensures Leads(EMPTY_SESSION, STARTED, Only(x)) && WellFormed(x)
  {
    Started();
    NoSteps(EMPTY_SESSION);
    LeadsOn(EMPTY_SESSION, [], EMPTY_SESSION, Lives(ExecutionStart(START), 1), Only(x));
  }

  lemma SuspendRun() returns (x: Execution)
    ensures Leads(EMPTY_SESSION, STARTED + [Lives(SUSPEND, 10)], Only(x))
    ensures WellFormed(x) && x.id == "x" && x.status == Suspended(Hitl("batch", []))
  {
    var x0 := NewExecution(START, 1);
    StartRun(x0);
    x := OnlyMoves(x0, SUSPEND, 10);
    LeadsOn(EMPTY_SESSION, STARTED, Only(x0), Lives(SUSPEND, 10), Only(x));
  }

  /** A later update of a suspended record on HITL blockers of the batch. */
  lemma UpdateRun(prefix: seq<Input>, x: Execution, e: LifecycleEvent, now: int) returns (y: Execution)
    requires Leads(EMPTY_SESSION, prefix, Only(x)) && WellFormed(x) && x.id == "x" && now > 0
    requires e == BLOCKED_A || e == BLOCKED_B
    requires x.status.Suspended? && x.status.suspension.Hitl? && x.status.suspension.toolBatchId == "batch"
    requires x.status.suspension != e.suspension
    ensures Leads(EMPTY_SESSION, prefix + [Lives(e, now)], Only(y))
    ensures WellFormed(y) && y.id == "x" && y.status == Suspended(e.suspension)
  {
    y := OnlyMoves(x, e, now);
    LeadsOn(EMPTY_SESSION, prefix, Only(x), Lives(e, now), Only(y));
  }

  /** An update of the HITL blockers, delivered again after another one, brings its blockers back. */
  lemma OldUpdateAppliesAgain() returns (x: Execution)
    ensures Leads(EMPTY_SESSION, UPDATED_TWICE + [Lives(BLOCKED_A, 13)], Only(x))
    ensures x.status == Suspended(Hitl("batch", ["a"]))
  {
    var x1 := SuspendRun();
    var x2 := UpdateRun(STARTED + [Lives(SUSPEND, 10)], x1, BLOCKED_A, 11);
    var x3 := UpdateRun(STARTED + [Lives(SUSPEND, 10)] + [Lives(BLOCKED_A, 11)], x2, BLOCKED_B, 12);
    x := UpdateRun(UPDATED_TWICE, x3, BLOCKED_A, 13);
  }

  /* ---------- the queue ---------- */

  const COMMITTED := User("a", [TextPart("p", [])], 1, None, None, false)

  const STALE_ACCEPT := [Input(MessagesCommitted([COMMITTED]), At(1, "unused"))]
    + ([Input(MessageAccepted(PendingMessage("a", "")), At(2, "unused"))] + [])

  /** A message accepted under the id of a committed one is both queued and canonical. */
  lemma StaleAcceptBreaksQueue() returns (t: Session)
    ensures Leads(EMPTY_SESSION, STALE_ACCEPT, t) && QueueOk(EMPTY_SESSION) && !QueueOk(t)
  {
    var commit := Input(MessagesCommitted([COMMITTED]), At(1, "unused"));
    var accept := Input(MessageAccepted(PendingMessage("a", "")), At(2, "unused"));
    var s1 := EMPTY_SESSION.(messages := [COMMITTED], stats := CountUserMessages(EMPTY_STATS, 1));
    t := s1.(pending := [PendingMessage("a", "")]);
    CommitOne();
    AcceptOne(s1);
    NoSteps(t);
    StepThen(s1, accept, t, [], t);
    StepThen(EMPTY_SESSION, commit, s1, [accept] + [], t);
    assert COMMITTED in s1.messages;
    AcceptKeepsQueueIff(s1, PendingMessage("a", ""));
  }

  lemma CommitOne()
    ensures var s1 := EMPTY_SESSION.(messages := [COMMITTED], stats := CountUserMessages(EMPTY_STATS, 1));
      && AdmissibleInput(EMPTY_SESSION, Input(MessagesCommitted([COMMITTED]), At(1, "unused")))
      && Reduces(EMPTY_SESSION, MessagesCommitted([COMMITTED]), At(1, "unused"), s1)
  {
    var s1 := EMPTY_SESSION.(messages := [COMMITTED], stats := CountUserMessages(EMPTY_STATS, 1));
    assert Ids(EMPTY_SESSION.messages) == {};
    assert NewMessages([COMMITTED], {}) == [COMMITTED] + NewMessages([], {}) == [COMMITTED];
    assert [] + [COMMITTED] == [COMMITTED];
    assert OnMessagesCommitted(EMPTY_SESSION, [COMMITTED]) == s1;
    ReducesIff(EMPTY_SESSION, MessagesCommitted([COMMITTED]), At(1, "unused"), s1);
  }

  lemma AcceptOne(s: Session)
    requires s.messages == [COMMITTED] && s.pending == []
    ensures AdmissibleInput(s, Input(MessageAccepted(PendingMessage("a", "")), At(2, "unused")))
    ensures Reduces(s, MessageAccepted(PendingMessage("a", "")), At(2, "unused"),
      s.(pending := [PendingMessage("a", "")]))
    ensures QueueOk(s)
  {
    ReducesIff(s, MessageAccepted(PendingMessage("a", "")), At(2, "unused"), s.(pending := [PendingMessage("a", "")]));
  }

  /* ---------- late events ---------- */

  const MESSAGE := Assistant("m", [], 2, None, "x", 0, "step", Commentary, false)

  const CALL := Tool(Generated("tool"), "call", "read", 3, None, ToolRunning("input", 3, None))

  function InStep(x: Execution): Session {
    Only(x).(
      isStreamingModel := true, messages := [MESSAGE], currentAssistantMessageId := Some("m"),
      steps := [Step("step", 0, "x", 0, 2, None, "", None, None)], stats := EMPTY_STATS.(stepsStarted := 1))
  }

  function InCall(x: Execution): Session {
    InStep(x).(messages := [WithCall()], stats := CountToolCall(CountAssistantMessage(EMPTY_STATS.(stepsStarted := 1))))
  }

  function WithCall(): Message {
    MESSAGE.(parts := [CALL])
  }

  const STEP_START := Input(StepStart("step", 0), At(2, "m"))
  const TOOL_CALL := Input(ToolCall("call", "read", Some("input")), At(3, "tool"))
  const ENDED := Lives(ExecutionEnd(END), 15)
  const ATTEMPT := Input(ToolAttempt("call", Attempt("attempt", 20, false)), At(20, "unused"))
  const RETRY := Input(
    RecoveryNoticed(RecoveryEvent(Retry, Short, false, Some("step"), None, None, "retrying", 1, None, None, None)),
    At(20, "unused"))

  lemma StepStarts(x: Execution)
    requires x == NewExecution(START, 1)
    ensures AdmissibleInput(Only(x), STEP_START)
    ensures Reduces(Only(x), STEP_START.event, STEP_START.ctx, InStep(x))
  {
    assert CurrentRun(Only(x)) == Some(("x", 0));
    assert OnStepStart(Only(x), "step", 0, At(2, "m")) == InStep(x);
    ReducesIff(Only(x), STEP_START.event, STEP_START.ctx, InStep(x));
  }

  /** The message has no content yet, so the call counts it. */
  lemma CallMade(s: Session)
    requires s.messages == [MESSAGE] && s.currentAssistantMessageId == Some("m")
    ensures OnToolCall(s, "call", "read", Some("input"), At(3, "tool"))
         == Next(s.(messages := [WithCall()], stats := CountToolCall(CountAssistantMessage(s.stats))))
  {
    var at := MessageAt(s.messages, "m");
    assert at == 0 && PartsOf(s.messages[at]) == [] && ToolAt([], "call") == 0;
    assert FindCurrentTool(s.messages, Some("m"), "call").None?;
    assert AssistantAt(s.messages, "m") == 0 && !HasContent(MESSAGE);
    assert EnsureCurrentAssistant(s) == Ensured("m", CountAssistantMessage(s.stats));
    assert MESSAGE.parts + [CALL] == [CALL];
    assert AppendPart(s.messages, "m", CALL) == [WithCall()];
  }

  lemma CallStarts(x: Execution)
    requires x == NewExecution(START, 1)
    ensures AdmissibleInput(InStep(x), TOOL_CALL)
    ensures Reduces(InStep(x), TOOL_CALL.event, TOOL_CALL.ctx, InCall(x))
  {
    CallMade(InStep(x));
    ReducesIff(InStep(x), TOOL_CALL.event, TOOL_CALL.ctx, InCall(x));
  }

  /** The end is accepted in any projection with this one execution. */
  lemma EndAccepted(s: Session, x: Execution)
    requires x == NewExecution(START, 1) && s.executions == [x]
    ensures LifecycleAccepted(s, ExecutionEnd(END))
  {
    FindAt([x], "x", 0);
  }

  lemma LeadsKeepsOk(inputs: seq<Input>, t: Session)
    requires Leads(EMPTY_SESSION, inputs, t)
    ensures SessionOk(t)
  {
    EmptyOk();
    LeadsIff(EMPTY_SESSION, inputs, t);
    RunKeepsOk(EMPTY_SESSION, inputs);
  }

  const IN_STEP := STARTED + [STEP_START]
  const IN_CALL := IN_STEP + [TOOL_CALL]

  lemma StepRun(x: Execution)
    requires x == NewExecution(START, 1)
    ensures Leads(EMPTY_SESSION, IN_STEP, InStep(x))
  {
    StartRun(x);
    StepStarts(x);
    LeadsOn(EMPTY_SESSION, STARTED, Only(x), STEP_START, InStep(x));
  }

  lemma CallRun(x: Execution)
    requires x == NewExecution(START, 1)
    ensures Leads(EMPTY_SESSION, IN_CALL, InCall(x))
  {
    StepRun(x);
    CallStarts(x);
    LeadsOn(EMPTY_SESSION, IN_STEP, InStep(x), TOOL_CALL, InCall(x));
  }

  /** After an admissible run, an accepted end leaves the projection at rest. */
  lemma EndRun(mid: Session, x: Execution, prefix: seq<Input>)
    requires Leads(EMPTY_SESSION, prefix, mid) && mid.executions == [x] && x == NewExecution(START, 1)
    requires AdmissibleInput(mid, ENDED)
    ensures var ended := OnLifecycle(mid, ExecutionEnd(END), 15);
      Leads(EMPTY_SESSION, prefix + [ENDED], ended) && AtRest(ended)
  {
    EndAccepted(mid, x);
    EndRests(mid, END, 15);
    LifecycleReduces(mid, ExecutionEnd(END), At(15, "unused"));
    LeadsOn(EMPTY_SESSION, prefix, mid, ENDED, OnLifecycle(mid, ExecutionEnd(END), 15));
  }

  /** From rest, an event that revives leaves something incomplete. */
  lemma RevivedRun(ended: Session, inputs: seq<Input>, late: Input, t: Session)
    requires Leads(EMPTY_SESSION, inputs, ended) && AtRest(ended)
    requires AdmissibleInput(ended, late) && Revives(ended, late.event) && Reduces(ended, late.event, late.ctx, t)
    ensures Leads(EMPTY_SESSION, inputs + [late], t) && !NothingIncomplete(t.messages)
  {
    LeadsKeepsOk(inputs, ended);
    LeadsOn(EMPTY_SESSION, inputs, ended, late, t);
    RevivesIff(ended, late.event, late.ctx, t);
  }

  lemma AlwaysReduces(s: Session, e: Event, ctx: Context) returns (t: Session)
    requires e.ToolAttempt? || e.RecoveryNoticed?
    ensures Reduces(s, e, ctx, t)
  {
    t := if e.ToolAttempt? then OnToolAttempt(s, e.toolCallId, e.attempt) else OnRecovery(s, e.recovery, ctx);
    ReducesIff(s, e, ctx, t);
  }

  lemma EndedCall(x: Execution)
    requires x == NewExecution(START, 1)
    ensures var ended := OnLifecycle(InCall(x), ExecutionEnd(END), 15);
      && AdmissibleInput(InCall(x), ENDED) && AdmissibleInput(ended, ATTEMPT) && Revives(ended, ATTEMPT.event)
  {
    var s := InCall(x);
    EndAccepted(s, x);
    EndedCallMessage(s.messages);
  }

  lemma EndedCallMessage(ms: seq<Message>)
    requires ms == [WithCall()]
    ensures var after := EndedMessages(ms, Some("m"), END);
      && |after| == 1 && after[0].Assistant? && after[0].id == "m" && |after[0].parts| == 1
      && after[0].parts[0] == CALL.(state := ToolInterrupted(Some("input"), Some(3), 15))
      && FindLatestUnsettled(after, "call").Some?
  {
    var after := EndedMessages(ms, Some("m"), END);
    assert after[0].parts[0] == InterruptTool(CALL, 15);
    assert IsUnsettledCall(after[0].parts[0], "call");
    assert UnsettledAt(PartsOf(after[0]), "call") == 0;
  }

  lemma EndedStep(x: Execution)
    requires x == NewExecution(START, 1)
    ensures var ended := OnLifecycle(InStep(x), ExecutionEnd(END), 15);
      && AdmissibleInput(InStep(x), ENDED) && AdmissibleInput(ended, RETRY) && Revives(ended, RETRY.event)
  {
    var s := InStep(x);
    EndAccepted(s, x);
    var after := EndedMessages(s.messages, Some("m"), END);
    assert after[0].Assistant? && after[0].id == "m" && after[0].stepId == "step" && after[0].parts == [];
    assert StepMessageAt(after, "step") == 0 && AssistantAt(after, "m") == 0;
  }

  /** Nothing is incomplete after the end, and then a late attempt revives the interrupted call. */
  lemma LateAttemptRevives() returns (ended: Session, t: Session)
    ensures Leads(EMPTY_SESSION, IN_CALL + [ENDED], ended) && AtRest(ended)
    ensures Leads(EMPTY_SESSION, IN_CALL + [ENDED] + [ATTEMPT], t) && !NothingIncomplete(t.messages)
  {
    var x := NewExecution(START, 1);
    CallRun(x);
    EndedCall(x);
    ended := OnLifecycle(InCall(x), ExecutionEnd(END), 15);
    EndRun(InCall(x), x, IN_CALL);
    t := AlwaysReduces(ended, ATTEMPT.event, ATTEMPT.ctx);
    RevivedRun(ended, IN_CALL + [ENDED], ATTEMPT, t);
  }

  /** The other way: a late retry notice for a known step. */
  lemma LateRetryRevives() returns (ended: Session, t: Session)
    ensures Leads(EMPTY_SESSION, IN_STEP + [ENDED], ended) && AtRest(ended)
    ensures Leads(EMPTY_SESSION, IN_STEP + [ENDED] + [RETRY], t) && !NothingIncomplete(t.messages)
  {
    var x := NewExecution(START, 1);
    StepRun(x);
    EndedStep(x);
    ended := OnLifecycle(InStep(x), ExecutionEnd(END), 15);
    EndRun(InStep(x), x, IN_STEP);
    t := AlwaysReduces(ended, RETRY.event, RETRY.ctx);
    RevivedRun(ended, IN_STEP + [ENDED], RETRY, t);
  }

  /* ---------- a final answer after an earlier step ---------- */

  const HELLO: Text := [0x68, 0x69]

  /** The second step of the run outputs a text and stops; the execution completes selecting it. */
  const ANSWER := Answer(
    "answer", 1, "block", HELLO, NO_USAGE, At(4, "n"), At(5, "text"), At(7, "unused"), 8,
    End("x", Completed, Some("answer"), 15, Some(15), Some(NO_USAGE), Some(SETTLEMENT), SETTLEMENT, None))

  const STEP_END := Input(StepEnd("step", 0, "tool-calls", NO_USAGE), At(3, "unused"))
  const ANSWER_START := Input(StepStart("answer", 1), At(4, "n"))
  const ANSWER_BLOCK := Input(BlockStart(Output, "answer", "block"), At(5, "text"))
  const ANSWER_TEXT := Input(BlockDelta(Output, "answer", "block", HELLO), At(6, "unused"))
  const ANSWER_CLOSE := Input(BlockEnd(Output, "answer", "block"), At(7, "unused"))
  const ANSWER_END := Input(StepEnd("answer", 1, "stop", NO_USAGE), At(8, "unused"))
  const ANSWERED := Lives(ExecutionEnd(ANSWER.end), 15)

  const STEPPED := IN_STEP + [STEP_END]
  const ANSWERING := STEPPED + [ANSWER_START] + [ANSWER_BLOCK] + [ANSWER_TEXT] + [ANSWER_CLOSE] + [ANSWER_END]

  const FIRST_MESSAGE := Assistant("m", [], 2, Some(3), "x", 0, "step", Commentary, false)

  function Stepped(x: Execution): Session {
    OnStepEnd(InStep(x), "step", 0, "tool-calls", NO_USAGE, 3)
  }

  /** All that matters of the projection after the first step. */
  ghost predicate AfterFirstStep(s: Session) {
    s.messages == [FIRST_MESSAGE] && CanAnswer(s, ANSWER)
  }

  lemma SteppedIs(x: Execution)
    requires x == NewExecution(START, 1)
    ensures AfterFirstStep(Stepped(x))
  {
    assert EndsHere(InStep(x).steps[0], "step", 0, ("x", 0));
    assert CurrentRun(InStep(x)) == Some(("x", 0));
    assert StepEndMessages([MESSAGE], "step", "tool-calls", 3) == [FIRST_MESSAGE];
    FindAt([x], "x", 0);
    assert ANSWER.closed.unwrap(HELLO) == HELLO && !IsSpace(HELLO[0]);
  }

  lemma SteppedRun(x: Execution)
    requires x == NewExecution(START, 1)
    ensures Leads(EMPTY_SESSION, STEPPED, Stepped(x))
  {
    StepRun(x);
    assert AdmissibleInput(InStep(x), STEP_END);
    StepEndRun(IN_STEP, InStep(x), STEP_END, Stepped(x));
  }

  lemma StepEndRun(prefix: seq<Input>, s: Session, input: Input, t: Session)
    requires Leads(EMPTY_SESSION, prefix, s) && AdmissibleInput(s, input) && input.event.StepEnd?
    requires var e := input.event; t == OnStepEnd(s, e.stepId, e.number, e.finishReason, e.usage, input.ctx.now)
    ensures Leads(EMPTY_SESSION, prefix + [input], t)
  {
    ReducesIff(s, input.event, input.ctx, t);
    LeadsOn(EMPTY_SESSION, prefix, s, input, t);
  }

  /** Ids of the contexts used are new as long as only these two messages exist. */
  lemma AnswerAdmissible(s: Session, t: Session, parts: seq<Part>, input: Input)
    requires AfterFirstStep(s) && UnderWay(s, ANSWER, t, parts)
    requires parts == [] || (|parts| == 1 && parts[0].id == Generated("text"))
    requires input.ctx == At(input.ctx.now, "unused") || (parts == [] && input == ANSWER_BLOCK)
    requires input.ctx.now > 0 && !input.event.MessagesCommitted?
    ensures AdmissibleInput(t, input)
  {
  }

  lemma AnswerStarts(prefix: seq<Input>, s: Session) returns (t: Session)
    requires AfterFirstStep(s) && Leads(EMPTY_SESSION, prefix, s)
    ensures UnderWay(s, ANSWER, t, []) && Leads(EMPTY_SESSION, prefix + [ANSWER_START], t)
  {
    t := OnStepStart(s, "answer", 1, At(4, "n"));
    Starts(s, ANSWER);
    ReducesIff(s, ANSWER_START.event, ANSWER_START.ctx, t);
    LeadsOn(EMPTY_SESSION, prefix, s, ANSWER_START, t);
  }

  lemma AnswerOpens(prefix: seq<Input>, s: Session, s1: Session) returns (t: Session)
    requires AfterFirstStep(s) && Leads(EMPTY_SESSION, prefix, s1) && UnderWay(s, ANSWER, s1, [])
    ensures UnderWay(s, ANSWER, t, [AnswerPart(ANSWER, [], None)])
    ensures Leads(EMPTY_SESSION, prefix + [ANSWER_BLOCK], t)
  {
    t := OnBlockStart(s1, Output, "answer", "block", At(5, "text"));
    Opens(s, ANSWER, s1);
    ReducesIff(s1, ANSWER_BLOCK.event, ANSWER_BLOCK.ctx, t);
    AnswerAdmissible(s, s1, [], ANSWER_BLOCK);
    LeadsOn(EMPTY_SESSION, prefix, s1, ANSWER_BLOCK, t);
  }

  lemma AnswerWrites(prefix: seq<Input>, s: Session, s2: Session) returns (t: Session)
    requires AfterFirstStep(s) && Leads(EMPTY_SESSION, prefix, s2)
    requires UnderWay(s, ANSWER, s2, [AnswerPart(ANSWER, [], None)])
    ensures UnderWay(s, ANSWER, t, [AnswerPart(ANSWER, HELLO, None)])
    ensures Leads(EMPTY_SESSION, prefix + [ANSWER_TEXT], t)
  {
    t := OnBlockDelta(s2, Output, "answer", "block", HELLO);
    Writes(s, ANSWER, s2);
    ReducesIff(s2, ANSWER_TEXT.event, ANSWER_TEXT.ctx, t);
    AnswerAdmissible(s, s2, [AnswerPart(ANSWER, [], None)], ANSWER_TEXT);
    LeadsOn(EMPTY_SESSION, prefix, s2, ANSWER_TEXT, t);
  }

  lemma AnswerCloses(prefix: seq<Input>, s: Session, s3: Session) returns (t: Session)
    requires AfterFirstStep(s) && Leads(EMPTY_SESSION, prefix, s3)
    requires UnderWay(s, ANSWER, s3, [AnswerPart(ANSWER, HELLO, None)])
    ensures UnderWay(s, ANSWER, t, [AnswerPart(ANSWER, HELLO, Some(7))])
    ensures Leads(EMPTY_SESSION, prefix + [ANSWER_CLOSE], t)
  {
    t := OnBlockEnd(s3, Output, "answer", "block", At(7, "unused"));
    Closes(s, ANSWER, s3);
    ReducesIff(s3, ANSWER_CLOSE.event, ANSWER_CLOSE.ctx, t);
    AnswerAdmissible(s, s3, [AnswerPart(ANSWER, HELLO, None)], ANSWER_CLOSE);
    LeadsOn(EMPTY_SESSION, prefix, s3, ANSWER_CLOSE, t);
  }

  /** Both messages, the first step's and the answer. */
  ghost predicate Answerable(t: Session) {
    && |t.messages| == 2 && t.messages[0] == FIRST_MESSAGE && AdmissibleInput(t, ANSWERED)
    && LifecycleAccepted(t, ExecutionEnd(ANSWER.end))
    && EndedMessages(t.messages, t.currentAssistantMessageId, ANSWER.end)[1]
         == Assistant("n", [AnswerPart(ANSWER, HELLO, Some(7))], 4, Some(8), "x", 0, "answer", FinalAnswer, false)
  }

  /** The same, folded. */
  ghost predicate CanEnd(t: Session) {
    forall k: int {:trigger Unfolds(k)} :: Unfolds(k) ==> Answerable(t)
  }

  lemma AnswerStopped(s: Session, s4: Session)
    requires AfterFirstStep(s) && UnderWay(s, ANSWER, s4, [AnswerPart(ANSWER, HELLO, Some(7))])
    requires CurrentRun(s) == Some(("x", 0))
    ensures CanEnd(OnStepEnd(s4, "answer", 1, "stop", NO_USAGE, 8))
  {
    var p, u := AnswerPart(ANSWER, HELLO, Some(7)), OnStepEnd(s4, "answer", 1, "stop", NO_USAGE, 8);
    Stops(s, ANSWER, s4, p);
    assert !IsSpace(HELLO[0]);
    Answers(s, ANSWER, u, p);
    AnswerCanEnd(s, u, p);
  }

  lemma AnswerCanEnd(s: Session, u: Session, p: Part)
    requires s.messages == [FIRST_MESSAGE] && CurrentRun(s) == Some(("x", 0))
    requires p == AnswerPart(ANSWER, HELLO, Some(7))
    requires u.messages == s.messages + [AnswerMessage(s, ANSWER, [p], Some(8))]
    requires LifecycleAccepted(u, ExecutionEnd(ANSWER.end))
    requires EndedMessages(u.messages, u.currentAssistantMessageId, ANSWER.end)[|s.messages|]
      == AnswerMessage(s, ANSWER, [p], Some(8)).(phase := FinalAnswer)
    ensures CanEnd(u)
  {
    assert Unfolds(0);
  }

  lemma AnswerStops(prefix: seq<Input>, s: Session, s4: Session) returns (t: Session)
    requires AfterFirstStep(s) && Leads(EMPTY_SESSION, prefix, s4) && CurrentRun(s) == Some(("x", 0))
    requires UnderWay(s, ANSWER, s4, [AnswerPart(ANSWER, HELLO, Some(7))])
    ensures Leads(EMPTY_SESSION, prefix + [ANSWER_END], t) && CanEnd(t)
  {
    t := OnStepEnd(s4, "answer", 1, "stop", NO_USAGE, 8);
    AnswerStopped(s, s4);
    AnswerAdmissible(s, s4, [AnswerPart(ANSWER, HELLO, Some(7))], ANSWER_END);
    StepEndRun(prefix, s4, ANSWER_END, t);
  }

  /** The first message is a commentary, the second the final answer with its text. */
  ghost predicate Answered(t: Session) {
    && |t.messages| == 2 && t.messages[0].Assistant? && t.messages[1].Assistant?
    && t.messages[0].phase == Commentary && t.messages[1].phase == FinalAnswer
    && t.messages[1].parts == [AnswerPart(ANSWER, HELLO, Some(7))]
  }

  lemma AnswerEnded(s5: Session)
    requires CanEnd(s5)
    ensures Answered(OnLifecycle(s5, ExecutionEnd(ANSWER.end), 15)) && AdmissibleInput(s5, ANSWERED)
  {
    assert Unfolds(0);
  }

  lemma AnswerEnds(prefix: seq<Input>, s5: Session) returns (t: Session)
    requires Leads(EMPTY_SESSION, prefix, s5) && CanEnd(s5)
    ensures Leads(EMPTY_SESSION, prefix + [ANSWERED], t) && Answered(t)
  {
    t := OnLifecycle(s5, ExecutionEnd(ANSWER.end), 15);
    AnswerEnded(s5);
    LifecycleReduces(s5, ExecutionEnd(ANSWER.end), At(15, "unused"));
    LeadsOn(EMPTY_SESSION, prefix, s5, ANSWERED, t);
  }

  /** An execution of two steps whose second is its final answer. */
  lemma SecondStepAnswers() returns (t: Session)
    ensures Leads(EMPTY_SESSION, ANSWERING + [ANSWERED], t) && Answered(t)
  {
    var x := NewExecution(START, 1);
    SteppedRun(x);
    SteppedIs(x);
    t := AnswerRun(STEPPED, Stepped(x));
  }

  lemma AnswerRun(prefix: seq<Input>, s: Session) returns (t: Session)
    requires AfterFirstStep(s) && Leads(EMPTY_SESSION, prefix, s) && CurrentRun(s) == Some(("x", 0))
    ensures Leads(EMPTY_SESSION, prefix + [ANSWER_START] + [ANSWER_BLOCK] + [ANSWER_TEXT] + [ANSWER_CLOSE]
                                 + [ANSWER_END] + [ANSWERED], t)
    ensures Answered(t)
  {
    var s1 := AnswerStarts(prefix, s);
    var s2 := AnswerOpens(prefix + [ANSWER_START], s, s1);
    t := AnswerRest(prefix + [ANSWER_START] + [ANSWER_BLOCK], s, s2);
  }

  lemma AnswerRest(prefix: seq<Input>, s: Session, s2: Session) returns (t: Session)
    requires AfterFirstStep(s) && Leads(EMPTY_SESSION, prefix, s2) && CurrentRun(s) == Some(("x", 0))
    requires UnderWay(s, ANSWER, s2, [AnswerPart(ANSWER, [], None)])
    ensures Leads(EMPTY_SESSION, prefix + [ANSWER_TEXT] + [ANSWER_CLOSE] + [ANSWER_END] + [ANSWERED], t)
    ensures Answered(t)
  {
    var s3 := AnswerWrites(prefix, s, s2);
    var s4 := AnswerCloses(prefix + [ANSWER_TEXT], s, s3);
    t := AnswerLast(prefix + [ANSWER_TEXT] + [ANSWER_CLOSE], s, s4);
  }

  lemma AnswerLast(prefix: seq<Input>, s: Session, s4: Session) returns (t: Session)
    requires AfterFirstStep(s) && Leads(EMPTY_SESSION, prefix, s4) && CurrentRun(s) == Some(("x", 0))
    requires UnderWay(s, ANSWER, s4, [AnswerPart(ANSWER, HELLO, Some(7))])
    ensures Leads(EMPTY_SESSION, prefix + [ANSWER_END] + [ANSWERED], t)
    ensures Answered(t)
  {
    var s5 := AnswerStops(prefix, s, s4);
    t := AnswerEnds(prefix + [ANSWER_END], s5);
  }
}
