/**
 Whole runs: the invariants of every projection reachable from the empty one, and what
 any later projection still has in common with an earlier one.
 */
module Runs {
  import opened Prelude
  import opened Utf8
  import opened SessionTypes
  import opened ExecutionLifecycle
  import opened Messages
  import opened Reducer
  import opened Steps
  import opened PartEvents
  import opened MessageIdentity
  import opened Correspondence
  import opened FinalAnswer
  import opened ToolMachine
  import opened LiveOutput
  import opened Census
  import opened Compaction
  import opened Inputs
  import opened Blocks
  import opened ChildLinks

  datatype Input = Input(event: Event, ctx: Context)

  /** The projection after one input; an input whose reduction throws leaves it as it was. */
  function After(s: Session, input: Input): Session {
    var r := Reduce(s, input.event, input.ctx);
    if r.Next? then r.session else s
  }

  /** `t` is the projection after the input: its reduction, or `s` itself if that throws. */
  ghost predicate Moves(s: Session, input: Input, t: Session) {
    Reduces(s, input.event, input.ctx, t) || (t == s && (input.event.ToolInputStart? || input.event.ToolCall?))
  }

  lemma AfterMoves(s: Session, input: Input)
    ensures Moves(s, input, After(s, input))
  {
    ReducesIff(s, input.event, input.ctx, After(s, input));
    ThrowsOnly(s, input.event, input.ctx);
  }

  function Run(s: Session, inputs: seq<Input>): Session {
    if inputs == [] then s else After(Run(s, inputs[..|inputs| - 1]), inputs[|inputs| - 1])
  }

  ghost predicate AdmissibleInput(s: Session, input: Input) {
    Admissible(s, input.event, input.ctx)
  }

  ghost predicate AdmissibleRun(s: Session, inputs: seq<Input>) {
    forall k :: 0 <= k < |inputs| ==> AdmissibleInput(Run(s, inputs[..k]), inputs[k])
  }

  lemma AdmissibleFront(s: Session, inputs: seq<Input>)
    requires AdmissibleRun(s, inputs) && inputs != []
    ensures var last := |inputs| - 1;
      && AdmissibleRun(s, inputs[..last])
      && AdmissibleInput(Run(s, inputs[..last]), inputs[last])
  {
    var front := inputs[..|inputs| - 1];
    forall k | 0 <= k < |front| ensures AdmissibleInput(Run(s, front[..k]), front[k]) {
      assert front[..k] == inputs[..k];
    }
  }

  lemma AdmissiblePrefix(s: Session, inputs: seq<Input>, n: nat)
    requires AdmissibleRun(s, inputs) && n <= |inputs|
    ensures AdmissibleRun(s, inputs[..n])
    ensures n < |inputs| ==> AdmissibleInput(Run(s, inputs[..n]), inputs[n])
  {
    var front := inputs[..n];
    forall k | 0 <= k < |front| ensures AdmissibleInput(Run(s, front[..k]), front[k]) {
      assert front[..k] == inputs[..k] && front[k] == inputs[k];
      assert AdmissibleInput(Run(s, inputs[..k]), inputs[k]);
    }
  }

  lemma RunStep(s: Session, inputs: seq<Input>, n: nat)
    requires n < |inputs|
    ensures Run(s, inputs[..n + 1]) == After(Run(s, inputs[..n]), inputs[n])
  {
    assert inputs[..n + 1][..n] == inputs[..n];
  }

  lemma {:induction false} RunConcat(s: Session, a: seq<Input>, b: seq<Input>)
    ensures Run(s, a + b) == Run(Run(s, a), b)
  {
    if b == [] {
      assert a + b == a;
    } else {
      var front := b[..|b| - 1];
      assert (a + b)[..|a + b| - 1] == a + front;
      RunConcat(s, a, front);
    }
  }

  /* ---------- the invariant ---------- */

  ghost predicate SessionOk(s: Session) {
    && Coherent(s)
    && FinalOk(s)
    && CensusOk(s)
    && CompactionOk(s.messages)
    && LinksInvariant(s.childLinks)
    && RemindersOk(s.reminders)
  }

  lemma EmptyCoherent()
    ensures Coherent(EMPTY_SESSION) && FinalOk(EMPTY_SESSION)
  {
  }

  lemma EmptyCensus()
    ensures CensusOk(EMPTY_SESSION)
  {
    assert StepCensus(EMPTY_SESSION);
    assert MessageCensus([], EMPTY_STATS);
  }

  lemma EmptyRest()
    ensures CompactionOk([]) && LinksInvariant([]) && RemindersOk([])
  {
  }

  lemma EmptyOk()
    ensures SessionOk(EMPTY_SESSION)
  {
    EmptyCoherent();
    EmptyCensus();
    EmptyRest();
  }

  lemma ReduceKeepsLinks(s: Session, e: Event, ctx: Context, t: Session)
    requires MessagesOk(s.messages) && LinksInvariant(s.childLinks) && FreshContext(s, ctx) && Reduces(s, e, ctx, t)
    ensures LinksInvariant(t.childLinks)
  {
    if e.ChildLinked? {
      LinkIs(s, e, ctx, t);
      RecordLinkKeepsInvariant(s.childLinks, e.link, ctx.weight);
    } else {
      LinksUnchanged(s, e, ctx, t);
    }
  }

  lemma MoveKeepsOk(s: Session, input: Input, t: Session)
    requires SessionOk(s) && AdmissibleInput(s, input) && Moves(s, input, t)
    ensures SessionOk(t)
  {
    var e, ctx := input.event, input.ctx;
    if Reduces(s, e, ctx, t) {
      ReduceKeepsCoherent(s, e, ctx, t);
      ReduceKeepsFinal(s, e, ctx, t);
      ReduceKeepsCensus(s, e, ctx, t);
      ReduceKeepsCompaction(s, e, ctx, t);
      ReduceKeepsLinks(s, e, ctx, t);
      ReduceKeepsReminders(s, e, ctx, t);
    }
  }

  lemma AfterKeepsOk(s: Session, input: Input)
    requires SessionOk(s) && AdmissibleInput(s, input)
    ensures SessionOk(After(s, input))
  {
    AfterMoves(s, input);
    MoveKeepsOk(s, input, After(s, input));
  }

  /** Every run keeps the invariant. */
  lemma {:induction false} RunKeepsOk(s: Session, inputs: seq<Input>)
    requires SessionOk(s) && AdmissibleRun(s, inputs)
    ensures SessionOk(Run(s, inputs))
  {
    if inputs != [] {
      AdmissibleFront(s, inputs);
      RunKeepsOk(s, inputs[..|inputs| - 1]);
      AfterKeepsOk(Run(s, inputs[..|inputs| - 1]), inputs[|inputs| - 1]);
    }
  }

  /** Every reachable projection satisfies the invariant. */
  lemma ReachableOk(inputs: seq<Input>)
    requires AdmissibleRun(EMPTY_SESSION, inputs)
    ensures SessionOk(Run(EMPTY_SESSION, inputs))
  {
    EmptyOk();
    RunKeepsOk(EMPTY_SESSION, inputs);
  }

  /* ---------- what is never lost ---------- */

  predicate StepContinues(before: Step, after: Step) {
    && after.id == before.id
    && after.number == before.number
    && after.executionId == before.executionId
    && after.runOrdinal == before.runOrdinal
    && after.startedAt == before.startedAt
    && (before.completedAt.Some? ==>
          && after.completedAt == before.completedAt
          && after.finishReason == before.finishReason
          && after.usage == before.usage)
  }

  /** Steps are only appended, and a completed one stays as it is but for a late error note. */
  ghost predicate StepsContinue(before: seq<Step>, after: seq<Step>) {
    && |after| >= |before|
    && forall k :: 0 <= k < |before| ==> StepContinues(before[k], after[k])
  }

  /** What every later projection preserves of an earlier one. */
  ghost predicate Remembers(before: Session, after: Session) {
    && Extends(before.executions, after.executions)
    && StepsContinue(before.steps, after.steps)
    && FinalsKept(before.messages, after.messages)
    && ToolsKept(before.messages, after.messages)
    && EntriesKept(Entries(before.messages), Entries(after.messages))
    && RemindersKept(before.reminders, after.reminders)
    && Ids(before.messages) <= Ids(after.messages)
  }

  lemma RemembersTransitive(a: Session, b: Session, c: Session)
    requires Remembers(a, b) && Remembers(b, c)
    ensures Remembers(a, c)
  {
    ExtendsTransitive(a.executions, b.executions, c.executions);
    StepsContinueTransitive(a.steps, b.steps, c.steps);
    FinalsKeptTransitive(a.messages, b.messages, c.messages);
    ToolsKeptTransitive(a.messages, b.messages, c.messages);
    EntriesKeptTransitive(Entries(a.messages), Entries(b.messages), Entries(c.messages));
    RemindersKeptTransitive(a.reminders, b.reminders, c.reminders);
  }

  lemma StepsContinueTransitive(a: seq<Step>, b: seq<Step>, c: seq<Step>)
    requires StepsContinue(a, b) && StepsContinue(b, c)
    ensures StepsContinue(a, c)
  {
    forall k | 0 <= k < |a| ensures StepContinues(a[k], c[k]) {
      assert StepContinues(a[k], b[k]) && StepContinues(b[k], c[k]);
    }
  }

  lemma RemembersItself(s: Session)
    requires SessionOk(s)
    ensures Remembers(s, s)
  {
    FinalsKeptRefl(s.messages);
    UnchangedKeepsTools(s.messages);
  }

  lemma PartEventFrame(s: Session, e: Event, ctx: Context, t: Session)
    requires MessagesOk(s.messages) && FreshContext(s, ctx) && IsPartEvent(e) && Reduces(s, e, ctx, t)
    ensures t.executions == s.executions && t.steps == s.steps
  {
    var edit := PartEventIsEdit(s, e, ctx, t);
  }

  lemma MessageEventFrame(s: Session, e: Event, ctx: Context, t: Session)
    requires Reduces(s, e, ctx, t) && (e.MessagesCommitted? || e.SystemNotice? || e.Compact? || IsQuietEvent(e))
    ensures t.executions == s.executions && t.steps == s.steps
  {
    if e.MessagesCommitted? {
      CommitIs(s, e, ctx, t);
    } else if e.SystemNotice? {
      NoticeIs(s, e, ctx, t);
    } else if e.Compact? {
      CompactIs(s, e, ctx, t);
    } else {
      QuietIs(s, e, ctx, t);
    }
  }

  lemma StepEventFrame(s: Session, e: Event, ctx: Context, t: Session)
    requires Reduces(s, e, ctx, t) && (e.StepStart? || e.StepEnd? || e.ExecutionError?)
    ensures t.executions == s.executions
  {
    if e.StepStart? {
      StepStartIs(s, e, ctx, t);
    } else if e.StepEnd? {
      StepEndIs(s, e, ctx, t);
    } else {
      ErrorIs(s, e, ctx, t);
    }
  }

  /** Only lifecycle events and stop requests change execution records. */
  lemma ExecutionFrame(s: Session, e: Event, ctx: Context, t: Session)
    requires MessagesOk(s.messages) && FreshContext(s, ctx) && Reduces(s, e, ctx, t)
    requires !e.Lifecycle? && !e.StopRequested?
    ensures t.executions == s.executions
  {
    if IsPartEvent(e) {
      PartEventFrame(s, e, ctx, t);
    } else if e.StepStart? || e.StepEnd? || e.ExecutionError? {
      StepEventFrame(s, e, ctx, t);
    } else {
      MessageEventFrame(s, e, ctx, t);
    }
  }

  /** Only step events change steps. */
  lemma StepFrame(s: Session, e: Event, ctx: Context, t: Session)
    requires MessagesOk(s.messages) && FreshContext(s, ctx) && Reduces(s, e, ctx, t)
    requires !e.StepStart? && !e.StepEnd? && !e.ExecutionError?
    ensures t.steps == s.steps
  {
    if IsPartEvent(e) {
      PartEventFrame(s, e, ctx, t);
    } else if e.Lifecycle? {
      LifecycleIs(s, e, ctx, t);
    } else if e.StopRequested? {
      StopIs(s, e, ctx, t);
    } else {
      MessageEventFrame(s, e, ctx, t);
    }
  }

  lemma LifecycleExtends(s: Session, e: LifecycleEvent, now: int)
    requires ExecutionsOk(s.executions)
    ensures Extends(s.executions, OnLifecycle(s, e, now).executions)
  {
    if LifecycleAccepted(s, e) {
      ApplyExtends(s.executions, e, now);
    }
  }

  lemma ReduceExtends(s: Session, e: Event, ctx: Context, t: Session)
    requires Coherent(s) && FreshContext(s, ctx) && Reduces(s, e, ctx, t)
    ensures Extends(s.executions, t.executions)
  {
    if e.Lifecycle? {
      LifecycleIs(s, e, ctx, t);
      LifecycleExtends(s, e.lifecycle, ctx.now);
    } else if e.StopRequested? {
      StopIs(s, e, ctx, t);
      StopExtends(s.executions, e.executionId, e.timestamp);
    } else {
      ExecutionFrame(s, e, ctx, t);
    }
  }

  lemma ErrorStepsContinue(s: Session, stepId: Option<string>, number: Option<int>, error: string)
    ensures StepsContinue(s.steps, OnExecutionError(s, stepId, number, error).steps)
  {
  }

  lemma ReduceContinuesSteps(s: Session, e: Event, ctx: Context, t: Session)
    requires Coherent(s) && FreshContext(s, ctx) && Reduces(s, e, ctx, t)
    ensures StepsContinue(s.steps, t.steps)
  {
    if e.StepEnd? {
      StepEndIs(s, e, ctx, t);
      EndStepsContinue(s, e.stepId, e.number, e.finishReason, e.usage, ctx.now);
    } else if e.ExecutionError? {
      ErrorIs(s, e, ctx, t);
      ErrorStepsContinue(s, e.failedStepId, e.failedNumber, e.error);
    } else if e.StepStart? {
      StepStartIs(s, e, ctx, t);
      StartStepsContinue(s, e.stepId, e.number, ctx);
    } else {
      StepFrame(s, e, ctx, t);
    }
  }

  lemma StartStepsContinue(s: Session, stepId: string, number: int, ctx: Context)
    ensures StepsContinue(s.steps, OnStepStart(s, stepId, number, ctx).steps)
  {
  }

  lemma EndStepsContinue(s: Session, stepId: string, number: int, finishReason: string, usage: Usage, now: int)
    requires StepsOk(s.steps, s.executions)
    ensures StepsContinue(s.steps, OnStepEnd(s, stepId, number, finishReason, usage, now).steps)
  {
  }

  lemma MoveRemembers(s: Session, input: Input, t: Session)
    requires SessionOk(s) && AdmissibleInput(s, input) && Moves(s, input, t)
    ensures Remembers(s, t)
  {
    var e, ctx := input.event, input.ctx;
    if Reduces(s, e, ctx, t) {
      ReduceExtends(s, e, ctx, t);
      ReduceContinuesSteps(s, e, ctx, t);
      ReduceKeepsFinal(s, e, ctx, t);
      ReduceKeepsTools(s, e, ctx, t);
      ReduceKeepsCompaction(s, e, ctx, t);
      ReduceKeepsReminders(s, e, ctx, t);
      ReduceKeepsIds(s, e, ctx, t);
    } else {
      RemembersItself(s);
    }
  }

  lemma AfterRemembers(s: Session, input: Input)
    requires SessionOk(s) && AdmissibleInput(s, input)
    ensures Remembers(s, After(s, input))
  {
    AfterMoves(s, input);
    MoveRemembers(s, input, After(s, input));
  }

  /** No run loses closed runs, results, final answers, conversation order, flags or consumption marks. */
  lemma {:induction false} RunRemembers(s: Session, inputs: seq<Input>)
    requires SessionOk(s) && AdmissibleRun(s, inputs)
    ensures Remembers(s, Run(s, inputs))
  {
    if inputs == [] {
      RemembersItself(s);
    } else {
      var front := inputs[..|inputs| - 1];
      AdmissibleFront(s, inputs);
      RunRemembers(s, front);
      RunKeepsOk(s, front);
      AfterRemembers(Run(s, front), inputs[|inputs| - 1]);
      RemembersTransitive(s, Run(s, front), Run(s, inputs));
    }
  }

  /* ---------- redelivery ---------- */

  /** An accepted lifecycle event delivered again at once changes nothing. */
  lemma RepeatedAtOnceIsNoOp(s: Session, e: LifecycleEvent, now: int, again: int)
    requires Coherent(s) && LifecycleAccepted(s, e)
    ensures Validate(OnLifecycle(s, e, now).executions, e).Duplicate?
    ensures OnLifecycle(OnLifecycle(s, e, now), e, again) == OnLifecycle(s, e, now)
  {
    AcceptedThenDuplicate(s.executions, e, now);
    LifecycleKeepsFlags(s, e, now);
  }

  lemma LifecycleReduces(s: Session, e: LifecycleEvent, ctx: Context)
    ensures Reduces(s, Lifecycle(e), ctx, OnLifecycle(s, e, ctx.now))
  {
    ReducesIff(s, Lifecycle(e), ctx, OnLifecycle(s, e, ctx.now));
  }

  lemma LifecycleInput(s: Session, e: LifecycleEvent, ctx: Context)
    requires SessionOk(s) && FreshContext(s, ctx) && LifecycleAccepted(s, e)
    ensures SessionOk(OnLifecycle(s, e, ctx.now))
    ensures OnLifecycle(s, e, ctx.now).executions == Apply(s.executions, e, ctx.now)
  {
    LifecycleReduces(s, e, ctx);
    MoveKeepsOk(s, Input(Lifecycle(e), ctx), OnLifecycle(s, e, ctx.now));
    LifecycleKeepsFlags(s, e, ctx.now);
  }

  /** An accepted start, resume or end is a no-op at every later point of every run. */
  lemma RedeliveryIsNoOp(s: Session, e: LifecycleEvent, ctx: Context, inputs: seq<Input>, again: int)
    requires SessionOk(s) && FreshContext(s, ctx) && LifecycleAccepted(s, e)
    requires e.ExecutionStart? || e.ExecutionResumed? || e.ExecutionEnd?
    requires AdmissibleRun(OnLifecycle(s, e, ctx.now), inputs)
    ensures var later := Run(OnLifecycle(s, e, ctx.now), inputs); OnLifecycle(later, e, again) == later
  {
    var t := OnLifecycle(s, e, ctx.now);
    LifecycleInput(s, e, ctx);
    RunRemembers(t, inputs);
    RunKeepsOk(t, inputs);
    OnceAcceptedNeverAgain(s.executions, e, ctx.now, Run(t, inputs).executions);
  }

  /**
   An accepted suspend is applied again at a later point exactly when that execution is
   running a run that began at or before the suspend's end time.
   */
  lemma OldSuspendAppliesIff(s: Session, e: LifecycleEvent, ctx: Context, inputs: seq<Input>)
    requires SessionOk(s) && FreshContext(s, ctx) && e.ExecutionSuspended? && LifecycleAccepted(s, e)
    requires AdmissibleRun(OnLifecycle(s, e, ctx.now), inputs)
    ensures var later := Run(OnLifecycle(s, e, ctx.now), inputs);
      var i := Find(later.executions, e.executionId);
      && i < |later.executions|
      && later.executions[i].runs != []
      && (LifecycleAccepted(later, e) <==>
            later.executions[i].status.Running? && LastRun(later.executions[i]).startedAt <= e.runEndedAt)
  {
    var t := OnLifecycle(s, e, ctx.now);
    LifecycleInput(s, e, ctx);
    RunRemembers(t, inputs);
    RunKeepsOk(t, inputs);
    OldSuspendAcceptedIff(s.executions, e, ctx.now, Run(t, inputs).executions);
  }

  /** Likewise for an accepted suspension update. */
  lemma OldUpdateAppliesIff(s: Session, e: LifecycleEvent, ctx: Context, inputs: seq<Input>)
    requires SessionOk(s) && FreshContext(s, ctx) && e.SuspensionUpdated? && LifecycleAccepted(s, e)
    requires AdmissibleRun(OnLifecycle(s, e, ctx.now), inputs)
    ensures var t := OnLifecycle(s, e, ctx.now);
      var later := Run(t, inputs);
      && Find(t.executions, e.executionId) < |t.executions|
      && Find(later.executions, e.executionId) < |later.executions|
      && (LifecycleAccepted(later, e) <==>
            UpdateAppliesAgain(Named(t.executions, e), Named(later.executions, e), e.suspension))
  {
    var t := OnLifecycle(s, e, ctx.now);
    LifecycleInput(s, e, ctx);
    RunRemembers(t, inputs);
    RunKeepsOk(t, inputs);
    OldUpdateAcceptedIff(s.executions, e, ctx.now, Run(t, inputs).executions);
  }

  /** A commit delivered again at any later point adds no message and counts nothing. */
  lemma RecommitAddsNothing(s: Session, committed: seq<Message>, inputs: seq<Input>)
    requires SessionOk(s) && SessionOk(OnMessagesCommitted(s, committed))
    requires AdmissibleRun(OnMessagesCommitted(s, committed), inputs)
    ensures var later := Run(OnMessagesCommitted(s, committed), inputs);
      && OnMessagesCommitted(later, committed) == later.(pending := PendingWithout(later.pending, Ids(committed)))
      && (QueueOk(later) ==> OnMessagesCommitted(later, committed) == later)
  {
    var t := OnMessagesCommitted(s, committed);
    CommittedAreCanonical(s, committed);
    RunRemembers(t, inputs);
    RecommitIsNoOp(Run(t, inputs), committed);
  }

  /** The input accepts a message whose id is in use. */
  predicate AcceptsInUse(s: Session, input: Input) {
    input.event.MessageAccepted? && InUse(s, input.event.pending.id)
  }

  /** Generated message ids are also unlike the queued ones. */
  ghost predicate UnqueuedIds(s: Session, inputs: seq<Input>) {
    forall k :: 0 <= k < |inputs| ==> inputs[k].ctx.messageId !in PendingIds(Run(s, inputs[..k]).pending)
  }

  lemma MoveKeepsQueueIff(s: Session, input: Input, t: Session)
    requires MessagesOk(s.messages) && QueueOk(s) && AdmissibleInput(s, input) && Moves(s, input, t)
    requires input.ctx.messageId !in PendingIds(s.pending)
    ensures QueueOk(t) <==> !AcceptsInUse(s, input)
  {
    if Reduces(s, input.event, input.ctx, t) {
      ReduceKeepsQueueIff(s, input.event, input.ctx, t);
    }
  }

  ghost predicate QueueOkUpTo(s: Session, inputs: seq<Input>, n: nat)
    requires n <= |inputs|
  {
    forall k :: 0 <= k <= n ==> QueueOk(Run(s, inputs[..k]))
  }

  lemma QueueStep(s: Session, inputs: seq<Input>, n: nat)
    requires SessionOk(s) && AdmissibleRun(s, inputs) && UnqueuedIds(s, inputs) && n < |inputs|
    requires QueueOk(Run(s, inputs[..n]))
    ensures QueueOk(Run(s, inputs[..n + 1])) <==> !AcceptsInUse(Run(s, inputs[..n]), inputs[n])
  {
    AdmissiblePrefix(s, inputs, n);
    RunKeepsOk(s, inputs[..n]);
    RunStep(s, inputs, n);
    AfterMoves(Run(s, inputs[..n]), inputs[n]);
    MoveKeepsQueueIff(Run(s, inputs[..n]), inputs[n], Run(s, inputs[..n + 1]));
  }

  /** No message is accepted under an id in use before input `n`. */
  ghost predicate NeverInUse(s: Session, inputs: seq<Input>, n: nat)
    requires n <= |inputs|
  {
    forall k :: 0 <= k < n ==> !AcceptsInUse(Run(s, inputs[..k]), inputs[k])
  }

  lemma OneMorePoint(s: Session, inputs: seq<Input>, n: nat)
    requires n < |inputs|
    ensures QueueOkUpTo(s, inputs, n + 1) <==> QueueOkUpTo(s, inputs, n) && QueueOk(Run(s, inputs[..n + 1]))
    ensures NeverInUse(s, inputs, n + 1) <==> NeverInUse(s, inputs, n) && !AcceptsInUse(Run(s, inputs[..n]), inputs[n])
  {
  }

  lemma QueueSoundStep(s: Session, inputs: seq<Input>, n: nat)
    requires SessionOk(s) && AdmissibleRun(s, inputs) && UnqueuedIds(s, inputs) && n < |inputs|
    requires QueueOkUpTo(s, inputs, n) <==> NeverInUse(s, inputs, n)
    ensures QueueOkUpTo(s, inputs, n + 1) <==> NeverInUse(s, inputs, n + 1)
  {
    OneMorePoint(s, inputs, n);
    if QueueOkUpTo(s, inputs, n) {
      assert QueueOk(Run(s, inputs[..n]));
      QueueStep(s, inputs, n);
    }
  }

  /**
   Over any run, no id is queued twice or both queued and canonical at any point, exactly
   if no message is ever accepted under an id in use.
   */
  lemma {:induction false} QueueSoundIff(s: Session, inputs: seq<Input>, n: nat)
    requires SessionOk(s) && QueueOk(s) && AdmissibleRun(s, inputs) && UnqueuedIds(s, inputs) && n <= |inputs|
    ensures QueueOkUpTo(s, inputs, n) <==> NeverInUse(s, inputs, n)
  {
    if n == 0 {
      assert inputs[..0] == [];
    } else {
      QueueSoundIff(s, inputs, n - 1);
      QueueSoundStep(s, inputs, n - 1);
    }
  }

  /* ---------- statistics ---------- */

  /** Number of inputs that emptied a counted Assistant message. */
  function Emptied(s: Session, inputs: seq<Input>): nat {
    if inputs == [] then 0
    else
      var front, last := inputs[..|inputs| - 1], inputs[|inputs| - 1];
      Emptied(s, front) + Lost(Run(s, front), last.event, last.ctx)
  }

  lemma MoveSlack(s: Session, input: Input, t: Session)
    requires MessagesOk(s.messages) && StepsOk(s.steps, s.executions) && CensusOk(s)
    requires AdmissibleInput(s, input) && Moves(s, input, t)
    ensures Slack(t) == Slack(s) + Lost(s, input.event, input.ctx)
  {
    if Reduces(s, input.event, input.ctx, t) {
      ReduceKeepsCensus(s, input.event, input.ctx, t);
    } else {
      NothingLost(s, input.event, input.ctx);
    }
  }

  /**
   The Assistant message count exceeds the messages with content by exactly the number
   of times an unwrapped envelope emptied a message.
   */
  lemma {:induction false} AssistantCountExact(s: Session, inputs: seq<Input>)
    requires SessionOk(s) && AdmissibleRun(s, inputs)
    ensures Slack(Run(s, inputs)) == Slack(s) + Emptied(s, inputs)
  {
    if inputs != [] {
      var front, last := inputs[..|inputs| - 1], inputs[|inputs| - 1];
      AdmissibleFront(s, inputs);
      AssistantCountExact(s, front);
      RunKeepsOk(s, front);
      AfterMoves(Run(s, front), last);
      MoveSlack(Run(s, front), last, Run(s, inputs));
    }
  }

  /* ---------- live output ---------- */

  /** The tool part at `at` is running all along. */
  ghost predicate RunsThroughout(s: Session, inputs: seq<Input>, at: Location) {
    forall k :: 0 <= k <= |inputs| ==> RunningAt(Run(s, inputs[..k]).messages, at).Some?
  }

  /** The deltas of a run that reached the tool part at `at`. */
  function Deltas(s: Session, inputs: seq<Input>, at: Location): seq<Delta> {
    if inputs == [] then []
    else
      var front, last := inputs[..|inputs| - 1], inputs[|inputs| - 1];
      var d := DeltaFor(Run(s, front), last.event, at);
      Deltas(s, front, at) + if d.Some? then [d.value] else []
  }

  lemma MoveLive(s: Session, input: Input, t: Session, at: Location)
    requires MessagesOk(s.messages) && AdmissibleInput(s, input) && Moves(s, input, t)
    requires RunningAt(s.messages, at).Some? && RunningAt(t.messages, at).Some?
    ensures LiveOf(RunningAt(t.messages, at).value)
         == AfterDelta(LiveOf(RunningAt(s.messages, at).value), DeltaFor(s, input.event, at))
  {
    if Reduces(s, input.event, input.ctx, t) {
      LiveStep(s, input.event, input.ctx, t, at);
    } else {
      NoDelta(s, input.event, at);
    }
  }

  lemma RunsThroughoutFront(s: Session, inputs: seq<Input>, at: Location)
    requires RunsThroughout(s, inputs, at) && inputs != []
    ensures RunsThroughout(s, inputs[..|inputs| - 1], at)
    ensures RunningAt(Run(s, inputs).messages, at).Some?
  {
    var front := inputs[..|inputs| - 1];
    assert inputs[..|inputs|] == inputs;
    forall k | 0 <= k <= |front| ensures RunningAt(Run(s, front[..k]).messages, at).Some? {
      assert front[..k] == inputs[..k];
    }
  }

  lemma {:induction false} LiveOutputIsStream(s: Session, inputs: seq<Input>, at: Location)
    requires SessionOk(s) && AdmissibleRun(s, inputs) && RunsThroughout(s, inputs, at)
    requires RunningAt(s.messages, at).Some? && LiveOf(RunningAt(s.messages, at).value).None?
    ensures RunningAt(Run(s, inputs).messages, at).Some?
    ensures LiveOf(RunningAt(Run(s, inputs).messages, at).value) == Stream(Deltas(s, inputs, at))
  {
    if inputs != [] {
      var front, last := inputs[..|inputs| - 1], inputs[|inputs| - 1];
      AdmissibleFront(s, inputs);
      RunsThroughoutFront(s, inputs, at);
      LiveOutputIsStream(s, front, at);
      RunKeepsOk(s, front);
      AfterMoves(Run(s, front), last);
      MoveLive(Run(s, front), last, Run(s, inputs), at);
      StreamStep(Deltas(s, front, at), DeltaFor(Run(s, front), last.event, at));
    }
  }

  lemma StreamStep(ds: seq<Delta>, d: Option<Delta>)
    ensures Stream(ds + if d.Some? then [d.value] else []) == AfterDelta(Stream(ds), d)
  {
    if d.Some? {
      assert (ds + [d.value])[..|ds|] == ds;
    } else {
      assert ds + [] == ds;
    }
  }

  /**
   Streaming equals batch, end to end: in any run during which a Bash part keeps running,
   its preview is the longest aligned suffix within the limit of all output sent to it,
   and the byte account is exact up to two bytes for each boundary that cut a pair.
   */
  lemma PreviewIsBatchTruncation(s: Session, inputs: seq<Input>, at: Location)
    requires SessionOk(s) && AdmissibleRun(s, inputs) && RunsThroughout(s, inputs, at)
    requires RunningAt(s.messages, at).Some? && LiveOf(RunningAt(s.messages, at).value).None?
    requires Deltas(s, inputs, at) != []
    ensures var ds := Deltas(s, inputs, at);
      var end := RunningAt(Run(s, inputs).messages, at);
      && end.Some?
      && LiveOf(end.value).Some?
      && LiveOf(end.value).value.preview == KeepSuffix(AllText(ds), 51_200)
      && ByteLength(LiveOf(end.value).value.preview) <= 51_200
      && ByteLength(LiveOf(end.value).value.preview) + LiveOf(end.value).value.omittedBytes
         == AnnouncedBytes(ds) - 2 * SplitBoundaries(ds)
  {
    LiveOutputIsStream(s, inputs, at);
    StreamEqualsBatch(Deltas(s, inputs, at));
  }

  /* ---------- blocks ---------- */

  ghost predicate HasStep(steps: seq<Step>, stepId: string) {
    exists k :: 0 <= k < |steps| && steps[k].id == stepId
  }

  /** The record of this execution is the last one, not terminal, and this is its last run. */
  predicate IsLastRun(xs: seq<Execution>, id: string, ordinal: nat) {
    && xs != [] && Find(xs, id) == |xs| - 1
    && !xs[|xs| - 1].status.Terminal? && |xs[|xs| - 1].runs| == ordinal + 1
  }

  predicate KnowsRun(xs: seq<Execution>, id: string, ordinal: nat) {
    Find(xs, id) < |xs| && ordinal < |xs[Find(xs, id)].runs|
  }

  /** The last run of a nonterminal record later was so before, if it was known. */
  lemma LastBackward(before: seq<Execution>, after: seq<Execution>, id: string, ordinal: nat)
    requires ExecutionsOk(before) && ExecutionsOk(after) && Extends(before, after)
    requires IsLastRun(after, id, ordinal) && KnowsRun(before, id, ordinal)
    ensures IsLastRun(before, id, ordinal)
  {
    FindStable(before, after, id);
  }

  lemma CurrentIffLast(s: Session, id: string, ordinal: nat)
    requires ExecutionsOk(s.executions) && FlagsAgree(s)
    ensures CurrentRun(s) == Some((id, ordinal)) <==> IsLastRun(s.executions, id, ordinal)
  {
    if s.currentExecutionId.Some? {
      CurrentIsLast(s);
    }
  }

  /** A step that is active later was active before, if it had been started. */
  lemma ActiveBackward(s: Session, t: Session, stepId: string)
    requires SessionOk(s) && SessionOk(t) && Remembers(s, t)
    requires HasStep(s.steps, stepId) && IsActiveOpenStep(t, stepId)
    ensures IsActiveOpenStep(s, stepId)
  {
    var k :| 0 <= k < |s.steps| && s.steps[k].id == stepId;
    assert StepContinues(s.steps[k], t.steps[k]) && StepKnown(s.steps[k], s.executions);
    var l := ActiveStepIs(t, stepId);
    SameStepIndex(t.steps, k, l);
    var id, ordinal := s.steps[k].executionId, s.steps[k].runOrdinal;
    CurrentIffLast(t, id, ordinal);
    LastBackward(s.executions, t.executions, id, ordinal);
    CurrentIffLast(s, id, ordinal);
    assert InRun(s.steps[k], CurrentRun(s).value);
  }

  lemma SameStepIndex(steps: seq<Step>, k: nat, l: nat)
    requires DistinctSteps(steps) && k < |steps| && l < |steps| && steps[k].id == steps[l].id
    ensures k == l
  {
  }

  /** An accepted end of a step makes it inactive. */
  lemma EndedStepIsInactive(s: Session, stepId: string, number: int, finishReason: string, usage: Usage, now: int)
    requires StepsOk(s.steps, s.executions) && StepEndAccepted(s, stepId, number)
    ensures !IsActiveOpenStep(OnStepEnd(s, stepId, number, finishReason, usage, now), stepId)
  {
    var t := OnStepEnd(s, stepId, number, finishReason, usage, now);
    var k := EndsOneStep(s, stepId, number, finishReason, usage, now);
    forall l | 0 <= l < |t.steps| && t.steps[l].id == stepId ensures t.steps[l].completedAt.Some? {
      var h :| 0 <= h < |s.steps| && EndsHere(s.steps[h], stepId, number, CurrentRun(s).value);
      assert s.steps[l].id == stepId && l == h;
    }
  }

  predicate EndsBlock(e: Event, key: Key) {
    e.BlockEnd? && key == Key(e.stepId, e.channel, e.blockId)
  }

  function TextFor(e: Event, key: Key): Text {
    if e.BlockDelta? && key == Key(e.stepId, e.channel, e.blockId) then e.text else []
  }

  /** The texts of all deltas of a run that name this key, concatenated. */
  function SentText(inputs: seq<Input>, key: Key): Text {
    if inputs == [] then []
    else SentText(inputs[..|inputs| - 1], key) + TextFor(inputs[|inputs| - 1].event, key)
  }

  lemma EndIsInactive(s: Session, e: LifecycleEvent, now: int, stepId: string)
    requires e.ExecutionEnd? && LifecycleAccepted(s, e)
    ensures !IsActiveOpenStep(OnLifecycle(s, e, now), stepId)
  {
    assert CurrentRun(OnLifecycle(s, e, now)).None?;
  }

  /** An event that deactivates the step cannot have happened while the step is still active. */
  lemma NotClosing(s: Session, e: Event, ctx: Context, t: Session, stepId: string)
    requires StepsOk(s.steps, s.executions) && Reduces(s, e, ctx, t) && IsActiveOpenStep(t, stepId)
    ensures e.StepEnd? ==> e.stepId != stepId || !StepEndAccepted(s, e.stepId, e.number)
    ensures e.Lifecycle? && e.lifecycle.ExecutionEnd? ==> !LifecycleAccepted(s, e.lifecycle)
  {
    if e.StepEnd? {
      StepEndIs(s, e, ctx, t);
      if e.stepId == stepId && StepEndAccepted(s, e.stepId, e.number) {
        EndedStepIsInactive(s, e.stepId, e.number, e.finishReason, e.usage, ctx.now);
      }
    } else if e.Lifecycle? {
      LifecycleIs(s, e, ctx, t);
      if e.lifecycle.ExecutionEnd? && LifecycleAccepted(s, e.lifecycle) {
        EndIsInactive(s, e.lifecycle, ctx.now, stepId);
      }
    }
  }

  /** While the step stays active, an open block that is not ended just grows. */
  lemma OpenBlockExpected(s: Session, e: Event, ctx: Context, key: Key, text: Text)
    requires !EndsBlock(e, key) && IsActiveOpenStep(s, key.stepId)
    requires e.StepEnd? ==> e.stepId != key.stepId || !StepEndAccepted(s, e.stepId, e.number)
    requires e.Lifecycle? && e.lifecycle.ExecutionEnd? ==> !LifecycleAccepted(s, e.lifecycle)
    ensures Expected(s, Some(Entry(text, false)), e, ctx, key) == Some(Entry(text + TextFor(e, key), false))
  {
    assert text + [] == text;
  }

  lemma OpenBlockMove(s: Session, input: Input, t: Session, key: Key, text: Text)
    requires Coherent(s) && AdmissibleInput(s, input) && Moves(s, input, t) && !EndsBlock(input.event, key)
    requires EntryAt(s.messages, key) == Some(Entry(text, false))
    requires IsActiveOpenStep(s, key.stepId) && IsActiveOpenStep(t, key.stepId)
    ensures EntryAt(t.messages, key) == Some(Entry(text + TextFor(input.event, key), false))
  {
    if Reduces(s, input.event, input.ctx, t) {
      BlocksRefineMap(s, input.event, input.ctx, t, key);
      NotClosing(s, input.event, input.ctx, t, key.stepId);
      OpenBlockExpected(s, input.event, input.ctx, key, text);
    } else {
      assert text + [] == text;
    }
  }

  lemma EntryHasStep(s: Session, key: Key)
    requires Coherent(s) && EntryAt(s.messages, key).Some?
    ensures HasStep(s.steps, key.stepId)
  {
    var k := StepOfMessage(s.messages, s.steps, StepMessageAt(s.messages, key.stepId));
    assert s.steps[k].id == key.stepId;
  }

  lemma StepsStay(before: seq<Step>, after: seq<Step>, stepId: string)
    requires StepsContinue(before, after) && HasStep(before, stepId)
    ensures HasStep(after, stepId)
  {
    var k :| 0 <= k < |before| && before[k].id == stepId;
    assert StepContinues(before[k], after[k]);
    assert after[k].id == stepId;
  }

  lemma StillActive(s: Session, front: seq<Input>, last: Input, key: Key)
    requires SessionOk(s) && AdmissibleRun(s, front) && AdmissibleInput(Run(s, front), last)
    requires EntryAt(s.messages, key).Some?
    requires IsActiveOpenStep(After(Run(s, front), last), key.stepId)
    ensures IsActiveOpenStep(Run(s, front), key.stepId)
  {
    var t := Run(s, front);
    RunKeepsOk(s, front);
    RunRemembers(s, front);
    EntryHasStep(s, key);
    StepsStay(s.steps, t.steps, key.stepId);
    AfterKeepsOk(t, last);
    AfterRemembers(t, last);
    ActiveBackward(t, After(t, last), key.stepId);
  }

  lemma GrowOne(s: Session, front: seq<Input>, last: Input, key: Key, text: Text)
    requires SessionOk(s) && AdmissibleRun(s, front) && AdmissibleInput(Run(s, front), last)
    requires Holds(Run(s, front), key, text) && !EndsBlock(last.event, key)
    requires IsActiveOpenStep(Run(s, front), key.stepId)
    requires IsActiveOpenStep(After(Run(s, front), last), key.stepId)
    ensures Holds(After(Run(s, front), last), key, text + TextFor(last.event, key))
  {
    RunKeepsOk(s, front);
    AfterMoves(Run(s, front), last);
    OpenBlockMove(Run(s, front), last, After(Run(s, front), last), key, text);
  }

  /** The open block under this key holds this text. */
  predicate Holds(s: Session, key: Key, text: Text) {
    EntryAt(s.messages, key) == Some(Entry(text, false))
  }

  predicate NotEnded(inputs: seq<Input>, key: Key) {
    forall k :: 0 <= k < |inputs| ==> !EndsBlock(inputs[k].event, key)
  }

  lemma NotEndedFront(inputs: seq<Input>, key: Key)
    requires NotEnded(inputs, key) && inputs != []
    ensures NotEnded(inputs[..|inputs| - 1], key) && !EndsBlock(inputs[|inputs| - 1].event, key)
  {
  }

  lemma SentTextStep(start: Text, inputs: seq<Input>, key: Key)
    ensures inputs == [] ==> start + SentText(inputs, key) == start
    ensures inputs != [] ==>
      start + SentText(inputs, key)
      == (start + SentText(inputs[..|inputs| - 1], key)) + TextFor(inputs[|inputs| - 1].event, key)
  {
  }

  /**
   Block assembly under any interleaving: until its block is ended, the text under a key
   is its text at the start plus every delta for that key, in order, whatever other
   blocks, tools or messages the run interleaves, provided its step is still active.
   */
  lemma {:induction false} BlockTextIsConcatenation(s: Session, inputs: seq<Input>, key: Key, start: Text)
    requires SessionOk(s) && AdmissibleRun(s, inputs)
    requires Holds(s, key, start) && NotEnded(inputs, key) && IsActiveOpenStep(Run(s, inputs), key.stepId)
    ensures Holds(Run(s, inputs), key, start + SentText(inputs, key))
  {
    SentTextStep(start, inputs, key);
    if inputs != [] {
      var front, last := inputs[..|inputs| - 1], inputs[|inputs| - 1];
      AdmissibleFront(s, inputs);
      NotEndedFront(inputs, key);
      StillActive(s, front, last, key);
      BlockTextIsConcatenation(s, front, key, start);
      GrowOne(s, front, last, key, start + SentText(front, key));
    }
  }
}
