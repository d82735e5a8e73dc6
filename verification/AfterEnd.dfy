/**
 What can reopen the conversation once an execution has ended: a late tool attempt, or a
 late retry notice, and nothing else until the next execution starts.
 */
module AfterEnd {
  import opened Prelude
  import opened SessionTypes
  import opened Messages
  import opened Reducer
  import opened Steps
  import opened PartEvents
  import opened MessageIdentity
  import opened Correspondence
  import opened ToolMachine
  import opened Runs

  ghost predicate AllComplete(parts: seq<Part>) {
    forall j :: 0 <= j < |parts| ==> !IsIncomplete(parts[j])
  }

  /** No Assistant message has an incomplete part. */
  ghost predicate NothingIncomplete(ms: seq<Message>) {
    forall i :: 0 <= i < |ms| ==> AllComplete(PartsOf(ms[i]))
  }

  /** Nothing incomplete, no current execution and no current message. */
  ghost predicate AtRest(s: Session) {
    && NothingIncomplete(s.messages)
    && s.currentExecutionId.None?
    && s.currentAssistantMessageId.None?
  }

  /** The two kinds of late event that leave something incomplete. */
  predicate Revives(s: Session, e: Event) {
    || (e.ToolAttempt? && FindLatestUnsettled(s.messages, e.toolCallId).Some?)
    || (e.RecoveryNoticed? && e.recovery.kind.Retry? && !RecoveryIgnored(s, e.recovery))
  }

  /** Right after an accepted end everything is at rest. */
  lemma EndRests(s: Session, end: End, now: int)
    requires LifecycleAccepted(s, ExecutionEnd(end))
    ensures AtRest(OnLifecycle(s, ExecutionEnd(end), now))
  {
    EndLeavesNothingIncomplete(s, end, now);
    var t := OnLifecycle(s, ExecutionEnd(end), now);
    forall i | 0 <= i < |t.messages| ensures AllComplete(PartsOf(t.messages[i])) {
      forall j | 0 <= j < |PartsOf(t.messages[i])| ensures !IsIncomplete(PartsOf(t.messages[i])[j]) {}
    }
  }

  /* ---------- part events ---------- */

  lemma TargetComplete(s: Session, edit: Edit)
    requires NothingIncomplete(s.messages) && EditFits(s.messages, edit) && (edit.Replace? || edit.Remove?)
    ensures !IsIncomplete(Target(s, edit))
  {
    assert AllComplete(PartsOf(s.messages[edit.i]));
  }

  /** Among complete parts, an edit leaves something incomplete exactly when it brings it in. */
  lemma EditCompletes(ms: seq<Message>, edit: Edit)
    requires NothingIncomplete(ms) && EditFits(ms, edit) && (edit.Append? || edit.Replace?)
    ensures NothingIncomplete(ApplyEdit(ms, edit)) <==> !IsIncomplete(edit.part)
  {
    var after := ApplyEdit(ms, edit);
    var parts := EditedParts(ms[edit.i].parts, edit);
    assert PartsOf(after[edit.i]) == parts;
    var k := if edit.Append? then |ms[edit.i].parts| else edit.j;
    assert parts[k] == edit.part;
    assert AllComplete(PartsOf(ms[edit.i]));
    if !IsIncomplete(edit.part) {
      forall i | 0 <= i < |after| ensures AllComplete(PartsOf(after[i])) {
        assert AllComplete(PartsOf(ms[i]));
      }
    } else {
      assert !AllComplete(parts);
    }
  }

  lemma NoActiveStep(s: Session, stepId: string)
    requires s.currentExecutionId.None?
    ensures !IsActiveOpenStep(s, stepId) && CurrentRun(s).None?
  {
  }

  lemma BlocksIdle(s: Session, e: Event, ctx: Context, t: Session)
    requires AtRest(s) && Addressable(s.messages) && Reduces(s, e, ctx, t) && IsBlockEvent(e)
    ensures t == s
  {
    NoActiveStep(s, e.stepId);
    if e.BlockStart? {
      var edit := BlockStartChange(s, e, ctx, t);
    } else if e.BlockDelta? {
      var edit := BlockDeltaChange(s, e, ctx, t);
    } else {
      var edit := BlockEndChange(s, e, ctx, t);
    }
  }

  lemma NewToolsIdle(s: Session, e: Event, ctx: Context, t: Session)
    requires AtRest(s) && Addressable(s.messages) && Reduces(s, e, ctx, t) && (e.ToolInputStart? || e.ToolCall?)
    ensures t == s
  {
    if e.ToolInputStart? {
      var edit := ToolInputStartChange(s, e, ctx, t);
    } else {
      var edit := ToolCallChange(s, e, ctx, t);
      if edit.Replace? {
        TargetComplete(s, edit);
      }
    }
  }

  lemma ResultComplete(s: Session, e: Event, ctx: Context, t: Session)
    requires AtRest(s) && Addressable(s.messages) && Reduces(s, e, ctx, t) && e.ToolResultArrived?
    ensures NothingIncomplete(t.messages)
  {
    var edit := ToolResultChange(s, e, ctx, t);
    ResultEditComplete(s, t, edit, e.toolCallId, e.settledAt, e.result);
  }

  lemma ResultEditComplete(s: Session, t: Session, edit: Edit, toolCallId: string, settledAt: int, result: ToolResult)
    requires NothingIncomplete(s.messages) && ToolResultEdit(s, t, edit, toolCallId, settledAt, result)
    ensures NothingIncomplete(t.messages)
  {
    if edit.Replace? {
      assert !IsIncomplete(edit.part);
      EditCompletes(s.messages, edit);
    }
  }

  lemma InputComplete(s: Session, e: Event, ctx: Context, t: Session)
    requires AtRest(s) && Addressable(s.messages) && Reduces(s, e, ctx, t) && e.ToolInputResolved?
    ensures NothingIncomplete(t.messages)
  {
    var edit := ToolInputResolvedChange(s, e, ctx, t);
    if edit.Replace? {
      TargetComplete(s, edit);
      EditCompletes(s.messages, edit);
    }
  }

  lemma InputsAndOutputsComplete(s: Session, e: Event, ctx: Context, t: Session)
    requires AtRest(s) && Addressable(s.messages) && Reduces(s, e, ctx, t)
    requires e.ToolInputResolved? || e.ToolOutputDelta? || e.ToolResultArrived?
    ensures NothingIncomplete(t.messages)
  {
    if e.ToolInputResolved? {
      InputComplete(s, e, ctx, t);
    } else if e.ToolOutputDelta? {
      var edit := ToolOutputDeltaChange(s, e, ctx, t);
      if edit.Replace? {
        TargetComplete(s, edit);
      }
    } else {
      ResultComplete(s, e, ctx, t);
    }
  }

  /** Without a current message an attempt is accepted exactly when some call of that id is unsettled. */
  lemma AttemptAcceptedIff(s: Session, toolCallId: string)
    requires Addressable(s.messages) && s.currentAssistantMessageId.None?
    ensures CallUnsettled(s, toolCallId) <==> FindLatestUnsettled(s.messages, toolCallId).Some?
  {
    if FindLatestUnsettled(s.messages, toolCallId).Some? {
      var i, j := FindLatestUnsettledIs(s.messages, toolCallId);
      GetPartIs(s.messages, i, j);
    }
  }

  /** An attempt on a complete, unsettled part reopens it. */
  lemma AttemptReopens(p: Part, attempt: Attempt)
    requires p.Tool? && !p.state.ToolSettled? && !IsIncomplete(p)
    ensures IsIncomplete(WithAttempt(p, attempt))
  {
  }

  lemma AttemptRevivesIff(s: Session, e: Event, ctx: Context, t: Session)
    requires AtRest(s) && Addressable(s.messages) && Reduces(s, e, ctx, t) && e.ToolAttempt?
    ensures NothingIncomplete(t.messages) <==> !Revives(s, e)
  {
    var edit := ToolAttemptChange(s, e, ctx, t);
    AttemptAcceptedIff(s, e.toolCallId);
    if edit.Replace? {
      TargetComplete(s, edit);
      AttemptReopens(Target(s, edit), e.attempt);
      EditCompletes(s.messages, edit);
    }
  }

  /** The interrupted call as it runs again: with what it was given and when it began, but without live output. */
  function Restored(p: Part, attempt: Attempt): Part
    requires p.Tool? && p.state.ToolInterrupted?
  {
    var input := if p.state.partialInput.Some? then p.state.partialInput.value else NULL_INPUT;
    var begunAt := if p.state.begunAt.Some? then p.state.begunAt.value else attempt.timestamp;
    p.(attempt := Some(attempt), state := ToolRunning(input, begunAt, None))
  }

  /** A late attempt revives one interrupted call and changes nothing else. */
  lemma LateAttemptRestores(s: Session, e: Event, ctx: Context, t: Session) returns (i: nat, j: nat)
    requires AtRest(s) && Addressable(s.messages) && Reduces(s, e, ctx, t) && e.ToolAttempt? && Revives(s, e)
    ensures i < |s.messages| && s.messages[i].Assistant? && j < |s.messages[i].parts|
    ensures IsToolCall(s.messages[i].parts[j], e.toolCallId) && s.messages[i].parts[j].state.ToolInterrupted?
    ensures t == s.(messages := ApplyEdit(s.messages, Replace(i, j, Restored(s.messages[i].parts[j], e.attempt))))
  {
    var edit := ToolAttemptChange(s, e, ctx, t);
    AttemptAcceptedIff(s, e.toolCallId);
    TargetComplete(s, edit);
    i, j := edit.i, edit.j;
  }

  lemma NoticeOpenIff(r: RecoveryEvent, ctx: Context)
    ensures RecoveryPart(r, ctx).Recovery?
    ensures IsIncomplete(RecoveryPart(r, ctx)) <==> r.kind.Retry?
    ensures forall p: Part :: p.Recovery? ==> (IsIncomplete(MergeRecovery(p, RecoveryPart(r, ctx))) <==> r.kind.Retry?)
  {
  }

  lemma RecoveryRevivesIff(s: Session, e: Event, ctx: Context, t: Session)
    requires AtRest(s) && Addressable(s.messages) && Reduces(s, e, ctx, t) && e.RecoveryNoticed?
    ensures NothingIncomplete(t.messages) <==> !Revives(s, e)
  {
    var edit := RecoveryChange(s, e, ctx, t);
    NoticeOpenIff(e.recovery, ctx);
    if !edit.Keep? {
      EditCompletes(s.messages, edit);
    }
  }

  lemma PartEventRevivesIff(s: Session, e: Event, ctx: Context, t: Session)
    requires AtRest(s) && Addressable(s.messages) && Reduces(s, e, ctx, t) && IsPartEvent(e)
    ensures NothingIncomplete(t.messages) <==> !Revives(s, e)
  {
    if IsBlockEvent(e) {
      BlocksIdle(s, e, ctx, t);
    } else if e.ToolAttempt? {
      AttemptRevivesIff(s, e, ctx, t);
    } else if e.RecoveryNoticed? {
      RecoveryRevivesIff(s, e, ctx, t);
    } else if e.ToolInputStart? || e.ToolCall? {
      NewToolsIdle(s, e, ctx, t);
    } else {
      InputsAndOutputsComplete(s, e, ctx, t);
    }
  }

  /* ---------- other events ---------- */

  lemma UsersComplete(ms: seq<Message>, users: seq<Message>)
    requires NothingIncomplete(ms) && forall k :: 0 <= k < |users| ==> users[k].User?
    ensures NothingIncomplete(ms + users)
  {
    forall i | 0 <= i < |ms + users| ensures AllComplete(PartsOf((ms + users)[i])) {
      if i < |ms| {
        assert AllComplete(PartsOf(ms[i]));
      }
    }
  }

  /** An Assistant message with the same parts, of the same execution. */
  predicate SameParts(before: Message, after: Message) {
    before.Assistant? && after.Assistant? && after.parts == before.parts && after.executionId == before.executionId
  }

  /** After compaction, every Assistant message has the parts and the execution of an earlier one. */
  lemma CompactedParts(ms: seq<Message>, summary: string, tailStartId: string, ctx: Context, k: nat)
    requires k < |Compacted(ms, summary, tailStartId, ctx)|
    ensures var m := Compacted(ms, summary, tailStartId, ctx)[k];
      m.User? || exists i :: 0 <= i < |ms| && SameParts(ms[i], m)
  {
    var after, upTo := Compacted(ms, summary, tailStartId, ctx), MessageAt(ms, tailStartId);
    CompactedAt(ms, summary, tailStartId, ctx);
    if CompactionAt(ms) < |ms| || k < upTo {
      assert after[k].User? || SameParts(ms[k], after[k]);
    } else if k > upTo {
      assert after[k - 1 + 1] == ms[k - 1];
    }
  }

  lemma CompactComplete(ms: seq<Message>, summary: string, tailStartId: string, ctx: Context)
    requires NothingIncomplete(ms)
    ensures NothingIncomplete(Compacted(ms, summary, tailStartId, ctx))
  {
    var after := Compacted(ms, summary, tailStartId, ctx);
    forall k | 0 <= k < |after| ensures AllComplete(PartsOf(after[k])) {
      CompactedParts(ms, summary, tailStartId, ctx, k);
      if after[k].Assistant? {
        var i :| 0 <= i < |ms| && SameParts(ms[i], after[k]);
        assert AllComplete(PartsOf(ms[i]));
      }
    }
  }

  lemma MessageEventComplete(s: Session, e: Event, ctx: Context, t: Session)
    requires AtRest(s) && Admissible(s, e, ctx) && Reduces(s, e, ctx, t)
    requires e.MessagesCommitted? || e.SystemNotice? || e.Compact?
    ensures NothingIncomplete(t.messages)
  {
    if e.MessagesCommitted? {
      CommitIs(s, e, ctx, t);
      NewMessagesAre(e.committed, Ids(s.messages));
      UsersComplete(s.messages, NewMessages(e.committed, Ids(s.messages)));
    } else if e.SystemNotice? {
      NoticeIs(s, e, ctx, t);
      UsersComplete(s.messages, [NoticeMessage(s, e.notice, ctx)]);
    } else {
      CompactIs(s, e, ctx, t);
      CompactComplete(s.messages, e.summary, e.tailStartId, ctx);
    }
  }

  lemma StepEventsIdle(s: Session, e: Event, ctx: Context, t: Session)
    requires AtRest(s) && Reduces(s, e, ctx, t) && (e.StepStart? || e.StepEnd? || e.ExecutionError?)
    ensures t == s
  {
    NoActiveStep(s, "");
    if e.StepStart? {
      StepStartIs(s, e, ctx, t);
    } else if e.StepEnd? {
      StepEndIs(s, e, ctx, t);
    } else {
      ErrorIs(s, e, ctx, t);
    }
  }

  lemma LifecycleComplete(s: Session, e: LifecycleEvent, now: int)
    requires AtRest(s)
    ensures NothingIncomplete(OnLifecycle(s, e, now).messages)
  {
    if e.ExecutionEnd? && LifecycleAccepted(s, e) {
      EndRests(s, e.end, now);
    }
  }

  lemma OtherComplete(s: Session, e: Event, ctx: Context, t: Session)
    requires AtRest(s) && Admissible(s, e, ctx) && Reduces(s, e, ctx, t) && !IsPartEvent(e)
    ensures NothingIncomplete(t.messages)
  {
    if e.Lifecycle? {
      LifecycleIs(s, e, ctx, t);
      LifecycleComplete(s, e.lifecycle, ctx.now);
    } else if e.MessagesCommitted? || e.SystemNotice? || e.Compact? {
      MessageEventComplete(s, e, ctx, t);
    } else if e.StepStart? || e.StepEnd? || e.ExecutionError? {
      StepEventsIdle(s, e, ctx, t);
    } else if e.StopRequested? {
      StopIs(s, e, ctx, t);
    } else {
      QuietIs(s, e, ctx, t);
    }
  }

  /**
   In a projection at rest, an event leaves something incomplete exactly when it is an
   attempt on a call that is not settled, or a retry notice that finds its message.
   */
  lemma RevivesIff(s: Session, e: Event, ctx: Context, t: Session)
    requires MessagesOk(s.messages) && AtRest(s) && Admissible(s, e, ctx) && Reduces(s, e, ctx, t)
    ensures NothingIncomplete(t.messages) <==> !Revives(s, e)
  {
    if IsPartEvent(e) {
      OkIsAddressable(s.messages);
      PartEventRevivesIff(s, e, ctx, t);
    } else {
      OtherComplete(s, e, ctx, t);
    }
  }

  /* ---------- staying at rest ---------- */

  predicate StartsExecution(e: Event) {
    e.Lifecycle? && e.lifecycle.ExecutionStart?
  }

  lemma PartEditIdle(s: Session, t: Session, edit: Edit)
    requires AtRest(s) && PartEdit(s, t, edit)
    ensures t.currentExecutionId.None? && t.currentAssistantMessageId.None?
  {
    if !edit.Keep? {
      NoActiveStep(s, s.messages[edit.i].stepId);
    }
  }

  /** Without a start, no execution and no message becomes current. */
  lemma StaysIdle(s: Session, e: Event, ctx: Context, t: Session)
    requires Coherent(s) && AtRest(s) && FreshContext(s, ctx) && Reduces(s, e, ctx, t) && !StartsExecution(e)
    ensures t.currentExecutionId.None? && t.currentAssistantMessageId.None?
  {
    if IsPartEvent(e) {
      var edit := PartEventIsEdit(s, e, ctx, t);
      PartEditIdle(s, t, edit);
    } else if e.Lifecycle? {
      LifecycleIs(s, e, ctx, t);
      if LifecycleAccepted(s, e.lifecycle) {
        AcceptedIsLast(s.executions, e.lifecycle);
        assert false;
      }
    } else {
      OtherStaysIdle(s, e, ctx, t);
    }
  }

  lemma OtherStaysIdle(s: Session, e: Event, ctx: Context, t: Session)
    requires AtRest(s) && Reduces(s, e, ctx, t) && !IsPartEvent(e) && !e.Lifecycle?
    ensures t.currentExecutionId.None? && t.currentAssistantMessageId.None?
  {
    if e.StepStart? || e.StepEnd? || e.ExecutionError? {
      StepEventsIdle(s, e, ctx, t);
    } else if e.MessagesCommitted? {
      CommitIs(s, e, ctx, t);
    } else if e.SystemNotice? {
      NoticeIs(s, e, ctx, t);
    } else if e.Compact? {
      CompactIs(s, e, ctx, t);
    } else if e.StopRequested? {
      StopIs(s, e, ctx, t);
    } else {
      QuietIs(s, e, ctx, t);
    }
  }

  lemma MoveRestsIff(s: Session, input: Input, t: Session)
    requires Coherent(s) && AtRest(s) && AdmissibleInput(s, input) && Moves(s, input, t)
    requires !StartsExecution(input.event)
    ensures AtRest(t) <==> !Revives(s, input.event)
    ensures NothingIncomplete(t.messages) <==> !Revives(s, input.event)
  {
    if Reduces(s, input.event, input.ctx, t) {
      RevivesIff(s, input.event, input.ctx, t);
      StaysIdle(s, input.event, input.ctx, t);
    }
  }

  ghost predicate CompleteUpTo(s: Session, inputs: seq<Input>, n: nat)
    requires n <= |inputs|
  {
    forall k :: 0 <= k <= n ==> NothingIncomplete(Run(s, inputs[..k]).messages)
  }

  ghost predicate NeverRevived(s: Session, inputs: seq<Input>, n: nat)
    requires n <= |inputs|
  {
    forall k :: 0 <= k < n ==> !Revives(Run(s, inputs[..k]), inputs[k].event)
  }

  lemma OneMore(s: Session, inputs: seq<Input>, n: nat)
    requires n < |inputs|
    ensures CompleteUpTo(s, inputs, n + 1)
       <==> CompleteUpTo(s, inputs, n) && NothingIncomplete(Run(s, inputs[..n + 1]).messages)
    ensures NeverRevived(s, inputs, n + 1)
       <==> NeverRevived(s, inputs, n) && !Revives(Run(s, inputs[..n]), inputs[n].event)
  {
  }

  lemma RestStep(s: Session, inputs: seq<Input>, n: nat)
    requires SessionOk(s) && AdmissibleRun(s, inputs) && n < |inputs| && !StartsExecution(inputs[n].event)
    requires AtRest(Run(s, inputs[..n]))
    ensures AtRest(Run(s, inputs[..n + 1])) <==> !Revives(Run(s, inputs[..n]), inputs[n].event)
    ensures NothingIncomplete(Run(s, inputs[..n + 1]).messages) <==> !Revives(Run(s, inputs[..n]), inputs[n].event)
  {
    AdmissiblePrefix(s, inputs, n);
    RunKeepsOk(s, inputs[..n]);
    RunStep(s, inputs, n);
    AfterMoves(Run(s, inputs[..n]), inputs[n]);
    MoveRestsIff(Run(s, inputs[..n]), inputs[n], Run(s, inputs[..n + 1]));
  }

  /** From rest, until an execution starts, everything stays complete exactly as long as no event revives something. */
  lemma {:induction false} CompleteIff(s: Session, inputs: seq<Input>, n: nat)
    requires SessionOk(s) && AtRest(s) && AdmissibleRun(s, inputs) && n <= |inputs|
    requires forall k :: 0 <= k < n ==> !StartsExecution(inputs[k].event)
    ensures CompleteUpTo(s, inputs, n) <==> NeverRevived(s, inputs, n)
    ensures NeverRevived(s, inputs, n) ==> AtRest(Run(s, inputs[..n]))
  {
    if n == 0 {
      assert inputs[..0] == [];
    } else {
      var m := n - 1;
      CompleteIff(s, inputs, m);
      OneMore(s, inputs, m);
      if NeverRevived(s, inputs, m) {
        RestStep(s, inputs, m);
      }
    }
  }

  /**
   After an accepted end, and until another execution starts, no Assistant message has an
   incomplete part at any point, exactly if no late attempt finds an unsettled call and no
   late retry notice finds its message.
   */
  lemma CompleteAfterEndIff(s: Session, end: End, ctx: Context, inputs: seq<Input>, n: nat)
    requires SessionOk(s) && FreshContext(s, ctx) && LifecycleAccepted(s, ExecutionEnd(end))
    requires AdmissibleRun(OnLifecycle(s, ExecutionEnd(end), ctx.now), inputs) && n <= |inputs|
    requires forall k :: 0 <= k < n ==> !StartsExecution(inputs[k].event)
    ensures var t := OnLifecycle(s, ExecutionEnd(end), ctx.now);
      CompleteUpTo(t, inputs, n) <==> NeverRevived(t, inputs, n)
  {
    LifecycleInput(s, ExecutionEnd(end), ctx);
    EndRests(s, end, ctx.now);
    CompleteIff(OnLifecycle(s, ExecutionEnd(end), ctx.now), inputs, n);
  }
}
