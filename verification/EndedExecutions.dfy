/** The messages of an execution that has ended, for as long as the Session goes on. */
module EndedExecutions {
  import opened Prelude
  import opened SessionTypes
  import opened ExecutionLifecycle
  import opened Messages
  import opened Reducer
  import opened Steps
  import opened PartEvents
  import opened MessageIdentity
  import opened Correspondence
  import opened Runs
  import opened AfterEnd

  // Nothing in them is incomplete right after the end. Later executions may come and go: only a
  // late attempt or a late retry notice that finds one of these messages can change that.

  predicate HasEnded(s: Session, id: string) {
    var k := Find(s.executions, id);
    k < |s.executions| && s.executions[k].status.Terminal?
  }

  predicate BelongsTo(ms: seq<Message>, i: nat, id: string) {
    i < |ms| && ms[i].Assistant? && ms[i].executionId == id
  }

  /** No message of this execution has an incomplete part. */
  ghost predicate CompleteFor(ms: seq<Message>, id: string) {
    forall i :: 0 <= i < |ms| && BelongsTo(ms, i, id) ==> AllComplete(ms[i].parts)
  }

  /** The index of the message in which a tool event finds its call. */
  function CallMessage(s: Session, toolCallId: string): nat {
    var at := FindTool(s.messages, s.currentAssistantMessageId, toolCallId);
    if at.None? then |s.messages| else MessageAt(s.messages, at.value.messageId)
  }

  /** The two kinds of late event that leave something incomplete in a message of this execution. */
  predicate RevivesIn(s: Session, e: Event, id: string) {
    || (e.ToolAttempt? && CallUnsettled(s, e.toolCallId) && BelongsTo(s.messages, CallMessage(s, e.toolCallId), id))
    || (e.RecoveryNoticed? && e.recovery.kind.Retry? && !RecoveryIgnored(s, e.recovery)
        && BelongsTo(s.messages, RecoveryTarget(s, e.recovery.stepId), id))
  }

  /* ---------- what is current belongs elsewhere ---------- */

  lemma EndedIsNotCurrent(s: Session, id: string)
    requires Coherent(s) && HasEnded(s, id)
    ensures s.currentExecutionId != Some(id)
  {
    if s.currentExecutionId.Some? {
      CurrentIsLast(s);
    }
  }

  lemma CurrentMessageElsewhere(s: Session, i: nat, id: string)
    requires Coherent(s) && HasEnded(s, id) && i < |s.messages| && s.messages[i].Assistant?
    requires s.currentAssistantMessageId == Some(s.messages[i].id)
    ensures !BelongsTo(s.messages, i, id)
  {
    EndedIsNotCurrent(s, id);
    var k :| 0 <= k < |s.messages|
      && IsCurrentMessage(s.messages[k], s.currentExecutionId, s.currentAssistantMessageId);
    MessageAtIs(s.messages, i);
    MessageAtIs(s.messages, k);
  }

  lemma ActiveStepElsewhere(s: Session, i: nat, stepId: string, id: string)
    requires Coherent(s) && HasEnded(s, id) && OnActiveStep(s, i, stepId)
    ensures !BelongsTo(s.messages, i, id)
  {
    EndedIsNotCurrent(s, id);
    ActiveMessageIsCurrent(s, i, stepId);
  }

  /* ---------- part events ---------- */

  /** An edit elsewhere, or one that brings in a complete part, keeps the messages of an execution complete. */
  lemma EditKeepsComplete(ms: seq<Message>, edit: Edit, id: string)
    requires CompleteFor(ms, id) && EditFits(ms, edit)
    requires edit.Append? || edit.Replace? ==> !BelongsTo(ms, edit.i, id) || !IsIncomplete(edit.part)
    ensures CompleteFor(ApplyEdit(ms, edit), id)
  {
    var after := ApplyEdit(ms, edit);
    forall i | 0 <= i < |after| && BelongsTo(after, i, id) ensures AllComplete(after[i].parts) {
      assert BelongsTo(ms, i, id) && AllComplete(ms[i].parts);
    }
  }

  lemma EditBreaksComplete(ms: seq<Message>, edit: Edit, id: string)
    requires EditFits(ms, edit) && (edit.Append? || edit.Replace?)
    requires BelongsTo(ms, edit.i, id) && IsIncomplete(edit.part)
    ensures !CompleteFor(ApplyEdit(ms, edit), id)
  {
    var after := ApplyEdit(ms, edit);
    var k := if edit.Append? then |ms[edit.i].parts| else edit.j;
    assert after[edit.i].parts[k] == edit.part;
    assert BelongsTo(after, edit.i, id);
  }

  lemma TargetCompleteFor(s: Session, edit: Edit, id: string)
    requires CompleteFor(s.messages, id) && EditFits(s.messages, edit) && (edit.Replace? || edit.Remove?)
    ensures BelongsTo(s.messages, edit.i, id) ==> !IsIncomplete(Target(s, edit))
  {
    if BelongsTo(s.messages, edit.i, id) {
      assert AllComplete(s.messages[edit.i].parts);
    }
  }

  lemma BlocksElsewhere(s: Session, e: Event, ctx: Context, t: Session, id: string)
    requires Coherent(s) && HasEnded(s, id) && CompleteFor(s.messages, id)
    requires Reduces(s, e, ctx, t) && IsBlockEvent(e)
    ensures CompleteFor(t.messages, id)
  {
    OkIsAddressable(s.messages);
    var edit: Edit;
    if e.BlockStart? {
      edit := BlockStartChange(s, e, ctx, t);
    } else if e.BlockDelta? {
      edit := BlockDeltaChange(s, e, ctx, t);
    } else {
      edit := BlockEndChange(s, e, ctx, t);
    }
    if !edit.Keep? {
      ActiveStepElsewhere(s, edit.i, e.stepId, id);
    }
    EditKeepsComplete(s.messages, edit, id);
  }

  lemma NewToolsElsewhere(s: Session, e: Event, ctx: Context, t: Session, id: string)
    requires Coherent(s) && HasEnded(s, id) && CompleteFor(s.messages, id)
    requires Reduces(s, e, ctx, t) && (e.ToolInputStart? || e.ToolCall?)
    ensures CompleteFor(t.messages, id)
  {
    OkIsAddressable(s.messages);
    var edit: Edit;
    if e.ToolInputStart? {
      edit := ToolInputStartChange(s, e, ctx, t);
    } else {
      edit := ToolCallChange(s, e, ctx, t);
    }
    if edit.Append? {
      CurrentMessageElsewhere(s, edit.i, id);
    } else if edit.Replace? {
      TargetCompleteFor(s, edit, id);
    }
    EditKeepsComplete(s.messages, edit, id);
  }

  lemma InputKeepsComplete(s: Session, e: Event, ctx: Context, t: Session, id: string)
    requires Coherent(s) && CompleteFor(s.messages, id) && Reduces(s, e, ctx, t) && e.ToolInputResolved?
    ensures CompleteFor(t.messages, id)
  {
    OkIsAddressable(s.messages);
    var edit := ToolInputResolvedChange(s, e, ctx, t);
    if edit.Replace? {
      TargetCompleteFor(s, edit, id);
      assert IsIncomplete(edit.part) ==> IsIncomplete(Target(s, edit));
    }
    EditKeepsComplete(s.messages, edit, id);
  }

  lemma OutputKeepsComplete(s: Session, e: Event, ctx: Context, t: Session, id: string)
    requires Coherent(s) && CompleteFor(s.messages, id) && Reduces(s, e, ctx, t) && e.ToolOutputDelta?
    ensures CompleteFor(t.messages, id)
  {
    OkIsAddressable(s.messages);
    var edit := ToolOutputDeltaChange(s, e, ctx, t);
    if edit.Replace? {
      TargetCompleteFor(s, edit, id);
    }
    EditKeepsComplete(s.messages, edit, id);
  }

  lemma ResultKeepsComplete(s: Session, e: Event, ctx: Context, t: Session, id: string)
    requires Coherent(s) && CompleteFor(s.messages, id) && Reduces(s, e, ctx, t) && e.ToolResultArrived?
    ensures CompleteFor(t.messages, id)
  {
    OkIsAddressable(s.messages);
    var edit := ToolResultChange(s, e, ctx, t);
    ResultEditKeepsComplete(s, t, edit, e.toolCallId, e.settledAt, e.result, id);
  }

  lemma ResultEditKeepsComplete(
    s: Session, t: Session, edit: Edit, toolCallId: string, settledAt: int, result: ToolResult, id: string)
    requires CompleteFor(s.messages, id) && ToolResultEdit(s, t, edit, toolCallId, settledAt, result)
    ensures CompleteFor(t.messages, id)
  {
    if edit.Replace? {
      assert !IsIncomplete(edit.part);
    }
    EditKeepsComplete(s.messages, edit, id);
  }

  lemma AttemptIff(s: Session, e: Event, ctx: Context, t: Session, id: string)
    requires Coherent(s) && CompleteFor(s.messages, id) && Reduces(s, e, ctx, t) && e.ToolAttempt?
    ensures CompleteFor(t.messages, id) <==> !RevivesIn(s, e, id)
  {
    OkIsAddressable(s.messages);
    var edit := ToolAttemptChange(s, e, ctx, t);
    if edit.Replace? {
      MessageAtIs(s.messages, edit.i);
      assert CallMessage(s, e.toolCallId) == edit.i;
      TargetCompleteFor(s, edit, id);
      if BelongsTo(s.messages, edit.i, id) {
        AttemptReopens(Target(s, edit), e.attempt);
        EditBreaksComplete(s.messages, edit, id);
      } else {
        EditKeepsComplete(s.messages, edit, id);
      }
    }
  }

  lemma RecoveryIff(s: Session, e: Event, ctx: Context, t: Session, id: string)
    requires Coherent(s) && CompleteFor(s.messages, id) && Reduces(s, e, ctx, t) && e.RecoveryNoticed?
    ensures CompleteFor(t.messages, id) <==> !RevivesIn(s, e, id)
  {
    OkIsAddressable(s.messages);
    var edit := RecoveryChange(s, e, ctx, t);
    NoticeOpenIff(e.recovery, ctx);
    if !edit.Keep? {
      if BelongsTo(s.messages, edit.i, id) && e.recovery.kind.Retry? {
        EditBreaksComplete(s.messages, edit, id);
      } else {
        EditKeepsComplete(s.messages, edit, id);
      }
    }
  }

  lemma PartEventIff(s: Session, e: Event, ctx: Context, t: Session, id: string)
    requires Coherent(s) && HasEnded(s, id) && CompleteFor(s.messages, id) && Reduces(s, e, ctx, t) && IsPartEvent(e)
    ensures CompleteFor(t.messages, id) <==> !RevivesIn(s, e, id)
  {
    if IsBlockEvent(e) {
      BlocksElsewhere(s, e, ctx, t, id);
    } else if e.ToolInputStart? || e.ToolCall? {
      NewToolsElsewhere(s, e, ctx, t, id);
    } else if e.ToolInputResolved? {
      InputKeepsComplete(s, e, ctx, t, id);
    } else if e.ToolOutputDelta? {
      OutputKeepsComplete(s, e, ctx, t, id);
    } else if e.ToolResultArrived? {
      ResultKeepsComplete(s, e, ctx, t, id);
    } else if e.ToolAttempt? {
      AttemptIff(s, e, ctx, t, id);
    } else {
      RecoveryIff(s, e, ctx, t, id);
    }
  }

  /* ---------- other events ---------- */

  /** Appending messages without parts keeps the rest. */
  lemma AppendKeepsComplete(ms: seq<Message>, more: seq<Message>, id: string)
    requires CompleteFor(ms, id) && forall k :: 0 <= k < |more| ==> PartsOf(more[k]) == []
    ensures CompleteFor(ms + more, id)
  {
    var after := ms + more;
    forall i | 0 <= i < |after| && BelongsTo(after, i, id) ensures AllComplete(after[i].parts) {
      if i < |ms| {
        assert BelongsTo(ms, i, id);
      } else {
        assert PartsOf(more[i - |ms|]) == [];
      }
    }
  }

  lemma CompactKeepsComplete(ms: seq<Message>, summary: string, tailStartId: string, ctx: Context, id: string)
    requires CompleteFor(ms, id)
    ensures CompleteFor(Compacted(ms, summary, tailStartId, ctx), id)
  {
    var after := Compacted(ms, summary, tailStartId, ctx);
    forall k | 0 <= k < |after| && BelongsTo(after, k, id) ensures AllComplete(after[k].parts) {
      CompactedParts(ms, summary, tailStartId, ctx, k);
      var i :| 0 <= i < |ms| && SameParts(ms[i], after[k]);
      assert BelongsTo(ms, i, id);
    }
  }

  lemma StepEndKeepsComplete(ms: seq<Message>, stepId: string, finishReason: string, now: int, id: string)
    requires CompleteFor(ms, id)
    ensures CompleteFor(StepEndMessages(ms, stepId, finishReason, now), id)
  {
    var after := StepEndMessages(ms, stepId, finishReason, now);
    forall i | 0 <= i < |after| && BelongsTo(after, i, id) ensures AllComplete(after[i].parts) {
      assert BelongsTo(ms, i, id) && AllComplete(ms[i].parts);
      assert forall j :: 0 <= j < |after[i].parts| ==>
        after[i].parts[j] == ms[i].parts[j] || after[i].parts[j] == InterruptBlock(ms[i].parts[j], now);
    }
  }

  lemma LifecycleKeepsComplete(s: Session, e: LifecycleEvent, now: int, id: string)
    requires CompleteFor(s.messages, id)
    ensures CompleteFor(OnLifecycle(s, e, now).messages, id)
  {
    if e.ExecutionEnd? && LifecycleAccepted(s, e) {
      EndRests(s, e.end, now);
      RestsFor(OnLifecycle(s, e, now), id);
    }
  }

  lemma RestsFor(t: Session, id: string)
    requires AtRest(t)
    ensures CompleteFor(t.messages, id)
  {
    forall i | 0 <= i < |t.messages| && BelongsTo(t.messages, i, id) ensures AllComplete(t.messages[i].parts) {
      assert AllComplete(PartsOf(t.messages[i]));
    }
  }

  lemma MessageEventKeepsComplete(s: Session, e: Event, ctx: Context, t: Session, id: string)
    requires CompleteFor(s.messages, id) && Admissible(s, e, ctx) && Reduces(s, e, ctx, t)
    requires e.MessagesCommitted? || e.SystemNotice? || e.Compact?
    ensures CompleteFor(t.messages, id)
  {
    if e.MessagesCommitted? {
      CommitIs(s, e, ctx, t);
      NewMessagesAre(e.committed, Ids(s.messages));
      AppendKeepsComplete(s.messages, NewMessages(e.committed, Ids(s.messages)), id);
    } else if e.SystemNotice? {
      NoticeIs(s, e, ctx, t);
      AppendKeepsComplete(s.messages, [NoticeMessage(s, e.notice, ctx)], id);
    } else {
      CompactIs(s, e, ctx, t);
      CompactKeepsComplete(s.messages, e.summary, e.tailStartId, ctx, id);
    }
  }

  lemma StepStartKeepsComplete(s: Session, stepId: string, number: int, ctx: Context, id: string)
    requires CompleteFor(s.messages, id)
    ensures CompleteFor(OnStepStart(s, stepId, number, ctx).messages, id)
  {
    var t := OnStepStart(s, stepId, number, ctx);
    if t != s {
      AppendKeepsComplete(s.messages, [t.messages[|s.messages|]], id);
    }
  }

  lemma StepEventKeepsComplete(s: Session, e: Event, ctx: Context, t: Session, id: string)
    requires CompleteFor(s.messages, id) && Reduces(s, e, ctx, t) && (e.StepStart? || e.StepEnd? || e.ExecutionError?)
    ensures CompleteFor(t.messages, id)
  {
    if e.StepStart? {
      StepStartIs(s, e, ctx, t);
      StepStartKeepsComplete(s, e.stepId, e.number, ctx, id);
    } else if e.StepEnd? {
      StepEndIs(s, e, ctx, t);
      StepEndKeepsComplete(s.messages, e.stepId, e.finishReason, ctx.now, id);
    } else {
      ErrorIs(s, e, ctx, t);
    }
  }

  lemma OtherKeepsComplete(s: Session, e: Event, ctx: Context, t: Session, id: string)
    requires CompleteFor(s.messages, id) && Admissible(s, e, ctx) && Reduces(s, e, ctx, t) && !IsPartEvent(e)
    ensures CompleteFor(t.messages, id)
  {
    if e.Lifecycle? {
      LifecycleIs(s, e, ctx, t);
      LifecycleKeepsComplete(s, e.lifecycle, ctx.now, id);
    } else if e.MessagesCommitted? || e.SystemNotice? || e.Compact? {
      MessageEventKeepsComplete(s, e, ctx, t, id);
    } else if e.StepStart? || e.StepEnd? || e.ExecutionError? {
      StepEventKeepsComplete(s, e, ctx, t, id);
    } else if e.StopRequested? {
      StopIs(s, e, ctx, t);
    } else {
      QuietIs(s, e, ctx, t);
    }
  }

  /* ---------- whole runs ---------- */

  /** Over every event, whatever execution is current: the messages of an ended one stay complete unless revived. */
  lemma RevivesInIff(s: Session, e: Event, ctx: Context, t: Session, id: string)
    requires Coherent(s) && HasEnded(s, id) && CompleteFor(s.messages, id)
    requires Admissible(s, e, ctx) && Reduces(s, e, ctx, t)
    ensures CompleteFor(t.messages, id) <==> !RevivesIn(s, e, id)
  {
    if IsPartEvent(e) {
      PartEventIff(s, e, ctx, t, id);
    } else {
      OtherKeepsComplete(s, e, ctx, t, id);
    }
  }

  lemma EndedStays(s: Session, t: Session, id: string)
    requires SessionOk(t) && Remembers(s, t) && HasEnded(s, id)
    ensures HasEnded(t, id)
  {
    FindStable(s.executions, t.executions, id);
  }

  lemma MoveCompleteIff(s: Session, input: Input, t: Session, id: string)
    requires Coherent(s) && HasEnded(s, id) && CompleteFor(s.messages, id)
    requires AdmissibleInput(s, input) && Moves(s, input, t)
    ensures CompleteFor(t.messages, id) <==> !RevivesIn(s, input.event, id)
  {
    if Reduces(s, input.event, input.ctx, t) {
      RevivesInIff(s, input.event, input.ctx, t, id);
    }
  }

  ghost predicate CompleteForUpTo(s: Session, inputs: seq<Input>, n: nat, id: string)
    requires n <= |inputs|
  {
    forall k :: 0 <= k <= n ==> CompleteFor(Run(s, inputs[..k]).messages, id)
  }

  ghost predicate NeverRevivedIn(s: Session, inputs: seq<Input>, n: nat, id: string)
    requires n <= |inputs|
  {
    forall k :: 0 <= k < n ==> !RevivesIn(Run(s, inputs[..k]), inputs[k].event, id)
  }

  lemma OneMoreFor(s: Session, inputs: seq<Input>, n: nat, id: string)
    requires n < |inputs|
    ensures CompleteForUpTo(s, inputs, n + 1, id)
       <==> CompleteForUpTo(s, inputs, n, id) && CompleteFor(Run(s, inputs[..n + 1]).messages, id)
    ensures NeverRevivedIn(s, inputs, n + 1, id)
       <==> NeverRevivedIn(s, inputs, n, id) && !RevivesIn(Run(s, inputs[..n]), inputs[n].event, id)
  {
  }

  lemma CompleteStep(s: Session, inputs: seq<Input>, n: nat, id: string)
    requires SessionOk(s) && AdmissibleRun(s, inputs) && n < |inputs| && HasEnded(s, id)
    requires CompleteFor(Run(s, inputs[..n]).messages, id)
    ensures CompleteFor(Run(s, inputs[..n + 1]).messages, id)
       <==> !RevivesIn(Run(s, inputs[..n]), inputs[n].event, id)
  {
    AdmissiblePrefix(s, inputs, n);
    RunKeepsOk(s, inputs[..n]);
    RunRemembers(s, inputs[..n]);
    EndedStays(s, Run(s, inputs[..n]), id);
    RunStep(s, inputs, n);
    AfterMoves(Run(s, inputs[..n]), inputs[n]);
    MoveCompleteIff(Run(s, inputs[..n]), inputs[n], Run(s, inputs[..n + 1]), id);
  }

  lemma CompleteForNext(s: Session, inputs: seq<Input>, n: nat, id: string)
    requires SessionOk(s) && AdmissibleRun(s, inputs) && n < |inputs| && HasEnded(s, id)
    requires CompleteForUpTo(s, inputs, n, id) <==> NeverRevivedIn(s, inputs, n, id)
    ensures CompleteForUpTo(s, inputs, n + 1, id) <==> NeverRevivedIn(s, inputs, n + 1, id)
  {
    OneMoreFor(s, inputs, n, id);
    if CompleteForUpTo(s, inputs, n, id) {
      assert CompleteFor(Run(s, inputs[..n]).messages, id);
      CompleteStep(s, inputs, n, id);
    }
  }

  lemma {:induction false} CompleteForIff(s: Session, inputs: seq<Input>, n: nat, id: string)
    requires SessionOk(s) && AdmissibleRun(s, inputs) && n <= |inputs|
    requires HasEnded(s, id) && CompleteFor(s.messages, id)
    ensures CompleteForUpTo(s, inputs, n, id) <==> NeverRevivedIn(s, inputs, n, id)
  {
    if n == 0 {
      assert inputs[..0] == [];
    } else {
      CompleteForIff(s, inputs, n - 1, id);
      CompleteForNext(s, inputs, n - 1, id);
    }
  }

  lemma EndEnds(s: Session, end: End, now: int)
    requires SessionOk(s) && LifecycleAccepted(s, ExecutionEnd(end))
    ensures HasEnded(OnLifecycle(s, ExecutionEnd(end), now), end.executionId)
    ensures CompleteFor(OnLifecycle(s, ExecutionEnd(end), now).messages, end.executionId)
  {
    var k := AcceptedAt(s.executions, ExecutionEnd(end), now);
    var xs := Apply(s.executions, ExecutionEnd(end), now);
    FindAt(xs, end.executionId, k);
    EndRests(s, end, now);
    RestsFor(OnLifecycle(s, ExecutionEnd(end), now), end.executionId);
  }

  /**
   From its accepted end on, over any run and any later executions, the messages of an
   execution are complete at every point exactly if no attempt finds an unsettled call in
   them and no retry notice finds one of them.
   */
  lemma EndedStaysCompleteIff(s: Session, end: End, ctx: Context, inputs: seq<Input>, n: nat)
    requires SessionOk(s) && FreshContext(s, ctx) && LifecycleAccepted(s, ExecutionEnd(end))
    requires AdmissibleRun(OnLifecycle(s, ExecutionEnd(end), ctx.now), inputs) && n <= |inputs|
    ensures var t := OnLifecycle(s, ExecutionEnd(end), ctx.now);
      CompleteForUpTo(t, inputs, n, end.executionId) <==> NeverRevivedIn(t, inputs, n, end.executionId)
  {
    LifecycleInput(s, ExecutionEnd(end), ctx);
    EndEnds(s, end, ctx.now);
    CompleteForIff(OnLifecycle(s, ExecutionEnd(end), ctx.now), inputs, n, end.executionId);
  }
}
