/** The reducer as a relation, one event at a time. */
module Steps {
  import opened Prelude
  import opened SessionTypes
  import opened ExecutionLifecycle
  import opened Messages
  import opened Reducer
  import ChildLinks

  /** Mentioned only where `Reduces` is to be unfolded. */
  predicate Unfolds(k: int) {
    true
  }

  /**
   Reducing `e` in `s` yields `t`. The trigger keeps the definition folded, so that proofs
   see just the facts of the one event they deal with.
   */
  ghost predicate Reduces(s: Session, e: Event, ctx: Context, t: Session) {
    forall k: int {:trigger Unfolds(k)} :: Unfolds(k) ==> Reduce(s, e, ctx) == Next(t)
  }

  lemma ReducesIff(s: Session, e: Event, ctx: Context, t: Session)
    ensures Reduces(s, e, ctx, t) <==> Reduce(s, e, ctx) == Next(t)
  {
    assert Unfolds(0);
  }

  /** Only the two events that may need a current Assistant message can throw. */
  lemma ThrowsOnly(s: Session, e: Event, ctx: Context)
    ensures Reduce(s, e, ctx).Throws? ==> e.ToolInputStart? || e.ToolCall?
  {
  }

  /* ---------- events that leave messages, steps and executions alone ---------- */

  predicate IsQuietEvent(e: Event) {
    || e.MessageAccepted? || e.MessageReplaced? || e.MessageDeleted?
    || e.ChildLinked? || e.ReminderAdded? || e.RemindersConsumed?
  }

  lemma QuietIs(s: Session, e: Event, ctx: Context, t: Session)
    requires Reduces(s, e, ctx, t) && IsQuietEvent(e)
    ensures t == s.(pending := t.pending, reminders := t.reminders, childLinks := t.childLinks)
    ensures e.ChildLinked? || e.ReminderAdded? || e.RemindersConsumed? ==> t.pending == s.pending
    ensures !e.ReminderAdded? && !e.RemindersConsumed? ==> t.reminders == s.reminders
    ensures !e.ChildLinked? ==> t.childLinks == s.childLinks
  {
    ReducesIff(s, e, ctx, t);
  }

  lemma QueueIs(s: Session, e: Event, ctx: Context, t: Session)
    requires Reduces(s, e, ctx, t)
    ensures e.MessageAccepted? ==> t.pending == s.pending + [e.pending]
    ensures e.MessageReplaced? ==> t.pending == ReplacePending(s.pending, e.pending)
    ensures e.MessageDeleted? ==> t.pending == PendingWithout(s.pending, {e.messageId})
  {
    ReducesIff(s, e, ctx, t);
  }

  lemma ReminderIs(s: Session, e: Event, ctx: Context, t: Session)
    requires Reduces(s, e, ctx, t)
    ensures e.ReminderAdded? ==>
      t.reminders == if KnownReminder(s.reminders, e.reminder) then s.reminders
                     else s.reminders + [e.reminder.(consumedAt := None)]
    ensures e.RemindersConsumed? ==> t.reminders == ConsumeReminders(s.reminders, e.reminderIds, ctx.now)
  {
    ReducesIff(s, e, ctx, t);
  }

  lemma LinkIs(s: Session, e: Event, ctx: Context, t: Session)
    requires Reduces(s, e, ctx, t) && e.ChildLinked?
    ensures t.childLinks == ChildLinks.RecordLink(s.childLinks, e.link, ctx.weight)
  {
    ReducesIff(s, e, ctx, t);
  }

  /* ---------- executions, steps and whole-list changes ---------- */

  lemma LifecycleIs(s: Session, e: Event, ctx: Context, t: Session)
    requires Reduces(s, e, ctx, t) && e.Lifecycle?
    ensures t == OnLifecycle(s, e.lifecycle, ctx.now)
  {
    ReducesIff(s, e, ctx, t);
  }

  lemma StopIs(s: Session, e: Event, ctx: Context, t: Session)
    requires Reduces(s, e, ctx, t) && e.StopRequested?
    ensures t == s.(executions := RequestStop(s.executions, e.executionId, e.timestamp))
  {
    ReducesIff(s, e, ctx, t);
  }

  lemma CommitIs(s: Session, e: Event, ctx: Context, t: Session)
    requires Reduces(s, e, ctx, t) && e.MessagesCommitted?
    ensures t == OnMessagesCommitted(s, e.committed)
  {
    ReducesIff(s, e, ctx, t);
  }

  function NoticeMessage(s: Session, notice: string, ctx: Context): Message {
    User(ctx.messageId, [SystemNoticePart(ctx.partId, notice, ctx.now)], ctx.now, Some(ctx.now), CurrentRun(s), false)
  }

  lemma NoticeIs(s: Session, e: Event, ctx: Context, t: Session)
    requires Reduces(s, e, ctx, t) && e.SystemNotice?
    ensures t == s.(messages := s.messages + [NoticeMessage(s, e.notice, ctx)])
  {
    ReducesIff(s, e, ctx, t);
  }

  lemma StepStartIs(s: Session, e: Event, ctx: Context, t: Session)
    requires Reduces(s, e, ctx, t) && e.StepStart?
    ensures t == OnStepStart(s, e.stepId, e.number, ctx)
  {
    ReducesIff(s, e, ctx, t);
  }

  lemma StepEndIs(s: Session, e: Event, ctx: Context, t: Session)
    requires Reduces(s, e, ctx, t) && e.StepEnd?
    ensures t == OnStepEnd(s, e.stepId, e.number, e.finishReason, e.usage, ctx.now)
  {
    ReducesIff(s, e, ctx, t);
  }

  lemma ErrorIs(s: Session, e: Event, ctx: Context, t: Session)
    requires Reduces(s, e, ctx, t) && e.ExecutionError?
    ensures t == OnExecutionError(s, e.failedStepId, e.failedNumber, e.error)
  {
    ReducesIff(s, e, ctx, t);
  }

  lemma CompactIs(s: Session, e: Event, ctx: Context, t: Session)
    requires Reduces(s, e, ctx, t) && e.Compact?
    ensures t == s.(messages := Compacted(s.messages, e.summary, e.tailStartId, ctx))
  {
    ReducesIff(s, e, ctx, t);
  }

  /* ---------- blocks, tools and recovery notices ---------- */

  lemma BlockStartIs(s: Session, e: Event, ctx: Context, t: Session)
    requires Reduces(s, e, ctx, t) && e.BlockStart?
    ensures t == OnBlockStart(s, e.channel, e.stepId, e.blockId, ctx)
  {
    ReducesIff(s, e, ctx, t);
  }

  lemma BlockDeltaIs(s: Session, e: Event, ctx: Context, t: Session)
    requires Reduces(s, e, ctx, t) && e.BlockDelta?
    ensures t == OnBlockDelta(s, e.channel, e.stepId, e.blockId, e.text)
  {
    ReducesIff(s, e, ctx, t);
  }

  lemma BlockEndIs(s: Session, e: Event, ctx: Context, t: Session)
    requires Reduces(s, e, ctx, t) && e.BlockEnd?
    ensures t == OnBlockEnd(s, e.channel, e.stepId, e.blockId, ctx)
  {
    ReducesIff(s, e, ctx, t);
  }

  lemma ToolInputStartIs(s: Session, e: Event, ctx: Context, t: Session)
    requires Reduces(s, e, ctx, t) && e.ToolInputStart?
    ensures OnToolInputStart(s, e.toolCallId, e.toolName, ctx) == Next(t)
  {
    ReducesIff(s, e, ctx, t);
  }

  lemma ToolCallIs(s: Session, e: Event, ctx: Context, t: Session)
    requires Reduces(s, e, ctx, t) && e.ToolCall?
    ensures OnToolCall(s, e.toolCallId, e.toolName, e.input, ctx) == Next(t)
  {
    ReducesIff(s, e, ctx, t);
  }

  lemma ToolInputResolvedIs(s: Session, e: Event, ctx: Context, t: Session)
    requires Reduces(s, e, ctx, t) && e.ToolInputResolved?
    ensures t == OnToolInputResolved(s, e.toolCallId, e.input)
  {
    ReducesIff(s, e, ctx, t);
  }

  lemma ToolAttemptIs(s: Session, e: Event, ctx: Context, t: Session)
    requires Reduces(s, e, ctx, t) && e.ToolAttempt?
    ensures t == OnToolAttempt(s, e.toolCallId, e.attempt)
  {
    ReducesIff(s, e, ctx, t);
  }

  lemma ToolOutputDeltaIs(s: Session, e: Event, ctx: Context, t: Session)
    requires Reduces(s, e, ctx, t) && e.ToolOutputDelta?
    ensures t == OnToolOutputDelta(s, e.toolCallId, e.toolName, e.delta)
  {
    ReducesIff(s, e, ctx, t);
  }

  lemma ToolResultIs(s: Session, e: Event, ctx: Context, t: Session)
    requires Reduces(s, e, ctx, t) && e.ToolResultArrived?
    ensures t == OnToolResult(s, e.toolCallId, e.settledAt, e.result)
  {
    ReducesIff(s, e, ctx, t);
  }

  lemma RecoveryIs(s: Session, e: Event, ctx: Context, t: Session)
    requires Reduces(s, e, ctx, t) && e.RecoveryNoticed?
    ensures t == OnRecovery(s, e.recovery, ctx)
  {
    ReducesIff(s, e, ctx, t);
  }
}
