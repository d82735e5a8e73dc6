/** What an accepted end and a recovery event make of each part. */
module EndTable {
  import opened Prelude
  import opened SessionTypes
  import opened Messages
  import opened Reducer
  import opened Steps
  import opened PartEvents
  import opened MessageIdentity
  import opened Correspondence

  // Like the table of module ToolCalls, these are told in terms of the parts only.

  /* ---------- the end of an execution ---------- */

  /** The part after an end: open calls are interrupted, open output is closed, and discarded unless completed. */
  function EndedPart(p: Part, end: End): Part {
    match p
    case Tool(_, _, _, _, _, ToolPending) => p.(state := ToolInterrupted(None, None, end.endedAt))
    case Tool(_, _, _, _, _, ToolRunning(input, begun, _)) =>
      p.(state := ToolInterrupted(Some(input), Some(begun), end.endedAt))
    case Block(id, channel, blockId, text, createdAt, None, interrupted, discarded) =>
      Block(id, channel, blockId, text, createdAt, Some(end.endedAt),
            interrupted || !end.outcome.Completed?, discarded || !end.outcome.Completed?)
    case Notice(id, notice, createdAt, None) => Notice(id, notice, createdAt, Some(end.endedAt))
    case Recovery(_, _, _, _, _, _, _, _, None) => p.(completedAt := Some(end.endedAt))
    case _ => p
  }

  /** The message had a call that was open, or was the current one. */
  predicate WasOpen(m: Message, current: Option<string>)
    requires m.Assistant?
  {
    current == Some(m.id)
    || (exists j :: 0 <= j < |m.parts| && m.parts[j].Tool?
                    && (m.parts[j].state.ToolPending? || m.parts[j].state.ToolRunning?))
  }

  predicate EndedMessage(m: Message, n: Message, current: Option<string>, end: End) {
    if m.User? then n == m
    else
      && n.Assistant? && |n.parts| == |m.parts|
      && (forall j :: 0 <= j < |m.parts| ==> n.parts[j] == EndedPart(m.parts[j], end))
      && n == m.(
           parts := n.parts,
           completedAt := if m.completedAt.None? && WasOpen(m, current) then Some(end.endedAt) else m.completedAt,
           phase := if end.finalOutputStepId == Some(m.stepId) && m.executionId == end.executionId
                    then FinalAnswer else m.phase)
  }

  lemma SettledPart(p: Part, end: End)
    ensures InterruptTool(SettlePart(p, end.endedAt, !end.outcome.Completed?), end.endedAt) == EndedPart(p, end)
    ensures IsIncomplete(SettlePart(p, end.endedAt, !end.outcome.Completed?))
       <==> p.Tool? && (p.state.ToolPending? || p.state.ToolRunning?)
  {
  }

  lemma SettledParts(m: Message, current: Option<string>, end: End)
    requires m.Assistant?
    ensures var n := InterruptTools(SettleMessage(m, current, end.endedAt, !end.outcome.Completed?), end.endedAt);
      && n.Assistant? && |n.parts| == |m.parts|
      && forall j :: 0 <= j < |m.parts| ==> n.parts[j] == EndedPart(m.parts[j], end)
  {
    forall j | 0 <= j < |m.parts|
      ensures InterruptTool(SettlePart(m.parts[j], end.endedAt, !end.outcome.Completed?), end.endedAt)
           == EndedPart(m.parts[j], end)
    {
      SettledPart(m.parts[j], end);
    }
  }

  lemma SettledTime(m: Message, current: Option<string>, end: End)
    requires m.Assistant?
    ensures var n := SettleMessage(m, current, end.endedAt, !end.outcome.Completed?);
      n == m.(parts := n.parts,
              completedAt := if m.completedAt.None? && WasOpen(m, current) then Some(end.endedAt) else m.completedAt)
  {
    var n := SettleMessage(m, current, end.endedAt, !end.outcome.Completed?);
    forall j | 0 <= j < |m.parts|
      ensures IsIncomplete(n.parts[j])
         <==> m.parts[j].Tool? && (m.parts[j].state.ToolPending? || m.parts[j].state.ToolRunning?)
    {
      SettledPart(m.parts[j], end);
    }
  }

  lemma SettledMessage(m: Message, current: Option<string>, end: End)
    requires m.Assistant?
    ensures var n := InterruptTools(SettleMessage(m, current, end.endedAt, !end.outcome.Completed?), end.endedAt);
      EndedMessage(m, n, current, end.(finalOutputStepId := None))
  {
    SettledParts(m, current, end);
    SettledTime(m, current, end);
    assert forall p: Part :: EndedPart(p, end.(finalOutputStepId := None)) == EndedPart(p, end);
  }

  lemma EndedIs(ms: seq<Message>, current: Option<string>, end: End, i: nat)
    requires i < |ms|
    ensures EndedMessage(ms[i], EndedMessages(ms, current, end)[i], current, end)
  {
    if ms[i].Assistant? {
      SettledMessage(ms[i], current, end);
      assert forall p: Part :: EndedPart(p, end.(finalOutputStepId := None)) == EndedPart(p, end);
    }
  }

  /** An accepted end treats every message by the table, and changes flags and records besides. */
  lemma EndFollowsTable(s: Session, e: Event, ctx: Context, t: Session)
    requires Reduces(s, e, ctx, t) && e.Lifecycle? && e.lifecycle.ExecutionEnd? && LifecycleAccepted(s, e.lifecycle)
    ensures |t.messages| == |s.messages|
    ensures forall i :: 0 <= i < |s.messages| ==>
      EndedMessage(s.messages[i], t.messages[i], s.currentAssistantMessageId, e.lifecycle.end)
    ensures t.steps == s.steps && t.pending == s.pending && t.stats == s.stats && t.reminders == s.reminders
    ensures !t.isRunning && !t.isStreamingModel && t.currentExecutionId.None? && t.currentAssistantMessageId.None?
  {
    LifecycleIs(s, e, ctx, t);
    forall i | 0 <= i < |s.messages|
      ensures EndedMessage(s.messages[i], t.messages[i], s.currentAssistantMessageId, e.lifecycle.end)
    {
      EndedIs(s.messages, s.currentAssistantMessageId, e.lifecycle.end, i);
    }
  }

  /* ---------- the end of a step ---------- */

  /** Text of an interrupted step is closed, if it was not, and discarded. */
  function InterruptedPart(p: Part, now: int): Part {
    match p
    case Block(id, channel, blockId, text, createdAt, completedAt, _, _) =>
      if text == [] then p
      else
        var closedAt := if completedAt.None? then Some(now) else completedAt;
        Block(id, channel, blockId, text, createdAt, closedAt, true, true)
    case _ => p
  }

  predicate StepEndedMessage(m: Message, n: Message, e: Event, now: int)
    requires e.StepEnd?
  {
    if !IsStepMessage(m, e.stepId) then n == m
    else
      && n.Assistant? && |n.parts| == |m.parts|
      && (forall j :: 0 <= j < |m.parts| ==>
            n.parts[j] == if e.finishReason == "interrupted" || e.finishReason == "error"
                          then InterruptedPart(m.parts[j], now) else m.parts[j])
      && n == m.(parts := n.parts, completedAt := if m.completedAt.None? then Some(now) else m.completedAt)
  }

  /** An end of a step, if it changes anything, completes the messages of that step and leaves all others alone. */
  lemma StepEndFollowsTable(s: Session, e: Event, ctx: Context, t: Session)
    requires Reduces(s, e, ctx, t) && e.StepEnd?
    ensures t == s
         || (|t.messages| == |s.messages|
             && forall i :: 0 <= i < |s.messages| ==> StepEndedMessage(s.messages[i], t.messages[i], e, ctx.now))
  {
    StepEndIs(s, e, ctx, t);
    StepEndIsTable(s.messages, e, ctx.now);
  }

  lemma StepEndIsTable(ms: seq<Message>, e: Event, now: int)
    requires e.StepEnd?
    ensures var after := StepEndMessages(ms, e.stepId, e.finishReason, now);
      forall i :: 0 <= i < |ms| ==> StepEndedMessage(ms[i], after[i], e, now)
  {
    var after := StepEndMessages(ms, e.stepId, e.finishReason, now);
    forall i | 0 <= i < |ms| ensures StepEndedMessage(ms[i], after[i], e, now) {
      if IsStepMessage(ms[i], e.stepId) {
        forall j | 0 <= j < |ms[i].parts|
          ensures InterruptBlock(ms[i].parts[j], now) == InterruptedPart(ms[i].parts[j], now)
        {
          InterruptedIs(ms[i].parts[j], now);
        }
        if e.finishReason != "interrupted" && e.finishReason != "error" {
          assert after[i].parts == ms[i].parts;
        }
      }
    }
  }

  lemma InterruptedIs(p: Part, now: int)
    ensures InterruptBlock(p, now) == InterruptedPart(p, now)
  {
  }

  /* ---------- recovery notices ---------- */

  /** What the event is about, if anything. */
  function Subject(r: RecoveryEvent): Option<string> {
    match r.toolCallId
    case Some(callId) => Some(callId)
    case None => if r.messageId.Some? then r.messageId else r.stepId
  }

  /** The notice an event amounts to by itself. */
  function NoticeOf(r: RecoveryEvent, id: PartId, now: int): Part {
    match r.kind
    case Retry =>
      var status := if r.nextRetryAt.Some? && now < r.nextRetryAt.value then RetryScheduled else Retrying;
      Recovery(id, status, r.message, r.attemptNumber, r.nextRetryAt, r.errorKind, None, now, None)
    case Recover => Recovery(id, Recovered, r.message, r.attemptNumber, None, r.errorKind, None, now, Some(now))
    case GiveUp =>
      Recovery(id, RecoveryFailed, r.message, r.attemptNumber, None, r.errorKind, r.statusCode, now, Some(now))
  }

  /** An existing notice keeps its identity and its creation, and what the event leaves open. */
  function Renewed(p: Part, next: Part): Part
    requires p.Recovery? && next.Recovery?
  {
    Recovery(
      p.id, next.status, next.message, next.attemptNumber, next.nextRetryAt,
      if next.errorKind.None? then p.errorKind else next.errorKind,
      if next.statusCode.None? then p.statusCode else next.statusCode, p.createdAt, next.completedAt)
  }

  /** The id of the notice: derived from scope and subject, or new. */
  function NoticeId(r: RecoveryEvent, ctx: Context): PartId {
    if Subject(r).Some? then RecoveryOf(r.scope, Subject(r).value) else Generated(ctx.partId)
  }

  /** The message the event belongs to: that of its step, or else the current one. */
  predicate IsNoticeTarget(s: Session, r: RecoveryEvent, i: nat) {
    && i < |s.messages| && s.messages[i].Assistant?
    && if r.stepId.Some? then s.messages[i].stepId == r.stepId.value
       else s.currentAssistantMessageId == Some(s.messages[i].id)
  }

  /** Only a final failure is told of an internal recovery. */
  predicate IsTold(r: RecoveryEvent) {
    r.isInternal ==> r.kind.GiveUp?
  }

  lemma TargetIs(s: Session, r: RecoveryEvent, i: nat)
    requires Coherent(s) && IsNoticeTarget(s, r, i)
    ensures RecoveryTarget(s, r.stepId) == i
  {
    if r.stepId.Some? {
      StepMessageAtIs(s.messages, s.steps, i);
    }
    MessageAtIs(s.messages, i);
    AssistantAtIs(s.messages, i);
  }

  lemma AssistantAtIs(ms: seq<Message>, i: nat)
    requires DistinctMessages(ms) && i < |ms| && ms[i].Assistant?
    ensures AssistantAt(ms, ms[i].id) == i
  {
  }

  lemma TargetOnly(s: Session, r: RecoveryEvent)
    requires Coherent(s) && RecoveryTarget(s, r.stepId) < |s.messages|
    ensures IsNoticeTarget(s, r, RecoveryTarget(s, r.stepId))
  {
    var i := RecoveryTarget(s, r.stepId);
    if r.stepId.Some? {
      var k := StepMessageAt(s.messages, r.stepId.value);
      AssistantAtIs(s.messages, k);
    }
  }

  lemma NoticeIsPart(r: RecoveryEvent, ctx: Context)
    ensures RecoveryPart(r, ctx) == NoticeOf(r, NoticeId(r, ctx), ctx.now)
    ensures forall p: Part :: p.Recovery? ==>
      MergeRecovery(p, RecoveryPart(r, ctx)) == Renewed(p, NoticeOf(r, NoticeId(r, ctx), ctx.now))
  {
  }

  /** The place of an existing notice of that id in the message. */
  predicate HasNotice(m: Message, id: PartId, j: nat)
    requires m.Assistant?
  {
    j < |m.parts| && m.parts[j].Recovery? && m.parts[j].id == id
  }

  /** A recovery event that is told and has its message renews its notice there, or appends it. */
  lemma RecoveryFollowsTable(s: Session, e: Event, ctx: Context, t: Session, i: nat)
    requires Coherent(s) && Reduces(s, e, ctx, t) && e.RecoveryNoticed?
    requires IsTold(e.recovery) && IsNoticeTarget(s, e.recovery, i)
    ensures var id, parts := NoticeId(e.recovery, ctx), s.messages[i].parts;
      var next := NoticeOf(e.recovery, id, ctx.now);
      && t == s.(messages := t.messages, stats := t.stats)
      && (forall j: nat :: HasNotice(s.messages[i], id, j) ==>
            t.messages == s.messages[i := s.messages[i].(parts := parts[j := Renewed(parts[j], next)])])
      && ((forall j: nat :: !HasNotice(s.messages[i], id, j)) ==>
            t.messages == s.messages[i := s.messages[i].(parts := parts + [next])])
  {
    OkIsAddressable(s.messages);
    TargetIs(s, e.recovery, i);
    var edit := RecoveryChange(s, e, ctx, t);
    RecoveryEditIs(s, t, edit, e.recovery, ctx, i);
    if edit.Replace? {
      forall j: nat | HasNotice(s.messages[i], NoticeId(e.recovery, ctx), j) ensures j == edit.j {
        OneNotice(s.messages[i].parts, j, edit.j);
      }
    }
  }

  lemma OneNotice(parts: seq<Part>, j: nat, k: nat)
    requires DistinctParts(parts) && j < |parts| && k < |parts| && parts[j].id == parts[k].id
    ensures j == k
  {
  }

  lemma RecoveryEditIs(s: Session, t: Session, edit: Edit, r: RecoveryEvent, ctx: Context, i: nat)
    requires RecoveryEdit(s, t, edit, r, ctx) && IsTold(r) && i < |s.messages| && RecoveryTarget(s, r.stepId) == i
    ensures edit.i == i && s.messages[i].Assistant? && t == s.(messages := t.messages, stats := t.stats)
    ensures var id, parts := NoticeId(r, ctx), s.messages[i].parts;
      var next := NoticeOf(r, id, ctx.now);
      if edit.Replace? then
        && HasNotice(s.messages[i], id, edit.j)
        && t.messages == s.messages[i := s.messages[i].(parts := parts[edit.j := Renewed(parts[edit.j], next)])]
      else
        && edit.Append? && (forall j: nat :: !HasNotice(s.messages[i], id, j))
        && t.messages == s.messages[i := s.messages[i].(parts := parts + [next])]
  {
    NoticeIsPart(r, ctx);
  }

  /** Otherwise it changes nothing. */
  lemma RecoveryUntold(s: Session, e: Event, ctx: Context, t: Session)
    requires Coherent(s) && Reduces(s, e, ctx, t) && e.RecoveryNoticed?
    requires !IsTold(e.recovery) || forall i: nat :: !IsNoticeTarget(s, e.recovery, i)
    ensures t == s
  {
    OkIsAddressable(s.messages);
    if RecoveryTarget(s, e.recovery.stepId) < |s.messages| {
      TargetOnly(s, e.recovery);
    }
    var edit := RecoveryChange(s, e, ctx, t);
  }
}
