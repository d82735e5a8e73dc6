/**
 Every block, tool and recovery event changes at most one part of one Assistant
 message. The lemmas give that change for each event, so that later proofs reason
 about single edits instead of searches through the message list.
 */
module PartEvents {
  import opened Prelude
  import opened Utf8
  import opened SessionTypes
  import opened Messages
  import opened Reducer
  import opened Steps

  /** The session after an edit, with the statistics and current message that go with it. */
  ghost predicate Edited(s: Session, t: Session, edit: Edit) {
    && EditFits(s.messages, edit)
    && t == s.(messages := ApplyEdit(s.messages, edit), stats := t.stats,
               currentAssistantMessageId := t.currentAssistantMessageId)
    && (t.currentAssistantMessageId == s.currentAssistantMessageId
        || (!edit.Keep? && t.currentAssistantMessageId == Some(s.messages[edit.i].id)))
    && (edit.Keep? ==> t == s)
  }

  /** The part an edit replaces or removes. */
  ghost function Target(s: Session, edit: Edit): Part
    requires EditFits(s.messages, edit) && (edit.Replace? || edit.Remove?)
  {
    s.messages[edit.i].parts[edit.j]
  }

  /* ---------- blocks ---------- */

  /** The edited message is the one of an active, still open step. */
  ghost predicate OnActiveStep(s: Session, i: nat, stepId: string) {
    i < |s.messages| && IsStepMessage(s.messages[i], stepId) && IsActiveOpenStep(s, stepId)
  }

  ghost predicate BlockStartEdit(
    s: Session, t: Session, edit: Edit, channel: Channel, stepId: string, blockId: string, ctx: Context) {
    && Edited(s, t, edit)
    && t.stats == s.stats
    && (edit.Keep? || edit.Append?)
    && (edit.Append? ==>
          && OnActiveStep(s, edit.i, stepId)
          && edit.i == StepMessageAt(s.messages, stepId)
          && edit.part == Block(Generated(ctx.partId), channel, blockId, [], ctx.now, None, false, false)
          && (forall j :: 0 <= j < |s.messages[edit.i].parts| ==>
               !IsBlock(s.messages[edit.i].parts[j], channel, blockId)))
  }

  lemma BlockStartIsEdit(
    s: Session, channel: Channel, stepId: string, blockId: string, ctx: Context) returns (edit: Edit)
    requires Addressable(s.messages)
    ensures BlockStartEdit(s, OnBlockStart(s, channel, stepId, blockId, ctx), edit, channel, stepId, blockId, ctx)
  {
    var t := OnBlockStart(s, channel, stepId, blockId, ctx);
    var i := StepMessageAt(s.messages, stepId);
    edit := Keep;
    if IsActiveOpenStep(s, stepId) && i < |s.messages| && FindBlock(s.messages, stepId, channel, blockId).None? {
      var part := Block(Generated(ctx.partId), channel, blockId, [], ctx.now, None, false, false);
      AppendIsAppend(s.messages, i, part);
      edit := Append(i, part);
    }
  }

  /** A block that is addressed and open sits in the message of its active step. */
  lemma OpenBlockIs(s: Session, channel: Channel, stepId: string, blockId: string) returns (i: nat, j: nat)
    requires Addressable(s.messages) && OpenBlock(s, channel, stepId, blockId).Some?
    ensures OnActiveStep(s, i, stepId) && i == StepMessageAt(s.messages, stepId)
    ensures j < |s.messages[i].parts| && j == BlockAt(s.messages[i].parts, channel, blockId)
    ensures IsBlock(s.messages[i].parts[j], channel, blockId) && s.messages[i].parts[j].completedAt.None?
    ensures OpenBlock(s, channel, stepId, blockId) == Some(Location(s.messages[i].id, s.messages[i].parts[j].id))
    ensures GetPart(s.messages, OpenBlock(s, channel, stepId, blockId).value) == Some(s.messages[i].parts[j])
    ensures MessageAt(s.messages, s.messages[i].id) == i
  {
    i := StepMessageAt(s.messages, stepId);
    j := BlockAt(s.messages[i].parts, channel, blockId);
    GetPartIs(s.messages, i, j);
    MessageAtIs(s.messages, i);
  }

  ghost predicate BlockDeltaEdit(
    s: Session, t: Session, edit: Edit, channel: Channel, stepId: string, blockId: string, text: Text) {
    && Edited(s, t, edit)
    && (edit.Keep? || edit.Replace?)
    && (edit.Keep? <==> OpenBlock(s, channel, stepId, blockId).None?)
    && t.currentAssistantMessageId == s.currentAssistantMessageId
    && (edit.Replace? ==>
          && OnActiveStep(s, edit.i, stepId)
          && edit.i == StepMessageAt(s.messages, stepId)
          && edit.j == BlockAt(s.messages[edit.i].parts, channel, blockId)
          && IsBlock(Target(s, edit), channel, blockId)
          && Target(s, edit).completedAt.None?
          && edit.part == Target(s, edit).(text := Target(s, edit).text + text)
          && t.stats == if Target(s, edit).text == [] && text != []
                        then CountFirstContent(s.stats, s.messages[edit.i]) else s.stats)
  }

  lemma BlockDeltaIsEdit(s: Session, channel: Channel, stepId: string, blockId: string, text: Text) returns (edit: Edit)
    requires Addressable(s.messages)
    ensures BlockDeltaEdit(s, OnBlockDelta(s, channel, stepId, blockId, text), edit, channel, stepId, blockId, text)
  {
    edit := Keep;
    if OpenBlock(s, channel, stepId, blockId).Some? {
      var i, j := OpenBlockIs(s, channel, stepId, blockId);
      var f := (p: Part) => if p.Block? && p.channel == channel then p.(text := p.text + text) else p;
      UpdateIsReplace(s.messages, i, j, f);
      edit := Replace(i, j, f(s.messages[i].parts[j]));
    }
  }

  ghost predicate BlockEndEdit(
    s: Session, t: Session, edit: Edit, channel: Channel, stepId: string, blockId: string, ctx: Context) {
    && Edited(s, t, edit)
    && t.stats == s.stats
    && t.currentAssistantMessageId == s.currentAssistantMessageId
    && !edit.Append?
    && (edit.Keep? <==> OpenBlock(s, channel, stepId, blockId).None?)
    && (!edit.Keep? ==>
          && OnActiveStep(s, edit.i, stepId)
          && edit.i == StepMessageAt(s.messages, stepId)
          && edit.j == BlockAt(s.messages[edit.i].parts, channel, blockId)
          && IsBlock(Target(s, edit), channel, blockId)
          && Target(s, edit).completedAt.None?
          && (edit.Remove? <==> Target(s, edit).text == []))
    && (edit.Replace? ==>
          edit.part == Target(s, edit).(
            text := Unwrapped(channel, Target(s, edit).text, ctx.unwrap), completedAt := Some(ctx.now)))
  }

  lemma BlockEndIsEdit(s: Session, channel: Channel, stepId: string, blockId: string, ctx: Context) returns (edit: Edit)
    requires Addressable(s.messages)
    ensures BlockEndEdit(s, OnBlockEnd(s, channel, stepId, blockId, ctx), edit, channel, stepId, blockId, ctx)
  {
    edit := Keep;
    if OpenBlock(s, channel, stepId, blockId).Some? {
      var i, j := OpenBlockIs(s, channel, stepId, blockId);
      if s.messages[i].parts[j].text == [] {
        RemoveIsRemove(s.messages, i, j);
        edit := Remove(i, j);
      } else {
        var unwrap, now := ctx.unwrap, ctx.now;
        var f := (p: Part) =>
          if p.Block? && p.channel == channel
          then p.(text := Unwrapped(channel, p.text, unwrap), completedAt := Some(now)) else p;
        UpdateIsReplace(s.messages, i, j, f);
        edit := Replace(i, j, f(s.messages[i].parts[j]));
      }
    }
  }

  /* ---------- tools ---------- */

  /** `after` is a later state of the same tool call. */
  predicate SameCall(before: Part, after: Part) {
    && before.Tool? && after.Tool?
    && after.id == before.id && after.toolCallId == before.toolCallId
    && after.toolName == before.toolName && after.createdAt == before.createdAt
  }

  /** Live output is kept, started or extended only where it belongs. */
  function LiveOf(p: Part): Option<LiveOutput> {
    if p.Tool? && p.state.ToolRunning? then p.state.live else None
  }

  ghost predicate NewCall(s: Session, edit: Edit, toolCallId: string, toolName: string, ctx: Context)
    requires EditFits(s.messages, edit)
  {
    && edit.Append?
    && edit.part.Tool?
    && edit.part.id == Generated(ctx.partId)
    && edit.part.toolCallId == toolCallId
    && edit.part.toolName == toolName
    && LiveOf(edit.part).None?
    && Truthy(s.currentAssistantMessageId)
    && s.messages[edit.i].id == s.currentAssistantMessageId.value
    && (forall j :: 0 <= j < |s.messages[edit.i].parts| ==> !IsToolCall(s.messages[edit.i].parts[j], toolCallId))
  }

  lemma EnsuredIs(s: Session) returns (i: nat)
    requires DistinctMessages(s.messages) && EnsureCurrentAssistant(s).Ensured?
    ensures i < |s.messages| && s.messages[i].Assistant?
    ensures Truthy(s.currentAssistantMessageId) && s.messages[i].id == s.currentAssistantMessageId.value
    ensures EnsureCurrentAssistant(s) == Ensured(s.messages[i].id, CountFirstContent(s.stats, s.messages[i]))
    ensures MessageAt(s.messages, s.currentAssistantMessageId.value) == i
  {
    i := AssistantAt(s.messages, s.currentAssistantMessageId.value);
    MessageAtIs(s.messages, i);
  }

  ghost predicate ToolInputStartEdit(
    s: Session, t: Session, edit: Edit, toolCallId: string, toolName: string, ctx: Context) {
    && Edited(s, t, edit)
    && t.currentAssistantMessageId == s.currentAssistantMessageId
    && (!edit.Keep? ==>
          && NewCall(s, edit, toolCallId, toolName, ctx)
          && edit.part.state.ToolPending?
          && t.stats == CountFirstContent(s.stats, s.messages[edit.i]))
  }

  lemma ToolInputStartIsEdit(s: Session, toolCallId: string, toolName: string, ctx: Context) returns (edit: Edit)
    requires Addressable(s.messages) && OnToolInputStart(s, toolCallId, toolName, ctx).Next?
    ensures ToolInputStartEdit(s, OnToolInputStart(s, toolCallId, toolName, ctx).session, edit, toolCallId, toolName,
      ctx)
  {
    edit := Keep;
    var i := EnsuredIs(s);
    if FindCurrentTool(s.messages, s.currentAssistantMessageId, toolCallId).None? {
      var part := Tool(Generated(ctx.partId), toolCallId, toolName, ctx.now, None, ToolPending);
      AppendIsAppend(s.messages, i, part);
      edit := Append(i, part);
    }
  }

  ghost predicate ToolCallEdit(s: Session, t: Session, edit: Edit, toolCallId: string, toolName: string, ctx: Context) {
    && Edited(s, t, edit)
    && t.currentAssistantMessageId == s.currentAssistantMessageId
    && match edit
       case Keep => true
       case Remove(_, _) => false
       case Append(i, part) =>
         && NewCall(s, edit, toolCallId, toolName, ctx)
         && part.state.ToolRunning?
         && t.stats == CountToolCall(CountFirstContent(s.stats, s.messages[i]))
       case Replace(i, j, part) =>
         && SameCall(Target(s, edit), part)
         && IsIncomplete(Target(s, edit))
         && part.state.ToolRunning?
         && LiveOf(part) == LiveOf(Target(s, edit))
         && (t.stats == s.stats || t.stats == CountToolCall(s.stats))
  }

  lemma FindCurrentToolIs(s: Session, toolCallId: string) returns (i: nat, j: nat)
    requires Addressable(s.messages)
    requires FindCurrentTool(s.messages, s.currentAssistantMessageId, toolCallId).Some?
    ensures i < |s.messages| && s.messages[i].Assistant? && j < |s.messages[i].parts|
    ensures IsToolCall(s.messages[i].parts[j], toolCallId)
    ensures FindCurrentTool(s.messages, s.currentAssistantMessageId, toolCallId)
         == Some(Location(s.messages[i].id, s.messages[i].parts[j].id))
    ensures GetTool(s.messages, Location(s.messages[i].id, s.messages[i].parts[j].id)) == Some(s.messages[i].parts[j])
  {
    i := MessageAt(s.messages, s.currentAssistantMessageId.value);
    j := ToolAt(s.messages[i].parts, toolCallId);
    GetPartIs(s.messages, i, j);
  }

  lemma ToolCallRuns(
    s: Session, toolCallId: string, toolName: string, input: Option<Snapshot>, ctx: Context) returns (edit: Edit)
    requires Addressable(s.messages) && FindCurrentTool(s.messages, s.currentAssistantMessageId, toolCallId).Some?
    ensures OnToolCall(s, toolCallId, toolName, input, ctx).Next?
    ensures ToolCallEdit(s, OnToolCall(s, toolCallId, toolName, input, ctx).session, edit, toolCallId, toolName, ctx)
  {
    edit := Keep;
    var value := if input.Some? then input.value else NULL_INPUT;
    var i, j := FindCurrentToolIs(s, toolCallId);
    if IsIncomplete(s.messages[i].parts[j]) {
      var now := ctx.now;
      var f := (p: Part) => if p.Tool? then ToRunning(p, value, now) else p;
      UpdateIsReplace(s.messages, i, j, f);
      edit := Replace(i, j, f(s.messages[i].parts[j]));
    }
  }

  lemma ToolCallAppends(
    s: Session, toolCallId: string, toolName: string, input: Option<Snapshot>, ctx: Context) returns (edit: Edit)
    requires Addressable(s.messages) && OnToolCall(s, toolCallId, toolName, input, ctx).Next?
    requires FindCurrentTool(s.messages, s.currentAssistantMessageId, toolCallId).None?
    ensures ToolCallEdit(s, OnToolCall(s, toolCallId, toolName, input, ctx).session, edit, toolCallId, toolName, ctx)
  {
    var value := if input.Some? then input.value else NULL_INPUT;
    var i := EnsuredIs(s);
    var part := Tool(Generated(ctx.partId), toolCallId, toolName, ctx.now, None, ToolRunning(value, ctx.now, None));
    AppendIsAppend(s.messages, i, part);
    edit := Append(i, part);
  }

  lemma ToolCallIsEdit(
    s: Session, toolCallId: string, toolName: string, input: Option<Snapshot>, ctx: Context) returns (edit: Edit)
    requires Addressable(s.messages) && OnToolCall(s, toolCallId, toolName, input, ctx).Next?
    ensures ToolCallEdit(s, OnToolCall(s, toolCallId, toolName, input, ctx).session, edit, toolCallId, toolName, ctx)
  {
    if FindCurrentTool(s.messages, s.currentAssistantMessageId, toolCallId).Some? {
      edit := ToolCallRuns(s, toolCallId, toolName, input, ctx);
    } else {
      edit := ToolCallAppends(s, toolCallId, toolName, input, ctx);
    }
  }

  /** An event that finds a tool part by call id and replaces it. */
  ghost predicate ToolReplaced(s: Session, t: Session, edit: Edit, toolCallId: string) {
    && Edited(s, t, edit)
    && t.currentAssistantMessageId == s.currentAssistantMessageId
    && (edit.Keep? || edit.Replace?)
    && (edit.Replace? ==> SameCall(Target(s, edit), edit.part) && Target(s, edit).toolCallId == toolCallId)
  }

  lemma FoundToolIs(s: Session, toolCallId: string) returns (i: nat, j: nat)
    requires Addressable(s.messages)
    requires FindTool(s.messages, s.currentAssistantMessageId, toolCallId).Some?
    ensures i < |s.messages| && s.messages[i].Assistant? && j < |s.messages[i].parts|
    ensures IsToolCall(s.messages[i].parts[j], toolCallId)
    ensures FindTool(s.messages, s.currentAssistantMessageId, toolCallId)
         == Some(Location(s.messages[i].id, s.messages[i].parts[j].id))
    ensures GetTool(s.messages, Location(s.messages[i].id, s.messages[i].parts[j].id)) == Some(s.messages[i].parts[j])
  {
    i, j := FindToolIs(s.messages, s.currentAssistantMessageId, toolCallId);
    GetPartIs(s.messages, i, j);
  }

  ghost predicate ToolInputResolvedEdit(
    s: Session, t: Session, edit: Edit, toolCallId: string, input: Option<Snapshot>) {
    && ToolReplaced(s, t, edit, toolCallId)
    && t.stats == s.stats
    && (edit.Replace? ==>
          && !Target(s, edit).state.ToolPending? && !Target(s, edit).state.ToolInterrupted?
          && edit.part == WithInput(Target(s, edit), InputValue(input)))
  }

  function InputValue(input: Option<Snapshot>): Snapshot {
    if input.Some? then input.value else NULL_INPUT
  }

  lemma ToolInputResolvedIsEdit(s: Session, toolCallId: string, input: Option<Snapshot>) returns (edit: Edit)
    requires Addressable(s.messages)
    ensures ToolInputResolvedEdit(s, OnToolInputResolved(s, toolCallId, input), edit, toolCallId, input)
  {
    edit := Keep;
    if FindTool(s.messages, s.currentAssistantMessageId, toolCallId).Some? {
      var i, j := FoundToolIs(s, toolCallId);
      var before := s.messages[i].parts[j].state;
      if !before.ToolPending? && !before.ToolInterrupted? {
        var value := InputValue(input);
        var f := (p: Part) => if p.Tool? then WithInput(p, value) else p;
        UpdateIsReplace(s.messages, i, j, f);
        edit := Replace(i, j, f(s.messages[i].parts[j]));
      }
    }
  }

  /** The event finds a tool part of this call that is not settled. */
  predicate CallUnsettled(s: Session, toolCallId: string) {
    var at := FindTool(s.messages, s.currentAssistantMessageId, toolCallId);
    && at.Some?
    && GetTool(s.messages, at.value).Some?
    && !GetTool(s.messages, at.value).value.state.ToolSettled?
  }

  ghost predicate ToolAttemptEdit(s: Session, t: Session, edit: Edit, toolCallId: string, attempt: Attempt) {
    && ToolReplaced(s, t, edit, toolCallId)
    && t.stats == s.stats
    && (edit.Replace? <==> CallUnsettled(s, toolCallId))
    && (edit.Replace? ==>
          FindTool(s.messages, s.currentAssistantMessageId, toolCallId)
          == Some(Location(s.messages[edit.i].id, Target(s, edit).id)))
    && (edit.Replace? ==>
          && !Target(s, edit).state.ToolSettled?
          && edit.part == WithAttempt(Target(s, edit), attempt))
  }

  lemma ToolAttemptIsEdit(s: Session, toolCallId: string, attempt: Attempt) returns (edit: Edit)
    requires Addressable(s.messages)
    ensures ToolAttemptEdit(s, OnToolAttempt(s, toolCallId, attempt), edit, toolCallId, attempt)
  {
    edit := Keep;
    if FindTool(s.messages, s.currentAssistantMessageId, toolCallId).Some? {
      var i, j := FoundToolIs(s, toolCallId);
      if !s.messages[i].parts[j].state.ToolSettled? {
        var f := (p: Part) => if p.Tool? then WithAttempt(p, attempt) else p;
        UpdateIsReplace(s.messages, i, j, f);
        edit := Replace(i, j, f(s.messages[i].parts[j]));
      }
    }
  }

  /** The event finds a running Bash part. */
  predicate DeltaAccepted(s: Session, toolCallId: string, toolName: string) {
    var at := FindTool(s.messages, s.currentAssistantMessageId, toolCallId);
    && at.Some?
    && GetTool(s.messages, at.value).Some?
    && GetTool(s.messages, at.value).value.state.ToolRunning?
    && GetTool(s.messages, at.value).value.toolName == "bash"
    && toolName == "bash"
  }

  ghost predicate ToolOutputDeltaEdit(
    s: Session, t: Session, edit: Edit, toolCallId: string, toolName: string, delta: Delta) {
    && ToolReplaced(s, t, edit, toolCallId)
    && t.stats == s.stats
    && (edit.Replace? <==> DeltaAccepted(s, toolCallId, toolName))
    && (edit.Replace? ==>
          FindTool(s.messages, s.currentAssistantMessageId, toolCallId)
          == Some(Location(s.messages[edit.i].id, Target(s, edit).id)))
    && (edit.Replace? ==>
          && Target(s, edit).toolName == "bash"
          && Target(s, edit).state.ToolRunning?
          && edit.part == WithLiveOutput(Target(s, edit), delta))
  }

  lemma ToolOutputDeltaIsEdit(s: Session, toolCallId: string, toolName: string, delta: Delta) returns (edit: Edit)
    requires Addressable(s.messages)
    ensures ToolOutputDeltaEdit(s, OnToolOutputDelta(s, toolCallId, toolName, delta), edit, toolCallId, toolName, delta)
  {
    edit := Keep;
    if FindTool(s.messages, s.currentAssistantMessageId, toolCallId).Some? {
      var i, j := FoundToolIs(s, toolCallId);
      var p := s.messages[i].parts[j];
      if p.state.ToolRunning? && p.toolName == "bash" && p.toolName == toolName {
        var f := (p: Part) => WithLiveOutput(p, delta);
        UpdateIsReplace(s.messages, i, j, f);
        edit := Replace(i, j, f(p));
      }
    }
  }

  ghost predicate ToolResultEdit(
    s: Session, t: Session, edit: Edit, toolCallId: string, settledAt: int, result: ToolResult) {
    && ToolReplaced(s, t, edit, toolCallId)
    && (edit.Replace? <==> CallUnsettled(s, toolCallId))
    && (edit.Replace? ==>
          && !Target(s, edit).state.ToolSettled?
          && edit.part == ToSettled(Target(s, edit), result, settledAt)
          && edit.part.state.ToolSettled?
          && edit.part.state.result == result
          && edit.part.state.endedAt == settledAt
          && t.stats == CountToolResult(s.stats, result.isError))
  }

  lemma ToolResultIsEdit(s: Session, toolCallId: string, settledAt: int, result: ToolResult) returns (edit: Edit)
    requires Addressable(s.messages)
    ensures ToolResultEdit(s, OnToolResult(s, toolCallId, settledAt, result), edit, toolCallId, settledAt, result)
  {
    edit := Keep;
    if FindTool(s.messages, s.currentAssistantMessageId, toolCallId).Some? {
      var i, j := FoundToolIs(s, toolCallId);
      if !s.messages[i].parts[j].state.ToolSettled? {
        var f := (p: Part) => if p.Tool? then ToSettled(p, result, settledAt) else p;
        UpdateIsReplace(s.messages, i, j, f);
        edit := Replace(i, j, f(s.messages[i].parts[j]));
      }
    }
  }

  /* ---------- recovery notices ---------- */

  /** The event says nothing to the conversation, or there is no message to say it in. */
  predicate RecoveryIgnored(s: Session, r: RecoveryEvent) {
    (r.isInternal && !r.kind.GiveUp?) || RecoveryTarget(s, r.stepId) >= |s.messages|
  }

  ghost predicate RecoveryEdit(s: Session, t: Session, edit: Edit, r: RecoveryEvent, ctx: Context) {
    && Edited(s, t, edit)
    && t.currentAssistantMessageId == s.currentAssistantMessageId
    && (edit.Keep? <==> RecoveryIgnored(s, r))
    && (!edit.Keep? ==>
          && edit.i == RecoveryTarget(s, r.stepId)
          && t.stats == CountFirstContent(s.stats, s.messages[edit.i]))
    && match edit
       case Keep => true
       case Remove(_, _) => false
       case Append(i, part) =>
         && part == RecoveryPart(r, ctx)
         && (forall j :: 0 <= j < |s.messages[i].parts| && s.messages[i].parts[j].Recovery? ==>
               s.messages[i].parts[j].id != part.id)
       case Replace(i, j, part) =>
         && Target(s, edit).Recovery?
         && Target(s, edit).id == RecoveryPart(r, ctx).id
         && part == MergeRecovery(Target(s, edit), RecoveryPart(r, ctx))
  }

  lemma RecoveryTargetIs(s: Session, stepId: Option<string>) returns (i: nat)
    requires DistinctMessages(s.messages) && RecoveryTarget(s, stepId) < |s.messages|
    ensures i == RecoveryTarget(s, stepId) < |s.messages| && s.messages[i].Assistant?
  {
    i := RecoveryTarget(s, stepId);
  }

  lemma RecoveryIsEdit(s: Session, r: RecoveryEvent, ctx: Context) returns (edit: Edit)
    requires Addressable(s.messages)
    ensures RecoveryEdit(s, OnRecovery(s, r, ctx), edit, r, ctx)
  {
    edit := Keep;
    if !(r.isInternal && !r.kind.GiveUp?) && RecoveryTarget(s, r.stepId) < |s.messages| {
      var i := RecoveryTargetIs(s, r.stepId);
      var ms, next := s.messages, RecoveryPart(r, ctx);
      if HasRecovery(ms[i], ms[i].id, next.id) {
        var j :| 0 <= j < |ms[i].parts| && ms[i].parts[j].Recovery? && ms[i].parts[j].id == next.id;
        var f := (p: Part) => MergeRecovery(p, next);
        UpdateIsReplace(ms, i, j, f);
        edit := Replace(i, j, f(ms[i].parts[j]));
      } else {
        assert forall k :: 0 <= k < |ms| ==> !HasRecovery(ms[k], ms[i].id, next.id);
        AppendIsAppend(ms, i, next);
        edit := Append(i, next);
      }
    }
  }

  /* ---------- the same for any reduction ---------- */

  lemma BlockStartChange(s: Session, e: Event, ctx: Context, t: Session) returns (edit: Edit)
    requires Addressable(s.messages) && Reduces(s, e, ctx, t) && e.BlockStart?
    ensures BlockStartEdit(s, t, edit, e.channel, e.stepId, e.blockId, ctx)
  {
    BlockStartIs(s, e, ctx, t);
    edit := BlockStartIsEdit(s, e.channel, e.stepId, e.blockId, ctx);
  }

  lemma BlockDeltaChange(s: Session, e: Event, ctx: Context, t: Session) returns (edit: Edit)
    requires Addressable(s.messages) && Reduces(s, e, ctx, t) && e.BlockDelta?
    ensures BlockDeltaEdit(s, t, edit, e.channel, e.stepId, e.blockId, e.text)
  {
    BlockDeltaIs(s, e, ctx, t);
    edit := BlockDeltaIsEdit(s, e.channel, e.stepId, e.blockId, e.text);
  }

  lemma BlockEndChange(s: Session, e: Event, ctx: Context, t: Session) returns (edit: Edit)
    requires Addressable(s.messages) && Reduces(s, e, ctx, t) && e.BlockEnd?
    ensures BlockEndEdit(s, t, edit, e.channel, e.stepId, e.blockId, ctx)
  {
    BlockEndIs(s, e, ctx, t);
    edit := BlockEndIsEdit(s, e.channel, e.stepId, e.blockId, ctx);
  }

  lemma ToolInputStartChange(s: Session, e: Event, ctx: Context, t: Session) returns (edit: Edit)
    requires Addressable(s.messages) && Reduces(s, e, ctx, t) && e.ToolInputStart?
    ensures ToolInputStartEdit(s, t, edit, e.toolCallId, e.toolName, ctx)
  {
    ToolInputStartIs(s, e, ctx, t);
    edit := ToolInputStartIsEdit(s, e.toolCallId, e.toolName, ctx);
  }

  lemma ToolCallChange(s: Session, e: Event, ctx: Context, t: Session) returns (edit: Edit)
    requires Addressable(s.messages) && Reduces(s, e, ctx, t) && e.ToolCall?
    ensures ToolCallEdit(s, t, edit, e.toolCallId, e.toolName, ctx)
  {
    ToolCallIs(s, e, ctx, t);
    edit := ToolCallIsEdit(s, e.toolCallId, e.toolName, e.input, ctx);
  }

  lemma ToolInputResolvedChange(s: Session, e: Event, ctx: Context, t: Session) returns (edit: Edit)
    requires Addressable(s.messages) && Reduces(s, e, ctx, t) && e.ToolInputResolved?
    ensures ToolInputResolvedEdit(s, t, edit, e.toolCallId, e.input)
  {
    ToolInputResolvedIs(s, e, ctx, t);
    edit := ToolInputResolvedIsEdit(s, e.toolCallId, e.input);
  }

  lemma ToolAttemptChange(s: Session, e: Event, ctx: Context, t: Session) returns (edit: Edit)
    requires Addressable(s.messages) && Reduces(s, e, ctx, t) && e.ToolAttempt?
    ensures ToolAttemptEdit(s, t, edit, e.toolCallId, e.attempt)
  {
    ToolAttemptIs(s, e, ctx, t);
    edit := ToolAttemptIsEdit(s, e.toolCallId, e.attempt);
  }

  lemma ToolOutputDeltaChange(s: Session, e: Event, ctx: Context, t: Session) returns (edit: Edit)
    requires Addressable(s.messages) && Reduces(s, e, ctx, t) && e.ToolOutputDelta?
    ensures ToolOutputDeltaEdit(s, t, edit, e.toolCallId, e.toolName, e.delta)
  {
    ToolOutputDeltaIs(s, e, ctx, t);
    edit := ToolOutputDeltaIsEdit(s, e.toolCallId, e.toolName, e.delta);
  }

  lemma ToolResultChange(s: Session, e: Event, ctx: Context, t: Session) returns (edit: Edit)
    requires Addressable(s.messages) && Reduces(s, e, ctx, t) && e.ToolResultArrived?
    ensures ToolResultEdit(s, t, edit, e.toolCallId, e.settledAt, e.result)
  {
    ToolResultIs(s, e, ctx, t);
    edit := ToolResultIsEdit(s, e.toolCallId, e.settledAt, e.result);
  }

  lemma RecoveryChange(s: Session, e: Event, ctx: Context, t: Session) returns (edit: Edit)
    requires Addressable(s.messages) && Reduces(s, e, ctx, t) && e.RecoveryNoticed?
    ensures RecoveryEdit(s, t, edit, e.recovery, ctx)
  {
    RecoveryIs(s, e, ctx, t);
    edit := RecoveryIsEdit(s, e.recovery, ctx);
  }
}
