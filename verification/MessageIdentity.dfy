/**
 Identity inside the message list: Assistant message ids are unique, and within one
 message part ids, tool call ids and (channel, block id) pairs are unique. Live output
 exists only on running Bash parts, and a settled tool keeps its result.
 */
module MessageIdentity {
  import opened Prelude
  import opened SessionTypes
  import opened Messages
  import opened Reducer
  import opened Steps
  import opened PartEvents

  ghost predicate PartsOk(parts: seq<Part>) {
    && DistinctParts(parts)
    && (forall j, k :: 0 <= j < k < |parts| && parts[j].Tool? && parts[k].Tool? ==>
          parts[j].toolCallId != parts[k].toolCallId)
    && (forall j, k :: 0 <= j < k < |parts| && parts[j].Block? && parts[k].Block? ==>
          !(parts[j].channel == parts[k].channel && parts[j].blockId == parts[k].blockId))
    && (forall j :: 0 <= j < |parts| && parts[j].id.RecoveryOf? ==> parts[j].Recovery?)
    && (forall j :: 0 <= j < |parts| && LiveOf(parts[j]).Some? ==> parts[j].toolName == "bash")
  }

  ghost predicate MessagesOk(ms: seq<Message>) {
    && DistinctMessages(ms)
    && forall i :: 0 <= i < |ms| && ms[i].Assistant? ==> ms[i].id != "" && PartsOk(ms[i].parts)
  }

  lemma OkIsAddressable(ms: seq<Message>)
    requires MessagesOk(ms)
    ensures Addressable(ms)
  {
  }

  /**
   The two parts share everything a lookup can use, and a settled tool stays settled with
   the same result; only its recorded input may still be replaced.
   */
  predicate SameIdentity(before: Part, after: Part) {
    && after.id == before.id
    && (before.Block? <==> after.Block?)
    && (before.Tool? <==> after.Tool?)
    && (before.Recovery? <==> after.Recovery?)
    && (before.Block? ==> after.channel == before.channel && after.blockId == before.blockId)
    && (before.Tool? ==> after.toolCallId == before.toolCallId && after.toolName == before.toolName)
    && (LiveOf(after).Some? ==> LiveOf(before).Some? || after.toolName == "bash")
    && (before.Tool? && before.state.ToolSettled? ==>
          after.state.ToolSettled? && after.state == before.state.(input := after.state.input))
  }

  lemma MapKeepsPartsOk(before: seq<Part>, after: seq<Part>)
    requires PartsOk(before) && |after| == |before|
    requires forall j :: 0 <= j < |before| ==> SameIdentity(before[j], after[j])
    ensures PartsOk(after)
  {
    forall j, k | 0 <= j < k < |after|
      ensures after[j].id != after[k].id
      ensures !(after[j].Tool? && after[k].Tool? && after[j].toolCallId == after[k].toolCallId)
      ensures !(after[j].Block? && after[k].Block?
                && after[j].channel == after[k].channel && after[j].blockId == after[k].blockId)
    {
      assert SameIdentity(before[j], after[j]) && SameIdentity(before[k], after[k]);
    }
  }

  ghost predicate FitsAppend(parts: seq<Part>, part: Part) {
    && (forall j :: 0 <= j < |parts| ==> parts[j].id != part.id)
    && (part.Tool? ==> LiveOf(part).None? && forall j :: 0 <= j < |parts| ==> !IsToolCall(parts[j], part.toolCallId))
    && (part.Block? ==> forall j :: 0 <= j < |parts| ==> !IsBlock(parts[j], part.channel, part.blockId))
    && (part.id.RecoveryOf? ==> part.Recovery?)
  }

  ghost predicate EditKeepsIdentity(ms: seq<Message>, edit: Edit)
    requires EditFits(ms, edit)
  {
    match edit
    case Keep => true
    case Append(i, part) => FitsAppend(ms[i].parts, part)
    case Replace(i, j, part) => SameIdentity(ms[i].parts[j], part)
    case Remove(i, j) => ms[i].parts[j].Block?
  }

  lemma AppendKeepsPartsOk(parts: seq<Part>, part: Part)
    requires PartsOk(parts) && FitsAppend(parts, part)
    ensures PartsOk(parts + [part])
  {
  }

  lemma RemoveKeepsPartsOk(parts: seq<Part>, j: nat)
    requires PartsOk(parts) && j < |parts|
    ensures PartsOk(parts[..j] + parts[j + 1..])
  {
    var after := parts[..j] + parts[j + 1..];
    forall a, b | 0 <= a < b < |after|
      ensures after[a].id != after[b].id
      ensures !(after[a].Tool? && after[b].Tool? && after[a].toolCallId == after[b].toolCallId)
      ensures !(after[a].Block? && after[b].Block?
                && after[a].channel == after[b].channel && after[a].blockId == after[b].blockId)
    {
      var ka, kb := if a < j then a else a + 1, if b < j then b else b + 1;
      assert after[a] == parts[ka] && after[b] == parts[kb];
    }
  }

  lemma EditKeepsPartsOk(parts: seq<Part>, edit: Edit)
    requires PartsOk(parts) && !edit.Keep? && (edit.Append? || edit.j < |parts|)
    requires edit.Append? ==> FitsAppend(parts, edit.part)
    requires edit.Replace? ==> SameIdentity(parts[edit.j], edit.part)
    ensures PartsOk(EditedParts(parts, edit))
  {
    match edit {
      case Append(_, part) => AppendKeepsPartsOk(parts, part);
      case Replace(_, j, part) => MapKeepsPartsOk(parts, parts[j := part]);
      case Remove(_, j) => RemoveKeepsPartsOk(parts, j);
    }
  }

  lemma EditKeepsMessagesOk(ms: seq<Message>, edit: Edit)
    requires MessagesOk(ms) && EditFits(ms, edit) && EditKeepsIdentity(ms, edit)
    ensures MessagesOk(ApplyEdit(ms, edit))
  {
    if !edit.Keep? {
      EditKeepsPartsOk(ms[edit.i].parts, edit);
    }
  }

  /** Ids given out by `generateId` are new, message ids are not empty, and the clock is positive. */
  ghost predicate FreshContext(s: Session, ctx: Context) {
    && ctx.now > 0
    && ctx.messageId != ""
    && (forall i :: 0 <= i < |s.messages| ==> s.messages[i].id != ctx.messageId)
    && (forall i :: 0 <= i < |s.messages| && s.messages[i].Assistant? ==> FreshPart(s.messages[i].parts, ctx.partId))
  }

  ghost predicate FreshPart(parts: seq<Part>, partId: string) {
    forall j :: 0 <= j < |parts| ==> parts[j].id != Generated(partId)
  }

  /** A committed user message, as `isCommittedUserMessage` admits it, arriving not compacted. */
  predicate IsCommitted(m: Message) {
    && m.User? && !m.compacted && m.userParts != []
    && forall j :: 0 <= j < |m.userParts| ==> m.userParts[j].TextPart? || m.userParts[j].AttachmentPart?
  }

  /** Assumptions on one input of a run; see README for where the program establishes them. */
  ghost predicate Admissible(s: Session, e: Event, ctx: Context) {
    && FreshContext(s, ctx)
    && (e.MessagesCommitted? ==> forall k :: 0 <= k < |e.committed| ==> IsCommitted(e.committed[k]))
  }

  /* ---------- preservation ---------- */

  predicate IsBlockEvent(e: Event) {
    e.BlockStart? || e.BlockDelta? || e.BlockEnd?
  }

  predicate IsToolEvent(e: Event) {
    || e.ToolInputStart? || e.ToolCall? || e.ToolInputResolved?
    || e.ToolAttempt? || e.ToolOutputDelta? || e.ToolResultArrived?
  }

  predicate IsPartEvent(e: Event) {
    IsBlockEvent(e) || IsToolEvent(e) || e.RecoveryNoticed?
  }

  /** The edit adds, changes or removes a model output block. */
  ghost predicate TouchesBlock(ms: seq<Message>, edit: Edit)
    requires EditFits(ms, edit)
  {
    match edit
    case Keep => false
    case Append(_, part) => part.Block?
    case Replace(i, j, _) => ms[i].parts[j].Block?
    case Remove(i, j) => ms[i].parts[j].Block?
  }

  /** One identity-preserving edit; output blocks and the current message change only on an active open step. */
  ghost predicate PartEdit(s: Session, t: Session, edit: Edit) {
    && Edited(s, t, edit)
    && EditKeepsIdentity(s.messages, edit)
    && (TouchesBlock(s.messages, edit) || t.currentAssistantMessageId != s.currentAssistantMessageId ==>
          !edit.Keep? && OnActiveStep(s, edit.i, s.messages[edit.i].stepId))
  }

  lemma BlockStartPartEdit(s: Session, e: Event, ctx: Context, t: Session) returns (edit: Edit)
    requires MessagesOk(s.messages) && FreshContext(s, ctx) && Reduces(s, e, ctx, t) && e.BlockStart?
    ensures PartEdit(s, t, edit)
  {
    OkIsAddressable(s.messages);
    edit := BlockStartChange(s, e, ctx, t);
  }

  lemma BlockDeltaPartEdit(s: Session, e: Event, ctx: Context, t: Session) returns (edit: Edit)
    requires MessagesOk(s.messages) && FreshContext(s, ctx) && Reduces(s, e, ctx, t) && e.BlockDelta?
    ensures PartEdit(s, t, edit)
  {
    OkIsAddressable(s.messages);
    edit := BlockDeltaChange(s, e, ctx, t);
  }

  lemma BlockEndPartEdit(s: Session, e: Event, ctx: Context, t: Session) returns (edit: Edit)
    requires MessagesOk(s.messages) && FreshContext(s, ctx) && Reduces(s, e, ctx, t) && e.BlockEnd?
    ensures PartEdit(s, t, edit)
  {
    OkIsAddressable(s.messages);
    edit := BlockEndChange(s, e, ctx, t);
  }

  lemma ToolInputStartPartEdit(s: Session, e: Event, ctx: Context, t: Session) returns (edit: Edit)
    requires MessagesOk(s.messages) && FreshContext(s, ctx) && Reduces(s, e, ctx, t) && e.ToolInputStart?
    ensures PartEdit(s, t, edit)
  {
    OkIsAddressable(s.messages);
    edit := ToolInputStartChange(s, e, ctx, t);
  }

  lemma ToolCallPartEdit(s: Session, e: Event, ctx: Context, t: Session) returns (edit: Edit)
    requires MessagesOk(s.messages) && FreshContext(s, ctx) && Reduces(s, e, ctx, t) && e.ToolCall?
    ensures PartEdit(s, t, edit)
  {
    OkIsAddressable(s.messages);
    edit := ToolCallChange(s, e, ctx, t);
  }

  lemma ToolInputResolvedPartEdit(s: Session, e: Event, ctx: Context, t: Session) returns (edit: Edit)
    requires MessagesOk(s.messages) && FreshContext(s, ctx) && Reduces(s, e, ctx, t) && e.ToolInputResolved?
    ensures PartEdit(s, t, edit)
  {
    OkIsAddressable(s.messages);
    edit := ToolInputResolvedChange(s, e, ctx, t);
  }

  lemma ToolAttemptPartEdit(s: Session, e: Event, ctx: Context, t: Session) returns (edit: Edit)
    requires MessagesOk(s.messages) && FreshContext(s, ctx) && Reduces(s, e, ctx, t) && e.ToolAttempt?
    ensures PartEdit(s, t, edit)
  {
    OkIsAddressable(s.messages);
    edit := ToolAttemptChange(s, e, ctx, t);
  }

  lemma ToolOutputDeltaPartEdit(s: Session, e: Event, ctx: Context, t: Session) returns (edit: Edit)
    requires MessagesOk(s.messages) && FreshContext(s, ctx) && Reduces(s, e, ctx, t) && e.ToolOutputDelta?
    ensures PartEdit(s, t, edit)
  {
    OkIsAddressable(s.messages);
    edit := ToolOutputDeltaChange(s, e, ctx, t);
  }

  lemma ToolResultPartEdit(s: Session, e: Event, ctx: Context, t: Session) returns (edit: Edit)
    requires MessagesOk(s.messages) && FreshContext(s, ctx) && Reduces(s, e, ctx, t) && e.ToolResultArrived?
    ensures PartEdit(s, t, edit)
  {
    OkIsAddressable(s.messages);
    edit := ToolResultChange(s, e, ctx, t);
  }

  lemma RecoveryPartEdit(s: Session, e: Event, ctx: Context, t: Session) returns (edit: Edit)
    requires MessagesOk(s.messages) && FreshContext(s, ctx) && Reduces(s, e, ctx, t) && e.RecoveryNoticed?
    ensures PartEdit(s, t, edit)
  {
    OkIsAddressable(s.messages);
    edit := RecoveryChange(s, e, ctx, t);
    if edit.Append? {
      RecoveryFits(s.messages[edit.i].parts, e.recovery, ctx);
    }
  }

  lemma BlockPartEdit(s: Session, e: Event, ctx: Context, t: Session) returns (edit: Edit)
    requires MessagesOk(s.messages) && FreshContext(s, ctx) && Reduces(s, e, ctx, t) && IsBlockEvent(e)
    ensures PartEdit(s, t, edit)
  {
    if e.BlockStart? {
      edit := BlockStartPartEdit(s, e, ctx, t);
    } else if e.BlockDelta? {
      edit := BlockDeltaPartEdit(s, e, ctx, t);
    } else {
      edit := BlockEndPartEdit(s, e, ctx, t);
    }
  }

  lemma ToolPartEdit(s: Session, e: Event, ctx: Context, t: Session) returns (edit: Edit)
    requires MessagesOk(s.messages) && FreshContext(s, ctx) && Reduces(s, e, ctx, t) && IsToolEvent(e)
    ensures PartEdit(s, t, edit)
  {
    if e.ToolInputStart? {
      edit := ToolInputStartPartEdit(s, e, ctx, t);
    } else if e.ToolCall? {
      edit := ToolCallPartEdit(s, e, ctx, t);
    } else if e.ToolInputResolved? {
      edit := ToolInputResolvedPartEdit(s, e, ctx, t);
    } else if e.ToolAttempt? {
      edit := ToolAttemptPartEdit(s, e, ctx, t);
    } else if e.ToolOutputDelta? {
      edit := ToolOutputDeltaPartEdit(s, e, ctx, t);
    } else {
      edit := ToolResultPartEdit(s, e, ctx, t);
    }
  }

  /** Every part event is one such edit. */
  lemma PartEventIsEdit(s: Session, e: Event, ctx: Context, t: Session) returns (edit: Edit)
    requires MessagesOk(s.messages) && FreshContext(s, ctx) && Reduces(s, e, ctx, t) && IsPartEvent(e)
    ensures PartEdit(s, t, edit)
  {
    if IsBlockEvent(e) {
      edit := BlockPartEdit(s, e, ctx, t);
    } else if IsToolEvent(e) {
      edit := ToolPartEdit(s, e, ctx, t);
    } else {
      edit := RecoveryPartEdit(s, e, ctx, t);
    }
  }

  lemma RecoveryFits(parts: seq<Part>, r: RecoveryEvent, ctx: Context)
    requires PartsOk(parts) && FreshPart(parts, ctx.partId)
    requires forall j :: 0 <= j < |parts| && parts[j].Recovery? ==> parts[j].id != RecoveryPart(r, ctx).id
    ensures FitsAppend(parts, RecoveryPart(r, ctx))
  {
    var part := RecoveryPart(r, ctx);
    forall j | 0 <= j < |parts|
      ensures parts[j].id != part.id
    {
      assert part.id.RecoveryOf? || part.id == Generated(ctx.partId);
    }
  }

  /** `after` differs from `before` in nothing but part contents and completion, phase and compaction marks. */
  predicate SameMessage(before: Message, after: Message) {
    && after.id == before.id
    && (before.Assistant? <==> after.Assistant?)
    && (before.Assistant? ==>
          && after.executionId == before.executionId
          && after.runOrdinal == before.runOrdinal
          && after.stepId == before.stepId
          && |after.parts| == |before.parts|
          && forall j :: 0 <= j < |before.parts| ==> SameIdentity(before.parts[j], after.parts[j]))
  }

  lemma SameMessagesOk(before: seq<Message>, after: seq<Message>)
    requires MessagesOk(before) && |after| == |before|
    requires forall i :: 0 <= i < |before| ==> SameMessage(before[i], after[i])
    ensures MessagesOk(after)
  {
    forall i | 0 <= i < |after| && after[i].Assistant?
      ensures after[i].id != "" && PartsOk(after[i].parts)
    {
      assert SameMessage(before[i], after[i]);
      MapKeepsPartsOk(before[i].parts, after[i].parts);
    }
    forall i, j | 0 <= i < |after| && 0 <= j < |after| && i != j && after[i].Assistant?
      ensures after[i].id != after[j].id
    {
      assert SameMessage(before[i], after[i]) && SameMessage(before[j], after[j]);
    }
  }

  lemma SettleSame(m: Message, current: Option<string>, now: int, discard: bool)
    ensures SameMessage(m, InterruptTools(SettleMessage(m, current, now, discard), now))
  {
  }

  lemma EndedSame(ms: seq<Message>, current: Option<string>, end: End)
    ensures forall i :: 0 <= i < |ms| ==> SameMessage(ms[i], EndedMessages(ms, current, end)[i])
  {
    forall i | 0 <= i < |ms|
      ensures SameMessage(ms[i], EndedMessages(ms, current, end)[i])
    {
      SettleSame(ms[i], current, end.endedAt, !end.outcome.Completed?);
    }
  }

  lemma StepEndSame(ms: seq<Message>, stepId: string, finishReason: string, now: int)
    ensures forall i :: 0 <= i < |ms| ==> SameMessage(ms[i], StepEndMessages(ms, stepId, finishReason, now)[i])
  {
  }

  lemma {:induction false} NewMessagesAre(committed: seq<Message>, existing: set<string>)
    ensures forall k :: 0 <= k < |NewMessages(committed, existing)| ==>
      NewMessages(committed, existing)[k] in committed && NewMessages(committed, existing)[k].id !in existing
  {
    if committed != [] {
      NewMessagesAre(committed[1..], existing);
    }
  }

  lemma AppendUsersOk(ms: seq<Message>, users: seq<Message>)
    requires MessagesOk(ms)
    requires forall k :: 0 <= k < |users| ==> users[k].User?
    requires forall i, k :: 0 <= i < |ms| && 0 <= k < |users| ==> ms[i].id != users[k].id
    ensures MessagesOk(ms + users)
  {
    var after := ms + users;
    forall i, j | 0 <= i < |after| && 0 <= j < |after| && i != j && after[i].Assistant?
      ensures after[i].id != after[j].id
    {
      if j >= |ms| {
        assert after[j] == users[j - |ms|];
      }
    }
  }

  /** Where a message of the compacted list comes from. */
  lemma CompactedAt(ms: seq<Message>, summary: string, tailStartId: string, ctx: Context)
    ensures var after := Compacted(ms, summary, tailStartId, ctx);
      var upTo := MessageAt(ms, tailStartId);
      if CompactionAt(ms) < |ms| then
        && |after| == |ms|
        && forall i :: 0 <= i < |ms| ==>
             after[i] == if i == CompactionAt(ms) then Refresh(ms[i], summary, tailStartId, ctx.now)
                         else if i < upTo then Flag(ms[i]) else ms[i]
      else
        && |after| == |ms| + 1
        && after[upTo] == CompactionMessage(summary, tailStartId, ctx)
        && (forall i :: 0 <= i < upTo ==> after[i] == Flag(ms[i]))
        && (forall i :: upTo <= i < |ms| ==> after[i + 1] == ms[i])
  {
  }

  /** Every message survives compaction with its identity and parts. */
  lemma CompactedPosition(ms: seq<Message>, summary: string, tailStartId: string, ctx: Context, i: nat) returns (k: nat)
    requires i < |ms|
    ensures var after := Compacted(ms, summary, tailStartId, ctx);
      && k < |after|
      && after[k].id == ms[i].id
      && (after[k].Assistant? <==> ms[i].Assistant?)
      && PartsOf(after[k]) == PartsOf(ms[i])
  {
    CompactedAt(ms, summary, tailStartId, ctx);
    k := if CompactionAt(ms) < |ms| || i < MessageAt(ms, tailStartId) then i else i + 1;
  }

  lemma InsertUserOk(ms: seq<Message>, at: nat, user: Message)
    requires MessagesOk(ms) && at <= |ms| && user.User? && forall i :: 0 <= i < |ms| ==> ms[i].id != user.id
    ensures MessagesOk(ms[..at] + [user] + ms[at..])
  {
    var after := ms[..at] + [user] + ms[at..];
    forall i, j | 0 <= i < |after| && 0 <= j < |after| && i != j && after[i].Assistant?
      ensures after[i].id != after[j].id
    {
      var ki, kj := if i < at then i else i - 1, if j < at then j else j - 1;
      assert after[i] == ms[ki];
      assert j != at ==> after[j] == ms[kj];
    }
  }

  lemma CompactedOk(ms: seq<Message>, summary: string, tailStartId: string, ctx: Context)
    requires MessagesOk(ms) && forall i :: 0 <= i < |ms| ==> ms[i].id != ctx.messageId
    ensures MessagesOk(Compacted(ms, summary, tailStartId, ctx))
  {
    var upTo, flagged := MessageAt(ms, tailStartId), FlagUpTo(ms, MessageAt(ms, tailStartId));
    SameMessagesOk(ms, flagged);
    if CompactionAt(ms) < |ms| {
      SameMessagesOk(flagged, Compacted(ms, summary, tailStartId, ctx));
    } else {
      InsertUserOk(flagged, upTo, CompactionMessage(summary, tailStartId, ctx));
    }
  }

  lemma StepStartOk(s: Session, stepId: string, number: int, ctx: Context)
    requires MessagesOk(s.messages) && FreshContext(s, ctx)
    ensures MessagesOk(OnStepStart(s, stepId, number, ctx).messages)
  {
  }

  lemma LifecycleKeepsOk(s: Session, e: LifecycleEvent, now: int)
    requires MessagesOk(s.messages)
    ensures MessagesOk(OnLifecycle(s, e, now).messages)
  {
    if e.ExecutionEnd? && LifecycleAccepted(s, e) {
      EndedSame(s.messages, s.currentAssistantMessageId, e.end);
      SameMessagesOk(s.messages, EndedMessages(s.messages, s.currentAssistantMessageId, e.end));
    }
  }

  lemma CommitKeepsOk(s: Session, committed: seq<Message>)
    requires MessagesOk(s.messages) && forall k :: 0 <= k < |committed| ==> IsCommitted(committed[k])
    ensures MessagesOk(OnMessagesCommitted(s, committed).messages)
  {
    NewMessagesAre(committed, Ids(s.messages));
    AppendUsersOk(s.messages, NewMessages(committed, Ids(s.messages)));
  }

  lemma StepEndOk(s: Session, stepId: string, number: int, finishReason: string, usage: Usage, now: int)
    requires MessagesOk(s.messages)
    ensures MessagesOk(OnStepEnd(s, stepId, number, finishReason, usage, now).messages)
  {
    StepEndSame(s.messages, stepId, finishReason, now);
    SameMessagesOk(s.messages, StepEndMessages(s.messages, stepId, finishReason, now));
  }

  /** Events that add, complete or flag whole messages. */
  lemma MessageEventKeepsOk(s: Session, e: Event, ctx: Context, t: Session)
    requires MessagesOk(s.messages) && Admissible(s, e, ctx) && Reduces(s, e, ctx, t)
    requires e.MessagesCommitted? || e.SystemNotice? || e.Compact?
    ensures MessagesOk(t.messages)
  {
    if e.MessagesCommitted? {
      CommitIs(s, e, ctx, t);
      CommitKeepsOk(s, e.committed);
    } else if e.SystemNotice? {
      NoticeIs(s, e, ctx, t);
      AppendUsersOk(s.messages, [NoticeMessage(s, e.notice, ctx)]);
    } else {
      CompactIs(s, e, ctx, t);
      CompactedOk(s.messages, e.summary, e.tailStartId, ctx);
    }
  }

  lemma StepEventKeepsOk(s: Session, e: Event, ctx: Context, t: Session)
    requires MessagesOk(s.messages) && Admissible(s, e, ctx) && Reduces(s, e, ctx, t)
    requires e.StepStart? || e.StepEnd? || e.ExecutionError?
    ensures MessagesOk(t.messages)
  {
    if e.StepStart? {
      StepStartIs(s, e, ctx, t);
      StepStartOk(s, e.stepId, e.number, ctx);
    } else if e.StepEnd? {
      StepEndIs(s, e, ctx, t);
      StepEndOk(s, e.stepId, e.number, e.finishReason, e.usage, ctx.now);
    } else {
      ErrorIs(s, e, ctx, t);
    }
  }

  lemma PartEventKeepsOk(s: Session, e: Event, ctx: Context, t: Session)
    requires MessagesOk(s.messages) && FreshContext(s, ctx) && Reduces(s, e, ctx, t) && IsPartEvent(e)
    ensures MessagesOk(t.messages)
  {
    var edit := PartEventIsEdit(s, e, ctx, t);
    EditKeepsMessagesOk(s.messages, edit);
  }

  /** Every event keeps message and part identity. */
  lemma ReduceKeepsMessagesOk(s: Session, e: Event, ctx: Context, t: Session)
    requires MessagesOk(s.messages) && Admissible(s, e, ctx) && Reduces(s, e, ctx, t)
    ensures MessagesOk(t.messages)
  {
    if IsPartEvent(e) {
      PartEventKeepsOk(s, e, ctx, t);
    } else if e.MessagesCommitted? || e.SystemNotice? || e.Compact? {
      MessageEventKeepsOk(s, e, ctx, t);
    } else if e.StepStart? || e.StepEnd? || e.ExecutionError? {
      StepEventKeepsOk(s, e, ctx, t);
    } else if e.Lifecycle? {
      LifecycleIs(s, e, ctx, t);
      LifecycleKeepsOk(s, e.lifecycle, ctx.now);
    } else if e.StopRequested? {
      StopIs(s, e, ctx, t);
    } else {
      QuietIs(s, e, ctx, t);
    }
  }
}
