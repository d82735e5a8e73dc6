/**
 The live output of one running tool part, followed through the reducer: each event
 either addresses that part with a delta, which is appended, or leaves it alone. Events
 are taken in groups, by the way in which they change the message list.
 */
module LiveOutput {
  import opened Prelude
  import opened Utf8
  import opened SessionTypes
  import opened Messages
  import opened Reducer
  import opened Steps
  import opened PartEvents
  import opened MessageIdentity
  import opened ToolMachine

  /** The running tool part at an address, if there is one. */
  function RunningAt(ms: seq<Message>, at: Location): Option<Part> {
    var p := GetPart(ms, at);
    if p.Some? && p.value.Tool? && p.value.state.ToolRunning? then p else None
  }

  /** The delta this event adds to the part at `at`. */
  function DeltaFor(s: Session, e: Event, at: Location): Option<Delta> {
    if e.ToolOutputDelta?
       && FindTool(s.messages, s.currentAssistantMessageId, e.toolCallId) == Some(at)
       && RunningAt(s.messages, at).Some?
       && RunningAt(s.messages, at).value.toolName == "bash"
       && e.toolName == "bash"
    then Some(e.delta)
    else None
  }

  function AfterDelta(live: Option<LiveOutput>, d: Option<Delta>): Option<LiveOutput> {
    if d.Some? then Some(AppendDelta(live, d.value)) else live
  }

  lemma RunningIs(ms: seq<Message>, at: Location) returns (i: nat, j: nat)
    requires RunningAt(ms, at).Some?
    ensures i < |ms| && ms[i].Assistant? && j < |ms[i].parts|
    ensures at == Location(ms[i].id, ms[i].parts[j].id) && RunningAt(ms, at) == Some(ms[i].parts[j])
  {
    i := MessageAt(ms, at.messageId);
    j := PartAt(PartsOf(ms[i]), at.partId);
  }

  /** Reading an address whose message and part are still at known positions. */
  lemma ReadAt(ms: seq<Message>, at: Location, i: nat, j: nat)
    requires MessagesOk(ms) && i < |ms| && ms[i].Assistant? && j < |ms[i].parts|
    requires at == Location(ms[i].id, ms[i].parts[j].id)
    ensures GetPart(ms, at) == Some(ms[i].parts[j])
  {
    GetPartIs(ms, i, j);
  }

  /** An edit that does not touch the live output of the parts it replaces leaves every live output alone. */
  lemma EditLeavesLive(ms: seq<Message>, edit: Edit, at: Location)
    requires MessagesOk(ms) && EditFits(ms, edit) && EditKeepsIdentity(ms, edit)
    requires edit.Replace? && RunningPart(edit.part) ==> LiveOf(edit.part) == LiveOf(ms[edit.i].parts[edit.j])
    requires RunningAt(ms, at).Some? && RunningAt(ApplyEdit(ms, edit), at).Some?
    ensures LiveOf(RunningAt(ApplyEdit(ms, edit), at).value) == LiveOf(RunningAt(ms, at).value)
  {
    var after := ApplyEdit(ms, edit);
    var i, j := RunningIs(ms, at);
    EditKeepsMessagesOk(ms, edit);
    var k := EditedPosition(ms, edit, i, j);
    ReadAt(after, at, i, k);
  }

  /** Where a tool part sits after an edit, and what it is then. */
  lemma EditedPosition(ms: seq<Message>, edit: Edit, i: nat, j: nat) returns (k: nat)
    requires EditFits(ms, edit) && EditKeepsIdentity(ms, edit)
    requires i < |ms| && ms[i].Assistant? && j < |ms[i].parts| && !ms[i].parts[j].Block?
    ensures var n := ApplyEdit(ms, edit)[i];
      && n.Assistant? && n.id == ms[i].id
      && k < |n.parts| && n.parts[k].id == ms[i].parts[j].id
      && n.parts[k] == if edit.Replace? && edit.i == i && edit.j == j then edit.part else ms[i].parts[j]
  {
    k := if edit.Remove? && edit.i == i && j > edit.j then j - 1 else j;
  }

  /** Equal addresses are equal positions. */
  lemma SamePlace(ms: seq<Message>, i: nat, j: nat, k: nat, l: nat)
    requires MessagesOk(ms) && i < |ms| && k < |ms| && ms[i].Assistant? && ms[k].Assistant?
    requires j < |ms[i].parts| && l < |ms[k].parts|
    ensures Location(ms[i].id, ms[i].parts[j].id) == Location(ms[k].id, ms[k].parts[l].id) <==> i == k && j == l
  {
  }

  lemma DeltaAppends(s: Session, e: Event, at: Location)
    requires MessagesOk(s.messages) && e.ToolOutputDelta?
    requires RunningAt(s.messages, at).Some?
    ensures var t := OnToolOutputDelta(s, e.toolCallId, e.toolName, e.delta);
      && RunningAt(t.messages, at).Some?
      && LiveOf(RunningAt(t.messages, at).value)
           == AfterDelta(LiveOf(RunningAt(s.messages, at).value), DeltaFor(s, e, at))
  {
    OkIsAddressable(s.messages);
    var i, j := RunningIs(s.messages, at);
    var t := OnToolOutputDelta(s, e.toolCallId, e.toolName, e.delta);
    var edit := ToolOutputDeltaIsEdit(s, e.toolCallId, e.toolName, e.delta);
    if edit.Replace? {
      SamePlace(s.messages, i, j, edit.i, edit.j);
      GetPartIs(s.messages, edit.i, edit.j);
    }
    EditKeepsMessagesOk(s.messages, edit);
    ReadAfter(s.messages, edit, at, i, j);
  }

  /** Reading an address after a replacement there or elsewhere. */
  lemma ReadAfter(ms: seq<Message>, edit: Edit, at: Location, i: nat, j: nat)
    requires MessagesOk(ms) && EditFits(ms, edit) && (edit.Keep? || edit.Replace?) && MessagesOk(ApplyEdit(ms, edit))
    requires i < |ms| && ms[i].Assistant? && j < |ms[i].parts| && at == Location(ms[i].id, ms[i].parts[j].id)
    requires edit.Replace? ==> edit.part.id == ms[edit.i].parts[edit.j].id
    ensures GetPart(ApplyEdit(ms, edit), at)
         == Some(if edit.Replace? && edit.i == i && edit.j == j then edit.part else ms[i].parts[j])
  {
    ReadAt(ApplyEdit(ms, edit), at, i, j);
  }

  lemma BlockStartLeavesLive(s: Session, e: Event, ctx: Context, t: Session, at: Location)
    requires MessagesOk(s.messages) && FreshContext(s, ctx) && Reduces(s, e, ctx, t) && e.BlockStart?
    requires RunningAt(s.messages, at).Some? && RunningAt(t.messages, at).Some?
    ensures LiveOf(RunningAt(t.messages, at).value) == LiveOf(RunningAt(s.messages, at).value)
  {
    OkIsAddressable(s.messages);
    var edit := BlockStartChange(s, e, ctx, t);
    EditLeavesLive(s.messages, edit, at);
  }

  lemma BlockDeltaLeavesLive(s: Session, e: Event, ctx: Context, t: Session, at: Location)
    requires MessagesOk(s.messages) && FreshContext(s, ctx) && Reduces(s, e, ctx, t) && e.BlockDelta?
    requires RunningAt(s.messages, at).Some? && RunningAt(t.messages, at).Some?
    ensures LiveOf(RunningAt(t.messages, at).value) == LiveOf(RunningAt(s.messages, at).value)
  {
    OkIsAddressable(s.messages);
    var edit := BlockDeltaChange(s, e, ctx, t);
    EditLeavesLive(s.messages, edit, at);
  }

  lemma BlockEndLeavesLive(s: Session, e: Event, ctx: Context, t: Session, at: Location)
    requires MessagesOk(s.messages) && FreshContext(s, ctx) && Reduces(s, e, ctx, t) && e.BlockEnd?
    requires RunningAt(s.messages, at).Some? && RunningAt(t.messages, at).Some?
    ensures LiveOf(RunningAt(t.messages, at).value) == LiveOf(RunningAt(s.messages, at).value)
  {
    OkIsAddressable(s.messages);
    var edit := BlockEndChange(s, e, ctx, t);
    EditLeavesLive(s.messages, edit, at);
  }

  lemma ToolInputStartLeavesLive(s: Session, e: Event, ctx: Context, t: Session, at: Location)
    requires MessagesOk(s.messages) && FreshContext(s, ctx) && Reduces(s, e, ctx, t) && e.ToolInputStart?
    requires RunningAt(s.messages, at).Some? && RunningAt(t.messages, at).Some?
    ensures LiveOf(RunningAt(t.messages, at).value) == LiveOf(RunningAt(s.messages, at).value)
  {
    OkIsAddressable(s.messages);
    var edit := ToolInputStartChange(s, e, ctx, t);
    EditLeavesLive(s.messages, edit, at);
  }

  lemma ToolCallLeavesLive(s: Session, e: Event, ctx: Context, t: Session, at: Location)
    requires MessagesOk(s.messages) && FreshContext(s, ctx) && Reduces(s, e, ctx, t) && e.ToolCall?
    requires RunningAt(s.messages, at).Some? && RunningAt(t.messages, at).Some?
    ensures LiveOf(RunningAt(t.messages, at).value) == LiveOf(RunningAt(s.messages, at).value)
  {
    OkIsAddressable(s.messages);
    var edit := ToolCallChange(s, e, ctx, t);
    EditLeavesLive(s.messages, edit, at);
  }

  lemma ToolInputResolvedLeavesLive(s: Session, e: Event, ctx: Context, t: Session, at: Location)
    requires MessagesOk(s.messages) && FreshContext(s, ctx) && Reduces(s, e, ctx, t) && e.ToolInputResolved?
    requires RunningAt(s.messages, at).Some? && RunningAt(t.messages, at).Some?
    ensures LiveOf(RunningAt(t.messages, at).value) == LiveOf(RunningAt(s.messages, at).value)
  {
    OkIsAddressable(s.messages);
    var edit := ToolInputResolvedChange(s, e, ctx, t);
    EditLeavesLive(s.messages, edit, at);
  }

  lemma AttemptKeepsLive(p: Part, attempt: Attempt)
    requires p.Tool?
    ensures LiveOf(WithAttempt(p, attempt)) == LiveOf(p)
  {
  }

  lemma ToolAttemptLeavesLive(s: Session, e: Event, ctx: Context, t: Session, at: Location)
    requires MessagesOk(s.messages) && FreshContext(s, ctx) && Reduces(s, e, ctx, t) && e.ToolAttempt?
    requires RunningAt(s.messages, at).Some? && RunningAt(t.messages, at).Some?
    ensures LiveOf(RunningAt(t.messages, at).value) == LiveOf(RunningAt(s.messages, at).value)
  {
    OkIsAddressable(s.messages);
    var edit := ToolAttemptChange(s, e, ctx, t);
    if edit.Replace? {
      AttemptKeepsLive(s.messages[edit.i].parts[edit.j], e.attempt);
    }
    EditLeavesLive(s.messages, edit, at);
  }

  lemma ToolResultLeavesLive(s: Session, e: Event, ctx: Context, t: Session, at: Location)
    requires MessagesOk(s.messages) && FreshContext(s, ctx) && Reduces(s, e, ctx, t) && e.ToolResultArrived?
    requires RunningAt(s.messages, at).Some? && RunningAt(t.messages, at).Some?
    ensures LiveOf(RunningAt(t.messages, at).value) == LiveOf(RunningAt(s.messages, at).value)
  {
    OkIsAddressable(s.messages);
    var edit := ToolResultChange(s, e, ctx, t);
    EditLeavesLive(s.messages, edit, at);
  }

  lemma RecoveryLeavesLive(s: Session, e: Event, ctx: Context, t: Session, at: Location)
    requires MessagesOk(s.messages) && FreshContext(s, ctx) && Reduces(s, e, ctx, t) && e.RecoveryNoticed?
    requires RunningAt(s.messages, at).Some? && RunningAt(t.messages, at).Some?
    ensures LiveOf(RunningAt(t.messages, at).value) == LiveOf(RunningAt(s.messages, at).value)
  {
    OkIsAddressable(s.messages);
    var edit := RecoveryChange(s, e, ctx, t);
    if edit.Append? {
      RecoveryFits(s.messages[edit.i].parts, e.recovery, ctx);
    }
    EditLeavesLive(s.messages, edit, at);
  }

  /** Messages in place, with tool parts that are either unchanged or no longer running. */
  ghost predicate ToolsStill(before: seq<Message>, after: seq<Message>) {
    && |after| >= |before|
    && forall i :: 0 <= i < |before| && before[i].Assistant? ==> ToolsStillAt(before[i], after[i])
  }

  predicate ToolsStillAt(before: Message, after: Message)
    requires before.Assistant?
  {
    && after.Assistant? && after.id == before.id
    && |after.parts| == |before.parts|
    && forall j :: 0 <= j < |before.parts| ==>
         && after.parts[j].id == before.parts[j].id
         && (RunningPart(after.parts[j]) ==> LiveOf(after.parts[j]) == LiveOf(before.parts[j]))
  }

  predicate RunningPart(p: Part) {
    p.Tool? && p.state.ToolRunning?
  }

  lemma StillLeavesLive(before: seq<Message>, after: seq<Message>, at: Location)
    requires MessagesOk(after) && ToolsStill(before, after)
    requires RunningAt(before, at).Some? && RunningAt(after, at).Some?
    ensures LiveOf(RunningAt(after, at).value) == LiveOf(RunningAt(before, at).value)
  {
    var i, j := RunningIs(before, at);
    assert ToolsStillAt(before[i], after[i]);
    ReadAt(after, at, i, j);
  }

  lemma EndStill(ms: seq<Message>, current: Option<string>, end: End)
    ensures ToolsStill(ms, EndedMessages(ms, current, end))
  {
    forall i | 0 <= i < |ms| && ms[i].Assistant?
      ensures ToolsStillAt(ms[i], EndedMessages(ms, current, end)[i])
    {
      EndedSame(ms, current, end);
      assert SameMessage(ms[i], EndedMessages(ms, current, end)[i]);
      EndedParts(ms, current, end, i);
    }
  }

  lemma StepEndStill(ms: seq<Message>, stepId: string, finishReason: string, now: int)
    ensures ToolsStill(ms, StepEndMessages(ms, stepId, finishReason, now))
  {
    forall i | 0 <= i < |ms| && ms[i].Assistant?
      ensures ToolsStillAt(ms[i], StepEndMessages(ms, stepId, finishReason, now)[i])
    {
    }
  }

  lemma CompactLeavesLive(s: Session, summary: string, tailStartId: string, ctx: Context, at: Location)
    requires MessagesOk(s.messages) && FreshContext(s, ctx)
    requires RunningAt(s.messages, at).Some?
    ensures RunningAt(Compacted(s.messages, summary, tailStartId, ctx), at) == RunningAt(s.messages, at)
  {
    var ms := s.messages;
    var after := Compacted(ms, summary, tailStartId, ctx);
    var i, j := RunningIs(ms, at);
    CompactedOk(ms, summary, tailStartId, ctx);
    var k := CompactedPosition(ms, summary, tailStartId, ctx, i);
    ReadAt(after, at, k, j);
  }

  lemma BlockLeavesLive(s: Session, e: Event, ctx: Context, t: Session, at: Location)
    requires MessagesOk(s.messages) && FreshContext(s, ctx) && Reduces(s, e, ctx, t) && IsBlockEvent(e)
    requires RunningAt(s.messages, at).Some? && RunningAt(t.messages, at).Some?
    ensures LiveOf(RunningAt(t.messages, at).value) == LiveOf(RunningAt(s.messages, at).value)
  {
    if e.BlockStart? {
      BlockStartLeavesLive(s, e, ctx, t, at);
    } else if e.BlockDelta? {
      BlockDeltaLeavesLive(s, e, ctx, t, at);
    } else {
      BlockEndLeavesLive(s, e, ctx, t, at);
    }
  }

  lemma ToolLeavesLive(s: Session, e: Event, ctx: Context, t: Session, at: Location)
    requires MessagesOk(s.messages) && FreshContext(s, ctx) && Reduces(s, e, ctx, t)
    requires IsToolEvent(e) && !e.ToolOutputDelta?
    requires RunningAt(s.messages, at).Some? && RunningAt(t.messages, at).Some?
    ensures LiveOf(RunningAt(t.messages, at).value) == LiveOf(RunningAt(s.messages, at).value)
  {
    if e.ToolInputStart? {
      ToolInputStartLeavesLive(s, e, ctx, t, at);
    } else if e.ToolCall? {
      ToolCallLeavesLive(s, e, ctx, t, at);
    } else if e.ToolInputResolved? {
      ToolInputResolvedLeavesLive(s, e, ctx, t, at);
    } else if e.ToolAttempt? {
      ToolAttemptLeavesLive(s, e, ctx, t, at);
    } else {
      ToolResultLeavesLive(s, e, ctx, t, at);
    }
  }

  lemma PrefixStill(ms: seq<Message>, more: seq<Message>)
    ensures ToolsStill(ms, ms + more)
  {
    forall i | 0 <= i < |ms| && ms[i].Assistant? ensures ToolsStillAt(ms[i], (ms + more)[i]) {}
  }

  lemma LifecycleStill(s: Session, e: LifecycleEvent, now: int)
    ensures ToolsStill(s.messages, OnLifecycle(s, e, now).messages)
  {
    PrefixStill(s.messages, []);
    assert s.messages + [] == s.messages;
    if e.ExecutionEnd? {
      EndStill(s.messages, s.currentAssistantMessageId, e.end);
    }
  }

  lemma UnchangedStill(ms: seq<Message>)
    ensures ToolsStill(ms, ms)
  {
    PrefixStill(ms, []);
    assert ms + [] == ms;
  }

  lemma StepEventStill(s: Session, e: Event, ctx: Context, t: Session)
    requires Reduces(s, e, ctx, t) && (e.StepStart? || e.StepEnd? || e.ExecutionError?)
    ensures ToolsStill(s.messages, t.messages)
  {
    UnchangedStill(s.messages);
    if e.StepStart? {
      StepStartIs(s, e, ctx, t);
      PrefixStill(s.messages, t.messages[|s.messages|..]);
      assert t.messages == s.messages + t.messages[|s.messages|..];
    } else if e.StepEnd? {
      StepEndIs(s, e, ctx, t);
      StepEndStill(s.messages, e.stepId, e.finishReason, ctx.now);
    } else {
      ErrorIs(s, e, ctx, t);
    }
  }

  /** Events that do not edit parts one by one leave running tool parts alone or stop them. */
  lemma BulkStill(s: Session, e: Event, ctx: Context, t: Session)
    requires Reduces(s, e, ctx, t) && !IsPartEvent(e) && !e.Compact?
    ensures ToolsStill(s.messages, t.messages)
  {
    UnchangedStill(s.messages);
    if e.Lifecycle? {
      LifecycleIs(s, e, ctx, t);
      LifecycleStill(s, e.lifecycle, ctx.now);
    } else if e.StepStart? || e.StepEnd? || e.ExecutionError? {
      StepEventStill(s, e, ctx, t);
    } else if e.MessagesCommitted? {
      CommitIs(s, e, ctx, t);
      PrefixStill(s.messages, NewMessages(e.committed, Ids(s.messages)));
    } else if e.SystemNotice? {
      NoticeIs(s, e, ctx, t);
      PrefixStill(s.messages, [NoticeMessage(s, e.notice, ctx)]);
    } else if e.StopRequested? {
      StopIs(s, e, ctx, t);
    } else {
      QuietIs(s, e, ctx, t);
    }
  }

  lemma BulkEventLeavesLive(s: Session, e: Event, ctx: Context, t: Session, at: Location)
    requires MessagesOk(s.messages) && Admissible(s, e, ctx) && Reduces(s, e, ctx, t) && !IsPartEvent(e)
    requires RunningAt(s.messages, at).Some? && RunningAt(t.messages, at).Some?
    ensures LiveOf(RunningAt(t.messages, at).value) == LiveOf(RunningAt(s.messages, at).value)
  {
    if e.Compact? {
      CompactIs(s, e, ctx, t);
      CompactLeavesLive(s, e.summary, e.tailStartId, ctx, at);
    } else {
      ReduceKeepsMessagesOk(s, e, ctx, t);
      BulkStill(s, e, ctx, t);
      StillLeavesLive(s.messages, t.messages, at);
    }
  }

  lemma NoDelta(s: Session, e: Event, at: Location)
    requires !e.ToolOutputDelta?
    ensures DeltaFor(s, e, at).None?
  {
  }

  /** While a tool part keeps running, its live output grows by exactly the deltas addressed to it. */
  lemma LiveStep(s: Session, e: Event, ctx: Context, t: Session, at: Location)
    requires MessagesOk(s.messages) && Admissible(s, e, ctx) && Reduces(s, e, ctx, t)
    requires RunningAt(s.messages, at).Some? && RunningAt(t.messages, at).Some?
    ensures LiveOf(RunningAt(t.messages, at).value)
         == AfterDelta(LiveOf(RunningAt(s.messages, at).value), DeltaFor(s, e, at))
  {
    if e.ToolOutputDelta? {
      ToolOutputDeltaIs(s, e, ctx, t);
      DeltaAppends(s, e, at);
    } else {
      NoDelta(s, e, at);
      if IsBlockEvent(e) {
        BlockLeavesLive(s, e, ctx, t, at);
      } else if IsToolEvent(e) {
        ToolLeavesLive(s, e, ctx, t, at);
      } else if e.RecoveryNoticed? {
        RecoveryLeavesLive(s, e, ctx, t, at);
      } else {
        BulkEventLeavesLive(s, e, ctx, t, at);
      }
    }
  }
}
