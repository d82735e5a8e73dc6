/**
 Tool parts over time: results are final and never lost, whatever events follow, and an
 accepted execution end leaves no part of any Assistant message incomplete. Parts are
 followed by message id and part id.
 */
module ToolMachine {
  import opened Prelude
  import opened SessionTypes
  import opened Messages
  import opened Reducer
  import opened Steps
  import opened MessageIdentity
  import opened Correspondence

  /** Right after an accepted end, no Assistant message has an incomplete part. */
  lemma EndLeavesNothingIncomplete(s: Session, end: End, now: int)
    requires LifecycleAccepted(s, ExecutionEnd(end))
    ensures var t := OnLifecycle(s, ExecutionEnd(end), now);
      forall i, j :: 0 <= i < |t.messages| && 0 <= j < |PartsOf(t.messages[i])| ==>
        !IsIncomplete(PartsOf(t.messages[i])[j])
  {
    var t := OnLifecycle(s, ExecutionEnd(end), now);
    forall i, j | 0 <= i < |t.messages| && 0 <= j < |PartsOf(t.messages[i])|
      ensures !IsIncomplete(PartsOf(t.messages[i])[j])
    {
      EndedParts(s.messages, s.currentAssistantMessageId, end, i);
      SettledIsComplete(s.messages[i].parts[j], end.endedAt, !end.outcome.Completed?);
    }
  }

  lemma EndedParts(ms: seq<Message>, current: Option<string>, end: End, i: nat)
    requires i < |ms|
    ensures var n := EndedMessages(ms, current, end)[i];
      && |PartsOf(n)| == |PartsOf(ms[i])|
      && forall j :: 0 <= j < |PartsOf(ms[i])| ==>
           PartsOf(n)[j]
             == InterruptTool(SettlePart(PartsOf(ms[i])[j], end.endedAt, !end.outcome.Completed?), end.endedAt)
  {
  }

  lemma SettledIsComplete(p: Part, now: int, discard: bool)
    ensures !IsIncomplete(InterruptTool(SettlePart(p, now, discard), now))
  {
  }

  /* ---------- results are final ---------- */

  predicate ToolKeptIn(p: Part, after: seq<Part>) {
    var k := PartAt(after, p.id);
    k < |after| && SameIdentity(p, after[k])
  }

  /** Every tool part is still there, and a settled one with the same result. */
  ghost predicate ToolsKeptIn(m: Message, after: seq<Message>) {
    var k := MessageAt(after, m.id);
    && k < |after|
    && after[k].Assistant?
    && forall j :: 0 <= j < |PartsOf(m)| && PartsOf(m)[j].Tool? ==> ToolKeptIn(PartsOf(m)[j], after[k].parts)
  }

  ghost predicate ToolsKept(before: seq<Message>, after: seq<Message>) {
    forall i :: 0 <= i < |before| && before[i].Assistant? ==> ToolsKeptIn(before[i], after)
  }

  lemma ToolsKeptTransitive(a: seq<Message>, b: seq<Message>, c: seq<Message>)
    requires ToolsKept(a, b) && ToolsKept(b, c)
    ensures ToolsKept(a, c)
  {
    forall i | 0 <= i < |a| && a[i].Assistant?
      ensures ToolsKeptIn(a[i], c)
    {
      var k := MessageAt(b, a[i].id);
      assert ToolsKeptIn(a[i], b) && ToolsKeptIn(b[k], c);
      var l := MessageAt(c, b[k].id);
      forall j | 0 <= j < |PartsOf(a[i])| && PartsOf(a[i])[j].Tool?
        ensures ToolKeptIn(PartsOf(a[i])[j], c[l].parts)
      {
        var h := PartAt(b[k].parts, a[i].parts[j].id);
        assert ToolKeptIn(PartsOf(a[i])[j], b[k].parts);
        assert ToolKeptIn(PartsOf(b[k])[h], c[l].parts);
      }
    }
  }

  lemma MappedKeepsTools(before: seq<Part>, after: seq<Part>)
    requires PartsOk(after) && |after| == |before|
    requires forall j :: 0 <= j < |before| ==> SameIdentity(before[j], after[j])
    ensures forall j :: 0 <= j < |before| ==> ToolKeptIn(before[j], after)
  {
    forall j | 0 <= j < |before| ensures ToolKeptIn(before[j], after) {
      PartAtIs(after, j);
    }
  }

  lemma EditKeepsTools(parts: seq<Part>, edit: Edit)
    requires PartsOk(parts) && !edit.Keep? && (edit.Append? || edit.j < |parts|)
    requires edit.Append? ==> FitsAppend(parts, edit.part)
    requires edit.Replace? ==> SameIdentity(parts[edit.j], edit.part)
    requires edit.Remove? ==> parts[edit.j].Block?
    ensures forall j :: 0 <= j < |parts| && parts[j].Tool? ==> ToolKeptIn(parts[j], EditedParts(parts, edit))
  {
    EditKeepsPartsOk(parts, edit);
    forall j | 0 <= j < |parts| && parts[j].Tool?
      ensures ToolKeptIn(parts[j], EditedParts(parts, edit))
    {
      var k := if edit.Remove? && j > edit.j then j - 1 else j;
      ToolKeptAt(parts, edit, j, k);
    }
  }

  lemma ToolKeptAt(parts: seq<Part>, edit: Edit, j: nat, k: nat)
    requires !edit.Keep? && (edit.Append? || edit.j < |parts|) && PartsOk(EditedParts(parts, edit))
    requires edit.Replace? ==> SameIdentity(parts[edit.j], edit.part)
    requires edit.Remove? ==> edit.j != j
    requires j < |parts| && k == if edit.Remove? && j > edit.j then j - 1 else j
    ensures ToolKeptIn(parts[j], EditedParts(parts, edit))
  {
    var after := EditedParts(parts, edit);
    assert SameIdentity(parts[j], after[k]);
    PartAtIs(after, k);
  }

  lemma SameMessagesKeepTools(before: seq<Message>, after: seq<Message>)
    requires MessagesOk(before) && |after| == |before|
    requires forall i :: 0 <= i < |before| ==> SameMessage(before[i], after[i])
    ensures ToolsKept(before, after)
  {
    SameMessagesOk(before, after);
    forall i | 0 <= i < |before| && before[i].Assistant?
      ensures ToolsKeptIn(before[i], after)
    {
      assert SameMessage(before[i], after[i]);
      MessageAtIs(after, i);
      MappedKeepsTools(before[i].parts, after[i].parts);
    }
  }

  lemma EditKeepsAllTools(ms: seq<Message>, edit: Edit)
    requires MessagesOk(ms) && EditFits(ms, edit) && EditKeepsIdentity(ms, edit)
    ensures ToolsKept(ms, ApplyEdit(ms, edit))
  {
    var after := ApplyEdit(ms, edit);
    EditKeepsMessagesOk(ms, edit);
    forall i | 0 <= i < |ms| && ms[i].Assistant?
      ensures ToolsKeptIn(ms[i], after)
    {
      assert after[i].id == ms[i].id;
      MessageAtIs(after, i);
      if !edit.Keep? && i == edit.i {
        EditKeepsTools(ms[i].parts, edit);
      } else {
        forall j | 0 <= j < |ms[i].parts| ensures SameIdentity(ms[i].parts[j], ms[i].parts[j]) {}
        MappedKeepsTools(ms[i].parts, ms[i].parts);
      }
    }
  }

  lemma AppendedKeepTools(ms: seq<Message>, more: seq<Message>)
    requires MessagesOk(ms)
    ensures ToolsKept(ms, ms + more)
  {
    var after := ms + more;
    forall i | 0 <= i < |ms| && ms[i].Assistant?
      ensures ToolsKeptIn(ms[i], after)
    {
      var k := MessageAt(after, ms[i].id);
      assert after[i] == ms[i] && k <= i && after[k] == ms[k];
      assert k == i;
      forall j | 0 <= j < |ms[i].parts| ensures SameIdentity(ms[i].parts[j], ms[i].parts[j]) {}
      MappedKeepsTools(ms[i].parts, ms[i].parts);
    }
  }

  lemma InsertedKeepTools(front: seq<Message>, user: Message, back: seq<Message>)
    requires MessagesOk(front + back) && MessagesOk(front + [user] + back)
    ensures ToolsKept(front + back, front + [user] + back)
  {
    var before, after := front + back, front + [user] + back;
    forall i | 0 <= i < |before| && before[i].Assistant?
      ensures ToolsKeptIn(before[i], after)
    {
      var k := if i < |front| then i else i + 1;
      assert after[k] == before[i];
      MessageAtIs(after, k);
      forall j | 0 <= j < |before[i].parts| ensures SameIdentity(before[i].parts[j], before[i].parts[j]) {}
      MappedKeepsTools(before[i].parts, before[i].parts);
    }
  }

  lemma CompactKeepsTools(s: Session, summary: string, tailStartId: string, ctx: Context)
    requires MessagesOk(s.messages) && FreshContext(s, ctx)
    ensures ToolsKept(s.messages, Compacted(s.messages, summary, tailStartId, ctx))
  {
    var ms, upTo := s.messages, MessageAt(s.messages, tailStartId);
    var flagged := FlagUpTo(ms, upTo);
    var after := Compacted(ms, summary, tailStartId, ctx);
    CompactedOk(ms, summary, tailStartId, ctx);
    forall i | 0 <= i < |ms| ensures SameMessage(ms[i], flagged[i]) {}
    SameMessagesKeepTools(ms, flagged);
    SameMessagesOk(ms, flagged);
    if CompactionAt(ms) < |ms| {
      forall i | 0 <= i < |ms| ensures SameMessage(ms[i], after[i]) {}
      SameMessagesKeepTools(ms, after);
    } else {
      assert flagged == flagged[..upTo] + flagged[upTo..];
      InsertedKeepTools(flagged[..upTo], CompactionMessage(summary, tailStartId, ctx), flagged[upTo..]);
      ToolsKeptTransitive(ms, flagged, after);
    }
  }

  lemma EndKeepsTools(ms: seq<Message>, current: Option<string>, end: End)
    requires MessagesOk(ms)
    ensures ToolsKept(ms, EndedMessages(ms, current, end))
  {
    EndedSame(ms, current, end);
    SameMessagesKeepTools(ms, EndedMessages(ms, current, end));
  }

  lemma StepEndKeepsTools(ms: seq<Message>, stepId: string, finishReason: string, now: int)
    requires MessagesOk(ms)
    ensures ToolsKept(ms, StepEndMessages(ms, stepId, finishReason, now))
  {
    StepEndSame(ms, stepId, finishReason, now);
    SameMessagesKeepTools(ms, StepEndMessages(ms, stepId, finishReason, now));
  }

  lemma UnchangedKeepsTools(ms: seq<Message>)
    requires MessagesOk(ms)
    ensures ToolsKept(ms, ms)
  {
    AppendedKeepTools(ms, []);
    assert ms + [] == ms;
  }

  /** An event that only adds messages at the end. */
  lemma GrowingKeepsTools(ms: seq<Message>, after: seq<Message>)
    requires MessagesOk(ms) && |after| >= |ms| && after[..|ms|] == ms
    ensures ToolsKept(ms, after)
  {
    AppendedKeepTools(ms, after[|ms|..]);
    assert after == ms + after[|ms|..];
  }

  lemma LifecycleKeepsTools(s: Session, e: LifecycleEvent, now: int)
    requires MessagesOk(s.messages)
    ensures ToolsKept(s.messages, OnLifecycle(s, e, now).messages)
  {
    UnchangedKeepsTools(s.messages);
    if e.ExecutionEnd? {
      EndKeepsTools(s.messages, s.currentAssistantMessageId, e.end);
    }
  }

  lemma PartEventKeepsTools(s: Session, e: Event, ctx: Context, t: Session)
    requires MessagesOk(s.messages) && FreshContext(s, ctx) && IsPartEvent(e) && Reduces(s, e, ctx, t)
    ensures ToolsKept(s.messages, t.messages)
  {
    var edit := PartEventIsEdit(s, e, ctx, t);
    EditKeepsAllTools(s.messages, edit);
  }

  lemma StepEventKeepsTools(s: Session, e: Event, ctx: Context, t: Session)
    requires MessagesOk(s.messages) && Reduces(s, e, ctx, t) && (e.StepStart? || e.StepEnd? || e.ExecutionError?)
    ensures ToolsKept(s.messages, t.messages)
  {
    UnchangedKeepsTools(s.messages);
    if e.StepStart? {
      StepStartIs(s, e, ctx, t);
      GrowingKeepsTools(s.messages, t.messages);
    } else if e.StepEnd? {
      StepEndIs(s, e, ctx, t);
      StepEndKeepsTools(s.messages, e.stepId, e.finishReason, ctx.now);
    } else {
      ErrorIs(s, e, ctx, t);
    }
  }

  lemma MessageEventKeepsTools(s: Session, e: Event, ctx: Context, t: Session)
    requires MessagesOk(s.messages) && Admissible(s, e, ctx) && Reduces(s, e, ctx, t)
    requires e.MessagesCommitted? || e.SystemNotice? || e.Compact?
    ensures ToolsKept(s.messages, t.messages)
  {
    if e.MessagesCommitted? {
      CommitIs(s, e, ctx, t);
      AppendedKeepTools(s.messages, NewMessages(e.committed, Ids(s.messages)));
    } else if e.SystemNotice? {
      NoticeIs(s, e, ctx, t);
      AppendedKeepTools(s.messages, [NoticeMessage(s, e.notice, ctx)]);
    } else {
      CompactIs(s, e, ctx, t);
      CompactKeepsTools(s, e.summary, e.tailStartId, ctx);
    }
  }

  lemma RecordEventKeepsTools(s: Session, e: Event, ctx: Context, t: Session)
    requires MessagesOk(s.messages) && Reduces(s, e, ctx, t) && (e.Lifecycle? || e.StopRequested? || IsQuietEvent(e))
    ensures ToolsKept(s.messages, t.messages)
  {
    UnchangedKeepsTools(s.messages);
    if e.Lifecycle? {
      LifecycleIs(s, e, ctx, t);
      LifecycleKeepsTools(s, e.lifecycle, ctx.now);
    } else if e.StopRequested? {
      StopIs(s, e, ctx, t);
    } else {
      QuietIs(s, e, ctx, t);
    }
  }

  /** No event removes a tool part or changes a result. */
  lemma ReduceKeepsTools(s: Session, e: Event, ctx: Context, t: Session)
    requires MessagesOk(s.messages) && Admissible(s, e, ctx) && Reduces(s, e, ctx, t)
    ensures ToolsKept(s.messages, t.messages)
  {
    if IsPartEvent(e) {
      PartEventKeepsTools(s, e, ctx, t);
    } else if e.StepStart? || e.StepEnd? || e.ExecutionError? {
      StepEventKeepsTools(s, e, ctx, t);
    } else if e.MessagesCommitted? || e.SystemNotice? || e.Compact? {
      MessageEventKeepsTools(s, e, ctx, t);
    } else {
      RecordEventKeepsTools(s, e, ctx, t);
    }
  }
}
