/**
 What a tool call, a step, an execution or a queued message looks like once all of its
 events have been taken in: exactly what the events said.
 */
module RoundTrips {
  import opened Prelude
  import opened SessionTypes
  import opened ExecutionLifecycle
  import opened Messages
  import opened Reducer
  import opened PartEvents
  import opened MessageIdentity
  import opened Inputs

  /* ---------- tool calls ---------- */

  /** Announced, called, its input resolved, and settled: the part carries the last input, all times, and the result. */
  lemma CallSettlesAsSent(
    s: Session, callId: string, toolName: string, input: Snapshot, resolved: Snapshot, announced: Context,
    called: Context, settledAt: int, result: ToolResult) returns (i: nat)
    requires MessagesOk(s.messages) && FreshContext(s, announced)
    requires EnsureCurrentAssistant(s).Ensured?
    requires FindCurrentTool(s.messages, s.currentAssistantMessageId, callId).None?
    ensures OnToolInputStart(s, callId, toolName, announced).Next?
    ensures var s1 := OnToolInputStart(s, callId, toolName, announced).session;
      && OnToolCall(s1, callId, toolName, Some(input), called).Next?
      && var s2 := OnToolCall(s1, callId, toolName, Some(input), called).session;
         var s3 := OnToolResult(OnToolInputResolved(s2, callId, Some(resolved)), callId, settledAt, result);
         && i < |s.messages| && s.messages[i].Assistant? && s.currentAssistantMessageId == Some(s.messages[i].id)
         && s3.messages == s.messages[i := s.messages[i].(parts := s.messages[i].parts + [
              Tool(Generated(announced.partId), callId, toolName, announced.now, None,
                   ToolSettled(resolved, called.now, settledAt, result))])]
         && s3.stats == CountToolResult(CountToolCall(CountFirstContent(s.stats, s.messages[i])), result.isError)
  {
    OkIsAddressable(s.messages);
    i := EnsuredIs(s);
    var s1 := CallAnnounced(s, callId, toolName, announced, i);
    var s2 := CallMade(s, s1, callId, toolName, input, announced, called, i);
    CallResolved(s, s2, callId, toolName, input, resolved, announced, called, i);
    CallSettled(s, OnToolInputResolved(s2, callId, Some(resolved)), callId, toolName, resolved, announced, called,
      settledAt, result, i);
  }

  /** The message list with the tool part of this call, in some state, at the end of message `i`. */
  function WithCall(ms: seq<Message>, i: nat, p: Part): seq<Message>
    requires i < |ms| && ms[i].Assistant?
  {
    ms[i := ms[i].(parts := ms[i].parts + [p])]
  }

  lemma WithCallOk(ms: seq<Message>, i: nat, p: Part)
    requires MessagesOk(ms) && i < |ms| && ms[i].Assistant? && FitsAppend(ms[i].parts, p)
    ensures MessagesOk(WithCall(ms, i, p))
  {
    EditKeepsMessagesOk(ms, Append(i, p));
  }

  lemma CallAnnounced(s: Session, callId: string, toolName: string, ctx: Context, i: nat) returns (t: Session)
    requires MessagesOk(s.messages) && FreshContext(s, ctx) && EnsureCurrentAssistant(s).Ensured?
    requires FindCurrentTool(s.messages, s.currentAssistantMessageId, callId).None?
    requires i < |s.messages| && s.messages[i].Assistant? && s.currentAssistantMessageId == Some(s.messages[i].id)
    requires EnsureCurrentAssistant(s) == Ensured(s.messages[i].id, CountFirstContent(s.stats, s.messages[i]))
    ensures OnToolInputStart(s, callId, toolName, ctx) == Next(t)
    ensures var p := Tool(Generated(ctx.partId), callId, toolName, ctx.now, None, ToolPending);
      && t == s.(messages := WithCall(s.messages, i, p), stats := CountFirstContent(s.stats, s.messages[i]))
      && FitsAppend(s.messages[i].parts, p)
  {
    var p := Tool(Generated(ctx.partId), callId, toolName, ctx.now, None, ToolPending);
    MessageAtIs(s.messages, i);
    AppendIsAppend(s.messages, i, p);
    t := OnToolInputStart(s, callId, toolName, ctx).session;
  }

  /** Finding the one call that sits at the end of the current message. */
  lemma CallFound(ms: seq<Message>, current: Option<string>, i: nat, p: Part)
    requires MessagesOk(ms) && i < |ms| && ms[i].Assistant? && FitsAppend(ms[i].parts, p) && p.Tool?
    requires current == Some(ms[i].id)
    ensures var all := WithCall(ms, i, p);
      && FindCurrentTool(all, current, p.toolCallId) == Some(Location(ms[i].id, p.id))
      && GetTool(all, Location(ms[i].id, p.id)) == Some(p)
  {
    var all := WithCall(ms, i, p);
    WithCallOk(ms, i, p);
    OkIsAddressable(all);
    MessageAtIs(all, i);
    var n := |ms[i].parts|;
    assert all[i].parts[n] == p;
    GetPartIs(all, i, n);
    assert ToolAt(all[i].parts, p.toolCallId) == n;
  }

  /** Updating that call replaces it. */
  lemma CallUpdated(ms: seq<Message>, i: nat, p: Part, f: Part -> Part)
    requires MessagesOk(ms) && i < |ms| && ms[i].Assistant? && FitsAppend(ms[i].parts, p)
    ensures UpdatePart(WithCall(ms, i, p), Location(ms[i].id, p.id), f) == WithCall(ms, i, f(p))
  {
    var all := WithCall(ms, i, p);
    WithCallOk(ms, i, p);
    OkIsAddressable(all);
    var n := |ms[i].parts|;
    assert all[i].parts[n] == p;
    UpdateIsReplace(all, i, n, f);
    assert (ms[i].parts + [p])[n := f(p)] == ms[i].parts + [f(p)];
  }

  lemma CallMade(
    s: Session, s1: Session, callId: string, toolName: string, input: Snapshot, announced: Context, called: Context,
    i: nat) returns (t: Session)
    requires MessagesOk(s.messages) && i < |s.messages| && s.messages[i].Assistant?
    requires s.currentAssistantMessageId == s1.currentAssistantMessageId == Some(s.messages[i].id)
    requires var p := Tool(Generated(announced.partId), callId, toolName, announced.now, None, ToolPending);
      FitsAppend(s.messages[i].parts, p) && s1.messages == WithCall(s.messages, i, p)
    ensures OnToolCall(s1, callId, toolName, Some(input), called) == Next(t)
    ensures t == s1.(
      messages := WithCall(s.messages, i, Tool(Generated(announced.partId), callId, toolName, announced.now, None,
                                               ToolRunning(input, called.now, None))),
      stats := CountToolCall(s1.stats))
  {
    var p := Tool(Generated(announced.partId), callId, toolName, announced.now, None, ToolPending);
    CallFound(s.messages, s1.currentAssistantMessageId, i, p);
    var now := called.now;
    CallUpdated(s.messages, i, p, (q: Part) => if q.Tool? then ToRunning(q, input, now) else q);
    t := OnToolCall(s1, callId, toolName, Some(input), called).session;
  }

  lemma CallResolved(
    s: Session, s2: Session, callId: string, toolName: string, input: Snapshot, resolved: Snapshot,
    announced: Context, called: Context, i: nat)
    requires MessagesOk(s.messages) && i < |s.messages| && s.messages[i].Assistant?
    requires s2.currentAssistantMessageId == Some(s.messages[i].id)
    requires var p := Tool(Generated(announced.partId), callId, toolName, announced.now, None,
      ToolRunning(input, called.now, None));
      FitsAppend(s.messages[i].parts, p) && s2.messages == WithCall(s.messages, i, p)
    ensures OnToolInputResolved(s2, callId, Some(resolved)) == s2.(
      messages := WithCall(s.messages, i, Tool(Generated(announced.partId), callId, toolName, announced.now, None,
                                               ToolRunning(resolved, called.now, None))))
  {
    var p := Tool(Generated(announced.partId), callId, toolName, announced.now, None,
      ToolRunning(input, called.now, None));
    CallFound(s.messages, s2.currentAssistantMessageId, i, p);
    CallUpdated(s.messages, i, p, (q: Part) => if q.Tool? then WithInput(q, resolved) else q);
  }

  lemma CallSettled(
    s: Session, s2: Session, callId: string, toolName: string, input: Snapshot, announced: Context, called: Context,
    settledAt: int, result: ToolResult, i: nat)
    requires MessagesOk(s.messages) && i < |s.messages| && s.messages[i].Assistant?
    requires s2.currentAssistantMessageId == Some(s.messages[i].id)
    requires var p := Tool(Generated(announced.partId), callId, toolName, announced.now, None,
      ToolRunning(input, called.now, None));
      FitsAppend(s.messages[i].parts, p) && s2.messages == WithCall(s.messages, i, p)
    ensures OnToolResult(s2, callId, settledAt, result) == s2.(
      messages := WithCall(s.messages, i, Tool(Generated(announced.partId), callId, toolName, announced.now, None,
                                               ToolSettled(input, called.now, settledAt, result))),
      stats := CountToolResult(s2.stats, result.isError))
  {
    var p := Tool(Generated(announced.partId), callId, toolName, announced.now, None,
      ToolRunning(input, called.now, None));
    CallFound(s.messages, s2.currentAssistantMessageId, i, p);
    CallUpdated(s.messages, i, p, (q: Part) => if q.Tool? then ToSettled(q, result, settledAt) else q);
  }

  /* ---------- recovery notices ---------- */

  /** Two recovery events about the same thing leave one notice, with the first's identity and the second's outcome. */
  lemma RetryThenOutcome(
    s: Session, i: nat, retry: RecoveryEvent, first: Context, outcome: RecoveryEvent, second: Context)
    requires MessagesOk(s.messages) && FreshContext(s, first)
    requires !retry.isInternal && retry.kind.Retry? && !outcome.isInternal && !outcome.kind.Retry?
    requires RecoveryPartId(retry, first) == RecoveryPartId(outcome, second)
    requires RecoveryTarget(s, retry.stepId) == RecoveryTarget(s, outcome.stepId) == i < |s.messages|
    requires outcome.stepId == retry.stepId
    requires s.messages[i].Assistant?
    requires !HasRecovery(s.messages[i], s.messages[i].id, RecoveryPartId(retry, first))
    ensures var t := OnRecovery(OnRecovery(s, retry, first), outcome, second);
      var failed := outcome.kind.GiveUp?;
      t.messages == WithCall(s.messages, i, Recovery(
        RecoveryPartId(retry, first), if failed then RecoveryFailed else Recovered,
        outcome.message, outcome.attemptNumber,
        None, if outcome.errorKind.Some? then outcome.errorKind else retry.errorKind,
        if failed then outcome.statusCode else None, first.now, Some(second.now)))
  {
    var p := RecoveryPart(retry, first);
    var next := RecoveryPart(outcome, second);
    NoticeAppended(s.messages, i, p, retry, first);
    var s1 := OnRecovery(s, retry, first);
    assert s1.messages == WithCall(s.messages, i, p);
    SameTarget(s, s1, i, p, outcome.stepId);
    assert s1.messages[i].parts[|s.messages[i].parts|] == p;
    assert HasRecovery(s1.messages[i], s.messages[i].id, next.id);
    CallUpdated(s.messages, i, p, (q: Part) => MergeRecovery(q, next));
  }

  lemma NoticeAppended(ms: seq<Message>, i: nat, p: Part, r: RecoveryEvent, ctx: Context)
    requires MessagesOk(ms) && i < |ms| && ms[i].Assistant? && p == RecoveryPart(r, ctx)
    requires forall k :: 0 <= k < |ms| && ms[k].Assistant? ==> FreshPart(ms[k].parts, ctx.partId)
    requires !HasRecovery(ms[i], ms[i].id, p.id)
    ensures UpsertRecovery(ms, ms[i].id, p) == WithCall(ms, i, p)
    ensures FitsAppend(ms[i].parts, p)
  {
    forall k | 0 <= k < |ms| ensures !HasRecovery(ms[k], ms[i].id, p.id) {}
    AppendIsAppend(ms, i, p);
    RecoveryFits(ms[i].parts, r, ctx);
  }

  /** Appending a part does not move the message recovery events are addressed to. */
  lemma SameTarget(s: Session, t: Session, i: nat, p: Part, stepId: Option<string>)
    requires i < |s.messages| && s.messages[i].Assistant? && RecoveryTarget(s, stepId) == i
    requires t.messages == WithCall(s.messages, i, p) && t.currentAssistantMessageId == s.currentAssistantMessageId
    ensures RecoveryTarget(t, stepId) == i
  {
    var all := t.messages;
    assert forall k :: 0 <= k < |all| ==>
      all[k].id == s.messages[k].id && (all[k].Assistant? <==> s.messages[k].Assistant?);
    if stepId.Some? {
      assert forall k :: 0 <= k < |all| ==>
        (IsStepMessage(all[k], stepId.value) <==> IsStepMessage(s.messages[k], stepId.value));
      var k := StepMessageAt(s.messages, stepId.value);
      assert StepMessageAt(all, stepId.value) == k;
      if k < |all| {
        SameAssistantAt(s.messages, all, s.messages[k].id);
      }
    } else if s.currentAssistantMessageId.Some? {
      SameAssistantAt(s.messages, all, s.currentAssistantMessageId.value);
    }
  }

  lemma SameAssistantAt(before: seq<Message>, after: seq<Message>, id: string)
    requires |after| == |before|
    requires forall k :: 0 <= k < |before| ==>
      after[k].id == before[k].id && (after[k].Assistant? <==> before[k].Assistant?)
    ensures AssistantAt(after, id) == AssistantAt(before, id)
  {
  }

  /* ---------- steps ---------- */

  /** Started and ended: the step record carries both events, and its message is completed. */
  lemma StepRecordsBothEnds(
    s: Session, stepId: string, number: int, started: Context, finishReason: string, usage: Usage, endedAt: int)
    requires CurrentRun(s).Some?
    requires forall k :: 0 <= k < |s.steps| ==> s.steps[k].id != stepId
    requires forall i :: 0 <= i < |s.messages| ==> !IsStepMessage(s.messages[i], stepId)
    ensures var run := CurrentRun(s).value;
      var t := OnStepEnd(OnStepStart(s, stepId, number, started), stepId, number, finishReason, usage, endedAt);
      && t.steps == s.steps
           + [Step(stepId, number, run.0, run.1, started.now, Some(endedAt), finishReason, Some(usage), None)]
      && t.messages == s.messages
           + [Assistant(started.messageId, [], started.now, Some(endedAt), run.0, run.1, stepId, Commentary, false)]
      && t.currentAssistantMessageId == Some(started.messageId)
      && !t.isStreamingModel
  {
    var run := CurrentRun(s).value;
    var s1 := OnStepStart(s, stepId, number, started);
    assert CurrentRun(s1) == Some(run);
    assert EndsHere(s1.steps[|s.steps|], stepId, number, run);
    var t := OnStepEnd(s1, stepId, number, finishReason, usage, endedAt);
    assert t.steps == EndSteps(s1.steps, stepId, number, run, finishReason, usage, endedAt);
    NewMessageEnds(s.messages, s1.messages[|s.messages|], stepId, finishReason, endedAt);
  }

  lemma NewMessageEnds(ms: seq<Message>, m: Message, stepId: string, finishReason: string, now: int)
    requires IsStepMessage(m, stepId) && m.parts == [] && m.completedAt.None?
    requires forall i :: 0 <= i < |ms| ==> !IsStepMessage(ms[i], stepId)
    ensures StepEndMessages(ms + [m], stepId, finishReason, now) == ms + [m.(completedAt := Some(now))]
  {
    var after := StepEndMessages(ms + [m], stepId, finishReason, now);
    forall i | 0 <= i < |ms| ensures after[i] == ms[i] {
      assert (ms + [m])[i] == ms[i];
    }
    assert (ms + [m])[|ms|] == m;
    assert after[|ms|].parts == [];
  }

  /* ---------- executions ---------- */

  /** The history of two runs, with what each of its events does to the last of the records. */
  datatype TwoRuns = TwoRuns(
    start: Start, startedAt: int, suspension: Suspension, firstEnd: int, firstUsage: Usage,
    firstSettlement: SettlementInput, readyAt: int, binding: Snapshot, resumedAt: int, end: End)

  /** What the validators ask of such a history. */
  predicate IsHistory(h: TwoRuns) {
    && !h.suspension.ResumePending? && h.firstEnd >= h.startedAt
    && h.end.executionId == h.start.executionId
    && h.end.runEndedAt.Some? && h.end.runUsageDelta.Some? && h.end.runSettlement.Some?
    && h.end.endedAt >= h.end.runEndedAt.value >= h.resumedAt
    && (h.end.finalOutputStepId.Some? ==> h.end.outcome.Completed?)
  }

  function HistoryEvents(h: TwoRuns): seq<(LifecycleEvent, int)> {
    var id := h.start.executionId;
    [(ExecutionStart(h.start), h.startedAt),
     (ExecutionSuspended(id, h.suspension, h.firstEnd, h.firstUsage, h.firstSettlement), h.firstEnd),
     (SuspensionUpdated(id, ResumePending(h.suspension.toolBatchId, h.readyAt)), h.readyAt),
     (ExecutionResumed(id, 1, h.binding), h.resumedAt),
     (ExecutionEnd(h.end), h.end.endedAt)]
  }

  /** The record both runs leave behind. */
  function FinalRecord(h: TwoRuns): Execution
    requires IsHistory(h)
  {
    NewExecution(h.start, h.startedAt).(
      durationMs := (h.firstEnd - h.startedAt) + (h.end.runEndedAt.value - h.resumedAt),
      runs := [
        ExecutionRun(0, h.startedAt, h.start.binding,
          Some(RunClose(h.firstEnd, h.firstEnd - h.startedAt, h.firstUsage, Settlement(h.firstSettlement, None)))),
        ExecutionRun(1, h.resumedAt, h.binding,
          Some(RunClose(h.end.runEndedAt.value, h.end.runEndedAt.value - h.resumedAt, h.end.runUsageDelta.value,
                        Settlement(h.end.runSettlement.value, None))))],
      status := Terminal(h.end.outcome, h.end.endedAt, h.end.finalOutputStepId, h.end.error,
                         Settlement(h.end.terminalSettlement, None)))
  }

  /** The records after a sequence of events at their times, if every one of them was valid. */
  function Replay(xs: seq<Execution>, events: seq<(LifecycleEvent, int)>): Option<seq<Execution>>
    decreases |events|
  {
    if events == [] then Some(xs)
    else if !Validate(xs, events[0].0).Valid? then None
    else Replay(Apply(xs, events[0].0, events[0].1), events[1..])
  }

  /** An event that names the last record is validated against it and replaces it. */
  lemma LastRecord(xs: seq<Execution>, x: Execution, e: LifecycleEvent, now: int)
    requires Find(xs, x.id) == |xs| && x.id == LifecycleId(e) && !e.ExecutionStart?
    ensures Validate(xs + [x], e) == ValidateOne(x, e)
    ensures Apply(xs + [x], e, now) == xs + [ApplyOne(x, e, now)]
  {
    var all, after := xs + [x], xs + [ApplyOne(x, e, now)];
    assert all[|xs|] == x;
    FindAt(all, x.id, |xs|);
    ValidateIsOne(all, e);
    forall i | 0 <= i < |all| ensures Apply(all, e, now)[i] == after[i] {
      ApplyIsOne(all, e, now, i);
      if i < |xs| {
        assert all[i] == xs[i];
        OneElsewhere(xs[i], e, now);
      }
    }
  }

  /** The five records, one after each event. */
  lemma RecordAfterEach(h: TwoRuns) returns (x0: Execution, x1: Execution, x2: Execution, x3: Execution)
    requires IsHistory(h)
    ensures var es := HistoryEvents(h);
      && x0 == NewExecution(h.start, h.startedAt)
      && x0.id == x1.id == x2.id == x3.id == h.start.executionId
      && ValidateOne(x0, es[1].0).Valid? && x1 == ApplyOne(x0, es[1].0, es[1].1)
      && ValidateOne(x1, es[2].0).Valid? && x2 == ApplyOne(x1, es[2].0, es[2].1)
      && ValidateOne(x2, es[3].0).Valid? && x3 == ApplyOne(x2, es[3].0, es[3].1)
      && ValidateOne(x3, es[4].0).Valid? && FinalRecord(h) == ApplyOne(x3, es[4].0, es[4].1)
  {
    var es := HistoryEvents(h);
    x0 := NewExecution(h.start, h.startedAt);
    x1 := ApplyOne(x0, es[1].0, es[1].1);
    x2 := ApplyOne(x1, es[2].0, es[2].1);
    x3 := ApplyOne(x2, es[3].0, es[3].1);
  }

  lemma ReplayStep(xs: seq<Execution>, x: Execution, events: seq<(LifecycleEvent, int)>)
    requires Find(xs, x.id) == |xs| && events != [] && !events[0].0.ExecutionStart?
    requires x.id == LifecycleId(events[0].0) && ValidateOne(x, events[0].0).Valid?
    ensures Replay(xs + [x], events) == Replay(xs + [ApplyOne(x, events[0].0, events[0].1)], events[1..])
  {
    LastRecord(xs, x, events[0].0, events[0].1);
  }

  /** Two runs of a new execution, after any earlier ones: every event is valid, and the record holds what they said. */
  lemma {:induction false} ExecutionRecordsItsRuns(xs: seq<Execution>, h: TwoRuns)
    requires IsHistory(h) && Find(xs, h.start.executionId) == |xs|
    requires forall k :: 0 <= k < |xs| ==> xs[k].status.Terminal?
    ensures Replay(xs, HistoryEvents(h)) == Some(xs + [FinalRecord(h)])
  {
    var es := HistoryEvents(h);
    var x0, x1, x2, x3 := RecordAfterEach(h);
    assert Replay(xs, es) == Replay(xs + [x0], es[1..]);
    ReplayStep(xs, x0, es[1..]);
    ReplayStep(xs, x1, es[2..]);
    ReplayStep(xs, x2, es[3..]);
    ReplayStep(xs, x3, es[4..]);
  }

  /* ---------- queued messages ---------- */

  /** Accepted, edited and committed: the queue is as before, and the message is canonical and counted. */
  lemma QueuedThenCommitted(s: Session, accepted: PendingMessage, edited: PendingMessage, committed: Message)
    requires QueueOk(s) && accepted.id == edited.id == committed.id
    requires accepted.id !in Ids(s.messages) && accepted.id !in PendingIds(s.pending)
    ensures var queued := s.(pending := ReplacePending(s.pending + [accepted], edited));
      && queued.pending == s.pending + [edited]
      && OnMessagesCommitted(queued, [committed])
         == s.(messages := s.messages + [committed], stats := CountUserMessages(s.stats, 1))
  {
    var pending := ReplacePending(s.pending + [accepted], edited);
    forall i | 0 <= i < |s.pending| ensures pending[i] == s.pending[i] {
      assert s.pending[i].id in PendingIds(s.pending);
    }
    assert pending == s.pending + [edited];
    PendingWithoutLast(s.pending, edited, {committed.id});
    assert Ids([committed]) == {committed.id};
    assert NewMessages([committed], Ids(s.messages)) == [committed] + NewMessages([], Ids(s.messages));
  }

  lemma {:induction false} PendingWithoutLast(pending: seq<PendingMessage>, last: PendingMessage, ids: set<string>)
    requires PendingIds(pending) !! ids && last.id in ids
    ensures PendingWithout(pending + [last], ids) == pending
  {
    if pending != [] {
      assert pending[0] in pending && pending[0].id in PendingIds(pending);
      assert forall p :: p in pending[1..] ==> p in pending;
      assert (pending + [last])[1..] == pending[1..] + [last];
      PendingWithoutLast(pending[1..], last, ids);
    }
  }
}
