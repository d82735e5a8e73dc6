/**
 What some events decide for good: an interrupted step never yields the final answer, output
 open at an execution's end is trusted by its outcome, and stop requests add up to the latest.
 */
module Outcomes {
  import opened Prelude
  import opened SessionTypes
  import opened ExecutionLifecycle
  import opened Messages
  import opened Reducer
  import opened Steps
  import opened MessageIdentity
  import opened Correspondence
  import opened FinalAnswer
  import opened Blocks
  import opened Runs

  /* ---------- interrupted steps ---------- */

  predicate IsInterruption(finishReason: string) {
    finishReason == "interrupted" || finishReason == "error"
  }

  /** All text is complete, and marked interrupted and discarded. */
  ghost predicate TextDiscarded(parts: seq<Part>) {
    forall j :: 0 <= j < |parts| && parts[j].Block? && parts[j].text != [] ==>
      parts[j].completedAt.Some? && parts[j].interrupted && parts[j].discarded
  }

  lemma DiscardedIsUntrusted(parts: seq<Part>)
    requires TextDiscarded(parts)
    ensures !TrustedOutput(parts)
  {
  }

  ghost predicate TextKept(before: seq<Part>, after: seq<Part>) {
    && |after| == |before|
    && forall j :: 0 <= j < |before| && before[j].Block? ==> after[j].Block? && after[j].text == before[j].text
  }

  lemma InterruptionDiscards(ms: seq<Message>, i: nat, stepId: string, finishReason: string, now: int)
    requires i < |ms| && IsStepMessage(ms[i], stepId) && IsInterruption(finishReason)
    ensures var n := StepEndMessages(ms, stepId, finishReason, now)[i];
      && IsStepMessage(n, stepId) && n.completedAt.Some?
      && TextKept(ms[i].parts, n.parts) && TextDiscarded(n.parts)
  {
    var before, after := ms[i].parts, StepEndMessages(ms, stepId, finishReason, now)[i].parts;
    forall j | 0 <= j < |before| ensures after[j] == InterruptBlock(before[j], now) {}
  }

  /** After an accepted end that interrupts a step, the step's message holds the same text, all of it discarded. */
  lemma InterruptedStepDiscards(s: Session, e: Event, ctx: Context, t: Session, i: nat)
    requires Reduces(s, e, ctx, t) && e.StepEnd? && StepEndAccepted(s, e.stepId, e.number)
    requires IsInterruption(e.finishReason) && i < |s.messages| && IsStepMessage(s.messages[i], e.stepId)
    ensures |t.messages| == |s.messages| && IsStepMessage(t.messages[i], e.stepId) && t.messages[i].completedAt.Some?
    ensures TextKept(s.messages[i].parts, t.messages[i].parts)
    ensures TextDiscarded(t.messages[i].parts) && !TrustedOutput(t.messages[i].parts)
  {
    StepEndIs(s, e, ctx, t);
    InterruptionDiscards(s.messages, i, e.stepId, e.finishReason, ctx.now);
    DiscardedIsUntrusted(t.messages[i].parts);
  }

  /** An accepted end records its finish reason in the one step it names. */
  lemma StepEndRecords(s: Session, e: Event, ctx: Context, t: Session) returns (k: nat)
    requires Coherent(s) && Reduces(s, e, ctx, t) && e.StepEnd? && StepEndAccepted(s, e.stepId, e.number)
    ensures k < |t.steps| && t.steps[k].id == e.stepId
    ensures t.steps[k].completedAt == Some(ctx.now) && t.steps[k].finishReason == e.finishReason
  {
    StepEndIs(s, e, ctx, t);
    k :| 0 <= k < |s.steps| && EndsHere(s.steps[k], e.stepId, e.number, CurrentRun(s).value);
  }

  /** A step completed for another reason than a stop of the model has no final answer. */
  lemma NotStoppedNotFinal(s: Session, k: nat, i: nat)
    requires Coherent(s) && FinalOk(s) && k < |s.steps| && s.steps[k].finishReason != "stop"
    requires i < |s.messages| && IsStepMessage(s.messages[i], s.steps[k].id)
    ensures !s.messages[i].phase.FinalAnswer?
  {
    var m := s.messages[i];
    if m.phase.FinalAnswer? {
      assert Selects(s.executions, m.executionId, m.stepId);
      assert LastStopped(s.steps, m.executionId, m.stepId);
      SameStepIndex(s.steps, LastStepOf(s.steps, m.executionId), k);
    }
  }

  /** Once a step ended other than by a stop of the model, no later projection of any run has it as a final answer. */
  lemma NeverFinalAnswer(s: Session, e: Event, ctx: Context, t: Session, inputs: seq<Input>, i: nat)
    requires SessionOk(s) && Admissible(s, e, ctx) && Reduces(s, e, ctx, t)
    requires e.StepEnd? && StepEndAccepted(s, e.stepId, e.number) && e.finishReason != "stop"
    requires AdmissibleRun(t, inputs)
    requires i < |Run(t, inputs).messages| && IsStepMessage(Run(t, inputs).messages[i], e.stepId)
    ensures !Run(t, inputs).messages[i].phase.FinalAnswer?
  {
    MoveKeepsOk(s, Input(e, ctx), t);
    var k := StepEndRecords(s, e, ctx, t);
    RunRemembers(t, inputs);
    RunKeepsOk(t, inputs);
    assert StepContinues(t.steps[k], Run(t, inputs).steps[k]);
    NotStoppedNotFinal(Run(t, inputs), k, i);
  }

  /* ---------- open output ---------- */

  /** What becomes of a block that is still open. */
  predicate ClosedByEnd(p: Part, q: Part, end: End) {
    && p.Block? && q.Block?
    && q == p.(completedAt := Some(end.endedAt), interrupted := q.interrupted, discarded := q.discarded)
    && (IsTrustedOutput(q) <==> end.outcome.Completed?)
  }

  predicate IsOpenBlock(p: Part) {
    p.Block? && p.completedAt.None? && !p.interrupted && !p.discarded
  }

  lemma OpenBlockSettles(ms: seq<Message>, current: Option<string>, end: End, i: nat, j: nat)
    requires i < |ms| && ms[i].Assistant? && j < |ms[i].parts| && IsOpenBlock(ms[i].parts[j])
    ensures var n := EndedMessages(ms, current, end)[i];
      n.Assistant? && j < |n.parts| && ClosedByEnd(ms[i].parts[j], n.parts[j], end)
  {
    EndedAt(ms, current, end, i);
    var m := SettleMessage(ms[i], current, end.endedAt, !end.outcome.Completed?);
    assert m.parts[j] == SettlePart(ms[i].parts[j], end.endedAt, !end.outcome.Completed?);
    assert EndedMessages(ms, current, end)[i].parts[j] == InterruptTool(m.parts[j], end.endedAt);
  }

  /**
   An accepted end completes every open block of the conversation at its own time and keeps
   its text; the text is trusted afterwards exactly when the execution completed.
   */
  lemma OpenBlockAtEnd(s: Session, end: End, ctx: Context, t: Session, i: nat, j: nat)
    requires Reduces(s, Lifecycle(ExecutionEnd(end)), ctx, t) && LifecycleAccepted(s, ExecutionEnd(end))
    requires i < |s.messages| && s.messages[i].Assistant? && j < |s.messages[i].parts|
    requires IsOpenBlock(s.messages[i].parts[j])
    ensures i < |t.messages| && t.messages[i].Assistant? && j < |t.messages[i].parts|
    ensures ClosedByEnd(s.messages[i].parts[j], t.messages[i].parts[j], end)
  {
    LifecycleIs(s, Lifecycle(ExecutionEnd(end)), ctx, t);
    OpenBlockSettles(s.messages, s.currentAssistantMessageId, end, i, j);
  }

  /* ---------- stop requests ---------- */

  predicate StopFor(input: Input, id: string) {
    input.event.StopRequested? && input.event.executionId == id
  }

  predicate IsStopTime(inputs: seq<Input>, id: string, time: int) {
    exists k :: 0 <= k < |inputs| && StopFor(inputs[k], id) && inputs[k].event.timestamp == time
  }

  /**
   `after` is the latest of `before` and the requests for this execution; there is no time before zero
   without one.
   */
  ghost predicate IsLatestStop(before: Option<int>, after: Option<int>, inputs: seq<Input>, id: string) {
    && (after.None? <==> before.None? && forall k :: 0 <= k < |inputs| ==> !StopFor(inputs[k], id))
    && (after.Some? ==>
          && after.value >= (if before.Some? then before.value else 0)
          && (forall k :: 0 <= k < |inputs| && StopFor(inputs[k], id) ==> inputs[k].event.timestamp <= after.value)
          && (after == before || (before.None? && after.value == 0) || IsStopTime(inputs, id, after.value)))
  }

  function StopTime(before: Option<int>, input: Input, id: string): Option<int> {
    if StopFor(input, id) then Some(Max(if before.Some? then before.value else 0, input.event.timestamp)) else before
  }

  ghost predicate StopKept(before: seq<Execution>, after: seq<Execution>, input: Input, i: nat)
    requires i < |before|
  {
    && i < |after| && after[i].id == before[i].id
    && after[i].stopRequestedAt == StopTime(before[i].stopRequestedAt, input, before[i].id)
  }

  lemma OneKeepsStop(x: Execution, e: LifecycleEvent, now: int)
    ensures ApplyOne(x, e, now).id == x.id && ApplyOne(x, e, now).stopRequestedAt == x.stopRequestedAt
  {
  }

  lemma LifecycleKeepsStop(s: Session, e: LifecycleEvent, now: int, i: nat)
    requires i < |s.executions|
    ensures var xs := OnLifecycle(s, e, now).executions;
      i < |xs| && xs[i].id == s.executions[i].id && xs[i].stopRequestedAt == s.executions[i].stopRequestedAt
  {
    if LifecycleAccepted(s, e) && !e.ExecutionStart? {
      ApplyIsOne(s.executions, e, now, i);
      OneKeepsStop(s.executions[i], e, now);
    }
  }

  lemma RequestMoves(xs: seq<Execution>, input: Input, i: nat)
    requires i < |xs| && input.event.StopRequested?
    ensures StopKept(xs, RequestStop(xs, input.event.executionId, input.event.timestamp), input, i)
  {
  }

  lemma StopMove(s: Session, input: Input, t: Session, i: nat)
    requires SessionOk(s) && AdmissibleInput(s, input) && Moves(s, input, t) && i < |s.executions|
    ensures StopKept(s.executions, t.executions, input, i)
  {
    var e, ctx := input.event, input.ctx;
    if Reduces(s, e, ctx, t) {
      if e.Lifecycle? {
        LifecycleIs(s, e, ctx, t);
        LifecycleKeepsStop(s, e.lifecycle, ctx.now, i);
      } else if e.StopRequested? {
        StopIs(s, e, ctx, t);
        RequestMoves(s.executions, input, i);
      } else {
        ExecutionFrame(s, e, ctx, t);
      }
    }
  }

  lemma StopAfter(mid: Session, last: Input, i: nat)
    requires SessionOk(mid) && AdmissibleInput(mid, last) && i < |mid.executions|
    ensures StopKept(mid.executions, After(mid, last).executions, last, i)
  {
    AfterMoves(mid, last);
    StopMove(mid, last, After(mid, last), i);
  }

  lemma OneMoreStop(before: Option<int>, mid: Option<int>, front: seq<Input>, last: Input, id: string)
    requires IsLatestStop(before, mid, front, id)
    ensures IsLatestStop(before, StopTime(mid, last, id), front + [last], id)
  {
    var all, after := front + [last], StopTime(mid, last, id);
    assert all[|front|] == last;
    assert forall k :: 0 <= k < |front| ==> all[k] == front[k];
    if after.Some? && IsStopTime(front, id, after.value) {
      var k :| 0 <= k < |front| && StopFor(front[k], id) && front[k].event.timestamp == after.value;
      assert all[k] == front[k];
    }
  }

  ghost predicate LatestIn(x: Execution, xs: seq<Execution>, inputs: seq<Input>, i: nat) {
    i < |xs| && xs[i].id == x.id && IsLatestStop(x.stopRequestedAt, xs[i].stopRequestedAt, inputs, x.id)
  }

  lemma LatestStep(x: Execution, mid: seq<Execution>, after: seq<Execution>, inputs: seq<Input>, i: nat)
    requires inputs != [] && LatestIn(x, mid, inputs[..|inputs| - 1], i)
    requires StopKept(mid, after, inputs[|inputs| - 1], i)
    ensures LatestIn(x, after, inputs, i)
  {
    var front, last := inputs[..|inputs| - 1], inputs[|inputs| - 1];
    OneMoreStop(x.stopRequestedAt, mid[i].stopRequestedAt, front, last, x.id);
    assert inputs == front + [last];
  }

  /** In whatever order stop requests arrive in a run, an execution's stop time is the latest of them. */
  lemma {:induction false} StopTimeIsLatest(s: Session, inputs: seq<Input>, i: nat)
    requires SessionOk(s) && AdmissibleRun(s, inputs) && i < |s.executions|
    ensures LatestIn(s.executions[i], Run(s, inputs).executions, inputs, i)
  {
    if inputs != [] {
      var front, last := inputs[..|inputs| - 1], inputs[|inputs| - 1];
      AdmissibleFront(s, inputs);
      StopTimeIsLatest(s, front, i);
      RunKeepsOk(s, front);
      StopAfter(Run(s, front), last, i);
      LatestStep(s.executions[i], Run(s, front).executions, Run(s, inputs).executions, inputs, i);
    }
  }

  /** The latest stop time is determined by the requests alone, not by their order. */
  lemma LatestStopUnique(
    before: Option<int>, a: Option<int>, b: Option<int>, inputs: seq<Input>, other: seq<Input>, id: string)
    requires IsLatestStop(before, a, inputs, id) && IsLatestStop(before, b, other, id)
    requires forall time :: IsStopTime(inputs, id, time) <==> IsStopTime(other, id, time)
    ensures a == b
  {
    StopTimesAgree(before, a, b, inputs, other, id);
    StopTimesAgree(before, b, a, other, inputs, id);
  }

  lemma StopTimesAgree(
    before: Option<int>, a: Option<int>, b: Option<int>, inputs: seq<Input>, other: seq<Input>, id: string)
    requires IsLatestStop(before, a, inputs, id) && IsLatestStop(before, b, other, id)
    requires forall time :: IsStopTime(inputs, id, time) <==> IsStopTime(other, id, time)
    ensures a.Some? ==> b.Some? && a.value <= b.value
  {
    if a.Some? && IsStopTime(inputs, id, a.value) {
      assert IsStopTime(other, id, a.value);
    } else if a.Some? && before.None? {
      var k :| 0 <= k < |inputs| && StopFor(inputs[k], id);
      assert IsStopTime(inputs, id, inputs[k].event.timestamp);
    }
  }
}
