/** When a step is active, and what its own events do. */
module StepLife {
  import opened Prelude
  import opened SessionTypes
  import opened ExecutionLifecycle
  import opened Messages
  import opened Reducer
  import opened Steps
  import opened MessageIdentity
  import opened Correspondence
  import opened Census
  import opened Runs

  // Only the events of an active step reach its message. A step is active from its start to
  // its end, or to the end of its run.

  /** The step is open, and belongs to the last run of the execution that has not ended. */
  predicate IsActiveAt(s: Session, k: nat) {
    && k < |s.steps| && s.steps[k].completedAt.None?
    && IsLastRun(s.executions, s.steps[k].executionId, s.steps[k].runOrdinal)
  }

  lemma ActiveIff(s: Session, k: nat)
    requires Coherent(s) && k < |s.steps|
    ensures IsActiveOpenStep(s, s.steps[k].id) <==> IsActiveAt(s, k)
  {
    CurrentIffLast(s, s.steps[k].executionId, s.steps[k].runOrdinal);
    if IsActiveOpenStep(s, s.steps[k].id) {
      var l := ActiveStepIs(s, s.steps[k].id);
      SameStepIndex(s.steps, k, l);
    }
  }

  /* ---------- start ---------- */

  predicate KnowsStep(steps: seq<Step>, stepId: string) {
    exists k :: 0 <= k < |steps| && steps[k].id == stepId
  }

  /** A start is taken in exactly when an execution is current and the step is new; the step is then active. */
  lemma StepStarts(s: Session, e: Event, ctx: Context, t: Session)
    requires Coherent(s) && FreshContext(s, ctx) && Reduces(s, e, ctx, t) && e.StepStart?
    ensures s.currentExecutionId.None? || KnowsStep(s.steps, e.stepId) ==> t == s
    ensures s.currentExecutionId.Some? && !KnowsStep(s.steps, e.stepId) ==>
      && |t.steps| == |s.steps| + 1 && t.steps[..|s.steps|] == s.steps
      && t.steps[|s.steps|].id == e.stepId && t.steps[|s.steps|].number == e.number
      && t.currentAssistantMessageId == Some(ctx.messageId)
      && IsActiveOpenStep(t, e.stepId)
  {
    StepStartIs(s, e, ctx, t);
    if s.currentExecutionId.Some? {
      CurrentIsLast(s);
      if !KnowsStep(s.steps, e.stepId) {
        assert InRun(t.steps[|s.steps|], CurrentRun(t).value);
      }
    }
  }

  /* ---------- end and error ---------- */

  predicate Ends(s: Session, e: Event, k: nat) {
    e.StepEnd? && IsActiveAt(s, k) && s.steps[k].id == e.stepId && s.steps[k].number == e.number
  }

  lemma EndsHereIff(s: Session, e: Event, k: nat)
    requires Coherent(s) && e.StepEnd? && k < |s.steps|
    ensures CurrentRun(s).Some? && EndsHere(s.steps[k], e.stepId, e.number, CurrentRun(s).value) <==> Ends(s, e, k)
  {
    CurrentIffLast(s, s.steps[k].executionId, s.steps[k].runOrdinal);
  }

  /** An end of an active step under its number completes exactly that step, wherever it stands. */
  lemma StepEnds(s: Session, e: Event, ctx: Context, t: Session, k: nat)
    requires Coherent(s) && Reduces(s, e, ctx, t) && Ends(s, e, k)
    ensures t.steps == s.steps[k := s.steps[k].(
              completedAt := Some(ctx.now), finishReason := e.finishReason, usage := Some(e.usage))]
    ensures !t.isStreamingModel && t.executions == s.executions
    ensures forall i :: 0 <= i < |s.messages| && IsStepMessage(s.messages[i], e.stepId) ==>
      i < |t.messages| && t.messages[i].completedAt.Some?
  {
    StepEndIs(s, e, ctx, t);
    EndsHereIff(s, e, k);
    var l := EndsOneStep(s, e.stepId, e.number, e.finishReason, e.usage, ctx.now);
    assert s.steps[l].id == e.stepId || l == k;
    StepEndSteps(s.steps, e, CurrentRun(s).value, ctx.now, k);
    StepMessageCompleted(s, e, ctx, t);
  }

  lemma StepEndSteps(steps: seq<Step>, e: Event, run: (string, nat), now: int, k: nat)
    requires DistinctSteps(steps) && e.StepEnd? && k < |steps| && EndsHere(steps[k], e.stepId, e.number, run)
    ensures EndSteps(steps, e.stepId, e.number, run, e.finishReason, e.usage, now)
         == steps[k := steps[k].(completedAt := Some(now), finishReason := e.finishReason, usage := Some(e.usage))]
  {
  }

  lemma StepMessageCompleted(s: Session, e: Event, ctx: Context, t: Session)
    requires e.StepEnd? && t.messages == StepEndMessages(s.messages, e.stepId, e.finishReason, ctx.now)
    ensures forall i :: 0 <= i < |s.messages| && IsStepMessage(s.messages[i], e.stepId) ==>
      i < |t.messages| && t.messages[i].completedAt.Some?
  {
  }

  /** Any other end of a step changes nothing. */
  lemma StepEndIgnored(s: Session, e: Event, ctx: Context, t: Session)
    requires Coherent(s) && Reduces(s, e, ctx, t) && e.StepEnd? && forall k :: !Ends(s, e, k)
    ensures t == s
  {
    StepEndIs(s, e, ctx, t);
    forall k | 0 <= k < |s.steps|
      ensures !(CurrentRun(s).Some? && EndsHere(s.steps[k], e.stepId, e.number, CurrentRun(s).value))
    {
      EndsHereIff(s, e, k);
    }
  }

  /** The error names a step of the current run, open or not. */
  predicate Errs(s: Session, e: Event, k: nat) {
    && e.ExecutionError? && k < |s.steps| && e.failedStepId == Some(s.steps[k].id)
    && e.failedNumber == Some(s.steps[k].number)
    && IsLastRun(s.executions, s.steps[k].executionId, s.steps[k].runOrdinal)
  }

  lemma MatchesErrorIff(s: Session, e: Event, k: nat)
    requires Coherent(s) && e.ExecutionError? && e.failedNumber.Some? && k < |s.steps|
    ensures CurrentRun(s).Some? && MatchesError(s.steps[k], e.failedStepId, e.failedNumber.value, CurrentRun(s).value)
       <==> Errs(s, e, k)
  {
    CurrentIffLast(s, s.steps[k].executionId, s.steps[k].runOrdinal);
  }

  lemma ErrorAt(s: Session, e: Event, k: nat)
    requires Coherent(s) && Errs(s, e, k)
    ensures OnExecutionError(s, e.failedStepId, e.failedNumber, e.error)
         == s.(steps := s.steps[k := s.steps[k].(error := Some(e.error))])
  {
    MatchesErrorIff(s, e, k);
    var t := OnExecutionError(s, e.failedStepId, e.failedNumber, e.error);
    assert t.steps == s.steps[k := s.steps[k].(error := Some(e.error))];
  }

  lemma ErrorNowhere(s: Session, e: Event)
    requires Coherent(s) && e.ExecutionError? && forall k: nat :: !Errs(s, e, k)
    ensures OnExecutionError(s, e.failedStepId, e.failedNumber, e.error) == s
  {
    if e.failedNumber.Some? {
      forall k | 0 <= k < |s.steps|
        ensures !(CurrentRun(s).Some?
                  && MatchesError(s.steps[k], e.failedStepId, e.failedNumber.value, CurrentRun(s).value))
      {
        MatchesErrorIff(s, e, k);
      }
    }
  }

  /** An error is noted at exactly the step it names; one that names no step is dropped. */
  lemma ErrorNoted(s: Session, e: Event, ctx: Context, t: Session)
    requires Coherent(s) && Reduces(s, e, ctx, t) && e.ExecutionError?
    ensures forall k: nat :: Errs(s, e, k) ==> t == s.(steps := s.steps[k := s.steps[k].(error := Some(e.error))])
    ensures (forall k: nat :: !Errs(s, e, k)) ==> t == s
  {
    ErrorIs(s, e, ctx, t);
    if k: nat :| Errs(s, e, k) {
      ErrorAt(s, e, k);
      forall l: nat | Errs(s, e, l) ensures l == k {
        SameStepIndex(s.steps, l, k);
      }
    } else {
      ErrorNowhere(s, e);
    }
  }

  /* ---------- in between ---------- */

  /** What takes an active step out of activity. */
  predicate Deactivates(s: Session, e: Event, k: nat) {
    || Ends(s, e, k)
    || (e.Lifecycle? && LifecycleAccepted(s, e.lifecycle)
        && (e.lifecycle.ExecutionResumed? || e.lifecycle.ExecutionEnd?))
  }

  lemma LastRunStaysIff(xs: seq<Execution>, e: LifecycleEvent, now: int, id: string, ordinal: nat)
    requires ExecutionsOk(xs) && Validate(xs, e).Valid? && IsLastRun(xs, id, ordinal)
    ensures IsLastRun(Apply(xs, e, now), id, ordinal) <==> !e.ExecutionResumed? && !e.ExecutionEnd?
  {
    var ys := Apply(xs, e, now);
    if e.ExecutionStart? {
      StartAccepted(xs, e, now);
      assert false;
    } else {
      AcceptedIsLast(xs, e);
      var k := AcceptedAt(xs, e, now);
      OneStatusAfter(xs[k], e, now);
      assert forall i :: 0 <= i < |xs| ==> ys[i].id == xs[i].id;
      FindAt(ys, id, k);
    }
  }

  lemma StopKeepsLast(xs: seq<Execution>, stop: string, timestamp: int, id: string, ordinal: nat)
    requires IsLastRun(xs, id, ordinal)
    ensures IsLastRun(RequestStop(xs, stop, timestamp), id, ordinal)
  {
    FindAt(RequestStop(xs, stop, timestamp), id, |xs| - 1);
  }

  /** The records of an active step's run, after an event. */
  lemma RecordsAfter(s: Session, e: Event, ctx: Context, t: Session, k: nat)
    requires Coherent(s) && FreshContext(s, ctx) && Reduces(s, e, ctx, t) && IsActiveAt(s, k)
    ensures IsLastRun(t.executions, s.steps[k].executionId, s.steps[k].runOrdinal)
       <==> !(e.Lifecycle? && LifecycleAccepted(s, e.lifecycle)
              && (e.lifecycle.ExecutionResumed? || e.lifecycle.ExecutionEnd?))
  {
    var id, ordinal := s.steps[k].executionId, s.steps[k].runOrdinal;
    if e.Lifecycle? {
      LifecycleIs(s, e, ctx, t);
      if LifecycleAccepted(s, e.lifecycle) {
        LifecycleKeepsFlags(s, e.lifecycle, ctx.now);
        LastRunStaysIff(s.executions, e.lifecycle, ctx.now, id, ordinal);
      }
    } else if e.StopRequested? {
      StopIs(s, e, ctx, t);
      StopKeepsLast(s.executions, e.executionId, e.timestamp, id, ordinal);
    } else {
      ExecutionFrame(s, e, ctx, t);
    }
  }

  /** The step itself, after an event. */
  lemma StepAfter(s: Session, e: Event, ctx: Context, t: Session, k: nat)
    requires Coherent(s) && FreshContext(s, ctx) && Reduces(s, e, ctx, t) && IsActiveAt(s, k)
    ensures k < |t.steps| && t.steps[k].id == s.steps[k].id
    ensures t.steps[k].executionId == s.steps[k].executionId && t.steps[k].runOrdinal == s.steps[k].runOrdinal
    ensures t.steps[k].completedAt.None? <==> !Ends(s, e, k)
  {
    if e.StepStart? {
      StepAfterStart(s, e, ctx, t, k);
    } else if e.ExecutionError? {
      StepAfterError(s, e, ctx, t, k);
    } else if e.StepEnd? {
      StepAfterEnd(s, e, ctx, t, k);
    } else {
      StepFrame(s, e, ctx, t);
    }
  }

  lemma StepAfterStart(s: Session, e: Event, ctx: Context, t: Session, k: nat)
    requires Reduces(s, e, ctx, t) && k < |s.steps| && e.StepStart?
    ensures k < |t.steps| && t.steps[k] == s.steps[k]
  {
    StepStartIs(s, e, ctx, t);
  }

  lemma StepAfterError(s: Session, e: Event, ctx: Context, t: Session, k: nat)
    requires Reduces(s, e, ctx, t) && k < |s.steps| && e.ExecutionError?
    ensures k < |t.steps| && t.steps[k] == s.steps[k].(error := t.steps[k].error)
  {
    ErrorIs(s, e, ctx, t);
  }

  lemma StepAfterEnd(s: Session, e: Event, ctx: Context, t: Session, k: nat)
    requires Coherent(s) && Reduces(s, e, ctx, t) && IsActiveAt(s, k) && e.StepEnd?
    ensures k < |t.steps| && t.steps[k].id == s.steps[k].id
    ensures t.steps[k].executionId == s.steps[k].executionId && t.steps[k].runOrdinal == s.steps[k].runOrdinal
    ensures t.steps[k].completedAt.None? <==> !Ends(s, e, k)
  {
    StepEndIs(s, e, ctx, t);
    EndsHereIff(s, e, k);
  }

  /** An active step stays active exactly until its end, or the resume or end of its execution. */
  lemma ActiveStaysIff(s: Session, e: Event, ctx: Context, t: Session, k: nat)
    requires Coherent(s) && Coherent(t) && FreshContext(s, ctx) && Reduces(s, e, ctx, t) && IsActiveAt(s, k)
    ensures IsActiveOpenStep(t, s.steps[k].id) <==> !Deactivates(s, e, k)
  {
    StepAfter(s, e, ctx, t, k);
    RecordsAfter(s, e, ctx, t, k);
    ActiveIff(t, k);
  }

  /* ---------- streaming ---------- */

  /** The model streams from an accepted start of a step to the next accepted step end or change of run. */
  function StreamsAfter(s: Session, e: Event): bool {
    match e
    case StepStart(stepId, _) =>
      s.isStreamingModel || (s.currentExecutionId.Some? && !KnowsStep(s.steps, stepId))
    case StepEnd(_, _, _, _) => s.isStreamingModel && !exists k :: 0 <= k < |s.steps| && Ends(s, e, k)
    case Lifecycle(l) => s.isStreamingModel && (l.SuspensionUpdated? || !LifecycleAccepted(s, l))
    case _ => s.isStreamingModel
  }

  lemma StreamingIs(s: Session, e: Event, ctx: Context, t: Session)
    requires Coherent(s) && FreshContext(s, ctx) && Reduces(s, e, ctx, t)
    ensures t.isStreamingModel == StreamsAfter(s, e)
  {
    if e.StepStart? {
      StreamingAfterStart(s, e, ctx, t);
    } else if e.StepEnd? {
      StreamingAfterStepEnd(s, e, ctx, t);
    } else if e.Lifecycle? {
      StreamingAfterLifecycle(s, e, ctx, t);
    } else {
      StreamingKept(s, e, ctx, t);
    }
  }

  lemma StreamingAfterStart(s: Session, e: Event, ctx: Context, t: Session)
    requires Coherent(s) && Reduces(s, e, ctx, t) && e.StepStart?
    ensures t.isStreamingModel == StreamsAfter(s, e)
  {
    StepStartIs(s, e, ctx, t);
    if s.currentExecutionId.Some? {
      CurrentIsLast(s);
    }
  }

  lemma StreamingAfterLifecycle(s: Session, e: Event, ctx: Context, t: Session)
    requires Reduces(s, e, ctx, t) && e.Lifecycle?
    ensures t.isStreamingModel == StreamsAfter(s, e)
  {
    LifecycleIs(s, e, ctx, t);
  }

  lemma StreamingAfterStepEnd(s: Session, e: Event, ctx: Context, t: Session)
    requires Coherent(s) && Reduces(s, e, ctx, t) && e.StepEnd?
    ensures t.isStreamingModel == StreamsAfter(s, e)
  {
    if k :| 0 <= k < |s.steps| && Ends(s, e, k) {
      StepEnds(s, e, ctx, t, k);
    } else {
      StepEndIgnored(s, e, ctx, t);
    }
  }

  lemma StreamingKept(s: Session, e: Event, ctx: Context, t: Session)
    requires MessagesOk(s.messages) && FreshContext(s, ctx) && Reduces(s, e, ctx, t)
    requires !e.StepStart? && !e.StepEnd? && !e.Lifecycle?
    ensures t.isStreamingModel == s.isStreamingModel
  {
    if IsPartEvent(e) {
      var edit := PartEventIsEdit(s, e, ctx, t);
    } else if e.MessagesCommitted? {
      CommitIs(s, e, ctx, t);
    } else if e.SystemNotice? {
      NoticeIs(s, e, ctx, t);
    } else if e.Compact? {
      CompactIs(s, e, ctx, t);
    } else if e.StopRequested? {
      StopIs(s, e, ctx, t);
    } else if e.ExecutionError? {
      ErrorIs(s, e, ctx, t);
    } else {
      QuietIs(s, e, ctx, t);
    }
  }

  /* ---------- blocks ---------- */

  /** A block start on an active step, unless it has that block, opens an empty block and makes its message current. */
  lemma BlockOpens(s: Session, e: Event, ctx: Context, t: Session, i: nat)
    requires Coherent(s) && Reduces(s, e, ctx, t) && e.BlockStart?
    requires i < |s.messages| && IsStepMessage(s.messages[i], e.stepId)
    ensures if IsActiveOpenStep(s, e.stepId)
               && forall j :: 0 <= j < |s.messages[i].parts| ==> !IsBlock(s.messages[i].parts[j], e.channel, e.blockId)
            then t == s.(
                   messages := s.messages[i := s.messages[i].(parts := s.messages[i].parts + [
                     Block(Generated(ctx.partId), e.channel, e.blockId, [], ctx.now, None, false, false)])],
                   currentAssistantMessageId := Some(s.messages[i].id))
            else t == s
  {
    BlockStartIs(s, e, ctx, t);
    StepMessageAtIs(s.messages, s.steps, i);
    if IsActiveOpenStep(s, e.stepId) && FindBlock(s.messages, e.stepId, e.channel, e.blockId).None? {
      AppendIsAppend(s.messages, i,
        Block(Generated(ctx.partId), e.channel, e.blockId, [], ctx.now, None, false, false));
    }
  }
}
