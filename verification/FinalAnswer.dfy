/**
 The final answer of an execution: exactly the messages promoted by an accepted end
 carry the final phase, their visible output is trusted, and it never changes again.
 The selected step is the last of its execution, and the model stopped there; at most
 one message of an execution is its final answer, and a selected one exists.
 */
module FinalAnswer {
  import opened Prelude
  import opened Utf8
  import opened SessionTypes
  import opened ExecutionLifecycle
  import opened Messages
  import opened Reducer
  import opened Steps
  import opened MessageIdentity
  import opened Correspondence

  /** The execution completed and selected this step as its final output. */
  predicate Selects(xs: seq<Execution>, executionId: string, stepId: string) {
    var i := Find(xs, executionId);
    && i < |xs|
    && xs[i].status.Terminal?
    && xs[i].status.outcome.Completed?
    && xs[i].status.finalOutputStepId == Some(stepId)
  }

  /** The step is the last one of its execution, and the model stopped there. */
  predicate LastStopped(steps: seq<Step>, executionId: string, stepId: string) {
    var k := LastStepOf(steps, executionId);
    && k < |steps|
    && steps[k].id == stepId
    && steps[k].completedAt.Some?
    && steps[k].finishReason == "stop"
  }

  ghost predicate FinalSteps(xs: seq<Execution>, steps: seq<Step>) {
    forall i :: 0 <= i < |xs| && xs[i].status.Terminal? && xs[i].status.finalOutputStepId.Some? ==>
      LastStopped(steps, xs[i].id, xs[i].status.finalOutputStepId.value)
  }

  /** Final phase and selection are the same thing. */
  ghost predicate FinalPhases(ms: seq<Message>, xs: seq<Execution>) {
    forall i :: 0 <= i < |ms| && ms[i].Assistant? ==>
      (ms[i].phase.FinalAnswer? <==> Selects(xs, ms[i].executionId, ms[i].stepId))
  }

  ghost predicate FinalTrusted(ms: seq<Message>) {
    forall i :: 0 <= i < |ms| && ms[i].Assistant? && ms[i].phase.FinalAnswer? ==> TrustedOutput(ms[i].parts)
  }

  ghost predicate FinalOk(s: Session) {
    && FinalSteps(s.executions, s.steps)
    && FinalPhases(s.messages, s.executions)
    && FinalTrusted(s.messages)
  }

  /** The visible output parts of a message, in order. */
  function Outputs(parts: seq<Part>): seq<Part> {
    if parts == [] then []
    else Outputs(parts[..|parts| - 1]) + if IsOutput(parts[|parts| - 1]) then [parts[|parts| - 1]] else []
  }

  /** Every final answer of `before` is still there in `after`, with the same visible output. */
  ghost predicate FinalsKept(before: seq<Message>, after: seq<Message>) {
    forall i :: 0 <= i < |before| && before[i].Assistant? && before[i].phase.FinalAnswer? ==>
      FinalKeptAt(before[i], after, MessageAt(after, before[i].id))
  }

  predicate FinalKeptAt(m: Message, after: seq<Message>, j: nat)
    requires m.Assistant?
  {
    j < |after| && FinalKept(m, after[j])
  }

  predicate FinalKept(m: Message, n: Message)
    requires m.Assistant?
  {
    && n.Assistant?
    && n.id == m.id
    && n.phase.FinalAnswer?
    && n.stepId == m.stepId
    && n.executionId == m.executionId
    && Outputs(n.parts) == Outputs(m.parts)
  }

  lemma FinalsKeptTransitive(a: seq<Message>, b: seq<Message>, c: seq<Message>)
    requires FinalsKept(a, b) && FinalsKept(b, c)
    ensures FinalsKept(a, c)
  {
    forall i | 0 <= i < |a| && a[i].Assistant? && a[i].phase.FinalAnswer?
      ensures FinalKeptAt(a[i], c, MessageAt(c, a[i].id))
    {
      var j := MessageAt(b, a[i].id);
      assert FinalKeptAt(a[i], b, j);
      assert FinalKeptAt(b[j], c, MessageAt(c, b[j].id));
    }
  }

  /* ---------- output parts ---------- */

  /** Nothing but non-output parts changed, position by position. */
  ghost predicate SameOutputs(before: seq<Part>, after: seq<Part>) {
    && |after| == |before|
    && forall j :: 0 <= j < |before| ==>
         (IsOutput(before[j]) <==> IsOutput(after[j])) && (IsOutput(before[j]) ==> after[j] == before[j])
  }

  lemma {:induction false} SameOutputsOutputs(before: seq<Part>, after: seq<Part>)
    requires SameOutputs(before, after)
    ensures Outputs(after) == Outputs(before)
  {
    if before != [] {
      SameOutputsOutputs(before[..|before| - 1], after[..|before| - 1]);
    }
  }

  lemma SameOutputsTrusted(before: seq<Part>, after: seq<Part>)
    requires SameOutputs(before, after) && TrustedOutput(before)
    ensures TrustedOutput(after)
  {
    var j :| 0 <= j < |before| && IsOutput(before[j]) && !IsBlank(before[j].text);
    assert IsOutput(after[j]) && after[j] == before[j];
  }

  /** Appending or replacing anything but a block leaves the visible output alone. */
  lemma EditKeepsOutputs(parts: seq<Part>, edit: Edit)
    requires !edit.Keep? && !edit.Remove? && (edit.Replace? ==> edit.j < |parts| && !parts[edit.j].Block?)
    requires !edit.part.Block?
    ensures Outputs(EditedParts(parts, edit)) == Outputs(parts)
    ensures TrustedOutput(parts) ==> TrustedOutput(EditedParts(parts, edit))
  {
    var after := EditedParts(parts, edit);
    if edit.Replace? {
      SameOutputsOutputs(parts, after);
      if TrustedOutput(parts) {
        SameOutputsTrusted(parts, after);
      }
    } else {
      assert after[..|after| - 1] == parts;
      if TrustedOutput(parts) {
        var j :| 0 <= j < |parts| && IsOutput(parts[j]) && !IsBlank(parts[j].text);
        assert after[j] == parts[j];
      }
    }
  }

  /** Settling leaves trusted output alone. */
  lemma SettleKeepsOutputs(m: Message, current: Option<string>, now: int, discard: bool)
    requires m.Assistant? && TrustedOutput(m.parts)
    ensures SameOutputs(m.parts, InterruptTools(SettleMessage(m, current, now, discard), now).parts)
  {
  }

  /* ---------- pointwise preservation ---------- */

  /**
   Messages keep their place, ids and keys; final ones keep their visible output, others stay as they
   were or are promoted.
   */
  ghost predicate FinalsKeptInPlace(before: seq<Message>, after: seq<Message>) {
    && |after| == |before|
    && forall i :: 0 <= i < |before| ==>
         && after[i].id == before[i].id
         && (before[i].Assistant? <==> after[i].Assistant?)
         && (before[i].Assistant? && before[i].phase.FinalAnswer? ==> FinalKept(before[i], after[i]))
  }

  lemma InPlaceKept(before: seq<Message>, after: seq<Message>)
    requires DistinctMessages(before) && FinalsKeptInPlace(before, after)
    ensures FinalsKept(before, after)
  {
    forall i | 0 <= i < |before| && before[i].Assistant? && before[i].phase.FinalAnswer?
      ensures FinalKeptAt(before[i], after, MessageAt(after, before[i].id))
    {
      var j := MessageAt(after, before[i].id);
      assert after[i].id == before[i].id;
      assert j <= i && before[j].id == before[i].id;
      assert j == i;
    }
  }

  /** Phases, keys and order are the same. */
  ghost predicate SamePhases(before: seq<Message>, after: seq<Message>) {
    && |after| == |before|
    && forall i :: 0 <= i < |before| ==> SamePhaseAt(before[i], after[i])
  }

  predicate SamePhaseAt(before: Message, after: Message) {
    && (before.Assistant? <==> after.Assistant?)
    && (before.Assistant? ==>
          after.phase == before.phase && after.executionId == before.executionId && after.stepId == before.stepId)
  }

  lemma SamePhasesKeep(before: seq<Message>, after: seq<Message>, xs: seq<Execution>)
    requires FinalPhases(before, xs) && SamePhases(before, after)
    ensures FinalPhases(after, xs)
  {
    forall i | 0 <= i < |after| && after[i].Assistant?
      ensures after[i].phase.FinalAnswer? <==> Selects(xs, after[i].executionId, after[i].stepId)
    {
      assert SamePhaseAt(before[i], after[i]);
    }
  }

  /** A final message does not belong to an open step. */
  lemma FinalStepClosed(s: Session, i: nat)
    requires Coherent(s) && FinalOk(s) && i < |s.messages| && s.messages[i].Assistant?
      && s.messages[i].phase.FinalAnswer?
    ensures !IsActiveOpenStep(s, s.messages[i].stepId)
    ensures forall k :: 0 <= k < |s.steps| && s.steps[k].id == s.messages[i].stepId ==>
      s.steps[k].completedAt.Some? && s.steps[k].completedAt.value > 0
  {
    var m := s.messages[i];
    var k := FinalStepIs(s, i);
    forall l | 0 <= l < |s.steps| && s.steps[l].id == m.stepId ensures l == k {}
  }

  lemma FinalStepIs(s: Session, i: nat) returns (k: nat)
    requires Coherent(s) && FinalOk(s) && i < |s.messages| && s.messages[i].Assistant?
      && s.messages[i].phase.FinalAnswer?
    ensures k < |s.steps| && s.steps[k].id == s.messages[i].stepId
    ensures s.steps[k].completedAt.Some? && s.steps[k].completedAt.value > 0
  {
    var m := s.messages[i];
    assert Selects(s.executions, m.executionId, m.stepId);
    assert LastStopped(s.steps, s.executions[Find(s.executions, m.executionId)].id, m.stepId);
    k := LastStepOf(s.steps, m.executionId);
  }

  /** A final answer is not touched by an edit of another message, nor in its output by one of its own. */
  lemma EditKeepsAnswer(s: Session, t: Session, edit: Edit, i: nat)
    requires Coherent(s) && FinalOk(s) && PartEdit(s, t, edit)
    requires i < |s.messages| && s.messages[i].Assistant? && s.messages[i].phase.FinalAnswer?
    ensures FinalKept(s.messages[i], t.messages[i]) && TrustedOutput(t.messages[i].parts)
  {
    if !edit.Keep? && edit.i == i {
      FinalStepClosed(s, i);
      EditKeepsOutputs(s.messages[i].parts, edit);
    }
  }

  lemma EditKeepsPhases(ms: seq<Message>, edit: Edit)
    requires EditFits(ms, edit)
    ensures SamePhases(ms, ApplyEdit(ms, edit))
    ensures forall i :: 0 <= i < |ms| ==> ApplyEdit(ms, edit)[i].id == ms[i].id
  {
  }

  lemma EditKeepsFinal(s: Session, t: Session, edit: Edit)
    requires Coherent(s) && FinalOk(s) && PartEdit(s, t, edit)
    ensures FinalOk(t) && FinalsKept(s.messages, t.messages)
  {
    EditKeepsPhases(s.messages, edit);
    SamePhasesKeep(s.messages, t.messages, s.executions);
    forall i | 0 <= i < |s.messages| && s.messages[i].Assistant? && s.messages[i].phase.FinalAnswer?
      ensures FinalKept(s.messages[i], t.messages[i]) && TrustedOutput(t.messages[i].parts)
    {
      EditKeepsAnswer(s, t, edit, i);
    }
    PointwiseKept(s.messages, t.messages);
  }

  lemma PointwiseKept(before: seq<Message>, after: seq<Message>)
    requires DistinctMessages(before) && SamePhases(before, after)
    requires forall i :: 0 <= i < |before| ==> after[i].id == before[i].id
    requires forall i :: 0 <= i < |before| && before[i].Assistant? && before[i].phase.FinalAnswer? ==>
      FinalKept(before[i], after[i]) && TrustedOutput(after[i].parts)
    ensures FinalTrusted(after) && FinalsKept(before, after)
  {
    forall i | 0 <= i < |before| ensures SamePhaseAt(before[i], after[i]) {}
    InPlaceKept(before, after);
  }

  /* ---------- steps ---------- */

  lemma {:induction false} LastStepOfSame(before: seq<Step>, after: seq<Step>, executionId: string)
    requires |after| == |before| && forall k :: 0 <= k < |before| ==> after[k].executionId == before[k].executionId
    ensures LastStepOf(after, executionId) == LastStepOf(before, executionId)
  {
  }

  lemma LastStepOfAppend(steps: seq<Step>, step: Step, executionId: string)
    requires step.executionId != executionId && LastStepOf(steps, executionId) < |steps|
    ensures LastStepOf(steps + [step], executionId) == LastStepOf(steps, executionId)
  {
    assert (steps + [step])[..|steps|] == steps;
  }

  /** Completed steps are final: nothing but an error note is ever added to them. */
  lemma FinalStepsKept(xs: seq<Execution>, before: seq<Step>, after: seq<Step>)
    requires FinalSteps(xs, before) && SameSteps(before, after)
    requires forall k :: 0 <= k < |before| && before[k].completedAt.Some? ==>
      after[k].completedAt.Some? && after[k].finishReason == before[k].finishReason
    ensures FinalSteps(xs, after)
  {
    forall i | 0 <= i < |xs| && xs[i].status.Terminal? && xs[i].status.finalOutputStepId.Some?
      ensures LastStopped(after, xs[i].id, xs[i].status.finalOutputStepId.value)
    {
      LastStepOfSame(before, after, xs[i].id);
      assert LastStopped(before, xs[i].id, xs[i].status.finalOutputStepId.value);
    }
  }

  /** Same messages with the same phases and parts; only completion and compaction marks differ. */
  predicate SameAnswerAt(before: Message, after: Message) {
    && after.id == before.id
    && (before.Assistant? <==> after.Assistant?)
    && (before.Assistant? ==>
          && after.phase == before.phase
          && after.executionId == before.executionId
          && after.stepId == before.stepId
          && (before.phase.FinalAnswer? ==> after.parts == before.parts))
  }

  ghost predicate SameAnswers(before: seq<Message>, after: seq<Message>) {
    |after| == |before| && forall i :: 0 <= i < |before| ==> SameAnswerAt(before[i], after[i])
  }

  lemma SameAnswersKeep(before: seq<Message>, after: seq<Message>, xs: seq<Execution>)
    requires SameAnswers(before, after) && DistinctMessages(before)
    requires FinalPhases(before, xs) && FinalTrusted(before)
    ensures FinalPhases(after, xs) && FinalTrusted(after) && FinalsKept(before, after)
  {
    forall i | 0 <= i < |before|
      ensures SamePhaseAt(before[i], after[i])
      ensures before[i].Assistant? && before[i].phase.FinalAnswer? ==>
        TrustedOutput(after[i].parts) && FinalKept(before[i], after[i])
    {
      assert SameAnswerAt(before[i], after[i]);
    }
    SamePhasesKeep(before, after, xs);
    forall i | 0 <= i < |after| && after[i].Assistant? && after[i].phase.FinalAnswer?
      ensures TrustedOutput(after[i].parts)
    {
      assert SameAnswerAt(before[i], after[i]);
    }
    forall i | 0 <= i < |before|
      ensures after[i].id == before[i].id && (before[i].Assistant? <==> after[i].Assistant?)
    {
      assert SameAnswerAt(before[i], after[i]);
    }
    InPlaceKept(before, after);
  }

  lemma StepEndSameAnswers(ms: seq<Message>, stepId: string, finishReason: string, now: int)
    requires forall i :: 0 <= i < |ms| && IsStepMessage(ms[i], stepId) ==> !ms[i].phase.FinalAnswer?
    ensures SameAnswers(ms, StepEndMessages(ms, stepId, finishReason, now))
  {
    forall i | 0 <= i < |ms|
      ensures SameAnswerAt(ms[i], StepEndMessages(ms, stepId, finishReason, now)[i])
    {
    }
  }

  /** The step that ends here is open, so no final answer belongs to it. */
  lemma EndingStepNotFinal(s: Session, stepId: string, number: int, run: (string, nat), k: nat)
    requires Coherent(s) && FinalOk(s) && k < |s.steps| && EndsHere(s.steps[k], stepId, number, run)
    ensures forall i :: 0 <= i < |s.messages| && IsStepMessage(s.messages[i], stepId) ==>
      !s.messages[i].phase.FinalAnswer?
    ensures forall l :: 0 <= l < |s.steps| && s.steps[l].completedAt.Some? ==>
      !EndsHere(s.steps[l], stepId, number, run)
  {
    forall i | 0 <= i < |s.messages| && IsStepMessage(s.messages[i], stepId)
      ensures !s.messages[i].phase.FinalAnswer?
    {
      if s.messages[i].phase.FinalAnswer? {
        FinalStepClosed(s, i);
      }
    }
  }

  lemma StepEndKeepsFinal(s: Session, stepId: string, number: int, finishReason: string, usage: Usage, now: int)
    requires Coherent(s) && FinalOk(s) && now > 0
    ensures var t := OnStepEnd(s, stepId, number, finishReason, usage, now);
      FinalOk(t) && FinalsKept(s.messages, t.messages)
  {
    var t := OnStepEnd(s, stepId, number, finishReason, usage, now);
    if t == s {
      FinalsKeptRefl(s.messages);
    } else {
      var run := CurrentRun(s).value;
      var k :| 0 <= k < |s.steps| && EndsHere(s.steps[k], stepId, number, run);
      EndStepsSame(s.steps, stepId, number, run, finishReason, usage, now);
      EndingStepNotFinal(s, stepId, number, run, k);
      FinalStepsKept(s.executions, s.steps, t.steps);
      StepEndSameAnswers(s.messages, stepId, finishReason, now);
      SameAnswersKeep(s.messages, t.messages, s.executions);
    }
  }

  lemma FinalsKeptRefl(ms: seq<Message>)
    requires DistinctMessages(ms)
    ensures FinalsKept(ms, ms)
  {
    InPlaceKept(ms, ms);
  }

  lemma ErrorKeepsFinal(s: Session, stepId: Option<string>, number: Option<int>, error: string)
    requires Coherent(s) && FinalOk(s)
    ensures FinalOk(OnExecutionError(s, stepId, number, error))
  {
    var t := OnExecutionError(s, stepId, number, error);
    forall k | 0 <= k < |s.steps|
      ensures t.steps[k] == s.steps[k].(error := t.steps[k].error)
    {
    }
    FinalStepsKept(s.executions, s.steps, t.steps);
  }

  /** A step added to the running execution is not in the way of earlier final steps. */
  lemma AppendStepKeepsFinal(xs: seq<Execution>, steps: seq<Step>, step: Step)
    requires ExecutionsOk(xs) && FinalSteps(xs, steps) && xs != []
    requires step.executionId == xs[|xs| - 1].id && !xs[|xs| - 1].status.Terminal?
    ensures FinalSteps(xs, steps + [step])
  {
    forall i | 0 <= i < |xs| && xs[i].status.Terminal? && xs[i].status.finalOutputStepId.Some?
      ensures LastStopped(steps + [step], xs[i].id, xs[i].status.finalOutputStepId.value)
    {
      assert LastStopped(steps, xs[i].id, xs[i].status.finalOutputStepId.value);
      assert i < |xs| - 1;
      LastStepOfAppend(steps, step, xs[i].id);
    }
  }

  lemma AppendMessageKeepsPhases(ms: seq<Message>, m: Message, xs: seq<Execution>)
    requires FinalPhases(ms, xs) && FinalTrusted(ms)
    requires m.Assistant? && !m.phase.FinalAnswer? && !Selects(xs, m.executionId, m.stepId)
    ensures FinalPhases(ms + [m], xs) && FinalTrusted(ms + [m])
  {
  }

  lemma NotSelected(xs: seq<Execution>, stepId: string)
    requires ExecutionsOk(xs) && xs != [] && !xs[|xs| - 1].status.Terminal?
    ensures !Selects(xs, xs[|xs| - 1].id, stepId)
  {
    FindAt(xs, xs[|xs| - 1].id, |xs| - 1);
  }

  lemma StepStartKeepsFinal(s: Session, stepId: string, number: int, ctx: Context)
    requires Coherent(s) && FinalOk(s) && FreshContext(s, ctx)
    ensures var t := OnStepStart(s, stepId, number, ctx);
      FinalOk(t) && FinalsKept(s.messages, t.messages)
  {
    var t := OnStepStart(s, stepId, number, ctx);
    if t == s {
      FinalsKeptRefl(s.messages);
    } else {
      CurrentIsLast(s);
      var m, step := t.messages[|s.messages|], t.steps[|s.steps|];
      AppendStepKeepsFinal(s.executions, s.steps, step);
      NotSelected(s.executions, stepId);
      AppendMessageKeepsPhases(s.messages, m, s.executions);
      AppendKeepsFinals(s.messages, [m]);
      assert t.messages == s.messages + [m] && t.steps == s.steps + [step];
    }
  }

  lemma AppendKeepsFinals(ms: seq<Message>, more: seq<Message>)
    requires DistinctMessages(ms)
    ensures FinalsKept(ms, ms + more)
  {
    forall i | 0 <= i < |ms| && ms[i].Assistant? && ms[i].phase.FinalAnswer?
      ensures FinalKeptAt(ms[i], ms + more, MessageAt(ms + more, ms[i].id))
    {
      var j := MessageAt(ms + more, ms[i].id);
      assert (ms + more)[i] == ms[i];
      assert j <= i && (ms + more)[j] == ms[j];
    }
  }

  lemma AppendUsersKeepsFinal(s: Session, users: seq<Message>)
    requires Coherent(s) && FinalOk(s) && forall k :: 0 <= k < |users| ==> users[k].User?
    ensures FinalOk(s.(messages := s.messages + users)) && FinalsKept(s.messages, s.messages + users)
  {
    AppendKeepsFinals(s.messages, users);
  }

  lemma InsertUserKeepsFinals(front: seq<Message>, user: Message, back: seq<Message>, xs: seq<Execution>)
    requires user.User? && DistinctMessages(front + [user] + back)
    requires FinalPhases(front + back, xs) && FinalTrusted(front + back)
    ensures var after := front + [user] + back;
      FinalPhases(after, xs) && FinalTrusted(after) && FinalsKept(front + back, after)
  {
    var before, after := front + back, front + [user] + back;
    forall i | 0 <= i < |after| && after[i].Assistant?
      ensures after[i] == before[if i < |front| then i else i - 1]
    {
    }
    forall i | 0 <= i < |before| && before[i].Assistant? && before[i].phase.FinalAnswer?
      ensures FinalKeptAt(before[i], after, MessageAt(after, before[i].id))
    {
      var k := if i < |front| then i else i + 1;
      assert after[k] == before[i];
      MessageAtIs(after, k);
    }
  }

  lemma FlagSameAnswers(ms: seq<Message>, upTo: nat)
    ensures SameAnswers(ms, FlagUpTo(ms, upTo))
  {
    forall i | 0 <= i < |ms| ensures SameAnswerAt(ms[i], FlagUpTo(ms, upTo)[i]) {}
  }

  lemma RefreshSameAnswers(ms: seq<Message>, summary: string, tailStartId: string, ctx: Context)
    requires CompactionAt(ms) < |ms|
    ensures SameAnswers(ms, Compacted(ms, summary, tailStartId, ctx))
  {
    CompactedAt(ms, summary, tailStartId, ctx);
    var after := Compacted(ms, summary, tailStartId, ctx);
    forall i | 0 <= i < |ms| ensures SameAnswerAt(ms[i], after[i]) {
      assert after[i] == Refresh(ms[i], summary, tailStartId, ctx.now) || after[i] == Flag(ms[i]) || after[i] == ms[i];
    }
  }

  lemma CompactKeepsFinal(s: Session, summary: string, tailStartId: string, ctx: Context)
    requires Coherent(s) && FinalOk(s) && FreshContext(s, ctx)
    ensures var after := Compacted(s.messages, summary, tailStartId, ctx);
      FinalOk(s.(messages := after)) && FinalsKept(s.messages, after)
  {
    var ms, upTo := s.messages, MessageAt(s.messages, tailStartId);
    var flagged := FlagUpTo(ms, upTo);
    var after := Compacted(ms, summary, tailStartId, ctx);
    CompactedOk(ms, summary, tailStartId, ctx);
    if CompactionAt(ms) < |ms| {
      RefreshSameAnswers(ms, summary, tailStartId, ctx);
      SameAnswersKeep(ms, after, s.executions);
    } else {
      FlagSameAnswers(ms, upTo);
      SameAnswersKeep(ms, flagged, s.executions);
      assert flagged == flagged[..upTo] + flagged[upTo..];
      InsertUserKeepsFinals(flagged[..upTo], CompactionMessage(summary, tailStartId, ctx), flagged[upTo..],
        s.executions);
      FinalsKeptTransitive(ms, flagged, after);
    }
  }

  /* ---------- lifecycle ---------- */

  /** An accepted event adds a selection only when it is an end, and then just its own. */
  lemma SelectsAfter(xs: seq<Execution>, e: LifecycleEvent, now: int, executionId: string, stepId: string)
    requires ExecutionsOk(xs) && Validate(xs, e).Valid? && Find(xs, executionId) < |xs|
    ensures Selects(Apply(xs, e, now), executionId, stepId)
       <==> Selects(xs, executionId, stepId)
            || (e.ExecutionEnd? && e.end.executionId == executionId && e.end.finalOutputStepId == Some(stepId))
  {
    var ys := Apply(xs, e, now);
    var i := Find(xs, executionId);
    ApplyKeepsLifecycle(xs, e, now);
    ApplyExtends(xs, e, now);
    FindStable(xs, ys, executionId);
    if e.ExecutionStart? {
      StartAccepted(xs, e, now);
    } else {
      var k := AcceptedAt(xs, e, now);
      if k == i {
        SelectedByEnd(xs[i], e, now, stepId);
      }
    }
  }

  /** Of the events a record accepts, only its end can select a step. */
  lemma SelectedByEnd(x: Execution, e: LifecycleEvent, now: int, stepId: string)
    requires x.id == LifecycleId(e) && !e.ExecutionStart? && ValidateOne(x, e).Valid?
    ensures !x.status.Terminal?
    ensures var y := ApplyOne(x, e, now);
      y.status.Terminal? && y.status.outcome.Completed? && y.status.finalOutputStepId == Some(stepId)
      <==> e.ExecutionEnd? && e.end.finalOutputStepId == Some(stepId)
  {
  }

  lemma LifecycleKeepsFinalSteps(s: Session, e: LifecycleEvent, now: int)
    requires Coherent(s) && FinalOk(s) && LifecycleAccepted(s, e)
    ensures FinalSteps(Apply(s.executions, e, now), s.steps)
  {
    var xs, ys := s.executions, Apply(s.executions, e, now);
    if e.ExecutionStart? {
      StartAccepted(xs, e, now);
    } else {
      var k := AcceptedAt(xs, e, now);
      AcceptedIsLast(xs, e);
      OneStatusAfter(xs[k], e, now);
      if e.ExecutionEnd? && e.end.finalOutputStepId.Some? {
        assert LastStopped(s.steps, e.end.executionId, e.end.finalOutputStepId.value);
      }
    }
  }

  predicate PromotedBy(m: Message, end: End) {
    m.Assistant? && m.executionId == end.executionId && end.finalOutputStepId == Some(m.stepId)
  }

  lemma EndedAt(ms: seq<Message>, current: Option<string>, end: End, i: nat)
    requires i < |ms| && ms[i].Assistant?
    ensures var n := EndedMessages(ms, current, end)[i];
      && n.Assistant?
      && n.parts == InterruptTools(SettleMessage(ms[i], current, end.endedAt, !end.outcome.Completed?),
           end.endedAt).parts
      && (n.phase.FinalAnswer? <==> ms[i].phase.FinalAnswer? || PromotedBy(ms[i], end))
  {
  }

  /** A promoted message had trusted output before the end. */
  lemma PromotedIsTrusted(s: Session, end: End, i: nat)
    requires Coherent(s) && LifecycleAccepted(s, ExecutionEnd(end))
    requires i < |s.messages| && PromotedBy(s.messages[i], end)
    ensures TrustedOutput(s.messages[i].parts)
  {
    StepMessageAtIs(s.messages, s.steps, i);
  }

  lemma EndPromotes(s: Session, end: End, i: nat)
    requires Coherent(s) && FinalOk(s) && LifecycleAccepted(s, ExecutionEnd(end))
    requires i < |s.messages| && s.messages[i].Assistant?
    ensures var n := EndedMessages(s.messages, s.currentAssistantMessageId, end)[i];
      && n.Assistant?
      && (n.phase.FinalAnswer? <==> s.messages[i].phase.FinalAnswer? || PromotedBy(s.messages[i], end))
      && (n.phase.FinalAnswer? ==> TrustedOutput(n.parts) && Outputs(n.parts) == Outputs(s.messages[i].parts))
  {
    var m := s.messages[i];
    var n := EndedMessages(s.messages, s.currentAssistantMessageId, end)[i];
    EndedAt(s.messages, s.currentAssistantMessageId, end, i);
    if PromotedBy(m, end) {
      PromotedIsTrusted(s, end, i);
    }
    if n.phase.FinalAnswer? {
      SettleKeepsOutputs(m, s.currentAssistantMessageId, end.endedAt, !end.outcome.Completed?);
      SameOutputsOutputs(m.parts, n.parts);
      SameOutputsTrusted(m.parts, n.parts);
    }
  }

  lemma EndKeepsFinal(s: Session, end: End, now: int)
    requires Coherent(s) && FinalOk(s) && LifecycleAccepted(s, ExecutionEnd(end))
    ensures var t := OnLifecycle(s, ExecutionEnd(end), now);
      FinalOk(t) && FinalsKept(s.messages, t.messages)
  {
    var e := ExecutionEnd(end);
    var t := OnLifecycle(s, e, now);
    LifecycleKeepsFinalSteps(s, e, now);
    forall i | 0 <= i < |t.messages| && t.messages[i].Assistant?
      ensures t.messages[i].phase.FinalAnswer?
        <==> Selects(t.executions, t.messages[i].executionId, t.messages[i].stepId)
      ensures t.messages[i].phase.FinalAnswer? ==> TrustedOutput(t.messages[i].parts)
    {
      EndPhase(s, end, now, i);
    }
    EndKeepsAnswers(s, end);
  }

  lemma EndPhase(s: Session, end: End, now: int, i: nat)
    requires Coherent(s) && FinalOk(s) && LifecycleAccepted(s, ExecutionEnd(end)) && i < |s.messages|
    requires EndedMessages(s.messages, s.currentAssistantMessageId, end)[i].Assistant?
    ensures var m := EndedMessages(s.messages, s.currentAssistantMessageId, end)[i];
      && (m.phase.FinalAnswer? <==> Selects(Apply(s.executions, ExecutionEnd(end), now), m.executionId, m.stepId))
      && (m.phase.FinalAnswer? ==> TrustedOutput(m.parts))
  {
    var ended := EndedMessages(s.messages, s.currentAssistantMessageId, end);
    EndedSame(s.messages, s.currentAssistantMessageId, end);
    assert SameMessage(s.messages[i], ended[i]);
    EndPromotes(s, end, i);
    MessageExecutionKnown(s, i);
    SelectsAfter(s.executions, ExecutionEnd(end), now, s.messages[i].executionId, s.messages[i].stepId);
  }

  lemma EndKeepsAnswers(s: Session, end: End)
    requires Coherent(s) && FinalOk(s) && LifecycleAccepted(s, ExecutionEnd(end))
    ensures FinalsKept(s.messages, EndedMessages(s.messages, s.currentAssistantMessageId, end))
  {
    var ended := EndedMessages(s.messages, s.currentAssistantMessageId, end);
    EndedSame(s.messages, s.currentAssistantMessageId, end);
    forall i | 0 <= i < |s.messages|
      ensures ended[i].id == s.messages[i].id && (s.messages[i].Assistant? <==> ended[i].Assistant?)
      ensures s.messages[i].Assistant? && s.messages[i].phase.FinalAnswer? ==> FinalKept(s.messages[i], ended[i])
    {
      assert SameMessage(s.messages[i], ended[i]);
      if s.messages[i].Assistant? {
        EndPromotes(s, end, i);
      }
    }
    InPlaceKept(s.messages, ended);
  }

  lemma MessageExecutionKnown(s: Session, i: nat)
    requires Coherent(s) && i < |s.messages| && s.messages[i].Assistant?
    ensures Find(s.executions, s.messages[i].executionId) < |s.executions|
  {
    var k := StepOfMessage(s.messages, s.steps, i);
    assert StepKnown(s.steps[k], s.executions);
  }

  lemma LifecycleKeepsFinal(s: Session, e: LifecycleEvent, now: int)
    requires Coherent(s) && FinalOk(s)
    ensures FinalOk(OnLifecycle(s, e, now)) && FinalsKept(s.messages, OnLifecycle(s, e, now).messages)
  {
    var t := OnLifecycle(s, e, now);
    if !LifecycleAccepted(s, e) {
      FinalsKeptRefl(s.messages);
    } else if e.ExecutionEnd? {
      EndKeepsFinal(s, e.end, now);
    } else {
      LifecycleKeepsFinalSteps(s, e, now);
      FinalsKeptRefl(s.messages);
      forall i | 0 <= i < |s.messages| && s.messages[i].Assistant?
        ensures s.messages[i].phase.FinalAnswer?
           <==> Selects(t.executions, s.messages[i].executionId, s.messages[i].stepId)
      {
        MessageExecutionKnown(s, i);
        SelectsAfter(s.executions, e, now, s.messages[i].executionId, s.messages[i].stepId);
      }
    }
  }

  lemma StopKeepsFinal(s: Session, id: string, timestamp: int)
    requires Coherent(s) && FinalOk(s)
    ensures FinalOk(s.(executions := RequestStop(s.executions, id, timestamp)))
  {
    var ys := RequestStop(s.executions, id, timestamp);
    forall i | 0 <= i < |s.messages| && s.messages[i].Assistant?
      ensures Selects(ys, s.messages[i].executionId, s.messages[i].stepId)
         <==> Selects(s.executions, s.messages[i].executionId, s.messages[i].stepId)
    {
      MessageExecutionKnown(s, i);
      StopSelects(s.executions, id, timestamp, s.messages[i].executionId, s.messages[i].stepId);
    }
    StopKeepsFinalSteps(s.executions, s.steps, id, timestamp);
  }

  lemma StopSelects(xs: seq<Execution>, id: string, timestamp: int, executionId: string, stepId: string)
    requires ExecutionsOk(xs) && Find(xs, executionId) < |xs|
    ensures Selects(RequestStop(xs, id, timestamp), executionId, stepId) <==> Selects(xs, executionId, stepId)
  {
    StopKeepsLifecycle(xs, id, timestamp);
    StopExtends(xs, id, timestamp);
    FindStable(xs, RequestStop(xs, id, timestamp), executionId);
  }

  lemma StopKeepsFinalSteps(xs: seq<Execution>, steps: seq<Step>, id: string, timestamp: int)
    requires FinalSteps(xs, steps)
    ensures FinalSteps(RequestStop(xs, id, timestamp), steps)
  {
  }

  lemma PartEventKeepsFinal(s: Session, e: Event, ctx: Context, t: Session)
    requires Coherent(s) && FinalOk(s) && FreshContext(s, ctx) && IsPartEvent(e) && Reduces(s, e, ctx, t)
    ensures KeepsFinal(s, t)
  {
    var edit := PartEventIsEdit(s, e, ctx, t);
    EditKeepsFinal(s, t, edit);
  }

  lemma CommitKeepsFinal(s: Session, committed: seq<Message>)
    requires Coherent(s) && FinalOk(s) && forall k :: 0 <= k < |committed| ==> IsCommitted(committed[k])
    ensures FinalOk(OnMessagesCommitted(s, committed))
    ensures FinalsKept(s.messages, OnMessagesCommitted(s, committed).messages)
  {
    NewMessagesAre(committed, Ids(s.messages));
    AppendUsersKeepsFinal(s, NewMessages(committed, Ids(s.messages)));
  }

  /** What an event keeps of the final answers. */
  ghost predicate KeepsFinal(s: Session, t: Session) {
    FinalOk(t) && FinalsKept(s.messages, t.messages)
  }

  lemma StepEventKeepsFinal(s: Session, e: Event, ctx: Context, t: Session)
    requires Coherent(s) && FinalOk(s) && Admissible(s, e, ctx) && Reduces(s, e, ctx, t)
    requires e.StepStart? || e.StepEnd? || e.ExecutionError?
    ensures KeepsFinal(s, t)
  {
    FinalsKeptRefl(s.messages);
    if e.StepStart? {
      StepStartIs(s, e, ctx, t);
      StepStartKeepsFinal(s, e.stepId, e.number, ctx);
    } else if e.StepEnd? {
      StepEndIs(s, e, ctx, t);
      StepEndKeepsFinal(s, e.stepId, e.number, e.finishReason, e.usage, ctx.now);
    } else {
      ErrorIs(s, e, ctx, t);
      ErrorKeepsFinal(s, e.failedStepId, e.failedNumber, e.error);
    }
  }

  lemma MessageEventKeepsFinal(s: Session, e: Event, ctx: Context, t: Session)
    requires Coherent(s) && FinalOk(s) && Admissible(s, e, ctx) && Reduces(s, e, ctx, t)
    requires e.MessagesCommitted? || e.SystemNotice? || e.Compact?
    ensures KeepsFinal(s, t)
  {
    if e.MessagesCommitted? {
      CommitIs(s, e, ctx, t);
      CommitKeepsFinal(s, e.committed);
    } else if e.SystemNotice? {
      NoticeIs(s, e, ctx, t);
      AppendUsersKeepsFinal(s, [NoticeMessage(s, e.notice, ctx)]);
    } else {
      CompactIs(s, e, ctx, t);
      CompactKeepsFinal(s, e.summary, e.tailStartId, ctx);
    }
  }

  lemma RecordEventKeepsFinal(s: Session, e: Event, ctx: Context, t: Session)
    requires Coherent(s) && FinalOk(s) && Reduces(s, e, ctx, t)
    requires e.Lifecycle? || e.StopRequested? || IsQuietEvent(e)
    ensures KeepsFinal(s, t)
  {
    FinalsKeptRefl(s.messages);
    if e.Lifecycle? {
      LifecycleIs(s, e, ctx, t);
      LifecycleKeepsFinal(s, e.lifecycle, ctx.now);
    } else if e.StopRequested? {
      StopIs(s, e, ctx, t);
      StopKeepsFinal(s, e.executionId, e.timestamp);
    } else {
      QuietIs(s, e, ctx, t);
    }
  }

  /** Every event keeps the final answers: their phase, their trust, and their visible output. */
  lemma ReduceKeepsFinal(s: Session, e: Event, ctx: Context, t: Session)
    requires Coherent(s) && FinalOk(s) && Admissible(s, e, ctx) && Reduces(s, e, ctx, t)
    ensures FinalOk(t) && FinalsKept(s.messages, t.messages)
  {
    if IsPartEvent(e) {
      PartEventKeepsFinal(s, e, ctx, t);
    } else if e.StepStart? || e.StepEnd? || e.ExecutionError? {
      StepEventKeepsFinal(s, e, ctx, t);
    } else if e.MessagesCommitted? || e.SystemNotice? || e.Compact? {
      MessageEventKeepsFinal(s, e, ctx, t);
    } else {
      RecordEventKeepsFinal(s, e, ctx, t);
    }
  }

  /** At most one message of an execution is its final answer. */
  lemma FinalAnswerUnique(s: Session, i: nat, j: nat)
    requires Coherent(s) && FinalOk(s) && i < j < |s.messages|
    requires s.messages[i].Assistant? && s.messages[j].Assistant?
    requires s.messages[i].phase.FinalAnswer? && s.messages[j].phase.FinalAnswer?
    ensures s.messages[i].executionId != s.messages[j].executionId
  {
    StepMessagesDistinct(s.messages, s.steps, i, j);
    assert Selects(s.executions, s.messages[i].executionId, s.messages[i].stepId);
    assert Selects(s.executions, s.messages[j].executionId, s.messages[j].stepId);
  }

  /** A selected final answer exists: its step is the execution's last, stopped, and its message trusted. */
  lemma SelectedAnswerExists(s: Session, executionId: string, stepId: string) returns (i: nat)
    requires Coherent(s) && FinalOk(s) && Selects(s.executions, executionId, stepId)
    ensures i < |s.messages| && IsStepMessage(s.messages[i], stepId)
    ensures s.messages[i].executionId == executionId
    ensures s.messages[i].phase.FinalAnswer? && TrustedOutput(s.messages[i].parts)
    ensures LastStopped(s.steps, executionId, stepId)
  {
    var x := Find(s.executions, executionId);
    assert LastStopped(s.steps, s.executions[x].id, stepId);
    var k := LastStepOf(s.steps, executionId);
    i := MessageOfStep(s.messages, s.steps, k);
  }
}
