/** How an execution comes by its final answer. */
module FinalSelection {
  import opened Prelude
  import opened Utf8
  import opened SessionTypes
  import opened ExecutionLifecycle
  import opened Messages
  import opened Reducer
  import opened Correspondence
  import opened FinalAnswer

  // The other direction of module FinalAnswer: a proper selection is accepted, and a step
  // that outputs text and stops is one, however many steps came before it.

  predicate IsVisible(p: Part) {
    p.Block? && p.channel == Output
  }

  predicate SaysSomething(t: Text) {
    exists k :: 0 <= k < |t| && !IsSpace(t[k])
  }

  /** Some visible output is not blank, and all of it is complete, neither interrupted nor discarded. */
  predicate CanShow(parts: seq<Part>) {
    && (exists j :: 0 <= j < |parts| && IsVisible(parts[j]) && SaysSomething(parts[j].text))
    && (forall j :: 0 <= j < |parts| && IsVisible(parts[j]) ==>
          parts[j].completedAt.Some? && !parts[j].interrupted && !parts[j].discarded)
  }

  lemma CanShowIff(parts: seq<Part>)
    ensures TrustedOutput(parts) <==> CanShow(parts)
  {
  }

  /** The step is the last of its execution, stopped, and its output can be shown. */
  ghost predicate CanSelect(s: Session, executionId: string, stepId: string) {
    && LastStopped(s.steps, executionId, stepId)
    && exists i :: 0 <= i < |s.messages| && IsStepMessage(s.messages[i], stepId) && CanShow(s.messages[i].parts)
  }

  /** An end that the lifecycle allows is accepted exactly when it selects nothing or selects such a step. */
  lemma SelectionAcceptedIff(s: Session, end: End)
    requires Coherent(s) && Validate(s.executions, ExecutionEnd(end)).Valid?
    ensures LifecycleAccepted(s, ExecutionEnd(end))
       <==> (end.finalOutputStepId.Some? ==>
               end.outcome.Completed? && CanSelect(s, end.executionId, end.finalOutputStepId.value))
  {
    if end.finalOutputStepId.Some? {
      var stepId := end.finalOutputStepId.value;
      forall i | 0 <= i < |s.messages| && IsStepMessage(s.messages[i], stepId)
        ensures StepMessageAt(s.messages, stepId) == i
      {
        StepMessageAtIs(s.messages, s.steps, i);
      }
      forall i | 0 <= i < |s.messages| && IsStepMessage(s.messages[i], stepId)
        ensures TrustedOutput(s.messages[i].parts) <==> CanShow(s.messages[i].parts)
      {
        CanShowIff(s.messages[i].parts);
      }
    }
  }

  /** The messages of the selected step, and only they, become final answers. */
  lemma SelectedBecomesFinal(s: Session, end: End, now: int, i: nat)
    requires Coherent(s) && FinalOk(s) && LifecycleAccepted(s, ExecutionEnd(end))
    requires i < |s.messages| && s.messages[i].Assistant?
    ensures var m := OnLifecycle(s, ExecutionEnd(end), now).messages[i];
      && m.Assistant?
      && (m.phase.FinalAnswer? <==>
            s.messages[i].phase.FinalAnswer?
            || (s.messages[i].executionId == end.executionId && end.finalOutputStepId == Some(s.messages[i].stepId)))
      && (m.phase.FinalAnswer? ==> Outputs(m.parts) == Outputs(s.messages[i].parts))
  {
    EndPromotes(s, end, i);
  }

  /* ---------- one answered step ---------- */

  /** What the step is, what it outputs, and the contexts of its events. */
  datatype Answer = Answer(
    stepId: string, number: int, blockId: string, text: Text, usage: Usage,
    started: Context, begun: Context, closed: Context, endedAt: int, end: End)

  /** The step and its message are new, and the execution that is running ends with it. */
  ghost predicate CanAnswer(s: Session, a: Answer) {
    && CurrentRun(s).Some?
    && (forall k :: 0 <= k < |s.steps| ==> s.steps[k].id != a.stepId)
    && (forall i :: 0 <= i < |s.messages| ==>
          s.messages[i].id != a.started.messageId && !IsStepMessage(s.messages[i], a.stepId))
    && a.text != [] && !IsBlank(a.closed.unwrap(a.text))
    && Validate(s.executions, ExecutionEnd(a.end)).Valid?
    && a.end.executionId == CurrentRun(s).value.0
    && a.end.outcome.Completed? && a.end.finalOutputStepId == Some(a.stepId)
  }

  function AnswerPart(a: Answer, text: Text, completedAt: Option<int>): Part {
    Block(Generated(a.begun.partId), Output, a.blockId, text, a.begun.now, completedAt, false, false)
  }

  function AnswerMessage(s: Session, a: Answer, parts: seq<Part>, completedAt: Option<int>): Message
    requires CurrentRun(s).Some?
  {
    var run := CurrentRun(s).value;
    Assistant(a.started.messageId, parts, a.started.now, completedAt, run.0, run.1, a.stepId, Commentary, false)
  }

  function AnswerStep(s: Session, a: Answer): Step
    requires CurrentRun(s).Some?
  {
    Step(a.stepId, a.number, CurrentRun(s).value.0, CurrentRun(s).value.1, a.started.now, None, "", None, None)
  }

  /** The projection while the step is under way, with these parts in its message. */
  ghost predicate UnderWay(s: Session, a: Answer, t: Session, parts: seq<Part>)
    requires CurrentRun(s).Some?
  {
    && t.messages == s.messages + [AnswerMessage(s, a, parts, None)]
    && t.steps == s.steps + [AnswerStep(s, a)]
    && t.executions == s.executions
    && t.currentExecutionId == s.currentExecutionId
    && t.currentAssistantMessageId == Some(a.started.messageId)
  }

  lemma LastStepMessage(ms: seq<Message>, m: Message)
    requires m.Assistant? && forall i :: 0 <= i < |ms| ==> ms[i].id != m.id && !IsStepMessage(ms[i], m.stepId)
    ensures StepMessageAt(ms + [m], m.stepId) == |ms| && MessageAt(ms + [m], m.id) == |ms|
  {
    var all := ms + [m];
    assert forall i :: 0 <= i < |ms| ==> all[i] == ms[i];
    assert all[|ms|] == m;
  }

  lemma UpdateLast(ms: seq<Message>, m: Message, p: Part, f: Part -> Part)
    requires m.Assistant? && m.parts == [p] && forall i :: 0 <= i < |ms| ==> ms[i].id != m.id
    ensures UpdatePart(ms + [m], Location(m.id, p.id), f) == ms + [m.(parts := [f(p)])]
  {
    var all, after := ms + [m], UpdatePart(ms + [m], Location(m.id, p.id), f);
    assert forall i :: 0 <= i < |ms| ==> all[i] == ms[i];
    assert all[|ms|] == m;
    assert MapParts([p], p.id, f) == [f(p)];
  }

  lemma ActiveWhileUnderWay(s: Session, a: Answer, t: Session, parts: seq<Part>)
    requires CurrentRun(s).Some? && UnderWay(s, a, t, parts)
    ensures CurrentRun(t) == CurrentRun(s) && IsActiveOpenStep(t, a.stepId)
  {
    assert t.steps[|s.steps|] == AnswerStep(s, a);
  }

  lemma Starts(s: Session, a: Answer)
    requires CanAnswer(s, a)
    ensures UnderWay(s, a, OnStepStart(s, a.stepId, a.number, a.started), [])
  {
  }

  lemma Opens(s: Session, a: Answer, t: Session)
    requires CanAnswer(s, a) && UnderWay(s, a, t, [])
    ensures UnderWay(s, a, OnBlockStart(t, Output, a.stepId, a.blockId, a.begun), [AnswerPart(a, [], None)])
  {
    var m := AnswerMessage(s, a, [], None);
    ActiveWhileUnderWay(s, a, t, []);
    LastStepMessage(s.messages, m);
    var p := AnswerPart(a, [], None);
    assert m.parts + [p] == [p];
    assert AppendPart(t.messages, m.id, p) == s.messages + [m.(parts := [p])];
  }

  /** The one part of the message is found as its open block. */
  lemma OpenWhileUnderWay(s: Session, a: Answer, t: Session, text: Text)
    requires CanAnswer(s, a) && UnderWay(s, a, t, [AnswerPart(a, text, None)])
    ensures var p := AnswerPart(a, text, None);
      && OpenBlock(t, Output, a.stepId, a.blockId) == Some(Location(a.started.messageId, p.id))
      && GetPart(t.messages, Location(a.started.messageId, p.id)) == Some(p)
  {
    var p := AnswerPart(a, text, None);
    ActiveWhileUnderWay(s, a, t, [p]);
    LastStepMessage(s.messages, AnswerMessage(s, a, [p], None));
    assert BlockAt([p], Output, a.blockId) == 0 && PartAt([p], p.id) == 0;
  }

  lemma Writes(s: Session, a: Answer, t: Session)
    requires CanAnswer(s, a) && UnderWay(s, a, t, [AnswerPart(a, [], None)])
    ensures UnderWay(s, a, OnBlockDelta(t, Output, a.stepId, a.blockId, a.text), [AnswerPart(a, a.text, None)])
  {
    var p, text := AnswerPart(a, [], None), a.text;
    OpenWhileUnderWay(s, a, t, []);
    assert [] + text == text;
    UpdateLast(s.messages, AnswerMessage(s, a, [p], None), p, (q: Part) =>
      if q.Block? && q.channel == Output then q.(text := q.text + text) else q);
  }

  lemma Closes(s: Session, a: Answer, t: Session)
    requires CanAnswer(s, a) && UnderWay(s, a, t, [AnswerPart(a, a.text, None)])
    ensures var text := a.closed.unwrap(a.text);
      UnderWay(s, a, OnBlockEnd(t, Output, a.stepId, a.blockId, a.closed), [AnswerPart(a, text, Some(a.closed.now))])
  {
    var p := AnswerPart(a, a.text, None);
    OpenWhileUnderWay(s, a, t, a.text);
    var unwrap, now := a.closed.unwrap, a.closed.now;
    UpdateLast(s.messages, AnswerMessage(s, a, [p], None), p, (q: Part) =>
      if q.Block? && q.channel == Output
      then q.(text := Unwrapped(Output, q.text, unwrap), completedAt := Some(now)) else q);
  }

  /** The step ends with a stop of the model; its message is complete. */
  lemma Stops(s: Session, a: Answer, t: Session, p: Part)
    requires CanAnswer(s, a) && UnderWay(s, a, t, [p])
    ensures var u := OnStepEnd(t, a.stepId, a.number, "stop", a.usage, a.endedAt);
      && u.messages == s.messages + [AnswerMessage(s, a, [p], Some(a.endedAt))]
      && u.steps == s.steps
           + [AnswerStep(s, a).(completedAt := Some(a.endedAt), finishReason := "stop", usage := Some(a.usage))]
      && u.executions == s.executions
      && u.currentAssistantMessageId == t.currentAssistantMessageId
  {
    var k := |s.steps|;
    ActiveWhileUnderWay(s, a, t, [p]);
    assert EndsHere(t.steps[k], a.stepId, a.number, CurrentRun(t).value);
    var steps := EndSteps(t.steps, a.stepId, a.number, CurrentRun(t).value, "stop", a.usage, a.endedAt);
    assert forall j :: 0 <= j < k ==> t.steps[j] == s.steps[j];
    assert steps == s.steps
      + [AnswerStep(s, a).(completedAt := Some(a.endedAt), finishReason := "stop", usage := Some(a.usage))];
    var after := StepEndMessages(t.messages, a.stepId, "stop", a.endedAt);
    assert forall i :: 0 <= i < |s.messages| ==> t.messages[i] == s.messages[i];
    assert after == s.messages + [AnswerMessage(s, a, [p], Some(a.endedAt))];
  }

  /** Such a projection is one whose end is accepted, and whose last message it makes the final answer. */
  lemma Answers(s: Session, a: Answer, u: Session, p: Part)
    requires CanAnswer(s, a) && p.Block? && p == AnswerPart(a, p.text, Some(a.closed.now)) && !IsBlank(p.text)
    requires u.messages == s.messages + [AnswerMessage(s, a, [p], Some(a.endedAt))]
    requires u.steps == s.steps
      + [AnswerStep(s, a).(completedAt := Some(a.endedAt), finishReason := "stop", usage := Some(a.usage))]
    requires u.executions == s.executions
    ensures LifecycleAccepted(u, ExecutionEnd(a.end))
    ensures var ms := EndedMessages(u.messages, u.currentAssistantMessageId, a.end);
      ms[|s.messages|] == AnswerMessage(s, a, [p], Some(a.endedAt)).(phase := FinalAnswer)
  {
    var m := AnswerMessage(s, a, [p], Some(a.endedAt));
    LastStepMessage(s.messages, m);
    assert u.messages[|s.messages|] == m && m.parts[0] == p;
    assert LastStepOf(u.steps, a.end.executionId) == |s.steps|;
    assert TrustedOutput(m.parts);
    var n := EndedMessages(u.messages, u.currentAssistantMessageId, a.end)[|s.messages|];
    assert n.parts == [p];
  }

  /** The projections after the four events before the step ends. */
  lemma AnswerUnderWay(s: Session, a: Answer) returns (s4: Session)
    requires CanAnswer(s, a)
    ensures var s1 := OnStepStart(s, a.stepId, a.number, a.started);
      var s2 := OnBlockStart(s1, Output, a.stepId, a.blockId, a.begun);
      var s3 := OnBlockDelta(s2, Output, a.stepId, a.blockId, a.text);
      s4 == OnBlockEnd(s3, Output, a.stepId, a.blockId, a.closed)
    ensures UnderWay(s, a, s4, [AnswerPart(a, a.closed.unwrap(a.text), Some(a.closed.now))])
  {
    var s1 := OnStepStart(s, a.stepId, a.number, a.started);
    Starts(s, a);
    var s2 := OnBlockStart(s1, Output, a.stepId, a.blockId, a.begun);
    Opens(s, a, s1);
    s4 := AnswerWritten(s, a, s2);
  }

  lemma AnswerWritten(s: Session, a: Answer, s2: Session) returns (s4: Session)
    requires CanAnswer(s, a) && UnderWay(s, a, s2, [AnswerPart(a, [], None)])
    ensures var s3 := OnBlockDelta(s2, Output, a.stepId, a.blockId, a.text);
      s4 == OnBlockEnd(s3, Output, a.stepId, a.blockId, a.closed)
    ensures UnderWay(s, a, s4, [AnswerPart(a, a.closed.unwrap(a.text), Some(a.closed.now))])
  {
    var s3 := OnBlockDelta(s2, Output, a.stepId, a.blockId, a.text);
    Writes(s, a, s2);
    s4 := OnBlockEnd(s3, Output, a.stepId, a.blockId, a.closed);
    Closes(s, a, s3);
  }

  /** The execution whose last step has just stopped with this text ends with it as its final answer. */
  lemma AnswerFinal(s: Session, a: Answer, s4: Session)
    requires CanAnswer(s, a)
    requires UnderWay(s, a, s4, [AnswerPart(a, a.closed.unwrap(a.text), Some(a.closed.now))])
    ensures var s5 := OnStepEnd(s4, a.stepId, a.number, "stop", a.usage, a.endedAt);
      var t := OnLifecycle(s5, ExecutionEnd(a.end), a.end.endedAt);
      var p := AnswerPart(a, a.closed.unwrap(a.text), Some(a.closed.now));
      && LifecycleAccepted(s5, ExecutionEnd(a.end))
      && |t.messages| == |s.messages| + 1
      && t.messages[|s.messages|] == AnswerMessage(s, a, [p], Some(a.endedAt)).(phase := FinalAnswer)
  {
    var p := AnswerPart(a, a.closed.unwrap(a.text), Some(a.closed.now));
    Stops(s, a, s4, p);
    AnswerEnds(s, a, OnStepEnd(s4, a.stepId, a.number, "stop", a.usage, a.endedAt), p);
  }

  lemma AnswerEnds(s: Session, a: Answer, u: Session, p: Part)
    requires CanAnswer(s, a) && p.Block? && p == AnswerPart(a, p.text, Some(a.closed.now)) && !IsBlank(p.text)
    requires u.messages == s.messages + [AnswerMessage(s, a, [p], Some(a.endedAt))]
    requires u.steps == s.steps
      + [AnswerStep(s, a).(completedAt := Some(a.endedAt), finishReason := "stop", usage := Some(a.usage))]
    requires u.executions == s.executions
    ensures LifecycleAccepted(u, ExecutionEnd(a.end))
    ensures var t := OnLifecycle(u, ExecutionEnd(a.end), a.end.endedAt);
      && |t.messages| == |s.messages| + 1
      && t.messages[|s.messages|] == AnswerMessage(s, a, [p], Some(a.endedAt)).(phase := FinalAnswer)
  {
    Answers(s, a, u, p);
  }

  /**
   A step that is started, outputs a text, and stops can be selected by the end of its
   execution, and its message with that text, unwrapped, is then the final answer.
   */
  lemma AnsweredStep(s: Session, a: Answer)
    requires CanAnswer(s, a)
    ensures var s1 := OnStepStart(s, a.stepId, a.number, a.started);
      var s2 := OnBlockStart(s1, Output, a.stepId, a.blockId, a.begun);
      var s3 := OnBlockDelta(s2, Output, a.stepId, a.blockId, a.text);
      var s4 := OnBlockEnd(s3, Output, a.stepId, a.blockId, a.closed);
      var s5 := OnStepEnd(s4, a.stepId, a.number, "stop", a.usage, a.endedAt);
      var t := OnLifecycle(s5, ExecutionEnd(a.end), a.end.endedAt);
      var p := AnswerPart(a, a.closed.unwrap(a.text), Some(a.closed.now));
      && LifecycleAccepted(s5, ExecutionEnd(a.end))
      && |t.messages| == |s.messages| + 1
      && t.messages[|s.messages|] == AnswerMessage(s, a, [p], Some(a.endedAt)).(phase := FinalAnswer)
  {
    var s4 := AnswerUnderWay(s, a);
    AnswerFinal(s, a, s4);
  }
}
