/** Statistics as a census of the projection. */
module Census {
  import opened Prelude
  import opened Utf8
  import opened SessionTypes
  import opened Messages
  import opened Reducer
  import opened Steps
  import opened PartEvents
  import opened MessageIdentity
  import opened Correspondence
  import opened ToolMachine

  // Step, tool and message counters equal what can be counted in the projection, and token
  // usage is the sum over completed steps. The count of Assistant messages exceeds those with
  // content by exactly the messages emptied when an echoed envelope was unwrapped to nothing.

  /* ---------- counting ---------- */

  predicate IsResult(p: Part, isError: bool) {
    p.Tool? && p.state.ToolSettled? && p.state.result.isError == isError
  }

  function Results(parts: seq<Part>, isError: bool): nat {
    if parts == [] then 0
    else Results(parts[..|parts| - 1], isError) + if IsResult(parts[|parts| - 1], isError) then 1 else 0
  }

  /** Results with the given outcome over all messages. */
  function AllResults(ms: seq<Message>, isError: bool): nat {
    if ms == [] then 0
    else AllResults(ms[..|ms| - 1], isError) + Results(PartsOf(ms[|ms| - 1]), isError)
  }

  function WithContent(ms: seq<Message>): nat {
    if ms == [] then 0
    else WithContent(ms[..|ms| - 1]) + if HasContent(ms[|ms| - 1]) then 1 else 0
  }

  /** A canonical user input; notices and compaction summaries are not. */
  predicate IsUserInput(m: Message) {
    && m.User? && m.userParts != []
    && forall j :: 0 <= j < |m.userParts| ==> m.userParts[j].TextPart? || m.userParts[j].AttachmentPart?
  }

  function UserInputs(ms: seq<Message>): nat {
    if ms == [] then 0
    else UserInputs(ms[..|ms| - 1]) + if IsUserInput(ms[|ms| - 1]) then 1 else 0
  }

  function CompletedSteps(steps: seq<Step>): nat {
    if steps == [] then 0
    else CompletedSteps(steps[..|steps| - 1]) + if steps[|steps| - 1].completedAt.Some? then 1 else 0
  }

  function StepUsage(step: Step): Usage {
    if step.completedAt.Some? && step.usage.Some? then step.usage.value else NO_USAGE
  }

  function UsageOf(steps: seq<Step>): Usage {
    if steps == [] then NO_USAGE else AddUsage(UsageOf(steps[..|steps| - 1]), StepUsage(steps[|steps| - 1]))
  }

  ghost predicate StepCensus(s: Session) {
    && s.stats.stepsStarted == |s.steps|
    && s.stats.stepsCompleted == CompletedSteps(s.steps)
    && s.stats.usage == UsageOf(s.steps)
    && forall k :: 0 <= k < |s.steps| ==> (s.steps[k].completedAt.Some? <==> s.steps[k].usage.Some?)
  }

  ghost predicate MessageCensus(ms: seq<Message>, stats: Stats) {
    && stats.toolsCompleted == AllResults(ms, false)
    && stats.toolsFailed == AllResults(ms, true)
    && stats.userMessages == UserInputs(ms)
    && stats.totalMessages == stats.userMessages + stats.assistantMessages
    && stats.assistantMessages >= WithContent(ms)
  }

  ghost predicate CensusOk(s: Session) {
    StepCensus(s) && MessageCensus(s.messages, s.stats)
  }

  /** Counted Assistant messages without content. */
  function Slack(s: Session): int {
    s.stats.assistantMessages - WithContent(s.messages)
  }

  /* ---------- sums under list changes ---------- */

  lemma {:induction false} ConcatCounts(a: seq<Message>, b: seq<Message>)
    ensures forall isError :: AllResults(a + b, isError) == AllResults(a, isError) + AllResults(b, isError)
    ensures WithContent(a + b) == WithContent(a) + WithContent(b)
    ensures UserInputs(a + b) == UserInputs(a) + UserInputs(b)
  {
    if b == [] {
      assert a + b == a;
    } else {
      var front := b[..|b| - 1];
      assert (a + b)[..|a + b| - 1] == a + front;
      ConcatCounts(a, front);
    }
  }

  /** What one message contributes. */
  datatype Weight = Weight(completed: nat, failed: nat, content: nat, input: nat)

  function WeightOf(m: Message): Weight {
    Weight(Results(PartsOf(m), false), Results(PartsOf(m), true),
           if HasContent(m) then 1 else 0, if IsUserInput(m) then 1 else 0)
  }

  lemma {:induction false} SameWeights(a: seq<Message>, b: seq<Message>)
    requires |a| == |b| && forall i :: 0 <= i < |a| ==> WeightOf(a[i]) == WeightOf(b[i])
    ensures forall isError :: AllResults(a, isError) == AllResults(b, isError)
    ensures WithContent(a) == WithContent(b)
    ensures UserInputs(a) == UserInputs(b)
  {
    if a != [] {
      SameWeights(a[..|a| - 1], b[..|b| - 1]);
      assert WeightOf(a[|a| - 1]) == WeightOf(b[|b| - 1]);
    }
  }

  lemma OneMessageCounts(m: Message)
    ensures AllResults([m], false) == WeightOf(m).completed && AllResults([m], true) == WeightOf(m).failed
    ensures WithContent([m]) == WeightOf(m).content
    ensures UserInputs([m]) == WeightOf(m).input
  {
    assert [m][..0] == [];
  }

  /** Replacing one message moves the totals by the difference of the two weights. */
  lemma ReplaceCounts(ms: seq<Message>, i: nat, m: Message)
    requires i < |ms|
    ensures AllResults(ms[i := m], false) == AllResults(ms, false) - WeightOf(ms[i]).completed + WeightOf(m).completed
    ensures AllResults(ms[i := m], true) == AllResults(ms, true) - WeightOf(ms[i]).failed + WeightOf(m).failed
    ensures WithContent(ms[i := m]) == WithContent(ms) - WeightOf(ms[i]).content + WeightOf(m).content
    ensures UserInputs(ms[i := m]) == UserInputs(ms) - WeightOf(ms[i]).input + WeightOf(m).input
  {
    var front, back := ms[..i], ms[i + 1..];
    assert ms == front + ([ms[i]] + back);
    assert ms[i := m] == front + ([m] + back);
    ConcatCounts(front, [ms[i]] + back);
    ConcatCounts([ms[i]], back);
    ConcatCounts(front, [m] + back);
    ConcatCounts([m], back);
    OneMessageCounts(ms[i]);
    OneMessageCounts(m);
  }

  lemma {:induction false} ResultsConcat(a: seq<Part>, b: seq<Part>, isError: bool)
    ensures Results(a + b, isError) == Results(a, isError) + Results(b, isError)
  {
    if b == [] {
      assert a + b == a;
    } else {
      var front := b[..|b| - 1];
      assert (a + b)[..|a + b| - 1] == a + front;
      ResultsConcat(a, front, isError);
    }
  }

  lemma ResultsOne(p: Part, isError: bool)
    ensures Results([p], isError) == if IsResult(p, isError) then 1 else 0
  {
    assert [p][..0] == [];
  }

  lemma ResultsReplace(parts: seq<Part>, j: nat, p: Part, isError: bool)
    requires j < |parts|
    ensures Results(parts[j := p], isError)
         == Results(parts, isError) - Results([parts[j]], isError) + Results([p], isError)
  {
    var front, back := parts[..j], parts[j + 1..];
    assert parts == front + ([parts[j]] + back);
    assert parts[j := p] == front + ([p] + back);
    ResultsConcat(front, [parts[j]] + back, isError);
    ResultsConcat([parts[j]], back, isError);
    ResultsConcat(front, [p] + back, isError);
    ResultsConcat([p], back, isError);
  }

  lemma ResultsRemove(parts: seq<Part>, j: nat, isError: bool)
    requires j < |parts| && !IsResult(parts[j], isError)
    ensures Results(parts[..j] + parts[j + 1..], isError) == Results(parts, isError)
  {
    var front, back := parts[..j], parts[j + 1..];
    assert parts == front + ([parts[j]] + back);
    ResultsConcat(front, [parts[j]] + back, isError);
    ResultsConcat([parts[j]], back, isError);
    ResultsConcat(front, back, isError);
    ResultsOne(parts[j], isError);
  }

  lemma {:induction false} ResultsSame(a: seq<Part>, b: seq<Part>, isError: bool)
    requires |a| == |b| && forall j :: 0 <= j < |a| ==> (IsResult(a[j], isError) <==> IsResult(b[j], isError))
    ensures Results(a, isError) == Results(b, isError)
  {
    if a != [] {
      ResultsSame(a[..|a| - 1], b[..|b| - 1], isError);
    }
  }

  /* ---------- single edits ---------- */

  function Gain(before: Part, after: Part, isError: bool): int {
    (if IsResult(after, isError) then 1 else 0) - (if IsResult(before, isError) then 1 else 0)
  }

  lemma EditedWeight(m: Message, edit: Edit)
    requires m.Assistant? && !edit.Keep? && (edit.Append? || edit.j < |m.parts|)
    requires edit.Remove? ==> m.parts[edit.j].Block?
    requires edit.Append? ==> !IsResult(edit.part, true) && !IsResult(edit.part, false)
    ensures var n := m.(parts := EditedParts(m.parts, edit));
      && WeightOf(n).input == WeightOf(m).input == 0
      && WeightOf(n).completed
           == WeightOf(m).completed + (if edit.Replace? then Gain(m.parts[edit.j], edit.part, false) else 0)
      && WeightOf(n).failed
           == WeightOf(m).failed + (if edit.Replace? then Gain(m.parts[edit.j], edit.part, true) else 0)
  {
    forall isError
      ensures Results(EditedParts(m.parts, edit), isError)
        == Results(m.parts, isError) + (if edit.Replace? then Gain(m.parts[edit.j], edit.part, isError) else 0)
    {
      match edit {
        case Append(_, part) =>
          ResultsConcat(m.parts, [part], isError);
          ResultsOne(part, isError);
        case Replace(_, j, part) =>
          ResultsReplace(m.parts, j, part, isError);
          ResultsOne(m.parts[j], isError);
          ResultsOne(part, isError);
        case Remove(_, j) => ResultsRemove(m.parts, j, isError);
      }
    }
  }

  /** Content after an edit: gained by new content, lost only when the last content is emptied. */
  lemma EditedContent(m: Message, edit: Edit)
    requires m.Assistant? && !edit.Keep? && (edit.Append? || edit.j < |m.parts|)
    ensures var n := m.(parts := EditedParts(m.parts, edit));
      && (edit.Append? ==> (HasContent(n) <==> HasContent(m) || IsContent(edit.part)))
      && (edit.Replace? && IsContent(edit.part) ==> HasContent(n))
      && (edit.Replace? && !IsContent(m.parts[edit.j]) && !IsContent(edit.part) ==> (HasContent(n) <==> HasContent(m)))
      && (edit.Replace? && IsContent(m.parts[edit.j]) ==> HasContent(m))
      && (edit.Remove? && !IsContent(m.parts[edit.j]) ==> (HasContent(n) <==> HasContent(m)))
  {
    var after := EditedParts(m.parts, edit);
    var n := m.(parts := after);
    if edit.Replace? {
      assert IsContent(edit.part) ==> IsContent(PartsOf(n)[edit.j]);
      assert IsContent(m.parts[edit.j]) ==> IsContent(PartsOf(m)[edit.j]);
    }
    if edit.Append? {
      assert PartsOf(n)[|m.parts|] == edit.part;
    }
    if HasContent(m) {
      var j :| 0 <= j < |PartsOf(m)| && IsContent(PartsOf(m)[j]);
      if edit.Remove? {
        assert edit.j != j ==> PartsOf(n)[if j < edit.j then j else j - 1] == PartsOf(m)[j];
      } else {
        assert edit.Append? || edit.j != j ==> PartsOf(n)[j] == PartsOf(m)[j];
      }
    }
    if HasContent(n) {
      var j :| 0 <= j < |PartsOf(n)| && IsContent(PartsOf(n)[j]);
      if edit.Remove? {
        assert PartsOf(m)[if j < edit.j then j else j + 1] == PartsOf(n)[j];
      } else {
        assert j < |m.parts| && (edit.Append? || edit.j != j) ==> PartsOf(m)[j] == PartsOf(n)[j];
      }
    }
  }

  /* ---------- steps ---------- */

  lemma {:induction false} ReplaceStep(steps: seq<Step>, k: nat, step: Step)
    requires k < |steps| && steps[k].completedAt.None? && step.completedAt.Some?
    ensures CompletedSteps(steps[k := step]) == CompletedSteps(steps) + 1
    ensures UsageOf(steps[k := step]) == AddUsage(UsageOf(steps), StepUsage(step))
  {
    var last := |steps| - 1;
    var after := steps[k := step];
    if k == last {
      assert after[..last] == steps[..last] && after[last] == step;
    } else {
      assert after[..last] == steps[..last][k := step] && after[last] == steps[last];
      ReplaceStep(steps[..last], k, step);
    }
  }

  lemma {:induction false} SameStepSums(a: seq<Step>, b: seq<Step>)
    requires |a| == |b|
    requires forall k :: 0 <= k < |a| ==> a[k].completedAt == b[k].completedAt && a[k].usage == b[k].usage
    ensures CompletedSteps(a) == CompletedSteps(b) && UsageOf(a) == UsageOf(b)
  {
    if a != [] {
      SameStepSums(a[..|a| - 1], b[..|b| - 1]);
    }
  }

  /** An accepted step end completes exactly one step. */
  lemma EndsOneStep(
    s: Session, stepId: string, number: int, finishReason: string, usage: Usage, now: int) returns (k: nat)
    requires StepsOk(s.steps, s.executions) && CurrentRun(s).Some?
    requires exists l :: 0 <= l < |s.steps| && EndsHere(s.steps[l], stepId, number, CurrentRun(s).value)
    ensures k < |s.steps| && s.steps[k].completedAt.None?
    ensures EndSteps(s.steps, stepId, number, CurrentRun(s).value, finishReason, usage, now)
         == s.steps[k := s.steps[k].(completedAt := Some(now), finishReason := finishReason, usage := Some(usage))]
  {
    k :| 0 <= k < |s.steps| && EndsHere(s.steps[k], stepId, number, CurrentRun(s).value);
  }

  lemma StepEndKeepsStepCensus(s: Session, stepId: string, number: int, finishReason: string, usage: Usage, now: int)
    requires StepsOk(s.steps, s.executions) && StepCensus(s)
    ensures StepCensus(OnStepEnd(s, stepId, number, finishReason, usage, now))
  {
    var t := OnStepEnd(s, stepId, number, finishReason, usage, now);
    if t != s {
      var k := EndsOneStep(s, stepId, number, finishReason, usage, now);
      ReplaceStep(s.steps, k, t.steps[k]);
    }
  }

  lemma StepStartKeepsStepCensus(s: Session, stepId: string, number: int, ctx: Context)
    requires StepCensus(s)
    ensures StepCensus(OnStepStart(s, stepId, number, ctx))
  {
    var t := OnStepStart(s, stepId, number, ctx);
    if t != s {
      assert t.steps[..|s.steps|] == s.steps;
    }
  }

  lemma ErrorKeepsStepCensus(s: Session, stepId: Option<string>, number: Option<int>, error: string)
    requires StepCensus(s)
    ensures StepCensus(OnExecutionError(s, stepId, number, error))
  {
    SameStepSums(s.steps, OnExecutionError(s, stepId, number, error).steps);
  }

  /* ---------- messages ---------- */

  /** The message counters stay right, and `lost` messages were emptied. */
  ghost predicate Tallies(s: Session, t: Session, lost: nat) {
    && (MessageCensus(s.messages, s.stats) ==> MessageCensus(t.messages, t.stats))
    && Slack(t) == Slack(s) + lost
    && t.stats.stepsStarted == s.stats.stepsStarted
    && t.stats.stepsCompleted == s.stats.stepsCompleted
    && t.stats.usage == s.stats.usage
    && t.steps == s.steps
  }

  /**
   The end of this block unwraps to nothing although text had been counted, and the
   message has no other content.
   */
  predicate EmptiesMessage(s: Session, e: Event, ctx: Context) {
    && e.BlockEnd?
    && var at := OpenBlock(s, e.channel, e.stepId, e.blockId);
    && at.Some?
    && GetPart(s.messages, at.value).value.text != []
    && Unwrapped(e.channel, GetPart(s.messages, at.value).value.text, ctx.unwrap) == []
    && OnlyContent(PartsOf(s.messages[MessageAt(s.messages, at.value.messageId)]), at.value.partId)
  }

  predicate OnlyContent(parts: seq<Part>, id: PartId) {
    forall j :: 0 <= j < |parts| && IsContent(parts[j]) ==> parts[j].id == id
  }

  lemma EditCounts(s: Session, t: Session, edit: Edit)
    requires Edited(s, t, edit) && !edit.Keep?
    ensures var n := s.messages[edit.i].(parts := EditedParts(s.messages[edit.i].parts, edit));
      && t.messages == s.messages[edit.i := n]
      && AllResults(t.messages, false)
           == AllResults(s.messages, false) - WeightOf(s.messages[edit.i]).completed + WeightOf(n).completed
      && AllResults(t.messages, true)
           == AllResults(s.messages, true) - WeightOf(s.messages[edit.i]).failed + WeightOf(n).failed
      && WithContent(t.messages) == WithContent(s.messages) - WeightOf(s.messages[edit.i]).content + WeightOf(n).content
      && UserInputs(t.messages) == UserInputs(s.messages) - WeightOf(s.messages[edit.i]).input + WeightOf(n).input
  {
    ReplaceCounts(s.messages, edit.i, s.messages[edit.i].(parts := EditedParts(s.messages[edit.i].parts, edit)));
  }

  /** An edit that settles nothing, with the counter moved exactly when content appears or vanishes. */
  lemma QuietEditTallies(s: Session, t: Session, edit: Edit, lost: nat)
    requires Edited(s, t, edit) && !edit.Keep? && lost <= 1
    requires edit.Remove? ==> Target(s, edit).Block?
    requires edit.Append? ==> !IsResult(edit.part, true) && !IsResult(edit.part, false)
    requires edit.Replace? ==> Gain(Target(s, edit), edit.part, true) == Gain(Target(s, edit), edit.part, false) == 0
    requires var m := s.messages[edit.i];
      var n := m.(parts := EditedParts(m.parts, edit));
      var counted := WeightOf(n).content - WeightOf(m).content + lost;
      t.stats == s.stats.(assistantMessages := s.stats.assistantMessages + counted,
                          totalMessages := s.stats.totalMessages + counted,
                          toolCalls := t.stats.toolCalls)
    ensures Tallies(s, t, lost)
  {
    EditCounts(s, t, edit);
    EditedWeight(s.messages[edit.i], edit);
  }

  lemma BlockStartTallies(s: Session, channel: Channel, stepId: string, blockId: string, ctx: Context)
    requires Addressable(s.messages)
    ensures Tallies(s, OnBlockStart(s, channel, stepId, blockId, ctx), 0)
  {
    var edit := BlockStartIsEdit(s, channel, stepId, blockId, ctx);
    if !edit.Keep? {
      EditedContent(s.messages[edit.i], edit);
      QuietEditTallies(s, OnBlockStart(s, channel, stepId, blockId, ctx), edit, 0);
    }
  }

  lemma BlockDeltaTallies(s: Session, channel: Channel, stepId: string, blockId: string, text: Text)
    requires Addressable(s.messages)
    ensures Tallies(s, OnBlockDelta(s, channel, stepId, blockId, text), 0)
  {
    var edit := BlockDeltaIsEdit(s, channel, stepId, blockId, text);
    if !edit.Keep? {
      EditedContent(s.messages[edit.i], edit);
      QuietEditTallies(s, OnBlockDelta(s, channel, stepId, blockId, text), edit, 0);
    }
  }

  /** The other content of a message keeps it from being emptied. */
  lemma LostExactly(parts: seq<Part>, j: nat, part: Part, m: Message)
    requires DistinctParts(parts) && j < |parts| && IsContent(parts[j]) && m.Assistant? && m.parts == parts
    ensures HasContent(m)
    ensures HasContent(m.(parts := parts[j := part])) <==> IsContent(part) || !OnlyContent(parts, parts[j].id)
  {
    var n := m.(parts := parts[j := part]);
    assert IsContent(PartsOf(m)[j]);
    assert IsContent(part) ==> IsContent(PartsOf(n)[j]);
    if !OnlyContent(parts, parts[j].id) {
      var k :| 0 <= k < |parts| && IsContent(parts[k]) && parts[k].id != parts[j].id;
      assert IsContent(PartsOf(n)[k]);
    }
  }

  lemma BlockEndTallies(s: Session, e: Event, ctx: Context)
    requires Addressable(s.messages) && e.BlockEnd?
    ensures Tallies(s, OnBlockEnd(s, e.channel, e.stepId, e.blockId, ctx), if EmptiesMessage(s, e, ctx) then 1 else 0)
  {
    var t := OnBlockEnd(s, e.channel, e.stepId, e.blockId, ctx);
    var edit := BlockEndIsEdit(s, e.channel, e.stepId, e.blockId, ctx);
    if !edit.Keep? {
      var i, j := OpenBlockIs(s, e.channel, e.stepId, e.blockId);
      EditedContent(s.messages[i], edit);
      if edit.Replace? {
        LostExactly(s.messages[i].parts, j, edit.part, s.messages[i]);
      }
      QuietEditTallies(s, t, edit, if EmptiesMessage(s, e, ctx) then 1 else 0);
    }
  }

  lemma NewCallTallies(s: Session, t: Session, edit: Edit)
    requires Edited(s, t, edit) && edit.Append? && IsContent(edit.part)
    requires !IsResult(edit.part, true) && !IsResult(edit.part, false)
    requires t.stats == CountFirstContent(s.stats, s.messages[edit.i]).(toolCalls := t.stats.toolCalls)
    ensures Tallies(s, t, 0)
  {
    EditedContent(s.messages[edit.i], edit);
    QuietEditTallies(s, t, edit, 0);
  }

  /** Replacing content by content, nothing settled. */
  lemma ContentReplaceTallies(s: Session, t: Session, edit: Edit)
    requires Edited(s, t, edit) && edit.Replace? && IsContent(Target(s, edit)) && IsContent(edit.part)
    requires Gain(Target(s, edit), edit.part, true) == Gain(Target(s, edit), edit.part, false) == 0
    requires t.stats == s.stats.(toolCalls := t.stats.toolCalls)
    ensures Tallies(s, t, 0)
  {
    EditedContent(s.messages[edit.i], edit);
    QuietEditTallies(s, t, edit, 0);
  }

  lemma ToolInputStartTallies(s: Session, e: Event, ctx: Context, t: Session)
    requires Addressable(s.messages) && Reduces(s, e, ctx, t) && e.ToolInputStart?
    ensures Tallies(s, t, 0)
  {
    var edit := ToolInputStartChange(s, e, ctx, t);
    if edit.Append? {
      NewCallTallies(s, t, edit);
    }
  }

  lemma ToolCallTallies(s: Session, e: Event, ctx: Context, t: Session)
    requires Addressable(s.messages) && Reduces(s, e, ctx, t) && e.ToolCall?
    ensures Tallies(s, t, 0)
  {
    var edit := ToolCallChange(s, e, ctx, t);
    if edit.Append? {
      NewCallTallies(s, t, edit);
    } else if edit.Replace? {
      ContentReplaceTallies(s, t, edit);
    }
  }

  /** A tool part replaced by another unsettled or equally settled one. */
  lemma ReplacedTallies(s: Session, t: Session, edit: Edit, toolCallId: string)
    requires ToolReplaced(s, t, edit, toolCallId) && t.stats == s.stats
    requires edit.Replace? ==> Gain(Target(s, edit), edit.part, true) == Gain(Target(s, edit), edit.part, false) == 0
    ensures Tallies(s, t, 0)
  {
    if edit.Replace? {
      ContentReplaceTallies(s, t, edit);
    }
  }

  lemma ToolInputResolvedTallies(s: Session, e: Event, ctx: Context, t: Session)
    requires Addressable(s.messages) && Reduces(s, e, ctx, t) && e.ToolInputResolved?
    ensures Tallies(s, t, 0)
  {
    var edit := ToolInputResolvedChange(s, e, ctx, t);
    ReplacedTallies(s, t, edit, e.toolCallId);
  }

  lemma AttemptSettlesNothing(p: Part, attempt: Attempt)
    requires p.Tool? && !p.state.ToolSettled?
    ensures !IsResult(WithAttempt(p, attempt), true) && !IsResult(WithAttempt(p, attempt), false)
  {
  }

  lemma ToolAttemptTallies(s: Session, e: Event, ctx: Context, t: Session)
    requires Addressable(s.messages) && Reduces(s, e, ctx, t) && e.ToolAttempt?
    ensures Tallies(s, t, 0)
  {
    var edit := ToolAttemptChange(s, e, ctx, t);
    if edit.Replace? {
      AttemptSettlesNothing(s.messages[edit.i].parts[edit.j], e.attempt);
    }
    ReplacedTallies(s, t, edit, e.toolCallId);
  }

  lemma ToolOutputDeltaTallies(s: Session, e: Event, ctx: Context, t: Session)
    requires Addressable(s.messages) && Reduces(s, e, ctx, t) && e.ToolOutputDelta?
    ensures Tallies(s, t, 0)
  {
    var edit := ToolOutputDeltaChange(s, e, ctx, t);
    ReplacedTallies(s, t, edit, e.toolCallId);
  }

  /** Settling an unsettled tool part moves exactly one result counter. */
  lemma SettledWeight(m: Message, edit: Edit, result: ToolResult)
    requires m.Assistant? && edit.Replace? && edit.j < |m.parts|
    requires m.parts[edit.j].Tool? && edit.part.Tool?
    requires !m.parts[edit.j].state.ToolSettled? && edit.part.state.ToolSettled? && edit.part.state.result == result
    ensures var n := m.(parts := EditedParts(m.parts, edit));
      WeightOf(n) == WeightOf(m).(completed := WeightOf(m).completed + if result.isError then 0 else 1,
                                  failed := WeightOf(m).failed + if result.isError then 1 else 0)
  {
    EditedWeight(m, edit);
    EditedContent(m, edit);
  }

  /** A result is counted exactly when a part becomes settled by it. */
  lemma ToolResultTallies(s: Session, toolCallId: string, settledAt: int, result: ToolResult)
    requires Addressable(s.messages)
    ensures Tallies(s, OnToolResult(s, toolCallId, settledAt, result), 0)
  {
    var t := OnToolResult(s, toolCallId, settledAt, result);
    var edit := ToolResultIsEdit(s, toolCallId, settledAt, result);
    if edit.Replace? {
      SettledWeight(s.messages[edit.i], edit, result);
      SettledTallies(s, t, edit, result);
    }
  }

  lemma SettledTallies(s: Session, t: Session, edit: Edit, result: ToolResult)
    requires Edited(s, t, edit) && edit.Replace? && t.stats == CountToolResult(s.stats, result.isError)
    requires var m := s.messages[edit.i];
      var n := m.(parts := EditedParts(m.parts, edit));
      WeightOf(n) == WeightOf(m).(completed := WeightOf(m).completed + if result.isError then 0 else 1,
                                  failed := WeightOf(m).failed + if result.isError then 1 else 0)
    ensures Tallies(s, t, 0)
  {
    EditCounts(s, t, edit);
  }

  lemma RecoveryTallies(s: Session, r: RecoveryEvent, ctx: Context)
    requires Addressable(s.messages)
    ensures Tallies(s, OnRecovery(s, r, ctx), 0)
  {
    var edit := RecoveryIsEdit(s, r, ctx);
    if edit.Append? {
      NewCallTallies(s, OnRecovery(s, r, ctx), edit);
    } else if edit.Replace? {
      EditedContent(s.messages[edit.i], edit);
      ContentReplaceTallies(s, OnRecovery(s, r, ctx), edit);
    }
  }

  lemma ToolEventTallies(s: Session, e: Event, ctx: Context, t: Session)
    requires Addressable(s.messages) && Reduces(s, e, ctx, t) && IsToolEvent(e)
    ensures Tallies(s, t, 0)
  {
    if e.ToolInputStart? {
      ToolInputStartTallies(s, e, ctx, t);
    } else if e.ToolCall? {
      ToolCallTallies(s, e, ctx, t);
    } else if e.ToolInputResolved? {
      ToolInputResolvedTallies(s, e, ctx, t);
    } else if e.ToolAttempt? {
      ToolAttemptTallies(s, e, ctx, t);
    } else if e.ToolOutputDelta? {
      ToolOutputDeltaTallies(s, e, ctx, t);
    } else {
      ToolResultIs(s, e, ctx, t);
      ToolResultTallies(s, e.toolCallId, e.settledAt, e.result);
    }
  }

  /** What an event takes away from the counted messages that have content. */
  function Lost(s: Session, e: Event, ctx: Context): nat {
    if EmptiesMessage(s, e, ctx) then 1 else 0
  }

  lemma NothingLost(s: Session, e: Event, ctx: Context)
    requires !e.BlockEnd?
    ensures Lost(s, e, ctx) == 0
  {
  }

  lemma BlockEventTallies(s: Session, e: Event, ctx: Context, t: Session)
    requires Addressable(s.messages) && Reduces(s, e, ctx, t) && IsBlockEvent(e)
    ensures Tallies(s, t, Lost(s, e, ctx))
  {
    if e.BlockStart? {
      NothingLost(s, e, ctx);
      BlockStartIs(s, e, ctx, t);
      BlockStartTallies(s, e.channel, e.stepId, e.blockId, ctx);
    } else if e.BlockDelta? {
      NothingLost(s, e, ctx);
      BlockDeltaIs(s, e, ctx, t);
      BlockDeltaTallies(s, e.channel, e.stepId, e.blockId, e.text);
    } else {
      BlockEndIs(s, e, ctx, t);
      BlockEndTallies(s, e, ctx);
    }
  }

  lemma PartEventTallies(s: Session, e: Event, ctx: Context, t: Session)
    requires Addressable(s.messages) && Reduces(s, e, ctx, t) && IsPartEvent(e)
    ensures Tallies(s, t, Lost(s, e, ctx))
  {
    if IsBlockEvent(e) {
      BlockEventTallies(s, e, ctx, t);
    } else {
      NothingLost(s, e, ctx);
      if IsToolEvent(e) {
        ToolEventTallies(s, e, ctx, t);
      } else {
        RecoveryIs(s, e, ctx, t);
        RecoveryTallies(s, e.recovery, ctx);
      }
    }
  }

  /* ---------- whole-list changes ---------- */

  predicate SameCounts(p: Part, q: Part) {
    && (IsResult(p, true) <==> IsResult(q, true))
    && (IsResult(p, false) <==> IsResult(q, false))
    && (IsContent(p) <==> IsContent(q))
  }

  lemma MappedWeight(m: Message, n: Message)
    requires m.Assistant? && n.Assistant? && |m.parts| == |n.parts|
    requires forall j :: 0 <= j < |m.parts| ==> SameCounts(m.parts[j], n.parts[j])
    ensures WeightOf(m) == WeightOf(n)
  {
    forall j | 0 <= j < |m.parts|
      ensures IsResult(m.parts[j], true) <==> IsResult(n.parts[j], true)
      ensures IsResult(m.parts[j], false) <==> IsResult(n.parts[j], false)
    {
      assert SameCounts(m.parts[j], n.parts[j]);
    }
    ResultsSame(m.parts, n.parts, true);
    ResultsSame(m.parts, n.parts, false);
    if HasContent(m) {
      var j :| 0 <= j < |PartsOf(m)| && IsContent(PartsOf(m)[j]);
      assert SameCounts(m.parts[j], n.parts[j]) && IsContent(PartsOf(n)[j]);
    }
    if HasContent(n) {
      var j :| 0 <= j < |PartsOf(n)| && IsContent(PartsOf(n)[j]);
      assert SameCounts(m.parts[j], n.parts[j]) && IsContent(PartsOf(m)[j]);
    }
  }

  lemma EndedWeights(ms: seq<Message>, current: Option<string>, end: End)
    ensures forall i :: 0 <= i < |ms| ==> WeightOf(ms[i]) == WeightOf(EndedMessages(ms, current, end)[i])
  {
    forall i | 0 <= i < |ms|
      ensures WeightOf(ms[i]) == WeightOf(EndedMessages(ms, current, end)[i])
    {
      var n := EndedMessages(ms, current, end)[i];
      EndedParts(ms, current, end, i);
      EndedSame(ms, current, end);
      assert SameMessage(ms[i], n);
      if ms[i].Assistant? {
        forall j | 0 <= j < |ms[i].parts| ensures SameCounts(ms[i].parts[j], n.parts[j]) {}
        MappedWeight(ms[i], n);
      } else {
        assert n == ms[i];
      }
    }
  }

  lemma StepEndWeights(ms: seq<Message>, stepId: string, finishReason: string, now: int)
    ensures forall i :: 0 <= i < |ms| ==> WeightOf(ms[i]) == WeightOf(StepEndMessages(ms, stepId, finishReason, now)[i])
  {
    forall i | 0 <= i < |ms|
      ensures WeightOf(ms[i]) == WeightOf(StepEndMessages(ms, stepId, finishReason, now)[i])
    {
      var n := StepEndMessages(ms, stepId, finishReason, now)[i];
      if ms[i].Assistant? {
        forall j | 0 <= j < |ms[i].parts| ensures SameCounts(ms[i].parts[j], n.parts[j]) {}
        MappedWeight(ms[i], n);
      }
    }
  }

  lemma FlagWeight(m: Message)
    ensures WeightOf(Flag(m)) == WeightOf(m)
  {
    if m.Assistant? {
      forall j | 0 <= j < |m.parts| ensures SameCounts(m.parts[j], Flag(m).parts[j]) {}
      MappedWeight(m, Flag(m));
    }
  }

  lemma RefreshWeight(m: Message, summary: string, tailStartId: string, now: int)
    requires HasCompaction(m)
    ensures WeightOf(Refresh(m, summary, tailStartId, now)) == WeightOf(m)
  {
    var n := Refresh(m, summary, tailStartId, now);
    var j :| 0 <= j < |m.userParts| && IsCompactionPart(m.userParts[j]);
    assert n.userParts[j].CompactionPart?;
  }

  /** The two lists count the same. */
  ghost predicate EqualCounts(a: seq<Message>, b: seq<Message>) {
    && AllResults(a, false) == AllResults(b, false)
    && AllResults(a, true) == AllResults(b, true)
    && WithContent(a) == WithContent(b)
    && UserInputs(a) == UserInputs(b)
  }

  lemma InsertedCounts(front: seq<Message>, m: Message, back: seq<Message>)
    requires WeightOf(m) == Weight(0, 0, 0, 0)
    ensures EqualCounts(front + back, front + [m] + back)
  {
    ConcatCounts(front, back);
    ConcatCounts(front + [m], back);
    ConcatCounts(front, [m]);
    OneMessageCounts(m);
  }

  lemma FlaggedCounts(ms: seq<Message>, upTo: nat)
    ensures EqualCounts(ms, FlagUpTo(ms, upTo))
  {
    var flagged := FlagUpTo(ms, upTo);
    forall i | 0 <= i < |ms| ensures WeightOf(ms[i]) == WeightOf(flagged[i]) { FlagWeight(ms[i]); }
    SameWeights(ms, flagged);
  }

  lemma RefreshedCounts(ms: seq<Message>, c: nat, summary: string, tailStartId: string, now: int)
    requires c < |ms| && HasCompaction(ms[c])
    ensures EqualCounts(ms, ms[c := Refresh(ms[c], summary, tailStartId, now)])
  {
    RefreshWeight(ms[c], summary, tailStartId, now);
    ReplaceCounts(ms, c, Refresh(ms[c], summary, tailStartId, now));
  }

  lemma CompactionWeight(summary: string, tailStartId: string, ctx: Context)
    ensures WeightOf(CompactionMessage(summary, tailStartId, ctx)) == Weight(0, 0, 0, 0)
  {
    assert CompactionMessage(summary, tailStartId, ctx).userParts[0].CompactionPart?;
  }

  lemma CompactedCounts(ms: seq<Message>, summary: string, tailStartId: string, ctx: Context)
    ensures EqualCounts(ms, Compacted(ms, summary, tailStartId, ctx))
  {
    var upTo := MessageAt(ms, tailStartId);
    var flagged := FlagUpTo(ms, upTo);
    FlaggedCounts(ms, upTo);
    var c := CompactionAt(ms);
    if c < |ms| {
      RefreshedCounts(flagged, c, summary, tailStartId, ctx.now);
    } else {
      CompactionWeight(summary, tailStartId, ctx);
      assert flagged == flagged[..upTo] + flagged[upTo..];
      InsertedCounts(flagged[..upTo], CompactionMessage(summary, tailStartId, ctx), flagged[upTo..]);
    }
  }

  lemma CompactTallies(s: Session, summary: string, tailStartId: string, ctx: Context)
    ensures Tallies(s, s.(messages := Compacted(s.messages, summary, tailStartId, ctx)), 0)
  {
    CompactedCounts(s.messages, summary, tailStartId, ctx);
  }

  lemma {:induction false} AllInputs(ms: seq<Message>)
    requires forall k :: 0 <= k < |ms| ==> IsUserInput(ms[k])
    ensures UserInputs(ms) == |ms|
    ensures forall isError :: AllResults(ms, isError) == 0
    ensures WithContent(ms) == 0
  {
    if ms != [] {
      AllInputs(ms[..|ms| - 1]);
    }
  }

  lemma CommitTallies(s: Session, committed: seq<Message>)
    requires forall k :: 0 <= k < |committed| ==> IsCommitted(committed[k])
    ensures Tallies(s, OnMessagesCommitted(s, committed), 0)
  {
    var arrivals := NewMessages(committed, Ids(s.messages));
    NewMessagesAre(committed, Ids(s.messages));
    forall k | 0 <= k < |arrivals| ensures IsUserInput(arrivals[k]) {
      assert arrivals[k] in committed;
    }
    AllInputs(arrivals);
    ConcatCounts(s.messages, arrivals);
  }

  lemma NoticeWeight(s: Session, notice: string, ctx: Context)
    ensures WeightOf(NoticeMessage(s, notice, ctx)) == Weight(0, 0, 0, 0)
  {
    assert NoticeMessage(s, notice, ctx).userParts[0].SystemNoticePart?;
  }

  lemma AppendedCounts(ms: seq<Message>, m: Message)
    requires WeightOf(m) == Weight(0, 0, 0, 0)
    ensures EqualCounts(ms, ms + [m])
  {
    ConcatCounts(ms, [m]);
    OneMessageCounts(m);
  }

  lemma NoticeTallies(s: Session, notice: string, ctx: Context)
    ensures Tallies(s, s.(messages := s.messages + [NoticeMessage(s, notice, ctx)]), 0)
  {
    NoticeWeight(s, notice, ctx);
    AppendedCounts(s.messages, NoticeMessage(s, notice, ctx));
  }

  /** The message counters after a step boundary; the step counters are not looked at. */
  lemma StepStartMessages(s: Session, stepId: string, number: int, ctx: Context)
    requires MessageCensus(s.messages, s.stats)
    ensures var t := OnStepStart(s, stepId, number, ctx);
      MessageCensus(t.messages, t.stats) && Slack(t) == Slack(s)
  {
    var t := OnStepStart(s, stepId, number, ctx);
    if t != s {
      ConcatCounts(s.messages, [t.messages[|s.messages|]]);
      OneMessageCounts(t.messages[|s.messages|]);
    }
  }

  lemma StepEndMessageCensus(s: Session, stepId: string, number: int, finishReason: string, usage: Usage, now: int)
    requires MessageCensus(s.messages, s.stats)
    ensures var t := OnStepEnd(s, stepId, number, finishReason, usage, now);
      MessageCensus(t.messages, t.stats) && Slack(t) == Slack(s)
  {
    StepEndWeights(s.messages, stepId, finishReason, now);
    SameWeights(s.messages, StepEndMessages(s.messages, stepId, finishReason, now));
  }

  lemma EndTallies(s: Session, e: LifecycleEvent, now: int)
    ensures Tallies(s, OnLifecycle(s, e, now), 0)
  {
    if e.ExecutionEnd? {
      EndedWeights(s.messages, s.currentAssistantMessageId, e.end);
      SameWeights(s.messages, EndedMessages(s.messages, s.currentAssistantMessageId, e.end));
    }
  }

  /** Events that neither edit parts nor bound steps. */
  lemma OtherTallies(s: Session, e: Event, ctx: Context, t: Session)
    requires Admissible(s, e, ctx) && Reduces(s, e, ctx, t) && !IsPartEvent(e)
    requires !e.StepStart? && !e.StepEnd? && !e.ExecutionError?
    ensures Tallies(s, t, 0)
  {
    if e.Lifecycle? {
      LifecycleIs(s, e, ctx, t);
      EndTallies(s, e.lifecycle, ctx.now);
    } else if e.MessagesCommitted? {
      CommitIs(s, e, ctx, t);
      CommitTallies(s, e.committed);
    } else if e.SystemNotice? {
      NoticeIs(s, e, ctx, t);
      NoticeTallies(s, e.notice, ctx);
    } else if e.Compact? {
      CompactIs(s, e, ctx, t);
      CompactTallies(s, e.summary, e.tailStartId, ctx);
    } else if e.StopRequested? {
      StopIs(s, e, ctx, t);
    } else {
      QuietIs(s, e, ctx, t);
    }
  }

  /** The census holds on, and the surplus of counted messages grew by `lost`. */
  ghost predicate CensusMoves(s: Session, t: Session, lost: nat) {
    CensusOk(t) && Slack(t) == Slack(s) + lost
  }

  lemma TalliesKeepCensus(s: Session, t: Session, lost: nat)
    requires CensusOk(s) && Tallies(s, t, lost)
    ensures CensusMoves(s, t, lost)
  {
  }

  lemma StepEventKeepsCensus(s: Session, e: Event, ctx: Context, t: Session)
    requires StepsOk(s.steps, s.executions) && CensusOk(s) && Reduces(s, e, ctx, t)
    requires e.StepStart? || e.StepEnd? || e.ExecutionError?
    ensures CensusMoves(s, t, 0)
  {
    if e.StepStart? {
      StepStartIs(s, e, ctx, t);
      StepStartKeepsStepCensus(s, e.stepId, e.number, ctx);
      StepStartMessages(s, e.stepId, e.number, ctx);
    } else if e.StepEnd? {
      StepEndIs(s, e, ctx, t);
      StepEndKeepsStepCensus(s, e.stepId, e.number, e.finishReason, e.usage, ctx.now);
      StepEndMessageCensus(s, e.stepId, e.number, e.finishReason, e.usage, ctx.now);
    } else {
      ErrorIs(s, e, ctx, t);
      ErrorKeepsStepCensus(s, e.failedStepId, e.failedNumber, e.error);
    }
  }

  /** Every event keeps the census; the surplus of counted messages grows only when one is emptied. */
  lemma ReduceKeepsCensus(s: Session, e: Event, ctx: Context, t: Session)
    requires MessagesOk(s.messages) && StepsOk(s.steps, s.executions) && CensusOk(s)
    requires Admissible(s, e, ctx) && Reduces(s, e, ctx, t)
    ensures CensusOk(t) && Slack(t) == Slack(s) + Lost(s, e, ctx)
  {
    if IsPartEvent(e) {
      OkIsAddressable(s.messages);
      PartEventTallies(s, e, ctx, t);
      TalliesKeepCensus(s, t, Lost(s, e, ctx));
    } else {
      NothingLost(s, e, ctx);
      if e.StepStart? || e.StepEnd? || e.ExecutionError? {
        StepEventKeepsCensus(s, e, ctx, t);
      } else {
        OtherTallies(s, e, ctx, t);
        TalliesKeepCensus(s, t, 0);
      }
    }
  }

  /* ---------- usage, field by field ---------- */

  /** What the completed steps used of one kind of tokens. */
  function Used(steps: seq<Step>, field: Usage -> int): int {
    if steps == [] then 0
    else
      var last := steps[|steps| - 1];
      Used(steps[..|steps| - 1], field)
      + if last.completedAt.Some? && last.usage.Some? then field(last.usage.value) else 0
  }

  /** The statistics hold, for each kind of tokens, the sum over the completed steps. */
  lemma {:induction false} UsageByField(steps: seq<Step>)
    ensures UsageOf(steps) == Usage(
      Used(steps, (u: Usage) => u.inputTokens), Used(steps, (u: Usage) => u.outputTokens),
      Used(steps, (u: Usage) => u.totalTokens), Used(steps, (u: Usage) => u.reasoningTokens),
      Used(steps, (u: Usage) => u.cachedInputTokens))
  {
    if steps != [] {
      UsageByField(steps[..|steps| - 1]);
    }
  }

  /** In every projection whose statistics are sound. */
  lemma UsageIsSum(s: Session)
    requires CensusOk(s)
    ensures s.stats.usage.inputTokens == Used(s.steps, (u: Usage) => u.inputTokens)
    ensures s.stats.usage.outputTokens == Used(s.steps, (u: Usage) => u.outputTokens)
    ensures s.stats.usage.totalTokens == Used(s.steps, (u: Usage) => u.totalTokens)
    ensures s.stats.usage.reasoningTokens == Used(s.steps, (u: Usage) => u.reasoningTokens)
    ensures s.stats.usage.cachedInputTokens == Used(s.steps, (u: Usage) => u.cachedInputTokens)
  {
    UsageByField(s.steps);
  }
}
