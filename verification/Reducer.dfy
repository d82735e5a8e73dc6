/** `reduceStreamEvent`: one event folded into the Session projection. */
module Reducer {
  import opened Prelude
  import opened Utf8
  import opened SessionTypes
  import opened ExecutionLifecycle
  import opened Messages
  import ChildLinks

  const NULL_INPUT: Snapshot := "null"

  /** The reducer either yields the next projection or throws. */
  datatype Reduced = Next(session: Session) | Throws

  /* ---------- current execution and step ---------- */

  /** The current execution with its latest run ordinal, when both exist. */
  function CurrentRun(s: Session): Option<(string, nat)> {
    if s.currentExecutionId.None? then None
    else
      var i := Find(s.executions, s.currentExecutionId.value);
      if i == |s.executions| || s.executions[i].runs == [] then None
      else Some((s.currentExecutionId.value, LastRun(s.executions[i]).ordinal))
  }

  predicate InRun(step: Step, run: (string, nat)) {
    step.executionId == run.0 && step.runOrdinal == run.1
  }

  predicate IsActiveOpenStep(s: Session, stepId: string) {
    var run := CurrentRun(s);
    && run.Some?
    && exists k :: 0 <= k < |s.steps|
         && s.steps[k].id == stepId && InRun(s.steps[k], run.value) && s.steps[k].completedAt.None?
  }

  /* ---------- statistics ---------- */

  function AddUsage(a: Usage, b: Usage): Usage {
    Usage(a.inputTokens + b.inputTokens, a.outputTokens + b.outputTokens, a.totalTokens + b.totalTokens,
          a.reasoningTokens + b.reasoningTokens, a.cachedInputTokens + b.cachedInputTokens)
  }

  function CountUserMessages(stats: Stats, count: nat): Stats {
    stats.(userMessages := stats.userMessages + count, totalMessages := stats.totalMessages + count)
  }

  function CountAssistantMessage(stats: Stats): Stats {
    stats.(assistantMessages := stats.assistantMessages + 1, totalMessages := stats.totalMessages + 1)
  }

  function CountToolCall(stats: Stats): Stats {
    stats.(toolCalls := stats.toolCalls + 1)
  }

  function CountToolResult(stats: Stats, isError: bool): Stats {
    if isError then stats.(toolsFailed := stats.toolsFailed + 1)
    else stats.(toolsCompleted := stats.toolsCompleted + 1)
  }

  predicate IsContent(p: Part) {
    p.Block? ==> p.text != []
  }

  predicate HasContent(m: Message) {
    exists j :: 0 <= j < |PartsOf(m)| && IsContent(PartsOf(m)[j])
  }

  /** Count an Assistant message that is about to receive its first content. */
  function CountFirstContent(stats: Stats, m: Message): Stats {
    if m.Assistant? && !HasContent(m) then CountAssistantMessage(stats) else stats
  }

  /* ---------- lifecycle ---------- */

  /** The latest step of an execution, as an index, or `|steps|`. */
  function LastStepOf(steps: seq<Step>, executionId: string): (k: nat)
    ensures k <= |steps|
    ensures k < |steps| ==> steps[k].executionId == executionId
    ensures forall j :: k < j < |steps| ==> steps[j].executionId != executionId
    ensures k == |steps| ==> forall j :: 0 <= j < |steps| ==> steps[j].executionId != executionId
  {
    if steps == [] then 0
    else if steps[|steps| - 1].executionId == executionId then |steps| - 1
    else
      var k := LastStepOf(steps[..|steps| - 1], executionId);
      if k == |steps| - 1 then |steps| else k
  }

  predicate IsOutput(p: Part) {
    p.Block? && p.channel.Output?
  }

  predicate IsTrustedOutput(p: Part) {
    p.Block? && p.completedAt.Some? && !p.interrupted && !p.discarded
  }

  /** There is visible output, and all of it is complete, not interrupted and not discarded. */
  predicate TrustedOutput(parts: seq<Part>) {
    && (forall j :: 0 <= j < |parts| && IsOutput(parts[j]) ==> IsTrustedOutput(parts[j]))
    && (exists j :: 0 <= j < |parts| && IsOutput(parts[j]) && !IsBlank(parts[j].text))
  }

  predicate HasTrustedOutput(ms: seq<Message>, stepId: string) {
    var i := StepMessageAt(ms, stepId);
    i < |ms| && TrustedOutput(ms[i].parts)
  }

  /** `validateExecutionFinalOutputSelection`. */
  predicate FinalSelectionValid(ms: seq<Message>, steps: seq<Step>, end: End) {
    end.finalOutputStepId.None?
    || (
        var k := LastStepOf(steps, end.executionId);
        && end.outcome.Completed?
        && k < |steps|
        && steps[k].id == end.finalOutputStepId.value
        && steps[k].completedAt.Some?
        && steps[k].finishReason == "stop"
        && HasTrustedOutput(ms, steps[k].id))
  }

  function SettlePart(p: Part, now: int, discard: bool): Part {
    if p.Tool? || p.completedAt.Some? then p
    else if p.Block? && discard then p.(completedAt := Some(now), interrupted := true, discarded := true)
    else p.(completedAt := Some(now))
  }

  predicate IsIncomplete(p: Part) {
    match p
    case Tool(_, _, _, _, _, state) => state.ToolPending? || state.ToolRunning?
    case Block(_, _, _, _, _, completedAt, _, _) => completedAt.None?
    case Notice(_, _, _, completedAt) => completedAt.None?
    case Recovery(_, _, _, _, _, _, _, _, completedAt) => completedAt.None?
  }

  function SettleMessage(m: Message, current: Option<string>, now: int, discard: bool): Message {
    if m.User? then m
    else
      var parts := seq(|m.parts|, j requires 0 <= j < |m.parts| => SettlePart(m.parts[j], now, discard));
      var incomplete := exists j :: 0 <= j < |parts| && IsIncomplete(parts[j]);
      if m.completedAt.None? && (incomplete || current == Some(m.id))
      then m.(parts := parts, completedAt := Some(now))
      else m.(parts := parts)
  }

  function InterruptTool(p: Part, now: int): Part {
    if !p.Tool? then p
    else
      match p.state
      case ToolPending => p.(state := ToolInterrupted(None, None, now))
      case ToolRunning(input, startedAt, _) => p.(state := ToolInterrupted(Some(input), Some(startedAt), now))
      case _ => p
  }

  function InterruptTools(m: Message, now: int): Message {
    if m.User? then m
    else m.(parts := seq(|m.parts|, j requires 0 <= j < |m.parts| => InterruptTool(m.parts[j], now)))
  }

  /** `settleIncompleteState`: first blocks and notices, then tools. */
  function SettleMessages(
    ms: seq<Message>, current: Option<string>, now: int, outcome: TerminalStatus): (r: seq<Message>)
    ensures |r| == |ms|
    ensures forall i :: 0 <= i < |ms| ==>
      r[i] == InterruptTools(SettleMessage(ms[i], current, now, !outcome.Completed?), now)
  {
    seq(|ms|, i requires 0 <= i < |ms| =>
      InterruptTools(SettleMessage(ms[i], current, now, !outcome.Completed?), now))
  }

  function PromoteFinal(ms: seq<Message>, executionId: string, stepId: string): (r: seq<Message>)
    ensures |r| == |ms|
    ensures forall i :: 0 <= i < |ms| ==>
      r[i] == if ms[i].Assistant? && ms[i].executionId == executionId && ms[i].stepId == stepId
              then ms[i].(phase := FinalAnswer) else ms[i]
  {
    seq(|ms|, i requires 0 <= i < |ms| =>
      if ms[i].Assistant? && ms[i].executionId == executionId && ms[i].stepId == stepId
      then ms[i].(phase := FinalAnswer) else ms[i])
  }

  function EndedMessages(ms: seq<Message>, current: Option<string>, end: End): (r: seq<Message>)
    ensures |r| == |ms|
  {
    var settled := SettleMessages(ms, current, end.endedAt, end.outcome);
    if end.finalOutputStepId.None? then settled
    else PromoteFinal(settled, end.executionId, end.finalOutputStepId.value)
  }

  /** The event passes the lifecycle validator, and an end also its final-output selection. */
  predicate LifecycleAccepted(s: Session, e: LifecycleEvent) {
    && Validate(s.executions, e).Valid?
    && (e.ExecutionEnd? ==> FinalSelectionValid(s.messages, s.steps, e.end))
  }

  function OnLifecycle(s: Session, e: LifecycleEvent, now: int): Session {
    if !LifecycleAccepted(s, e) then s
    else
      var executions := Apply(s.executions, e, now);
      match e
      case ExecutionStart(start) =>
        s.(isRunning := true, currentExecutionId := Some(start.executionId), currentAssistantMessageId := None,
           isStreamingModel := false, executions := executions, executionCount := |executions|)
      case ExecutionSuspended(id, _, _, _, _) =>
        s.(executions := executions, isRunning := false, isStreamingModel := false, currentExecutionId := Some(id))
      case SuspensionUpdated(_, _) => s.(executions := executions)
      case ExecutionResumed(id, _, _) =>
        s.(executions := executions, isRunning := true, isStreamingModel := false, currentExecutionId := Some(id))
      case ExecutionEnd(end) =>
        s.(messages := EndedMessages(s.messages, s.currentAssistantMessageId, end),
           executions := executions, executionCount := |executions|, isRunning := false,
           isStreamingModel := false, currentExecutionId := None, currentAssistantMessageId := None)
  }

  /* ---------- queue and reminders ---------- */

  function PendingWithout(pending: seq<PendingMessage>, ids: set<string>): seq<PendingMessage> {
    if pending == [] then []
    else (if pending[0].id in ids then [] else [pending[0]]) + PendingWithout(pending[1..], ids)
  }

  function ReplacePending(pending: seq<PendingMessage>, next: PendingMessage): (r: seq<PendingMessage>)
    ensures |r| == |pending| && forall i :: 0 <= i < |r| ==> r[i].id == pending[i].id
  {
    seq(|pending|, i requires 0 <= i < |pending| => if pending[i].id == next.id then next else pending[i])
  }

  function Ids(ms: seq<Message>): set<string> {
    set m | m in ms :: m.id
  }

  function NewMessages(committed: seq<Message>, existing: set<string>): seq<Message> {
    if committed == [] then []
    else (if committed[0].id in existing then [] else [committed[0]]) + NewMessages(committed[1..], existing)
  }

  function OnMessagesCommitted(s: Session, committed: seq<Message>): Session {
    var arrivals := NewMessages(committed, Ids(s.messages));
    s.(pending := PendingWithout(s.pending, Ids(committed)),
       messages := s.messages + arrivals,
       stats := CountUserMessages(s.stats, |arrivals|))
  }

  predicate IsSubAgent(source: ReminderSource) {
    source.SubAgent? || source.DispatchBlocked?
  }

  function SubAgentKey(source: ReminderSource): string
    requires IsSubAgent(source)
  {
    match source
    case DispatchBlocked(sessionId, after) => "blocked:" + sessionId + ":" + after
    case SubAgent(_, sessionId, child) =>
      "terminal:" + sessionId + ":" + if child.Some? then child.value else "legacy"
  }

  predicate SameSubAgent(a: ReminderSource, b: ReminderSource) {
    IsSubAgent(a) && IsSubAgent(b) && SubAgentKey(a) == SubAgentKey(b)
  }

  predicate KnownReminder(reminders: seq<Reminder>, next: Reminder) {
    exists i :: 0 <= i < |reminders|
      && (reminders[i].id == next.id || SameSubAgent(reminders[i].source, next.source))
  }

  function ConsumeReminders(reminders: seq<Reminder>, ids: seq<string>, now: int): (r: seq<Reminder>)
    ensures |r| == |reminders|
  {
    seq(|reminders|, i requires 0 <= i < |reminders| =>
      if reminders[i].id in ids && reminders[i].consumedAt.None?
      then reminders[i].(consumedAt := Some(now)) else reminders[i])
  }

  /* ---------- model output blocks ---------- */

  function OnBlockStart(s: Session, channel: Channel, stepId: string, blockId: string, ctx: Context): Session {
    var i := StepMessageAt(s.messages, stepId);
    if !IsActiveOpenStep(s, stepId) then s
    else if i == |s.messages| || FindBlock(s.messages, stepId, channel, blockId).Some? then s
    else
      var part := Block(Generated(ctx.partId), channel, blockId, [], ctx.now, None, false, false);
      s.(messages := AppendPart(s.messages, s.messages[i].id, part),
         currentAssistantMessageId := Some(s.messages[i].id))
  }

  /** The block a delta or an end addresses, if its step is active and the block still open. */
  function OpenBlock(s: Session, channel: Channel, stepId: string, blockId: string): Option<Location> {
    if !IsActiveOpenStep(s, stepId) then None
    else
      var at := FindBlock(s.messages, stepId, channel, blockId);
      if at.None? then None
      else
        var part := GetPart(s.messages, at.value);
        if part.Some? && part.value.Block? && part.value.channel == channel && part.value.completedAt.None?
        then at
        else None
  }

  function OnBlockDelta(s: Session, channel: Channel, stepId: string, blockId: string, text: Text): Session {
    var at := OpenBlock(s, channel, stepId, blockId);
    if at.None? then s
    else
      var part := GetPart(s.messages, at.value).value;
      var i := MessageAt(s.messages, at.value.messageId);
      var stats :=
        if part.text == [] && text != [] && i < |s.messages|
        then CountFirstContent(s.stats, s.messages[i]) else s.stats;
      s.(messages := UpdatePart(s.messages, at.value, (p: Part) =>
           if p.Block? && p.channel == channel then p.(text := p.text + text) else p),
         stats := stats)
  }

  /** Only visible output may carry an echoed message envelope. */
  function Unwrapped(channel: Channel, text: Text, unwrap: Text -> Text): Text {
    if channel.Output? then unwrap(text) else text
  }

  function OnBlockEnd(s: Session, channel: Channel, stepId: string, blockId: string, ctx: Context): Session {
    var at := OpenBlock(s, channel, stepId, blockId);
    if at.None? then s
    else if GetPart(s.messages, at.value).value.text == [] then
      s.(messages := RemovePart(s.messages, at.value))
    else
      var unwrap := ctx.unwrap;
      var now := ctx.now;
      s.(messages := UpdatePart(s.messages, at.value, (p: Part) =>
           if p.Block? && p.channel == channel
           then p.(text := Unwrapped(channel, p.text, unwrap), completedAt := Some(now)) else p))
  }

  /* ---------- tools ---------- */

  function AssistantAt(ms: seq<Message>, id: string): (i: nat)
    ensures i <= |ms|
    ensures i < |ms| ==> ms[i].id == id && ms[i].Assistant?
    ensures forall k :: 0 <= k < i ==> !(ms[k].id == id && ms[k].Assistant?)
  {
    if ms == [] || (ms[0].id == id && ms[0].Assistant?) then 0 else 1 + AssistantAt(ms[1..], id)
  }

  /** `ensureCurrentAssistantMessage`: the current Assistant message, or a throw. */
  datatype Ensured =
    | NoCurrentMessage
    | NotAStepMessage
    | Ensured(messageId: string, stats: Stats)

  function EnsureCurrentAssistant(s: Session): Ensured {
    if !Truthy(s.currentAssistantMessageId) then NoCurrentMessage
    else
      var i := AssistantAt(s.messages, s.currentAssistantMessageId.value);
      if i == |s.messages| then NotAStepMessage
      else Ensured(s.currentAssistantMessageId.value, CountFirstContent(s.stats, s.messages[i]))
  }

  function OnToolInputStart(s: Session, toolCallId: string, toolName: string, ctx: Context): Reduced {
    var current := EnsureCurrentAssistant(s);
    if !current.Ensured? then Throws
    else if FindCurrentTool(s.messages, Some(current.messageId), toolCallId).Some? then Next(s)
    else
      var part := Tool(Generated(ctx.partId), toolCallId, toolName, ctx.now, None, ToolPending);
      Next(s.(messages := AppendPart(s.messages, current.messageId, part),
              currentAssistantMessageId := Some(current.messageId),
              stats := current.stats))
  }

  /** `toRunningToolPart`. */
  function ToRunning(p: Part, input: Snapshot, now: int): Part
    requires p.Tool?
  {
    match p.state
    case ToolPending => p.(state := ToolRunning(input, now, None))
    case ToolRunning(_, startedAt, live) => p.(state := ToolRunning(input, startedAt, live))
    case ToolInterrupted(_, begunAt, _) =>
      p.(state := ToolRunning(input, if begunAt.Some? then begunAt.value else now, None))
    case ToolSettled(_, startedAt, _, _) => p.(state := ToolRunning(input, startedAt, None))
  }

  function OnToolCall(
    s: Session, toolCallId: string, toolName: string, input: Option<Snapshot>, ctx: Context): Reduced {
    var value := if input.Some? then input.value else NULL_INPUT;
    var at := FindCurrentTool(s.messages, s.currentAssistantMessageId, toolCallId);
    if at.Some? then
      var existing := GetTool(s.messages, at.value);
      if existing.None? || !IsIncomplete(existing.value) then Next(s)
      else
        var now := ctx.now;
        Next(s.(messages := UpdatePart(s.messages, at.value, (p: Part) =>
                  if p.Tool? then ToRunning(p, value, now) else p),
                stats := if existing.value.state.ToolPending? then CountToolCall(s.stats) else s.stats))
    else
      var current := EnsureCurrentAssistant(s);
      if !current.Ensured? then Throws
      else
        var part := Tool(
          Generated(ctx.partId), toolCallId, toolName, ctx.now, None, ToolRunning(value, ctx.now, None));
        Next(s.(messages := AppendPart(s.messages, current.messageId, part),
                currentAssistantMessageId := Some(current.messageId),
                stats := CountToolCall(current.stats)))
  }

  function WithInput(p: Part, input: Snapshot): Part
    requires p.Tool?
  {
    match p.state
    case ToolRunning(_, startedAt, live) => p.(state := ToolRunning(input, startedAt, live))
    case ToolSettled(_, startedAt, endedAt, result) => p.(state := ToolSettled(input, startedAt, endedAt, result))
    case _ => p
  }

  function OnToolInputResolved(s: Session, toolCallId: string, input: Option<Snapshot>): Session {
    var value := if input.Some? then input.value else NULL_INPUT;
    var at := FindTool(s.messages, s.currentAssistantMessageId, toolCallId);
    if at.None? then s
    else
      var existing := GetTool(s.messages, at.value);
      if existing.None? || existing.value.state.ToolPending? || existing.value.state.ToolInterrupted? then s
      else
        s.(messages := UpdatePart(s.messages, at.value, (p: Part) => if p.Tool? then WithInput(p, value) else p))
  }

  function WithAttempt(p: Part, attempt: Attempt): Part
    requires p.Tool?
  {
    var attempted :=
      if p.state.ToolInterrupted?
      then
        var input := if p.state.partialInput.Some? then p.state.partialInput.value else NULL_INPUT;
        ToRunning(p, input, attempt.timestamp)
      else p;
    attempted.(attempt := Some(attempt))
  }

  function OnToolAttempt(s: Session, toolCallId: string, attempt: Attempt): Session {
    var at := FindTool(s.messages, s.currentAssistantMessageId, toolCallId);
    if at.None? then s
    else
      var existing := GetTool(s.messages, at.value);
      if existing.None? || existing.value.state.ToolSettled? then s
      else
        s.(messages := UpdatePart(s.messages, at.value, (p: Part) => if p.Tool? then WithAttempt(p, attempt) else p))
  }

  function WithLiveOutput(p: Part, delta: Delta): Part {
    if p.Tool? && p.state.ToolRunning?
    then p.(state := p.state.(live := Some(AppendDelta(p.state.live, delta))))
    else p
  }

  function OnToolOutputDelta(s: Session, toolCallId: string, toolName: string, delta: Delta): Session {
    var at := FindTool(s.messages, s.currentAssistantMessageId, toolCallId);
    if at.None? then s
    else
      var existing := GetTool(s.messages, at.value);
      if existing.None? || !existing.value.state.ToolRunning?
         || existing.value.toolName != "bash" || existing.value.toolName != toolName
      then s
      else s.(messages := UpdatePart(s.messages, at.value, (p: Part) => WithLiveOutput(p, delta)))
  }

  /** `toSettledToolPart`: through the running form, then the result. */
  function ToSettled(p: Part, result: ToolResult, settledAt: int): Part
    requires p.Tool?
  {
    var input :=
      match p.state
      case ToolPending => NULL_INPUT
      case ToolRunning(input, _, _) => input
      case ToolInterrupted(partial, _, _) => if partial.Some? then partial.value else NULL_INPUT
      case ToolSettled(input, _, _, _) => input;
    var running := ToRunning(p, input, settledAt);
    running.(state := ToolSettled(input, running.state.startedAt, settledAt, result))
  }

  function OnToolResult(s: Session, toolCallId: string, settledAt: int, result: ToolResult): Session {
    var at := FindTool(s.messages, s.currentAssistantMessageId, toolCallId);
    if at.None? then s
    else
      var existing := GetTool(s.messages, at.value);
      if existing.None? || existing.value.state.ToolSettled? then s
      else
        s.(messages := UpdatePart(s.messages, at.value, (p: Part) =>
             if p.Tool? then ToSettled(p, result, settledAt) else p),
           stats := CountToolResult(s.stats, result.isError))
  }

  /* ---------- steps ---------- */

  function OnStepStart(s: Session, stepId: string, number: int, ctx: Context): Session {
    var run := CurrentRun(s);
    if run.None? || exists k :: 0 <= k < |s.steps| && s.steps[k].id == stepId then s
    else
      var message := Assistant(
        ctx.messageId, [], ctx.now, None, run.value.0, run.value.1, stepId, Commentary, false);
      var step := Step(stepId, number, run.value.0, run.value.1, ctx.now, None, "", None, None);
      s.(isStreamingModel := true,
         messages := s.messages + [message],
         currentAssistantMessageId := Some(message.id),
         steps := s.steps + [step],
         stats := s.stats.(stepsStarted := s.stats.stepsStarted + 1))
  }

  /** `!step.completedAt`: a zero timestamp counts as not completed. */
  predicate EndsHere(step: Step, stepId: string, number: int, run: (string, nat)) {
    && step.id == stepId && step.number == number && InRun(step, run)
    && (step.completedAt.None? || step.completedAt.value == 0)
  }

  function EndSteps(
    steps: seq<Step>, stepId: string, number: int, run: (string, nat),
    finishReason: string, usage: Usage, now: int): (r: seq<Step>)
    ensures |r| == |steps|
    ensures forall k :: 0 <= k < |steps| ==>
      r[k] == if EndsHere(steps[k], stepId, number, run)
              then steps[k].(completedAt := Some(now), finishReason := finishReason, usage := Some(usage))
              else steps[k]
  {
    seq(|steps|, k requires 0 <= k < |steps| =>
      if EndsHere(steps[k], stepId, number, run)
      then steps[k].(completedAt := Some(now), finishReason := finishReason, usage := Some(usage))
      else steps[k])
  }

  function InterruptBlock(p: Part, now: int): Part {
    if !p.Block? || p.text == [] then p
    else if p.interrupted && p.discarded && p.completedAt.Some? then p
    else p.(completedAt := if p.completedAt.Some? then p.completedAt else Some(now),
            interrupted := true, discarded := true)
  }

  function InterruptOutputForStep(ms: seq<Message>, stepId: string, now: int): (r: seq<Message>)
    ensures |r| == |ms|
    ensures forall i :: 0 <= i < |ms| ==>
      r[i] == if IsStepMessage(ms[i], stepId)
              then ms[i].(parts := seq(|ms[i].parts|,
                     j requires 0 <= j < |ms[i].parts| => InterruptBlock(ms[i].parts[j], now)))
              else ms[i]
  {
    seq(|ms|, i requires 0 <= i < |ms| =>
      if IsStepMessage(ms[i], stepId)
      then ms[i].(parts := seq(|ms[i].parts|, j requires 0 <= j < |ms[i].parts| => InterruptBlock(ms[i].parts[j], now)))
      else ms[i])
  }

  function CompleteForStep(ms: seq<Message>, stepId: string, now: int): (r: seq<Message>)
    ensures |r| == |ms|
    ensures forall i :: 0 <= i < |ms| ==>
      r[i] == if IsStepMessage(ms[i], stepId) && ms[i].completedAt.None?
              then ms[i].(completedAt := Some(now)) else ms[i]
  {
    seq(|ms|, i requires 0 <= i < |ms| =>
      if IsStepMessage(ms[i], stepId) && ms[i].completedAt.None?
      then ms[i].(completedAt := Some(now)) else ms[i])
  }

  function StepEndMessages(ms: seq<Message>, stepId: string, finishReason: string, now: int): (r: seq<Message>)
    ensures |r| == |ms|
  {
    var marked :=
      if finishReason == "interrupted" || finishReason == "error"
      then InterruptOutputForStep(ms, stepId, now) else ms;
    CompleteForStep(marked, stepId, now)
  }

  function OnStepEnd(s: Session, stepId: string, number: int, finishReason: string, usage: Usage, now: int): Session {
    var run := CurrentRun(s);
    if run.None? || !exists k :: 0 <= k < |s.steps| && EndsHere(s.steps[k], stepId, number, run.value) then s
    else
      s.(isStreamingModel := false,
         steps := EndSteps(s.steps, stepId, number, run.value, finishReason, usage, now),
         messages := StepEndMessages(s.messages, stepId, finishReason, now),
         stats := s.stats.(stepsCompleted := s.stats.stepsCompleted + 1, usage := AddUsage(s.stats.usage, usage)))
  }

  predicate MatchesError(step: Step, stepId: Option<string>, number: int, run: (string, nat)) {
    Some(step.id) == stepId && step.number == number && InRun(step, run)
  }

  function OnExecutionError(s: Session, stepId: Option<string>, number: Option<int>, error: string): Session {
    var run := CurrentRun(s);
    if number.None? || run.None? then s
    else if exists k :: 0 <= k < |s.steps| && MatchesError(s.steps[k], stepId, number.value, run.value) then
      s.(steps := seq(|s.steps|, k requires 0 <= k < |s.steps| =>
           if Some(s.steps[k].id) == stepId then s.steps[k].(error := Some(error)) else s.steps[k]))
    else s
  }

  /* ---------- recovery notices ---------- */

  function RecoveryTarget(s: Session, stepId: Option<string>): nat {
    var messageId :=
      if stepId.None? then s.currentAssistantMessageId
      else
        var i := StepMessageAt(s.messages, stepId.value);
        if i == |s.messages| then None else Some(s.messages[i].id);
    if messageId.None? then |s.messages| else AssistantAt(s.messages, messageId.value)
  }

  function RecoveryPartId(r: RecoveryEvent, ctx: Context): PartId {
    var related :=
      if r.toolCallId.Some? then r.toolCallId else if r.messageId.Some? then r.messageId else r.stepId;
    if related.None? then Generated(ctx.partId) else RecoveryOf(r.scope, related.value)
  }

  function RecoveryPart(r: RecoveryEvent, ctx: Context): Part {
    var id := RecoveryPartId(r, ctx);
    match r.kind
    case Retry =>
      var status :=
        if r.nextRetryAt.None? || r.nextRetryAt.value <= ctx.now then Retrying else RetryScheduled;
      Recovery(id, status, r.message, r.attemptNumber, r.nextRetryAt, r.errorKind, None, ctx.now, None)
    case Recover =>
      Recovery(id, Recovered, r.message, r.attemptNumber, None, r.errorKind, None, ctx.now, Some(ctx.now))
    case GiveUp =>
      Recovery(id, RecoveryFailed, r.message, r.attemptNumber, None, r.errorKind, r.statusCode, ctx.now, Some(ctx.now))
  }

  function MergeRecovery(prior: Part, next: Part): Part
    requires next.Recovery?
  {
    if !prior.Recovery? then prior
    else prior.(
      status := next.status, message := next.message, attemptNumber := next.attemptNumber,
      nextRetryAt := next.nextRetryAt,
      errorKind := if next.errorKind.Some? then next.errorKind else prior.errorKind,
      statusCode := if next.statusCode.Some? then next.statusCode else prior.statusCode,
      completedAt := next.completedAt)
  }

  predicate HasRecovery(m: Message, messageId: string, id: PartId) {
    m.Assistant? && m.id == messageId && exists j :: 0 <= j < |m.parts| && m.parts[j].Recovery? && m.parts[j].id == id
  }

  /** `upsertRecoveryNoticePart`. */
  function UpsertRecovery(ms: seq<Message>, messageId: string, next: Part): seq<Message>
    requires next.Recovery?
  {
    if exists i :: 0 <= i < |ms| && HasRecovery(ms[i], messageId, next.id)
    then UpdatePart(ms, Location(messageId, next.id), (p: Part) => MergeRecovery(p, next))
    else AppendPart(ms, messageId, next)
  }

  function OnRecovery(s: Session, r: RecoveryEvent, ctx: Context): Session {
    if r.isInternal && !r.kind.GiveUp? then s
    else
      var i := RecoveryTarget(s, r.stepId);
      if i >= |s.messages| then s
      else
        s.(messages := UpsertRecovery(s.messages, s.messages[i].id, RecoveryPart(r, ctx)),
           stats := CountFirstContent(s.stats, s.messages[i]))
  }

  /* ---------- compaction ---------- */

  predicate IsCompactionPart(p: UserPart) {
    p.CompactionPart?
  }

  predicate HasCompaction(m: Message) {
    m.User? && exists j :: 0 <= j < |m.userParts| && IsCompactionPart(m.userParts[j])
  }

  /** Index of the first message carrying a compaction part, or `|ms|`. */
  function CompactionAt(ms: seq<Message>): (i: nat)
    ensures i <= |ms|
    ensures i < |ms| ==> HasCompaction(ms[i])
    ensures forall k :: 0 <= k < i ==> !HasCompaction(ms[k])
  {
    if ms == [] || HasCompaction(ms[0]) then 0 else 1 + CompactionAt(ms[1..])
  }

  function Flag(m: Message): Message {
    if HasCompaction(m) then m else m.(compacted := true)
  }

  function FlagUpTo(ms: seq<Message>, upTo: nat): (r: seq<Message>)
    ensures |r| == |ms|
    ensures forall i :: 0 <= i < |ms| ==> r[i] == if i < upTo then Flag(ms[i]) else ms[i]
  {
    seq(|ms|, i requires 0 <= i < |ms| => if i < upTo then Flag(ms[i]) else ms[i])
  }

  function RefreshPart(p: UserPart, summary: string, tailStartId: string, now: int): UserPart {
    if p.CompactionPart? then CompactionPart(p.id, summary, tailStartId, now) else p
  }

  function Refresh(m: Message, summary: string, tailStartId: string, now: int): Message {
    if m.Assistant? then m
    else
      m.(compacted := false,
         userParts := seq(|m.userParts|, j requires 0 <= j < |m.userParts| =>
           RefreshPart(m.userParts[j], summary, tailStartId, now)))
  }

  function CompactionMessage(summary: string, tailStartId: string, ctx: Context): Message {
    var part := CompactionPart(ctx.partId, summary, tailStartId, ctx.now);
    User(ctx.messageId, [part], ctx.now, Some(ctx.now), None, false)
  }

  function Compacted(ms: seq<Message>, summary: string, tailStartId: string, ctx: Context): seq<Message> {
    var upTo := MessageAt(ms, tailStartId);
    var flagged := FlagUpTo(ms, upTo);
    var c := CompactionAt(ms);
    if c < |ms| then flagged[c := Refresh(flagged[c], summary, tailStartId, ctx.now)]
    else flagged[..upTo] + [CompactionMessage(summary, tailStartId, ctx)] + flagged[upTo..]
  }

  /* ---------- the reducer ---------- */

  function Reduce(s: Session, e: Event, ctx: Context): Reduced {
    match e
    case Lifecycle(l) => Next(OnLifecycle(s, l, ctx.now))
    case StopRequested(id, timestamp) => Next(s.(executions := RequestStop(s.executions, id, timestamp)))
    case MessageAccepted(message) => Next(s.(pending := s.pending + [message]))
    case MessageReplaced(message) => Next(s.(pending := ReplacePending(s.pending, message)))
    case MessageDeleted(id) => Next(s.(pending := PendingWithout(s.pending, {id})))
    case MessagesCommitted(committed) => Next(OnMessagesCommitted(s, committed))
    case SystemNotice(notice) =>
      var part := SystemNoticePart(ctx.partId, notice, ctx.now);
      Next(s.(messages := s.messages + [User(ctx.messageId, [part], ctx.now, Some(ctx.now), CurrentRun(s), false)]))
    case BlockStart(channel, stepId, blockId) => Next(OnBlockStart(s, channel, stepId, blockId, ctx))
    case BlockDelta(channel, stepId, blockId, text) => Next(OnBlockDelta(s, channel, stepId, blockId, text))
    case BlockEnd(channel, stepId, blockId) => Next(OnBlockEnd(s, channel, stepId, blockId, ctx))
    case ToolInputStart(callId, toolName) => OnToolInputStart(s, callId, toolName, ctx)
    case ToolCall(callId, toolName, input) => OnToolCall(s, callId, toolName, input, ctx)
    case ToolInputResolved(callId, input) => Next(OnToolInputResolved(s, callId, input))
    case ToolAttempt(callId, attempt) => Next(OnToolAttempt(s, callId, attempt))
    case ToolOutputDelta(callId, toolName, delta) => Next(OnToolOutputDelta(s, callId, toolName, delta))
    case ToolResultArrived(callId, settledAt, result) => Next(OnToolResult(s, callId, settledAt, result))
    case ChildLinked(link) => Next(s.(childLinks := ChildLinks.RecordLink(s.childLinks, link, ctx.weight)))
    case ReminderAdded(reminder) =>
      Next(if KnownReminder(s.reminders, reminder) then s
           else s.(reminders := s.reminders + [reminder.(consumedAt := None)]))
    case RemindersConsumed(ids) => Next(s.(reminders := ConsumeReminders(s.reminders, ids, ctx.now)))
    case StepStart(stepId, number) => Next(OnStepStart(s, stepId, number, ctx))
    case StepEnd(stepId, number, finishReason, usage) =>
      Next(OnStepEnd(s, stepId, number, finishReason, usage, ctx.now))
    case ExecutionError(stepId, number, error) => Next(OnExecutionError(s, stepId, number, error))
    case RecoveryNoticed(r) => Next(OnRecovery(s, r, ctx))
    case Compact(summary, tailStartId) => Next(s.(messages := Compacted(s.messages, summary, tailStartId, ctx)))
  }
}
