/** The records of a Session projection and the events that change it. */
module SessionTypes {
  import opened Prelude
  import opened Utf8

  /** A plain record compared with `equal`, represented up to that comparison (see module Json). */
  type Snapshot = string

  datatype Usage = Usage(
    inputTokens: int, outputTokens: int, totalTokens: int, reasoningTokens: int, cachedInputTokens: int)

  /* ---------- executions ---------- */

  datatype SettlementInput = SettlementInput(key: string, goalInstanceId: Option<string>)

  datatype Settlement = Settlement(input: SettlementInput, appliedAt: Option<int>)

  datatype Suspension =
    | Hitl(toolBatchId: string, blockerIds: seq<string>)
    | ChildDependency(toolBatchId: string, toolCallId: string, childSessionId: string, childExecutionId: string)
    | ResumePending(toolBatchId: string, readyAt: int)

  datatype TerminalStatus = Completed | MaxSteps | Failed | Aborted | Cancelled | TimedOut | Interrupted

  datatype RunClose = RunClose(endedAt: int, durationMs: int, usageDelta: Usage, settlement: Settlement)

  datatype ExecutionRun = ExecutionRun(ordinal: nat, startedAt: int, binding: Snapshot, close: Option<RunClose>)

  datatype Status =
    | Running
    | Suspended(suspension: Suspension)
    | Terminal(
        outcome: TerminalStatus, endedAt: int, finalOutputStepId: Option<string>,
        error: Option<string>, terminalSettlement: Settlement)

  datatype Start = Start(
    executionId: string, origin: Snapshot, maxSteps: int, activeTimeoutMs: Option<int>,
    executionSkills: Snapshot, memoryPolicy: Snapshot, toolAuthorization: Snapshot,
    loadedToolRefs: Snapshot, binding: Snapshot)

  datatype Execution = Execution(
    id: string, startedAt: int, origin: Snapshot, maxSteps: int, activeTimeoutMs: Option<int>,
    executionSkills: Snapshot, memoryPolicy: Snapshot, toolAuthorization: Snapshot,
    loadedToolRefs: Snapshot, durationMs: int, stopRequestedAt: Option<int>,
    runs: seq<ExecutionRun>, status: Status)

  datatype End = End(
    executionId: string, outcome: TerminalStatus, finalOutputStepId: Option<string>, endedAt: int,
    runEndedAt: Option<int>, runUsageDelta: Option<Usage>, runSettlement: Option<SettlementInput>,
    terminalSettlement: SettlementInput, error: Option<string>)

  datatype LifecycleEvent =
    | ExecutionStart(start: Start)
    | ExecutionSuspended(
        executionId: string, suspension: Suspension, runEndedAt: int,
        runUsageDelta: Usage, runSettlement: SettlementInput)
    | SuspensionUpdated(executionId: string, suspension: Suspension)
    | ExecutionResumed(executionId: string, runOrdinal: nat, binding: Snapshot)
    | ExecutionEnd(end: End)

  function LifecycleId(e: LifecycleEvent): string {
    match e
    case ExecutionStart(start) => start.executionId
    case ExecutionSuspended(id, _, _, _, _) => id
    case SuspensionUpdated(id, _) => id
    case ExecutionResumed(id, _, _) => id
    case ExecutionEnd(end) => end.executionId
  }

  /* ---------- messages ---------- */

  /** The two model output channels; each keeps its own blocks. */
  datatype Channel = Output | Reasoning

  datatype RecoveryScope = Short | WholeSession

  /** A part id is either generated, or derived from the attempt a recovery notice is about. */
  datatype PartId = Generated(id: string) | RecoveryOf(scope: RecoveryScope, relatedId: string)

  datatype Attempt = Attempt(attemptId: string, timestamp: int, destructive: bool)

  datatype ToolResult = ToolResult(isError: bool, output: Snapshot)

  datatype ToolState =
    | ToolPending
    | ToolRunning(input: Snapshot, startedAt: int, live: Option<LiveOutput>)
    | ToolInterrupted(partialInput: Option<Snapshot>, begunAt: Option<int>, endedAt: int)
    | ToolSettled(input: Snapshot, startedAt: int, endedAt: int, result: ToolResult)

  datatype RecoveryStatus = RetryScheduled | Retrying | Recovered | RecoveryFailed

  datatype Part =
    | Block(
        id: PartId, channel: Channel, blockId: string, text: Text, createdAt: int,
        completedAt: Option<int>, interrupted: bool, discarded: bool)
    | Tool(
        id: PartId, toolCallId: string, toolName: string, createdAt: int,
        attempt: Option<Attempt>, state: ToolState)
    | Notice(id: PartId, notice: string, createdAt: int, completedAt: Option<int>)
    | Recovery(
        id: PartId, status: RecoveryStatus, message: string, attemptNumber: int,
        nextRetryAt: Option<int>, errorKind: Option<string>, statusCode: Option<int>,
        createdAt: int, completedAt: Option<int>)

  datatype UserPart =
    | TextPart(id: string, text: Text)
    | AttachmentPart(id: string, attachment: Snapshot)
    | SystemNoticePart(id: string, notice: string, noticedAt: int)
    | CompactionPart(id: string, summary: string, tailStartId: string, compactedAt: int)

  datatype Phase = Commentary | FinalAnswer

  datatype Message =
    | User(
        id: string, userParts: seq<UserPart>, createdAt: int, completedAt: Option<int>,
        origin: Option<(string, nat)>, compacted: bool)
    | Assistant(
        id: string, parts: seq<Part>, createdAt: int, completedAt: Option<int>,
        executionId: string, runOrdinal: nat, stepId: string, phase: Phase, compacted: bool)

  datatype Step = Step(
    id: string, number: int, executionId: string, runOrdinal: nat, startedAt: int,
    completedAt: Option<int>, finishReason: string, usage: Option<Usage>, error: Option<string>)

  /* ---------- the rest of the projection ---------- */

  datatype PendingMessage = PendingMessage(id: string, content: Snapshot)

  datatype ReminderSource =
    | Other(kind: string)
    | SubAgent(kind: string, sessionId: string, childExecutionId: Option<string>)
    | DispatchBlocked(sessionId: string, blockedAfterExecutionId: string)

  datatype Reminder = Reminder(
    id: string, source: ReminderSource, content: string, createdAt: int, consumedAt: Option<int>)

  datatype ChildLink = ChildLink(
    parentSessionId: string, parentToolCallId: string, childSessionId: string, childExecutionId: string,
    agentName: string, profile: string, status: string, title: Text, createdAt: int, detail: Snapshot)

  datatype Stats = Stats(
    userMessages: int, assistantMessages: int, totalMessages: int,
    toolCalls: int, toolsCompleted: int, toolsFailed: int,
    stepsStarted: int, stepsCompleted: int, usage: Usage)

  datatype Session = Session(
    messages: seq<Message>, pending: seq<PendingMessage>, steps: seq<Step>,
    reminders: seq<Reminder>, childLinks: seq<ChildLink>, stats: Stats,
    executions: seq<Execution>, executionCount: nat, isRunning: bool, isStreamingModel: bool,
    currentExecutionId: Option<string>, currentAssistantMessageId: Option<string>)

  const NO_USAGE := Usage(0, 0, 0, 0, 0)

  const EMPTY_STATS := Stats(0, 0, 0, 0, 0, 0, 0, 0, NO_USAGE)

  const EMPTY_SESSION := Session([], [], [], [], [], EMPTY_STATS, [], 0, false, false, None, None)

  /* ---------- events ---------- */

  datatype RecoveryKind = Retry | Recover | GiveUp

  datatype RecoveryEvent = RecoveryEvent(
    kind: RecoveryKind, scope: RecoveryScope, isInternal: bool, stepId: Option<string>,
    messageId: Option<string>, toolCallId: Option<string>, message: string, attemptNumber: int,
    errorKind: Option<string>, statusCode: Option<int>, nextRetryAt: Option<int>)

  datatype Event =
    | Lifecycle(lifecycle: LifecycleEvent)
    | StopRequested(executionId: string, timestamp: int)
    | MessageAccepted(pending: PendingMessage)
    | MessageReplaced(pending: PendingMessage)
    | MessageDeleted(messageId: string)
    | MessagesCommitted(committed: seq<Message>)
    | SystemNotice(notice: string)
    | BlockStart(channel: Channel, stepId: string, blockId: string)
    | BlockDelta(channel: Channel, stepId: string, blockId: string, text: Text)
    | BlockEnd(channel: Channel, stepId: string, blockId: string)
    | ToolInputStart(toolCallId: string, toolName: string)
    | ToolCall(toolCallId: string, toolName: string, input: Option<Snapshot>)
    | ToolInputResolved(toolCallId: string, input: Option<Snapshot>)
    | ToolAttempt(toolCallId: string, attempt: Attempt)
    | ToolOutputDelta(toolCallId: string, toolName: string, delta: Delta)
    | ToolResultArrived(toolCallId: string, settledAt: int, result: ToolResult)
    | ChildLinked(link: ChildLink)
    | ReminderAdded(reminder: Reminder)
    | RemindersConsumed(reminderIds: seq<string>)
    | StepStart(stepId: string, number: int)
    | StepEnd(stepId: string, number: int, finishReason: string, usage: Usage)
    | ExecutionError(failedStepId: Option<string>, failedNumber: Option<int>, error: string)
    | RecoveryNoticed(recovery: RecoveryEvent)
    | Compact(summary: string, tailStartId: string)

  /** Collation weight: `a.localeCompare(b)` has the sign of `weight(a) - weight(b)`. */
  type Collation = string -> real

  /**
   Reduction context: the clock, the ids `generateId` will return, the unwrapping of an
   echoed message envelope, and the collation order.
   */
  datatype Context = Context(
    now: int, partId: string, messageId: string, unwrap: Text -> Text, weight: Collation)
}
