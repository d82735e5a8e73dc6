/**
 Executions, steps and Assistant messages agree with each other: the flags follow the
 executions, Assistant messages correspond one to one and in order to steps, and the
 current Assistant message belongs to the current execution.
 */
module Correspondence {
  import opened Prelude
  import opened SessionTypes
  import opened ExecutionLifecycle
  import opened Messages
  import opened Reducer
  import opened Steps
  import opened PartEvents
  import opened MessageIdentity

  /* ---------- flags ---------- */

  /** `isRunning`, `currentExecutionId` and `executionCount` say what `executions` says. */
  ghost predicate FlagsAgree(s: Session) {
    var n := |s.executions|;
    && s.executionCount == n
    && (if n > 0 && !s.executions[n - 1].status.Terminal?
        then s.currentExecutionId == Some(s.executions[n - 1].id)
             && (s.isRunning <==> s.executions[n - 1].status.Running?)
        else s.currentExecutionId == None && !s.isRunning)
  }

  /** An accepted event other than a start concerns the last record, which is not terminal. */
  lemma AcceptedIsLast(xs: seq<Execution>, e: LifecycleEvent)
    requires ExecutionsOk(xs) && Validate(xs, e).Valid? && !e.ExecutionStart?
    ensures xs != [] && Find(xs, LifecycleId(e)) == |xs| - 1
    ensures !xs[|xs| - 1].status.Terminal? && ValidateOne(xs[|xs| - 1], e).Valid?
  {
    var i := Find(xs, LifecycleId(e));
    ValidateIsOne(xs, e);
    assert !xs[i].status.Terminal?;
  }

  /** The status an accepted event leaves behind. */
  predicate StatusAfter(status: Status, e: LifecycleEvent) {
    match e
    case ExecutionStart(_) => status.Running?
    case ExecutionSuspended(_, _, _, _, _) => status.Suspended?
    case SuspensionUpdated(_, _) => status.Suspended?
    case ExecutionResumed(_, _, _) => status.Running?
    case ExecutionEnd(_) => status.Terminal?
  }

  lemma OneStatusAfter(x: Execution, e: LifecycleEvent, now: int)
    requires x.id == LifecycleId(e) && !e.ExecutionStart? && ValidateOne(x, e).Valid? && !x.status.Terminal?
    ensures StatusAfter(ApplyOne(x, e, now).status, e) && ApplyOne(x, e, now).id == x.id
  {
  }

  lemma LastAfter(xs: seq<Execution>, e: LifecycleEvent, now: int)
    requires ExecutionsOk(xs) && Validate(xs, e).Valid?
    ensures var ys := Apply(xs, e, now);
      && ys != []
      && StatusAfter(ys[|ys| - 1].status, e)
      && ys[|ys| - 1].id == LifecycleId(e)
      && (!e.ExecutionStart? ==> xs != [] && xs[|xs| - 1].id == LifecycleId(e) && !xs[|xs| - 1].status.Terminal?)
  {
    if e.ExecutionStart? {
      StartAccepted(xs, e, now);
    } else {
      AcceptedIsLast(xs, e);
      var k := AcceptedAt(xs, e, now);
      OneStatusAfter(xs[k], e, now);
    }
  }

  lemma LifecycleKeepsFlags(s: Session, e: LifecycleEvent, now: int)
    requires ExecutionsOk(s.executions) && FlagsAgree(s) && LifecycleAccepted(s, e)
    ensures FlagsAgree(OnLifecycle(s, e, now))
    ensures OnLifecycle(s, e, now).executions == Apply(s.executions, e, now)
  {
    LastAfter(s.executions, e, now);
  }

  lemma StopKeepsFlags(s: Session, id: string, timestamp: int)
    requires ExecutionsOk(s.executions) && FlagsAgree(s)
    ensures FlagsAgree(s.(executions := RequestStop(s.executions, id, timestamp)))
  {
  }

  /** The current execution is the last record, and it is not terminal. */
  lemma CurrentIsLast(s: Session)
    requires ExecutionsOk(s.executions) && FlagsAgree(s) && s.currentExecutionId.Some?
    ensures s.executions != []
    ensures var n := |s.executions| - 1;
      && !s.executions[n].status.Terminal?
      && s.currentExecutionId == Some(s.executions[n].id)
      && Find(s.executions, s.currentExecutionId.value) == n
      && CurrentRun(s) == Some((s.executions[n].id, |s.executions[n].runs| - 1))
  {
    var n := |s.executions| - 1;
    FindAt(s.executions, s.executions[n].id, n);
    assert RunShape(s.executions[n], |s.executions[n].runs| - 1);
  }

  /* ---------- steps and messages ---------- */

  datatype StepKey = StepKey(stepId: string, executionId: string, runOrdinal: nat)

  function MessageKey(m: Message): StepKey
    requires m.Assistant?
  {
    StepKey(m.stepId, m.executionId, m.runOrdinal)
  }

  /** Keys of the Assistant messages, in order. */
  function MessageKeys(ms: seq<Message>): seq<StepKey> {
    if ms == [] then []
    else
      var m := ms[|ms| - 1];
      MessageKeys(ms[..|ms| - 1]) + if m.Assistant? then [MessageKey(m)] else []
  }

  function StepKeys(steps: seq<Step>): (ks: seq<StepKey>)
    ensures |ks| == |steps|
    ensures forall k :: 0 <= k < |steps| ==> ks[k] == StepKey(steps[k].id, steps[k].executionId, steps[k].runOrdinal)
  {
    seq(|steps|, k requires 0 <= k < |steps| => StepKey(steps[k].id, steps[k].executionId, steps[k].runOrdinal))
  }

  ghost predicate DistinctSteps(steps: seq<Step>) {
    forall k, l :: 0 <= k < l < |steps| ==> steps[k].id != steps[l].id
  }

  ghost predicate StepKnown(step: Step, xs: seq<Execution>) {
    var i := Find(xs, step.executionId);
    i < |xs| && step.runOrdinal < |xs[i].runs|
  }

  ghost predicate StepsOk(steps: seq<Step>, xs: seq<Execution>) {
    && DistinctSteps(steps)
    && (forall k :: 0 <= k < |steps| ==> StepKnown(steps[k], xs))
    && (forall k :: 0 <= k < |steps| && steps[k].completedAt.Some? ==> steps[k].completedAt.value > 0)
  }

  /** The message of a completed step is completed. */
  ghost predicate CompletedTogether(ms: seq<Message>, steps: seq<Step>) {
    forall i, k :: 0 <= i < |ms| && 0 <= k < |steps| && IsStepMessage(ms[i], steps[k].id) ==>
      steps[k].completedAt.Some? ==> ms[i].completedAt.Some?
  }

  /** Assistant messages and steps correspond one to one, in order. */
  ghost predicate StepsMatch(ms: seq<Message>, steps: seq<Step>) {
    && MessageKeys(ms) == StepKeys(steps)
    && CompletedTogether(ms, steps)
  }

  predicate IsCurrentMessage(m: Message, execution: Option<string>, current: Option<string>) {
    m.Assistant? && current == Some(m.id) && execution == Some(m.executionId)
  }

  /** The current Assistant message exists and belongs to the current execution. */
  ghost predicate CurrentMessageOk(ms: seq<Message>, execution: Option<string>, current: Option<string>) {
    current.Some? ==> exists i :: 0 <= i < |ms| && IsCurrentMessage(ms[i], execution, current)
  }

  ghost predicate Coherent(s: Session) {
    && ExecutionsOk(s.executions)
    && FlagsAgree(s)
    && MessagesOk(s.messages)
    && StepsOk(s.steps, s.executions)
    && StepsMatch(s.messages, s.steps)
    && CurrentMessageOk(s.messages, s.currentExecutionId, s.currentAssistantMessageId)
  }

  /* ---------- reading the correspondence ---------- */

  lemma {:induction false} KeysConcat(a: seq<Message>, b: seq<Message>)
    ensures MessageKeys(a + b) == MessageKeys(a) + MessageKeys(b)
  {
    if b == [] {
      assert a + b == a;
    } else {
      var front := b[..|b| - 1];
      assert (a + b)[..|a + b| - 1] == a + front;
      KeysConcat(a, front);
    }
  }

  lemma {:induction false} KeysSame(before: seq<Message>, after: seq<Message>)
    requires |after| == |before|
    requires forall i :: 0 <= i < |before| ==>
      (before[i].Assistant? <==> after[i].Assistant?)
      && (before[i].Assistant? ==> MessageKey(after[i]) == MessageKey(before[i]))
    ensures MessageKeys(after) == MessageKeys(before)
  {
    if before != [] {
      KeysSame(before[..|before| - 1], after[..|before| - 1]);
    }
  }

  lemma {:induction false} KeysOfUsers(ms: seq<Message>)
    requires forall i :: 0 <= i < |ms| ==> ms[i].User?
    ensures MessageKeys(ms) == []
  {
    if ms != [] {
      KeysOfUsers(ms[..|ms| - 1]);
    }
  }

  /** The position of an Assistant message among all Assistant messages. */
  function Rank(ms: seq<Message>, i: nat): nat
    requires i < |ms|
  {
    |MessageKeys(ms[..i])|
  }

  lemma KeyAtRank(ms: seq<Message>, i: nat)
    requires i < |ms| && ms[i].Assistant?
    ensures Rank(ms, i) < |MessageKeys(ms)| && MessageKeys(ms)[Rank(ms, i)] == MessageKey(ms[i])
  {
    assert ms == ms[..i + 1] + ms[i + 1..];
    KeysConcat(ms[..i + 1], ms[i + 1..]);
    assert ms[..i + 1][..i] == ms[..i];
  }

  lemma RankIncreases(ms: seq<Message>, i: nat, j: nat)
    requires i < j < |ms| && ms[i].Assistant?
    ensures Rank(ms, i) < Rank(ms, j)
  {
    assert ms[..j] == ms[..i + 1] + ms[i + 1..j];
    KeysConcat(ms[..i + 1], ms[i + 1..j]);
    assert ms[..i + 1][..i] == ms[..i];
  }

  lemma {:induction false} MessageAtRank(ms: seq<Message>, k: nat) returns (i: nat)
    requires k < |MessageKeys(ms)|
    ensures i < |ms| && ms[i].Assistant? && MessageKey(ms[i]) == MessageKeys(ms)[k]
  {
    var front := ms[..|ms| - 1];
    if k < |MessageKeys(front)| {
      i := MessageAtRank(front, k);
    } else {
      i := |ms| - 1;
    }
  }

  /** The step of an Assistant message. */
  lemma StepOfMessage(ms: seq<Message>, steps: seq<Step>, i: nat) returns (k: nat)
    requires StepsMatch(ms, steps) && i < |ms| && ms[i].Assistant?
    ensures k == Rank(ms, i) < |steps|
    ensures StepKey(steps[k].id, steps[k].executionId, steps[k].runOrdinal) == MessageKey(ms[i])
  {
    k := Rank(ms, i);
    KeyAtRank(ms, i);
    assert StepKeys(steps)[k] == MessageKey(ms[i]);
  }

  /** The message of a step. */
  lemma MessageOfStep(ms: seq<Message>, steps: seq<Step>, k: nat) returns (i: nat)
    requires StepsMatch(ms, steps) && k < |steps|
    ensures i < |ms| && IsStepMessage(ms[i], steps[k].id)
    ensures StepKey(steps[k].id, steps[k].executionId, steps[k].runOrdinal) == MessageKey(ms[i])
  {
    i := MessageAtRank(ms, k);
    assert StepKeys(steps)[k] == MessageKey(ms[i]);
  }

  /** Different Assistant messages belong to different steps. */
  lemma StepMessagesDistinct(ms: seq<Message>, steps: seq<Step>, i: nat, j: nat)
    requires StepsMatch(ms, steps) && DistinctSteps(steps)
    requires i < j < |ms| && ms[i].Assistant? && ms[j].Assistant?
    ensures ms[i].stepId != ms[j].stepId
  {
    var k := StepOfMessage(ms, steps, i);
    var l := StepOfMessage(ms, steps, j);
    RankIncreases(ms, i, j);
  }

  lemma StepMessageAtIs(ms: seq<Message>, steps: seq<Step>, i: nat)
    requires StepsMatch(ms, steps) && DistinctSteps(steps) && i < |ms| && ms[i].Assistant?
    ensures StepMessageAt(ms, ms[i].stepId) == i
  {
    var j := StepMessageAt(ms, ms[i].stepId);
    if j < i {
      StepMessagesDistinct(ms, steps, j, i);
    }
  }

  /** An active open step names one step of the current run, and it is not completed. */
  lemma ActiveStepIs(s: Session, stepId: string) returns (k: nat)
    requires IsActiveOpenStep(s, stepId)
    ensures k < |s.steps| && s.steps[k].id == stepId && s.steps[k].completedAt.None?
    ensures CurrentRun(s) == Some((s.steps[k].executionId, s.steps[k].runOrdinal))
  {
    k :| 0 <= k < |s.steps| && s.steps[k].id == stepId && InRun(s.steps[k], CurrentRun(s).value)
         && s.steps[k].completedAt.None?;
  }

  /* ---------- preservation ---------- */

  predicate SameSpineAt(before: Message, after: Message) {
    && after.id == before.id
    && (before.Assistant? <==> after.Assistant?)
    && (before.Assistant? ==> MessageKey(after) == MessageKey(before))
    && (before.completedAt.Some? ==> after.completedAt.Some?)
  }

  /** The message list changed without adding or moving messages, completing at most. */
  ghost predicate SameSpine(before: seq<Message>, after: seq<Message>) {
    |after| == |before| && forall i :: 0 <= i < |before| ==> SameSpineAt(before[i], after[i])
  }

  lemma SpineKeepsMatch(before: seq<Message>, after: seq<Message>, steps: seq<Step>)
    requires SameSpine(before, after) && StepsMatch(before, steps)
    ensures StepsMatch(after, steps)
  {
    forall i | 0 <= i < |before|
      ensures before[i].Assistant? <==> after[i].Assistant?
      ensures before[i].Assistant? ==> MessageKey(after[i]) == MessageKey(before[i])
    {
      assert SameSpineAt(before[i], after[i]);
    }
    KeysSame(before, after);
    forall i, k | 0 <= i < |after| && 0 <= k < |steps| && IsStepMessage(after[i], steps[k].id)
      && steps[k].completedAt.Some?
      ensures after[i].completedAt.Some?
    {
      assert SameSpineAt(before[i], after[i]);
      assert IsStepMessage(before[i], steps[k].id);
    }
  }

  lemma SpineKeepsCurrent(before: seq<Message>, after: seq<Message>, execution: Option<string>, current: Option<string>)
    requires SameSpine(before, after) && CurrentMessageOk(before, execution, current)
    ensures CurrentMessageOk(after, execution, current)
  {
    if current.Some? {
      var i :| 0 <= i < |before| && IsCurrentMessage(before[i], execution, current);
      assert SameSpineAt(before[i], after[i]);
      assert IsCurrentMessage(after[i], execution, current);
    }
  }

  lemma EditKeepsSpine(ms: seq<Message>, edit: Edit)
    requires EditFits(ms, edit)
    ensures SameSpine(ms, ApplyEdit(ms, edit))
  {
  }

  lemma SameMessageSpine(before: seq<Message>, after: seq<Message>)
    requires |after| == |before|
    requires forall i :: 0 <= i < |before| ==> SameMessage(before[i], after[i])
    requires forall i :: 0 <= i < |before| && before[i].completedAt.Some? ==> after[i].completedAt.Some?
    ensures SameSpine(before, after)
  {
    forall i | 0 <= i < |before| ensures SameSpineAt(before[i], after[i]) {
      assert SameMessage(before[i], after[i]);
    }
  }

  /** An identity-preserving edit keeps everything; a moved current message is on the active step. */
  lemma EditKeepsCoherent(s: Session, t: Session, edit: Edit)
    requires Coherent(s) && PartEdit(s, t, edit)
    ensures Coherent(t)
  {
    EditKeepsMessagesOk(s.messages, edit);
    EditKeepsSpine(s.messages, edit);
    SpineKeepsMatch(s.messages, t.messages, s.steps);
    if t.currentAssistantMessageId == s.currentAssistantMessageId {
      SpineKeepsCurrent(s.messages, t.messages, s.currentExecutionId, s.currentAssistantMessageId);
    } else {
      ActiveMessageIsCurrent(s, edit.i, s.messages[edit.i].stepId);
      assert IsCurrentMessage(t.messages[edit.i], t.currentExecutionId, t.currentAssistantMessageId);
    }
  }

  lemma ActiveMessageIsCurrent(s: Session, i: nat, stepId: string)
    requires Coherent(s) && OnActiveStep(s, i, stepId)
    ensures s.currentExecutionId == Some(s.messages[i].executionId)
  {
    var k := ActiveStepIs(s, stepId);
    var l := StepOfMessage(s.messages, s.steps, i);
    assert k == l;
  }

  lemma PartEventKeepsCoherent(s: Session, e: Event, ctx: Context, t: Session)
    requires Coherent(s) && FreshContext(s, ctx) && IsPartEvent(e) && Reduces(s, e, ctx, t)
    ensures Coherent(t)
  {
    var edit := PartEventIsEdit(s, e, ctx, t);
    EditKeepsCoherent(s, t, edit);
  }

  lemma StepsOkExtends(steps: seq<Step>, before: seq<Execution>, after: seq<Execution>)
    requires StepsOk(steps, before) && ExecutionsOk(after) && Extends(before, after)
    ensures StepsOk(steps, after)
  {
    forall k | 0 <= k < |steps| ensures StepKnown(steps[k], after) {
      assert StepKnown(steps[k], before);
      FindStable(before, after, steps[k].executionId);
    }
  }

  lemma AppendUsersKeeps(
    ms: seq<Message>, users: seq<Message>, steps: seq<Step>, execution: Option<string>, current: Option<string>)
    requires StepsMatch(ms, steps) && CurrentMessageOk(ms, execution, current)
    requires forall k :: 0 <= k < |users| ==> users[k].User?
    ensures StepsMatch(ms + users, steps) && CurrentMessageOk(ms + users, execution, current)
  {
    var after := ms + users;
    KeysConcat(ms, users);
    KeysOfUsers(users);
    forall i, k | 0 <= i < |after| && 0 <= k < |steps| && IsStepMessage(after[i], steps[k].id)
      && steps[k].completedAt.Some?
      ensures after[i].completedAt.Some?
    {
      assert i < |ms|;
    }
    if current.Some? {
      var i :| 0 <= i < |ms| && IsCurrentMessage(ms[i], execution, current);
      assert after[i] == ms[i];
    }
  }

  lemma InsertUserKeys(front: seq<Message>, user: Message, back: seq<Message>)
    requires user.User?
    ensures MessageKeys(front + [user] + back) == MessageKeys(front + back)
  {
    KeysConcat(front, [user]);
    KeysConcat(front + [user], back);
    KeysConcat(front, back);
    KeysOfUsers([user]);
  }

  lemma InsertUserKeepsMatch(front: seq<Message>, user: Message, back: seq<Message>, steps: seq<Step>)
    requires StepsMatch(front + back, steps) && user.User?
    ensures StepsMatch(front + [user] + back, steps)
  {
    var before, after := front + back, front + [user] + back;
    InsertUserKeys(front, user, back);
    forall i, k | 0 <= i < |after| && 0 <= k < |steps| && IsStepMessage(after[i], steps[k].id)
      && steps[k].completedAt.Some?
      ensures after[i].completedAt.Some?
    {
      assert after[i] == before[if i < |front| then i else i - 1];
    }
  }

  lemma InsertUserKeepsCurrent(
    front: seq<Message>, user: Message, back: seq<Message>, execution: Option<string>, current: Option<string>)
    requires CurrentMessageOk(front + back, execution, current)
    ensures CurrentMessageOk(front + [user] + back, execution, current)
  {
    if current.Some? {
      var before, after := front + back, front + [user] + back;
      var i :| 0 <= i < |before| && IsCurrentMessage(before[i], execution, current);
      assert after[if i < |front| then i else i + 1] == before[i];
    }
  }

  lemma EndedSpine(ms: seq<Message>, current: Option<string>, end: End)
    requires MessagesOk(ms)
    ensures SameSpine(ms, EndedMessages(ms, current, end)) && MessagesOk(EndedMessages(ms, current, end))
  {
    EndedSame(ms, current, end);
    SameMessagesOk(ms, EndedMessages(ms, current, end));
    SameMessageSpine(ms, EndedMessages(ms, current, end));
  }

  lemma AcceptedKeepsRecords(s: Session, e: LifecycleEvent, now: int)
    requires Coherent(s) && LifecycleAccepted(s, e)
    ensures var t := OnLifecycle(s, e, now);
      && ExecutionsOk(t.executions) && FlagsAgree(t) && StepsOk(s.steps, t.executions) && t.steps == s.steps
  {
    LifecycleKeepsFlags(s, e, now);
    ApplyKeepsLifecycle(s.executions, e, now);
    ApplyExtends(s.executions, e, now);
    StepsOkExtends(s.steps, s.executions, Apply(s.executions, e, now));
  }

  lemma AcceptedKeepsMessages(s: Session, e: LifecycleEvent, now: int)
    requires Coherent(s) && LifecycleAccepted(s, e)
    ensures var t := OnLifecycle(s, e, now);
      && MessagesOk(t.messages) && StepsMatch(t.messages, s.steps)
      && CurrentMessageOk(t.messages, t.currentExecutionId, t.currentAssistantMessageId)
  {
    if e.ExecutionEnd? {
      EndedSpine(s.messages, s.currentAssistantMessageId, e.end);
      SpineKeepsMatch(s.messages, EndedMessages(s.messages, s.currentAssistantMessageId, e.end), s.steps);
    } else if !e.ExecutionStart? {
      LastAfter(s.executions, e, now);
      assert OnLifecycle(s, e, now).currentExecutionId == s.currentExecutionId;
    }
  }

  lemma AcceptedKeepsCoherent(s: Session, e: LifecycleEvent, now: int)
    requires Coherent(s) && LifecycleAccepted(s, e)
    ensures Coherent(OnLifecycle(s, e, now))
  {
    AcceptedKeepsRecords(s, e, now);
    AcceptedKeepsMessages(s, e, now);
  }

  lemma LifecycleKeepsCoherent(s: Session, e: LifecycleEvent, now: int)
    requires Coherent(s)
    ensures Coherent(OnLifecycle(s, e, now))
  {
    if LifecycleAccepted(s, e) {
      AcceptedKeepsCoherent(s, e, now);
    }
  }

  lemma StopKeepsCoherent(s: Session, id: string, timestamp: int)
    requires Coherent(s)
    ensures Coherent(s.(executions := RequestStop(s.executions, id, timestamp)))
  {
    StopKeepsLifecycle(s.executions, id, timestamp);
    StopExtends(s.executions, id, timestamp);
    StopKeepsFlags(s, id, timestamp);
    StepsOkExtends(s.steps, s.executions, RequestStop(s.executions, id, timestamp));
  }

  lemma StepStartKeepsCoherent(s: Session, stepId: string, number: int, ctx: Context)
    requires Coherent(s) && FreshContext(s, ctx)
    ensures Coherent(OnStepStart(s, stepId, number, ctx))
  {
    var t := OnStepStart(s, stepId, number, ctx);
    if t != s {
      CurrentIsLast(s);
      StepStartOk(s, stepId, number, ctx);
      AppendStepKeeps(s.messages, s.steps, t.messages[|s.messages|], t.steps[|s.steps|]);
      assert IsCurrentMessage(t.messages[|s.messages|], t.currentExecutionId, t.currentAssistantMessageId);
    }
  }

  lemma AppendStepKeys(ms: seq<Message>, steps: seq<Step>, m: Message, step: Step)
    requires m.Assistant? && MessageKey(m) == StepKey(step.id, step.executionId, step.runOrdinal)
    requires MessageKeys(ms) == StepKeys(steps)
    ensures MessageKeys(ms + [m]) == StepKeys(steps + [step])
  {
    assert (ms + [m])[..|ms|] == ms;
    assert StepKeys(steps + [step]) == StepKeys(steps) + [MessageKey(m)];
  }

  lemma AppendStepKeeps(ms: seq<Message>, steps: seq<Step>, m: Message, step: Step)
    requires StepsMatch(ms, steps) && m.Assistant?
    requires MessageKey(m) == StepKey(step.id, step.executionId, step.runOrdinal)
    requires step.completedAt.None? && forall k :: 0 <= k < |steps| ==> steps[k].id != step.id
    ensures StepsMatch(ms + [m], steps + [step])
  {
    AppendStepKeys(ms, steps, m, step);
    var after, next := ms + [m], steps + [step];
    forall i, k | 0 <= i < |after| && 0 <= k < |next| && IsStepMessage(after[i], next[k].id)
      && next[k].completedAt.Some?
      ensures after[i].completedAt.Some?
    {
      assert k < |steps| && next[k] == steps[k];
      assert after[|ms|] == m && !IsStepMessage(m, steps[k].id);
      assert i < |ms| && after[i] == ms[i] && IsStepMessage(ms[i], steps[k].id);
    }
  }

  /** Steps changed without adding, moving or renaming any. */
  ghost predicate SameSteps(before: seq<Step>, after: seq<Step>) {
    && |after| == |before|
    && forall k :: 0 <= k < |before| ==>
         && after[k].id == before[k].id
         && after[k].executionId == before[k].executionId
         && after[k].runOrdinal == before[k].runOrdinal
  }

  lemma SameStepsOk(before: seq<Step>, after: seq<Step>, xs: seq<Execution>)
    requires StepsOk(before, xs) && SameSteps(before, after)
    requires forall k :: 0 <= k < |after| && after[k].completedAt.Some? ==> after[k].completedAt.value > 0
    ensures StepsOk(after, xs) && StepKeys(after) == StepKeys(before)
  {
    forall k | 0 <= k < |after| ensures StepKnown(after[k], xs) {
      assert StepKnown(before[k], xs);
    }
  }

  /** Steps may become completed, as long as the messages of those steps are. */
  lemma CompletingKeepsMatch(ms: seq<Message>, before: seq<Step>, after: seq<Step>, stepId: string)
    requires StepsMatch(ms, before) && SameSteps(before, after)
    requires forall k :: 0 <= k < |after| && after[k].completedAt.Some? ==>
      before[k].completedAt.Some? || before[k].id == stepId
    requires forall i :: 0 <= i < |ms| && IsStepMessage(ms[i], stepId) ==> ms[i].completedAt.Some?
    ensures StepsMatch(ms, after)
  {
    assert StepKeys(after) == StepKeys(before);
    forall i, k | 0 <= i < |ms| && 0 <= k < |after| && IsStepMessage(ms[i], after[k].id) && after[k].completedAt.Some?
      ensures ms[i].completedAt.Some?
    {
      assert IsStepMessage(ms[i], before[k].id);
    }
  }

  lemma StepEndSpine(ms: seq<Message>, stepId: string, finishReason: string, now: int)
    requires MessagesOk(ms)
    ensures var after := StepEndMessages(ms, stepId, finishReason, now);
      && SameSpine(ms, after)
      && MessagesOk(after)
      && forall i :: 0 <= i < |after| && IsStepMessage(after[i], stepId) ==> after[i].completedAt.Some?
  {
    StepEndSame(ms, stepId, finishReason, now);
    SameMessagesOk(ms, StepEndMessages(ms, stepId, finishReason, now));
    SameMessageSpine(ms, StepEndMessages(ms, stepId, finishReason, now));
  }

  lemma EndStepsSame(
    steps: seq<Step>, stepId: string, number: int, run: (string, nat), finishReason: string, usage: Usage, now: int)
    ensures var after := EndSteps(steps, stepId, number, run, finishReason, usage, now);
      && SameSteps(steps, after)
      && forall k :: 0 <= k < |after| && after[k].completedAt.Some? ==>
           after[k].completedAt == steps[k].completedAt || (after[k].completedAt == Some(now) && steps[k].id == stepId)
  {
  }

  lemma StepEndKeepsCoherent(s: Session, stepId: string, number: int, finishReason: string, usage: Usage, now: int)
    requires Coherent(s) && now > 0
    ensures Coherent(OnStepEnd(s, stepId, number, finishReason, usage, now))
  {
    var t := OnStepEnd(s, stepId, number, finishReason, usage, now);
    if t != s {
      StepEndKeepsMessages(s, stepId, finishReason, now);
      StepEndKeepsMatch(s, stepId, number, CurrentRun(s).value, finishReason, usage, now);
    }
  }

  lemma StepEndKeepsMessages(s: Session, stepId: string, finishReason: string, now: int)
    requires Coherent(s)
    ensures var after := StepEndMessages(s.messages, stepId, finishReason, now);
      MessagesOk(after) && CurrentMessageOk(after, s.currentExecutionId, s.currentAssistantMessageId)
  {
    var after := StepEndMessages(s.messages, stepId, finishReason, now);
    StepEndSpine(s.messages, stepId, finishReason, now);
    SpineKeepsCurrent(s.messages, after, s.currentExecutionId, s.currentAssistantMessageId);
  }

  lemma StepEndKeepsMatch(
    s: Session, stepId: string, number: int, run: (string, nat), finishReason: string, usage: Usage, now: int)
    requires Coherent(s) && now > 0
    ensures var steps := EndSteps(s.steps, stepId, number, run, finishReason, usage, now);
      && StepsOk(steps, s.executions)
      && StepsMatch(StepEndMessages(s.messages, stepId, finishReason, now), steps)
  {
    var ms := StepEndMessages(s.messages, stepId, finishReason, now);
    var steps := EndSteps(s.steps, stepId, number, run, finishReason, usage, now);
    StepEndSpine(s.messages, stepId, finishReason, now);
    SpineKeepsMatch(s.messages, ms, s.steps);
    EndStepsSame(s.steps, stepId, number, run, finishReason, usage, now);
    SameStepsOk(s.steps, steps, s.executions);
    CompletingKeepsMatch(ms, s.steps, steps, stepId);
  }

  lemma SameCompletionMatches(ms: seq<Message>, before: seq<Step>, after: seq<Step>)
    requires StepsMatch(ms, before) && SameSteps(before, after)
    requires forall k :: 0 <= k < |before| ==> after[k].completedAt == before[k].completedAt
    ensures StepsMatch(ms, after)
  {
    assert StepKeys(after) == StepKeys(before);
    forall i, k | 0 <= i < |ms| && 0 <= k < |after| && IsStepMessage(ms[i], after[k].id) && after[k].completedAt.Some?
      ensures ms[i].completedAt.Some?
    {
      assert IsStepMessage(ms[i], before[k].id);
    }
  }

  lemma ErrorSameSteps(s: Session, stepId: Option<string>, number: Option<int>, error: string)
    ensures var after := OnExecutionError(s, stepId, number, error).steps;
      SameSteps(s.steps, after) && forall k :: 0 <= k < |s.steps| ==> after[k].completedAt == s.steps[k].completedAt
  {
  }

  lemma ErrorKeepsCoherent(s: Session, stepId: Option<string>, number: Option<int>, error: string)
    requires Coherent(s)
    ensures Coherent(OnExecutionError(s, stepId, number, error))
  {
    var t := OnExecutionError(s, stepId, number, error);
    ErrorSameSteps(s, stepId, number, error);
    SameStepsOk(s.steps, t.steps, s.executions);
    SameCompletionMatches(s.messages, s.steps, t.steps);
  }

  /** A flagged or refreshed list has the same spine. */
  lemma FlaggedMatch(
    before: seq<Message>, after: seq<Message>, steps: seq<Step>, execution: Option<string>, current: Option<string>)
    requires SameSpine(before, after) && StepsMatch(before, steps) && CurrentMessageOk(before, execution, current)
    ensures StepsMatch(after, steps) && CurrentMessageOk(after, execution, current)
  {
    SpineKeepsMatch(before, after, steps);
    SpineKeepsCurrent(before, after, execution, current);
  }

  lemma CompactedMatch(
    ms: seq<Message>, steps: seq<Step>, execution: Option<string>, current: Option<string>,
    summary: string, tailStartId: string, ctx: Context)
    requires StepsMatch(ms, steps) && CurrentMessageOk(ms, execution, current)
    ensures var after := Compacted(ms, summary, tailStartId, ctx);
      StepsMatch(after, steps) && CurrentMessageOk(after, execution, current)
  {
    var upTo := MessageAt(ms, tailStartId);
    var flagged := FlagUpTo(ms, upTo);
    var after := Compacted(ms, summary, tailStartId, ctx);
    assert SameSpine(ms, flagged);
    FlaggedMatch(ms, flagged, steps, execution, current);
    if CompactionAt(ms) < |ms| {
      assert SameSpine(flagged, after);
      FlaggedMatch(flagged, after, steps, execution, current);
    } else {
      var user := CompactionMessage(summary, tailStartId, ctx);
      assert flagged == flagged[..upTo] + flagged[upTo..];
      InsertUserKeepsMatch(flagged[..upTo], user, flagged[upTo..], steps);
      InsertUserKeepsCurrent(flagged[..upTo], user, flagged[upTo..], execution, current);
    }
  }

  lemma CompactKeepsCoherent(s: Session, summary: string, tailStartId: string, ctx: Context)
    requires Coherent(s) && FreshContext(s, ctx)
    ensures Coherent(s.(messages := Compacted(s.messages, summary, tailStartId, ctx)))
  {
    CompactedOk(s.messages, summary, tailStartId, ctx);
    CompactedMatch(
      s.messages, s.steps, s.currentExecutionId, s.currentAssistantMessageId, summary, tailStartId, ctx);
  }

  lemma CommitKeepsCoherent(s: Session, committed: seq<Message>)
    requires Coherent(s) && forall k :: 0 <= k < |committed| ==> IsCommitted(committed[k])
    ensures Coherent(OnMessagesCommitted(s, committed))
  {
    var arrivals := NewMessages(committed, Ids(s.messages));
    NewMessagesAre(committed, Ids(s.messages));
    AppendUsersOk(s.messages, arrivals);
    AppendUsersKeeps(s.messages, arrivals, s.steps, s.currentExecutionId, s.currentAssistantMessageId);
  }

  lemma NoticeKeepsCoherent(s: Session, user: Message)
    requires Coherent(s) && user.User? && forall i :: 0 <= i < |s.messages| ==> s.messages[i].id != user.id
    ensures Coherent(s.(messages := s.messages + [user]))
  {
    AppendUsersOk(s.messages, [user]);
    AppendUsersKeeps(s.messages, [user], s.steps, s.currentExecutionId, s.currentAssistantMessageId);
    assert MessagesOk(s.messages + [user]) && StepsMatch(s.messages + [user], s.steps);
    assert CurrentMessageOk(s.messages + [user], s.currentExecutionId, s.currentAssistantMessageId);
  }

  lemma MessageEventKeepsCoherent(s: Session, e: Event, ctx: Context, t: Session)
    requires Coherent(s) && Admissible(s, e, ctx) && Reduces(s, e, ctx, t)
    requires e.MessagesCommitted? || e.SystemNotice? || e.Compact?
    ensures Coherent(t)
  {
    if e.MessagesCommitted? {
      CommitIs(s, e, ctx, t);
      CommitKeepsCoherent(s, e.committed);
    } else if e.SystemNotice? {
      NoticeIs(s, e, ctx, t);
      NoticeKeepsCoherent(s, NoticeMessage(s, e.notice, ctx));
    } else {
      CompactIs(s, e, ctx, t);
      CompactKeepsCoherent(s, e.summary, e.tailStartId, ctx);
    }
  }

  lemma StepEventKeepsCoherent(s: Session, e: Event, ctx: Context, t: Session)
    requires Coherent(s) && Admissible(s, e, ctx) && Reduces(s, e, ctx, t)
    requires e.StepStart? || e.StepEnd? || e.ExecutionError?
    ensures Coherent(t)
  {
    if e.StepStart? {
      StepStartIs(s, e, ctx, t);
      StepStartKeepsCoherent(s, e.stepId, e.number, ctx);
    } else if e.StepEnd? {
      StepEndIs(s, e, ctx, t);
      StepEndKeepsCoherent(s, e.stepId, e.number, e.finishReason, e.usage, ctx.now);
    } else {
      ErrorIs(s, e, ctx, t);
      ErrorKeepsCoherent(s, e.failedStepId, e.failedNumber, e.error);
    }
  }

  lemma RecordEventKeepsCoherent(s: Session, e: Event, ctx: Context, t: Session)
    requires Coherent(s) && Reduces(s, e, ctx, t) && (e.Lifecycle? || e.StopRequested? || IsQuietEvent(e))
    ensures Coherent(t)
  {
    if e.Lifecycle? {
      LifecycleIs(s, e, ctx, t);
      LifecycleKeepsCoherent(s, e.lifecycle, ctx.now);
    } else if e.StopRequested? {
      StopIs(s, e, ctx, t);
      StopKeepsCoherent(s, e.executionId, e.timestamp);
    } else {
      QuietIs(s, e, ctx, t);
    }
  }

  /** Every event keeps executions, steps and messages coherent. */
  lemma ReduceKeepsCoherent(s: Session, e: Event, ctx: Context, t: Session)
    requires Coherent(s) && Admissible(s, e, ctx) && Reduces(s, e, ctx, t)
    ensures Coherent(t)
  {
    if IsPartEvent(e) {
      PartEventKeepsCoherent(s, e, ctx, t);
    } else if e.MessagesCommitted? || e.SystemNotice? || e.Compact? {
      MessageEventKeepsCoherent(s, e, ctx, t);
    } else if e.StepStart? || e.StepEnd? || e.ExecutionError? {
      StepEventKeepsCoherent(s, e, ctx, t);
    } else {
      RecordEventKeepsCoherent(s, e, ctx, t);
    }
  }

  /** The current message is always found: the reducer never throws for a wrong current message. */
  lemma CurrentMessageFound(s: Session)
    requires Coherent(s)
    ensures !EnsureCurrentAssistant(s).NotAStepMessage?
  {
    if Truthy(s.currentAssistantMessageId) {
      var i :| 0 <= i < |s.messages|
            && IsCurrentMessage(s.messages[i], s.currentExecutionId, s.currentAssistantMessageId);
      assert AssistantAt(s.messages, s.currentAssistantMessageId.value) <= i;
    }
  }
}
