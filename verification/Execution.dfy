/**
 The logical Execution lifecycle: which start, suspend, resume and end events are
 accepted, what they do to the records, and what no later event can change.
 */
module ExecutionLifecycle {
  import opened Prelude
  import opened SessionTypes

  datatype Validation = Valid | Duplicate | Invalid

  /* ---------- validation ---------- */

  /** Index of the first record with this id, or `|xs|` when there is none. */
  function Find(xs: seq<Execution>, id: string): (i: nat)
    ensures i <= |xs|
    ensures i < |xs| ==> xs[i].id == id
    ensures forall k :: 0 <= k < i ==> xs[k].id != id
  {
    if xs == [] || xs[0].id == id then 0 else 1 + Find(xs[1..], id)
  }

  function LastRun(x: Execution): ExecutionRun
    requires x.runs != []
  {
    x.runs[|x.runs| - 1]
  }

  predicate HasOpenRun(x: Execution) {
    x.runs != [] && LastRun(x).close.None?
  }

  predicate SettlementMatches(persisted: Settlement, input: SettlementInput) {
    persisted.input == input
  }

  function Validate(xs: seq<Execution>, e: LifecycleEvent): Validation {
    var i := Find(xs, LifecycleId(e));
    match e
    case ExecutionStart(start) =>
      if i < |xs| then ValidateRestart(xs[i], start)
      else if exists k :: 0 <= k < |xs| && !xs[k].status.Terminal? then Invalid
      else Valid
    case ExecutionSuspended(_, suspension, runEndedAt, usage, settlement) =>
      if i == |xs| then Invalid else ValidateSuspend(xs[i], suspension, runEndedAt, usage, settlement)
    case SuspensionUpdated(_, suspension) =>
      if i == |xs| then Invalid else ValidateSuspensionUpdate(xs[i], suspension)
    case ExecutionResumed(_, ordinal, binding) =>
      if i == |xs| then Invalid else ValidateResume(xs[i], ordinal, binding)
    case ExecutionEnd(end) =>
      if i == |xs| then Invalid else ValidateEnd(xs[i], end)
  }

  function ValidateRestart(x: Execution, start: Start): Validation {
    if x.runs != []
       && x.origin == start.origin
       && x.maxSteps == start.maxSteps
       && x.activeTimeoutMs == start.activeTimeoutMs
       && x.executionSkills == start.executionSkills
       && x.toolAuthorization == start.toolAuthorization
       && x.loadedToolRefs == start.loadedToolRefs
       && x.runs[0].binding == start.binding
    then Duplicate
    else Invalid
  }

  function ValidateSuspend(
    x: Execution, suspension: Suspension, runEndedAt: int, usage: Usage, settlement: SettlementInput): Validation
  {
    match x.status
    case Suspended(current) =>
      if x.runs != []
         && LastRun(x).close.Some?
         && LastRun(x).close.value.endedAt == runEndedAt
         && LastRun(x).close.value.usageDelta == usage
         && SettlementMatches(LastRun(x).close.value.settlement, settlement)
         && current == suspension
      then Duplicate
      else Invalid
    case Terminal(_, _, _, _, _) => Invalid
    case Running =>
      if suspension.ResumePending? then Invalid
      else if !HasOpenRun(x) then Invalid
      else if runEndedAt < LastRun(x).startedAt then Invalid
      else Valid
  }

  function ValidateSuspensionUpdate(x: Execution, suspension: Suspension): Validation {
    if !x.status.Suspended? then Invalid
    else if x.status.suspension == suspension then Duplicate
    else if x.status.suspension.ResumePending? then Invalid
    else if x.status.suspension.toolBatchId != suspension.toolBatchId then Invalid
    else if suspension.ResumePending? then Valid
    else if x.status.suspension.Hitl? && suspension.Hitl? then Valid
    else Invalid
  }

  function ValidateResume(x: Execution, ordinal: nat, binding: Snapshot): Validation {
    match x.status
    case Running =>
      if |x.runs| > 1 && HasOpenRun(x) && LastRun(x).ordinal == ordinal && LastRun(x).binding == binding
      then Duplicate
      else Invalid
    case Terminal(_, _, _, _, _) => Invalid
    case Suspended(suspension) =>
      if !suspension.ResumePending? then Invalid
      else if ordinal != |x.runs| then Invalid
      else Valid
  }

  predicate SameRunClose(x: Execution, end: End) {
    if end.runEndedAt.None? then end.runUsageDelta.None? && end.runSettlement.None?
    else
      && end.runSettlement.Some?
      && x.runs != []
      && LastRun(x).close.Some?
      && LastRun(x).close.value.endedAt == end.runEndedAt.value
      && Some(LastRun(x).close.value.usageDelta) == end.runUsageDelta
      && SettlementMatches(LastRun(x).close.value.settlement, end.runSettlement.value)
  }

  function ValidateEnd(x: Execution, end: End): Validation {
    match x.status
    case Terminal(outcome, endedAt, finalOutput, error, settlement) =>
      if outcome == end.outcome
         && endedAt == end.endedAt
         && finalOutput == end.finalOutputStepId
         && error == end.error
         && SettlementMatches(settlement, end.terminalSettlement)
         && SameRunClose(x, end)
      then Duplicate
      else Invalid
    case Running =>
      if end.finalOutputStepId.Some? && !end.outcome.Completed? then Invalid
      else if end.runEndedAt.None? || end.runUsageDelta.None? || end.runSettlement.None? then Invalid
      else if !HasOpenRun(x) then Invalid
      else if end.runEndedAt.value < LastRun(x).startedAt || end.endedAt < end.runEndedAt.value then Invalid
      else Valid
    case Suspended(_) =>
      if end.finalOutputStepId.Some? && !end.outcome.Completed? then Invalid
      else if end.runEndedAt.Some? || end.runUsageDelta.Some? || end.runSettlement.Some? then Invalid
      else if x.runs != [] && LastRun(x).close.Some? && end.endedAt < LastRun(x).close.value.endedAt then Invalid
      else Valid
  }

  /* ---------- effect ---------- */

  function NewExecution(start: Start, now: int): Execution {
    Execution(
      start.executionId, now, start.origin, start.maxSteps, start.activeTimeoutMs,
      start.executionSkills, start.memoryPolicy, start.toolAuthorization, start.loadedToolRefs,
      0, None, [ExecutionRun(0, now, start.binding, None)], Running)
  }

  /** Close the last run of `x`, adding its length to the accumulated duration. */
  function CloseLastRun(x: Execution, endedAt: int, usage: Usage, settlement: SettlementInput): Execution
    requires x.runs != []
  {
    var run := LastRun(x);
    var durationMs := Max(0, endedAt - run.startedAt);
    x.(durationMs := x.durationMs + durationMs,
       runs := x.runs[..|x.runs| - 1]
               + [run.(close := Some(RunClose(endedAt, durationMs, usage, Settlement(settlement, None))))])
  }

  function SuspendOne(
    x: Execution, id: string, suspension: Suspension, runEndedAt: int, usage: Usage,
    settlement: SettlementInput): Execution
  {
    if x.id != id || !x.status.Running? || x.runs == [] then x
    else CloseLastRun(x, runEndedAt, usage, settlement).(status := Suspended(suspension))
  }

  function UpdateSuspensionOne(x: Execution, id: string, suspension: Suspension): Execution {
    if x.id == id && x.status.Suspended? then x.(status := Suspended(suspension)) else x
  }

  function ResumeOne(x: Execution, id: string, ordinal: nat, binding: Snapshot, now: int): Execution {
    if x.id == id && x.status.Suspended?
    then x.(status := Running, runs := x.runs + [ExecutionRun(ordinal, now, binding, None)])
    else x
  }

  function EndOne(x: Execution, end: End): Execution {
    if x.id != end.executionId || x.status.Terminal? then x
    else
      var closed :=
        if x.status.Running? && x.runs != []
           && end.runEndedAt.Some? && end.runUsageDelta.Some? && end.runSettlement.Some?
        then CloseLastRun(x, end.runEndedAt.value, end.runUsageDelta.value, end.runSettlement.value)
        else x;
      closed.(status := Terminal(
                end.outcome, end.endedAt, end.finalOutputStepId, end.error,
                Settlement(end.terminalSettlement, None)))
  }

  function Apply(xs: seq<Execution>, e: LifecycleEvent, now: int): (ys: seq<Execution>)
    ensures |ys| == if e.ExecutionStart? then |xs| + 1 else |xs|
  {
    match e
    case ExecutionStart(start) => xs + [NewExecution(start, now)]
    case ExecutionSuspended(id, suspension, runEndedAt, usage, settlement) =>
      seq(|xs|, i requires 0 <= i < |xs| => SuspendOne(xs[i], id, suspension, runEndedAt, usage, settlement))
    case SuspensionUpdated(id, suspension) =>
      seq(|xs|, i requires 0 <= i < |xs| => UpdateSuspensionOne(xs[i], id, suspension))
    case ExecutionResumed(id, ordinal, binding) =>
      seq(|xs|, i requires 0 <= i < |xs| => ResumeOne(xs[i], id, ordinal, binding, now))
    case ExecutionEnd(end) =>
      seq(|xs|, i requires 0 <= i < |xs| => EndOne(xs[i], end))
  }

  /** `execution-stop-requested`: not a lifecycle transition, it only moves the request time forward. */
  function StopOne(x: Execution, id: string, timestamp: int): Execution {
    if x.id != id then x
    else
      var before := if x.stopRequestedAt.Some? then x.stopRequestedAt.value else 0;
      x.(stopRequestedAt := Some(Max(before, timestamp)))
  }

  function RequestStop(xs: seq<Execution>, id: string, timestamp: int): (ys: seq<Execution>)
    ensures |ys| == |xs|
  {
    seq(|xs|, i requires 0 <= i < |xs| => StopOne(xs[i], id, timestamp))
  }

  /* ---------- shape ---------- */

  function ClosedTime(runs: seq<ExecutionRun>): int {
    if runs == [] then 0
    else
      var run := runs[|runs| - 1];
      ClosedTime(runs[..|runs| - 1])
      + if run.close.Some? then run.close.value.endedAt - run.startedAt else 0
  }

  predicate RunShape(x: Execution, i: nat)
    requires i < |x.runs|
  {
    var run := x.runs[i];
    && run.ordinal == i
    && (run.close.None? <==> i == |x.runs| - 1 && x.status.Running?)
    && (run.close.Some? ==>
          && run.close.value.endedAt >= run.startedAt
          && run.close.value.durationMs == run.close.value.endedAt - run.startedAt)
  }

  /**
   Runs are nonempty with ordinals 0..n-1; only the last may be open, exactly when
   the record is running; the duration is the time spent in closed runs.
   */
  predicate WellFormed(x: Execution) {
    && x.runs != []
    && x.runs[0].startedAt == x.startedAt
    && (forall i :: 0 <= i < |x.runs| ==> RunShape(x, i))
    && x.durationMs == ClosedTime(x.runs)
    && (x.status.Terminal? ==>
          && (x.status.finalOutputStepId.Some? ==> x.status.outcome.Completed?)
          && LastRun(x).close.Some?
          && x.status.endedAt >= LastRun(x).close.value.endedAt)
  }

  /** Ids are unique, and every record but the last is terminal. */
  ghost predicate ExecutionsOk(xs: seq<Execution>) {
    && (forall i :: 0 <= i < |xs| ==> WellFormed(xs[i]))
    && (forall i, j :: 0 <= i < j < |xs| ==> xs[i].id != xs[j].id)
    && (forall i :: 0 <= i < |xs| - 1 ==> xs[i].status.Terminal?)
  }

  lemma CloseLastRunShape(x: Execution, endedAt: int, usage: Usage, settlement: SettlementInput)
    requires WellFormed(x) && x.status.Running? && endedAt >= LastRun(x).startedAt
    ensures var y := CloseLastRun(x, endedAt, usage, settlement);
      && y.durationMs == ClosedTime(y.runs)
      && |y.runs| == |x.runs|
      && y.runs[0].startedAt == y.startedAt
      && LastRun(y).close
           == Some(RunClose(endedAt, endedAt - LastRun(x).startedAt, usage, Settlement(settlement, None)))
      && (forall i :: 0 <= i < |y.runs| ==>
            && y.runs[i].ordinal == i
            && y.runs[i].close.Some?
            && y.runs[i].close.value.endedAt >= y.runs[i].startedAt
            && y.runs[i].close.value.durationMs == y.runs[i].close.value.endedAt - y.runs[i].startedAt)
  {
    var y := CloseLastRun(x, endedAt, usage, settlement);
    assert RunShape(x, |x.runs| - 1);
    assert y.runs[..|y.runs| - 1] == x.runs[..|x.runs| - 1];
    forall i | 0 <= i < |y.runs| - 1
      ensures y.runs[i] == x.runs[i] && RunShape(x, i)
    {
    }
  }

  /** The record an accepted non-start event produces from the record it names. */
  function ApplyOne(x: Execution, e: LifecycleEvent, now: int): Execution {
    match e
    case ExecutionStart(_) => x
    case ExecutionSuspended(id, suspension, runEndedAt, usage, settlement) =>
      SuspendOne(x, id, suspension, runEndedAt, usage, settlement)
    case SuspensionUpdated(id, suspension) => UpdateSuspensionOne(x, id, suspension)
    case ExecutionResumed(id, ordinal, binding) => ResumeOne(x, id, ordinal, binding, now)
    case ExecutionEnd(end) => EndOne(x, end)
  }

  function ValidateOne(x: Execution, e: LifecycleEvent): Validation {
    match e
    case ExecutionStart(start) => ValidateRestart(x, start)
    case ExecutionSuspended(_, suspension, runEndedAt, usage, settlement) =>
      ValidateSuspend(x, suspension, runEndedAt, usage, settlement)
    case SuspensionUpdated(_, suspension) => ValidateSuspensionUpdate(x, suspension)
    case ExecutionResumed(_, ordinal, binding) => ValidateResume(x, ordinal, binding)
    case ExecutionEnd(end) => ValidateEnd(x, end)
  }

  lemma SuspendShape(x: Execution, e: LifecycleEvent, now: int)
    requires WellFormed(x) && e.ExecutionSuspended? && x.id == LifecycleId(e) && ValidateOne(x, e).Valid?
    ensures WellFormed(ApplyOne(x, e, now))
  {
    var y := ApplyOne(x, e, now);
    CloseLastRunShape(x, e.runEndedAt, e.runUsageDelta, e.runSettlement);
    forall i | 0 <= i < |y.runs| ensures RunShape(y, i) {}
  }

  lemma UpdateShape(x: Execution, e: LifecycleEvent, now: int)
    requires WellFormed(x) && e.SuspensionUpdated? && x.id == LifecycleId(e) && ValidateOne(x, e).Valid?
    ensures WellFormed(ApplyOne(x, e, now))
  {
    var y := ApplyOne(x, e, now);
    forall i | 0 <= i < |y.runs| ensures RunShape(y, i) { assert RunShape(x, i); }
  }

  lemma ResumeShape(x: Execution, e: LifecycleEvent, now: int)
    requires WellFormed(x) && e.ExecutionResumed? && x.id == LifecycleId(e) && ValidateOne(x, e).Valid?
    ensures WellFormed(ApplyOne(x, e, now))
  {
    var y := ApplyOne(x, e, now);
    forall i | 0 <= i < |y.runs| ensures RunShape(y, i) {
      if i < |x.runs| { assert RunShape(x, i); }
    }
    assert y.runs[..|y.runs| - 1] == x.runs;
  }

  lemma EndShape(x: Execution, end: End)
    requires WellFormed(x) && x.id == end.executionId && ValidateEnd(x, end).Valid?
    ensures WellFormed(EndOne(x, end))
  {
    var y := EndOne(x, end);
    assert RunShape(x, |x.runs| - 1);
    if x.status.Running? {
      CloseLastRunShape(x, end.runEndedAt.value, end.runUsageDelta.value, end.runSettlement.value);
      forall i | 0 <= i < |y.runs| ensures RunShape(y, i) {}
    } else {
      forall i | 0 <= i < |y.runs| ensures RunShape(y, i) { assert RunShape(x, i); }
    }
  }

  lemma OneShape(x: Execution, e: LifecycleEvent, now: int)
    requires WellFormed(x) && x.id == LifecycleId(e) && ValidateOne(x, e).Valid? && !e.ExecutionStart?
    ensures WellFormed(ApplyOne(x, e, now))
  {
    match e {
      case SuspensionUpdated(_, _) => UpdateShape(x, e, now);
      case ExecutionSuspended(_, _, _, _, _) => SuspendShape(x, e, now);
      case ExecutionResumed(_, _, _) => ResumeShape(x, e, now);
      case ExecutionEnd(end) => EndShape(x, end);
    }
  }

  lemma OneElsewhere(x: Execution, e: LifecycleEvent, now: int)
    requires x.id != LifecycleId(e)
    ensures ApplyOne(x, e, now) == x
  {
  }

  lemma OneKeepsId(x: Execution, e: LifecycleEvent, now: int)
    ensures ApplyOne(x, e, now).id == x.id
  {
  }

  lemma ApplyIsOne(xs: seq<Execution>, e: LifecycleEvent, now: int, i: nat)
    requires !e.ExecutionStart? && i < |xs|
    ensures Apply(xs, e, now)[i] == ApplyOne(xs[i], e, now)
  {
  }

  /** Validation looks only at the record the event names, once there is one. */
  lemma ValidateIsOne(xs: seq<Execution>, e: LifecycleEvent)
    requires Find(xs, LifecycleId(e)) < |xs|
    ensures Validate(xs, e) == ValidateOne(xs[Find(xs, LifecycleId(e))], e)
  {
  }

  /** An accepted event other than a start replaces the one record it names. */
  lemma AcceptedAt(xs: seq<Execution>, e: LifecycleEvent, now: int) returns (k: nat)
    requires ExecutionsOk(xs) && Validate(xs, e).Valid? && !e.ExecutionStart?
    ensures k == Find(xs, LifecycleId(e)) < |xs|
    ensures ValidateOne(xs[k], e).Valid?
    ensures Apply(xs, e, now) == xs[k := ApplyOne(xs[k], e, now)]
  {
    k := Find(xs, LifecycleId(e));
    ValidateIsOne(xs, e);
    var ys := xs[k := ApplyOne(xs[k], e, now)];
    forall i | 0 <= i < |xs| ensures Apply(xs, e, now)[i] == ys[i] {
      ApplyIsOne(xs, e, now, i);
      if i != k {
        OneElsewhere(xs[i], e, now);
      }
    }
  }

  lemma StartAccepted(xs: seq<Execution>, e: LifecycleEvent, now: int)
    requires Validate(xs, e).Valid? && e.ExecutionStart?
    ensures Find(xs, LifecycleId(e)) == |xs|
    ensures forall i :: 0 <= i < |xs| ==> xs[i].status.Terminal?
    ensures Apply(xs, e, now) == xs + [NewExecution(e.start, now)]
  {
  }

  lemma NewIsWellFormed(start: Start, now: int)
    ensures WellFormed(NewExecution(start, now))
  {
    var x := NewExecution(start, now);
    assert RunShape(x, 0);
  }

  lemma ReplacedOk(xs: seq<Execution>, k: nat, y: Execution)
    requires ExecutionsOk(xs) && k < |xs| && WellFormed(y) && y.id == xs[k].id
    requires k < |xs| - 1 ==> y.status.Terminal?
    ensures ExecutionsOk(xs[k := y])
  {
  }

  /** Every accepted lifecycle event keeps the shape of the whole list. */
  lemma ApplyKeepsLifecycle(xs: seq<Execution>, e: LifecycleEvent, now: int)
    requires ExecutionsOk(xs) && Validate(xs, e).Valid?
    ensures ExecutionsOk(Apply(xs, e, now))
  {
    if e.ExecutionStart? {
      StartAccepted(xs, e, now);
      NewIsWellFormed(e.start, now);
    } else {
      var k := AcceptedAt(xs, e, now);
      OneShape(xs[k], e, now);
      OneKeepsId(xs[k], e, now);
      if k < |xs| - 1 {
        TerminalNotValid(xs[k], e);
      }
      ReplacedOk(xs, k, ApplyOne(xs[k], e, now));
    }
  }

  lemma TerminalNotValid(x: Execution, e: LifecycleEvent)
    requires x.status.Terminal? && !e.ExecutionStart?
    ensures !ValidateOne(x, e).Valid?
  {
  }

  lemma StopKeepsLifecycle(xs: seq<Execution>, id: string, timestamp: int)
    requires ExecutionsOk(xs)
    ensures ExecutionsOk(RequestStop(xs, id, timestamp))
  {
    var ys := RequestStop(xs, id, timestamp);
    forall i | 0 <= i < |ys|
      ensures WellFormed(ys[i])
    {
      forall k | 0 <= k < |ys[i].runs|
        ensures RunShape(ys[i], k)
      {
        assert RunShape(xs[i], k);
      }
    }
  }

  /* ---------- durations ---------- */

  /** Time between runs; negative where a run starts before the previous one ended. */
  function Idle(runs: seq<ExecutionRun>): int {
    if |runs| <= 1 then 0
    else
      var front, last := runs[..|runs| - 1], runs[|runs| - 1];
      var close := front[|front| - 1].close;
      Idle(front) + if close.Some? then last.startedAt - close.value.endedAt else 0
  }

  predicate AllClosed(runs: seq<ExecutionRun>) {
    forall i :: 0 <= i < |runs| ==> runs[i].close.Some?
  }

  /** Active and idle time together make up the time from the first start to the last end. */
  lemma {:induction false} ActiveAndIdle(runs: seq<ExecutionRun>)
    requires runs != [] && AllClosed(runs)
    ensures ClosedTime(runs) + Idle(runs) == runs[|runs| - 1].close.value.endedAt - runs[0].startedAt
  {
    var front := runs[..|runs| - 1];
    if front != [] {
      ActiveAndIdle(front);
    }
  }

  predicate WithinElapsed(x: Execution) {
    x.status.Terminal? && x.durationMs <= x.status.endedAt - x.startedAt
  }

  lemma ClosedRuns(x: Execution)
    requires WellFormed(x)
    ensures AllClosed(x.runs[..|x.runs| - 1])
    ensures !x.status.Running? ==> AllClosed(x.runs)
    ensures x.status.Running? ==> LastRun(x).close.None?
  {
    forall i | 0 <= i < |x.runs| ensures (i < |x.runs| - 1 || !x.status.Running? ==> x.runs[i].close.Some?) {
      assert RunShape(x, i);
    }
    assert RunShape(x, |x.runs| - 1);
  }

  /**
   Active time is within elapsed time exactly when the time between runs, together with
   the time from the last run's end to the execution's end, is not negative.
   */
  lemma WithinElapsedIff(x: Execution)
    requires WellFormed(x) && x.status.Terminal?
    ensures LastRun(x).close.Some?
    ensures WithinElapsed(x) <==> Idle(x.runs) + (x.status.endedAt - LastRun(x).close.value.endedAt) >= 0
  {
    ClosedRuns(x);
    ActiveAndIdle(x.runs);
  }

  /** The end that leaves no time after the last run. */
  function TightEnd(x: Execution): End
    requires x.runs != []
  {
    var settlement := SettlementInput("", None);
    var open := LastRun(x).close.None?;
    var at := if open then LastRun(x).startedAt else LastRun(x).close.value.endedAt;
    End(x.id, Failed, None, at, if open then Some(at) else None, if open then Some(NO_USAGE) else None,
        if open then Some(settlement) else None, settlement, None)
  }

  lemma TightEndValid(x: Execution)
    requires WellFormed(x) && !x.status.Terminal?
    ensures ValidateEnd(x, TightEnd(x)).Valid?
  {
    ClosedRuns(x);
  }

  /** What a valid end makes of the duration and of the time between runs. */
  lemma EndTimes(x: Execution, end: End)
    requires WellFormed(x) && !x.status.Terminal? && end.executionId == x.id && ValidateEnd(x, end).Valid?
    ensures var y := EndOne(x, end);
      && WellFormed(y) && y.status.Terminal? && y.status.endedAt == end.endedAt
      && Idle(y.runs) == Idle(x.runs)
      && LastRun(y).close.Some?
      && end.endedAt >= LastRun(y).close.value.endedAt
      && (end == TightEnd(x) ==> end.endedAt == LastRun(y).close.value.endedAt)
  {
    EndShape(x, end);
    var y := EndOne(x, end);
    ClosedRuns(x);
    if x.status.Running? {
      assert y.runs[..|y.runs| - 1] == x.runs[..|x.runs| - 1];
      SameIdle(x.runs, y.runs);
    }
  }

  lemma SameIdle(a: seq<ExecutionRun>, b: seq<ExecutionRun>)
    requires a != [] && |a| == |b| && a[..|a| - 1] == b[..|b| - 1]
    requires a[|a| - 1].startedAt == b[|b| - 1].startedAt
    ensures Idle(a) == Idle(b)
  {
  }

  /** Every valid end of a record stays within the elapsed time exactly when its runs do not overlap on balance. */
  lemma EveryEndWithinIff(x: Execution)
    requires WellFormed(x) && !x.status.Terminal?
    ensures (forall end: End :: end.executionId == x.id && ValidateEnd(x, end).Valid? ==> WithinElapsed(EndOne(x, end)))
       <==> Idle(x.runs) >= 0
  {
    TightEndValid(x);
    EndTimes(x, TightEnd(x));
    WithinElapsedIff(EndOne(x, TightEnd(x)));
    if Idle(x.runs) >= 0 {
      forall end: End | end.executionId == x.id && ValidateEnd(x, end).Valid? ensures WithinElapsed(EndOne(x, end)) {
        EndTimes(x, end);
        WithinElapsedIff(EndOne(x, end));
      }
    } else {
      assert !WithinElapsed(EndOne(x, TightEnd(x)));
    }
  }

  /** Only a resume changes the time between runs: by its distance from the previous run's end. */
  lemma IdleAfter(x: Execution, e: LifecycleEvent, now: int)
    requires WellFormed(x) && !x.status.Terminal? && x.id == LifecycleId(e)
    requires !e.ExecutionStart? && ValidateOne(x, e).Valid?
    ensures LastRun(x).close.Some? || !e.ExecutionResumed?
    ensures Idle(ApplyOne(x, e, now).runs)
         == Idle(x.runs) + if e.ExecutionResumed? then now - LastRun(x).close.value.endedAt else 0
  {
    var y := ApplyOne(x, e, now);
    ClosedRuns(x);
    if e.ExecutionResumed? {
      assert y.runs[..|y.runs| - 1] == x.runs;
    } else if e.ExecutionEnd? {
      EndTimes(x, e.end);
    } else if e.ExecutionSuspended? {
      assert y.runs[..|y.runs| - 1] == x.runs[..|x.runs| - 1];
      SameIdle(x.runs, y.runs);
    }
  }

  /** Each run starts no earlier than the one before it ended. */
  predicate OrderedRuns(runs: seq<ExecutionRun>) {
    forall i :: 0 < i < |runs| && runs[i - 1].close.Some? ==> runs[i].startedAt >= runs[i - 1].close.value.endedAt
  }

  lemma {:induction false} OrderedIdle(runs: seq<ExecutionRun>)
    requires OrderedRuns(runs)
    ensures Idle(runs) >= 0
  {
    if |runs| > 1 {
      var front := runs[..|runs| - 1];
      assert forall i :: 0 <= i < |front| ==> front[i] == runs[i];
      OrderedIdle(front);
    }
  }

  /** In particular, active time never exceeds elapsed time when no resume is dated before the previous run ended. */
  lemma DurationWithinElapsed(x: Execution)
    requires WellFormed(x) && x.status.Terminal? && OrderedRuns(x.runs)
    ensures x.durationMs <= x.status.endedAt - x.startedAt
  {
    OrderedIdle(x.runs);
    WithinElapsedIff(x);
  }

  /* ---------- history ---------- */

  predicate StopTimeGrows(before: Option<int>, after: Option<int>) {
    before.Some? ==> after.Some? && after.value >= before.value
  }

  predicate RunContinues(before: ExecutionRun, after: ExecutionRun) {
    && after.ordinal == before.ordinal
    && after.startedAt == before.startedAt
    && after.binding == before.binding
    && (before.close.Some? ==> after.close == before.close)
  }

  /** The record's start is never rewritten. */
  predicate SameStart(before: Execution, after: Execution) {
    && after.id == before.id
    && after.startedAt == before.startedAt
    && after.origin == before.origin
    && after.maxSteps == before.maxSteps
    && after.activeTimeoutMs == before.activeTimeoutMs
    && after.executionSkills == before.executionSkills
    && after.memoryPolicy == before.memoryPolicy
    && after.toolAuthorization == before.toolAuthorization
    && after.loadedToolRefs == before.loadedToolRefs
  }

  predicate IsReady(x: Execution) {
    x.status.Suspended? && x.status.suspension.ResumePending?
  }

  /** Without another run, a suspension that is ready to resume stays as it is or ends the execution. */
  predicate ReadyStays(before: Execution, after: Execution) {
    IsReady(before) && |after.runs| == |before.runs| ==> after.status == before.status || after.status.Terminal?
  }

  /** What every later version of a record has in common with an earlier one. */
  predicate Continues(before: Execution, after: Execution) {
    && SameStart(before, after)
    && ReadyStays(before, after)
    && |after.runs| >= |before.runs|
    && (forall i :: 0 <= i < |before.runs| ==> RunContinues(before.runs[i], after.runs[i]))
    && after.durationMs >= before.durationMs
    && StopTimeGrows(before.stopRequestedAt, after.stopRequestedAt)
    && (before.status.Terminal? ==> after == before.(stopRequestedAt := after.stopRequestedAt))
  }

  /** Records are only appended, and each continues its earlier self. */
  predicate Extends(before: seq<Execution>, after: seq<Execution>) {
    && |after| >= |before|
    && forall i :: 0 <= i < |before| ==> Continues(before[i], after[i])
  }

  lemma ExtendsTransitive(a: seq<Execution>, b: seq<Execution>, c: seq<Execution>)
    requires Extends(a, b) && Extends(b, c)
    ensures Extends(a, c)
  {
    forall i | 0 <= i < |a|
      ensures Continues(a[i], c[i])
    {
      assert Continues(a[i], b[i]) && Continues(b[i], c[i]);
    }
  }

  lemma OneContinues(x: Execution, e: LifecycleEvent, now: int)
    requires WellFormed(x) && !x.status.Terminal? && ValidateOne(x, e).Valid?
    ensures Continues(x, ApplyOne(x, e, now))
  {
    assert RunShape(x, |x.runs| - 1);
  }

  lemma ContinuesItself(x: Execution)
    ensures Continues(x, x)
  {
  }

  /** Accepted events append records or continue them; closed runs and terminal records are final. */
  lemma ApplyExtends(xs: seq<Execution>, e: LifecycleEvent, now: int)
    requires ExecutionsOk(xs) && Validate(xs, e).Valid?
    ensures Extends(xs, Apply(xs, e, now))
  {
    forall i | 0 <= i < |xs| ensures Continues(xs[i], xs[i]) { ContinuesItself(xs[i]); }
    if e.ExecutionStart? {
      StartAccepted(xs, e, now);
    } else {
      var k := AcceptedAt(xs, e, now);
      if xs[k].status.Terminal? {
        TerminalNotValid(xs[k], e);
        assert false;
      }
      OneContinues(xs[k], e, now);
    }
  }

  lemma StopExtends(xs: seq<Execution>, id: string, timestamp: int)
    ensures Extends(xs, RequestStop(xs, id, timestamp))
  {
  }

  /* ---------- redelivery ---------- */

  lemma OneAcceptedThenDuplicate(x: Execution, e: LifecycleEvent, now: int)
    requires WellFormed(x) && x.id == LifecycleId(e) && ValidateOne(x, e).Valid?
    ensures ValidateOne(ApplyOne(x, e, now), e).Duplicate?
  {
    assert RunShape(x, |x.runs| - 1);
  }

  /** An accepted event delivered again at once is recognised as a duplicate. */
  lemma AcceptedThenDuplicate(xs: seq<Execution>, e: LifecycleEvent, now: int)
    requires ExecutionsOk(xs) && Validate(xs, e).Valid?
    ensures Validate(Apply(xs, e, now), e).Duplicate?
  {
    var ys := Apply(xs, e, now);
    if e.ExecutionStart? {
      StartAccepted(xs, e, now);
      assert ys[|xs|].id == LifecycleId(e);
      FindAt(ys, LifecycleId(e), |xs|);
    } else {
      var k := AcceptedAt(xs, e, now);
      OneKeepsId(xs[k], e, now);
      OneAcceptedThenDuplicate(xs[k], e, now);
      FindAt(ys, LifecycleId(e), k);
    }
    ValidateIsOne(ys, e);
  }

  lemma FindAt(xs: seq<Execution>, id: string, i: nat)
    requires i < |xs| && xs[i].id == id && forall k :: 0 <= k < i ==> xs[k].id != id
    ensures Find(xs, id) == i
  {
  }

  /** The record with a given id keeps its position for ever. */
  lemma FindStable(before: seq<Execution>, after: seq<Execution>, id: string)
    requires ExecutionsOk(after) && Extends(before, after) && Find(before, id) < |before|
    ensures Find(after, id) == Find(before, id)
    ensures Continues(before[Find(before, id)], after[Find(before, id)])
  {
    var k := Find(before, id);
    assert Continues(before[k], after[k]);
  }

  /** A start, resume or end that was accepted once is never accepted again. */
  lemma OnceAcceptedNeverAgain(before: seq<Execution>, e: LifecycleEvent, now: int, after: seq<Execution>)
    requires ExecutionsOk(before) && Validate(before, e).Valid?
    requires e.ExecutionStart? || e.ExecutionResumed? || e.ExecutionEnd?
    requires ExecutionsOk(after) && Extends(Apply(before, e, now), after)
    ensures !Validate(after, e).Valid?
  {
    var mid := Apply(before, e, now);
    var k := Find(mid, LifecycleId(e));
    AcceptedThenDuplicate(before, e, now);
    FindInApplied(before, e, now);
    ApplyKeepsLifecycle(before, e, now);
    FindStable(mid, after, LifecycleId(e));
    ValidateIsOne(mid, e);
    ValidateIsOne(after, e);
    DuplicateStays(mid[k], after[k], e);
  }

  lemma FindInApplied(xs: seq<Execution>, e: LifecycleEvent, now: int)
    requires ExecutionsOk(xs) && Validate(xs, e).Valid?
    ensures Find(Apply(xs, e, now), LifecycleId(e)) < |Apply(xs, e, now)|
  {
    if e.ExecutionStart? {
      StartAccepted(xs, e, now);
      assert Apply(xs, e, now)[|xs|].id == LifecycleId(e);
    } else {
      var k := AcceptedAt(xs, e, now);
      OneKeepsId(xs[k], e, now);
      FindAt(Apply(xs, e, now), LifecycleId(e), k);
    }
  }

  /** A record that has taken in a start, resume or end never accepts it again. */
  lemma DuplicateStays(x: Execution, later: Execution, e: LifecycleEvent)
    requires WellFormed(x) && WellFormed(later) && Continues(x, later) && ValidateOne(x, e).Duplicate?
    requires e.ExecutionStart? || e.ExecutionResumed? || e.ExecutionEnd?
    ensures !ValidateOne(later, e).Valid?
  {
    assert RunShape(x, |x.runs| - 1);
  }

  /** A suspend that does not carry a resume is valid exactly for a run that is open and began by its end time. */
  lemma SuspendValidIff(x: Execution, e: LifecycleEvent)
    requires WellFormed(x) && e.ExecutionSuspended? && !e.suspension.ResumePending?
    ensures ValidateOne(x, e).Valid? <==> x.status.Running? && LastRun(x).startedAt <= e.runEndedAt
  {
    assert RunShape(x, |x.runs| - 1);
  }

  /** An already accepted suspend is accepted again exactly when a run that began by its end time is open. */
  lemma OldSuspendAcceptedIff(before: seq<Execution>, e: LifecycleEvent, now: int, after: seq<Execution>)
    requires ExecutionsOk(before) && e.ExecutionSuspended? && Validate(before, e).Valid?
    requires ExecutionsOk(after) && Extends(Apply(before, e, now), after)
    ensures Find(after, e.executionId) < |after|
    ensures var x := after[Find(after, e.executionId)];
      x.runs != [] && (Validate(after, e).Valid? <==> x.status.Running? && LastRun(x).startedAt <= e.runEndedAt)
  {
    var k := AcceptedAt(before, e, now);
    OneKeepsId(before[k], e, now);
    FindAt(Apply(before, e, now), e.executionId, k);
    FindStable(Apply(before, e, now), after, e.executionId);
    ValidateIsOne(after, e);
    SuspendValidIff(after[k], e);
  }

  /** The record waits for the same tool batch, and not with this very suspension. */
  predicate WaitsFor(x: Execution, suspension: Suspension) {
    && x.status.Suspended? && !x.status.suspension.ResumePending?
    && x.status.suspension != suspension && x.status.suspension.toolBatchId == suspension.toolBatchId
  }

  /** The one that a given event names, once there is one. */
  function Named(xs: seq<Execution>, e: LifecycleEvent): Execution
    requires Find(xs, LifecycleId(e)) < |xs|
  {
    xs[Find(xs, LifecycleId(e))]
  }

  /** When a suspension update that was accepted is accepted again on a later version of its record. */
  predicate UpdateAppliesAgain(was: Execution, x: Execution, suspension: Suspension) {
    && WaitsFor(x, suspension)
    && if suspension.ResumePending? then |x.runs| > |was.runs| else x.status.suspension.Hitl?
  }

  lemma UpdateValidIff(x: Execution, e: LifecycleEvent, now: int, later: Execution)
    requires x.id == LifecycleId(e) && e.SuspensionUpdated? && ValidateOne(x, e).Valid?
    requires Continues(ApplyOne(x, e, now), later)
    ensures ValidateOne(later, e).Valid? <==> UpdateAppliesAgain(ApplyOne(x, e, now), later, e.suspension)
  {
  }

  /**
   An already accepted suspension update is accepted again exactly when the execution waits
   for the same tool batch: for a readiness, after another run; for other updates, with
   other HITL blockers.
   */
  lemma OldUpdateAcceptedIff(before: seq<Execution>, e: LifecycleEvent, now: int, after: seq<Execution>)
    requires ExecutionsOk(before) && e.SuspensionUpdated? && Validate(before, e).Valid?
    requires ExecutionsOk(after) && Extends(Apply(before, e, now), after)
    ensures Find(Apply(before, e, now), e.executionId) < |before| && Find(after, e.executionId) < |after|
    ensures Validate(after, e).Valid?
       <==> UpdateAppliesAgain(Named(Apply(before, e, now), e), Named(after, e), e.suspension)
  {
    var k := AcceptedAt(before, e, now);
    OneKeepsId(before[k], e, now);
    FindAt(Apply(before, e, now), e.executionId, k);
    FindStable(Apply(before, e, now), after, e.executionId);
    ValidateIsOne(after, e);
    UpdateValidIff(before[k], e, now, after[k]);
  }

  /** Accepted events follow one another on a single record. */
  lemma OneRecord(x: Execution, e: LifecycleEvent, now: int) returns (y: Execution)
    requires WellFormed(x) && x.id == LifecycleId(e) && ValidateOne(x, e).Valid? && !e.ExecutionStart?
    ensures y == ApplyOne(x, e, now) && WellFormed(y) && y.id == x.id
    ensures ExecutionsOk([x]) && ExecutionsOk([y])
    ensures Validate([x], e).Valid? && Apply([x], e, now) == [y] && Extends([x], [y])
  {
    y := ApplyOne(x, e, now);
    OneShape(x, e, now);
    OneKeepsId(x, e, now);
    FindAt([x], x.id, 0);
    ValidateIsOne([x], e);
    var k := AcceptedAt([x], e, now);
    ApplyExtends([x], e, now);
  }

  /**
   At any later point, a start delivered again is a duplicate exactly when it agrees with the
   accepted one in everything but the memory policy, which is not compared; the record keeps
   its first policy.
   */
  lemma RestartDuplicateIff(
    xs: seq<Execution>, start: Start, now: int, later: seq<Execution>, again: Start)
    requires ExecutionsOk(xs) && Validate(xs, ExecutionStart(start)).Valid? && again.executionId == start.executionId
    requires ExecutionsOk(later) && Extends(Apply(xs, ExecutionStart(start), now), later)
    ensures |later| > |xs| && later[|xs|].id == start.executionId && later[|xs|].memoryPolicy == start.memoryPolicy
    ensures !Validate(later, ExecutionStart(again)).Valid?
    ensures Validate(later, ExecutionStart(again)).Duplicate? <==> again == start.(memoryPolicy := again.memoryPolicy)
  {
    var ys := Apply(xs, ExecutionStart(start), now);
    StartAccepted(xs, ExecutionStart(start), now);
    assert ys[|xs|].id == start.executionId;
    FindAt(ys, start.executionId, |xs|);
    FindStable(ys, later, start.executionId);
    ValidateIsOne(later, ExecutionStart(again));
  }
}
