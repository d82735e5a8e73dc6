/** Which lifecycle events are valid, told from the records alone. */
module Acceptance {
  import opened Prelude
  import opened SessionTypes
  import opened ExecutionLifecycle

  /** The run fields of an end: none, or all of them in order with the open run. */
  predicate ClosesRun(x: Execution, end: End)
    requires x.runs != []
  {
    && end.runEndedAt.Some? && end.runUsageDelta.Some? && end.runSettlement.Some?
    && LastRun(x).startedAt <= end.runEndedAt.value <= end.endedAt
  }

  predicate NoRunFields(end: End) {
    end.runEndedAt.None? && end.runUsageDelta.None? && end.runSettlement.None?
  }

  /** Only a completed execution selects a final output. */
  predicate OutcomeFits(end: End) {
    end.finalOutputStepId.Some? ==> end.outcome.Completed?
  }

  /** What the life of one execution allows next. */
  predicate Allows(x: Execution, e: LifecycleEvent)
    requires x.runs != []
  {
    match e
    case ExecutionStart(_) => false
    case ExecutionSuspended(_, suspension, runEndedAt, _, _) =>
      x.status.Running? && !suspension.ResumePending? && LastRun(x).startedAt <= runEndedAt
    case SuspensionUpdated(_, suspension) =>
      WaitsFor(x, suspension) && (suspension.ResumePending? || (x.status.suspension.Hitl? && suspension.Hitl?))
    case ExecutionResumed(_, ordinal, _) => IsReady(x) && ordinal == |x.runs|
    case ExecutionEnd(end) =>
      && OutcomeFits(end)
      && match x.status
         case Running => ClosesRun(x, end)
         case Suspended(_) =>
           NoRunFields(end) && (LastRun(x).close.Some? ==> LastRun(x).close.value.endedAt <= end.endedAt)
         case Terminal(_, _, _, _, _) => false
  }

  lemma AllowedIff(x: Execution, e: LifecycleEvent)
    requires WellFormed(x)
    ensures ValidateOne(x, e).Valid? <==> Allows(x, e)
  {
    assert RunShape(x, |x.runs| - 1);
  }

  /** A new execution may start once all earlier ones are terminal. */
  predicate MayStart(xs: seq<Execution>, id: string) {
    forall k :: 0 <= k < |xs| ==> xs[k].id != id && xs[k].status.Terminal?
  }

  predicate AllowedAt(xs: seq<Execution>, e: LifecycleEvent, k: nat) {
    k < |xs| && xs[k].id == LifecycleId(e) && xs[k].runs != [] && Allows(xs[k], e)
  }

  /** The lifecycle as a whole: a start is valid when it may begin, any other event when its execution allows it. */
  lemma ValidIff(xs: seq<Execution>, e: LifecycleEvent)
    requires ExecutionsOk(xs)
    ensures Validate(xs, e).Valid?
       <==> if e.ExecutionStart? then MayStart(xs, LifecycleId(e)) else exists k :: AllowedAt(xs, e, k)
  {
    var i := Find(xs, LifecycleId(e));
    if i < |xs| {
      ValidateIsOne(xs, e);
      AllowedIff(xs[i], e);
      assert forall k :: AllowedAt(xs, e, k) ==> k == i;
      assert Allows(xs[i], e) <==> AllowedAt(xs, e, i);
    }
  }

  /* ---------- what is always possible ---------- */

  /** An execution that is suspended can be ended with any outcome, any time from its last run's end on. */
  lemma SuspendedCanEnd(xs: seq<Execution>, k: nat, end: End)
    requires ExecutionsOk(xs) && k < |xs| && xs[k].status.Suspended? && end.executionId == xs[k].id
    requires OutcomeFits(end) && NoRunFields(end)
    ensures LastRun(xs[k]).close.Some?
    ensures Validate(xs, ExecutionEnd(end)).Valid? <==> end.endedAt >= LastRun(xs[k]).close.value.endedAt
  {
    assert WellFormed(xs[k]) && RunShape(xs[k], |xs[k].runs| - 1);
    ValidIff(xs, ExecutionEnd(end));
    assert AllowedAt(xs, ExecutionEnd(end), k) <==> Allows(xs[k], ExecutionEnd(end));
    assert forall j :: AllowedAt(xs, ExecutionEnd(end), j) ==> j == k;
  }

  /** A running one can be ended with any outcome by an end that closes its run in order. */
  lemma RunningCanEnd(xs: seq<Execution>, k: nat, end: End)
    requires ExecutionsOk(xs) && k < |xs| && xs[k].status.Running? && end.executionId == xs[k].id && OutcomeFits(end)
    ensures xs[k].runs != []
    ensures Validate(xs, ExecutionEnd(end)).Valid? <==> ClosesRun(xs[k], end)
  {
    ValidIff(xs, ExecutionEnd(end));
    assert AllowedAt(xs, ExecutionEnd(end), k) <==> Allows(xs[k], ExecutionEnd(end));
    assert forall j :: AllowedAt(xs, ExecutionEnd(end), j) ==> j == k;
  }

  /** Once it has ended, the next execution can start. */
  lemma NextCanStart(xs: seq<Execution>, end: End, now: int, start: Start)
    requires ExecutionsOk(xs) && Validate(xs, ExecutionEnd(end)).Valid?
    requires forall k :: 0 <= k < |xs| ==> xs[k].id != start.executionId
    ensures Validate(Apply(xs, ExecutionEnd(end), now), ExecutionStart(start)).Valid?
  {
    var ys := Apply(xs, ExecutionEnd(end), now);
    var k := AcceptedAt(xs, ExecutionEnd(end), now);
    ApplyKeepsLifecycle(xs, ExecutionEnd(end), now);
    assert ys[k].status.Terminal?;
    if k < |xs| - 1 {
      TerminalNotValid(xs[k], ExecutionEnd(end));
      assert false;
    }
    ValidIff(ys, ExecutionStart(start));
  }

  /* ---------- duplicates ---------- */

  /** An end is answered as the one before it if it agrees with it, and with the last run's close if it names one. */
  predicate SameEnd(x: Execution, first: End, again: End)
    requires x.runs != []
  {
    && again == first.(runEndedAt := again.runEndedAt, runUsageDelta := again.runUsageDelta,
                       runSettlement := again.runSettlement)
    && (NoRunFields(again)
        || (LastRun(x).close.Some? && again.runEndedAt == Some(LastRun(x).close.value.endedAt)
            && again.runUsageDelta == Some(LastRun(x).close.value.usageDelta)
            && again.runSettlement == Some(LastRun(x).close.value.settlement.input)))
  }

  /** After an accepted event, which further event of its kind is a duplicate. */
  predicate Repeats(y: Execution, first: LifecycleEvent, again: LifecycleEvent) {
    match first
    case ExecutionStart(_) => false
    case ExecutionEnd(end) => again.ExecutionEnd? && y.runs != [] && SameEnd(y, end, again.end)
    case _ => again == first
  }

  predicate SameKind(a: LifecycleEvent, b: LifecycleEvent) {
    && LifecycleId(a) == LifecycleId(b)
    && a.ExecutionStart? == b.ExecutionStart?
    && a.ExecutionSuspended? == b.ExecutionSuspended?
    && a.SuspensionUpdated? == b.SuspensionUpdated?
    && a.ExecutionResumed? == b.ExecutionResumed?
  }

  /** Right after an accepted event, one of its kind is a duplicate exactly when it repeats it. */
  lemma DuplicateIff(x: Execution, first: LifecycleEvent, now: int, again: LifecycleEvent)
    requires WellFormed(x) && x.id == LifecycleId(first) && ValidateOne(x, first).Valid?
    requires SameKind(first, again) && !first.ExecutionStart?
    ensures ValidateOne(ApplyOne(x, first, now), again).Duplicate? <==> Repeats(ApplyOne(x, first, now), first, again)
  {
    assert RunShape(x, |x.runs| - 1);
  }
}
