/** The life of one tool call, as a table of states and events. */
module ToolCalls {
  import opened Prelude
  import opened Utf8
  import opened SessionTypes
  import opened Messages
  import opened Reducer
  import opened Steps
  import opened PartEvents
  import opened MessageIdentity
  import opened Correspondence

  // Which part an event finds, and what it makes of it. The table is told in terms of states
  // only; the lemmas show that the reducer follows it, and changes nothing else.

  /** Input not given is `null`. */
  function OrNull(input: Option<Snapshot>): Snapshot {
    if input.Some? then input.value else "null"
  }

  function OrElse(time: Option<int>, otherwise: int): int {
    if time.Some? then time.value else otherwise
  }

  function NextState(state: ToolState, e: Event, now: int): ToolState {
    match (state, e)
    case (ToolPending, ToolCall(_, _, input)) => ToolRunning(OrNull(input), now, None)
    case (ToolRunning(_, begun, live), ToolCall(_, _, input)) => ToolRunning(OrNull(input), begun, live)
    case (ToolRunning(_, begun, live), ToolInputResolved(_, input)) => ToolRunning(OrNull(input), begun, live)
    case (ToolSettled(_, begun, ended, result), ToolInputResolved(_, input)) =>
      ToolSettled(OrNull(input), begun, ended, result)
    case (ToolInterrupted(input, begun, _), ToolAttempt(_, attempt)) =>
      ToolRunning(OrNull(input), OrElse(begun, attempt.timestamp), None)
    case (ToolRunning(input, begun, live), ToolOutputDelta(_, _, delta)) =>
      ToolRunning(input, begun, Some(AppendDelta(live, delta)))
    case (ToolPending, ToolResultArrived(_, at, result)) => ToolSettled("null", at, at, result)
    case (ToolRunning(input, begun, _), ToolResultArrived(_, at, result)) => ToolSettled(input, begun, at, result)
    case (ToolInterrupted(input, begun, _), ToolResultArrived(_, at, result)) =>
      ToolSettled(OrNull(input), OrElse(begun, at), at, result)
    case _ => state
  }

  /** Live output is kept for Bash calls only, announced as such. */
  predicate Concerns(p: Part, e: Event)
    requires p.Tool?
  {
    e.ToolOutputDelta? ==> p.toolName == "bash" && e.toolName == "bash"
  }

  function NextCall(p: Part, e: Event, now: int): Part
    requires p.Tool?
  {
    if !Concerns(p, e) then p
    else
      p.(state := NextState(p.state, e, now),
         attempt := if e.ToolAttempt? && !p.state.ToolSettled? then Some(e.attempt) else p.attempt)
  }

  /* ---------- which part is found ---------- */

  predicate NoneUnsettled(m: Message, toolCallId: string) {
    forall j :: 0 <= j < |PartsOf(m)| ==> !IsUnsettledCall(PartsOf(m)[j], toolCallId)
  }

  /** The first unsettled part of the call in the last message that has one. */
  predicate IsLatestUnsettled(ms: seq<Message>, toolCallId: string, i: nat, j: nat) {
    && i < |ms| && j < |PartsOf(ms[i])| && IsUnsettledCall(PartsOf(ms[i])[j], toolCallId)
    && (forall l :: 0 <= l < j ==> !IsUnsettledCall(PartsOf(ms[i])[l], toolCallId))
    && (forall k :: i < k < |ms| ==> NoneUnsettled(ms[k], toolCallId))
  }

  predicate NoneAnywhere(ms: seq<Message>, toolCallId: string) {
    forall k :: 0 <= k < |ms| ==> NoneUnsettled(ms[k], toolCallId)
  }

  lemma NoneInLast(ms: seq<Message>, toolCallId: string)
    requires ms != []
    ensures NoneAnywhere(ms, toolCallId)
       <==> NoneAnywhere(ms[..|ms| - 1], toolCallId) && NoneUnsettled(ms[|ms| - 1], toolCallId)
  {
    assert forall k :: 0 <= k < |ms| - 1 ==> ms[..|ms| - 1][k] == ms[k];
  }

  lemma LatestInFront(ms: seq<Message>, toolCallId: string, i: nat, j: nat)
    requires ms != [] && NoneUnsettled(ms[|ms| - 1], toolCallId)
    requires IsLatestUnsettled(ms[..|ms| - 1], toolCallId, i, j)
    ensures IsLatestUnsettled(ms, toolCallId, i, j)
  {
    var front := ms[..|ms| - 1];
    assert front[i] == ms[i];
    forall k | i < k < |ms| ensures NoneUnsettled(ms[k], toolCallId) {
      assert k < |front| ==> NoneUnsettled(front[k], toolCallId);
    }
  }

  /** The backward search finds exactly that part, and nothing when there is none. */
  lemma {:induction false} LatestUnsettledIs(ms: seq<Message>, toolCallId: string) returns (i: nat, j: nat)
    ensures FindLatestUnsettled(ms, toolCallId).None? <==> NoneAnywhere(ms, toolCallId)
    ensures FindLatestUnsettled(ms, toolCallId).Some? ==>
      && IsLatestUnsettled(ms, toolCallId, i, j)
      && FindLatestUnsettled(ms, toolCallId) == Some(Location(ms[i].id, PartsOf(ms[i])[j].id))
  {
    i, j := 0, 0;
    if ms != [] {
      var last := |ms| - 1;
      var parts := PartsOf(ms[last]);
      NoneInLast(ms, toolCallId);
      if UnsettledAt(parts, toolCallId) < |parts| {
        i, j := last, UnsettledAt(parts, toolCallId);
        assert !NoneUnsettled(ms[last], toolCallId);
      } else {
        i, j := LatestUnsettledIs(ms[..last], toolCallId);
        if FindLatestUnsettled(ms, toolCallId).Some? {
          LatestInFront(ms, toolCallId, i, j);
        }
      }
    }
  }

  /** A tool part of the call in the current message. */
  predicate InCurrent(s: Session, toolCallId: string, i: nat, j: nat) {
    && s.currentAssistantMessageId.Some? && i < |s.messages| && s.messages[i].Assistant?
    && s.messages[i].id == s.currentAssistantMessageId.value
    && j < |s.messages[i].parts| && IsToolCall(s.messages[i].parts[j], toolCallId)
  }

  ghost predicate AnyInCurrent(s: Session, toolCallId: string) {
    exists i: nat, j: nat :: InCurrent(s, toolCallId, i, j)
  }

  /** The part a tool event is about: in the current message, or else the latest unsettled one. */
  ghost predicate IsFound(s: Session, e: Event, i: nat, j: nat)
    requires IsToolEvent(e)
  {
    if AnyInCurrent(s, e.toolCallId) then InCurrent(s, e.toolCallId, i, j)
    else !e.ToolInputStart? && !e.ToolCall? && IsLatestUnsettled(s.messages, e.toolCallId, i, j)
  }

  /** With one part per call in a message, a search of the current message finds exactly that part. */
  lemma CurrentToolIff(s: Session, toolCallId: string)
    requires Coherent(s)
    ensures FindCurrentTool(s.messages, s.currentAssistantMessageId, toolCallId).Some? <==> AnyInCurrent(s, toolCallId)
    ensures forall i: nat, j: nat :: InCurrent(s, toolCallId, i, j) ==>
      FindCurrentTool(s.messages, s.currentAssistantMessageId, toolCallId)
      == Some(Location(s.messages[i].id, s.messages[i].parts[j].id))
  {
    var at := FindCurrentTool(s.messages, s.currentAssistantMessageId, toolCallId);
    if at.Some? {
      OkIsAddressable(s.messages);
      var i, j := FindCurrentToolIs(s, toolCallId);
      assert InCurrent(s, toolCallId, i, j);
    }
    forall i: nat, j: nat | InCurrent(s, toolCallId, i, j)
      ensures at == Some(Location(s.messages[i].id, s.messages[i].parts[j].id))
    {
      MessageAtIs(s.messages, i);
      OneCall(s.messages[i].parts, j, toolCallId);
    }
  }

  lemma OneCall(parts: seq<Part>, j: nat, toolCallId: string)
    requires PartsOk(parts) && j < |parts| && IsToolCall(parts[j], toolCallId)
    ensures ToolAt(parts, toolCallId) == j
  {
  }

  /** The search of a tool event ends at this place. */
  ghost predicate Located(s: Session, toolCallId: string, i: nat, j: nat) {
    && Addressable(s.messages)
    && i < |s.messages| && s.messages[i].Assistant? && j < |s.messages[i].parts|
    && IsToolCall(s.messages[i].parts[j], toolCallId)
    && FindTool(s.messages, s.currentAssistantMessageId, toolCallId)
         == Some(Location(s.messages[i].id, s.messages[i].parts[j].id))
    && GetTool(s.messages, Location(s.messages[i].id, s.messages[i].parts[j].id)) == Some(s.messages[i].parts[j])
  }

  lemma FoundIsLocated(s: Session, e: Event, i: nat, j: nat)
    requires Coherent(s) && IsToolEvent(e) && IsFound(s, e, i, j)
    ensures Located(s, e.toolCallId, i, j)
    ensures e.ToolCall? || e.ToolInputStart? ==>
      FindCurrentTool(s.messages, s.currentAssistantMessageId, e.toolCallId).Some?
  {
    CurrentToolIff(s, e.toolCallId);
    if !AnyInCurrent(s, e.toolCallId) {
      LatestIsFound(s.messages, e.toolCallId, i, j);
    }
    OkIsAddressable(s.messages);
    GetPartIs(s.messages, i, j);
  }

  lemma LatestIsFound(ms: seq<Message>, toolCallId: string, i: nat, j: nat)
    requires IsLatestUnsettled(ms, toolCallId, i, j)
    ensures FindLatestUnsettled(ms, toolCallId) == Some(Location(ms[i].id, PartsOf(ms[i])[j].id))
  {
    var k, l := LatestUnsettledIs(ms, toolCallId);
    assert !NoneUnsettled(ms[i], toolCallId);
    LatestIsOne(ms, toolCallId, i, j, k, l);
  }

  lemma LatestIsOne(ms: seq<Message>, toolCallId: string, i: nat, j: nat, k: nat, l: nat)
    requires IsLatestUnsettled(ms, toolCallId, i, j) && IsLatestUnsettled(ms, toolCallId, k, l)
    ensures k == i && l == j
  {
    assert !NoneUnsettled(ms[i], toolCallId) && !NoneUnsettled(ms[k], toolCallId);
  }

  /** Nothing is found, and nothing is there to be found. */
  ghost predicate NothingFound(s: Session, e: Event)
    requires IsToolEvent(e)
  {
    forall i: nat, j: nat :: !IsFound(s, e, i, j)
  }

  lemma NothingInCurrent(s: Session, e: Event)
    requires IsToolEvent(e) && NothingFound(s, e)
    ensures !AnyInCurrent(s, e.toolCallId)
  {
    if AnyInCurrent(s, e.toolCallId) {
      var i, j :| InCurrent(s, e.toolCallId, i, j);
      assert IsFound(s, e, i, j);
    }
  }

  lemma NothingFoundIs(s: Session, e: Event)
    requires Coherent(s) && IsToolEvent(e) && NothingFound(s, e)
    ensures FindCurrentTool(s.messages, s.currentAssistantMessageId, e.toolCallId).None?
    ensures !e.ToolInputStart? && !e.ToolCall? ==>
      FindTool(s.messages, s.currentAssistantMessageId, e.toolCallId).None?
  {
    CurrentToolIff(s, e.toolCallId);
    NothingInCurrent(s, e);
    var k, l := LatestUnsettledIs(s.messages, e.toolCallId);
    assert !IsFound(s, e, k, l);
  }

  /* ---------- what becomes of it ---------- */

  /** The part at this place makes the move of the table; nothing else changes but statistics. */
  ghost predicate Moved(s: Session, e: Event, ctx: Context, t: Session, i: nat, j: nat) {
    && i < |s.messages| && s.messages[i].Assistant? && j < |s.messages[i].parts| && s.messages[i].parts[j].Tool?
    && t == s.(
         messages := s.messages[i := s.messages[i].(
           parts := s.messages[i].parts[j := NextCall(s.messages[i].parts[j], e, ctx.now)])],
         stats := t.stats)
  }

  /** A replacement by the part itself changes nothing. */
  lemma SameMoves(s: Session, e: Event, ctx: Context, t: Session, i: nat, j: nat)
    requires i < |s.messages| && s.messages[i].Assistant? && j < |s.messages[i].parts| && s.messages[i].parts[j].Tool?
    requires NextCall(s.messages[i].parts[j], e, ctx.now) == s.messages[i].parts[j] && t == s.(stats := t.stats)
    ensures Moved(s, e, ctx, t, i, j)
  {
    assert s.messages[i].parts[j := s.messages[i].parts[j]] == s.messages[i].parts;
    assert s.messages[i := s.messages[i]] == s.messages;
  }

  /** An update of the part by a function that makes the move. */
  lemma UpdateMoves(s: Session, e: Event, ctx: Context, t: Session, i: nat, j: nat, f: Part -> Part)
    requires IsToolEvent(e) && Located(s, e.toolCallId, i, j)
    requires f(s.messages[i].parts[j]) == NextCall(s.messages[i].parts[j], e, ctx.now)
    requires t == s.(
      messages := UpdatePart(s.messages, Location(s.messages[i].id, s.messages[i].parts[j].id), f), stats := t.stats)
    ensures Moved(s, e, ctx, t, i, j)
  {
    UpdateIsReplace(s.messages, i, j, f);
  }

  lemma PartMoves(p: Part, e: Event, now: int)
    requires p.Tool?
    ensures e.ToolCall? && IsIncomplete(p) ==> ToRunning(p, OrNull(e.input), now) == NextCall(p, e, now)
    ensures e.ToolCall? && !IsIncomplete(p) ==> NextCall(p, e, now) == p
    ensures e.ToolResultArrived? && !p.state.ToolSettled? ==> ToSettled(p, e.result, e.settledAt) == NextCall(p, e, now)
    ensures e.ToolResultArrived? && p.state.ToolSettled? ==> NextCall(p, e, now) == p
  {
  }

  lemma CallMoves(s: Session, e: Event, ctx: Context, t: Session, i: nat, j: nat)
    requires e.ToolCall? && Located(s, e.toolCallId, i, j)
    requires FindCurrentTool(s.messages, s.currentAssistantMessageId, e.toolCallId).Some?
    requires OnToolCall(s, e.toolCallId, e.toolName, e.input, ctx) == Next(t)
    ensures Moved(s, e, ctx, t, i, j)
  {
    var value, now := OrNull(e.input), ctx.now;
    PartMoves(s.messages[i].parts[j], e, now);
    if IsIncomplete(s.messages[i].parts[j]) {
      UpdateMoves(s, e, ctx, t, i, j, (p: Part) => if p.Tool? then ToRunning(p, value, now) else p);
    } else {
      SameMoves(s, e, ctx, t, i, j);
    }
  }

  lemma LaterPartMoves(p: Part, e: Event, now: int)
    requires p.Tool?
    ensures e.ToolInputResolved? && (p.state.ToolPending? || p.state.ToolInterrupted?) ==> NextCall(p, e, now) == p
    ensures e.ToolInputResolved? && !p.state.ToolPending? && !p.state.ToolInterrupted? ==>
      NextCall(p, e, now) == WithInput(p, OrNull(e.input))
    ensures e.ToolAttempt? && p.state.ToolSettled? ==> NextCall(p, e, now) == p
    ensures e.ToolAttempt? && !p.state.ToolSettled? ==> NextCall(p, e, now) == WithAttempt(p, e.attempt)
    ensures e.ToolOutputDelta? ==>
      NextCall(p, e, now) == if p.state.ToolRunning? && Concerns(p, e) then WithLiveOutput(p, e.delta) else p
  {
  }

  lemma InputMoves(s: Session, e: Event, ctx: Context, i: nat, j: nat)
    requires e.ToolInputResolved? && Located(s, e.toolCallId, i, j)
    ensures Moved(s, e, ctx, OnToolInputResolved(s, e.toolCallId, e.input), i, j)
  {
    var p, value := s.messages[i].parts[j], OrNull(e.input);
    var t := OnToolInputResolved(s, e.toolCallId, e.input);
    LaterPartMoves(p, e, ctx.now);
    if p.state.ToolPending? || p.state.ToolInterrupted? {
      assert t == s;
      SameMoves(s, e, ctx, t, i, j);
    } else {
      UpdateMoves(s, e, ctx, t, i, j, (q: Part) => if q.Tool? then WithInput(q, value) else q);
    }
  }

  lemma AttemptMoves(s: Session, e: Event, ctx: Context, i: nat, j: nat)
    requires e.ToolAttempt? && Located(s, e.toolCallId, i, j)
    ensures Moved(s, e, ctx, OnToolAttempt(s, e.toolCallId, e.attempt), i, j)
  {
    var p, attempt, t := s.messages[i].parts[j], e.attempt, OnToolAttempt(s, e.toolCallId, e.attempt);
    LaterPartMoves(p, e, ctx.now);
    if p.state.ToolSettled? {
      assert t == s;
      SameMoves(s, e, ctx, t, i, j);
    } else {
      UpdateMoves(s, e, ctx, t, i, j, (q: Part) => if q.Tool? then WithAttempt(q, attempt) else q);
    }
  }

  lemma DeltaMoves(s: Session, e: Event, ctx: Context, i: nat, j: nat)
    requires e.ToolOutputDelta? && Located(s, e.toolCallId, i, j)
    ensures Moved(s, e, ctx, OnToolOutputDelta(s, e.toolCallId, e.toolName, e.delta), i, j)
  {
    var p, delta, t := s.messages[i].parts[j], e.delta, OnToolOutputDelta(s, e.toolCallId, e.toolName, e.delta);
    LaterPartMoves(p, e, ctx.now);
    if p.state.ToolRunning? && Concerns(p, e) {
      UpdateMoves(s, e, ctx, t, i, j, (q: Part) => WithLiveOutput(q, delta));
    } else {
      assert t == s;
      SameMoves(s, e, ctx, t, i, j);
    }
  }

  lemma ResultMoves(s: Session, e: Event, ctx: Context, i: nat, j: nat)
    requires e.ToolResultArrived? && Located(s, e.toolCallId, i, j)
    ensures Moved(s, e, ctx, OnToolResult(s, e.toolCallId, e.settledAt, e.result), i, j)
  {
    var settledAt, result, t := e.settledAt, e.result, OnToolResult(s, e.toolCallId, e.settledAt, e.result);
    PartMoves(s.messages[i].parts[j], e, ctx.now);
    if s.messages[i].parts[j].state.ToolSettled? {
      SameMoves(s, e, ctx, t, i, j);
    } else {
      UpdateMoves(s, e, ctx, t, i, j, (p: Part) => if p.Tool? then ToSettled(p, result, settledAt) else p);
    }
  }

  lemma StartOrCallMoves(s: Session, e: Event, ctx: Context, t: Session, i: nat, j: nat)
    requires (e.ToolInputStart? || e.ToolCall?) && Reduces(s, e, ctx, t) && Located(s, e.toolCallId, i, j)
    requires FindCurrentTool(s.messages, s.currentAssistantMessageId, e.toolCallId).Some?
    ensures Moved(s, e, ctx, t, i, j)
  {
    if e.ToolInputStart? {
      ToolInputStartIs(s, e, ctx, t);
      SameMoves(s, e, ctx, t, i, j);
    } else {
      ToolCallIs(s, e, ctx, t);
      CallMoves(s, e, ctx, t, i, j);
    }
  }

  lemma LaterMoves(s: Session, e: Event, ctx: Context, t: Session, i: nat, j: nat)
    requires e.ToolInputResolved? || e.ToolAttempt? || e.ToolOutputDelta? || e.ToolResultArrived?
    requires Reduces(s, e, ctx, t) && Located(s, e.toolCallId, i, j)
    ensures Moved(s, e, ctx, t, i, j)
  {
    if e.ToolInputResolved? {
      ToolInputResolvedIs(s, e, ctx, t);
      InputMoves(s, e, ctx, i, j);
    } else if e.ToolAttempt? {
      ToolAttemptIs(s, e, ctx, t);
      AttemptMoves(s, e, ctx, i, j);
    } else if e.ToolOutputDelta? {
      ToolOutputDeltaIs(s, e, ctx, t);
      DeltaMoves(s, e, ctx, i, j);
    } else {
      ToolResultIs(s, e, ctx, t);
      ResultMoves(s, e, ctx, i, j);
    }
  }

  /** A tool event that finds its call moves it as the table says, and changes nothing else. */
  lemma ToolEventMoves(s: Session, e: Event, ctx: Context, t: Session, i: nat, j: nat)
    requires Coherent(s) && IsToolEvent(e) && Reduces(s, e, ctx, t) && IsFound(s, e, i, j)
    ensures Moved(s, e, ctx, t, i, j)
  {
    FoundIsLocated(s, e, i, j);
    if e.ToolInputStart? || e.ToolCall? {
      StartOrCallMoves(s, e, ctx, t, i, j);
    } else {
      LaterMoves(s, e, ctx, t, i, j);
    }
  }

  /** The call that an announcement or a call without one brings in. */
  function NewCallPart(e: Event, ctx: Context): Part
    requires e.ToolInputStart? || e.ToolCall?
  {
    Tool(Generated(ctx.partId), e.toolCallId, e.toolName, ctx.now, None,
         if e.ToolInputStart? then ToolPending else ToolRunning(OrNull(e.input), ctx.now, None))
  }

  /** A tool event that finds none appends its call to the current message, or changes nothing. */
  lemma ToolEventMisses(s: Session, e: Event, ctx: Context, t: Session)
    requires Coherent(s) && IsToolEvent(e) && Reduces(s, e, ctx, t) && NothingFound(s, e)
    ensures if e.ToolInputStart? || e.ToolCall? then Appended(s, e, ctx, t) else t == s
  {
    NothingFoundIs(s, e);
    match e {
      case ToolInputStart(_, _) => NewCallAppends(s, e, ctx, t);
      case ToolCall(_, _, _) => NewCallAppends(s, e, ctx, t);
      case ToolInputResolved(_, _) => ToolInputResolvedIs(s, e, ctx, t);
      case ToolAttempt(_, _) => ToolAttemptIs(s, e, ctx, t);
      case ToolOutputDelta(_, _, _) => ToolOutputDeltaIs(s, e, ctx, t);
      case ToolResultArrived(_, _, _) => ToolResultIs(s, e, ctx, t);
    }
  }

  ghost predicate Appended(s: Session, e: Event, ctx: Context, t: Session)
    requires e.ToolInputStart? || e.ToolCall?
  {
    exists i :: 0 <= i < |s.messages| && AppendedAt(s, e, ctx, t, i)
  }

  ghost predicate AppendedAt(s: Session, e: Event, ctx: Context, t: Session, i: nat)
    requires e.ToolInputStart? || e.ToolCall?
  {
    && i < |s.messages| && s.messages[i].Assistant? && s.currentAssistantMessageId == Some(s.messages[i].id)
    && t == s.(
         messages := s.messages[i := s.messages[i].(parts := s.messages[i].parts + [NewCallPart(e, ctx)])],
         stats := t.stats)
  }

  lemma NewCallAppends(s: Session, e: Event, ctx: Context, t: Session)
    requires Coherent(s) && (e.ToolInputStart? || e.ToolCall?) && Reduces(s, e, ctx, t)
    requires FindCurrentTool(s.messages, s.currentAssistantMessageId, e.toolCallId).None?
    ensures Appended(s, e, ctx, t)
  {
    if e.ToolInputStart? {
      ToolInputStartIs(s, e, ctx, t);
    } else {
      ToolCallIs(s, e, ctx, t);
    }
    var i := EnsuredIs(s);
    AppendIsAppend(s.messages, i, NewCallPart(e, ctx));
    assert AppendedAt(s, e, ctx, t, i);
  }

  lemma EnsuredIff(s: Session)
    requires Coherent(s)
    ensures EnsureCurrentAssistant(s).Ensured? <==> s.currentAssistantMessageId.Some?
  {
    CurrentMessageFound(s);
    if s.currentAssistantMessageId.Some? {
      var k :| 0 <= k < |s.messages|
        && IsCurrentMessage(s.messages[k], s.currentExecutionId, s.currentAssistantMessageId);
      assert s.messages[k].id != "";
    }
  }

  lemma ThrowsIs(s: Session, e: Event, ctx: Context)
    ensures Reduce(s, e, ctx).Throws?
       <==> || (e.ToolInputStart? && OnToolInputStart(s, e.toolCallId, e.toolName, ctx).Throws?)
            || (e.ToolCall? && OnToolCall(s, e.toolCallId, e.toolName, e.input, ctx).Throws?)
  {
  }

  /** A tool event throws exactly when it needs an Assistant message and none is current. */
  lemma ToolEventThrowsIff(s: Session, e: Event, ctx: Context)
    requires Coherent(s)
    ensures Reduce(s, e, ctx).Throws? <==> (e.ToolInputStart? || e.ToolCall?) && s.currentAssistantMessageId.None?
  {
    ThrowsIs(s, e, ctx);
    EnsuredIff(s);
  }

  /* ---------- the count of calls ---------- */

  predicate PendingAt(s: Session, toolCallId: string, i: nat, j: nat) {
    InCurrent(s, toolCallId, i, j) && s.messages[i].parts[j].state.ToolPending?
  }

  /** The event makes a call: the current message has none of that id, or has it announced only. */
  ghost predicate MakesCall(s: Session, e: Event) {
    && e.ToolCall? && s.currentAssistantMessageId.Some?
    && (!AnyInCurrent(s, e.toolCallId) || exists i: nat, j: nat :: PendingAt(s, e.toolCallId, i, j))
  }

  lemma FoundCallCounts(s: Session, e: Event, ctx: Context, t: Session, i: nat, j: nat)
    requires e.ToolCall? && Located(s, e.toolCallId, i, j)
    requires FindCurrentTool(s.messages, s.currentAssistantMessageId, e.toolCallId).Some?
    requires OnToolCall(s, e.toolCallId, e.toolName, e.input, ctx) == Next(t)
    ensures t.stats.toolCalls
         == s.stats.toolCalls + if s.messages[i].parts[j].state.ToolPending? then 1 else 0
  {
  }

  lemma NewCallCounts(s: Session, e: Event, ctx: Context, t: Session)
    requires e.ToolCall? && OnToolCall(s, e.toolCallId, e.toolName, e.input, ctx) == Next(t)
    requires FindCurrentTool(s.messages, s.currentAssistantMessageId, e.toolCallId).None?
    ensures t.stats.toolCalls == s.stats.toolCalls + 1 && s.currentAssistantMessageId.Some?
  {
  }

  lemma OnePlace(s: Session, toolCallId: string, i: nat, j: nat, k: nat, l: nat)
    requires Coherent(s) && InCurrent(s, toolCallId, i, j) && InCurrent(s, toolCallId, k, l)
    ensures k == i && l == j
  {
    MessageAtIs(s.messages, i);
    MessageAtIs(s.messages, k);
    OneCall(s.messages[i].parts, j, toolCallId);
    OneCall(s.messages[i].parts, l, toolCallId);
  }

  lemma MadeCallCounts(s: Session, e: Event, ctx: Context, t: Session)
    requires Coherent(s) && e.ToolCall? && OnToolCall(s, e.toolCallId, e.toolName, e.input, ctx) == Next(t)
    ensures t.stats.toolCalls == s.stats.toolCalls + if MakesCall(s, e) then 1 else 0
  {
    CurrentToolIff(s, e.toolCallId);
    if AnyInCurrent(s, e.toolCallId) {
      var i: nat, j: nat :| InCurrent(s, e.toolCallId, i, j);
      assert IsFound(s, e, i, j);
      FoundIsLocated(s, e, i, j);
      FoundCallCounts(s, e, ctx, t, i, j);
      MakesIfPending(s, e, i, j);
    } else {
      NewCallCounts(s, e, ctx, t);
    }
  }

  lemma MakesIfPending(s: Session, e: Event, i: nat, j: nat)
    requires Coherent(s) && e.ToolCall? && InCurrent(s, e.toolCallId, i, j)
    ensures MakesCall(s, e) <==> s.messages[i].parts[j].state.ToolPending?
  {
    assert AnyInCurrent(s, e.toolCallId);
    forall k: nat, l: nat | PendingAt(s, e.toolCallId, k, l) ensures k == i && l == j {
      OnePlace(s, e.toolCallId, i, j, k, l);
    }
    assert PendingAt(s, e.toolCallId, i, j) <==> s.messages[i].parts[j].state.ToolPending?;
  }

  lemma BlockKeepsCount(s: Session, e: Event, ctx: Context, t: Session)
    requires Addressable(s.messages) && Reduces(s, e, ctx, t) && IsBlockEvent(e)
    ensures t.stats.toolCalls == s.stats.toolCalls
  {
    if e.BlockStart? {
      var edit := BlockStartChange(s, e, ctx, t);
    } else if e.BlockDelta? {
      BlockDeltaIs(s, e, ctx, t);
    } else {
      var edit := BlockEndChange(s, e, ctx, t);
    }
  }

  lemma ToolKeepsCount(s: Session, e: Event, ctx: Context, t: Session)
    requires Addressable(s.messages) && Reduces(s, e, ctx, t) && IsToolEvent(e) && !e.ToolCall?
    ensures t.stats.toolCalls == s.stats.toolCalls
  {
    match e {
      case ToolInputStart(_, _) => ToolInputStartIs(s, e, ctx, t);
      case ToolInputResolved(_, _) => ToolInputResolvedIs(s, e, ctx, t);
      case ToolAttempt(_, _) => ToolAttemptIs(s, e, ctx, t);
      case ToolOutputDelta(_, _, _) => ToolOutputDeltaIs(s, e, ctx, t);
      case ToolResultArrived(_, _, _) => ToolResultIs(s, e, ctx, t);
    }
  }

  lemma OtherKeepsCount(s: Session, e: Event, ctx: Context, t: Session)
    requires Reduces(s, e, ctx, t) && !IsPartEvent(e)
    ensures t.stats.toolCalls == s.stats.toolCalls
  {
    if e.Lifecycle? {
      LifecycleIs(s, e, ctx, t);
    } else if e.StopRequested? {
      StopIs(s, e, ctx, t);
    } else if e.MessagesCommitted? {
      CommitIs(s, e, ctx, t);
    } else if e.SystemNotice? {
      NoticeIs(s, e, ctx, t);
    } else if e.StepStart? {
      StepStartIs(s, e, ctx, t);
    } else if e.StepEnd? {
      StepEndIs(s, e, ctx, t);
    } else if e.ExecutionError? {
      ErrorIs(s, e, ctx, t);
    } else if e.Compact? {
      CompactIs(s, e, ctx, t);
    } else {
      QuietIs(s, e, ctx, t);
    }
  }

  /** Calls are counted when they are made, each once, and by no other event. */
  lemma CallsCounted(s: Session, e: Event, ctx: Context, t: Session)
    requires Coherent(s) && Reduces(s, e, ctx, t)
    ensures t.stats.toolCalls == s.stats.toolCalls + if MakesCall(s, e) then 1 else 0
  {
    OkIsAddressable(s.messages);
    if e.ToolCall? {
      ToolCallIs(s, e, ctx, t);
      MadeCallCounts(s, e, ctx, t);
    } else if IsToolEvent(e) {
      ToolKeepsCount(s, e, ctx, t);
    } else if IsBlockEvent(e) {
      BlockKeepsCount(s, e, ctx, t);
    } else if e.RecoveryNoticed? {
      RecoveryIs(s, e, ctx, t);
    } else {
      OtherKeepsCount(s, e, ctx, t);
    }
  }
}
