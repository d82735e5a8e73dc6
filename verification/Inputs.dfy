/**
 Inputs reach the conversation once: the pending queue and the canonical messages stay
 disjoint, a commit delivered again changes nothing, and a reminder is recorded and
 consumed at most once. Only the first of these needs accepted ids to be new.
 */
module Inputs {
  import opened Prelude
  import opened SessionTypes
  import opened Messages
  import opened Reducer
  import opened Steps
  import opened MessageIdentity

  function PendingIds(pending: seq<PendingMessage>): set<string> {
    set p | p in pending :: p.id
  }

  ghost predicate DistinctPending(pending: seq<PendingMessage>) {
    forall i, j :: 0 <= i < j < |pending| ==> pending[i].id != pending[j].id
  }

  /** No id is queued twice, and none is both queued and canonical. */
  ghost predicate QueueOk(s: Session) {
    DistinctPending(s.pending) && PendingIds(s.pending) !! Ids(s.messages)
  }

  lemma PendingIdsCons(first: PendingMessage, rest: seq<PendingMessage>)
    ensures PendingIds([first] + rest) == {first.id} + PendingIds(rest)
  {
  }

  lemma {:induction false} PendingWithoutIds(pending: seq<PendingMessage>, ids: set<string>)
    ensures PendingIds(PendingWithout(pending, ids)) == PendingIds(pending) - ids
  {
    if pending != [] {
      var first, rest := pending[0], pending[1..];
      PendingWithoutIds(rest, ids);
      assert pending == [first] + rest;
      PendingIdsCons(first, rest);
      PendingIdsCons(first, PendingWithout(rest, ids));
      assert PendingWithout(pending, ids)
        == if first.id in ids then PendingWithout(rest, ids) else [first] + PendingWithout(rest, ids);
    }
  }

  lemma {:induction false} PendingWithoutDistinct(pending: seq<PendingMessage>, ids: set<string>)
    requires DistinctPending(pending)
    ensures DistinctPending(PendingWithout(pending, ids))
  {
    if pending != [] {
      var first, rest := pending[0], pending[1..];
      PendingWithoutDistinct(rest, ids);
      PendingWithoutIds(rest, ids);
      var kept := PendingWithout(rest, ids);
      forall i | 0 <= i < |kept| ensures kept[i].id != first.id {
        assert kept[i].id in PendingIds(kept);
        var k :| 0 <= k < |rest| && rest[k].id == kept[i].id;
        assert pending[k + 1] == rest[k];
      }
    }
  }

  lemma {:induction false} PendingWithoutNone(pending: seq<PendingMessage>, ids: set<string>)
    requires PendingIds(pending) !! ids
    ensures PendingWithout(pending, ids) == pending
  {
    if pending != [] {
      assert pending[0] in pending && pending[0].id in PendingIds(pending);
      assert forall p :: p in pending[1..] ==> p in pending;
      PendingWithoutNone(pending[1..], ids);
    }
  }

  lemma ReplaceKeepsIds(pending: seq<PendingMessage>, next: PendingMessage)
    ensures PendingIds(ReplacePending(pending, next)) == PendingIds(pending)
  {
    var after := ReplacePending(pending, next);
    forall id ensures id in PendingIds(after) <==> id in PendingIds(pending) {
      if id in PendingIds(pending) {
        var i :| 0 <= i < |pending| && pending[i].id == id;
        assert after[i] in after && after[i].id == id;
      }
      if id in PendingIds(after) {
        var i :| 0 <= i < |after| && after[i].id == id;
        assert pending[i] in pending && pending[i].id == id;
      }
    }
  }

  /* ---------- canonical ids ---------- */

  lemma SamePlacesSameIds(before: seq<Message>, after: seq<Message>)
    requires |after| == |before| && forall i :: 0 <= i < |before| ==> after[i].id == before[i].id
    ensures Ids(after) == Ids(before)
  {
    forall id ensures id in Ids(after) <==> id in Ids(before) {
      if id in Ids(before) {
        var i :| 0 <= i < |before| && before[i].id == id;
        assert after[i] in after && after[i].id == id;
      }
      if id in Ids(after) {
        var i :| 0 <= i < |after| && after[i].id == id;
        assert before[i] in before && before[i].id == id;
      }
    }
  }

  lemma IdsConcat(a: seq<Message>, b: seq<Message>)
    ensures Ids(a + b) == Ids(a) + Ids(b)
  {
  }

  lemma CompactIds(ms: seq<Message>, summary: string, tailStartId: string, ctx: Context)
    ensures Ids(ms) <= Ids(Compacted(ms, summary, tailStartId, ctx)) <= Ids(ms) + {ctx.messageId}
  {
    var upTo := MessageAt(ms, tailStartId);
    var flagged := FlagUpTo(ms, upTo);
    SamePlacesSameIds(ms, flagged);
    if CompactionAt(ms) < |ms| {
      SamePlacesSameIds(flagged, Compacted(ms, summary, tailStartId, ctx));
    } else {
      var user := CompactionMessage(summary, tailStartId, ctx);
      assert flagged == flagged[..upTo] + flagged[upTo..];
      IdsConcat(flagged[..upTo], flagged[upTo..]);
      IdsConcat(flagged[..upTo] + [user], flagged[upTo..]);
      IdsConcat(flagged[..upTo], [user]);
    }
  }

  lemma {:induction false} ArrivalIds(committed: seq<Message>, existing: set<string>)
    ensures Ids(NewMessages(committed, existing)) == Ids(committed) - existing
    ensures Ids(committed) <= existing ==> NewMessages(committed, existing) == []
  {
    if committed != [] {
      ArrivalIds(committed[1..], existing);
      assert committed == [committed[0]] + committed[1..];
      IdsConcat([committed[0]], committed[1..]);
      IdsConcat([committed[0]], NewMessages(committed[1..], existing));
      assert NewMessages(committed, existing)
        == if committed[0].id in existing then NewMessages(committed[1..], existing)
           else [committed[0]] + NewMessages(committed[1..], existing);
    }
  }

  /** The ids an event can add to the canonical messages. */
  function AddedIds(e: Event, ctx: Context): set<string> {
    if e.MessagesCommitted? then Ids(e.committed) else {ctx.messageId}
  }

  lemma PartEventIds(s: Session, e: Event, ctx: Context, t: Session)
    requires MessagesOk(s.messages) && FreshContext(s, ctx) && IsPartEvent(e) && Reduces(s, e, ctx, t)
    ensures Ids(t.messages) == Ids(s.messages)
    ensures t.pending == s.pending && t.reminders == s.reminders && t.childLinks == s.childLinks
  {
    var edit := PartEventIsEdit(s, e, ctx, t);
    EditIds(s.messages, edit);
  }

  lemma EditIds(ms: seq<Message>, edit: Edit)
    requires EditFits(ms, edit)
    ensures Ids(ApplyEdit(ms, edit)) == Ids(ms)
  {
    SamePlacesSameIds(ms, ApplyEdit(ms, edit));
  }

  lemma EndIds(ms: seq<Message>, current: Option<string>, end: End)
    ensures Ids(EndedMessages(ms, current, end)) == Ids(ms)
  {
    EndedSame(ms, current, end);
    forall i | 0 <= i < |ms| ensures EndedMessages(ms, current, end)[i].id == ms[i].id {
      assert SameMessage(ms[i], EndedMessages(ms, current, end)[i]);
    }
    SamePlacesSameIds(ms, EndedMessages(ms, current, end));
  }

  lemma LifecycleIds(s: Session, e: LifecycleEvent, now: int)
    ensures Ids(OnLifecycle(s, e, now).messages) == Ids(s.messages)
  {
    if e.ExecutionEnd? {
      EndIds(s.messages, s.currentAssistantMessageId, e.end);
    }
  }

  lemma StepStartIds(s: Session, stepId: string, number: int, ctx: Context)
    ensures Ids(s.messages) <= Ids(OnStepStart(s, stepId, number, ctx).messages) <= Ids(s.messages) + {ctx.messageId}
  {
    var t := OnStepStart(s, stepId, number, ctx);
    if t != s {
      IdsConcat(s.messages, [t.messages[|s.messages|]]);
    }
  }

  lemma StepEventIds(s: Session, e: Event, ctx: Context, t: Session)
    requires Reduces(s, e, ctx, t) && (e.StepStart? || e.StepEnd? || e.ExecutionError?)
    ensures Ids(s.messages) <= Ids(t.messages) <= Ids(s.messages) + {ctx.messageId}
  {
    if e.StepStart? {
      StepStartIs(s, e, ctx, t);
      StepStartIds(s, e.stepId, e.number, ctx);
    } else if e.StepEnd? {
      StepEndIs(s, e, ctx, t);
      SamePlacesSameIds(s.messages, StepEndMessages(s.messages, e.stepId, e.finishReason, ctx.now));
    } else {
      ErrorIs(s, e, ctx, t);
    }
  }

  lemma MessageEventIds(s: Session, e: Event, ctx: Context, t: Session)
    requires Reduces(s, e, ctx, t) && (e.MessagesCommitted? || e.SystemNotice? || e.Compact?)
    ensures Ids(s.messages) <= Ids(t.messages) <= Ids(s.messages) + AddedIds(e, ctx)
  {
    if e.MessagesCommitted? {
      CommitIs(s, e, ctx, t);
      ArrivalIds(e.committed, Ids(s.messages));
      IdsConcat(s.messages, NewMessages(e.committed, Ids(s.messages)));
    } else if e.SystemNotice? {
      NoticeIs(s, e, ctx, t);
      IdsConcat(s.messages, [NoticeMessage(s, e.notice, ctx)]);
    } else {
      CompactIs(s, e, ctx, t);
      CompactIds(s.messages, e.summary, e.tailStartId, ctx);
    }
  }

  /** Canonical ids are never lost, and only announced or generated ones are added. */
  lemma ReduceKeepsIds(s: Session, e: Event, ctx: Context, t: Session)
    requires MessagesOk(s.messages) && FreshContext(s, ctx) && Reduces(s, e, ctx, t)
    ensures Ids(s.messages) <= Ids(t.messages) <= Ids(s.messages) + AddedIds(e, ctx)
  {
    if IsPartEvent(e) {
      PartEventIds(s, e, ctx, t);
    } else if e.MessagesCommitted? || e.SystemNotice? || e.Compact? {
      MessageEventIds(s, e, ctx, t);
    } else if e.StepStart? || e.StepEnd? || e.ExecutionError? {
      StepEventIds(s, e, ctx, t);
    } else if e.Lifecycle? {
      LifecycleIs(s, e, ctx, t);
      LifecycleIds(s, e.lifecycle, ctx.now);
    } else if e.StopRequested? {
      StopIs(s, e, ctx, t);
    } else {
      QuietIs(s, e, ctx, t);
    }
  }

  /** Commits aside, only queue events touch the queue, and only their own events reminders and links. */
  lemma Untouched(s: Session, e: Event, ctx: Context, t: Session)
    requires MessagesOk(s.messages) && FreshContext(s, ctx) && Reduces(s, e, ctx, t) && !IsQuietEvent(e)
    ensures !e.MessagesCommitted? ==> t.pending == s.pending
    ensures t.reminders == s.reminders && t.childLinks == s.childLinks
  {
    if IsPartEvent(e) {
      PartEventIds(s, e, ctx, t);
    } else if e.MessagesCommitted? {
      CommitIs(s, e, ctx, t);
    } else if e.SystemNotice? {
      NoticeIs(s, e, ctx, t);
    } else if e.Compact? {
      CompactIs(s, e, ctx, t);
    } else if e.StopRequested? {
      StopIs(s, e, ctx, t);
    } else {
      RecordsUntouched(s, e, ctx, t);
    }
  }

  lemma RecordsUntouched(s: Session, e: Event, ctx: Context, t: Session)
    requires Reduces(s, e, ctx, t) && (e.Lifecycle? || e.StepStart? || e.StepEnd? || e.ExecutionError?)
    ensures t.pending == s.pending && t.reminders == s.reminders && t.childLinks == s.childLinks
  {
    if e.Lifecycle? {
      LifecycleIs(s, e, ctx, t);
    } else if e.StepStart? {
      StepStartIs(s, e, ctx, t);
    } else if e.StepEnd? {
      StepEndIs(s, e, ctx, t);
    } else {
      ErrorIs(s, e, ctx, t);
    }
  }

  /* ---------- the queue ---------- */

  lemma QuietKeepsQueue(s: Session, t: Session, added: set<string>)
    requires QueueOk(s) && DistinctPending(t.pending) && PendingIds(t.pending) <= PendingIds(s.pending)
    requires Ids(t.messages) <= Ids(s.messages) + added && added !! PendingIds(t.pending)
    ensures QueueOk(t)
  {
  }

  lemma AcceptKeepsQueue(s: Session, message: PendingMessage)
    requires QueueOk(s) && message.id !in Ids(s.messages) && message.id !in PendingIds(s.pending)
    ensures QueueOk(s.(pending := s.pending + [message]))
  {
    forall i | 0 <= i < |s.pending| ensures s.pending[i].id != message.id {
      assert s.pending[i].id in PendingIds(s.pending);
    }
  }

  /** The id of the message is in use, in the queue or in the conversation. */
  predicate InUse(s: Session, id: string) {
    id in Ids(s.messages) || id in PendingIds(s.pending)
  }

  /** Accepting a message keeps the queue sound exactly when its id is not in use. */
  lemma AcceptKeepsQueueIff(s: Session, message: PendingMessage)
    requires QueueOk(s)
    ensures QueueOk(s.(pending := s.pending + [message])) <==> !InUse(s, message.id)
  {
    var after := s.pending + [message];
    assert after[|s.pending|] == message && message in after;
    if !InUse(s, message.id) {
      AcceptKeepsQueue(s, message);
    } else if message.id in PendingIds(s.pending) {
      var p :| p in s.pending && p.id == message.id;
      var k :| 0 <= k < |s.pending| && s.pending[k] == p;
      assert after[k].id == after[|s.pending|].id;
    } else {
      assert message.id in PendingIds(after) && message.id in Ids(s.messages);
    }
  }

  lemma QueueEventKeepsQueue(s: Session, e: Event, ctx: Context, t: Session)
    requires QueueOk(s) && Reduces(s, e, ctx, t) && (e.MessageReplaced? || e.MessageDeleted?)
    ensures QueueOk(t)
  {
    QuietIs(s, e, ctx, t);
    QueueIs(s, e, ctx, t);
    if e.MessageReplaced? {
      ReplaceKeepsIds(s.pending, e.pending);
    } else {
      PendingWithoutIds(s.pending, {e.messageId});
      PendingWithoutDistinct(s.pending, {e.messageId});
    }
    QuietKeepsQueue(s, t, {});
  }

  lemma OtherKeepsQueue(s: Session, e: Event, ctx: Context, t: Session)
    requires MessagesOk(s.messages) && QueueOk(s) && FreshContext(s, ctx) && Reduces(s, e, ctx, t)
    requires ctx.messageId !in PendingIds(s.pending)
    requires !e.MessageAccepted? && !e.MessageReplaced? && !e.MessageDeleted?
    ensures QueueOk(t)
  {
    ReduceKeepsIds(s, e, ctx, t);
    if IsQuietEvent(e) {
      QuietIs(s, e, ctx, t);
      QuietKeepsQueue(s, t, {});
    } else if e.MessagesCommitted? {
      CommitIs(s, e, ctx, t);
      PendingWithoutIds(s.pending, Ids(e.committed));
      PendingWithoutDistinct(s.pending, Ids(e.committed));
      QuietKeepsQueue(s, t, Ids(e.committed));
    } else {
      Untouched(s, e, ctx, t);
      QuietKeepsQueue(s, t, {ctx.messageId});
    }
  }

  /**
   As long as generated ids are new, the queue stays sound under every event but one: the
   acceptance of a message whose id is in use.
   */
  lemma ReduceKeepsQueueIff(s: Session, e: Event, ctx: Context, t: Session)
    requires MessagesOk(s.messages) && QueueOk(s) && FreshContext(s, ctx) && Reduces(s, e, ctx, t)
    requires ctx.messageId !in PendingIds(s.pending)
    ensures QueueOk(t) <==> !(e.MessageAccepted? && InUse(s, e.pending.id))
  {
    if e.MessageAccepted? {
      QuietIs(s, e, ctx, t);
      QueueIs(s, e, ctx, t);
      AcceptKeepsQueueIff(s, e.pending);
    } else if e.MessageReplaced? || e.MessageDeleted? {
      QueueEventKeepsQueue(s, e, ctx, t);
    } else {
      OtherKeepsQueue(s, e, ctx, t);
    }
  }

  /** Every id of a batch is canonical once the batch was committed. */
  lemma CommittedAreCanonical(s: Session, committed: seq<Message>)
    ensures Ids(committed) <= Ids(OnMessagesCommitted(s, committed).messages)
  {
    ArrivalIds(committed, Ids(s.messages));
    IdsConcat(s.messages, NewMessages(committed, Ids(s.messages)));
  }

  /** A commit whose ids are all canonical adds no message and no count; with a disjoint queue it changes nothing. */
  lemma RecommitIsNoOp(s: Session, committed: seq<Message>)
    requires Ids(committed) <= Ids(s.messages)
    ensures OnMessagesCommitted(s, committed) == s.(pending := PendingWithout(s.pending, Ids(committed)))
    ensures QueueOk(s) ==> OnMessagesCommitted(s, committed) == s
  {
    ArrivalIds(committed, Ids(s.messages));
    if QueueOk(s) {
      PendingWithoutNone(s.pending, Ids(committed));
    }
    assert s.messages + [] == s.messages;
  }

  /* ---------- reminders ---------- */

  predicate SameReminder(a: Reminder, b: Reminder) {
    a.id == b.id || SameSubAgent(a.source, b.source)
  }

  /** Reminder ids are distinct, and so are the keys of sub-agent reminders. */
  ghost predicate RemindersOk(reminders: seq<Reminder>) {
    forall i, j :: 0 <= i < j < |reminders| ==> !SameReminder(reminders[i], reminders[j])
  }

  function WithConsumed(r: Reminder, consumedAt: Option<int>): Reminder {
    r.(consumedAt := consumedAt)
  }

  /** The same reminder, whose consumption time is kept once it is set. */
  predicate ReminderKept(before: Reminder, after: Reminder) {
    && after == WithConsumed(before, after.consumedAt)
    && (before.consumedAt.Some? ==> after.consumedAt == before.consumedAt)
  }

  ghost predicate RemindersKept(before: seq<Reminder>, after: seq<Reminder>) {
    && |after| >= |before|
    && forall i :: 0 <= i < |before| ==> ReminderKept(before[i], after[i])
  }

  lemma RemindersKeptTransitive(a: seq<Reminder>, b: seq<Reminder>, c: seq<Reminder>)
    requires RemindersKept(a, b) && RemindersKept(b, c)
    ensures RemindersKept(a, c)
  {
    forall i | 0 <= i < |a| ensures ReminderKept(a[i], c[i]) {
      assert ReminderKept(a[i], b[i]) && ReminderKept(b[i], c[i]);
    }
  }

  lemma AddKeepsReminders(reminders: seq<Reminder>, next: Reminder)
    requires RemindersOk(reminders) && !KnownReminder(reminders, next)
    ensures RemindersOk(reminders + [WithConsumed(next, None)])
    ensures RemindersKept(reminders, reminders + [WithConsumed(next, None)])
  {
  }

  lemma ConsumeKeepsReminders(reminders: seq<Reminder>, ids: seq<string>, now: int)
    requires RemindersOk(reminders)
    ensures RemindersOk(ConsumeReminders(reminders, ids, now))
    ensures RemindersKept(reminders, ConsumeReminders(reminders, ids, now))
  {
    var after := ConsumeReminders(reminders, ids, now);
    forall i | 0 <= i < |reminders|
      ensures ReminderKept(reminders[i], after[i]) && after[i].id == reminders[i].id
        && after[i].source == reminders[i].source
    {
    }
    forall i, j | 0 <= i < j < |after| ensures !SameReminder(after[i], after[j]) {
      assert !SameReminder(reminders[i], reminders[j]);
    }
  }

  /** Reminders are only added, never duplicated, and consumed at most once. */
  lemma ReduceKeepsReminders(s: Session, e: Event, ctx: Context, t: Session)
    requires MessagesOk(s.messages) && RemindersOk(s.reminders) && FreshContext(s, ctx) && Reduces(s, e, ctx, t)
    ensures RemindersOk(t.reminders) && RemindersKept(s.reminders, t.reminders)
  {
    if e.ReminderAdded? {
      ReminderIs(s, e, ctx, t);
      if !KnownReminder(s.reminders, e.reminder) {
        AddKeepsReminders(s.reminders, e.reminder);
      }
    } else if e.RemindersConsumed? {
      ReminderIs(s, e, ctx, t);
      ConsumeKeepsReminders(s.reminders, e.reminderIds, ctx.now);
    } else if IsQuietEvent(e) {
      QuietIs(s, e, ctx, t);
    } else {
      Untouched(s, e, ctx, t);
    }
  }

  lemma LinksUnchanged(s: Session, e: Event, ctx: Context, t: Session)
    requires MessagesOk(s.messages) && FreshContext(s, ctx) && Reduces(s, e, ctx, t) && !e.ChildLinked?
    ensures t.childLinks == s.childLinks
  {
    if IsQuietEvent(e) {
      QuietIs(s, e, ctx, t);
    } else {
      Untouched(s, e, ctx, t);
    }
  }
}
