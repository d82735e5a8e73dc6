/** What the queue, a commit and the reminders take in. */
module Arrivals {
  import opened Prelude
  import opened SessionTypes
  import opened Reducer
  import opened Steps

  // Kept elements are told by their positions: which ones, all of them, and in their order.

  /** Exactly the chosen positions below `n`, in ascending order. */
  ghost predicate Chosen(ks: seq<nat>, n: nat, choose: nat -> bool) {
    && (forall a, b :: 0 <= a < b < |ks| ==> ks[a] < ks[b])
    && (forall a :: 0 <= a < |ks| ==> ks[a] < n && choose(ks[a]))
    && (forall k :: 0 <= k < n && choose(k) ==> k in ks)
  }

  ghost predicate Picks<T>(xs: seq<T>, ks: seq<nat>, ys: seq<T>) {
    |ys| == |ks| && forall a :: 0 <= a < |ks| ==> ks[a] < |xs| && ys[a] == xs[ks[a]]
  }

  lemma ChosenOneMore(ks: seq<nat>, n: nat, choose: nat -> bool)
    requires Chosen(ks, n, choose)
    ensures Chosen(if choose(n) then ks + [n] else ks, n + 1, choose)
  {
    var all := if choose(n) then ks + [n] else ks;
    forall k | 0 <= k < n + 1 && choose(k) ensures k in all {
      if k < n {
        assert k in ks;
      } else {
        assert all[|ks|] == n;
      }
    }
  }

  lemma PicksOneMore<T>(xs: seq<T>, ks: seq<nat>, ys: seq<T>, n: nat)
    requires Picks(xs, ks, ys) && n < |xs|
    ensures Picks(xs, ks + [n], ys + [xs[n]])
  {
  }

  /* ---------- commits ---------- */

  lemma {:induction false} NewMessagesConcat(a: seq<Message>, b: seq<Message>, existing: set<string>)
    ensures NewMessages(a + b, existing) == NewMessages(a, existing) + NewMessages(b, existing)
  {
    if a == [] {
      assert a + b == b;
    } else {
      assert (a + b)[1..] == a[1..] + b;
      NewMessagesConcat(a[1..], b, existing);
    }
  }

  function IsNew(committed: seq<Message>, existing: set<string>): nat -> bool {
    (k: nat) => k < |committed| && committed[k].id !in existing
  }

  /** The new messages of a batch, in the order of the batch. */
  lemma {:induction false} NewMessagesPicked(committed: seq<Message>, existing: set<string>, n: nat)
      returns (ks: seq<nat>)
    requires n <= |committed|
    ensures Chosen(ks, n, IsNew(committed, existing)) && Picks(committed, ks, NewMessages(committed[..n], existing))
  {
    if n == 0 {
      ks := [];
    } else {
      var front := NewMessagesPicked(committed, existing, n - 1);
      ks := NextPicked(committed, existing, n - 1, front);
    }
  }

  lemma NextPicked(committed: seq<Message>, existing: set<string>, n: nat, front: seq<nat>) returns (ks: seq<nat>)
    requires n < |committed| && Chosen(front, n, IsNew(committed, existing))
    requires Picks(committed, front, NewMessages(committed[..n], existing))
    ensures Chosen(ks, n + 1, IsNew(committed, existing))
    ensures Picks(committed, ks, NewMessages(committed[..n + 1], existing))
  {
    OneMoreNew(committed, existing, n);
    ChosenOneMore(front, n, IsNew(committed, existing));
    PicksOneMore(committed, front, NewMessages(committed[..n], existing), n);
    ks := if committed[n].id !in existing then front + [n] else front;
  }

  lemma OneMoreNew(committed: seq<Message>, existing: set<string>, n: nat)
    requires n < |committed|
    ensures NewMessages(committed[..n + 1], existing)
         == NewMessages(committed[..n], existing) + if committed[n].id in existing then [] else [committed[n]]
  {
    var last := committed[n];
    assert committed[..n + 1] == committed[..n] + [last];
    NewMessagesConcat(committed[..n], [last], existing);
    assert NewMessages([last], existing) == if last.id in existing then [] else [last];
  }

  /* ---------- the queue ---------- */

  lemma {:induction false} PendingConcat(a: seq<PendingMessage>, b: seq<PendingMessage>, ids: set<string>)
    ensures PendingWithout(a + b, ids) == PendingWithout(a, ids) + PendingWithout(b, ids)
  {
    if a == [] {
      assert a + b == b;
    } else {
      assert (a + b)[1..] == a[1..] + b;
      PendingConcat(a[1..], b, ids);
    }
  }

  function IsLeft(pending: seq<PendingMessage>, ids: set<string>): nat -> bool {
    (k: nat) => k < |pending| && pending[k].id !in ids
  }

  /** What stays queued, in its order. */
  lemma {:induction false} PendingPicked(pending: seq<PendingMessage>, ids: set<string>, n: nat) returns (ks: seq<nat>)
    requires n <= |pending|
    ensures Chosen(ks, n, IsLeft(pending, ids)) && Picks(pending, ks, PendingWithout(pending[..n], ids))
  {
    if n == 0 {
      ks := [];
    } else {
      var front := PendingPicked(pending, ids, n - 1);
      ks := NextLeft(pending, ids, n - 1, front);
    }
  }

  lemma NextLeft(pending: seq<PendingMessage>, ids: set<string>, n: nat, front: seq<nat>) returns (ks: seq<nat>)
    requires n < |pending| && Chosen(front, n, IsLeft(pending, ids))
    requires Picks(pending, front, PendingWithout(pending[..n], ids))
    ensures Chosen(ks, n + 1, IsLeft(pending, ids))
    ensures Picks(pending, ks, PendingWithout(pending[..n + 1], ids))
  {
    OneMorePending(pending, ids, n);
    ChosenOneMore(front, n, IsLeft(pending, ids));
    PicksOneMore(pending, front, PendingWithout(pending[..n], ids), n);
    ks := if pending[n].id !in ids then front + [n] else front;
  }

  lemma OneMorePending(pending: seq<PendingMessage>, ids: set<string>, n: nat)
    requires n < |pending|
    ensures PendingWithout(pending[..n + 1], ids)
         == PendingWithout(pending[..n], ids) + if pending[n].id in ids then [] else [pending[n]]
  {
    var last := pending[n];
    assert pending[..n + 1] == pending[..n] + [last];
    PendingConcat(pending[..n], [last], ids);
    assert PendingWithout([last], ids) == if last.id in ids then [] else [last];
  }

  /** `ys` is what stays of `xs` without these ids. */
  ghost predicate Remains(xs: seq<PendingMessage>, ids: set<string>, ys: seq<PendingMessage>) {
    exists ks :: Chosen(ks, |xs|, IsLeft(xs, ids)) && Picks(xs, ks, ys)
  }

  /** Accepting appends, replacing edits in place, deleting takes out that id; the rest keeps its order. */
  lemma QueueTakesIn(s: Session, e: Event, ctx: Context, t: Session)
    requires Reduces(s, e, ctx, t)
    ensures e.MessageAccepted? ==> t == s.(pending := s.pending + [e.pending])
    ensures e.MessageReplaced? ==>
      && t == s.(pending := t.pending) && |t.pending| == |s.pending|
      && forall k :: 0 <= k < |s.pending| ==>
           t.pending[k] == if s.pending[k].id == e.pending.id then e.pending else s.pending[k]
    ensures e.MessageDeleted? ==> t == s.(pending := t.pending) && Remains(s.pending, {e.messageId}, t.pending)
  {
    if e.MessageAccepted? || e.MessageReplaced? || e.MessageDeleted? {
      QuietIs(s, e, ctx, t);
      QueueIs(s, e, ctx, t);
      if e.MessageDeleted? {
        var ks := PendingPicked(s.pending, {e.messageId}, |s.pending|);
        assert s.pending[..|s.pending|] == s.pending;
      }
    }
  }

  /**
   A commit appends the messages of the batch that are new, in order, counts them, and takes the batch
   off the queue.
   */
  lemma CommitTakesIn(s: Session, e: Event, ctx: Context, t: Session) returns (ks: seq<nat>)
    requires Reduces(s, e, ctx, t) && e.MessagesCommitted?
    ensures Chosen(ks, |e.committed|, IsNew(e.committed, set m | m in s.messages :: m.id))
    ensures |t.messages| >= |s.messages| && t.messages[..|s.messages|] == s.messages
    ensures Picks(e.committed, ks, t.messages[|s.messages|..])
    ensures Remains(s.pending, set m | m in e.committed :: m.id, t.pending)
    ensures t.stats.userMessages == s.stats.userMessages + |ks|
    ensures t == s.(messages := t.messages, pending := t.pending, stats := t.stats)
  {
    CommitIs(s, e, ctx, t);
    ks := NewMessagesPicked(e.committed, Ids(s.messages), |e.committed|);
    assert e.committed[..|e.committed|] == e.committed;
    var js := PendingPicked(s.pending, Ids(e.committed), |s.pending|);
    assert s.pending[..|s.pending|] == s.pending;
  }

  /* ---------- reminders ---------- */

  /** A reminder without a child execution stands for the legacy one. */
  function ChildOf(source: ReminderSource): string
    requires source.SubAgent?
  {
    if source.childExecutionId.Some? then source.childExecutionId.value else "legacy"
  }

  /** Both are about the same end, or the same blocked dispatch, of the same session. */
  predicate SameSubject(a: ReminderSource, b: ReminderSource) {
    || (a.SubAgent? && b.SubAgent? && a.sessionId == b.sessionId && ChildOf(a) == ChildOf(b))
    || (a.DispatchBlocked? && b.DispatchBlocked?
        && a.sessionId == b.sessionId && a.blockedAfterExecutionId == b.blockedAfterExecutionId)
  }

  predicate PlainSession(source: ReminderSource) {
    IsSubAgent(source) ==> ':' !in source.sessionId
  }

  function ColonAt(t: string): (k: nat)
    ensures k <= |t|
  {
    if t == [] || t[0] == ':' then 0 else 1 + ColonAt(t[1..])
  }

  lemma {:induction false} FirstColon(a: string, b: string)
    requires ':' !in a
    ensures ColonAt(a + ":" + b) == |a|
  {
    if a != [] {
      assert (a + ":" + b)[1..] == a[1..] + ":" + b;
      FirstColon(a[1..], b);
    }
  }

  /** Texts joined by a colon are equal only piece by piece, when the first piece has none. */
  lemma JoinedEqual(a: string, b: string, c: string, d: string)
    requires ':' !in a && ':' !in c && a + ":" + b == c + ":" + d
    ensures a == c && b == d
  {
    var x, y := a + ":" + b, c + ":" + d;
    FirstColon(a, b);
    FirstColon(c, d);
    assert x[..|a|] == a && y[..|c|] == c;
    assert x[|a| + 1..] == b && y[|c| + 1..] == d;
  }

  /** The keys compared are equal exactly for the same subject, as long as session ids have no colon. */
  lemma KeyIsSubject(a: ReminderSource, b: ReminderSource)
    requires PlainSession(a) && PlainSession(b)
    ensures SameSubAgent(a, b) <==> SameSubject(a, b)
  {
    if IsSubAgent(a) && IsSubAgent(b) {
      var x, y := SubAgentKey(a), SubAgentKey(b);
      assert x[0] == if a.SubAgent? then 't' else 'b';
      assert y[0] == if b.SubAgent? then 't' else 'b';
      if x == y && a.SubAgent? {
        assert x[9..] == a.sessionId + ":" + ChildOf(a) && y[9..] == b.sessionId + ":" + ChildOf(b);
        JoinedEqual(a.sessionId, ChildOf(a), b.sessionId, ChildOf(b));
      } else if x == y {
        assert x[8..] == a.sessionId + ":" + a.blockedAfterExecutionId;
        assert y[8..] == b.sessionId + ":" + b.blockedAfterExecutionId;
        JoinedEqual(a.sessionId, a.blockedAfterExecutionId, b.sessionId, b.blockedAfterExecutionId);
      }
    }
  }

  predicate IsKnown(reminders: seq<Reminder>, next: Reminder) {
    exists i :: 0 <= i < |reminders|
      && (reminders[i].id == next.id || SameSubject(reminders[i].source, next.source))
  }

  /** A reminder is appended, not consumed, exactly when neither its id nor its subject is known. */
  lemma ReminderTakenIn(s: Session, e: Event, ctx: Context, t: Session)
    requires Reduces(s, e, ctx, t) && e.ReminderAdded? && PlainSession(e.reminder.source)
    requires forall i :: 0 <= i < |s.reminders| ==> PlainSession(s.reminders[i].source)
    ensures t == s.(reminders := if IsKnown(s.reminders, e.reminder) then s.reminders
                                 else s.reminders + [e.reminder.(consumedAt := None)])
  {
    QuietIs(s, e, ctx, t);
    ReminderIs(s, e, ctx, t);
    forall i | 0 <= i < |s.reminders|
      ensures SameSubAgent(s.reminders[i].source, e.reminder.source)
         <==> SameSubject(s.reminders[i].source, e.reminder.source)
    {
      KeyIsSubject(s.reminders[i].source, e.reminder.source);
    }
  }

  /** Consuming writes the time on exactly the listed reminders that have none yet. */
  lemma RemindersConsumedIs(s: Session, e: Event, ctx: Context, t: Session)
    requires Reduces(s, e, ctx, t) && e.RemindersConsumed?
    ensures t == s.(reminders := t.reminders) && |t.reminders| == |s.reminders|
    ensures forall i :: 0 <= i < |s.reminders| ==>
      t.reminders[i] == s.reminders[i].(
        consumedAt := if s.reminders[i].id in e.reminderIds && s.reminders[i].consumedAt.None? then Some(ctx.now)
                      else s.reminders[i].consumedAt)
  {
    QuietIs(s, e, ctx, t);
    ReminderIs(s, e, ctx, t);
  }
}
