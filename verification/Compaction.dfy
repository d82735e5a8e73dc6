/**
 Compaction of the message list: there is one compaction message at most, compacted
 messages form a prefix of the others, and no event drops, repeats or reorders them.
 */
module Compaction {
  import opened Prelude
  import opened SessionTypes
  import opened Messages
  import opened Reducer
  import opened Steps
  import opened MessageIdentity
  import opened Correspondence

  /** The messages other than the compaction message, in order. */
  function Entries(ms: seq<Message>): seq<Message> {
    if ms == [] then []
    else Entries(ms[..|ms| - 1]) + if HasCompaction(ms[|ms| - 1]) then [] else [ms[|ms| - 1]]
  }

  ghost predicate FlagsArePrefix(entries: seq<Message>) {
    forall i, j :: 0 <= i < j < |entries| && entries[j].compacted ==> entries[i].compacted
  }

  /** At most one compaction message, and the compacted messages come first. */
  ghost predicate CompactionOk(ms: seq<Message>) {
    |Entries(ms)| >= |ms| - 1 && FlagsArePrefix(Entries(ms))
  }

  function WithMark(m: Message, compacted: bool): Message {
    m.(compacted := compacted)
  }

  /** The same message, possibly compacted since, and with other parts if it is an Assistant message. */
  predicate KeptMessage(before: Message, after: Message) {
    && after.id == before.id
    && (before.Assistant? <==> after.Assistant?)
    && (before.User? ==> after == WithMark(before, after.compacted))
    && (before.Assistant? ==> MessageKey(after) == MessageKey(before) && after.createdAt == before.createdAt)
    && (before.compacted ==> after.compacted)
  }

  /** Nothing dropped, repeated or reordered, and no flag cleared; new messages come last. */
  ghost predicate EntriesKept(before: seq<Message>, after: seq<Message>) {
    && |after| >= |before|
    && forall i :: 0 <= i < |before| ==> KeptMessage(before[i], after[i])
  }

  lemma EntriesKeptTransitive(a: seq<Message>, b: seq<Message>, c: seq<Message>)
    requires EntriesKept(a, b) && EntriesKept(b, c)
    ensures EntriesKept(a, c)
  {
    forall i | 0 <= i < |a| ensures KeptMessage(a[i], c[i]) {
      assert KeptMessage(a[i], b[i]) && KeptMessage(b[i], c[i]);
    }
  }

  /* ---------- the list of entries ---------- */

  lemma {:induction false} EntriesConcat(a: seq<Message>, b: seq<Message>)
    ensures Entries(a + b) == Entries(a) + Entries(b)
  {
    if b == [] {
      assert a + b == a;
    } else {
      var front := b[..|b| - 1];
      assert (a + b)[..|a + b| - 1] == a + front;
      EntriesConcat(a, front);
    }
  }

  lemma {:induction false} EntriesPlain(ms: seq<Message>)
    requires forall i :: 0 <= i < |ms| ==> !HasCompaction(ms[i])
    ensures Entries(ms) == ms
  {
    if ms != [] {
      EntriesPlain(ms[..|ms| - 1]);
    }
  }

  lemma {:induction false} EntriesFrom(ms: seq<Message>)
    ensures |Entries(ms)| <= |ms|
    ensures forall m :: m in Entries(ms) ==> m in ms && !HasCompaction(m)
  {
    if ms != [] {
      EntriesFrom(ms[..|ms| - 1]);
    }
  }

  predicate KeptPlace(before: Message, after: Message) {
    KeptMessage(before, after) && (HasCompaction(before) <==> HasCompaction(after))
  }

  /** A change in place, message by message. */
  ghost predicate ChangedInPlace(before: seq<Message>, after: seq<Message>) {
    && |after| == |before|
    && forall i :: 0 <= i < |before| ==> KeptPlace(before[i], after[i])
  }

  lemma {:induction false} EntriesInPlace(before: seq<Message>, after: seq<Message>)
    requires ChangedInPlace(before, after)
    ensures |Entries(after)| == |Entries(before)| && EntriesKept(Entries(before), Entries(after))
    ensures (forall i :: 0 <= i < |before| ==> after[i].compacted == before[i].compacted) ==>
      forall i :: 0 <= i < |Entries(before)| ==> Entries(after)[i].compacted == Entries(before)[i].compacted
  {
    if before != [] {
      var n := |before| - 1;
      EntriesInPlace(before[..n], after[..n]);
      assert KeptPlace(before[n], after[n]);
      OneMoreEntry(Entries(before[..n]), Entries(after[..n]), before[n], after[n]);
    }
  }

  lemma OneMoreEntry(before: seq<Message>, after: seq<Message>, m: Message, n: Message)
    requires |after| == |before| && EntriesKept(before, after) && KeptPlace(m, n)
    ensures EntriesKept(before + [m], after + [n])
    ensures
      (forall i :: 0 <= i < |before| ==> after[i].compacted == before[i].compacted) && n.compacted == m.compacted ==>
      forall i :: 0 <= i <= |before| ==> (after + [n])[i].compacted == (before + [m])[i].compacted
  {
    var all, more := before + [m], after + [n];
    forall i | 0 <= i < |all| ensures KeptMessage(all[i], more[i]) {
      assert i < |before| ==> KeptMessage(before[i], after[i]);
    }
  }

  /** An in-place change that leaves the flags alone keeps everything. */
  lemma InPlaceKeeps(before: seq<Message>, after: seq<Message>)
    requires CompactionOk(before) && ChangedInPlace(before, after)
    requires forall i :: 0 <= i < |before| ==> after[i].compacted == before[i].compacted
    ensures CompactionOk(after) && EntriesKept(Entries(before), Entries(after))
  {
    EntriesInPlace(before, after);
  }

  lemma AppendKeeps(ms: seq<Message>, more: seq<Message>)
    requires CompactionOk(ms)
    requires forall k :: 0 <= k < |more| ==> !HasCompaction(more[k]) && !more[k].compacted
    ensures CompactionOk(ms + more) && EntriesKept(Entries(ms), Entries(ms + more))
  {
    EntriesConcat(ms, more);
    EntriesPlain(more);
  }

  /* ---------- compact ---------- */

  lemma {:induction false} FlaggedEntries(ms: seq<Message>)
    ensures ChangedInPlace(ms, FlagUpTo(ms, |ms|))
    ensures forall i :: 0 <= i < |Entries(FlagUpTo(ms, |ms|))| ==> Entries(FlagUpTo(ms, |ms|))[i].compacted
  {
    var after := FlagUpTo(ms, |ms|);
    forall i | 0 <= i < |ms| ensures KeptPlace(ms[i], after[i]) {}
    EntriesFrom(after);
    forall i | 0 <= i < |Entries(after)| ensures Entries(after)[i].compacted {
      assert Entries(after)[i] in after;
    }
  }

  /** The first `n` entries are compacted, the others as before. */
  ghost predicate FlagsAfter(before: seq<Message>, after: seq<Message>, n: nat) {
    && |after| == |before|
    && forall i :: 0 <= i < |before| ==> (after[i].compacted <==> i < n || before[i].compacted)
  }

  lemma FlagKeeps(ms: seq<Message>, upTo: nat)
    requires CompactionOk(ms) && upTo <= |ms|
    ensures CompactionOk(FlagUpTo(ms, upTo)) && EntriesKept(Entries(ms), Entries(FlagUpTo(ms, upTo)))
    ensures FlagsAfter(Entries(ms), Entries(FlagUpTo(ms, upTo)), |Entries(ms[..upTo])|)
  {
    var front, back := ms[..upTo], ms[upTo..];
    var flagged := FlagUpTo(front, |front|);
    FlaggedEntries(front);
    assert ms == front + back && FlagUpTo(ms, upTo) == flagged + back;
    EntriesConcat(front, back);
    EntriesConcat(flagged, back);
    EntriesInPlace(front, flagged);
    PrefixSplit(Entries(front), Entries(back), Entries(flagged));
  }

  lemma PrefixSplit(front: seq<Message>, back: seq<Message>, flagged: seq<Message>)
    requires FlagsArePrefix(front + back)
    requires |flagged| == |front| && forall i :: 0 <= i < |flagged| ==> flagged[i].compacted
    requires EntriesKept(front, flagged)
    ensures FlagsArePrefix(flagged + back) && EntriesKept(front + back, flagged + back)
    ensures FlagsAfter(front + back, flagged + back, |front|)
  {
    var before, after := front + back, flagged + back;
    assert forall i :: |front| <= i < |before| ==> after[i] == before[i];
    forall i | 0 <= i < |before| ensures KeptMessage(before[i], after[i]) {
      assert i < |front| ==> before[i] == front[i] && after[i] == flagged[i] && KeptMessage(front[i], flagged[i]);
    }
  }

  lemma ReplaceCompaction(ms: seq<Message>, c: nat, m: Message)
    requires c < |ms| && HasCompaction(ms[c]) && HasCompaction(m)
    ensures Entries(ms[c := m]) == Entries(ms)
  {
    var front, back := ms[..c], ms[c + 1..];
    assert ms == front + ([ms[c]] + back) && ms[c := m] == front + ([m] + back);
    EntriesConcat(front, [ms[c]] + back);
    EntriesConcat([ms[c]], back);
    EntriesConcat(front, [m] + back);
    EntriesConcat([m], back);
    assert Entries([m]) == [] && Entries([ms[c]]) == [];
  }

  lemma InsertCompaction(front: seq<Message>, m: Message, back: seq<Message>)
    requires HasCompaction(m)
    ensures Entries(front + [m] + back) == Entries(front + back)
  {
    EntriesConcat(front, [m]);
    EntriesConcat(front + [m], back);
    EntriesConcat(front, back);
    assert Entries([m]) == [];
  }

  lemma RefreshHas(m: Message, summary: string, tailStartId: string, now: int)
    requires HasCompaction(m)
    ensures HasCompaction(Refresh(m, summary, tailStartId, now))
  {
    var j :| 0 <= j < |m.userParts| && IsCompactionPart(m.userParts[j]);
    assert IsCompactionPart(Refresh(m, summary, tailStartId, now).userParts[j]);
  }

  lemma CompactKeeps(ms: seq<Message>, summary: string, tailStartId: string, ctx: Context)
    requires CompactionOk(ms)
    ensures var after := Compacted(ms, summary, tailStartId, ctx);
      && CompactionOk(after)
      && EntriesKept(Entries(ms), Entries(after))
      && FlagsAfter(Entries(ms), Entries(after), |Entries(ms[..MessageAt(ms, tailStartId)])|)
  {
    FlagKeeps(ms, MessageAt(ms, tailStartId));
    CompactedEntries(ms, summary, tailStartId, ctx);
  }

  /** Refreshing or inserting the compaction message does not touch the entries. */
  lemma CompactedEntries(ms: seq<Message>, summary: string, tailStartId: string, ctx: Context)
    ensures var after := Compacted(ms, summary, tailStartId, ctx);
      && Entries(after) == Entries(FlagUpTo(ms, MessageAt(ms, tailStartId)))
      && (|Entries(after)| >= |after| - 1 || |Entries(after)| < |ms| - 1)
  {
    var upTo := MessageAt(ms, tailStartId);
    var flagged := FlagUpTo(ms, upTo);
    var c := CompactionAt(ms);
    if c < |ms| {
      FlagHas(ms[c]);
      RefreshHas(flagged[c], summary, tailStartId, ctx.now);
      ReplaceCompaction(flagged, c, Refresh(flagged[c], summary, tailStartId, ctx.now));
    } else {
      var m := CompactionMessage(summary, tailStartId, ctx);
      assert IsCompactionPart(m.userParts[0]);
      assert flagged == flagged[..upTo] + flagged[upTo..];
      InsertCompaction(flagged[..upTo], m, flagged[upTo..]);
      NoneFlagged(ms, upTo);
    }
  }

  lemma NoneFlagged(ms: seq<Message>, upTo: nat)
    requires CompactionAt(ms) == |ms|
    ensures Entries(FlagUpTo(ms, upTo)) == FlagUpTo(ms, upTo)
  {
    forall i | 0 <= i < |ms| ensures !HasCompaction(FlagUpTo(ms, upTo)[i]) {
      FlagHas(ms[i]);
    }
    EntriesPlain(FlagUpTo(ms, upTo));
  }

  /**
   After a compact exactly the entries before the tail start, and those compacted earlier,
   are compacted; the one compaction message carries the new summary and is not compacted.
   */
  lemma CompactEffect(ms: seq<Message>, summary: string, tailStartId: string, ctx: Context) returns (c: nat)
    requires CompactionOk(ms)
    ensures var after := Compacted(ms, summary, tailStartId, ctx);
      && c < |after|
      && HasCompaction(after[c]) && !after[c].compacted
      && (forall j :: 0 <= j < |after[c].userParts| && after[c].userParts[j].CompactionPart? ==>
            after[c].userParts[j] == CompactionPart(after[c].userParts[j].id, summary, tailStartId, ctx.now))
      && (forall k :: 0 <= k < |after| && k != c ==> !HasCompaction(after[k]))
      && FlagsAfter(Entries(ms), Entries(after), |Entries(ms[..MessageAt(ms, tailStartId)])|)
  {
    var after := Compacted(ms, summary, tailStartId, ctx);
    CompactKeeps(ms, summary, tailStartId, ctx);
    CompactedAt(ms, summary, tailStartId, ctx);
    c := if CompactionAt(ms) < |ms| then CompactionAt(ms) else MessageAt(ms, tailStartId);
    if CompactionAt(ms) < |ms| {
      RefreshHas(ms[c], summary, tailStartId, ctx.now);
    } else {
      assert IsCompactionPart(after[c].userParts[0]);
    }
    SingleCompaction(after, c);
  }

  lemma SingleCompaction(ms: seq<Message>, c: nat)
    requires CompactionOk(ms) && c < |ms| && HasCompaction(ms[c])
    ensures forall k :: 0 <= k < |ms| && k != c ==> !HasCompaction(ms[k])
  {
    forall k | 0 <= k < |ms| && k != c
      ensures !HasCompaction(ms[k])
    {
      if HasCompaction(ms[k]) {
        TwoCompactions(ms, if k < c then k else c, if k < c then c else k);
        assert false;
      }
    }
  }

  lemma TwoCompactions(ms: seq<Message>, i: nat, j: nat)
    requires i < j < |ms| && HasCompaction(ms[i]) && HasCompaction(ms[j])
    ensures |Entries(ms)| <= |ms| - 2
  {
    var a, b, c := ms[..i], ms[i + 1..j], ms[j + 1..];
    assert ms == a + ([ms[i]] + (b + ([ms[j]] + c)));
    EntriesConcat(a, [ms[i]] + (b + ([ms[j]] + c)));
    EntriesConcat([ms[i]], b + ([ms[j]] + c));
    EntriesConcat(b, [ms[j]] + c);
    EntriesConcat([ms[j]], c);
    EntriesFrom(a);
    EntriesFrom(b);
    EntriesFrom(c);
    assert Entries([ms[i]]) == [] && Entries([ms[j]]) == [];
  }

  /** The `compact` case as it runs: a mapped copy, then one index assignment or one splice. */
  method CompactMessages(messages: seq<Message>, summary: string, tailStartId: string, ctx: Context)
    returns (next: seq<Message>)
    ensures next == Compacted(messages, summary, tailStartId, ctx)
  {
    var compactUpTo := 0;
    while compactUpTo < |messages| && messages[compactUpTo].id != tailStartId
      invariant 0 <= compactUpTo <= |messages|
      invariant forall k :: 0 <= k < compactUpTo ==> messages[k].id != tailStartId
    {
      compactUpTo := compactUpTo + 1;
    }
    assert compactUpTo == MessageAt(messages, tailStartId);
    next := [];
    for index := 0 to |messages|
      invariant next == FlagUpTo(messages, compactUpTo)[..index]
    {
      var message := messages[index];
      if index < compactUpTo && !HasCompaction(message) {
        message := message.(compacted := true);
      }
      next := next + [message];
    }
    ghost var flagged := next;
    assert flagged == FlagUpTo(messages, compactUpTo);
    var existing := 0;
    while existing < |next| && !HasCompaction(next[existing])
      invariant 0 <= existing <= |next|
      invariant next == flagged
      invariant forall k :: 0 <= k < existing ==> !HasCompaction(next[k])
    {
      existing := existing + 1;
    }
    FirstCompaction(messages, flagged, compactUpTo, existing);
    if existing < |next| {
      var message := next[existing];
      var updated := RefreshParts(message, summary, tailStartId, ctx.now);
      next := next[existing := message.(userParts := updated, compacted := false)];
    } else {
      next := next[..compactUpTo] + [CompactionMessage(summary, tailStartId, ctx)] + next[compactUpTo..];
    }
  }

  /** The pass over the parts of the existing summary message. */
  method RefreshParts(message: Message, summary: string, tailStartId: string, now: int) returns (updated: seq<UserPart>)
    requires message.User?
    ensures updated == Refresh(message, summary, tailStartId, now).userParts
  {
    updated := [];
    for j := 0 to |message.userParts|
      invariant |updated| == j
      invariant forall k :: 0 <= k < j ==> updated[k] == RefreshPart(message.userParts[k], summary, tailStartId, now)
    {
      var part := message.userParts[j];
      if part.CompactionPart? {
        part := CompactionPart(part.id, summary, tailStartId, now);
      }
      updated := updated + [part];
    }
  }

  lemma FirstCompaction(ms: seq<Message>, flagged: seq<Message>, upTo: nat, existing: nat)
    requires flagged == FlagUpTo(ms, upTo) && existing <= |ms|
    requires existing < |ms| ==> HasCompaction(flagged[existing])
    requires forall k :: 0 <= k < existing ==> !HasCompaction(flagged[k])
    ensures existing == CompactionAt(ms)
  {
    var c := CompactionAt(ms);
    if c < |ms| {
      FlagHas(ms[c]);
    }
    if existing < |ms| {
      FlagHas(ms[existing]);
    }
  }

  lemma FlagHas(m: Message)
    ensures HasCompaction(Flag(m)) <==> HasCompaction(m)
  {
  }

  /* ---------- preservation ---------- */

  lemma EndKeepsCompaction(ms: seq<Message>, current: Option<string>, end: End)
    requires CompactionOk(ms)
    ensures var after := EndedMessages(ms, current, end);
      CompactionOk(after) && EntriesKept(Entries(ms), Entries(after))
  {
    var after := EndedMessages(ms, current, end);
    forall i | 0 <= i < |ms|
      ensures KeptPlace(ms[i], after[i]) && after[i].compacted == ms[i].compacted
    {
      EndedMarks(ms, current, end, i);
    }
    InPlaceKeeps(ms, after);
  }

  lemma EndedMarks(ms: seq<Message>, current: Option<string>, end: End, i: nat)
    requires i < |ms|
    ensures var n := EndedMessages(ms, current, end)[i];
      && (ms[i].User? ==> n == ms[i])
      && (ms[i].Assistant? ==>
            n.Assistant? && n.id == ms[i].id && MessageKey(n) == MessageKey(ms[i])
            && n.createdAt == ms[i].createdAt && n.compacted == ms[i].compacted)
  {
  }

  lemma StepEndKeepsCompaction(ms: seq<Message>, stepId: string, finishReason: string, now: int)
    requires CompactionOk(ms)
    ensures var after := StepEndMessages(ms, stepId, finishReason, now);
      CompactionOk(after) && EntriesKept(Entries(ms), Entries(after))
  {
    var after := StepEndMessages(ms, stepId, finishReason, now);
    forall i | 0 <= i < |ms|
      ensures KeptPlace(ms[i], after[i]) && after[i].compacted == ms[i].compacted
    {
    }
    InPlaceKeeps(ms, after);
  }

  lemma EditKeepsCompaction(ms: seq<Message>, edit: Edit)
    requires CompactionOk(ms) && EditFits(ms, edit)
    ensures CompactionOk(ApplyEdit(ms, edit)) && EntriesKept(Entries(ms), Entries(ApplyEdit(ms, edit)))
  {
    var after := ApplyEdit(ms, edit);
    forall i | 0 <= i < |ms| ensures KeptPlace(ms[i], after[i]) && after[i].compacted == ms[i].compacted {}
    InPlaceKeeps(ms, after);
  }

  lemma UnchangedKeepsCompaction(ms: seq<Message>)
    requires CompactionOk(ms)
    ensures EntriesKept(Entries(ms), Entries(ms))
  {
    AppendKeeps(ms, []);
    assert ms + [] == ms;
  }

  lemma CommitKeepsCompaction(s: Session, committed: seq<Message>)
    requires CompactionOk(s.messages) && forall k :: 0 <= k < |committed| ==> IsCommitted(committed[k])
    ensures var after := OnMessagesCommitted(s, committed).messages;
      CompactionOk(after) && EntriesKept(Entries(s.messages), Entries(after))
  {
    NewMessagesAre(committed, Ids(s.messages));
    AppendKeeps(s.messages, NewMessages(committed, Ids(s.messages)));
  }

  lemma MessageEventKeepsCompaction(s: Session, e: Event, ctx: Context, t: Session)
    requires CompactionOk(s.messages) && Admissible(s, e, ctx) && Reduces(s, e, ctx, t)
    requires e.MessagesCommitted? || e.SystemNotice? || e.Compact?
    ensures CompactionOk(t.messages) && EntriesKept(Entries(s.messages), Entries(t.messages))
  {
    if e.MessagesCommitted? {
      CommitIs(s, e, ctx, t);
      CommitKeepsCompaction(s, e.committed);
    } else if e.SystemNotice? {
      NoticeIs(s, e, ctx, t);
      AppendKeeps(s.messages, [NoticeMessage(s, e.notice, ctx)]);
    } else {
      CompactIs(s, e, ctx, t);
      CompactKeeps(s.messages, e.summary, e.tailStartId, ctx);
    }
  }

  lemma StepEventKeepsCompaction(s: Session, e: Event, ctx: Context, t: Session)
    requires CompactionOk(s.messages) && Reduces(s, e, ctx, t) && (e.StepStart? || e.StepEnd? || e.ExecutionError?)
    ensures CompactionOk(t.messages) && EntriesKept(Entries(s.messages), Entries(t.messages))
  {
    UnchangedKeepsCompaction(s.messages);
    if e.StepStart? {
      StepStartIs(s, e, ctx, t);
      AppendKeeps(s.messages, t.messages[|s.messages|..]);
      assert t.messages == s.messages + t.messages[|s.messages|..];
    } else if e.StepEnd? {
      StepEndIs(s, e, ctx, t);
      StepEndKeepsCompaction(s.messages, e.stepId, e.finishReason, ctx.now);
    } else {
      ErrorIs(s, e, ctx, t);
    }
  }

  lemma RecordEventKeepsCompaction(s: Session, e: Event, ctx: Context, t: Session)
    requires CompactionOk(s.messages) && Reduces(s, e, ctx, t) && (e.Lifecycle? || e.StopRequested? || IsQuietEvent(e))
    ensures CompactionOk(t.messages) && EntriesKept(Entries(s.messages), Entries(t.messages))
  {
    UnchangedKeepsCompaction(s.messages);
    if e.Lifecycle? {
      LifecycleIs(s, e, ctx, t);
      if e.lifecycle.ExecutionEnd? {
        EndKeepsCompaction(s.messages, s.currentAssistantMessageId, e.lifecycle.end);
      }
    } else if e.StopRequested? {
      StopIs(s, e, ctx, t);
    } else {
      QuietIs(s, e, ctx, t);
    }
  }

  lemma PartEventKeepsCompaction(s: Session, e: Event, ctx: Context, t: Session)
    requires MessagesOk(s.messages) && CompactionOk(s.messages)
    requires FreshContext(s, ctx) && Reduces(s, e, ctx, t) && IsPartEvent(e)
    ensures CompactionOk(t.messages) && EntriesKept(Entries(s.messages), Entries(t.messages))
  {
    var edit := PartEventIsEdit(s, e, ctx, t);
    EditKeepsCompaction(s.messages, edit);
  }

  /** Every event keeps the compaction shape and every entry, in order and with its flag. */
  lemma ReduceKeepsCompaction(s: Session, e: Event, ctx: Context, t: Session)
    requires MessagesOk(s.messages) && CompactionOk(s.messages) && Admissible(s, e, ctx) && Reduces(s, e, ctx, t)
    ensures CompactionOk(t.messages) && EntriesKept(Entries(s.messages), Entries(t.messages))
  {
    if IsPartEvent(e) {
      PartEventKeepsCompaction(s, e, ctx, t);
    } else if e.MessagesCommitted? || e.SystemNotice? || e.Compact? {
      MessageEventKeepsCompaction(s, e, ctx, t);
    } else if e.StepStart? || e.StepEnd? || e.ExecutionError? {
      StepEventKeepsCompaction(s, e, ctx, t);
    } else {
      RecordEventKeepsCompaction(s, e, ctx, t);
    }
  }
}
