/**
 Model output blocks as a finite map: whatever the nesting of messages and parts, an event
 changes at most the entry of its own key (step, channel, block id), and step or execution
 ends close entries without changing their text.
 */
module Blocks {
  import opened Prelude
  import opened Utf8
  import opened SessionTypes
  import opened Messages
  import opened Reducer
  import opened Steps
  import opened PartEvents
  import opened MessageIdentity
  import opened Correspondence
  import opened ToolMachine

  datatype Key = Key(stepId: string, channel: Channel, blockId: string)

  datatype Entry = Entry(text: Text, closed: bool)

  /* ---------- the abstraction ---------- */

  function EntryOf(p: Part): Entry
    requires p.Block?
  {
    Entry(p.text, p.completedAt.Some?)
  }

  function EntryIn(parts: seq<Part>, key: Key): Option<Entry> {
    var j := BlockAt(parts, key.channel, key.blockId);
    if j == |parts| then None else Some(EntryOf(parts[j]))
  }

  /** The map the message list stands for, read at one key. */
  function EntryAt(ms: seq<Message>, key: Key): Option<Entry> {
    var i := StepMessageAt(ms, key.stepId);
    if i == |ms| then None else EntryIn(ms[i].parts, key)
  }

  function Started(before: Option<Entry>): Option<Entry> {
    if before.None? then Some(Entry([], false)) else before
  }

  function Grown(before: Option<Entry>, text: Text): Option<Entry> {
    if before.Some? && !before.value.closed then Some(Entry(before.value.text + text, false)) else before
  }

  function Ended(before: Option<Entry>, channel: Channel, unwrap: Text -> Text): Option<Entry> {
    if before.None? || before.value.closed then before
    else if before.value.text == [] then None
    else Some(Entry(Unwrapped(channel, before.value.text, unwrap), true))
  }

  function Closed(before: Option<Entry>): Option<Entry> {
    if before.None? then None else Some(Entry(before.value.text, true))
  }

  predicate StepEndAccepted(s: Session, stepId: string, number: int) {
    CurrentRun(s).Some? && exists k :: 0 <= k < |s.steps| && EndsHere(s.steps[k], stepId, number, CurrentRun(s).value)
  }

  function AfterBlockEnd(s: Session, before: Option<Entry>, own: Key, unwrap: Text -> Text, key: Key): Option<Entry> {
    if key == own && IsActiveOpenStep(s, key.stepId) then Ended(before, key.channel, unwrap) else before
  }

  function AfterStepEnd(
    s: Session, before: Option<Entry>, stepId: string, number: int, finishReason: string, key: Key): Option<Entry>
  {
    if key.stepId == stepId && (finishReason == "interrupted" || finishReason == "error")
       && StepEndAccepted(s, stepId, number) && before.Some? && before.value.text != []
    then Closed(before)
    else before
  }

  /** What one event does to the entry of one key. */
  function Expected(s: Session, before: Option<Entry>, e: Event, ctx: Context, key: Key): Option<Entry> {
    match e
    case BlockStart(channel, stepId, blockId) =>
      if key == Key(stepId, channel, blockId) && IsActiveOpenStep(s, stepId) then Started(before) else before
    case BlockDelta(channel, stepId, blockId, text) =>
      if key == Key(stepId, channel, blockId) && IsActiveOpenStep(s, stepId) then Grown(before, text) else before
    case BlockEnd(channel, stepId, blockId) =>
      AfterBlockEnd(s, before, Key(stepId, channel, blockId), ctx.unwrap, key)
    case StepEnd(stepId, number, finishReason, _) => AfterStepEnd(s, before, stepId, number, finishReason, key)
    case Lifecycle(l) =>
      if l.ExecutionEnd? && LifecycleAccepted(s, l) then Closed(before) else before
    case _ => before
  }

  /* ---------- edits ---------- */

  /** In a list where block keys are unique, any position of a block is the one looked up. */
  lemma BlockAtIs(parts: seq<Part>, j: nat)
    requires PartsOk(parts) && j < |parts| && parts[j].Block?
    ensures BlockAt(parts, parts[j].channel, parts[j].blockId) == j
  {
  }

  lemma AppendEntry(parts: seq<Part>, part: Part, key: Key)
    requires PartsOk(parts) && FitsAppend(parts, part)
    ensures EntryIn(parts + [part], key)
         == if IsBlock(part, key.channel, key.blockId) then Some(EntryOf(part)) else EntryIn(parts, key)
  {
    var after := parts + [part];
    var j, k := BlockAt(parts, key.channel, key.blockId), BlockAt(after, key.channel, key.blockId);
    assert after[|parts|] == part && forall h :: 0 <= h < |parts| ==> after[h] == parts[h];
    if j < |parts| {
      assert IsBlock(after[j], key.channel, key.blockId);
      assert k == j;
    } else if k < |after| {
      assert IsBlock(after[k], key.channel, key.blockId);
      assert k == |parts|;
    }
  }

  lemma ReplaceEntry(parts: seq<Part>, j: nat, part: Part, key: Key)
    requires PartsOk(parts) && j < |parts| && SameIdentity(parts[j], part)
    ensures EntryIn(parts[j := part], key)
         == if IsBlock(part, key.channel, key.blockId) then Some(EntryOf(part)) else EntryIn(parts, key)
  {
    MapKeepsPartsOk(parts, parts[j := part]);
    var k := BlockAt(parts, key.channel, key.blockId);
    if IsBlock(part, key.channel, key.blockId) {
      BlockAtIs(parts[j := part], j);
    } else if k < |parts| {
      BlockAtIs(parts[j := part], k);
    }
  }

  lemma RemoveEntry(parts: seq<Part>, j: nat, key: Key)
    requires PartsOk(parts) && j < |parts| && parts[j].Block?
    ensures EntryIn(parts[..j] + parts[j + 1..], key)
         == if IsBlock(parts[j], key.channel, key.blockId) then None else EntryIn(parts, key)
  {
    var after := parts[..j] + parts[j + 1..];
    RemoveKeepsPartsOk(parts, j);
    var k, l := BlockAt(parts, key.channel, key.blockId), BlockAt(after, key.channel, key.blockId);
    if k < |parts| && k != j {
      assert after[if k < j then k else k - 1] == parts[k];
    }
    if l < |after| {
      var l' := if l < j then l else l + 1;
      assert after[l] == parts[l'];
      BlockAtIs(parts, l');
    }
  }

  /** Changing message `i` in place changes the entries of its own step only. */
  lemma EntryInPlace(ms: seq<Message>, i: nat, m: Message, key: Key)
    requires i < |ms| && ms[i].Assistant? && m.Assistant? && m.stepId == ms[i].stepId
    requires StepMessageAt(ms, ms[i].stepId) == i
    ensures EntryAt(ms[i := m], key) == if key.stepId == m.stepId then EntryIn(m.parts, key) else EntryAt(ms, key)
  {
    var after := ms[i := m];
    var k, l := StepMessageAt(ms, key.stepId), StepMessageAt(after, key.stepId);
    assert forall h :: 0 <= h < |ms| ==> (IsStepMessage(after[h], key.stepId) <==> IsStepMessage(ms[h], key.stepId));
    if k < |ms| {
      assert IsStepMessage(after[k], key.stepId);
    }
    if l < |ms| {
      assert IsStepMessage(ms[l], key.stepId);
    }
    assert k == l;
    if key.stepId == m.stepId {
      assert k == i && after[i] == m;
    } else if k < |ms| {
      assert k != i && after[k] == ms[k];
    }
  }

  ghost function EntryAfter(ms: seq<Message>, edit: Edit, key: Key): Option<Entry>
    requires EditFits(ms, edit)
  {
    match edit
    case Keep => EntryAt(ms, key)
    case Append(i, part) =>
      if key.stepId == ms[i].stepId && IsBlock(part, key.channel, key.blockId)
      then Some(EntryOf(part)) else EntryAt(ms, key)
    case Replace(i, j, part) =>
      if key.stepId == ms[i].stepId && IsBlock(part, key.channel, key.blockId)
      then Some(EntryOf(part)) else EntryAt(ms, key)
    case Remove(i, j) =>
      if key.stepId == ms[i].stepId && IsBlock(ms[i].parts[j], key.channel, key.blockId) then None else EntryAt(ms, key)
  }

  lemma EditEntry(ms: seq<Message>, edit: Edit, key: Key)
    requires MessagesOk(ms) && EditFits(ms, edit) && EditKeepsIdentity(ms, edit)
    requires edit.Keep? || StepMessageAt(ms, ms[edit.i].stepId) == edit.i
    ensures EntryAt(ApplyEdit(ms, edit), key) == EntryAfter(ms, edit, key)
  {
    if !edit.Keep? {
      var m := ms[edit.i];
      EntryInPlace(ms, edit.i, m.(parts := EditedParts(m.parts, edit)), key);
      match edit {
        case Append(_, part) => AppendEntry(m.parts, part, key);
        case Replace(_, j, part) => ReplaceEntry(m.parts, j, part, key);
        case Remove(_, j) => RemoveEntry(m.parts, j, key);
      }
    }
  }

  /** An edit of a tool or a notice leaves every entry alone. */
  lemma NonBlockEdit(s: Session, t: Session, edit: Edit, key: Key)
    requires Coherent(s) && Edited(s, t, edit) && EditKeepsIdentity(s.messages, edit)
    requires !edit.Remove?
    requires !edit.Keep? ==> !edit.part.Block?
    ensures EntryAt(t.messages, key) == EntryAt(s.messages, key)
  {
    if !edit.Keep? {
      StepMessageAtIs(s.messages, s.steps, edit.i);
    }
    EditEntry(s.messages, edit, key);
  }

  lemma StepHasMessage(s: Session, stepId: string)
    requires Coherent(s) && IsActiveOpenStep(s, stepId)
    ensures StepMessageAt(s.messages, stepId) < |s.messages|
  {
    var k := ActiveStepIs(s, stepId);
    var i := MessageOfStep(s.messages, s.steps, k);
  }

  /** Whether a block can be started or addressed is decided by its entry. */
  lemma AddressedIff(s: Session, key: Key)
    requires MessagesOk(s.messages) && IsActiveOpenStep(s, key.stepId)
    ensures FindBlock(s.messages, key.stepId, key.channel, key.blockId).Some? <==> EntryAt(s.messages, key).Some?
    ensures OpenBlock(s, key.channel, key.stepId, key.blockId).Some?
       <==> EntryAt(s.messages, key).Some? && !EntryAt(s.messages, key).value.closed
  {
    OkIsAddressable(s.messages);
    if EntryAt(s.messages, key).Some? {
      var i := StepMessageAt(s.messages, key.stepId);
      GetPartIs(s.messages, i, BlockAt(s.messages[i].parts, key.channel, key.blockId));
    }
  }

  lemma BlockStartEntry(s: Session, e: Event, ctx: Context, key: Key)
    requires Coherent(s) && FreshContext(s, ctx) && e.BlockStart?
    ensures EntryAt(OnBlockStart(s, e.channel, e.stepId, e.blockId, ctx).messages, key)
         == Expected(s, EntryAt(s.messages, key), e, ctx, key)
  {
    OkIsAddressable(s.messages);
    var own := Key(e.stepId, e.channel, e.blockId);
    if IsActiveOpenStep(s, e.stepId) {
      StepHasMessage(s, e.stepId);
      AddressedIff(s, own);
      if EntryAt(s.messages, own).None? {
        StartedEntry(s, own, key, ctx);
      }
    }
  }

  /** A new block appears under its own key and nowhere else. */
  lemma StartedEntry(s: Session, own: Key, key: Key, ctx: Context)
    requires MessagesOk(s.messages) && FreshContext(s, ctx) && IsActiveOpenStep(s, own.stepId)
    requires StepMessageAt(s.messages, own.stepId) < |s.messages| && EntryAt(s.messages, own).None?
    ensures EntryAt(OnBlockStart(s, own.channel, own.stepId, own.blockId, ctx).messages, key)
         == if key == own then Some(Entry([], false)) else EntryAt(s.messages, key)
  {
    OkIsAddressable(s.messages);
    var i := StepMessageAt(s.messages, own.stepId);
    var part := Block(Generated(ctx.partId), own.channel, own.blockId, [], ctx.now, None, false, false);
    AppendIsAppend(s.messages, i, part);
    EditEntry(s.messages, Append(i, part), key);
  }

  /** The block an event addresses, in terms of the map. */
  ghost predicate OpenAt(s: Session, key: Key, text: Text) {
    IsActiveOpenStep(s, key.stepId) && EntryAt(s.messages, key) == Some(Entry(text, false))
  }

  /** An edit made exactly when the addressed entry is open is an edit of that entry. */
  lemma AddressedEdit(s: Session, edit: Edit, key: Key)
    requires MessagesOk(s.messages) && EditFits(s.messages, edit)
    requires edit.Keep? <==> OpenBlock(s, key.channel, key.stepId, key.blockId).None?
    requires !edit.Keep? ==>
      && !edit.Append?
      && OnActiveStep(s, edit.i, key.stepId) && edit.i == StepMessageAt(s.messages, key.stepId)
      && edit.j == BlockAt(s.messages[edit.i].parts, key.channel, key.blockId)
      && s.messages[edit.i].parts[edit.j].completedAt.None?
    ensures if edit.Keep? then forall text :: !OpenAt(s, key, text)
            else Target(s, edit).Block? && OpenAt(s, key, Target(s, edit).text)
  {
    if IsActiveOpenStep(s, key.stepId) {
      AddressedIff(s, key);
    }
  }

  lemma BlockDeltaEntry(s: Session, e: Event, ctx: Context, key: Key)
    requires MessagesOk(s.messages) && e.BlockDelta?
    ensures EntryAt(OnBlockDelta(s, e.channel, e.stepId, e.blockId, e.text).messages, key)
         == Expected(s, EntryAt(s.messages, key), e, ctx, key)
  {
    OkIsAddressable(s.messages);
    var own := Key(e.stepId, e.channel, e.blockId);
    var edit := BlockDeltaIsEdit(s, e.channel, e.stepId, e.blockId, e.text);
    GrownEntry(s, edit, own, key, e.text);
  }

  lemma GrownEntry(s: Session, edit: Edit, own: Key, key: Key, text: Text)
    requires MessagesOk(s.messages) && EditFits(s.messages, edit) && EditKeepsIdentity(s.messages, edit)
    requires edit.Keep? <==> OpenBlock(s, own.channel, own.stepId, own.blockId).None?
    requires !edit.Keep? ==>
      && edit.Replace?
      && OnActiveStep(s, edit.i, own.stepId) && edit.i == StepMessageAt(s.messages, own.stepId)
      && edit.j == BlockAt(s.messages[edit.i].parts, own.channel, own.blockId)
      && s.messages[edit.i].parts[edit.j].Block?
      && s.messages[edit.i].parts[edit.j].completedAt.None?
      && edit.part.Block?
      && EntryOf(edit.part) == Entry(s.messages[edit.i].parts[edit.j].text + text, false)
    ensures EntryAt(ApplyEdit(s.messages, edit), key)
         == if key == own && IsActiveOpenStep(s, key.stepId) then Grown(EntryAt(s.messages, key), text)
            else EntryAt(s.messages, key)
  {
    EditEntry(s.messages, edit, key);
    AddressedEdit(s, edit, own);
    if edit.Keep? && EntryAt(s.messages, own).Some? {
      assert !OpenAt(s, own, EntryAt(s.messages, own).value.text);
    }
  }

  lemma BlockEndEntry(s: Session, channel: Channel, stepId: string, blockId: string, ctx: Context, key: Key)
    requires MessagesOk(s.messages)
    ensures EntryAt(OnBlockEnd(s, channel, stepId, blockId, ctx).messages, key)
         == AfterBlockEnd(s, EntryAt(s.messages, key), Key(stepId, channel, blockId), ctx.unwrap, key)
  {
    OkIsAddressable(s.messages);
    var edit := BlockEndIsEdit(s, channel, stepId, blockId, ctx);
    EndedEntry(s, edit, Key(stepId, channel, blockId), key, ctx);
  }

  lemma EndedEntry(s: Session, edit: Edit, own: Key, key: Key, ctx: Context)
    requires MessagesOk(s.messages) && EditFits(s.messages, edit) && EditKeepsIdentity(s.messages, edit)
    requires edit.Keep? <==> OpenBlock(s, own.channel, own.stepId, own.blockId).None?
    requires !edit.Keep? ==>
      && !edit.Append?
      && OnActiveStep(s, edit.i, own.stepId) && edit.i == StepMessageAt(s.messages, own.stepId)
      && edit.j == BlockAt(s.messages[edit.i].parts, own.channel, own.blockId)
      && s.messages[edit.i].parts[edit.j].completedAt.None?
      && s.messages[edit.i].parts[edit.j].Block?
      && (edit.Remove? <==> s.messages[edit.i].parts[edit.j].text == [])
    requires edit.Replace? ==>
      && edit.part.Block?
      && Target(s, edit).Block?
      && EntryOf(edit.part) == Entry(Unwrapped(own.channel, Target(s, edit).text, ctx.unwrap), true)
    ensures EntryAt(ApplyEdit(s.messages, edit), key)
         == AfterBlockEnd(s, EntryAt(s.messages, key), own, ctx.unwrap, key)
  {
    EditEntry(s.messages, edit, key);
    AddressedEdit(s, edit, own);
    if edit.Keep? && EntryAt(s.messages, own).Some? {
      assert !OpenAt(s, own, EntryAt(s.messages, own).value.text);
    }
  }

  lemma RecoveryEntry(s: Session, e: Event, ctx: Context, t: Session, key: Key)
    requires Coherent(s) && FreshContext(s, ctx) && Reduces(s, e, ctx, t) && e.RecoveryNoticed?
    ensures EntryAt(t.messages, key) == EntryAt(s.messages, key)
  {
    OkIsAddressable(s.messages);
    var edit := RecoveryChange(s, e, ctx, t);
    if edit.Append? {
      RecoveryFits(s.messages[edit.i].parts, e.recovery, ctx);
    }
    NonBlockEdit(s, t, edit, key);
  }

  lemma ToolInputStartEntry(s: Session, e: Event, ctx: Context, t: Session, key: Key)
    requires Coherent(s) && FreshContext(s, ctx) && Reduces(s, e, ctx, t) && e.ToolInputStart?
    ensures EntryAt(t.messages, key) == EntryAt(s.messages, key)
  {
    OkIsAddressable(s.messages);
    var edit := ToolInputStartChange(s, e, ctx, t);
    NonBlockEdit(s, t, edit, key);
  }

  lemma ToolCallEntry(s: Session, e: Event, ctx: Context, t: Session, key: Key)
    requires Coherent(s) && FreshContext(s, ctx) && Reduces(s, e, ctx, t) && e.ToolCall?
    ensures EntryAt(t.messages, key) == EntryAt(s.messages, key)
  {
    OkIsAddressable(s.messages);
    var edit := ToolCallChange(s, e, ctx, t);
    NonBlockEdit(s, t, edit, key);
  }

  lemma ToolInputResolvedEntry(s: Session, e: Event, ctx: Context, t: Session, key: Key)
    requires Coherent(s) && FreshContext(s, ctx) && Reduces(s, e, ctx, t) && e.ToolInputResolved?
    ensures EntryAt(t.messages, key) == EntryAt(s.messages, key)
  {
    OkIsAddressable(s.messages);
    var edit := ToolInputResolvedChange(s, e, ctx, t);
    NonBlockEdit(s, t, edit, key);
  }

  lemma ToolAttemptEntry(s: Session, e: Event, ctx: Context, t: Session, key: Key)
    requires Coherent(s) && FreshContext(s, ctx) && Reduces(s, e, ctx, t) && e.ToolAttempt?
    ensures EntryAt(t.messages, key) == EntryAt(s.messages, key)
  {
    OkIsAddressable(s.messages);
    var edit := ToolAttemptChange(s, e, ctx, t);
    NonBlockEdit(s, t, edit, key);
  }

  lemma ToolOutputDeltaEntry(s: Session, e: Event, ctx: Context, t: Session, key: Key)
    requires Coherent(s) && FreshContext(s, ctx) && Reduces(s, e, ctx, t) && e.ToolOutputDelta?
    ensures EntryAt(t.messages, key) == EntryAt(s.messages, key)
  {
    OkIsAddressable(s.messages);
    var edit := ToolOutputDeltaChange(s, e, ctx, t);
    NonBlockEdit(s, t, edit, key);
  }

  lemma ToolResultEntry(s: Session, e: Event, ctx: Context, t: Session, key: Key)
    requires Coherent(s) && FreshContext(s, ctx) && Reduces(s, e, ctx, t) && e.ToolResultArrived?
    ensures EntryAt(t.messages, key) == EntryAt(s.messages, key)
  {
    OkIsAddressable(s.messages);
    var edit := ToolResultChange(s, e, ctx, t);
    NonBlockEdit(s, t, edit, key);
  }

  lemma ToolEntry(s: Session, e: Event, ctx: Context, t: Session, key: Key)
    requires Coherent(s) && FreshContext(s, ctx) && Reduces(s, e, ctx, t) && IsToolEvent(e)
    ensures EntryAt(t.messages, key) == EntryAt(s.messages, key)
  {
    if e.ToolInputStart? {
      ToolInputStartEntry(s, e, ctx, t, key);
    } else if e.ToolCall? {
      ToolCallEntry(s, e, ctx, t, key);
    } else if e.ToolInputResolved? {
      ToolInputResolvedEntry(s, e, ctx, t, key);
    } else if e.ToolAttempt? {
      ToolAttemptEntry(s, e, ctx, t, key);
    } else if e.ToolOutputDelta? {
      ToolOutputDeltaEntry(s, e, ctx, t, key);
    } else {
      ToolResultEntry(s, e, ctx, t, key);
    }
  }

  lemma BlockEntry(s: Session, e: Event, ctx: Context, t: Session, key: Key)
    requires Coherent(s) && FreshContext(s, ctx) && Reduces(s, e, ctx, t) && IsBlockEvent(e)
    ensures EntryAt(t.messages, key) == Expected(s, EntryAt(s.messages, key), e, ctx, key)
  {
    if e.BlockStart? {
      BlockStartIs(s, e, ctx, t);
      BlockStartEntry(s, e, ctx, key);
    } else if e.BlockDelta? {
      BlockDeltaIs(s, e, ctx, t);
      BlockDeltaEntry(s, e, ctx, key);
    } else {
      BlockEndIs(s, e, ctx, t);
      BlockEndEntry(s, e.channel, e.stepId, e.blockId, ctx, key);
    }
  }

  /* ---------- whole-list changes ---------- */

  /** Parts changed in place: the entry of a key is the image of the entry it had. */
  lemma MappedEntry(before: seq<Part>, after: seq<Part>, key: Key)
    requires |after| == |before| && forall j :: 0 <= j < |before| ==> SameIdentity(before[j], after[j])
    ensures BlockAt(after, key.channel, key.blockId) == BlockAt(before, key.channel, key.blockId)
  {
    assert forall j :: 0 <= j < |before| ==> SameIdentity(before[j], after[j]);
    assert forall j :: 0 <= j < |before| ==>
      (IsBlock(before[j], key.channel, key.blockId) <==> IsBlock(after[j], key.channel, key.blockId));
  }

  lemma MappedStepMessage(before: seq<Message>, after: seq<Message>, stepId: string)
    requires |after| == |before| && forall i :: 0 <= i < |before| ==> SameMessage(before[i], after[i])
    ensures StepMessageAt(after, stepId) == StepMessageAt(before, stepId)
  {
    assert forall i :: 0 <= i < |before| ==> SameMessage(before[i], after[i]);
    assert forall i :: 0 <= i < |before| ==> (IsStepMessage(before[i], stepId) <==> IsStepMessage(after[i], stepId));
  }

  lemma EndEntry(ms: seq<Message>, current: Option<string>, end: End, key: Key)
    ensures EntryAt(EndedMessages(ms, current, end), key) == Closed(EntryAt(ms, key))
  {
    var after := EndedMessages(ms, current, end);
    EndedSame(ms, current, end);
    MappedStepMessage(ms, after, key.stepId);
    var i := StepMessageAt(ms, key.stepId);
    if i < |ms| {
      assert SameMessage(ms[i], after[i]);
      EndedParts(ms, current, end, i);
      MappedEntry(ms[i].parts, after[i].parts, key);
    }
  }

  lemma StepEndEntry(ms: seq<Message>, stepId: string, finishReason: string, now: int, key: Key)
    ensures var before := EntryAt(ms, key);
      EntryAt(StepEndMessages(ms, stepId, finishReason, now), key)
      == if key.stepId == stepId && (finishReason == "interrupted" || finishReason == "error")
            && before.Some? && before.value.text != []
         then Closed(before) else before
  {
    var after := StepEndMessages(ms, stepId, finishReason, now);
    StepEndSame(ms, stepId, finishReason, now);
    MappedStepMessage(ms, after, key.stepId);
    var i := StepMessageAt(ms, key.stepId);
    if i < |ms| {
      assert SameMessage(ms[i], after[i]);
      MappedEntry(ms[i].parts, after[i].parts, key);
    }
  }

  lemma AppendMessagesEntry(ms: seq<Message>, more: seq<Message>, key: Key)
    requires forall k :: 0 <= k < |more| ==> PartsOf(more[k]) == []
    ensures EntryAt(ms + more, key) == EntryAt(ms, key)
  {
    var i, k := StepMessageAt(ms, key.stepId), StepMessageAt(ms + more, key.stepId);
    if i < |ms| {
      assert (ms + more)[i] == ms[i];
      assert k == i;
    } else if k < |ms + more| {
      assert k >= |ms|;
      assert PartsOf((ms + more)[k]) == [];
    }
  }

  lemma CompactMoves(ms: seq<Message>, summary: string, tailStartId: string, ctx: Context, key: Key)
    ensures EntryAt(Compacted(ms, summary, tailStartId, ctx), key) == EntryAt(ms, key)
  {
    var upTo := MessageAt(ms, tailStartId);
    var flagged := FlagUpTo(ms, upTo);
    FlaggedEntry(ms, flagged, key);
    var c := CompactionAt(ms);
    if c < |ms| {
      RefreshedEntry(flagged, c, Refresh(flagged[c], summary, tailStartId, ctx.now), key);
    } else {
      assert flagged == flagged[..upTo] + flagged[upTo..];
      InsertedEntry(flagged[..upTo], CompactionMessage(summary, tailStartId, ctx), flagged[upTo..], key);
    }
  }

  lemma FlaggedEntry(before: seq<Message>, after: seq<Message>, key: Key)
    requires |after| == |before|
    requires forall i :: 0 <= i < |before| ==> after[i] == Flag(before[i]) || after[i] == before[i]
    ensures EntryAt(after, key) == EntryAt(before, key)
  {
    assert forall i :: 0 <= i < |before| ==>
      (IsStepMessage(before[i], key.stepId) <==> IsStepMessage(after[i], key.stepId));
    assert StepMessageAt(before, key.stepId) == StepMessageAt(after, key.stepId);
  }

  lemma RefreshedEntry(ms: seq<Message>, c: nat, user: Message, key: Key)
    requires c < |ms| && ms[c].User? && user.User?
    ensures EntryAt(ms[c := user], key) == EntryAt(ms, key)
  {
    var after := ms[c := user];
    assert forall i :: 0 <= i < |ms| ==> (IsStepMessage(ms[i], key.stepId) <==> IsStepMessage(after[i], key.stepId));
    assert StepMessageAt(ms, key.stepId) == StepMessageAt(after, key.stepId);
  }

  lemma InsertedEntry(front: seq<Message>, user: Message, back: seq<Message>, key: Key)
    requires user.User?
    ensures EntryAt(front + [user] + back, key) == EntryAt(front + back, key)
  {
    var before, after := front + back, front + [user] + back;
    var i, k := StepMessageAt(before, key.stepId), StepMessageAt(after, key.stepId);
    assert forall h :: 0 <= h < |front| ==> after[h] == before[h];
    assert forall h :: |front| <= h < |before| ==> after[h + 1] == before[h];
    if k < |after| {
      assert before[if k < |front| then k else k - 1] == after[k];
    }
    if i < |before| {
      assert after[if i < |front| then i else i + 1] == before[i];
    }
    assert k == if i < |front| then i else i + 1;
  }

  lemma LifecycleEntry(s: Session, l: LifecycleEvent, ctx: Context, key: Key)
    ensures EntryAt(OnLifecycle(s, l, ctx.now).messages, key)
         == Expected(s, EntryAt(s.messages, key), Lifecycle(l), ctx, key)
  {
    if l.ExecutionEnd? {
      EndEntry(s.messages, s.currentAssistantMessageId, l.end, key);
    }
  }

  lemma MessageEventEntry(s: Session, e: Event, ctx: Context, t: Session, key: Key)
    requires Admissible(s, e, ctx) && Reduces(s, e, ctx, t)
    requires e.MessagesCommitted? || e.SystemNotice? || e.Compact?
    ensures EntryAt(t.messages, key) == EntryAt(s.messages, key)
  {
    if e.MessagesCommitted? {
      CommitIs(s, e, ctx, t);
      NewMessagesAre(e.committed, Ids(s.messages));
      AppendMessagesEntry(s.messages, NewMessages(e.committed, Ids(s.messages)), key);
    } else if e.SystemNotice? {
      NoticeIs(s, e, ctx, t);
      AppendMessagesEntry(s.messages, [NoticeMessage(s, e.notice, ctx)], key);
    } else {
      CompactIs(s, e, ctx, t);
      CompactMoves(s.messages, e.summary, e.tailStartId, ctx, key);
    }
  }

  /** Events that are not about blocks, step ends or executions ask nothing of the map. */
  lemma NothingExpected(s: Session, before: Option<Entry>, e: Event, ctx: Context, key: Key)
    requires !IsBlockEvent(e) && !e.StepEnd? && !e.Lifecycle?
    ensures Expected(s, before, e, ctx, key) == before
  {
  }

  lemma StepStartEntry(s: Session, stepId: string, number: int, ctx: Context, key: Key)
    ensures EntryAt(OnStepStart(s, stepId, number, ctx).messages, key) == EntryAt(s.messages, key)
  {
    var t := OnStepStart(s, stepId, number, ctx);
    if t != s {
      AppendMessagesEntry(s.messages, [t.messages[|s.messages|]], key);
    }
  }

  lemma StepEndedEntry(s: Session, stepId: string, number: int, finishReason: string, usage: Usage, now: int, key: Key)
    ensures EntryAt(OnStepEnd(s, stepId, number, finishReason, usage, now).messages, key)
         == AfterStepEnd(s, EntryAt(s.messages, key), stepId, number, finishReason, key)
  {
    if StepEndAccepted(s, stepId, number) {
      StepEndEntry(s.messages, stepId, finishReason, now, key);
    }
  }

  lemma QuietEntry(s: Session, e: Event, ctx: Context, t: Session, key: Key)
    requires Reduces(s, e, ctx, t) && (e.StepStart? || e.ExecutionError? || e.StopRequested? || IsQuietEvent(e))
    ensures EntryAt(t.messages, key) == EntryAt(s.messages, key)
  {
    if e.StepStart? {
      StepStartIs(s, e, ctx, t);
      StepStartEntry(s, e.stepId, e.number, ctx, key);
    } else if e.ExecutionError? {
      ErrorIs(s, e, ctx, t);
    } else if e.StopRequested? {
      StopIs(s, e, ctx, t);
    } else {
      QuietIs(s, e, ctx, t);
    }
  }

  lemma BulkEntry(s: Session, e: Event, ctx: Context, t: Session, key: Key)
    requires Admissible(s, e, ctx) && Reduces(s, e, ctx, t) && !IsPartEvent(e)
    ensures EntryAt(t.messages, key) == Expected(s, EntryAt(s.messages, key), e, ctx, key)
  {
    if e.Lifecycle? {
      LifecycleIs(s, e, ctx, t);
      LifecycleEntry(s, e.lifecycle, ctx, key);
    } else if e.StepEnd? {
      StepEndIs(s, e, ctx, t);
      StepEndedEntry(s, e.stepId, e.number, e.finishReason, e.usage, ctx.now, key);
    } else {
      NothingExpected(s, EntryAt(s.messages, key), e, ctx, key);
      if e.MessagesCommitted? || e.SystemNotice? || e.Compact? {
        MessageEventEntry(s, e, ctx, t, key);
      } else {
        QuietEntry(s, e, ctx, t, key);
      }
    }
  }

  /**
   The refinement: after any event, every key holds what the map operation of that event
   prescribes. In particular an event about one key leaves all other keys alone.
   */
  lemma BlocksRefineMap(s: Session, e: Event, ctx: Context, t: Session, key: Key)
    requires Coherent(s) && Admissible(s, e, ctx) && Reduces(s, e, ctx, t)
    ensures EntryAt(t.messages, key) == Expected(s, EntryAt(s.messages, key), e, ctx, key)
  {
    if IsBlockEvent(e) {
      BlockEntry(s, e, ctx, t, key);
    } else if IsPartEvent(e) {
      NothingExpected(s, EntryAt(s.messages, key), e, ctx, key);
      if IsToolEvent(e) {
        ToolEntry(s, e, ctx, t, key);
      } else {
        RecoveryEntry(s, e, ctx, t, key);
      }
    } else {
      BulkEntry(s, e, ctx, t, key);
    }
  }
}
