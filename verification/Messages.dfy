/**
 Finding and changing parts inside the message list. The reducer addresses parts by
 message id and part id; the lemmas at the end show that such an update touches
 exactly one position.
 */
module Messages {
  import opened Prelude
  import opened SessionTypes

  datatype Location = Location(messageId: string, partId: PartId)

  /* ---------- lookup ---------- */

  /** Index of the first message with this id, or `|ms|`. */
  function MessageAt(ms: seq<Message>, id: string): (i: nat)
    ensures i <= |ms|
    ensures i < |ms| ==> ms[i].id == id
    ensures forall k :: 0 <= k < i ==> ms[k].id != id
  {
    if ms == [] || ms[0].id == id then 0 else 1 + MessageAt(ms[1..], id)
  }

  predicate IsStepMessage(m: Message, stepId: string) {
    m.Assistant? && m.stepId == stepId
  }

  /** Index of the first Assistant message of this step, or `|ms|`. */
  function StepMessageAt(ms: seq<Message>, stepId: string): (i: nat)
    ensures i <= |ms|
    ensures i < |ms| ==> IsStepMessage(ms[i], stepId)
    ensures forall k :: 0 <= k < i ==> !IsStepMessage(ms[k], stepId)
  {
    if ms == [] || IsStepMessage(ms[0], stepId) then 0 else 1 + StepMessageAt(ms[1..], stepId)
  }

  function PartAt(parts: seq<Part>, id: PartId): (i: nat)
    ensures i <= |parts|
    ensures i < |parts| ==> parts[i].id == id
    ensures forall k :: 0 <= k < i ==> parts[k].id != id
  {
    if parts == [] || parts[0].id == id then 0 else 1 + PartAt(parts[1..], id)
  }

  predicate IsBlock(p: Part, channel: Channel, blockId: string) {
    p.Block? && p.channel == channel && p.blockId == blockId
  }

  function BlockAt(parts: seq<Part>, channel: Channel, blockId: string): (i: nat)
    ensures i <= |parts|
    ensures i < |parts| ==> IsBlock(parts[i], channel, blockId)
    ensures forall k :: 0 <= k < i ==> !IsBlock(parts[k], channel, blockId)
  {
    if parts == [] || IsBlock(parts[0], channel, blockId) then 0 else 1 + BlockAt(parts[1..], channel, blockId)
  }

  predicate IsToolCall(p: Part, toolCallId: string) {
    p.Tool? && p.toolCallId == toolCallId
  }

  function ToolAt(parts: seq<Part>, toolCallId: string): (i: nat)
    ensures i <= |parts|
    ensures i < |parts| ==> IsToolCall(parts[i], toolCallId)
    ensures forall k :: 0 <= k < i ==> !IsToolCall(parts[k], toolCallId)
  {
    if parts == [] || IsToolCall(parts[0], toolCallId) then 0 else 1 + ToolAt(parts[1..], toolCallId)
  }

  predicate IsUnsettledCall(p: Part, toolCallId: string) {
    IsToolCall(p, toolCallId) && !p.state.ToolSettled?
  }

  function UnsettledAt(parts: seq<Part>, toolCallId: string): (i: nat)
    ensures i <= |parts|
    ensures i < |parts| ==> IsUnsettledCall(parts[i], toolCallId)
    ensures forall k :: 0 <= k < i ==> !IsUnsettledCall(parts[k], toolCallId)
  {
    if parts == [] || IsUnsettledCall(parts[0], toolCallId) then 0 else 1 + UnsettledAt(parts[1..], toolCallId)
  }

  function PartsOf(m: Message): seq<Part> {
    if m.Assistant? then m.parts else []
  }

  function FindBlock(ms: seq<Message>, stepId: string, channel: Channel, blockId: string): Option<Location> {
    var i := StepMessageAt(ms, stepId);
    if i == |ms| then None
    else
      var j := BlockAt(ms[i].parts, channel, blockId);
      if j == |ms[i].parts| then None else Some(Location(ms[i].id, ms[i].parts[j].id))
  }

  function GetPart(ms: seq<Message>, at: Location): Option<Part> {
    var i := MessageAt(ms, at.messageId);
    if i == |ms| then None
    else
      var parts := PartsOf(ms[i]);
      var j := PartAt(parts, at.partId);
      if j == |parts| then None else Some(parts[j])
  }

  /** JavaScript truthiness of an optional id. */
  predicate Truthy(id: Option<string>) {
    id.Some? && id.value != ""
  }

  function FindCurrentTool(ms: seq<Message>, current: Option<string>, toolCallId: string): Option<Location> {
    if !Truthy(current) then None
    else
      var i := MessageAt(ms, current.value);
      if i == |ms| then None
      else
        var parts := PartsOf(ms[i]);
        var j := ToolAt(parts, toolCallId);
        if j == |parts| then None else Some(Location(current.value, parts[j].id))
  }

  function FindLatestUnsettled(ms: seq<Message>, toolCallId: string): Option<Location> {
    if ms == [] then None
    else
      var m := ms[|ms| - 1];
      var parts := PartsOf(m);
      var j := UnsettledAt(parts, toolCallId);
      if j < |parts| then Some(Location(m.id, parts[j].id))
      else FindLatestUnsettled(ms[..|ms| - 1], toolCallId)
  }

  /** `findLatestIncompleteToolPartByCallId`: scan backwards, stop at the first hit. */
  method ScanLatestUnsettled(ms: seq<Message>, toolCallId: string) returns (found: Option<Location>)
    ensures found == FindLatestUnsettled(ms, toolCallId)
  {
    var index := |ms|;
    assert ms[..index] == ms;
    while index > 0
      invariant 0 <= index <= |ms|
      invariant FindLatestUnsettled(ms, toolCallId) == FindLatestUnsettled(ms[..index], toolCallId)
    {
      index := index - 1;
      assert ms[..index + 1][..index] == ms[..index];
      var parts := PartsOf(ms[index]);
      var j := UnsettledAt(parts, toolCallId);
      if j < |parts| {
        return Some(Location(ms[index].id, parts[j].id));
      }
    }
    return None;
  }

  function FindTool(ms: seq<Message>, current: Option<string>, toolCallId: string): Option<Location> {
    var here := FindCurrentTool(ms, current, toolCallId);
    if here.Some? then here else FindLatestUnsettled(ms, toolCallId)
  }

  /** The tool part at a location, if the part there is a tool. */
  function GetTool(ms: seq<Message>, at: Location): Option<Part> {
    var part := GetPart(ms, at);
    if part.Some? && part.value.Tool? then part else None
  }

  /* ---------- updates ---------- */

  function MapParts(parts: seq<Part>, id: PartId, f: Part -> Part): (r: seq<Part>)
    ensures |r| == |parts|
    ensures forall j :: 0 <= j < |parts| ==> r[j] == if parts[j].id == id then f(parts[j]) else parts[j]
  {
    seq(|parts|, j requires 0 <= j < |parts| => if parts[j].id == id then f(parts[j]) else parts[j])
  }

  function UpdatePart(ms: seq<Message>, at: Location, f: Part -> Part): (r: seq<Message>)
    ensures |r| == |ms|
    ensures forall i :: 0 <= i < |ms| ==>
      r[i] == if ms[i].id == at.messageId && ms[i].Assistant?
              then ms[i].(parts := MapParts(ms[i].parts, at.partId, f)) else ms[i]
  {
    seq(|ms|, i requires 0 <= i < |ms| =>
      if ms[i].id == at.messageId && ms[i].Assistant?
      then ms[i].(parts := MapParts(ms[i].parts, at.partId, f)) else ms[i])
  }

  function Without(parts: seq<Part>, id: PartId): seq<Part> {
    if parts == [] then []
    else (if parts[0].id == id then [] else [parts[0]]) + Without(parts[1..], id)
  }

  function RemovePart(ms: seq<Message>, at: Location): (r: seq<Message>)
    ensures |r| == |ms|
    ensures forall i :: 0 <= i < |ms| ==>
      r[i] == if ms[i].id == at.messageId && ms[i].Assistant?
              then ms[i].(parts := Without(ms[i].parts, at.partId)) else ms[i]
  {
    seq(|ms|, i requires 0 <= i < |ms| =>
      if ms[i].id == at.messageId && ms[i].Assistant?
      then ms[i].(parts := Without(ms[i].parts, at.partId)) else ms[i])
  }

  function AppendPart(ms: seq<Message>, messageId: string, part: Part): (r: seq<Message>)
    ensures |r| == |ms|
    ensures forall i :: 0 <= i < |ms| ==>
      r[i] == if ms[i].id == messageId && ms[i].Assistant?
              then ms[i].(parts := ms[i].parts + [part]) else ms[i]
  {
    seq(|ms|, i requires 0 <= i < |ms| =>
      if ms[i].id == messageId && ms[i].Assistant?
      then ms[i].(parts := ms[i].parts + [part]) else ms[i])
  }

  /* ---------- identity ---------- */

  /** No other message shares the id of an Assistant message. */
  ghost predicate DistinctMessages(ms: seq<Message>) {
    forall i, j :: 0 <= i < |ms| && 0 <= j < |ms| && i != j && ms[i].Assistant? ==> ms[i].id != ms[j].id
  }

  ghost predicate DistinctParts(parts: seq<Part>) {
    forall i, j :: 0 <= i < j < |parts| ==> parts[i].id != parts[j].id
  }

  /** Parts can be addressed by (message id, part id) without ambiguity. */
  ghost predicate Addressable(ms: seq<Message>) {
    && DistinctMessages(ms)
    && forall i :: 0 <= i < |ms| && ms[i].Assistant? ==> DistinctParts(ms[i].parts)
  }

  /** One change to one Assistant message. */
  datatype Edit =
    | Keep
    | Append(i: nat, part: Part)
    | Replace(i: nat, j: nat, part: Part)
    | Remove(i: nat, j: nat)

  ghost predicate EditFits(ms: seq<Message>, e: Edit) {
    match e
    case Keep => true
    case Append(i, _) => i < |ms| && ms[i].Assistant?
    case Replace(i, j, _) => i < |ms| && ms[i].Assistant? && j < |ms[i].parts|
    case Remove(i, j) => i < |ms| && ms[i].Assistant? && j < |ms[i].parts|
  }

  ghost function EditedParts(parts: seq<Part>, e: Edit): seq<Part>
    requires !e.Keep? && (e.Append? || e.j < |parts|)
  {
    match e
    case Append(_, part) => parts + [part]
    case Replace(_, j, part) => parts[j := part]
    case Remove(_, j) => parts[..j] + parts[j + 1..]
  }

  ghost function ApplyEdit(ms: seq<Message>, e: Edit): seq<Message>
    requires EditFits(ms, e)
  {
    if e.Keep? then ms else ms[e.i := ms[e.i].(parts := EditedParts(ms[e.i].parts, e))]
  }

  lemma MessageAtIs(ms: seq<Message>, i: nat)
    requires DistinctMessages(ms) && i < |ms| && ms[i].Assistant?
    ensures MessageAt(ms, ms[i].id) == i
  {
  }

  lemma PartAtIs(parts: seq<Part>, j: nat)
    requires DistinctParts(parts) && j < |parts|
    ensures PartAt(parts, parts[j].id) == j
  {
  }

  /** Reading back the part at an address gives the part found there. */
  lemma GetPartIs(ms: seq<Message>, i: nat, j: nat)
    requires Addressable(ms) && i < |ms| && ms[i].Assistant? && j < |ms[i].parts|
    ensures GetPart(ms, Location(ms[i].id, ms[i].parts[j].id)) == Some(ms[i].parts[j])
  {
    MessageAtIs(ms, i);
    PartAtIs(ms[i].parts, j);
  }

  /** Updating by address replaces exactly one part. */
  lemma UpdateIsReplace(ms: seq<Message>, i: nat, j: nat, f: Part -> Part)
    requires Addressable(ms) && i < |ms| && ms[i].Assistant? && j < |ms[i].parts|
    ensures UpdatePart(ms, Location(ms[i].id, ms[i].parts[j].id), f)
         == ApplyEdit(ms, Replace(i, j, f(ms[i].parts[j])))
  {
    assert MapParts(ms[i].parts, ms[i].parts[j].id, f) == ms[i].parts[j := f(ms[i].parts[j])];
  }

  lemma {:induction false} WithoutIs(parts: seq<Part>, j: nat)
    requires DistinctParts(parts) && j < |parts|
    ensures Without(parts, parts[j].id) == parts[..j] + parts[j + 1..]
  {
    if j == 0 {
      WithoutNone(parts[1..], parts[0].id);
    } else {
      var rest := parts[1..];
      assert forall a, b :: 0 <= a < b < |rest| ==> rest[a] == parts[a + 1] && rest[b] == parts[b + 1];
      WithoutIs(rest, j - 1);
      assert parts[..j] == [parts[0]] + rest[..j - 1];
      assert parts[j + 1..] == rest[j..];
    }
  }

  lemma {:induction false} WithoutNone(parts: seq<Part>, id: PartId)
    requires forall j :: 0 <= j < |parts| ==> parts[j].id != id
    ensures Without(parts, id) == parts
  {
    if parts != [] {
      WithoutNone(parts[1..], id);
    }
  }

  /** Removing by address removes exactly one part. */
  lemma RemoveIsRemove(ms: seq<Message>, i: nat, j: nat)
    requires Addressable(ms) && i < |ms| && ms[i].Assistant? && j < |ms[i].parts|
    ensures RemovePart(ms, Location(ms[i].id, ms[i].parts[j].id)) == ApplyEdit(ms, Remove(i, j))
  {
    WithoutIs(ms[i].parts, j);
  }

  lemma AppendIsAppend(ms: seq<Message>, i: nat, part: Part)
    requires DistinctMessages(ms) && i < |ms| && ms[i].Assistant?
    ensures AppendPart(ms, ms[i].id, part) == ApplyEdit(ms, Append(i, part))
  {
  }

  /** A tool lookup that succeeds names a real tool part of an Assistant message. */
  lemma {:induction false} FindLatestUnsettledIs(ms: seq<Message>, toolCallId: string) returns (i: nat, j: nat)
    requires FindLatestUnsettled(ms, toolCallId).Some?
    ensures i < |ms| && ms[i].Assistant? && j < |ms[i].parts|
    ensures IsUnsettledCall(ms[i].parts[j], toolCallId)
    ensures FindLatestUnsettled(ms, toolCallId) == Some(Location(ms[i].id, ms[i].parts[j].id))
  {
    var m := ms[|ms| - 1];
    var parts := PartsOf(m);
    if UnsettledAt(parts, toolCallId) < |parts| {
      i, j := |ms| - 1, UnsettledAt(parts, toolCallId);
    } else {
      i, j := FindLatestUnsettledIs(ms[..|ms| - 1], toolCallId);
    }
  }

  lemma FindToolIs(ms: seq<Message>, current: Option<string>, toolCallId: string) returns (i: nat, j: nat)
    requires FindTool(ms, current, toolCallId).Some?
    ensures i < |ms| && ms[i].Assistant? && j < |ms[i].parts|
    ensures IsToolCall(ms[i].parts[j], toolCallId)
    ensures FindTool(ms, current, toolCallId) == Some(Location(ms[i].id, ms[i].parts[j].id))
  {
    if FindCurrentTool(ms, current, toolCallId).Some? {
      i := MessageAt(ms, current.value);
      j := ToolAt(ms[i].parts, toolCallId);
    } else {
      i, j := FindLatestUnsettledIs(ms, toolCallId);
    }
  }
}
