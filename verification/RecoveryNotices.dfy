/** `upsertRecoveryNoticePart` as it runs: one mapping pass that remembers whether it found the notice. */
module RecoveryNotices {
  import opened SessionTypes
  import opened Messages
  import opened Reducer

  function Merged(parts: seq<Part>, next: Part): seq<Part>
    requires next.Recovery?
  {
    MapParts(parts, next.id, (p: Part) => MergeRecovery(p, next))
  }

  predicate HasNotice(parts: seq<Part>, id: PartId) {
    exists j :: 0 <= j < |parts| && parts[j].Recovery? && parts[j].id == id
  }

  method MergeParts(parts: seq<Part>, next: Part) returns (merged: seq<Part>, found: bool)
    requires next.Recovery?
    ensures merged == Merged(parts, next)
    ensures found <==> HasNotice(parts, next.id)
  {
    merged, found := [], false;
    for j := 0 to |parts|
      invariant merged == Merged(parts, next)[..j]
      invariant found <==> exists k :: 0 <= k < j && parts[k].Recovery? && parts[k].id == next.id
    {
      var part := parts[j];
      if part.Recovery? && part.id == next.id {
        found := true;
        part := MergeRecovery(part, next);
      }
      merged := merged + [part];
    }
  }

  predicate FoundIn(ms: seq<Message>, count: nat, messageId: string, id: PartId)
    requires count <= |ms|
  {
    exists i :: 0 <= i < count && HasRecovery(ms[i], messageId, id)
  }

  lemma FoundStep(ms: seq<Message>, i: nat, messageId: string, id: PartId)
    requires i < |ms|
    ensures FoundIn(ms, i + 1, messageId, id) <==> FoundIn(ms, i, messageId, id) || HasRecovery(ms[i], messageId, id)
  {
  }

  /** Merge into an existing notice of this id, or append the new one. */
  method UpsertRecoveryNotice(messages: seq<Message>, messageId: string, next: Part) returns (result: seq<Message>)
    requires next.Recovery?
    ensures result == UpsertRecovery(messages, messageId, next)
  {
    var found := false;
    result := [];
    ghost var target := UpdatePart(messages, Location(messageId, next.id), (p: Part) => MergeRecovery(p, next));
    for i := 0 to |messages|
      invariant |result| == i && forall k :: 0 <= k < i ==> result[k] == target[k]
      invariant found <==> FoundIn(messages, i, messageId, next.id)
    {
      var message := messages[i];
      FoundStep(messages, i, messageId, next.id);
      if message.Assistant? && message.id == messageId {
        var parts, here := MergeParts(message.parts, next);
        found := found || here;
        message := message.(parts := parts);
      }
      result := result + [message];
    }
    assert result == target;
    if !found {
      result := AppendPart(messages, messageId, next);
    }
  }
}
