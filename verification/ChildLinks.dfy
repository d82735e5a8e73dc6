/** Direct child Sessions: the link list, its capacity, and the latest link per child. */
module ChildLinks {
  import opened Utf8
  import opened SessionTypes

  const MAX_DIRECT_CHILD_SESSIONS: nat := 64
  const MAX_TITLE_LENGTH: nat := 80

  const AGENT_NAMES := {"analyst", "build", "explore", "librarian"}
  const PROFILES := {"deep", "fast"}
  const LINK_STATUSES := {
    "linked", "running", "waiting_for_human", "cancelling", "completed",
    "failed", "timed_out", "cancelled", "interrupted"}

  /* ---------- latest link per child ---------- */

  predicate Supersedes(link: ChildLink, current: ChildLink, weight: Collation) {
    || link.createdAt > current.createdAt
    || (link.createdAt == current.createdAt && weight(link.parentToolCallId) > weight(current.parentToolCallId))
  }

  /** Index of the entry for a child in insertion order, or `|entries|`. */
  function ChildAt(entries: seq<ChildLink>, child: string): (i: nat)
    ensures i <= |entries|
    ensures i < |entries| ==> entries[i].childSessionId == child
    ensures forall k :: 0 <= k < i ==> entries[k].childSessionId != child
  {
    if entries == [] || entries[0].childSessionId == child then 0 else 1 + ChildAt(entries[1..], child)
  }

  /** One loop step: an insertion-ordered map from child to link, kept as its list of values. */
  function Offer(entries: seq<ChildLink>, link: ChildLink, weight: Collation): seq<ChildLink> {
    var i := ChildAt(entries, link.childSessionId);
    if i == |entries| then entries + [link]
    else if Supersedes(link, entries[i], weight) then entries[i := link]
    else entries
  }

  function LatestEntries(links: seq<ChildLink>, weight: Collation): seq<ChildLink> {
    if links == [] then []
    else Offer(LatestEntries(links[..|links| - 1], weight), links[|links| - 1], weight)
  }

  function InsertByChild(link: ChildLink, sorted: seq<ChildLink>, weight: Collation): seq<ChildLink> {
    if sorted == [] || weight(link.childSessionId) < weight(sorted[0].childSessionId) then [link] + sorted
    else [sorted[0]] + InsertByChild(link, sorted[1..], weight)
  }

  function SortByChild(links: seq<ChildLink>, weight: Collation): seq<ChildLink> {
    if links == [] then []
    else InsertByChild(links[|links| - 1], SortByChild(links[..|links| - 1], weight), weight)
  }

  function LatestLinks(links: seq<ChildLink>, weight: Collation): seq<ChildLink> {
    SortByChild(LatestEntries(links, weight), weight)
  }

  /** `selectLatestDirectChildLinks`: fill the map in one pass, then sort its values. */
  method SelectLatestLinks(links: seq<ChildLink>, weight: Collation) returns (latest: seq<ChildLink>)
    ensures latest == LatestLinks(links, weight)
  {
    var entries: seq<ChildLink> := [];
    for k := 0 to |links|
      invariant entries == LatestEntries(links[..k], weight)
    {
      var link := links[k];
      assert links[..k + 1][..k] == links[..k];
      var i := ChildAt(entries, link.childSessionId);
      if i == |entries| {
        entries := entries + [link];
      } else if Supersedes(link, entries[i], weight) {
        entries := entries[i := link];
      }
    }
    assert links[..|links|] == links;
    latest := [];
    for k := 0 to |entries|
      invariant latest == SortByChild(entries[..k], weight)
    {
      assert entries[..k + 1][..k] == entries[..k];
      latest := InsertByChild(entries[k], latest, weight);
    }
    assert entries[..|entries|] == entries;
  }

  ghost function Children(links: seq<ChildLink>): set<string> {
    set l | l in links :: l.childSessionId
  }

  ghost predicate DistinctChildren(entries: seq<ChildLink>) {
    forall i, j :: 0 <= i < j < |entries| ==> entries[i].childSessionId != entries[j].childSessionId
  }

  /** No link of the same child supersedes `e`. */
  ghost predicate Unbeaten(e: ChildLink, links: seq<ChildLink>, weight: Collation) {
    forall k :: 0 <= k < |links| && links[k].childSessionId == e.childSessionId ==> !Supersedes(links[k], e, weight)
  }

  /** `entries` holds exactly one link for each child among `links`, and no link of that child supersedes it. */
  ghost predicate IsLatestPerChild(entries: seq<ChildLink>, links: seq<ChildLink>, weight: Collation) {
    && DistinctChildren(entries)
    && Children(entries) == Children(links)
    && forall e :: e in entries ==> e in links && Unbeaten(e, links, weight)
  }

  lemma ChildrenAppend(front: seq<ChildLink>, link: ChildLink)
    ensures Children(front + [link]) == Children(front) + {link.childSessionId}
  {
  }

  lemma ChildrenReplace(entries: seq<ChildLink>, i: nat, link: ChildLink)
    requires i < |entries| && entries[i].childSessionId == link.childSessionId
    ensures Children(entries[i := link]) == Children(entries)
  {
    var after := entries[i := link];
    forall c
      ensures c in Children(after) <==> c in Children(entries)
    {
      if c in Children(entries) {
        var k :| 0 <= k < |entries| && entries[k].childSessionId == c;
        assert after[k].childSessionId == c && after[k] in after;
      }
      if c in Children(after) {
        var k :| 0 <= k < |after| && after[k].childSessionId == c;
        assert entries[k].childSessionId == c && entries[k] in entries;
      }
    }
  }

  /** Offering one more link keeps an unbeaten entry for every child. */
  lemma OfferCorrect(entries: seq<ChildLink>, front: seq<ChildLink>, link: ChildLink, weight: Collation)
    requires IsLatestPerChild(entries, front, weight)
    ensures IsLatestPerChild(Offer(entries, link, weight), front + [link], weight)
  {
    var i := ChildAt(entries, link.childSessionId);
    var after, links := Offer(entries, link, weight), front + [link];
    ChildrenAppend(front, link);
    if i == |entries| {
      ChildrenAppend(entries, link);
      forall k | 0 <= k < |front|
        ensures front[k].childSessionId != link.childSessionId
      {
        assert front[k].childSessionId in Children(front);
      }
    } else if Supersedes(link, entries[i], weight) {
      ChildrenReplace(entries, i, link);
      assert entries[i] in entries;
    } else {
      assert entries[i].childSessionId in Children(entries);
    }
    forall e | e in after
      ensures e in links && Unbeaten(e, links, weight)
    {
      if e != link {
        assert e in entries && Unbeaten(e, front, weight);
        var k :| 0 <= k < |after| && after[k] == e;
        assert e.childSessionId == link.childSessionId ==> k == i;
      } else if i < |entries| && Supersedes(link, entries[i], weight) {
        assert Unbeaten(entries[i], front, weight);
      }
    }
  }

  lemma {:induction false} LatestEntriesCorrect(links: seq<ChildLink>, weight: Collation)
    ensures IsLatestPerChild(LatestEntries(links, weight), links, weight)
  {
    if links != [] {
      var front, link := links[..|links| - 1], links[|links| - 1];
      assert links == front + [link];
      LatestEntriesCorrect(front, weight);
      OfferCorrect(LatestEntries(front, weight), front, link, weight);
    }
  }

  /** Strictly increasing collation weight of the child id. */
  ghost predicate SortedByChild(entries: seq<ChildLink>, weight: Collation) {
    forall i, j :: 0 <= i < j < |entries| ==> weight(entries[i].childSessionId) < weight(entries[j].childSessionId)
  }

  ghost predicate DistinctWeights(entries: seq<ChildLink>, weight: Collation) {
    forall i, j :: 0 <= i < j < |entries| ==> weight(entries[i].childSessionId) != weight(entries[j].childSessionId)
  }

  lemma {:induction false} InsertMembers(link: ChildLink, sorted: seq<ChildLink>, weight: Collation)
    ensures multiset(InsertByChild(link, sorted, weight)) == multiset(sorted) + multiset{link}
  {
    if sorted != [] && !(weight(link.childSessionId) < weight(sorted[0].childSessionId)) {
      InsertMembers(link, sorted[1..], weight);
      assert sorted == [sorted[0]] + sorted[1..];
    }
  }

  lemma {:induction false} SortMembers(links: seq<ChildLink>, weight: Collation)
    ensures multiset(SortByChild(links, weight)) == multiset(links)
  {
    if links != [] {
      var front, link := links[..|links| - 1], links[|links| - 1];
      assert links == front + [link];
      SortMembers(front, weight);
      InsertMembers(link, SortByChild(front, weight), weight);
    }
  }

  lemma {:induction false} InsertSorted(link: ChildLink, sorted: seq<ChildLink>, weight: Collation)
    requires SortedByChild(sorted, weight)
    requires forall i :: 0 <= i < |sorted| ==> weight(sorted[i].childSessionId) != weight(link.childSessionId)
    ensures SortedByChild(InsertByChild(link, sorted, weight), weight)
  {
    if sorted != [] && !(weight(link.childSessionId) < weight(sorted[0].childSessionId)) {
      var rest := sorted[1..];
      InsertSorted(link, rest, weight);
      InsertMembers(link, rest, weight);
      var r := InsertByChild(link, rest, weight);
      forall j | 0 <= j < |r|
        ensures weight(sorted[0].childSessionId) < weight(r[j].childSessionId)
      {
        assert r[j] in multiset(r);
        assert r[j] == link || r[j] in rest;
      }
    }
  }

  lemma {:induction false} SortSorted(links: seq<ChildLink>, weight: Collation)
    requires DistinctWeights(links, weight)
    ensures SortedByChild(SortByChild(links, weight), weight)
  {
    if links != [] {
      var front, link := links[..|links| - 1], links[|links| - 1];
      SortSorted(front, weight);
      SortMembers(front, weight);
      var sorted := SortByChild(front, weight);
      forall i | 0 <= i < |sorted|
        ensures weight(sorted[i].childSessionId) != weight(link.childSessionId)
      {
        assert sorted[i] in multiset(front);
      }
      InsertSorted(link, sorted, weight);
    }
  }

  lemma SameMembers(a: seq<ChildLink>, b: seq<ChildLink>)
    requires multiset(a) == multiset(b)
    ensures |a| == |b| && forall e :: e in a <==> e in b
  {
    assert |multiset(a)| == |a| && |multiset(b)| == |b|;
    forall e ensures e in a <==> e in b {
      assert e in multiset(a) <==> e in multiset(b);
    }
  }

  lemma {:induction false} DistinctCount(entries: seq<ChildLink>)
    requires DistinctChildren(entries)
    ensures |Children(entries)| == |entries|
  {
    if entries != [] {
      var front, last := entries[..|entries| - 1], entries[|entries| - 1];
      assert entries == front + [last];
      DistinctCount(front);
      assert Children(entries) == Children(front) + {last.childSessionId};
      assert last.childSessionId !in Children(front);
    }
  }

  lemma {:induction false} CountDistinct(entries: seq<ChildLink>)
    requires |Children(entries)| == |entries|
    ensures DistinctChildren(entries)
  {
    if entries != [] {
      var front, last := entries[..|entries| - 1], entries[|entries| - 1];
      assert entries == front + [last];
      assert Children(entries) == Children(front) + {last.childSessionId};
      ChildrenBound(front);
      CountDistinct(front);
      assert last.childSessionId !in Children(front);
      forall i | 0 <= i < |front|
        ensures front[i].childSessionId != last.childSessionId
      {
        assert front[i] in front;
      }
    }
  }

  lemma {:induction false} ChildrenBound(entries: seq<ChildLink>)
    ensures |Children(entries)| <= |entries|
  {
    if entries != [] {
      var front, last := entries[..|entries| - 1], entries[|entries| - 1];
      assert entries == front + [last];
      ChildrenBound(front);
      assert Children(entries) == Children(front) + {last.childSessionId};
    }
  }

  /** Exactly one maximal link for every child that occurs. */
  lemma LatestLinksCorrect(links: seq<ChildLink>, weight: Collation)
    ensures IsLatestPerChild(LatestLinks(links, weight), links, weight)
  {
    var entries, latest := LatestEntries(links, weight), LatestLinks(links, weight);
    LatestEntriesCorrect(links, weight);
    SortMembers(entries, weight);
    SameMembers(latest, entries);
    DistinctCount(entries);
    assert Children(latest) == Children(entries);
    CountDistinct(latest);
  }

  /** Collation tells different child ids apart. */
  ghost predicate Distinguishes(weight: Collation) {
    forall a, b :: weight(a) == weight(b) ==> a == b
  }

  lemma LatestLinksSorted(links: seq<ChildLink>, weight: Collation)
    requires Distinguishes(weight)
    ensures SortedByChild(LatestLinks(links, weight), weight)
  {
    LatestEntriesCorrect(links, weight);
    SortSorted(LatestEntries(links, weight), weight);
  }

  /** Within one child, no two links share creation time and collation of the parent tool call. */
  ghost predicate DistinctStamps(links: seq<ChildLink>, weight: Collation) {
    forall a, b :: a in links && b in links ==> SameStamp(a, b, weight) ==> a == b
  }

  predicate SameStamp(a: ChildLink, b: ChildLink, weight: Collation) {
    && a.childSessionId == b.childSessionId
    && a.createdAt == b.createdAt
    && weight(a.parentToolCallId) == weight(b.parentToolCallId)
  }

  lemma {:induction false} SortedUnique(a: seq<ChildLink>, b: seq<ChildLink>, weight: Collation)
    requires SortedByChild(a, weight) && SortedByChild(b, weight)
    requires forall e :: e in a <==> e in b
    ensures a == b
  {
    if a == [] {
      assert forall i :: 0 <= i < |b| ==> b[i] in b;
    } else {
      assert a[0] in b && b[0] in a by {
        assert a[0] in a;
        assert b[0] in b;
      }
      assert a[0] == b[0];
      forall e
        ensures e in a[1..] <==> e in b[1..]
      {
        assert e in a[1..] ==> e in b && e != b[0];
        assert e in b[1..] ==> e in a && e != a[0];
      }
      SortedUnique(a[1..], b[1..], weight);
    }
  }

  lemma LatestSubset(la: seq<ChildLink>, a: seq<ChildLink>, lb: seq<ChildLink>, b: seq<ChildLink>, weight: Collation)
    requires (forall e :: e in a <==> e in b) && Children(a) == Children(b) && DistinctStamps(a, weight)
    requires IsLatestPerChild(la, a, weight) && IsLatestPerChild(lb, b, weight)
    ensures forall e :: e in la ==> e in lb
  {
    forall e | e in la
      ensures e in lb
    {
      assert e.childSessionId in Children(la);
      var e' :| e' in lb && e'.childSessionId == e.childSessionId;
      assert e in a && e' in a;
      assert Unbeaten(e, a, weight) && Unbeaten(e', b, weight);
      assert SameStamp(e, e', weight);
    }
  }

  /** The selection does not depend on the order in which links were recorded. */
  lemma LatestLinksOrderIndependent(a: seq<ChildLink>, b: seq<ChildLink>, weight: Collation)
    requires Distinguishes(weight) && multiset(a) == multiset(b) && DistinctStamps(a, weight)
    ensures LatestLinks(a, weight) == LatestLinks(b, weight)
  {
    var la, lb := LatestLinks(a, weight), LatestLinks(b, weight);
    SameMembers(a, b);
    assert Children(a) == Children(b);
    LatestLinksCorrect(a, weight);
    LatestLinksCorrect(b, weight);
    LatestSubset(la, a, lb, b, weight);
    LatestSubset(lb, b, la, a, weight);
    LatestLinksSorted(a, weight);
    LatestLinksSorted(b, weight);
    SortedUnique(la, lb, weight);
  }

  /* ---------- capacity ---------- */

  predicate ValidChild(link: ChildLink) {
    && link.agentName in AGENT_NAMES
    && link.profile in PROFILES
    && link.status in LINK_STATUSES
    && !IsBlank(link.title)
    && CodePoints(link.title) <= MAX_TITLE_LENGTH
  }

  /** `directChildContextCapacityViolation(...) === undefined`. */
  predicate WithinCapacity(children: seq<ChildLink>) {
    |children| <= MAX_DIRECT_CHILD_SESSIONS && forall c :: c in children ==> ValidChild(c)
  }

  predicate SameLinkKey(a: ChildLink, b: ChildLink) {
    && a.parentSessionId == b.parentSessionId
    && a.parentToolCallId == b.parentToolCallId
    && a.childSessionId == b.childSessionId
    && a.childExecutionId == b.childExecutionId
  }

  function LinkAt(links: seq<ChildLink>, link: ChildLink): (i: nat)
    ensures i <= |links|
    ensures i < |links| ==> SameLinkKey(links[i], link)
    ensures forall k :: 0 <= k < i ==> !SameLinkKey(links[k], link)
  {
    if links == [] || SameLinkKey(links[0], link) then 0 else 1 + LinkAt(links[1..], link)
  }

  function UpsertLink(links: seq<ChildLink>, link: ChildLink): seq<ChildLink> {
    var i := LinkAt(links, link);
    if i == |links| then links + [link] else links[i := link]
  }

  /** The `tool-child-session-link` case of the reducer. */
  function RecordLink(links: seq<ChildLink>, link: ChildLink, weight: Collation): seq<ChildLink> {
    if !WithinCapacity(LatestLinks([link], weight)) then links
    else
      var next := UpsertLink(links, link);
      if !WithinCapacity(LatestLinks(next, weight)) then links else next
  }

  /** Link keys are unique, every link is valid, and at most 64 distinct children are linked. */
  ghost predicate LinksInvariant(links: seq<ChildLink>) {
    && (forall i, j :: 0 <= i < j < |links| ==> !SameLinkKey(links[i], links[j]))
    && (forall l :: l in links ==> ValidChild(l))
    && |Children(links)| <= MAX_DIRECT_CHILD_SESSIONS
  }

  /** The number of latest links is the number of distinct children. */
  lemma LatestCount(links: seq<ChildLink>, weight: Collation)
    ensures |LatestLinks(links, weight)| == |Children(links)|
    ensures forall e :: e in LatestLinks(links, weight) ==> e in links
  {
    var latest := LatestLinks(links, weight);
    LatestLinksCorrect(links, weight);
    DistinctCount(latest);
    assert Children(latest) == Children(links);
  }

  lemma SingleLatest(link: ChildLink, weight: Collation)
    ensures LatestLinks([link], weight) == [link]
  {
    assert [link][..0] == [];
    assert LatestEntries([link][..0], weight) == [];
    assert LatestEntries([link], weight) == [link];
    assert SortByChild([link][..0], weight) == [];
  }

  lemma UpsertMembers(links: seq<ChildLink>, link: ChildLink)
    ensures link in UpsertLink(links, link)
    ensures forall e :: e in UpsertLink(links, link) ==> e in links || e == link
    ensures Children(UpsertLink(links, link)) == Children(links) + {link.childSessionId}
  {
    var next := UpsertLink(links, link);
    var i := LinkAt(links, link);
    if i < |links| {
      assert next[i] == link;
    } else {
      assert next[|links|] == link;
    }
    forall l | l in links
      ensures l.childSessionId in Children(next)
    {
      var k :| 0 <= k < |links| && links[k] == l;
      assert next[k] in next;
    }
  }

  /** When every link is valid, capacity is a matter of the number of distinct children. */
  lemma CapacityIsChildCount(links: seq<ChildLink>, weight: Collation)
    requires forall l :: l in links ==> ValidChild(l)
    ensures WithinCapacity(LatestLinks(links, weight)) <==> |Children(links)| <= MAX_DIRECT_CHILD_SESSIONS
  {
    LatestCount(links, weight);
  }

  ghost predicate Admits(links: seq<ChildLink>, link: ChildLink) {
    && ValidChild(link)
    && (link.childSessionId in Children(links) || |Children(links)| < MAX_DIRECT_CHILD_SESSIONS)
  }

  lemma SingleCapacity(link: ChildLink, weight: Collation)
    ensures WithinCapacity(LatestLinks([link], weight)) <==> ValidChild(link)
  {
    SingleLatest(link, weight);
    assert [link][0] in [link];
  }

  lemma AddChildCount(children: set<string>, child: string)
    ensures |children + {child}| == |children| + if child in children then 0 else 1
  {
    if child in children {
      assert children + {child} == children;
    }
  }

  /**
   A link event is recorded exactly when the link is valid and its child is already linked
   or there is room for one more; so an update for a linked child is never dropped.
   */
  lemma RecordedIff(links: seq<ChildLink>, link: ChildLink, weight: Collation)
    requires LinksInvariant(links)
    ensures RecordLink(links, link, weight) == if Admits(links, link) then UpsertLink(links, link) else links
  {
    var next := UpsertLink(links, link);
    SingleCapacity(link, weight);
    if ValidChild(link) {
      UpsertMembers(links, link);
      CapacityIsChildCount(next, weight);
      AddChildCount(Children(links), link.childSessionId);
    }
  }

  lemma RecordLinkKeepsInvariant(links: seq<ChildLink>, link: ChildLink, weight: Collation)
    requires LinksInvariant(links)
    ensures LinksInvariant(RecordLink(links, link, weight))
  {
    RecordedIff(links, link, weight);
    if Admits(links, link) {
      UpsertMembers(links, link);
      AddChildCount(Children(links), link.childSessionId);
    }
  }

  /* ---------- the same in full ---------- */

  /** The latest link of a child is its newest, and of equally new ones that of the greatest tool call. */
  lemma LatestIsNewest(links: seq<ChildLink>, weight: Collation, l: ChildLink, m: ChildLink)
    requires l in LatestLinks(links, weight) && m in links && m.childSessionId == l.childSessionId
    ensures m.createdAt <= l.createdAt
    ensures m.createdAt == l.createdAt ==> weight(m.parentToolCallId) <= weight(l.parentToolCallId)
  {
    LatestLinksCorrect(links, weight);
  }

  /** A link is admissible by what it says of its agent, its state and its title of at most 80 code points. */
  predicate WellDescribed(link: ChildLink) {
    && (link.agentName == "analyst" || link.agentName == "build"
        || link.agentName == "explore" || link.agentName == "librarian")
    && (link.profile == "deep" || link.profile == "fast")
    && (link.status == "linked" || link.status == "running" || link.status == "waiting_for_human"
        || link.status == "cancelling" || link.status == "completed" || link.status == "failed"
        || link.status == "timed_out" || link.status == "cancelled" || link.status == "interrupted")
    && (exists k :: 0 <= k < |link.title| && !IsSpace(link.title[k]))
    && CodePoints(link.title) <= 80
  }

  /** Parent Session, tool call, child Session and child execution identify a link. */
  function LinkKey(link: ChildLink): (string, string, string, string) {
    (link.parentSessionId, link.parentToolCallId, link.childSessionId, link.childExecutionId)
  }

  predicate IsLinkOf(links: seq<ChildLink>, i: nat, link: ChildLink) {
    i < |links| && LinkKey(links[i]) == LinkKey(link)
  }

  /**
   A link event replaces the link of its key, or appends its own, exactly when the link is
   admissible and its child is linked or fewer than 64 children are; all other links stay.
   */
  lemma RecordedAs(links: seq<ChildLink>, link: ChildLink, weight: Collation)
    requires LinksInvariant(links)
    ensures var admits := WellDescribed(link)
        && ((exists l :: l in links && l.childSessionId == link.childSessionId) || |Children(links)| < 64);
      var next := RecordLink(links, link, weight);
      && (!admits ==> next == links)
      && (forall i: nat :: admits && IsLinkOf(links, i, link) ==> next == links[i := link])
      && (admits && (forall i: nat :: !IsLinkOf(links, i, link)) ==> next == links + [link])
  {
    RecordedIff(links, link, weight);
    var k := LinkAt(links, link);
    assert k < |links| ==> IsLinkOf(links, k, link);
    forall i: nat | IsLinkOf(links, i, link) ensures i == k {
      assert SameLinkKey(links[i], link) && (k < |links| ==> SameLinkKey(links[k], link));
    }
  }
}
