/** JSON-like values as the protocol sees them: structural comparison and bounded acceptance. */
module Json {
  import opened Prelude
  import opened Utf8

  /** `NonFinite` is NaN or an infinity; `Undefined` stands for everything JSON has no form for. */
  datatype Json =
    | Null
    | Undefined
    | Bool(b: bool)
    | Number(n: int)
    | NonFinite(which: int)
    | String(text: Text)
    | Array(items: seq<Json>)
    | Object(entries: seq<Entry>)

  datatype Entry = Entry(key: Text, value: Json)

  /* ---------- structural comparison ---------- */

  function Keys(entries: seq<Entry>): (ks: seq<Text>)
    ensures |ks| == |entries| && forall i :: 0 <= i < |ks| ==> ks[i] == entries[i].key
  {
    seq(|entries|, i requires 0 <= i < |entries| => entries[i].key)
  }

  /** UTF-16 code-unit order, the default order of `Array.prototype.sort`. */
  predicate TextLeq(a: Text, b: Text) {
    a == [] || (b != [] && (a[0] < b[0] || (a[0] == b[0] && TextLeq(a[1..], b[1..]))))
  }

  function Insert(k: Text, sorted: seq<Text>): seq<Text> {
    if sorted == [] || TextLeq(k, sorted[0]) then [k] + sorted else [sorted[0]] + Insert(k, sorted[1..])
  }

  function Sort(ks: seq<Text>): seq<Text> {
    if ks == [] then [] else Insert(ks[0], Sort(ks[1..]))
  }

  function Lookup(entries: seq<Entry>, key: Text): Option<Json> {
    if entries == [] then None
    else if entries[0].key == key then Some(entries[0].value)
    else Lookup(entries[1..], key)
  }

  /** `equal`: arrays element by element, objects by their sorted keys and the values under them. */
  predicate Equal(left: Json, right: Json)
    decreases left, 1
  {
    match (left, right)
    case (Array(xs), Array(ys)) => EqualItems(xs, ys)
    case (Object(xs), Object(ys)) => Sort(Keys(xs)) == Sort(Keys(ys)) && EqualEntries(xs, ys)
    case _ => left == right
  }

  predicate EqualItems(xs: seq<Json>, ys: seq<Json>)
    decreases xs, 0
  {
    |xs| == |ys| && (xs == [] || (Equal(xs[0], ys[0]) && EqualItems(xs[1..], ys[1..])))
  }

  /** Every entry has a counterpart in `right` with an equal value. */
  predicate EqualEntries(entries: seq<Entry>, right: seq<Entry>)
    decreases entries, 0
  {
    entries == []
    || (
        var theirs := Lookup(right, entries[0].key);
        theirs.Some? && Equal(entries[0].value, theirs.value) && EqualEntries(entries[1..], right))
  }

  /** What a value means: objects are finite maps, so that entry order is immaterial. */
  datatype Value =
    | Atom(json: Json)
    | List(values: seq<Value>)
    | Record(fields: map<Text, Value>)

  function Meaning(v: Json): Value
    decreases v, 1
  {
    match v
    case Array(items) => List(Meanings(items))
    case Object(entries) => Record(Fields(entries))
    case _ => Atom(v)
  }

  function Meanings(items: seq<Json>): seq<Value>
    decreases items, 0
  {
    if items == [] then [] else [Meaning(items[0])] + Meanings(items[1..])
  }

  function Fields(entries: seq<Entry>): map<Text, Value>
    decreases entries, 0
  {
    if entries == [] then map[] else Fields(entries[1..])[entries[0].key := Meaning(entries[0].value)]
  }

  predicate DistinctTexts(ks: seq<Text>) {
    forall i, j :: 0 <= i < j < |ks| ==> ks[i] != ks[j]
  }

  /** Object keys are distinct at every level, as in any JavaScript object. */
  predicate WellKeyed(v: Json)
    decreases v, 1
  {
    match v
    case Array(items) => WellKeyedItems(items)
    case Object(entries) => DistinctTexts(Keys(entries)) && WellKeyedEntries(entries)
    case _ => true
  }

  predicate WellKeyedItems(items: seq<Json>)
    decreases items, 0
  {
    items == [] || (WellKeyed(items[0]) && WellKeyedItems(items[1..]))
  }

  predicate WellKeyedEntries(entries: seq<Entry>)
    decreases entries, 0
  {
    entries == [] || (WellKeyed(entries[0].value) && WellKeyedEntries(entries[1..]))
  }

  /* ---------- sorting ---------- */

  lemma {:induction false} LeqTotal(a: Text, b: Text)
    ensures TextLeq(a, b) || TextLeq(b, a)
  {
    if a != [] && b != [] && a[0] == b[0] {
      LeqTotal(a[1..], b[1..]);
    }
  }

  lemma {:induction false} LeqAntisymmetric(a: Text, b: Text)
    requires TextLeq(a, b) && TextLeq(b, a)
    ensures a == b
  {
    if a != [] && b != [] {
      LeqAntisymmetric(a[1..], b[1..]);
      assert a == [a[0]] + a[1..] && b == [b[0]] + b[1..];
    }
  }

  lemma {:induction false} LeqTransitive(a: Text, b: Text, c: Text)
    requires TextLeq(a, b) && TextLeq(b, c)
    ensures TextLeq(a, c)
  {
    if a != [] && b != [] && c != [] && a[0] == b[0] == c[0] {
      LeqTransitive(a[1..], b[1..], c[1..]);
    }
  }

  /** Each element is at most every later one. */
  predicate SortedTexts(ks: seq<Text>) {
    ks == [] || (SortedTexts(ks[1..]) && forall i :: 1 <= i < |ks| ==> TextLeq(ks[0], ks[i]))
  }

  lemma {:induction false} InsertMembers(k: Text, sorted: seq<Text>)
    ensures multiset(Insert(k, sorted)) == multiset(sorted) + multiset{k}
  {
    if sorted != [] && !TextLeq(k, sorted[0]) {
      InsertMembers(k, sorted[1..]);
      assert sorted == [sorted[0]] + sorted[1..];
    }
  }

  lemma {:induction false} SortMembers(ks: seq<Text>)
    ensures multiset(Sort(ks)) == multiset(ks)
  {
    if ks != [] {
      SortMembers(ks[1..]);
      InsertMembers(ks[0], Sort(ks[1..]));
      assert ks == [ks[0]] + ks[1..];
    }
  }

  lemma LeqAll(k: Text, head: Text, ks: seq<Text>)
    requires TextLeq(k, head) && forall i :: 0 <= i < |ks| ==> TextLeq(head, ks[i])
    ensures forall i :: 0 <= i < |ks| ==> TextLeq(k, ks[i])
  {
    forall i | 0 <= i < |ks| ensures TextLeq(k, ks[i]) {
      LeqTransitive(k, head, ks[i]);
    }
  }

  lemma {:induction false} InsertSorted(k: Text, sorted: seq<Text>)
    requires SortedTexts(sorted)
    ensures SortedTexts(Insert(k, sorted))
  {
    if sorted == [] {
      assert Insert(k, sorted)[1..] == [];
    } else if TextLeq(k, sorted[0]) {
      assert ([k] + sorted)[1..] == sorted;
      LeqAll(k, sorted[0], sorted[1..]);
      LeqTotal(sorted[0], sorted[0]);
    } else {
      var rest := Insert(k, sorted[1..]);
      InsertSorted(k, sorted[1..]);
      InsertMembers(k, sorted[1..]);
      LeqTotal(k, sorted[0]);
      assert ([sorted[0]] + rest)[1..] == rest;
      forall i | 0 <= i < |rest| ensures TextLeq(sorted[0], rest[i]) {
        assert rest[i] in multiset(rest);
        assert rest[i] == k || rest[i] in sorted[1..];
      }
    }
  }

  lemma {:induction false} SortSorted(ks: seq<Text>)
    ensures SortedTexts(Sort(ks))
  {
    if ks != [] {
      SortSorted(ks[1..]);
      InsertSorted(ks[0], Sort(ks[1..]));
    }
  }

  lemma MultisetMembers(a: seq<Text>, b: seq<Text>)
    requires multiset(a) == multiset(b)
    ensures |a| == |b| && forall k :: k in a <==> k in b
  {
    assert |multiset(a)| == |a| && |multiset(b)| == |b|;
    forall k ensures k in a <==> k in b {
      assert k in multiset(a) <==> k in multiset(b);
    }
  }

  lemma HeadIsLeast(a: seq<Text>, k: Text)
    requires SortedTexts(a) && k in a
    ensures TextLeq(a[0], k)
  {
    LeqTotal(a[0], a[0]);
  }

  /** A multiset of texts has one sorted arrangement. */
  lemma {:induction false} SortedUnique(a: seq<Text>, b: seq<Text>)
    requires SortedTexts(a) && SortedTexts(b) && multiset(a) == multiset(b)
    ensures a == b
  {
    MultisetMembers(a, b);
    if a != [] {
      HeadIsLeast(a, b[0]);
      HeadIsLeast(b, a[0]);
      LeqAntisymmetric(a[0], b[0]);
      TailMultiset(a);
      TailMultiset(b);
      SortedUnique(a[1..], b[1..]);
    }
  }

  lemma TailMultiset(a: seq<Text>)
    requires a != []
    ensures multiset(a[1..]) == multiset(a) - multiset{a[0]} && a == [a[0]] + a[1..]
  {
    assert a == [a[0]] + a[1..];
  }

  /** Key lists without repetition sort to the same list exactly when they hold the same keys. */
  lemma SameSortIff(a: seq<Text>, b: seq<Text>)
    requires DistinctTexts(a) && DistinctTexts(b)
    ensures Sort(a) == Sort(b) <==> forall k :: k in a <==> k in b
  {
    SortMembers(a);
    SortMembers(b);
    if Sort(a) == Sort(b) {
      MultisetMembers(a, b);
    }
    if forall k :: k in a <==> k in b {
      DistinctMultiset(a, b);
      SortSorted(a);
      SortSorted(b);
      SortedUnique(Sort(a), Sort(b));
    }
  }

  lemma {:induction false} CountOnce(a: seq<Text>, k: Text)
    requires DistinctTexts(a)
    ensures multiset(a)[k] == if k in a then 1 else 0
  {
    if a != [] {
      var rest := a[1..];
      assert a == [a[0]] + rest;
      CountOnce(rest, k);
      assert a[0] !in rest;
    }
  }

  lemma DistinctMultiset(a: seq<Text>, b: seq<Text>)
    requires DistinctTexts(a) && DistinctTexts(b) && forall k :: k in a <==> k in b
    ensures multiset(a) == multiset(b)
  {
    forall k ensures multiset(a)[k] == multiset(b)[k] {
      CountOnce(a, k);
      CountOnce(b, k);
    }
  }

  /* ---------- equality is equality of meaning ---------- */

  lemma {:induction false} FieldAt(entries: seq<Entry>, key: Text)
    ensures key in Fields(entries) <==> key in Keys(entries)
    ensures key in Fields(entries) <==> Lookup(entries, key).Some?
    ensures key in Fields(entries) ==> Fields(entries)[key] == Meaning(Lookup(entries, key).value)
  {
    if entries != [] {
      FieldAt(entries[1..], key);
      assert Keys(entries) == [entries[0].key] + Keys(entries[1..]);
    }
  }

  lemma {:induction false} LookupWellKeyed(entries: seq<Entry>, key: Text)
    requires WellKeyedEntries(entries) && Lookup(entries, key).Some?
    ensures WellKeyed(Lookup(entries, key).value)
  {
    if entries[0].key != key {
      LookupWellKeyed(entries[1..], key);
    }
  }

  lemma DistinctTail(entries: seq<Entry>)
    requires entries != [] && DistinctTexts(Keys(entries))
    ensures DistinctTexts(Keys(entries[1..])) && entries[0].key !in Keys(entries[1..])
  {
    var ks, tail := Keys(entries), Keys(entries[1..]);
    assert forall i :: 0 <= i < |tail| ==> tail[i] == ks[i + 1];
  }

  /** The comparison holds exactly when both values mean the same. */
  lemma {:induction false} EqualIsSameMeaning(left: Json, right: Json)
    requires WellKeyed(left) && WellKeyed(right)
    ensures Equal(left, right) <==> Meaning(left) == Meaning(right)
    decreases left, 1
  {
    if left.Array? && right.Array? {
      ItemsSameMeaning(left.items, right.items);
    } else if left.Object? && right.Object? {
      SameSortIff(Keys(left.entries), Keys(right.entries));
      EntriesSameMeaning(left.entries, right.entries);
      FieldsEqualIff(left.entries, right.entries);
    }
  }

  lemma {:induction false} ItemsSameMeaning(xs: seq<Json>, ys: seq<Json>)
    requires WellKeyedItems(xs) && WellKeyedItems(ys)
    ensures EqualItems(xs, ys) <==> Meanings(xs) == Meanings(ys)
    decreases xs, 0
  {
    MeaningsLength(xs);
    MeaningsLength(ys);
    if |xs| == |ys| && xs != [] {
      EqualIsSameMeaning(xs[0], ys[0]);
      ItemsSameMeaning(xs[1..], ys[1..]);
      assert Meanings(xs)[0] == Meaning(xs[0]) && Meanings(xs)[1..] == Meanings(xs[1..]);
      assert Meanings(ys)[0] == Meaning(ys[0]) && Meanings(ys)[1..] == Meanings(ys[1..]);
    }
  }

  lemma {:induction false} MeaningsLength(xs: seq<Json>)
    ensures |Meanings(xs)| == |xs|
  {
    if xs != [] {
      MeaningsLength(xs[1..]);
    }
  }

  /** Every field of `xs` is a field of `ys` with the same meaning. */
  ghost predicate FieldsWithin(xs: map<Text, Value>, ys: map<Text, Value>) {
    forall k :: k in xs ==> k in ys && ys[k] == xs[k]
  }

  lemma {:induction false} EntriesSameMeaning(xs: seq<Entry>, ys: seq<Entry>)
    requires WellKeyedEntries(xs) && WellKeyedEntries(ys) && DistinctTexts(Keys(xs))
    ensures EqualEntries(xs, ys) <==> FieldsWithin(Fields(xs), Fields(ys))
    decreases xs, 0
  {
    if xs != [] {
      var key := xs[0].key;
      FieldAt(ys, key);
      DistinctTail(xs);
      FieldAt(xs[1..], key);
      EntriesSameMeaning(xs[1..], ys);
      if Lookup(ys, key).Some? {
        LookupWellKeyed(ys, key);
        EqualIsSameMeaning(xs[0].value, Lookup(ys, key).value);
      }
      WithinStep(Fields(xs[1..]), Fields(ys), key, Meaning(xs[0].value));
    }
  }

  lemma WithinStep(rest: map<Text, Value>, ys: map<Text, Value>, key: Text, value: Value)
    requires key !in rest
    ensures FieldsWithin(rest[key := value], ys) <==> FieldsWithin(rest, ys) && key in ys && ys[key] == value
  {
    var all := rest[key := value];
    assert all[key] == value;
    if FieldsWithin(all, ys) {
      forall k | k in rest ensures k in ys && ys[k] == rest[k] {
        assert k in all && all[k] == rest[k];
      }
    }
  }

  lemma FieldsEqualIff(xs: seq<Entry>, ys: seq<Entry>)
    ensures Fields(xs) == Fields(ys)
       <==> (forall k :: k in Keys(xs) <==> k in Keys(ys)) && FieldsWithin(Fields(xs), Fields(ys))
  {
    forall k ensures (k in Fields(xs) <==> k in Keys(xs)) && (k in Fields(ys) <==> k in Keys(ys)) {
      FieldAt(xs, k);
      FieldAt(ys, k);
    }
    if (forall k :: k in Keys(xs) <==> k in Keys(ys)) && FieldsWithin(Fields(xs), Fields(ys)) {
      assert forall k :: k in Fields(ys) ==> k in Fields(xs);
    }
  }

  /* ---------- bounded values ---------- */

  const MAX_DEPTH: nat := 8
  const MAX_KEYS: nat := 64
  const MAX_ITEMS: nat := 256
  const MAX_STRING_BYTES: nat := 8 * 1024
  const MAX_KEY_BYTES: nat := 128

  /** Nesting depth, and object keys and array items counted over the whole tree. */
  datatype Size = Size(depth: nat, keys: nat, items: nat)

  function Join(a: Size, b: Size): Size {
    Size(Max(a.depth, b.depth), a.keys + b.keys, a.items + b.items)
  }

  function SizeOf(v: Json): Size
    decreases v, 1
  {
    match v
    case Array(items) => var s := SizeOfItems(items); Size(1 + s.depth, s.keys, s.items + |items|)
    case Object(entries) => var s := SizeOfEntries(entries); Size(1 + s.depth, s.keys + |entries|, s.items)
    case _ => Size(1, 0, 0)
  }

  function SizeOfItems(items: seq<Json>): Size
    decreases items, 0
  {
    if items == [] then Size(0, 0, 0) else Join(SizeOf(items[0]), SizeOfItems(items[1..]))
  }

  function SizeOfEntries(entries: seq<Entry>): Size
    decreases entries, 0
  {
    if entries == [] then Size(0, 0, 0) else Join(SizeOf(entries[0].value), SizeOfEntries(entries[1..]))
  }

  /** Only JSON values, with strings and keys of admissible length. */
  predicate Clean(v: Json)
    decreases v, 1
  {
    match v
    case Undefined => false
    case NonFinite(_) => false
    case String(text) => ByteLength(text) <= 8192
    case Array(items) => CleanItems(items)
    case Object(entries) => CleanEntries(entries)
    case _ => true
  }

  predicate CleanItems(items: seq<Json>)
    decreases items, 0
  {
    items == [] || (Clean(items[0]) && CleanItems(items[1..]))
  }

  predicate CleanEntries(entries: seq<Entry>)
    decreases entries, 0
  {
    entries == []
    || (ByteLength(entries[0].key) <= 128 && Clean(entries[0].value) && CleanEntries(entries[1..]))
  }

  /** What is left of the walk fits what is left of the budget. */
  predicate Fits(s: Size, depth: nat, keys: nat, items: nat) {
    && (s.depth > 0 ==> depth + s.depth - 1 <= 8)
    && keys + s.keys <= 64
    && items + s.items <= 256
  }

  class Budget {
    var keys: nat
    var items: nat

    constructor ()
      ensures keys == 0 && items == 0
    {
      keys, items := 0, 0;
    }
  }

  /** `isBoundedJsonValue`: one budget shared by the whole walk, which stops at the first refusal. */
  method IsBoundedValue(v: Json, depth: nat, budget: Budget) returns (ok: bool)
    requires budget.keys <= MAX_KEYS && budget.items <= MAX_ITEMS
    modifies budget
    ensures ok <==> Clean(v) && Fits(SizeOf(v), depth, old(budget.keys), old(budget.items))
    ensures ok ==>
      && budget.keys == old(budget.keys) + SizeOf(v).keys
      && budget.items == old(budget.items) + SizeOf(v).items
    decreases v, 1
  {
    if depth > MAX_DEPTH {
      SizePositive(v);
      return false;
    }
    match v {
      case Null => return true;
      case Bool(_) => return true;
      case Number(_) => return true;
      case NonFinite(_) => return false;
      case Undefined => return false;
      case String(text) => return ByteLength(text) <= MAX_STRING_BYTES;
      case Array(items) =>
        budget.items := budget.items + |items|;
        if budget.items > MAX_ITEMS {
          return false;
        }
        ok := EveryItem(items, depth + 1, budget);
      case Object(entries) =>
        budget.keys := budget.keys + |entries|;
        if budget.keys > MAX_KEYS {
          return false;
        }
        ok := EveryEntry(entries, depth + 1, budget);
    }
  }

  lemma SizePositive(v: Json)
    ensures SizeOf(v).depth >= 1
  {
  }

  /** The walk over a first and the remaining children fits exactly when both parts fit, one after the other. */
  lemma FitsInTurn(a: Size, b: Size, depth: nat, keys: nat, items: nat)
    requires a.depth >= 1 && keys <= MAX_KEYS && items <= MAX_ITEMS
    ensures Fits(Join(a, b), depth, keys, items)
       <==> Fits(a, depth, keys, items) && Fits(b, depth, keys + a.keys, items + a.items)
  {
  }

  lemma NextItem(items: seq<Json>, index: nat)
    requires index < |items|
    ensures CleanItems(items[index..]) <==> Clean(items[index]) && CleanItems(items[index + 1..])
    ensures SizeOfItems(items[index..]) == Join(SizeOf(items[index]), SizeOfItems(items[index + 1..]))
    ensures SizeOf(items[index]).depth >= 1
  {
    var rest := items[index..];
    assert rest[0] == items[index] && rest[1..] == items[index + 1..];
    SizePositive(rest[0]);
  }

  lemma NextEntry(entries: seq<Entry>, index: nat)
    requires index < |entries|
    ensures CleanEntries(entries[index..])
       <==> && ByteLength(entries[index].key) <= MAX_KEY_BYTES
             && Clean(entries[index].value)
             && CleanEntries(entries[index + 1..])
    ensures SizeOfEntries(entries[index..]) == Join(SizeOf(entries[index].value), SizeOfEntries(entries[index + 1..]))
    ensures SizeOf(entries[index].value).depth >= 1
  {
    var rest := entries[index..];
    assert rest[0] == entries[index] && rest[1..] == entries[index + 1..];
    SizePositive(rest[0].value);
  }

  /** `items.every(...)`. */
  method EveryItem(items: seq<Json>, depth: nat, budget: Budget) returns (ok: bool)
    requires budget.keys <= MAX_KEYS && budget.items <= MAX_ITEMS
    modifies budget
    ensures ok <==> CleanItems(items) && Fits(SizeOfItems(items), depth, old(budget.keys), old(budget.items))
    ensures ok ==> budget.keys == old(budget.keys) + SizeOfItems(items).keys
    ensures ok ==> budget.items == old(budget.items) + SizeOfItems(items).items
    decreases items, 0
  {
    var index := 0;
    ghost var rest := SizeOfItems(items);
    ghost var fitsAll := Fits(rest, depth, budget.keys, budget.items);
    assert items[0..] == items;
    while index < |items|
      invariant 0 <= index <= |items| && rest == SizeOfItems(items[index..])
      invariant budget.keys <= MAX_KEYS && budget.items <= MAX_ITEMS
      invariant CleanItems(items) <==> CleanItems(items[index..])
      invariant fitsAll <==> Fits(rest, depth, budget.keys, budget.items)
      invariant budget.keys + rest.keys == old(budget.keys) + SizeOfItems(items).keys
      invariant budget.items + rest.items == old(budget.items) + SizeOfItems(items).items
    {
      NextItem(items, index);
      ghost var first, next := SizeOf(items[index]), SizeOfItems(items[index + 1..]);
      FitsInTurn(first, next, depth, budget.keys, budget.items);
      var fits := IsBoundedValue(items[index], depth, budget);
      if !fits {
        return false;
      }
      index, rest := index + 1, next;
    }
    return true;
  }

  /** `entries.every(...)`: the key first, then the value. */
  method EveryEntry(entries: seq<Entry>, depth: nat, budget: Budget) returns (ok: bool)
    requires budget.keys <= MAX_KEYS && budget.items <= MAX_ITEMS
    modifies budget
    ensures ok <==> CleanEntries(entries) && Fits(SizeOfEntries(entries), depth, old(budget.keys), old(budget.items))
    ensures ok ==> budget.keys == old(budget.keys) + SizeOfEntries(entries).keys
    ensures ok ==> budget.items == old(budget.items) + SizeOfEntries(entries).items
    decreases entries, 0
  {
    var index := 0;
    ghost var rest := SizeOfEntries(entries);
    ghost var fitsAll := Fits(rest, depth, budget.keys, budget.items);
    assert entries[0..] == entries;
    while index < |entries|
      invariant 0 <= index <= |entries| && rest == SizeOfEntries(entries[index..])
      invariant budget.keys <= MAX_KEYS && budget.items <= MAX_ITEMS
      invariant CleanEntries(entries) <==> CleanEntries(entries[index..])
      invariant fitsAll <==> Fits(rest, depth, budget.keys, budget.items)
      invariant budget.keys + rest.keys == old(budget.keys) + SizeOfEntries(entries).keys
      invariant budget.items + rest.items == old(budget.items) + SizeOfEntries(entries).items
    {
      NextEntry(entries, index);
      ghost var first, next := SizeOf(entries[index].value), SizeOfEntries(entries[index + 1..]);
      FitsInTurn(first, next, depth, budget.keys, budget.items);
      if ByteLength(entries[index].key) > MAX_KEY_BYTES {
        return false;
      }
      var fits := IsBoundedValue(entries[index].value, depth, budget);
      if !fits {
        return false;
      }
      index, rest := index + 1, next;
    }
    return true;
  }

  /** `isBoundedJsonObject`: accepted exactly when the value is a clean object within every bound. */
  method IsBoundedObject(v: Json) returns (ok: bool)
    ensures ok <==>
      && v.Object?
      && Clean(v)
      && SizeOf(v).depth <= 8
      && SizeOf(v).keys <= 64
      && SizeOf(v).items <= 256
  {
    var budget := new Budget();
    SizePositive(v);
    ok := IsBoundedValue(v, 1, budget);
    ok := ok && v.Object?;
  }
}
