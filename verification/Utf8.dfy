/**
 The live preview of a running Bash tool: UTF-16 text, its UTF-8 size, and the
 bounded suffix that is kept while output streams in.
 */
module Utf8 {
  import opened Prelude

  /** One UTF-16 code unit of a JavaScript string. */
  type CodeUnit = u: int | 0 <= u < 0x1_0000

  type Text = seq<CodeUnit>

  const PREVIEW_MAX_BYTES: nat := 50 * 1024

  predicate IsHigh(u: CodeUnit) {
    0xD800 <= u <= 0xDBFF
  }

  predicate IsLow(u: CodeUnit) {
    0xDC00 <= u <= 0xDFFF
  }

  /** UTF-8 size of a unit that stands alone; an unpaired surrogate encodes as U+FFFD. */
  function UnitBytes(u: CodeUnit): nat {
    if u < 0x80 then 1 else if u < 0x800 then 2 else 3
  }

  predicate StartsWithPair(t: Text) {
    |t| >= 2 && IsHigh(t[0]) && IsLow(t[1])
  }

  /** Code units in the first code point. */
  function FirstUnits(t: Text): (n: nat)
    requires t != []
    ensures 1 <= n <= |t|
  {
    if StartsWithPair(t) then 2 else 1
  }

  function FirstBytes(t: Text): (n: nat)
    requires t != []
    ensures 1 <= n <= 4
  {
    if StartsWithPair(t) then 4 else UnitBytes(t[0])
  }

  function ByteLength(t: Text): nat {
    if t == [] then 0 else FirstBytes(t) + ByteLength(t[FirstUnits(t)..])
  }

  /** Number of code points; an unpaired surrogate counts as one. */
  function CodePoints(t: Text): nat {
    if t == [] then 0 else 1 + CodePoints(t[FirstUnits(t)..])
  }

  /** White space and line terminators as `String.prototype.trim` sees them. */
  predicate IsSpace(u: CodeUnit) {
    || 0x9 <= u <= 0xD || u == 0x20 || u == 0xA0 || u == 0x1680
    || 0x2000 <= u <= 0x200A || u == 0x2028 || u == 0x2029 || u == 0x202F || u == 0x205F
    || u == 0x3000 || u == 0xFEFF
  }

  /** `text.trim().length === 0`. */
  predicate IsBlank(t: Text) {
    forall i :: 0 <= i < |t| ==> IsSpace(t[i])
  }

  /** The boundary between `a` and `b` cuts a surrogate pair in two. */
  predicate Splits(a: Text, b: Text) {
    a != [] && b != [] && IsHigh(a[|a| - 1]) && IsLow(b[0])
  }

  /** Position `i` is a code-point boundary of `t`. */
  predicate Aligned(t: Text, i: nat) {
    i <= |t| && !Splits(t[..i], t[i..])
  }

  /** Reference form of the truncation: drop code points from the front until the rest fits. */
  function KeepSuffix(t: Text, max: nat): Text {
    if ByteLength(t) <= max then t else KeepSuffix(t[FirstUnits(t)..], max)
  }

  /** Joining two texts adds their sizes, less two bytes when the join completes a surrogate pair. */
  lemma {:induction false} ByteLengthConcat(a: Text, b: Text)
    ensures ByteLength(a + b) == ByteLength(a) + ByteLength(b) - (if Splits(a, b) then 2 else 0)
  {
    if a == [] {
      assert a + b == b;
    } else if |a| == 1 && Splits(a, b) {
      assert (a + b)[2..] == b[1..];
      assert a[1..] == [];
    } else {
      var k := FirstUnits(a);
      assert (a + b)[k..] == a[k..] + b;
      ByteLengthConcat(a[k..], b);
    }
  }

  lemma {:induction false} DropFirst(p: Text, r: Text)
    requires p != [] && !Splits(p, r)
    ensures FirstUnits(p + r) == FirstUnits(p)
    ensures (p + r)[FirstUnits(p + r)..] == p[FirstUnits(p)..] + r
    ensures !Splits(p[FirstUnits(p)..], r)
  {
  }

  /** Text in front of a suffix that is already too long does not influence the result. */
  lemma {:induction false} SkipPrefix(p: Text, r: Text, max: nat)
    requires !Splits(p, r) && ByteLength(r) > max
    ensures KeepSuffix(p + r, max) == KeepSuffix(r, max)
    decreases |p|
  {
    if p == [] {
      assert p + r == r;
    } else {
      ByteLengthConcat(p, r);
      DropFirst(p, r);
      SkipPrefix(p[FirstUnits(p)..], r, max);
    }
  }

  /** Any aligned suffix that fits is no longer than the one kept. */
  lemma {:induction false} KeepsAtLeast(p: Text, r: Text, max: nat)
    requires !Splits(p, r) && ByteLength(r) <= max
    ensures |KeepSuffix(p + r, max)| >= |r|
    decreases |p|
  {
    if p == [] {
      assert p + r == r;
    } else if ByteLength(p + r) > max {
      DropFirst(p, r);
      KeepsAtLeast(p[FirstUnits(p)..], r, max);
    }
  }

  /** The start index of the kept suffix. */
  function KeptFrom(t: Text, max: nat): (i: nat)
    ensures i <= |t| && KeepSuffix(t, max) == t[i..]
    decreases |t|
  {
    if ByteLength(t) <= max then 0 else FirstUnits(t) + KeptFrom(t[FirstUnits(t)..], max)
  }

  lemma {:induction false} KeptFromAligned(t: Text, max: nat)
    ensures Aligned(t, KeptFrom(t, max))
    decreases |t|
  {
    if ByteLength(t) > max {
      var k := FirstUnits(t);
      var i := KeptFrom(t[k..], max);
      KeptFromAligned(t[k..], max);
      if 0 < k + i < |t| {
        assert i > 0 ==> t[k..][..i][i - 1] == t[k + i - 1];
        assert t[k..][i..] == t[k + i..];
      }
    }
  }

  lemma {:induction false} KeepSuffixFits(t: Text, max: nat)
    ensures ByteLength(KeepSuffix(t, max)) <= max
    decreases |t|
  {
    if ByteLength(t) > max {
      KeepSuffixFits(t[FirstUnits(t)..], max);
    }
  }

  lemma LongerIsTooLong(t: Text, max: nat, j: nat)
    requires j < KeptFrom(t, max) && j <= |t| && Aligned(t, j)
    ensures ByteLength(t[j..]) > max
  {
    if ByteLength(t[j..]) <= max {
      assert t == t[..j] + t[j..];
      KeepsAtLeast(t[..j], t[j..], max);
      assert false;
    }
  }

  /**
   The kept text is the longest code-point-aligned suffix within the budget:
   it is a suffix, it fits, and every aligned start before it leaves too many bytes.
   */
  lemma {:induction false} KeepSuffixIsLongest(t: Text, max: nat)
    ensures Aligned(t, KeptFrom(t, max))
    ensures KeepSuffix(t, max) == t[KeptFrom(t, max)..]
    ensures ByteLength(KeepSuffix(t, max)) <= max
    ensures forall j :: 0 <= j < KeptFrom(t, max) && Aligned(t, j) ==> ByteLength(t[j..]) > max
  {
    KeptFromAligned(t, max);
    KeepSuffixFits(t, max);
    forall j | 0 <= j < KeptFrom(t, max) && Aligned(t, j)
      ensures ByteLength(t[j..]) > max
    {
      LongerIsTooLong(t, max, j);
    }
  }

  /** The backward scan stops exactly where the forward reference does. */
  lemma {:induction false} ScanStopsAtReference(value: Text, from: nat, start: nat, max: nat)
    requires from < start <= |value| && Aligned(value, from)
    requires start == from + FirstUnits(value[from..])
    requires ByteLength(value[start..]) <= max < ByteLength(value[from..])
    ensures KeepSuffix(value, max) == value[start..]
  {
    assert value == value[..from] + value[from..];
    SkipPrefix(value[..from], value[from..], max);
    assert value[from..][FirstUnits(value[from..])..] == value[start..];
  }

  /**
   `utf8Suffix`: walk backwards one code point at a time while the bytes fit.
   Proved equal to the forward reference, with the dropped bytes accounted for.
   */
  method Utf8Suffix(value: Text, maxBytes: nat) returns (kept: Text, omittedBytes: nat)
    ensures kept == KeepSuffix(value, maxBytes)
    ensures omittedBytes == ByteLength(value) - ByteLength(kept)
  {
    var totalBytes := ByteLength(value);
    if totalBytes <= maxBytes {
      return value, 0;
    }
    var retainedBytes := 0;
    var start := |value|;
    assert value[0..] == value;
    while start > 0
      invariant 0 <= start <= |value|
      invariant Aligned(value, start)
      invariant retainedBytes == ByteLength(value[start..]) <= maxBytes
      decreases start
    {
      var codePointStart := start - 1;
      var codeUnit := value[codePointStart];
      if 0xDC00 <= codeUnit <= 0xDFFF && codePointStart > 0 {
        var preceding := value[codePointStart - 1];
        if 0xD800 <= preceding <= 0xDBFF {
          codePointStart := codePointStart - 1;
        }
      }
      var codePoint := value[codePointStart..start];
      var codePointBytes := ByteLength(codePoint);
      assert value[codePointStart..] == codePoint + value[start..];
      assert codePoint[|codePoint| - 1] == value[start - 1] == value[..start][start - 1];
      ByteLengthConcat(codePoint, value[start..]);
      assert codePointStart > 0 ==> value[..codePointStart][codePointStart - 1] == value[codePointStart - 1];
      assert value[codePointStart..][0] == value[codePointStart];
      assert Aligned(value, codePointStart);
      assert codePoint[FirstUnits(codePoint)..] == [];
      if retainedBytes + codePointBytes > maxBytes {
        ScanStopsAtReference(value, codePointStart, start, maxBytes);
        break;
      }
      retainedBytes := retainedBytes + codePointBytes;
      start := codePointStart;
    }
    kept := value[start..];
    omittedBytes := totalBytes - retainedBytes;
  }

  /* ---------- streaming ---------- */

  datatype LiveOutput = LiveOutput(preview: Text, omittedBytes: int, limitReached: bool)

  datatype Delta = Delta(text: Text, omittedBytes: int, limitReached: bool)

  /** `appendLiveToolOutput` on the live-output field. */
  function AppendDelta(live: Option<LiveOutput>, d: Delta): LiveOutput {
    var before := if live.Some? then live.value else LiveOutput([], 0, false);
    var combined := before.preview + d.text;
    var kept := KeepSuffix(combined, PREVIEW_MAX_BYTES);
    LiveOutput(
      kept,
      before.omittedBytes + d.omittedBytes + (ByteLength(combined) - ByteLength(kept)),
      before.limitReached || d.limitReached)
  }

  /** The same update made with the imperative truncation. */
  method AppendLiveOutput(live: Option<LiveOutput>, d: Delta) returns (next: LiveOutput)
    ensures next == AppendDelta(live, d)
  {
    var combined := (if live.Some? then live.value.preview else []) + d.text;
    var kept, omitted := Utf8Suffix(combined, PREVIEW_MAX_BYTES);
    next := LiveOutput(
      kept,
      (if live.Some? then live.value.omittedBytes else 0) + d.omittedBytes + omitted,
      (if live.Some? then live.value.limitReached else false) || d.limitReached);
  }

  function Stream(ds: seq<Delta>): Option<LiveOutput> {
    if ds == [] then None else Some(AppendDelta(Stream(ds[..|ds| - 1]), ds[|ds| - 1]))
  }

  function AllText(ds: seq<Delta>): Text {
    if ds == [] then [] else AllText(ds[..|ds| - 1]) + ds[|ds| - 1].text
  }

  /** Bytes announced by the producer: the deltas themselves plus what it omitted upstream. */
  function AnnouncedBytes(ds: seq<Delta>): int {
    if ds == [] then 0
    else AnnouncedBytes(ds[..|ds| - 1]) + ByteLength(ds[|ds| - 1].text) + ds[|ds| - 1].omittedBytes
  }

  /** The boundary in front of delta `i` cuts a surrogate pair. */
  predicate SplitAt(ds: seq<Delta>, i: nat)
    requires i < |ds|
  {
    Splits(AllText(ds[..i]), ds[i].text)
  }

  /** Number of delta boundaries that cut a surrogate pair. */
  function SplitBoundaries(ds: seq<Delta>): nat {
    if ds == [] then 0
    else
      SplitBoundaries(ds[..|ds| - 1]) + if SplitAt(ds, |ds| - 1) then 1 else 0
  }

  lemma {:induction false} KeepSuffixNonempty(t: Text, max: nat)
    requires t != [] && max >= 4
    ensures KeepSuffix(t, max) != []
    ensures KeepSuffix(t, max)[|KeepSuffix(t, max)| - 1] == t[|t| - 1]
    decreases |t|
  {
    if ByteLength(t) > max {
      assert ByteLength(t[FirstUnits(t)..]) > 0;
      KeepSuffixNonempty(t[FirstUnits(t)..], max);
    }
  }

  /** Truncating before or after appending makes no difference, even across a cut pair. */
  lemma {:induction false} TruncateThenAppend(a: Text, b: Text, max: nat)
    requires max >= 4
    ensures KeepSuffix(KeepSuffix(a, max) + b, max) == KeepSuffix(a + b, max)
    decreases |a|
  {
    if ByteLength(a) > max {
      ByteLengthConcat(a, b);
      var k := FirstUnits(a);
      assert ByteLength(a[k..]) > 0;
      assert FirstUnits(a + b) == k;
      assert (a + b)[k..] == a[k..] + b;
      TruncateThenAppend(a[k..], b, max);
    }
  }

  /**
   Streaming equals batch, for every sequence of deltas: the preview is the
   truncation of everything received, and the bytes kept plus the bytes reported
   omitted equal the bytes announced, less two for each boundary that cut a pair.
   */
  lemma {:induction false} StreamEqualsBatch(ds: seq<Delta>)
    requires ds != []
    ensures Stream(ds).Some?
    ensures Stream(ds).value.preview == KeepSuffix(AllText(ds), 51_200)
    ensures ByteLength(Stream(ds).value.preview) <= 51_200
    ensures ByteLength(Stream(ds).value.preview) + Stream(ds).value.omittedBytes
         == AnnouncedBytes(ds) - 2 * SplitBoundaries(ds)
    ensures Stream(ds).value.limitReached == exists d :: d in ds && d.limitReached
    decreases |ds|
  {
    var front, d := ds[..|ds| - 1], ds[|ds| - 1];
    assert ds == front + [d];
    var before := if front == [] then [] else Stream(front).value.preview;
    if front != [] {
      StreamEqualsBatch(front);
      if AllText(front) != [] {
        KeepSuffixNonempty(AllText(front), PREVIEW_MAX_BYTES);
      }
      TruncateThenAppend(AllText(front), d.text, PREVIEW_MAX_BYTES);
    }
    ByteLengthConcat(before, d.text);
    KeepSuffixFits(before + d.text, PREVIEW_MAX_BYTES);
    assert Splits(before, d.text) <==> Splits(AllText(front), d.text);
  }

  /** Bytes are conserved exactly when no delta boundary cuts a surrogate pair. */
  lemma {:induction false} BytesConservedIffNoSplit(ds: seq<Delta>)
    requires ds != []
    ensures Stream(ds).Some?
    ensures ByteLength(Stream(ds).value.preview) + Stream(ds).value.omittedBytes == AnnouncedBytes(ds)
       <==> forall i :: 0 <= i < |ds| ==> !SplitAt(ds, i)
  {
    StreamEqualsBatch(ds);
    SplitBoundariesZero(ds);
  }

  lemma {:induction false} SplitBoundariesZero(ds: seq<Delta>)
    ensures SplitBoundaries(ds) == 0 <==> forall i :: 0 <= i < |ds| ==> !SplitAt(ds, i)
  {
    if ds != [] {
      var last := |ds| - 1;
      var front := ds[..last];
      SplitBoundariesZero(front);
      forall i | 0 <= i < last
        ensures SplitAt(front, i) == SplitAt(ds, i)
      {
        assert front[..i] == ds[..i];
      }
      assert (forall i :: 0 <= i < |ds| ==> !SplitAt(ds, i))
        <==> (forall i :: 0 <= i < last ==> !SplitAt(ds, i)) && !SplitAt(ds, last);
    }
  }

  /** A pair sent in two deltas: two bytes go missing from the account. */
  lemma SplitPairLosesTwoBytes()
    ensures var ds := [Delta([0xD83D], 0, false), Delta([0xDE00], 0, false)];
      && Stream(ds).Some?
      && ByteLength(Stream(ds).value.preview) + Stream(ds).value.omittedBytes == AnnouncedBytes(ds) - 2
  {
    var ds := [Delta([0xD83D], 0, false), Delta([0xDE00], 0, false)];
    assert ds[..1] == [Delta([0xD83D], 0, false)];
    assert ds[..1][..0] == [];
    StreamEqualsBatch(ds);
    assert AllText(ds[..1]) == [0xD83D];
  }
}
