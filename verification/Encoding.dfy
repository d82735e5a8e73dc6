/** What the byte counts of module Utf8 count. */
module Encoding {
  import opened Utf8

  // The bytes are those of section 3 of RFC 3629, over the Unicode scalar values that UTF-16
  // code units stand for (section 2 of RFC 2781). As `TextEncoder` does, an unpaired surrogate
  // is encoded as U+FFFD.

  type Byte = b: int | 0 <= b < 0x100

  type Scalar = c: int | 0 <= c < 0xD800 || 0xE000 <= c < 0x11_0000

  /* ---------- scalar values and code units ---------- */

  function Units(c: Scalar): (t: Text)
    ensures |t| == if c < 0x1_0000 then 1 else 2
  {
    if c < 0x1_0000 then [c] else [0xD800 + (c - 0x1_0000) / 0x400, 0xDC00 + (c - 0x1_0000) % 0x400]
  }

  function Utf16(cs: seq<Scalar>): Text {
    if cs == [] then [] else Units(cs[0]) + Utf16(cs[1..])
  }

  function FirstScalar(t: Text): Scalar
    requires t != []
  {
    if StartsWithPair(t) then
      var high: int, low: int := t[0], t[1];
      0x1_0000 + (high - 0xD800) * 0x400 + (low - 0xDC00)
    else if IsHigh(t[0]) || IsLow(t[0]) then 0xFFFD
    else t[0]
  }

  function Scalars(t: Text): seq<Scalar> {
    if t == [] then [] else [FirstScalar(t)] + Scalars(t[FirstUnits(t)..])
  }

  predicate PairedAt(t: Text, i: nat)
    requires i < |t|
  {
    && (IsHigh(t[i]) ==> i + 1 < |t| && IsLow(t[i + 1]))
    && (IsLow(t[i]) ==> i > 0 && IsHigh(t[i - 1]))
  }

  /** Every surrogate is half of a pair. */
  predicate Paired(t: Text) {
    forall i :: 0 <= i < |t| ==> PairedAt(t, i)
  }

  lemma FirstOfUnits(c: Scalar, rest: Text)
    ensures FirstUnits(Units(c) + rest) == |Units(c)| && FirstScalar(Units(c) + rest) == c
  {
    if c >= 0x1_0000 {
      var d := c - 0x1_0000;
      assert d == (d / 0x400) * 0x400 + d % 0x400;
    }
  }

  lemma {:induction false} ScalarsOfUtf16(cs: seq<Scalar>)
    ensures Scalars(Utf16(cs)) == cs
  {
    if cs != [] {
      var rest := Utf16(cs[1..]);
      FirstOfUnits(cs[0], rest);
      assert (Units(cs[0]) + rest)[|Units(cs[0])|..] == rest;
      ScalarsOfUtf16(cs[1..]);
    }
  }

  lemma PairedRest(t: Text)
    requires t != [] && Paired(t)
    ensures Paired(t[FirstUnits(t)..])
    ensures Units(FirstScalar(t)) == t[..FirstUnits(t)]
  {
    assert PairedAt(t, 0);
    var n := FirstUnits(t);
    var rest := t[n..];
    forall i | 0 <= i < |rest| ensures PairedAt(rest, i) {
      assert PairedAt(t, n + i);
    }
    if n == 2 {
      var high: int, low: int := t[0], t[1];
      var d := (high - 0xD800) * 0x400 + (low - 0xDC00);
      assert d / 0x400 == high - 0xD800 && d % 0x400 == low - 0xDC00;
    }
  }

  lemma Utf16Cons(c: Scalar, cs: seq<Scalar>)
    ensures Utf16([c] + cs) == Units(c) + Utf16(cs)
  {
    assert ([c] + cs)[1..] == cs;
  }

  lemma {:induction false} Utf16OfScalars(t: Text)
    requires Paired(t)
    ensures Utf16(Scalars(t)) == t
  {
    if t != [] {
      var n := FirstUnits(t);
      PairedRest(t);
      Utf16OfScalars(t[n..]);
      Utf16First(t);
    }
  }

  lemma Utf16First(t: Text)
    requires t != [] && Units(FirstScalar(t)) == t[..FirstUnits(t)]
    requires Utf16(Scalars(t[FirstUnits(t)..])) == t[FirstUnits(t)..]
    ensures Utf16(Scalars(t)) == t
  {
    var n := FirstUnits(t);
    var rest := Scalars(t[n..]);
    assert Scalars(t) == [FirstScalar(t)] + rest;
    Utf16Cons(FirstScalar(t), rest);
    assert t[..n] + t[n..] == t;
  }

  /* ---------- scalar values and bytes ---------- */

  /** The byte layout of one scalar value. */
  function EncodeScalar(c: Scalar): seq<Byte> {
    if c < 0x80 then [c]
    else if c < 0x800 then [0xC0 + c / 0x40, 0x80 + c % 0x40]
    else if c < 0x1_0000 then [0xE0 + c / 0x1000, 0x80 + c / 0x40 % 0x40, 0x80 + c % 0x40]
    else [0xF0 + c / 0x4_0000, 0x80 + c / 0x1000 % 0x40, 0x80 + c / 0x40 % 0x40, 0x80 + c % 0x40]
  }

  function EncodeScalars(cs: seq<Scalar>): seq<Byte> {
    if cs == [] then [] else EncodeScalar(cs[0]) + EncodeScalars(cs[1..])
  }

  /** How many bytes a leading byte announces. */
  function Announced(b: Byte): nat {
    if b < 0x80 then 1 else if b < 0xE0 then 2 else if b < 0xF0 then 3 else 4
  }

  /** The value of a byte sequence that starts with a leading byte. */
  function Value(bs: seq<int>): int
    requires 1 <= |bs| <= 4
  {
    match |bs|
    case 1 => bs[0]
    case 2 => (bs[0] - 0xC0) * 0x40 + (bs[1] - 0x80)
    case 3 => (bs[0] - 0xE0) * 0x1000 + (bs[1] - 0x80) * 0x40 + (bs[2] - 0x80)
    case _ => (bs[0] - 0xF0) * 0x4_0000 + (bs[1] - 0x80) * 0x1000 + (bs[2] - 0x80) * 0x40 + (bs[3] - 0x80)
  }

  /** Decoding; what follows a truncated end is not decoded. */
  function Decode(bs: seq<Byte>): seq<int> {
    if bs == [] || Announced(bs[0]) > |bs| then []
    else [Value(bs[..Announced(bs[0])])] + Decode(bs[Announced(bs[0])..])
  }

  lemma ValueOfScalar(c: Scalar)
    ensures var bs := EncodeScalar(c);
      1 <= |bs| <= 4 && Announced(bs[0]) == |bs| && Value(bs) == c
  {
    var high, mid := c / 0x1000, c / 0x40;
    assert c == mid * 0x40 + c % 0x40;
    assert mid == high * 0x40 + mid % 0x40;
    assert high == c / 0x4_0000 * 0x40 + high % 0x40;
  }

  lemma {:induction false} DecodeEncoded(cs: seq<Scalar>)
    ensures Decode(EncodeScalars(cs)) == cs
  {
    if cs != [] {
      var first, rest := EncodeScalar(cs[0]), EncodeScalars(cs[1..]);
      ValueOfScalar(cs[0]);
      assert (first + rest)[..|first|] == first && (first + rest)[|first|..] == rest;
      DecodeEncoded(cs[1..]);
    }
  }

  /* ---------- texts and bytes ---------- */

  function Encode(t: Text): seq<Byte> {
    EncodeScalars(Scalars(t))
  }

  /** `ByteLength` is the number of bytes of the encoding. */
  lemma {:induction false} ByteLengthIsEncodedSize(t: Text)
    ensures |Encode(t)| == ByteLength(t)
  {
    if t != [] {
      ByteLengthIsEncodedSize(t[FirstUnits(t)..]);
      assert Scalars(t)[1..] == Scalars(t[FirstUnits(t)..]);
    }
  }

  /** For the code units of any scalar values, that encoding is theirs. */
  lemma EncodesScalars(cs: seq<Scalar>)
    ensures Encode(Utf16(cs)) == EncodeScalars(cs)
    ensures ByteLength(Utf16(cs)) == |EncodeScalars(cs)|
  {
    ScalarsOfUtf16(cs);
    ByteLengthIsEncodedSize(Utf16(cs));
  }

  /** Nothing is lost but unpaired surrogates: decoded, the bytes give the text back. */
  lemma EncodingRoundTrip(t: Text)
    ensures Decode(Encode(t)) == Scalars(t)
    ensures Utf16(Scalars(t)) == t <==> Paired(t)
  {
    DecodeEncoded(Scalars(t));
    if Paired(t) {
      Utf16OfScalars(t);
    } else if Utf16(Scalars(t)) == t {
      Utf16IsPaired(Scalars(t));
    }
  }

  lemma {:induction false} Utf16IsPaired(cs: seq<Scalar>)
    ensures Paired(Utf16(cs))
  {
    if cs != [] {
      var first, rest := Units(cs[0]), Utf16(cs[1..]);
      Utf16IsPaired(cs[1..]);
      var t := first + rest;
      var n := |first|;
      forall i | 0 <= i < |t| ensures PairedAt(t, i) {
        if i >= n {
          assert PairedAt(rest, i - n);
        }
      }
    }
  }

  /** Code points are scalar values. */
  lemma {:induction false} CodePointsAreScalars(t: Text)
    ensures CodePoints(t) == |Scalars(t)|
  {
    if t != [] {
      CodePointsAreScalars(t[FirstUnits(t)..]);
    }
  }

  /** White space and line terminators of ECMAScript, one by one. */
  lemma SpacesAre(u: CodeUnit)
    ensures IsSpace(u) <==> u in {
      0x9, 0xA, 0xB, 0xC, 0xD, 0x20, 0xA0, 0x1680, 0x2000, 0x2001, 0x2002, 0x2003, 0x2004, 0x2005, 0x2006,
      0x2007, 0x2008, 0x2009, 0x200A, 0x2028, 0x2029, 0x202F, 0x205F, 0x3000, 0xFEFF}
  {
  }
}
