/** Encoding and decoding undo each other, on exactly the strings whose length fits. */
module CodecTheorems {
  import opened Options
  import opened CodecModel

  lemma {:induction false} LittleRoundTrip(n: nat, width: nat)
    requires n < Power256(width)
    ensures FromLittle(LittleBytes(n, width)) == n
    decreases width
  {
    if width > 0 {
      LittleRoundTrip(n / 256, width - 1);
      assert LittleBytes(n, width)[1..] == LittleBytes(n / 256, width - 1);
    }
  }

  lemma {:induction false} LittleCanonical(bytes: seq<Byte>)
    ensures FromLittle(bytes) < Power256(|bytes|)
    ensures LittleBytes(FromLittle(bytes), |bytes|) == bytes
    decreases |bytes|
  {
    if bytes != [] {
      LittleCanonical(bytes[1..]);
      var n := FromLittle(bytes);
      assert n % 256 == bytes[0] && n / 256 == FromLittle(bytes[1..]);
      assert bytes == [bytes[0]] + bytes[1..];
    }
  }

  lemma ReverseTwice(s: seq<Byte>)
    ensures Reversed(Reversed(s)) == s
  {
  }

  /** Both byte orders: a number that fits is read back, and any bytes are the bytes of
      the number they stand for. */
  lemma {:induction false} IntegerRoundTrip(e: Endian, n: nat, width: nat)
    requires n < Power256(width)
    ensures FromBytes(e, ToBytes(e, n, width)) == n
  {
    LittleRoundTrip(n, width);
    ReverseTwice(LittleBytes(n, width));
  }

  lemma {:induction false} IntegerCanonical(e: Endian, bytes: seq<Byte>)
    ensures FromBytes(e, bytes) < Power256(|bytes|) && ToBytes(e, FromBytes(e, bytes), |bytes|) == bytes
  {
    match e
    case Little => LittleCanonical(bytes);
    case Big =>
      LittleCanonical(Reversed(bytes));
      ReverseTwice(bytes);
  }

  /** The byte of weight 256^i of a number. */
  function ByteOf(n: nat, i: nat): Byte
    decreases i
  {
    if i == 0 then n % 256 else ByteOf(n / 256, i - 1)
  }

  lemma {:induction false} LittleByte(n: nat, width: nat, i: nat)
    requires i < width
    ensures LittleBytes(n, width)[i] == ByteOf(n, i)
    decreases width
  {
    if i > 0 {
      LittleByte(n / 256, width - 1, i - 1);
    }
  }

  /** On a little-endian machine the lowest byte comes first, on a big-endian one the highest. */
  lemma ByteOrder(e: Endian, n: nat, width: nat, i: nat)
    requires i < width
    ensures ToBytes(e, n, width)[i] == ByteOf(n, if e.Little? then i else width - 1 - i)
  {
    LittleByte(n, width, if e.Little? then i else width - 1 - i);
  }

  lemma Widths()
    ensures Power256(2) == U16 && Power256(4) == U32
  {
    assert Power256(1) == 256 && Power256(3) == 256 * Power256(2);
  }

  lemma U16RoundTrip(e: Endian, n: nat)
    requires n < U16
    ensures FromBytes(e, ToBytes(e, n, 2)) == n
  {
    Widths();
    IntegerRoundTrip(e, n, 2);
  }

  lemma U32RoundTrip(e: Endian, n: nat)
    requires n < U32
    ensures FromBytes(e, ToBytes(e, n, 4)) == n
  {
    Widths();
    IntegerRoundTrip(e, n, 4);
  }

  lemma U16Canonical(e: Endian, bytes: seq<Byte>)
    requires |bytes| == 2
    ensures FromBytes(e, bytes) < U16 && ToBytes(e, FromBytes(e, bytes), 2) == bytes
  {
    Widths();
    IntegerCanonical(e, bytes);
  }

  lemma U32Canonical(e: Endian, bytes: seq<Byte>)
    requires |bytes| == 4
    ensures FromBytes(e, bytes) < U32 && ToBytes(e, FromBytes(e, bytes), 4) == bytes
  {
    Widths();
    IntegerCanonical(e, bytes);
  }

  /** The header of a record lies at position `p`. */
  predicate HeaderAt(e: Endian, bytes: seq<Byte>, p: nat, d: Data) {
    && p + 10 <= |bytes|
    && bytes[p..p + 4] == ToBytes(e, d.field1, 4)
    && bytes[p + 4..p + 6] == ToBytes(e, d.field2, 2)
    && bytes[p + 6..p + 10] == ToBytes(e, |d.field3| % U32, 4)
  }

  predicate RecordAt(e: Endian, bytes: seq<Byte>, p: nat, d: Data) {
    && HeaderAt(e, bytes, p, d)
    && p + 10 + |d.field3| <= |bytes| && bytes[p + 10..p + 10 + |d.field3|] == d.field3
  }

  /** Four parts between two others, cut out again. */
  lemma Parts(x: seq<Byte>, a: seq<Byte>, b: seq<Byte>, c: seq<Byte>, f: seq<Byte>, y: seq<Byte>)
    requires |a| == 4 && |b| == 2 && |c| == 4
    ensures var all := x + (a + b + c + f) + y;
            var p := |x|;
            && all[p..p + 4] == a && all[p + 4..p + 6] == b && all[p + 6..p + 10] == c
            && all[p + 10..p + 10 + |f|] == f
  {
  }

  /** Where the fields of an encoded record lie in a longer string. */
  lemma {:induction false} Layout(e: Endian, d: Data, before: seq<Byte>, after: seq<Byte>)
    ensures RecordAt(e, before + Serialize(e, d) + after, |before|, d)
  {
    Parts(before, ToBytes(e, d.field1, 4), ToBytes(e, d.field2, 2), ToBytes(e, |d.field3| % U32, 4), d.field3, after);
  }

  lemma {:induction false} HeaderDecodes(e: Endian, bytes: seq<Byte>, p: nat, d: Data)
    requires d.field1 < U32 && d.field2 < U16 && HeaderAt(e, bytes, p, d)
    ensures FromBytes(e, bytes[p..p + 4]) == d.field1 && FromBytes(e, bytes[p + 4..p + 6]) == d.field2
    ensures FromBytes(e, bytes[p + 6..p + 10]) == |d.field3| % U32
  {
    U32RoundTrip(e, d.field1);
    U16RoundTrip(e, d.field2);
    U32RoundTrip(e, |d.field3| % U32);
  }

  /** `Deserialize`, once its parts are known. */
  lemma {:induction false} DecodeParts(e: Endian, bytes: seq<Byte>, p: nat, n1: nat, n2: nat, f: seq<Byte>)
    requires p + 10 + |f| <= |bytes| && bytes[p + 10..p + 10 + |f|] == f && ValidUtf8(f)
    requires FromBytes(e, bytes[p..p + 4]) == n1 && FromBytes(e, bytes[p + 4..p + 6]) == n2
    requires FromBytes(e, bytes[p + 6..p + 10]) == |f|
    ensures Deserialize(e, bytes, p) == Ok(Data(n1, n2, f), p + 10 + |f|)
  {
  }

  lemma {:induction false} DecodeAt(e: Endian, bytes: seq<Byte>, p: nat, d: Data)
    requires Typed(d) && |d.field3| < U32 && RecordAt(e, bytes, p, d)
    ensures Deserialize(e, bytes, p) == Ok(d, p + 10 + |d.field3|)
  {
    HeaderDecodes(e, bytes, p, d);
    DecodeParts(e, bytes, p, d.field1, d.field2, d.field3);
  }

  /** Deserialising an encoded record, whatever surrounds it, gives it back and stops
      right after it. */
  lemma {:induction false} RoundTrip(e: Endian, d: Data, before: seq<Byte>, after: seq<Byte>)
    requires Typed(d) && |d.field3| < U32
    ensures Deserialize(e, before + Serialize(e, d) + after, |before|) == Ok(d, |before| + 10 + |d.field3|)
  {
    Layout(e, d, before, after);
    DecodeAt(e, before + Serialize(e, d) + after, |before|, d);
  }

  lemma {:induction false} LayoutAlone(e: Endian, d: Data)
    ensures RecordAt(e, Serialize(e, d), 0, d)
  {
    assert [] + Serialize(e, d) + [] == Serialize(e, d);
    Layout(e, d, [], []);
  }

  /** Byte by byte: four bytes of the first field, two of the second, four of the length
      modulo 2^32, and the string. */
  lemma {:induction false} RecordBytes(e: Endian, d: Data, i: nat)
    requires i < 10 + |d.field3|
    ensures Serialize(e, d)[i] ==
            if i < 4 then ByteOf(d.field1, if e.Little? then i else 3 - i)
            else if i < 6 then ByteOf(d.field2, if e.Little? then i - 4 else 5 - i)
            else if i < 10 then ByteOf(|d.field3| % 0x1_0000_0000, if e.Little? then i - 6 else 9 - i)
            else d.field3[i - 10]
  {
    if i < 4 {
      ByteOrder(e, d.field1, 4, i);
    } else if i < 6 {
      ByteOrder(e, d.field2, 2, i - 4);
    } else if i < 10 {
      ByteOrder(e, |d.field3| % U32, 4, i - 6);
    }
  }

  lemma {:induction false} RejectParts(e: Endian, bytes: seq<Byte>, p: nat, f: seq<Byte>)
    requires p + 10 + |f| <= |bytes| && bytes[p + 10..p + 10 + |f|] == f && !ValidUtf8(f)
    requires FromBytes(e, bytes[p + 6..p + 10]) == |f|
    ensures Deserialize(e, bytes, p) == InvalidUtf8
  {
  }

  lemma {:induction false} BadTextAt(e: Endian, bytes: seq<Byte>, p: nat, d: Data)
    requires |d.field3| < U32 && RecordAt(e, bytes, p, d) && !ValidUtf8(d.field3)
    ensures Deserialize(e, bytes, p) == InvalidUtf8
  {
    LengthDecodes(e, bytes, p, d);
    RejectParts(e, bytes, p, d.field3);
  }

  /** A record whose bytes are no text is rejected as such, not as cut short. */
  lemma {:induction false} BadTextRejected(e: Endian, d: Data, before: seq<Byte>, after: seq<Byte>)
    requires |d.field3| < U32 && !ValidUtf8(d.field3)
    ensures Deserialize(e, before + Serialize(e, d) + after, |before|) == InvalidUtf8
  {
    Layout(e, d, before, after);
    BadTextAt(e, before + Serialize(e, d) + after, |before|, d);
  }

  /** A record whose length was truncated decodes to a shorter string, or not at all. */
  lemma {:induction false} TruncatedLength(e: Endian, bytes: seq<Byte>, d: Data)
    requires HeaderAt(e, bytes, 0, d) && |d.field3| >= U32
    ensures Deserialize(e, bytes, 0).Ok? ==> |Deserialize(e, bytes, 0).data.field3| < |d.field3|
  {
    U32RoundTrip(e, |d.field3| % U32);
  }

  /** The round trip works exactly for strings shorter than 2^32 bytes: a longer one
      is never read back, because its length is truncated. */
  lemma {:induction false} RoundTripIff(e: Endian, d: Data)
    requires Typed(d)
    ensures (exists pos :: Deserialize(e, Serialize(e, d), 0) == Ok(d, pos)) <==> |d.field3| < U32
  {
    LayoutAlone(e, d);
    if |d.field3| < U32 {
      DecodeAt(e, Serialize(e, d), 0, d);
    } else {
      TruncatedLength(e, Serialize(e, d), d);
    }
  }

  lemma FourParts(bytes: seq<Byte>, p: nat, n: nat)
    requires p + 10 + n <= |bytes|
    ensures bytes[p..p + 10 + n]
         == bytes[p..p + 4] + bytes[p + 4..p + 6] + bytes[p + 6..p + 10] + bytes[p + 10..p + 10 + n]
  {
  }

  lemma {:induction false} SerializeParts(e: Endian, d: Data, a: seq<Byte>, b: seq<Byte>, c: seq<Byte>)
    requires ToBytes(e, d.field1, 4) == a && ToBytes(e, d.field2, 2) == b && ToBytes(e, |d.field3| % U32, 4) == c
    ensures Serialize(e, d) == a + b + c + d.field3
  {
  }

  /** Header bytes and a string of the length they give are an encoding. */
  lemma {:induction false} Encoded(e: Endian, a: seq<Byte>, b: seq<Byte>, c: seq<Byte>, f: seq<Byte>)
    requires |a| == 4 && |b| == 2 && |c| == 4 && |f| == FromBytes(e, c)
    ensures var d := Data(FromBytes(e, a), FromBytes(e, b), f);
            d.field1 < U32 && d.field2 < U16 && |f| < U32 && Serialize(e, d) == a + b + c + f
  {
    U32Canonical(e, a);
    U16Canonical(e, b);
    U32Canonical(e, c);
    assert |f| % U32 == |f|;
    SerializeParts(e, Data(FromBytes(e, a), FromBytes(e, b), f), a, b, c);
  }

  /** Only encodings decode: success at `pos` has consumed exactly the serialisation of
      the record it returns, which is well typed. */
  lemma {:induction false} OnlyEncodingsDecode(e: Endian, bytes: seq<Byte>, pos: nat)
    requires Deserialize(e, bytes, pos).Ok?
    ensures var r := Deserialize(e, bytes, pos);
            && Typed(r.data) && |r.data.field3| < U32
            && r.pos == pos + 10 + |r.data.field3| <= |bytes|
            && bytes[pos..r.pos] == Serialize(e, r.data)
  {
    var n := FromBytes(e, bytes[pos + 6..pos + 10]);
    FourParts(bytes, pos, n);
    Encoded(e, bytes[pos..pos + 4], bytes[pos + 4..pos + 6], bytes[pos + 6..pos + 10], bytes[pos + 10..pos + 10 + n]);
  }

  lemma {:induction false} ShortStringRejected(e: Endian, bytes: seq<Byte>, d: Data)
    requires |bytes| < 10 + |d.field3|
    requires |bytes| >= 10 ==> FromBytes(e, bytes[6..10]) == |d.field3|
    ensures Deserialize(e, bytes, 0) == UnexpectedEof
  {
  }

  lemma {:induction false} LengthDecodes(e: Endian, bytes: seq<Byte>, p: nat, d: Data)
    requires |d.field3| < U32 && HeaderAt(e, bytes, p, d)
    ensures FromBytes(e, bytes[p + 6..p + 10]) == |d.field3|
  {
    var length := |d.field3| % U32;
    U32RoundTrip(e, length);
  }

  lemma {:induction false} PrefixAt(e: Endian, whole: seq<Byte>, d: Data, n: nat)
    requires |d.field3| < U32 && HeaderAt(e, whole, 0, d) && |whole| == 10 + |d.field3| && n < |whole|
    ensures Deserialize(e, whole[..n], 0) == UnexpectedEof
  {
    LengthDecodes(e, whole, 0, d);
    CutShort(e, whole, d, n);
  }

  lemma {:induction false} CutShort(e: Endian, whole: seq<Byte>, d: Data, n: nat)
    requires |whole| == 10 + |d.field3| && n < |whole| && FromBytes(e, whole[6..10]) == |d.field3|
    ensures Deserialize(e, whole[..n], 0) == UnexpectedEof
  {
    assert n >= 10 ==> whole[..n][6..10] == whole[6..10];
    ShortStringRejected(e, whole[..n], d);
  }

  /** Every strict prefix of an encoding is rejected. */
  lemma {:induction false} StrictPrefixRejected(e: Endian, d: Data, n: nat)
    requires Typed(d) && |d.field3| < U32 && n < |Serialize(e, d)|
    ensures Deserialize(e, Serialize(e, d)[..n], 0) == UnexpectedEof
  {
    LayoutAlone(e, d);
    PrefixAt(e, Serialize(e, d), d, n);
  }

  predicate Sendable(ds: seq<Data>) {
    forall i :: 0 <= i < |ds| ==> Typed(ds[i]) && |ds[i].field3| < U32
  }

  /** A decoded record in front of decoded bytes. */
  lemma DecodeMore(e: Endian, bytes: seq<Byte>, pos: nat, next: nat, d: Data, ds: seq<Data>)
    requires pos < next <= |bytes| && Deserialize(e, bytes, pos) == Ok(d, next)
    requires DeserializeAll(e, bytes, next) == Some(ds)
    ensures DeserializeAll(e, bytes, pos) == Some([d] + ds)
  {
  }

  lemma Assoc(a: seq<Byte>, b: seq<Byte>, c: seq<Byte>)
    ensures a + (b + c) == a + b + c
  {
  }

  /** A record in front of bytes that decode to a list. */
  lemma OneMoreRecord(e: Endian, d: Data, ds: seq<Data>, before: seq<Byte>, rest: seq<Byte>)
    requires Typed(d) && |d.field3| < U32
    requires var enc := before + Serialize(e, d); DeserializeAll(e, enc + rest, |enc|) == Some(ds)
    ensures DeserializeAll(e, before + (Serialize(e, d) + rest), |before|) == Some([d] + ds)
  {
    var enc := Serialize(e, d);
    RoundTrip(e, d, before, rest);
    Assoc(before, enc, rest);
    DecodeMore(e, before + enc + rest, |before|, |before + enc|, d, ds);
  }

  /** Any list of records, encoded one after the other, decodes to the same list. */
  lemma {:induction false} ListRoundTrip(e: Endian, ds: seq<Data>, before: seq<Byte>)
    requires Sendable(ds)
    ensures DeserializeAll(e, before + SerializeAll(e, ds), |before|) == Some(ds)
    decreases |ds|
  {
    if ds == [] {
      assert before + [] == before;
    } else {
      ListRoundTrip(e, ds[1..], before + Serialize(e, ds[0]));
      OneMoreRecord(e, ds[0], ds[1..], before, SerializeAll(e, ds[1..]));
      assert ds == [ds[0]] + ds[1..];
    }
  }
}
