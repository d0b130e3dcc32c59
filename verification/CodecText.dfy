/** Which strings of bytes are texts: section 3 of RFC 3629, the encodings of sequences of
    Unicode scalar values. */
module CodecText {
  import opened CodecModel

  predicate Scalar(c: nat) { c <= 0x10_FFFF && !(0xD800 <= c <= 0xDFFF) }

  /** The bits of a character, six to each byte after the first. */
  function EncodeChar(c: nat): (bytes: seq<Byte>)
    requires Scalar(c)
    ensures 1 <= |bytes| <= 4
  {
    if c < 0x80 then [c]
    else if c < 0x800 then [0xC0 + c / 64, 0x80 + c % 64]
    else if c < 0x1_0000 then [0xE0 + c / 4096, 0x80 + c / 64 % 64, 0x80 + c % 64]
    else [0xF0 + c / 0x4_0000, 0x80 + c / 4096 % 64, 0x80 + c / 64 % 64, 0x80 + c % 64]
  }

  predicate AllScalars(text: seq<nat>) { forall i :: 0 <= i < |text| ==> Scalar(text[i]) }

  function EncodeText(text: seq<nat>): seq<Byte>
    requires AllScalars(text)
    decreases |text|
  {
    if text == [] then [] else EncodeChar(text[0]) + EncodeText(text[1..])
  }

  /** An encoded character is recognised, whatever follows it. */
  lemma EncodedIsChar(c: nat, rest: seq<Byte>)
    requires Scalar(c)
    ensures CharLength(EncodeChar(c) + rest) == |EncodeChar(c)|
  {
  }

  /** The six low bits of a byte after the first. */
  function Six(b: Byte): (n: nat)
    requires Tail(b)
    ensures n < 64 && b == 0x80 + n
  {
    (b as int - 0x80) as nat
  }

  /** What a first byte says, less the marker of the length. */
  function First(b: Byte, marker: nat): (n: nat)
    requires marker <= b
    ensures b == marker + n
  {
    (b as int - marker) as nat
  }

  lemma Join(high: nat, low: nat)
    requires low < 64
    ensures (high * 64 + low) / 64 == high && (high * 64 + low) % 64 == low
  {
  }

  lemma TwoBytes(a: nat, b: nat)
    requires 2 <= a < 32 && b < 64
    ensures var c := a * 64 + b; Scalar(c) && EncodeChar(c) == [0xC0 + a, 0x80 + b]
  {
    Join(a, b);
  }

  lemma ThreeBytes(a: nat, b: nat, d: nat)
    requires a < 16 && b < 64 && d < 64 && (a > 0 || b >= 32) && !(a == 13 && b >= 32)
    ensures var c := (a * 64 + b) * 64 + d; Scalar(c) && EncodeChar(c) == [0xE0 + a, 0x80 + b, 0x80 + d]
  {
    Join(a * 64 + b, d);
    Join(a, b);
    assert ((a * 64 + b) * 64 + d) / 4096 == a;
  }

  lemma FourBytes(a: nat, b: nat, d: nat, f: nat)
    requires a < 5 && b < 64 && d < 64 && f < 64 && (a > 0 || b >= 16) && (a == 4 ==> b < 16)
    ensures var c := ((a * 64 + b) * 64 + d) * 64 + f;
            Scalar(c) && EncodeChar(c) == [0xF0 + a, 0x80 + b, 0x80 + d, 0x80 + f]
  {
    var c := ((a * 64 + b) * 64 + d) * 64 + f;
    Join((a * 64 + b) * 64 + d, f);
    Join(a * 64 + b, d);
    Join(a, b);
    assert c / 4096 == a * 64 + b && c / 0x4_0000 == a;
  }

  /** Bytes recognised as a character encode one. */
  lemma CharIsEncoded(s: seq<Byte>) returns (c: nat)
    requires CharLength(s) > 0
    ensures Scalar(c) && s[..CharLength(s)] == EncodeChar(c)
  {
    if CharLength(s) == 1 {
      c := First(s[0], 0);
    } else if CharLength(s) == 2 {
      var a, b := First(s[0], 0xC0), Six(s[1]);
      c := a * 64 + b;
      TwoBytes(a, b);
    } else if CharLength(s) == 3 {
      var a, b, d := First(s[0], 0xE0), Six(s[1]), Six(s[2]);
      c := (a * 64 + b) * 64 + d;
      ThreeBytes(a, b, d);
    } else {
      var a, b, d, f := First(s[0], 0xF0), Six(s[1]), Six(s[2]), Six(s[3]);
      c := ((a * 64 + b) * 64 + d) * 64 + f;
      FourBytes(a, b, d, f);
    }
  }

  lemma {:induction false} EncodedIsValid(text: seq<nat>)
    requires AllScalars(text)
    ensures ValidUtf8(EncodeText(text))
    decreases |text|
  {
    if text != [] {
      var first, rest := EncodeChar(text[0]), EncodeText(text[1..]);
      EncodedIsChar(text[0], rest);
      EncodedIsValid(text[1..]);
      assert (first + rest)[|first|..] == rest;
    }
  }

  lemma {:induction false} ValidIsEncoded(s: seq<Byte>) returns (text: seq<nat>)
    requires ValidUtf8(s)
    ensures AllScalars(text) && s == EncodeText(text)
    decreases |s|
  {
    if s == [] {
      text := [];
    } else {
      var n := CharLength(s);
      var first := CharIsEncoded(s);
      var rest := ValidIsEncoded(s[n..]);
      text := [first] + rest;
      assert text[1..] == rest && s == s[..n] + s[n..];
    }
  }

  /** The strings that decode are exactly the texts. */
  lemma ValidIffText(s: seq<Byte>)
    ensures ValidUtf8(s) <==> exists text :: AllScalars(text) && s == EncodeText(text)
  {
    if ValidUtf8(s) {
      var text := ValidIsEncoded(s);
    }
    if text :| AllScalars(text) && s == EncodeText(text) {
      EncodedIsValid(text);
    }
  }
}
