/** The binary form of a record: two integers, a length and a string, in the byte order
    of the machine. */
module CodecModel {
  import opened Options

  type Byte = x: int | 0 <= x < 256

  datatype Endian = Little | Big

  const U16: nat := 0x1_0000
  const U32: nat := 0x1_0000_0000

  // ---------- integers ----------

  function Power256(width: nat): (p: nat)
    ensures p > 0
  {
    if width == 0 then 1 else 256 * Power256(width - 1)
  }

  function LittleBytes(n: nat, width: nat): (bytes: seq<Byte>)
    ensures |bytes| == width
  {
    if width == 0 then [] else [n % 256] + LittleBytes(n / 256, width - 1)
  }

  function FromLittle(bytes: seq<Byte>): nat
    decreases |bytes|
  {
    if bytes == [] then 0 else bytes[0] + 256 * FromLittle(bytes[1..])
  }

  function Reversed(s: seq<Byte>): (r: seq<Byte>)
    ensures |r| == |s|
  {
    seq(|s|, i requires 0 <= i < |s| => s[|s| - 1 - i])
  }

  /** `to_ne_bytes` and `from_ne_bytes`. */
  function ToBytes(e: Endian, n: nat, width: nat): (bytes: seq<Byte>)
    ensures |bytes| == width
  {
    if e.Little? then LittleBytes(n, width) else Reversed(LittleBytes(n, width))
  }

  function FromBytes(e: Endian, bytes: seq<Byte>): nat {
    if e.Little? then FromLittle(bytes) else FromLittle(Reversed(bytes))
  }

  // ---------- strings: section 4 of RFC 3629 ----------

  predicate Tail(b: Byte) { 0x80 <= b <= 0xBF }

  /** Length of the well-formed character at the front, 0 if there is none. */
  function CharLength(s: seq<Byte>): (n: nat)
    ensures n <= |s|
  {
    if |s| >= 1 && s[0] <= 0x7F then 1
    else if |s| >= 2 && 0xC2 <= s[0] <= 0xDF && Tail(s[1]) then 2
    else if |s| >= 3 && Tail(s[2]) &&
            ((s[0] == 0xE0 && 0xA0 <= s[1] <= 0xBF) || (0xE1 <= s[0] <= 0xEC && Tail(s[1])) ||
             (s[0] == 0xED && 0x80 <= s[1] <= 0x9F) || (0xEE <= s[0] <= 0xEF && Tail(s[1]))) then 3
    else if |s| >= 4 && Tail(s[2]) && Tail(s[3]) &&
            ((s[0] == 0xF0 && 0x90 <= s[1] <= 0xBF) || (0xF1 <= s[0] <= 0xF3 && Tail(s[1])) ||
             (s[0] == 0xF4 && 0x80 <= s[1] <= 0x8F)) then 4
    else 0
  }

  predicate ValidUtf8(s: seq<Byte>)
    decreases |s|
  {
    s == [] || (CharLength(s) > 0 && ValidUtf8(s[CharLength(s)..]))
  }

  // ---------- records ----------

  datatype Data = Data(field1: nat, field2: nat, field3: seq<Byte>)

  /** What the Rust types u32, u16 and String guarantee. */
  predicate Typed(d: Data) { d.field1 < U32 && d.field2 < U16 && ValidUtf8(d.field3) }

  datatype Decoded = Ok(data: Data, pos: nat) | UnexpectedEof | InvalidUtf8

  /** The length is cast to u32, which truncates. */
  function Serialize(e: Endian, d: Data): (bytes: seq<Byte>)
    ensures |bytes| == 10 + |d.field3|
  {
    ToBytes(e, d.field1, 4) + ToBytes(e, d.field2, 2) + ToBytes(e, |d.field3| % U32, 4) + d.field3
  }

  predicate Has(bytes: seq<Byte>, pos: nat, n: nat) { pos + n <= |bytes| }

  function Deserialize(e: Endian, bytes: seq<Byte>, pos: nat): Decoded {
    if !Has(bytes, pos, 10) then UnexpectedEof
    else
      var length := FromBytes(e, bytes[pos + 6..pos + 10]);
      if !Has(bytes, pos + 10, length) then UnexpectedEof
      else
        var field3 := bytes[pos + 10..pos + 10 + length];
        if !ValidUtf8(field3) then InvalidUtf8
        else Ok(Data(FromBytes(e, bytes[pos..pos + 4]), FromBytes(e, bytes[pos + 4..pos + 6]), field3),
                pos + 10 + length)
  }

  // ---------- lists of records ----------

  function SerializeAll(e: Endian, ds: seq<Data>): seq<Byte>
    decreases |ds|
  {
    if ds == [] then [] else Serialize(e, ds[0]) + SerializeAll(e, ds[1..])
  }

  /** Decodes records up to the end of the bytes; None if some record is malformed. */
  function DeserializeAll(e: Endian, bytes: seq<Byte>, pos: nat): Option<seq<Data>>
    requires pos <= |bytes|
    decreases |bytes| - pos
  {
    if pos == |bytes| then Some([])
    else
      match Deserialize(e, bytes, pos)
      case Ok(d, next) =>
        if next <= pos || next > |bytes| then None
        else
          var rest := DeserializeAll(e, bytes, next);
          if rest.None? then None else Some([d] + rest.value)
      case UnexpectedEof => None
      case InvalidUtf8 => None
  }
}
