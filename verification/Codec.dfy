/** Serialisation, deserialisation and the chunked receiver as the source writes them. */
module Codec {
  import opened Options
  import opened CodecModel
  import opened CodecTheorems

  method SerializeData(e: Endian, d: Data) returns (bytes: seq<Byte>)
    ensures bytes == Serialize(e, d)
  {
    bytes := [];
    bytes := bytes + ToBytes(e, d.field1, 4);
    bytes := bytes + ToBytes(e, d.field2, 2);
    var length := |d.field3| % U32;
    bytes := bytes + ToBytes(e, length, 4);
    bytes := bytes + d.field3;
  }

  class Cursor {
    const bytes: seq<Byte>
    var pos: nat

    constructor (bytes: seq<Byte>)
      ensures this.bytes == bytes && pos == 0
    {
      this.bytes, pos := bytes, 0;
    }

    /** Fills the whole buffer, or fails and moves to the end. */
    method ReadExact(buffer: array<Byte>) returns (ok: bool)
      modifies this, buffer
      ensures ok == Has(bytes, old(pos), buffer.Length)
      ensures ok ==> pos == old(pos) + buffer.Length && buffer[..] == bytes[old(pos)..pos]
      ensures !ok ==> pos == |bytes| && buffer[..] == old(buffer[..])
    {
      if pos + buffer.Length > |bytes| {
        pos := |bytes|;
        return false;
      }
      var i := 0;
      while i < buffer.Length
        invariant 0 <= i <= buffer.Length && pos == old(pos)
        invariant buffer[..i] == bytes[pos..pos + i]
      {
        buffer[i] := bytes[pos + i];
        i := i + 1;
      }
      pos := pos + buffer.Length;
      return true;
    }
  }

  /** A zeroed buffer of `n` bytes, filled from the cursor. */
  method ReadField(cursor: Cursor, n: nat) returns (r: Option<seq<Byte>>)
    modifies cursor
    ensures r == if Has(cursor.bytes, old(cursor.pos), n)
                 then Some(cursor.bytes[old(cursor.pos)..old(cursor.pos) + n]) else None
    ensures cursor.pos == if r.Some? then old(cursor.pos) + n else |cursor.bytes|
  {
    var buffer := new Byte[n](_ => 0);
    var ok := cursor.ReadExact(buffer);
    r := if ok then Some(buffer[..]) else None;
  }

  method DeserializeData(e: Endian, cursor: Cursor) returns (r: Decoded)
    modifies cursor
    ensures r == Deserialize(e, cursor.bytes, old(cursor.pos))
    ensures r.Ok? ==> cursor.pos == r.pos
  {
    var field1 := ReadField(cursor, 4);
    if field1.None? {
      return UnexpectedEof;
    }
    var field2 := ReadField(cursor, 2);
    if field2.None? {
      return UnexpectedEof;
    }
    var length := ReadField(cursor, 4);
    if length.None? {
      return UnexpectedEof;
    }
    var field3 := ReadField(cursor, FromBytes(e, length.value));
    if field3.None? {
      return UnexpectedEof;
    }
    if !ValidUtf8(field3.value) {
      return InvalidUtf8;
    }
    return Ok(Data(FromBytes(e, field1.value), FromBytes(e, field2.value), field3.value), cursor.pos);
  }

  // ---------- the receiver ----------

  /** What one attempt to lock and read the stream gives. */
  datatype Attempt = Busy | Eof | Chunk(bytes: seq<Byte>) | WouldBlock | Error(code: int)

  datatype Poll = Pending | Ready(bytes: seq<Byte>) | Failed(code: int)

  /** The bytes of the chunks among some attempts. */
  function Bytes(attempts: seq<Attempt>): seq<Byte>
    decreases |attempts|
  {
    if attempts == [] then []
    else
      var last := attempts[|attempts| - 1];
      Bytes(attempts[..|attempts| - 1]) + if last.Chunk? then last.bytes else []
  }

  predicate Final(a: Attempt) { a.Eof? || a.Error? }

  class TcpReceiver {
    var buffer: seq<Byte>

    constructor ()
      ensures buffer == []
    {
      buffer := [];
    }

    method PollOnce(a: Attempt) returns (r: Poll)
      modifies this
      ensures buffer == old(buffer) + if a.Chunk? then a.bytes else []
      ensures r == match a
                   case Eof => Ready(old(buffer))
                   case Error(code) => Failed(code)
                   case Busy => Pending
                   case WouldBlock => Pending
                   case Chunk(_) => Pending
    {
      match a
      case Busy => r := Pending;
      case Eof => r := Ready(buffer);
      case Chunk(bytes) =>
        buffer := buffer + bytes;
        r := Pending;
      case WouldBlock => r := Pending;
      case Error(code) => r := Failed(code);
    }

    /** Polled until it is ready: an end of file gives all the bytes that arrived before
        it, in order, however they were cut and however often nothing was there. */
    method Receive(attempts: seq<Attempt>) returns (r: Poll, n: nat)
      requires buffer == []
      modifies this
      ensures n <= |attempts| && forall i :: 0 <= i < n ==> !Final(attempts[i])
      ensures r.Pending? <==> n == |attempts|
      ensures n < |attempts| ==> Final(attempts[n])
      ensures n < |attempts| ==>
                r == if attempts[n].Eof? then Ready(Bytes(attempts[..n])) else Failed(attempts[n].code)
    {
      r, n := Pending, 0;
      while n < |attempts|
        invariant n <= |attempts| && r.Pending?
        invariant forall i :: 0 <= i < n ==> !Final(attempts[i])
        invariant buffer == Bytes(attempts[..n])
      {
        r := PollOnce(attempts[n]);
        if !r.Pending? {
          return;
        }
        assert attempts[..n + 1][..n] == attempts[..n];
        n := n + 1;
      }
    }
  }

  /** Records sent one after the other, received in any chunks with any would-blocks and
      lock misses between them, decode to the same list. */
  method ReceiveRecords(e: Endian, ds: seq<Data>, attempts: seq<Attempt>) returns (decoded: Option<seq<Data>>)
    requires CodecTheorems.Sendable(ds) && Bytes(attempts) == SerializeAll(e, ds)
    requires forall i :: 0 <= i < |attempts| ==> !Final(attempts[i])
    ensures decoded == Some(ds)
  {
    var receiver := new TcpReceiver();
    var all := attempts + [Eof];
    var r, n := receiver.Receive(all);
    assert all[|attempts|].Eof? && all[..|attempts|] == attempts;
    decoded := DeserializeAll(e, r.bytes, 0);
    ListRoundTrip(e, ds, []);
    assert [] + SerializeAll(e, ds) == SerializeAll(e, ds);
  }
}
