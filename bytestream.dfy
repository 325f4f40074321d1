/** `ByteBufferBackedInputStream` (XmlToRoomImporter.kt): an input stream over
    a byte buffer that was wrapped around the whole raw resource, so the
    buffer's limit is the length of the wrapped bytes and only its position
    moves. */
module ByteStream {

  /** A JVM `byte`: signed, two's complement. */
  newtype Byte = x: int | -128 <= x < 128

  /** `b.toInt() and 0xff`: the unsigned value of the byte's bit pattern. The
      remainder of Dafny's `%` is never negative, which is what masking the
      low eight bits of a two's-complement value gives. */
  function Unsigned(b: Byte): (u: int)
    ensures 0 <= u < 256
    ensures b as int == if u < 128 then u else u - 256
  {
    (b as int) % 256
  }

  lemma UnsignedInjective(a: Byte, b: Byte)
    ensures Unsigned(a) == Unsigned(b) ==> a == b
  {
  }

  /** What a bulk read ends in: a count (or -1 at end of stream), or the
      `IndexOutOfBoundsException` that `ByteBuffer.get(dst, off, n)` throws when
      `off` and `n` do not describe a range of `dst`. */
  datatype ReadOutcome = Returned(n: int) | IndexOutOfBounds

  class ByteBufferBackedInputStream {
    const buffer: seq<Byte>
    var position: nat

    ghost predicate Valid()
      reads this
    {
      position <= |buffer|
    }

    /** `ByteBuffer.remaining()`. */
    function Remaining(): (n: nat)
      reads this
      requires Valid()
      ensures n == |buffer| - position
    {
      |buffer| - position
    }

    /** `ByteBuffer.wrap(bytes)`: position 0, limit = length. */
    constructor (bytes: seq<Byte>)
      ensures Valid() && buffer == bytes && position == 0
    {
      buffer := bytes;
      position := 0;
    }

    /** `read()`: -1 exactly when nothing remains; otherwise the next byte as
        0..255, and the position moves by one. */
    method Read() returns (r: int)
      requires Valid()
      modifies this`position
      ensures Valid()
      ensures r == -1 <==> old(Remaining()) == 0
      ensures old(Remaining()) == 0 ==> position == old(position)
      ensures old(Remaining()) > 0 ==>
        0 <= r < 256 && r == Unsigned(buffer[old(position)]) && position == old(position) + 1
    {
      if position == |buffer| {
        r := -1;
      } else {
        r := Unsigned(buffer[position]);
        position := position + 1;
      }
    }

    /** `read(bytes, off, len)`: -1 when nothing remains (whatever `off` and
        `len` are); otherwise `n = min(len, remaining)` bytes are copied into
        `bytes[off..off + n)` and `n` is returned. The range check is made on
        `n`, not on `len`, so a `len` that overruns `bytes` is accepted as long
        as the remaining input is short enough. */
    method ReadInto(bytes: array<Byte>, off: int, len: int) returns (r: ReadOutcome)
      requires Valid()
      modifies this`position, bytes
      ensures Valid()
      ensures old(Remaining()) == 0 ==>
        r == Returned(-1) && position == old(position) && bytes[..] == old(bytes[..])
      ensures old(Remaining()) > 0 ==>
        var n := if len < old(Remaining()) then len else old(Remaining());
        if off < 0 || n < 0 || off + n > bytes.Length then
          r == IndexOutOfBounds && position == old(position) && bytes[..] == old(bytes[..])
        else
          && r == Returned(n)
          && position == old(position) + n
          && bytes[..] == old(bytes[..off]) + buffer[old(position)..old(position) + n] + old(bytes[off + n..])
    {
      if position == |buffer| {
        return Returned(-1);
      }
      var n := if len < |buffer| - position then len else |buffer| - position;
      if off < 0 || n < 0 || off + n > bytes.Length {
        return IndexOutOfBounds;
      }
      forall k | off <= k < off + n {
        bytes[k] := buffer[position + (k - off)];
      }
      assert bytes[..] == old(bytes[..off]) + buffer[position..position + n] + old(bytes[off + n..]);
      position := position + n;
      r := Returned(n);
    }
  }
}
