/**
 * The byte stream under the framing codec: one end of a connected pipe.
 * Bytes the peer sends are a fixed sequence consumed from a read position;
 * bytes written to the peer accumulate in order.
 */
module Pipe {
  import opened Utf16

  function Min(a: int, b: int): int {
    if a <= b then a else b
  }

  class PipeStream {
    /** Everything the peer sends over the connection, in order. */
    const incoming: seq<uint8>
    /** How much of `incoming` has been consumed. */
    var pos: nat
    /** Everything written to the peer so far, in order. */
    var outgoing: seq<uint8>

    ghost predicate Valid()
      reads this
    {
      pos <= |incoming|
    }

    /** The bytes still to be read. */
    function Remaining(): seq<uint8>
      reads this
      requires Valid()
    {
      incoming[pos..]
    }

    constructor (incoming: seq<uint8>)
      ensures Valid()
      ensures this.incoming == incoming && pos == 0 && outgoing == []
    {
      this.incoming := incoming;
      pos := 0;
      outgoing := [];
    }

    /** `Stream.ReadByte`: the next byte, or -1 once the stream has ended. */
    method ReadByte() returns (b: int)
      requires Valid()
      modifies this`pos
      ensures Valid()
      ensures old(pos) < |incoming| ==> b == incoming[old(pos)] && pos == old(pos) + 1
      ensures old(pos) == |incoming| ==> b == -1 && pos == old(pos)
    {
      if pos < |incoming| {
        b := incoming[pos];
        pos := pos + 1;
      } else {
        b := -1;
      }
    }

    /**
     * `Stream.Read(buffer, offset, count)`: copies up to `count` bytes into
     * `buffer[offset..]` and returns how many it copied. It stops short only
     * where the stream ends; the rest of the buffer is left as it was.
     */
    method Read(buffer: array<uint8>, offset: nat, count: nat) returns (n: nat)
      requires Valid()
      requires offset + count <= buffer.Length
      modifies this`pos, buffer
      ensures Valid()
      ensures n == Min(count, |old(Remaining())|)
      ensures pos == old(pos) + n
      ensures buffer[..offset] == old(buffer[..offset])
      ensures buffer[offset..offset + n] == old(Remaining())[..n]
      ensures buffer[offset + n..] == old(buffer[offset + n..])
    {
      n := Min(count, |incoming| - pos);
      forall k | offset <= k < offset + n {
        buffer[k] := incoming[pos + k - offset];
      }
      pos := pos + n;
    }

    /** `Stream.WriteByte`. */
    method WriteByte(b: uint8)
      modifies this`outgoing
      ensures outgoing == old(outgoing) + [b]
    {
      outgoing := outgoing + [b];
    }

    /** `Stream.Write(buffer, offset, count)`: sends `count` bytes of `buffer` from `offset`. */
    method Write(buffer: seq<uint8>, offset: nat, count: nat)
      requires offset + count <= |buffer|
      modifies this`outgoing
      ensures outgoing == old(outgoing) + buffer[offset..offset + count]
    {
      outgoing := outgoing + buffer[offset..offset + count];
    }
  }
}
