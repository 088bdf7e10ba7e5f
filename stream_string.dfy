/**
 * The length-prefixed string framing of `StreamString`: a two-byte big-endian
 * length header followed by that many bytes of UTF-16LE text, the length
 * silently clamped to 65535.
 */
module Framing {
  import opened Wrappers
  import opened Strings
  import opened Utf16
  import opened Pipe

  /** `UInt16.MaxValue`, the largest length the header can declare. */
  const MaxFrameLength := 65535

  /** The bytes `WriteString(s)` puts on the stream. */
  function Frame(s: Text): (f: seq<uint8>)
    ensures |f| == 2 + Min(|Encode(s)|, MaxFrameLength)
    ensures f[0] as int * 256 + f[1] as int == |f| - 2
    ensures f[2..] == Encode(s)[..|f| - 2]
  {
    var outBuffer := Encode(s);
    var len := Min(|outBuffer|, MaxFrameLength);
    [len / 256, len % 256] + outBuffer[..len]
  }

  /** What `ReadByte` yields for byte `i` of the unread input: that byte, or -1 past the end. */
  function HeaderByte(rest: seq<uint8>, i: nat): int {
    if i < |rest| then rest[i] else -1
  }

  /** The length `ReadString` computes from its two `ReadByte` calls. */
  function DeclaredLength(rest: seq<uint8>): int {
    HeaderByte(rest, 0) * 256 + HeaderByte(rest, 1)
  }

  function Zeros(n: nat): seq<uint8> {
    seq(n, _ => 0)
  }

  /**
   * `new byte[len]` with a negative `len` throws; that happens only when the
   * stream ends before the header is complete.
   */
  datatype ReadError = NegativeLength

  /** The outcome of one `ReadString` and the number of bytes it consumed. */
  datatype FrameRead = FrameRead(result: Result<Text, ReadError>, consumed: nat)

  /** How many header bytes `ReadString` consumes: two, or fewer where the stream ends. */
  function HeaderSize(rest: seq<uint8>): nat {
    Min(2, |rest|)
  }

  /** How many payload bytes the single `Read` call delivers: the declared length, or fewer where the stream ends. */
  function Delivered(rest: seq<uint8>): nat
    requires DeclaredLength(rest) >= 0
  {
    Min(DeclaredLength(rest), |rest| - HeaderSize(rest))
  }

  /** The buffer `ReadString` decodes: the delivered bytes, then zeros up to the declared length. */
  function Received(rest: seq<uint8>): (buf: seq<uint8>)
    requires DeclaredLength(rest) >= 0
    ensures |buf| == DeclaredLength(rest)
  {
    var got := Delivered(rest);
    rest[HeaderSize(rest)..HeaderSize(rest) + got] + Zeros(DeclaredLength(rest) - got)
  }

  /**
   * What `ReadString` does to the unread input `rest`: the header bytes (or -1
   * for each missing one) give the length; the single `Read` call copies what is
   * there of the payload into a zero-filled buffer, which is then decoded.
   */
  function ReadFrame(rest: seq<uint8>): (r: FrameRead)
    ensures r.consumed <= |rest|
    ensures r.result.Failure? ==> |rest| <= 1
    ensures |rest| >= 2 ==> r.result.Success? && r.consumed == 2 + Min(DeclaredLength(rest), |rest| - 2)
  {
    if DeclaredLength(rest) < 0 then FrameRead(Failure(NegativeLength), HeaderSize(rest))
    else FrameRead(Success(Decode(Received(rest))), HeaderSize(rest) + Delivered(rest))
  }

  /** Above 65535 encoded bytes the header declares 65535 and exactly that many bytes follow. */
  lemma FrameTruncates(s: Text)
    requires |Encode(s)| > MaxFrameLength
    ensures Frame(s) == [255, 255] + Encode(s)[..MaxFrameLength]
  {
  }

  /**
   * A text short enough not to be truncated (at most 32767 units, so at most
   * 65535 encoded bytes) reads back from its frame exactly, consuming the
   * `2 + 2|s|` bytes of the frame and nothing that follows.
   */
  lemma RoundTrip(s: Text, more: seq<uint8>)
    requires |s| <= MaxFrameLength / 2
    ensures ReadFrame(Frame(s) + more) == FrameRead(Success(s), 2 + 2 * |s|)
  {
    var f := Frame(s);
    var rest := f + more;
    var n := |Encode(s)|;
    assert DeclaredLength(rest) == n && Delivered(rest) == n;
    assert Received(rest) == Encode(s) by {
      assert rest[2..2 + n] == Encode(s);
      assert Zeros(0) == [];
    }
    DecodeEncode(s);
  }

  /**
   * A truncated frame holds an odd number of bytes, so the reader gets the first
   * 32767 units followed by U+FFFD for the split unit.
   */
  lemma TruncatedRoundTrip(s: Text, more: seq<uint8>)
    requires |Encode(s)| > MaxFrameLength
    ensures ReadFrame(Frame(s) + more) == FrameRead(Success(s[..MaxFrameLength / 2] + [Replacement]), 2 + MaxFrameLength)
  {
    var f := Frame(s);
    var rest := f + more;
    FrameTruncates(s);
    assert DeclaredLength(rest) == MaxFrameLength && Delivered(rest) == MaxFrameLength;
    assert Received(rest) == Encode(s)[..2 * (MaxFrameLength / 2) + 1] by {
      assert rest[2..2 + MaxFrameLength] == Encode(s)[..MaxFrameLength];
      assert Zeros(0) == [];
    }
    DecodeOddPrefix(s, MaxFrameLength / 2);
  }

  /**
   * A zero-filled buffer of the declared length whose first `got` bytes were
   * copied from the payload is exactly the buffer `ReadFrame` decodes.
   */
  lemma ReadIntoZeroedBuffer(rest: seq<uint8>, got: nat, filled: seq<uint8>)
    requires DeclaredLength(rest) >= 0 && |filled| == DeclaredLength(rest)
    requires got == Delivered(rest)
    requires filled[..got] == rest[HeaderSize(rest)..][..got]
    requires filled[got..] == Zeros(|filled| - got)
    ensures filled == Received(rest)
  {
    assert filled == filled[..got] + filled[got..];
  }

  /** `StreamString`: reads and writes framed text over a stream. */
  class StreamString {
    const ioStream: PipeStream

    constructor (ioStream: PipeStream)
      ensures this.ioStream == ioStream
    {
      this.ioStream := ioStream;
    }

    /** Reads one frame; see `ReadFrame`. */
    method ReadString() returns (r: Result<Text, ReadError>)
      requires ioStream.Valid()
      modifies ioStream`pos
      ensures ioStream.Valid()
      ensures r == ReadFrame(old(ioStream.Remaining())).result
      ensures ioStream.pos == old(ioStream.pos) + ReadFrame(old(ioStream.Remaining())).consumed
    {
      ghost var rest := ioStream.Remaining();
      var len := 0;
      var b0 := ioStream.ReadByte();
      len := b0 * 256;
      var b1 := ioStream.ReadByte();
      len := len + b1;
      assert len == DeclaredLength(rest);
      if len < 0 {
        return Failure(NegativeLength);
      }
      ghost var header := ioStream.pos - old(ioStream.pos);
      assert header == Min(2, |rest|) && ioStream.Remaining() == rest[header..];
      var inBuffer := new uint8[len](_ => 0);
      ghost var blank := inBuffer[..];
      assert blank == Zeros(len);
      var got := ioStream.Read(inBuffer, 0, len);
      ReadIntoZeroedBuffer(rest, got, inBuffer[..]);
      assert ReadFrame(rest) == FrameRead(Success(Decode(inBuffer[..])), header + got);
      r := Success(Decode(inBuffer[..]));
    }

    /**
     * Writes one frame and returns the untruncated encoded length plus two,
     * which overstates what was written when the text was truncated.
     */
    method WriteString(outString: Text) returns (n: int)
      modifies ioStream`outgoing
      ensures ioStream.outgoing == old(ioStream.outgoing) + Frame(outString)
      ensures n == |Encode(outString)| + 2
      ensures n >= |Frame(outString)|
    {
      var outBuffer := Encode(outString);
      var len := |outBuffer|;
      if len > MaxFrameLength {
        len := MaxFrameLength;
      }
      ioStream.WriteByte(len / 256);
      // `len & 255` equals `len % 256` for a non-negative length
      ioStream.WriteByte(len % 256);
      ioStream.Write(outBuffer, 0, len);
      n := |outBuffer| + 2;
    }
  }

  /**
   * One frame carried over a pipe: the server end writes `s`, the client end
   * reads what arrived.
   */
  method Exchange(s: Text) returns (r: Result<Text, ReadError>)
    ensures |Encode(s)| <= MaxFrameLength ==> r == Success(s)
    ensures |Encode(s)| > MaxFrameLength ==> r == Success(s[..MaxFrameLength / 2] + [Replacement])
  {
    var serverEnd := new PipeStream([]);
    var writer := new StreamString(serverEnd);
    var written := writer.WriteString(s);
    var clientEnd := new PipeStream(serverEnd.outgoing);
    var reader := new StreamString(clientEnd);
    r := reader.ReadString();
    assert clientEnd.incoming == Frame(s) + [];
    if |Encode(s)| <= MaxFrameLength {
      RoundTrip(s, []);
    } else {
      TruncatedRoundTrip(s, []);
    }
  }
}
