/**
 * The UTF-16 little-endian encoding of RFC 2781, section 2.1, as the .NET
 * `UnicodeEncoding` class applies it: each 16-bit code unit becomes two
 * bytes, low byte first. No byte order mark is written.
 */
module Utf16 {
  import opened Strings

  type uint8 = x: int | 0 <= x < 0x100

  /** U+FFFD REPLACEMENT CHARACTER, what the decoder yields for a dangling odd byte. */
  const Replacement: CodeUnit := 0xFFFD

  /** The two bytes of one code unit, low byte first. */
  function EncodeUnit(u: CodeUnit): seq<uint8> {
    [u % 0x100, u / 0x100]
  }

  /** `UnicodeEncoding.GetBytes`. */
  function Encode(s: Text): (b: seq<uint8>)
    ensures |b| == 2 * |s|
  {
    if s == [] then [] else EncodeUnit(s[0]) + Encode(s[1..])
  }

  /** `UnicodeEncoding.GetString`: pairs of bytes, low byte first; an odd last byte becomes U+FFFD. */
  function Decode(b: seq<uint8>): (s: Text)
    ensures |s| == (|b| + 1) / 2
    decreases |b|
  {
    if |b| == 0 then []
    else if |b| == 1 then [Replacement]
    else
      var u: CodeUnit := b[0] as int + 0x100 * b[1] as int;
      [u] + Decode(b[2..])
  }

  /** Unit `i` of `s` sits at bytes `2i` (low) and `2i + 1` (high) of its encoding. */
  lemma {:induction false} EncodeAt(s: Text, i: nat)
    requires i < |s|
    ensures Encode(s)[2 * i] == s[i] % 0x100
    ensures Encode(s)[2 * i + 1] == s[i] / 0x100
  {
    if i > 0 {
      EncodeAt(s[1..], i - 1);
      assert Encode(s) == EncodeUnit(s[0]) + Encode(s[1..]);
    }
  }

  /** Encoding distributes over concatenation. */
  lemma {:induction false} EncodeAppend(s: Text, t: Text)
    ensures Encode(s + t) == Encode(s) + Encode(t)
  {
    if s != [] {
      EncodeAppend(s[1..], t);
      assert (s + t)[0] == s[0] && (s + t)[1..] == s[1..] + t;
      assert Encode(s + t) == EncodeUnit(s[0]) + Encode(s[1..] + t);
    } else {
      assert s + t == t;
    }
  }

  /** The first `2k` bytes of an encoding are the encoding of the first `k` units. */
  lemma {:induction false} EncodePrefix(s: Text, k: nat)
    requires k <= |s|
    ensures Encode(s)[..2 * k] == Encode(s[..k])
  {
    if k == 0 {
      assert s[..k] == [];
    } else {
      EncodePrefix(s[1..], k - 1);
      assert s[..k][0] == s[0] && s[..k][1..] == s[1..][..k - 1];
      var tail := Encode(s[1..]);
      assert Encode(s) == EncodeUnit(s[0]) + tail;
      assert (EncodeUnit(s[0]) + tail)[..2 * k] == EncodeUnit(s[0]) + tail[..2 * (k - 1)];
    }
  }

  /** Decoding undoes encoding. */
  lemma {:induction false} DecodeEncode(s: Text)
    ensures Decode(Encode(s)) == s
  {
    if s != [] {
      var b := Encode(s);
      assert b[..2] == EncodeUnit(s[0]) && b[2..] == Encode(s[1..]);
      DecodeEncode(s[1..]);
    }
  }

  /** Encoding undoes decoding of an even number of bytes. */
  lemma {:induction false} EncodeDecode(b: seq<uint8>)
    requires |b| % 2 == 0
    ensures Encode(Decode(b)) == b
    decreases |b|
  {
    if |b| > 0 {
      EncodeDecode(b[2..]);
      assert Decode(b)[1..] == Decode(b[2..]);
      assert b == b[..2] + b[2..];
    }
  }

  /** Decoding a prefix of odd length `2k + 1` gives the first `k` units and U+FFFD. */
  lemma {:induction false} DecodeOddPrefix(s: Text, k: nat)
    requires k < |s|
    ensures Decode(Encode(s)[..2 * k + 1]) == s[..k] + [Replacement]
  {
    var b := Encode(s);
    if k > 0 {
      DecodeOddPrefix(s[1..], k - 1);
      assert b[..2 * k + 1][2..] == Encode(s[1..])[..2 * (k - 1) + 1];
      assert s[..k] == [s[0]] + s[1..][..k - 1];
    }
  }
}
