/**
 * Text as the .NET runtime holds it: a sequence of UTF-16 code units.
 * String equality and searching are ordinal, unit by unit.
 */
module Strings {

  /** One element of a .NET string. */
  type CodeUnit = x: int | 0 <= x < 0x1_0000

  type Text = seq<CodeUnit>

  /**
   * The code units of a literal. Every literal of the model lies in the Basic
   * Multilingual Plane, where a character is one unit; a character beyond it
   * (two units in .NET) is not expected here and maps to U+FFFD.
   */
  function Units(s: string): (t: Text)
    ensures |t| == |s|
  {
    seq(|s|, i requires 0 <= i < |s| => if s[i] as int < 0x1_0000 then s[i] as int else 0xFFFD)
  }

  predicate IsHighSurrogate(u: CodeUnit) { 0xD800 <= u < 0xDC00 }

  predicate IsLowSurrogate(u: CodeUnit) { 0xDC00 <= u < 0xE000 }

  /** `p` occurs in `s` starting at index `i`. */
  predicate OccursAt(s: Text, p: Text, i: int) {
    0 <= i && i + |p| <= |s| && s[i..i + |p|] == p
  }

  /** The first occurrence of `p` in `s` at or after `from`, or -1 when there is none. */
  function IndexFrom(s: Text, p: Text, from: nat): (i: int)
    ensures i == -1 || (from <= i && OccursAt(s, p, i))
    ensures forall j | from <= j && (i == -1 || j < i) :: !OccursAt(s, p, j)
    decreases |s| - from
  {
    if from + |p| > |s| then -1
    else if OccursAt(s, p, from) then from
    else IndexFrom(s, p, from + 1)
  }

  /** `string.IndexOf`: the first index at which `p` occurs in `s`, or -1. */
  function IndexOf(s: Text, p: Text): (i: int)
    ensures i == -1 || OccursAt(s, p, i)
    ensures forall j | 0 <= j && (i == -1 || j < i) :: !OccursAt(s, p, j)
  {
    IndexFrom(s, p, 0)
  }

  /**
   * The number of bytes the UTF-8 encoder produces for `s`: one, two or three
   * per unit of the Basic Multilingual Plane, four per surrogate pair, and three
   * for a lone surrogate (it is replaced by U+FFFD).
   */
  function Utf8Length(s: Text): (n: nat)
    ensures |s| <= n <= 3 * |s|
    decreases |s|
  {
    if s == [] then 0
    else if s[0] < 0x80 then 1 + Utf8Length(s[1..])
    else if s[0] < 0x800 then 2 + Utf8Length(s[1..])
    else if IsHighSurrogate(s[0]) && |s| >= 2 && IsLowSurrogate(s[1]) then 4 + Utf8Length(s[2..])
    else 3 + Utf8Length(s[1..])
  }

  /** ASCII text takes one UTF-8 byte per unit, so its byte offsets are its unit indexes. */
  lemma {:induction false} AsciiUtf8Length(s: Text)
    requires forall i | 0 <= i < |s| :: s[i] < 0x80
    ensures Utf8Length(s) == |s|
  {
    if s != [] {
      AsciiUtf8Length(s[1..]);
    }
  }

  /** The first index of `p` is `k` when `p` occurs at `k` and its first unit appears nowhere before `k`. */
  lemma IndexOfFirstUnit(s: Text, p: Text, k: nat)
    requires p != [] && OccursAt(s, p, k)
    requires p[0] !in s[..k]
    ensures IndexOf(s, p) == k
  {
  }
}
