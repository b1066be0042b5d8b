/** Bytes, fixed-width big-endian integers, and UTF-8 well-formedness. */
module Bytes {

  type Byte = x: int | 0 <= x < 256

  const I64_MIN: int := -0x8000_0000_0000_0000
  const I64_MAX: int := 0x7fff_ffff_ffff_ffff
  const TWO_TO_THE_64: int := 0x1_0000_0000_0000_0000

  predicate IsI64(v: int) {
    I64_MIN <= v <= I64_MAX
  }

  function Pow256(width: nat): (p: int)
    ensures p > 0
  {
    if width == 0 then 1 else 256 * Pow256(width - 1)
  }

  /** The `width` low base-256 digits of `v`, most significant first. */
  function BigEndian(v: int, width: nat): (s: seq<Byte>)
    ensures |s| == width
    decreases width, v
  {
    if width == 0 then [] else BigEndian(v / 256, width - 1) + [v % 256]
  }

  function FromBigEndian(s: seq<Byte>): (v: nat) {
    if s == [] then 0 else FromBigEndian(s[..|s| - 1]) * 256 + s[|s| - 1]
  }

  lemma {:induction false} BigEndianRoundTrip(v: int, width: nat)
    requires 0 <= v < Pow256(width)
    ensures FromBigEndian(BigEndian(v, width)) == v
  {
    if width > 0 {
      var high := BigEndian(v / 256, width - 1);
      assert BigEndian(v, width)[..width - 1] == high;
      assert v / 256 < Pow256(width - 1);
      BigEndianRoundTrip(v / 256, width - 1);
    }
  }

  lemma {:induction false} FromBigEndianRoundTrip(s: seq<Byte>)
    ensures FromBigEndian(s) < Pow256(|s|)
    ensures BigEndian(FromBigEndian(s), |s|) == s
  {
    if s != [] {
      var init := s[..|s| - 1];
      FromBigEndianRoundTrip(init);
      assert FromBigEndian(s) / 256 == FromBigEndian(init);
      assert s == init + [s[|s| - 1]];
    }
  }

  lemma Pow256Values()
    ensures Pow256(1) == 256
    ensures Pow256(2) == 0x1_0000
    ensures Pow256(8) == TWO_TO_THE_64
  {
    assert Pow256(1) == 256 * Pow256(0);
    assert Pow256(2) == 256 * Pow256(1);
    assert Pow256(4) == 256 * (256 * Pow256(2));
    assert Pow256(6) == 256 * (256 * Pow256(4));
    assert Pow256(8) == 256 * (256 * Pow256(6));
  }

  /** `i64::to_be_bytes`: two's complement, eight bytes. */
  function EncodeI64(v: int): (s: seq<Byte>)
    requires IsI64(v)
    ensures |s| == 8
  {
    BigEndian(if v < 0 then v + TWO_TO_THE_64 else v, 8)
  }

  function DecodeI64(s: seq<Byte>): (v: int)
    requires |s| == 8
    ensures IsI64(v)
  {
    FromBigEndianRoundTrip(s);
    Pow256Values();
    var u := FromBigEndian(s);
    if u > I64_MAX then u - TWO_TO_THE_64 else u
  }

  lemma I64RoundTrip(v: int)
    requires IsI64(v)
    ensures DecodeI64(EncodeI64(v)) == v
  {
    Pow256Values();
    BigEndianRoundTrip(if v < 0 then v + TWO_TO_THE_64 else v, 8);
  }

  lemma I64BytesRoundTrip(s: seq<Byte>)
    requires |s| == 8
    ensures EncodeI64(DecodeI64(s)) == s
  {
    Pow256Values();
    FromBigEndianRoundTrip(s);
  }

  lemma U16RoundTrip(v: int)
    requires 0 <= v < 0x1_0000
    ensures FromBigEndian(BigEndian(v, 2)) == v
  {
    Pow256Values();
    BigEndianRoundTrip(v, 2);
  }

  lemma U16BytesRoundTrip(s: seq<Byte>)
    requires |s| == 2
    ensures FromBigEndian(s) < 0x1_0000
    ensures BigEndian(FromBigEndian(s), 2) == s
  {
    Pow256Values();
    FromBigEndianRoundTrip(s);
  }

  /** Length of the well-formed scalar encoding that opens `s`, or 0 when there is none. */
  function ScalarLength(s: seq<Byte>): (n: nat)
    ensures n <= |s|
  {
    if |s| >= 1 && s[0] < 0x80 then 1
    else if |s| >= 2 && 0xC2 <= s[0] <= 0xDF && Continuation(s[1]) then 2
    else if |s| >= 3 && SecondOfThree(s[0], s[1]) && Continuation(s[2]) then 3
    else if |s| >= 4 && SecondOfFour(s[0], s[1]) && Continuation(s[2]) && Continuation(s[3]) then 4
    else 0
  }

  predicate Continuation(b: Byte) {
    0x80 <= b <= 0xBF
  }

  predicate SecondOfThree(first: Byte, second: Byte) {
    || (first == 0xE0 && 0xA0 <= second <= 0xBF)
    || (0xE1 <= first <= 0xEC && Continuation(second))
    || (first == 0xED && 0x80 <= second <= 0x9F)
    || (0xEE <= first <= 0xEF && Continuation(second))
  }

  predicate SecondOfFour(first: Byte, second: Byte) {
    || (first == 0xF0 && 0x90 <= second <= 0xBF)
    || (0xF1 <= first <= 0xF3 && Continuation(second))
    || (first == 0xF4 && 0x80 <= second <= 0x8F)
  }

  /** What `std::str::from_utf8` accepts. */
  predicate ValidUtf8(s: seq<Byte>)
    decreases |s|
  {
    s == [] || (ScalarLength(s) > 0 && ValidUtf8(s[ScalarLength(s)..]))
  }

  /** A Rust `String`. */
  type Utf8 = s: seq<Byte> | ValidUtf8(s)

  function LowerByte(b: Byte): (l: Byte) {
    if 0x41 <= b <= 0x5A then b + 0x20 else b
  }

  /** Equal to its own `to_ascii_lowercase`. */
  predicate IsAsciiLower(s: seq<Byte>) {
    forall i :: 0 <= i < |s| ==> LowerByte(s[i]) == s[i]
  }

  /** Strict lexicographic order on bytes, the order of Rust strings. */
  predicate LexLess(a: seq<Byte>, b: seq<Byte>) {
    b != [] && (a == [] || a[0] < b[0] || (a[0] == b[0] && LexLess(a[1..], b[1..])))
  }
}
