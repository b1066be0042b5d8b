/** Unpadded base64url (sections 5 and 3.5 of RFC 4648), as the cursors use it. */
module Base64Url {
  import opened Wrappers
  import opened Bytes

  type Sextet = x: int | 0 <= x < 64

  function Symbol(v: Sextet): (c: Byte) {
    if v < 26 then v + 0x41
    else if v < 52 then v - 26 + 0x61
    else if v < 62 then v - 52 + 0x30
    else if v == 62 then 0x2D
    else 0x5F
  }

  function SextetOf(c: Byte): (v: Option<Sextet>) {
    if 0x41 <= c <= 0x5A then Some(c - 0x41)
    else if 0x61 <= c <= 0x7A then Some(c - 0x61 + 26)
    else if 0x30 <= c <= 0x39 then Some(c - 0x30 + 52)
    else if c == 0x2D then Some(62)
    else if c == 0x5F then Some(63)
    else None
  }

  lemma SymbolRoundTrip(v: Sextet)
    ensures SextetOf(Symbol(v)) == Some(v)
  {
  }

  lemma SextetRoundTrip(c: Byte)
    requires SextetOf(c).Some?
    ensures Symbol(SextetOf(c).value) == c
  {
  }

  // Three bytes cut into four sextets; a missing byte reads as zero.
  function Cut0(b0: Byte): (v: Sextet) { b0 / 4 }

  function Cut1(b0: Byte, b1: Byte): (v: Sextet) { b0 % 4 * 16 + b1 / 16 }

  function Cut2(b1: Byte, b2: Byte): (v: Sextet) { b1 % 16 * 4 + b2 / 64 }

  function Cut3(b2: Byte): (v: Sextet) { b2 % 64 }

  // Neighbouring sextets glued back into bytes.
  function Glue0(v0: Sextet, v1: Sextet): (b: Byte) { v0 * 4 + v1 / 16 }

  function Glue1(v1: Sextet, v2: Sextet): (b: Byte) { v1 % 16 * 16 + v2 / 4 }

  function Glue2(v2: Sextet, v3: Sextet): (b: Byte) { v2 % 4 * 64 + v3 }

  lemma GlueCut(b0: Byte, b1: Byte, b2: Byte)
    ensures Glue0(Cut0(b0), Cut1(b0, b1)) == b0
    ensures Glue1(Cut1(b0, b1), Cut2(b1, b2)) == b1
    ensures Glue2(Cut2(b1, b2), Cut3(b2)) == b2
    ensures Cut1(b0, 0) % 16 == 0 && Cut2(b1, 0) % 4 == 0
  {
  }

  lemma CutGlue(v0: Sextet, v1: Sextet, v2: Sextet, v3: Sextet)
    ensures Cut0(Glue0(v0, v1)) == v0
    ensures Cut1(Glue0(v0, v1), Glue1(v1, v2)) == v1
    ensures Cut2(Glue1(v1, v2), Glue2(v2, v3)) == v2
    ensures Cut3(Glue2(v2, v3)) == v3
    ensures v1 % 16 == 0 ==> Cut1(Glue0(v0, v1), 0) == v1
    ensures v2 % 4 == 0 ==> Cut2(Glue1(v1, v2), 0) == v2
  {
  }

  /** Characters needed for `n` bytes without padding. */
  function EncodedLength(n: nat): (m: nat) {
    n / 3 * 4 + (if n % 3 == 0 then 0 else n % 3 + 1)
  }

  function Encode(b: seq<Byte>): (s: seq<Byte>)
    ensures |s| == EncodedLength(|b|)
  {
    if |b| == 0 then []
    else if |b| == 1 then [Symbol(Cut0(b[0])), Symbol(Cut1(b[0], 0))]
    else if |b| == 2 then
      [Symbol(Cut0(b[0])), Symbol(Cut1(b[0], b[1])), Symbol(Cut2(b[1], 0))]
    else
      [Symbol(Cut0(b[0])), Symbol(Cut1(b[0], b[1])), Symbol(Cut2(b[1], b[2])), Symbol(Cut3(b[2]))]
      + Encode(b[3..])
  }

  /** Rejects foreign characters, a lone final character, and nonzero trailing bits. */
  function Decode(s: seq<Byte>): (b: Option<seq<Byte>>) {
    if |s| == 0 then Some([])
    else if |s| == 1 || SextetOf(s[0]).None? || SextetOf(s[1]).None? then None
    else
      var v0, v1 := SextetOf(s[0]).value, SextetOf(s[1]).value;
      if |s| == 2 then
        if v1 % 16 == 0 then Some([Glue0(v0, v1)]) else None
      else if SextetOf(s[2]).None? then None
      else
        var v2 := SextetOf(s[2]).value;
        if |s| == 3 then
          if v2 % 4 == 0 then Some([Glue0(v0, v1), Glue1(v1, v2)]) else None
        else if SextetOf(s[3]).None? || Decode(s[4..]).None? then None
        else
          var v3 := SextetOf(s[3]).value;
          Some([Glue0(v0, v1), Glue1(v1, v2), Glue2(v2, v3)] + Decode(s[4..]).value)
  }

  lemma DecodeFour(v0: Sextet, v1: Sextet, v2: Sextet, v3: Sextet, rest: seq<Byte>)
    requires Decode(rest).Some?
    ensures Decode([Symbol(v0), Symbol(v1), Symbol(v2), Symbol(v3)] + rest)
         == Some([Glue0(v0, v1), Glue1(v1, v2), Glue2(v2, v3)] + Decode(rest).value)
  {
    var s := [Symbol(v0), Symbol(v1), Symbol(v2), Symbol(v3)] + rest;
    assert s[4..] == rest;
    SymbolRoundTrip(v0);
    SymbolRoundTrip(v1);
    SymbolRoundTrip(v2);
    SymbolRoundTrip(v3);
  }

  lemma EncodeThree(v0: Sextet, v1: Sextet, v2: Sextet, v3: Sextet, rest: seq<Byte>)
    ensures Encode([Glue0(v0, v1), Glue1(v1, v2), Glue2(v2, v3)] + rest)
         == [Symbol(v0), Symbol(v1), Symbol(v2), Symbol(v3)] + Encode(rest)
  {
    CutGlue(v0, v1, v2, v3);
    var b := [Glue0(v0, v1), Glue1(v1, v2), Glue2(v2, v3)] + rest;
    assert b[3..] == rest;
  }

  lemma DecodeTwo(v0: Sextet, v1: Sextet)
    requires v1 % 16 == 0
    ensures Decode([Symbol(v0), Symbol(v1)]) == Some([Glue0(v0, v1)])
  {
    SymbolRoundTrip(v0);
    SymbolRoundTrip(v1);
  }

  lemma DecodeThree(v0: Sextet, v1: Sextet, v2: Sextet)
    requires v2 % 4 == 0
    ensures Decode([Symbol(v0), Symbol(v1), Symbol(v2)]) == Some([Glue0(v0, v1), Glue1(v1, v2)])
  {
    SymbolRoundTrip(v0);
    SymbolRoundTrip(v1);
    SymbolRoundTrip(v2);
  }

  lemma EncodeOne(v0: Sextet, v1: Sextet)
    requires v1 % 16 == 0
    ensures Encode([Glue0(v0, v1)]) == [Symbol(v0), Symbol(v1)]
  {
    CutGlue(v0, v1, 0, 0);
  }

  lemma EncodeTwo(v0: Sextet, v1: Sextet, v2: Sextet)
    requires v2 % 4 == 0
    ensures Encode([Glue0(v0, v1), Glue1(v1, v2)]) == [Symbol(v0), Symbol(v1), Symbol(v2)]
  {
    CutGlue(v0, v1, v2, 0);
  }

  lemma DecodeEncodeOne(b: Byte)
    ensures Decode(Encode([b])) == Some([b])
  {
    var v0, v1: Sextet := Cut0(b), Cut1(b, 0);
    assert v1 % 16 == 0 && Glue0(v0, v1) == b by {
      GlueCut(b, 0, 0);
    }
    DecodeTwo(v0, v1);
  }

  lemma DecodeEncodeTwo(b0: Byte, b1: Byte)
    ensures Decode(Encode([b0, b1])) == Some([b0, b1])
  {
    var v0, v1, v2: Sextet := Cut0(b0), Cut1(b0, b1), Cut2(b1, 0);
    assert v2 % 4 == 0 && Glue0(v0, v1) == b0 && Glue1(v1, v2) == b1 by {
      GlueCut(b0, b1, 0);
    }
    DecodeThree(v0, v1, v2);
  }

  lemma {:induction false} DecodeEncode(b: seq<Byte>)
    ensures Decode(Encode(b)) == Some(b)
    decreases |b|
  {
    if |b| == 1 {
      DecodeEncodeOne(b[0]);
      assert b == [b[0]];
    } else if |b| == 2 {
      DecodeEncodeTwo(b[0], b[1]);
      assert b == [b[0], b[1]];
    } else if |b| >= 3 {
      var v0, v1, v2, v3 := Cut0(b[0]), Cut1(b[0], b[1]), Cut2(b[1], b[2]), Cut3(b[2]);
      assert Glue0(v0, v1) == b[0] && Glue1(v1, v2) == b[1] && Glue2(v2, v3) == b[2] by {
        GlueCut(b[0], b[1], b[2]);
      }
      DecodeEncode(b[3..]);
      DecodeFour(v0, v1, v2, v3, Encode(b[3..]));
      assert b == [b[0], b[1], b[2]] + b[3..];
    }
  }

  lemma EncodeDecodeTwo(c0: Byte, c1: Byte)
    requires Decode([c0, c1]).Some?
    ensures Encode(Decode([c0, c1]).value) == [c0, c1]
  {
    SextetRoundTrip(c0);
    SextetRoundTrip(c1);
    EncodeOne(SextetOf(c0).value, SextetOf(c1).value);
  }

  lemma EncodeDecodeThree(c0: Byte, c1: Byte, c2: Byte)
    requires Decode([c0, c1, c2]).Some?
    ensures Encode(Decode([c0, c1, c2]).value) == [c0, c1, c2]
  {
    SextetRoundTrip(c0);
    SextetRoundTrip(c1);
    SextetRoundTrip(c2);
    EncodeTwo(SextetOf(c0).value, SextetOf(c1).value, SextetOf(c2).value);
  }

  /** The text is the spelling of the bytes. */
  predicate Spells(s: seq<Byte>, b: seq<Byte>) {
    Encode(b) == s
  }

  lemma {:induction false} EncodeDecode(s: seq<Byte>)
    requires Decode(s).Some?
    ensures Spells(s, Decode(s).value)
    decreases |s|
  {
    if |s| == 2 {
      assert s == [s[0], s[1]];
      EncodeDecodeTwo(s[0], s[1]);
    } else if |s| == 3 {
      assert s == [s[0], s[1], s[2]];
      EncodeDecodeThree(s[0], s[1], s[2]);
    } else if |s| >= 4 {
      EncodeDecode(s[4..]);
      var v0, v1 := SextetOf(s[0]).value, SextetOf(s[1]).value;
      var v2, v3 := SextetOf(s[2]).value, SextetOf(s[3]).value;
      assert s == [Symbol(v0), Symbol(v1), Symbol(v2), Symbol(v3)] + s[4..] by {
        SextetRoundTrip(s[0]);
        SextetRoundTrip(s[1]);
        SextetRoundTrip(s[2]);
        SextetRoundTrip(s[3]);
      }
      EncodeThree(v0, v1, v2, v3, Decode(s[4..]).value);
    }
  }

  lemma EncodedLengthMonotone(n: nat, m: nat)
    requires n <= m
    ensures EncodedLength(n) <= EncodedLength(m)
  {
    assert n / 3 <= m / 3;
  }
}
