/** The fields both cursors are made of: how each is written, read back, and consumed in place. */
module CursorReading {
  import opened Wrappers
  import opened Bytes

  datatype BadQuery = BadQuery

  const FRAME_FILTER_MAX_BYTES: nat := 256
  const NO_FILTER: nat := 0xffff

  type I64 = v: int | IsI64(v)

  /** A parsed field and the bytes after it. */
  datatype Read<+T> = Read(value: T, rest: seq<Byte>)

  predicate ValidFilter(f: Option<Utf8>) {
    f.Some? ==> |f.value| <= FRAME_FILTER_MAX_BYTES && IsAsciiLower(f.value)
  }

  function FilterBytes(f: Option<Utf8>): (s: seq<Byte>)
    requires ValidFilter(f)
    ensures 2 <= |s| <= 2 + FRAME_FILTER_MAX_BYTES
  {
    match f
    case None => BigEndian(NO_FILTER, 2)
    case Some(value) => BigEndian(|value|, 2) + value
  }

  function StringBytes(value: Utf8): (s: seq<Byte>)
    requires |value| < 0x1_0000
    ensures |s| == 2 + |value|
  {
    BigEndian(|value|, 2) + value
  }

  function ReadBytes(s: seq<Byte>, n: nat): (r: Option<Read<seq<Byte>>>) {
    if |s| < n then None else Some(Read(s[..n], s[n..]))
  }

  function ReadInteger(s: seq<Byte>): (r: Option<Read<I64>>) {
    if |s| < 8 then None else Some(Read(DecodeI64(s[..8]), s[8..]))
  }

  lemma Regroup(a: seq<Byte>, b: seq<Byte>, c: seq<Byte>, d: seq<Byte>, e: seq<Byte>)
    ensures a + (b + (c + (d + e))) == a + b + c + d + e
  {
  }

  /** `n` consecutive integers. */
  function ReadIntegers(s: seq<Byte>, n: nat): (r: Option<Read<seq<I64>>>)
    ensures r.Some? ==> |r.value.value| == n
    decreases n, s
  {
    if n == 0 then Some(Read([], s))
    else
      var first := ReadInteger(s);
      if first.None? then None
      else
        var others := ReadIntegers(first.value.rest, n - 1);
        if others.None? then None
        else Some(Read([first.value.value] + others.value.value, others.value.rest))
  }

  lemma SliceOfDrop(s: seq<Byte>, d: nat, from: nat, to: nat)
    requires from <= to && d + to <= |s|
    ensures s[d..][from..to] == s[d + from..d + to]
  {
  }

  lemma {:induction false} ReadIntegersAt(s: seq<Byte>, n: nat)
    ensures ReadIntegers(s, n).Some? <==> |s| >= 8 * n
    ensures |s| >= 8 * n ==> ReadIntegers(s, n).value.rest == s[8 * n..]
    ensures |s| >= 8 * n ==> forall i :: 0 <= i < n ==>
      ReadIntegers(s, n).value.value[i] == DecodeI64(s[8 * i..8 * i + 8])
    decreases n
  {
    if n > 0 && |s| >= 8 {
      var tail := s[8..];
      ReadIntegersAt(tail, n - 1);
      if |s| >= 8 * n {
        assert tail[8 * (n - 1)..] == s[8 * n..];
        forall i | 0 < i < n
          ensures ReadIntegers(s, n).value.value[i] == DecodeI64(s[8 * i..8 * i + 8])
        {
          SliceOfDrop(s, 8, 8 * (i - 1), 8 * (i - 1) + 8);
        }
      }
    }
  }

  function IntegerBytes(values: seq<I64>): (s: seq<Byte>)
    ensures |s| == 8 * |values|
  {
    if values == [] then [] else EncodeI64(values[0]) + IntegerBytes(values[1..])
  }

  lemma {:induction false} IntegerBytesAppend(values: seq<I64>, v: I64)
    ensures IntegerBytes(values + [v]) == IntegerBytes(values) + EncodeI64(v)
  {
    if values == [] {
      assert IntegerBytes([v]) == EncodeI64(v) + IntegerBytes([v][1..]);
    } else {
      IntegerBytesAppend(values[1..], v);
      assert (values + [v])[1..] == values[1..] + [v];
    }
  }

  lemma {:induction false} ReadWrittenIntegers(values: seq<I64>, tail: seq<Byte>)
    ensures ReadIntegers(IntegerBytes(values) + tail, |values|) == Some(Read(values, tail))
  {
    if values == [] {
      assert [] + tail == tail;
    } else {
      ReadWrittenInteger(values[0], IntegerBytes(values[1..]) + tail);
      assert IntegerBytes(values) + tail == EncodeI64(values[0]) + (IntegerBytes(values[1..]) + tail);
      ReadWrittenIntegers(values[1..], tail);
      assert [values[0]] + values[1..] == values;
    }
  }

  lemma {:induction false} WrittenReadIntegers(s: seq<Byte>, n: nat)
    requires ReadIntegers(s, n).Some?
    ensures s == IntegerBytes(ReadIntegers(s, n).value.value) + ReadIntegers(s, n).value.rest
    decreases n
  {
    if n > 0 {
      var first := ReadInteger(s).value;
      WrittenReadInteger(s);
      WrittenReadIntegers(first.rest, n - 1);
      var values := ReadIntegers(s, n).value.value;
      assert values[1..] == ReadIntegers(first.rest, n - 1).value.value;
    }
  }

  function ReadFilter(s: seq<Byte>): (r: Option<Read<Option<Utf8>>>) {
    if |s| < 2 then None
    else
      var length, rest := FromBigEndian(s[..2]), s[2..];
      if length == NO_FILTER then Some(Read(None, rest))
      else if length > FRAME_FILTER_MAX_BYTES || |rest| < length then None
      else if !ValidUtf8(rest[..length]) || !IsAsciiLower(rest[..length]) then None
      else Some(Read(Some(rest[..length]), rest[length..]))
  }

  function ReadString(s: seq<Byte>): (r: Option<Read<Utf8>>) {
    if |s| < 2 then None
    else
      var length, rest := FromBigEndian(s[..2]), s[2..];
      if length > |rest| || !ValidUtf8(rest[..length]) then None
      else Some(Read(rest[..length], rest[length..]))
  }

  lemma ReadWrittenInteger(v: I64, tail: seq<Byte>)
    ensures ReadInteger(EncodeI64(v) + tail) == Some(Read(v, tail))
  {
    I64RoundTrip(v);
    assert (EncodeI64(v) + tail)[..8] == EncodeI64(v);
  }

  lemma WrittenReadInteger(s: seq<Byte>)
    requires ReadInteger(s).Some?
    ensures s == EncodeI64(ReadInteger(s).value.value) + ReadInteger(s).value.rest
  {
    I64BytesRoundTrip(s[..8]);
  }

  lemma ReadWrittenFilter(f: Option<Utf8>, tail: seq<Byte>)
    requires ValidFilter(f)
    ensures ReadFilter(FilterBytes(f) + tail) == Some(Read(f, tail))
  {
    var length := if f.None? then NO_FILTER else |f.value|;
    U16RoundTrip(length);
    var s := FilterBytes(f) + tail;
    assert s[..2] == BigEndian(length, 2);
    if f.Some? {
      assert s[2..] == f.value + tail;
    }
  }

  lemma WrittenReadFilter(s: seq<Byte>)
    requires ReadFilter(s).Some?
    ensures ValidFilter(ReadFilter(s).value.value)
    ensures s == FilterBytes(ReadFilter(s).value.value) + ReadFilter(s).value.rest
  {
    U16BytesRoundTrip(s[..2]);
    assert s == s[..2] + s[2..];
  }

  lemma ReadWrittenString(value: Utf8, tail: seq<Byte>)
    requires |value| < 0x1_0000
    ensures ReadString(StringBytes(value) + tail) == Some(Read(value, tail))
  {
    U16RoundTrip(|value|);
    var s := StringBytes(value) + tail;
    assert s[..2] == BigEndian(|value|, 2);
    assert s[2..] == value + tail;
  }

  lemma WrittenReadString(s: seq<Byte>)
    requires ReadString(s).Some?
    ensures |ReadString(s).value.value| < 0x1_0000
    ensures s == StringBytes(ReadString(s).value.value) + ReadString(s).value.rest
  {
    U16BytesRoundTrip(s[..2]);
    assert s == s[..2] + s[2..];
  }

  /** The decoder's position: a slice that every read shortens in place. */
  class CursorReader {
    var rest: seq<Byte>

    constructor (bytes: seq<Byte>)
      ensures rest == bytes
    {
      rest := bytes;
    }

    method Take(n: nat) returns (r: Result<seq<Byte>, BadQuery>)
      modifies this
      ensures r == match ReadBytes(old(rest), n) case None => Err(BadQuery) case Some(f) => Ok(f.value)
      ensures r.Ok? ==> rest == ReadBytes(old(rest), n).value.rest
    {
      if |rest| < n {
        return Err(BadQuery);
      }
      r := Ok(rest[..n]);
      rest := rest[n..];
    }

    method Integer() returns (r: Result<I64, BadQuery>)
      modifies this
      ensures r == match ReadInteger(old(rest)) case None => Err(BadQuery) case Some(f) => Ok(f.value)
      ensures r.Ok? ==> rest == ReadInteger(old(rest)).value.rest
    {
      var bytes :- Take(8);
      return Ok(DecodeI64(bytes));
    }

    method Filter() returns (r: Result<Option<Utf8>, BadQuery>)
      modifies this
      ensures r == match ReadFilter(old(rest)) case None => Err(BadQuery) case Some(f) => Ok(f.value)
      ensures r.Ok? ==> rest == ReadFilter(old(rest)).value.rest
    {
      var prefix :- Take(2);
      var length := FromBigEndian(prefix);
      if length == NO_FILTER {
        return Ok(None);
      }
      U16BytesRoundTrip(prefix);
      if length > FRAME_FILTER_MAX_BYTES {
        return Err(BadQuery);
      }
      var value :- Take(length);
      if !ValidUtf8(value) || !IsAsciiLower(value) {
        return Err(BadQuery);
      }
      return Ok(Some(value));
    }

    method String() returns (r: Result<Utf8, BadQuery>)
      modifies this
      ensures r == match ReadString(old(rest)) case None => Err(BadQuery) case Some(f) => Ok(f.value)
      ensures r.Ok? ==> rest == ReadString(old(rest)).value.rest
    {
      var prefix :- Take(2);
      var length := FromBigEndian(prefix);
      U16BytesRoundTrip(prefix);
      if length > |rest| {
        return Err(BadQuery);
      }
      var taken := Take(length);
      if !ValidUtf8(taken.value) {
        return Err(BadQuery);
      }
      return Ok(taken.value);
    }
  }
}
