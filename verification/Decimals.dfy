/** Integers as decimal text, as every formatter of the program prints them. */
module Decimals {
  import opened Bytes

  function Decimal(n: nat): (s: string) {
    if n < 10 then [(0x30 + n) as char] else Decimal(n / 10) + [(0x30 + n % 10) as char]
  }

  predicate Ascii(s: string) {
    forall i :: 0 <= i < |s| ==> s[i] as int < 0x80
  }

  lemma {:induction false} DecimalGrows(n: nat, bound: nat)
    requires n <= bound
    ensures Ascii(Decimal(n)) && 1 <= |Decimal(n)| <= |Decimal(bound)|
    decreases n
  {
    if n >= 10 {
      DecimalGrows(n / 10, bound / 10);
    }
  }

  /** The bytes of an ASCII text. */
  function AsciiBytes(s: string): (b: seq<Byte>)
    requires Ascii(s)
    ensures |b| == |s|
  {
    seq(|s|, i requires 0 <= i < |s| => s[i] as int)
  }

  function DecimalBytes(n: nat): (b: seq<Byte>)
    ensures |b| >= 1
  {
    DecimalGrows(n, n);
    AsciiBytes(Decimal(n))
  }

  lemma DecimalBytesStep(n: nat)
    ensures DecimalBytes(n) == (if n < 10 then [] else DecimalBytes(n / 10)) + [0x30 + n % 10]
  {
  }
}
