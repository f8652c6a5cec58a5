/** Fixed-width integers, bytes and little-endian words, as the Go source uses
    them (`uint8`, `uint32`, `int32`, `binary.Write` with a little-endian order). */
module Bytes {

  newtype byte = x: int | 0 <= x < 0x100
  newtype uint32 = x: int | 0 <= x < 0x1_0000_0000
  newtype int32 = x: int | -0x8000_0000 <= x < 0x8000_0000

  datatype Option<+T> = None | Some(value: T)

  /** Go's `uint32(n)` conversion of a non-negative length: wraps modulo 2^32. */
  function WrapUint32(n: nat): (r: uint32)
    ensures r as int == n % 0x1_0000_0000
    ensures n < 0x1_0000_0000 ==> r as int == n
  {
    (n % 0x1_0000_0000) as uint32
  }

  /** The four bytes of `x`, least significant first. */
  function Le32(x: uint32): (b: seq<byte>)
    ensures |b| == 4
  {
    [(x % 0x100) as byte, (x / 0x100 % 0x100) as byte,
     (x / 0x1_0000 % 0x100) as byte, (x / 0x100_0000) as byte]
  }

  /** The value of four bytes read least significant first. */
  function Le32Value(b: seq<byte>): (x: uint32)
    requires |b| == 4
  {
    (b[0] as int + 0x100 * b[1] as int + 0x1_0000 * b[2] as int + 0x100_0000 * b[3] as int) as uint32
  }

  lemma Le32RoundTrip(x: uint32)
    ensures Le32Value(Le32(x)) == x
  {
    var n := x as int;
    var q1 := n / 0x100;
    var q2 := q1 / 0x100;
    var q3 := q2 / 0x100;
    assert n == 0x100 * q1 + n % 0x100;
    assert q1 == 0x100 * q2 + q1 % 0x100;
    assert q2 == 0x100 * q3 + q2 % 0x100;
    assert n / 0x1_0000 == q2;
    assert n / 0x100_0000 == q3;
  }

  /** The bit pattern of an `int32` in two's complement. */
  function Int32Bits(v: int32): (u: uint32)
    ensures v >= 0 ==> u as int == v as int
  {
    if v < 0 then (v as int + 0x1_0000_0000) as uint32 else v as int as uint32
  }

  /** The `int32` whose two's-complement bit pattern is `u`. */
  function Int32OfBits(u: uint32): (v: int32)
    ensures Int32Bits(v) == u
  {
    if u < 0x8000_0000 then u as int as int32 else (u as int - 0x1_0000_0000) as int32
  }

  lemma Int32BitsRoundTrip(v: int32)
    ensures Int32OfBits(Int32Bits(v)) == v
  {
  }

  /** `binary.Write` of an `int32` in little-endian order. */
  function Int32Le(v: int32): (b: seq<byte>)
    ensures |b| == 4
  {
    Le32(Int32Bits(v))
  }

  /** `binary.Read` of an `int32` in little-endian order from four bytes. */
  function Int32FromLe(b: seq<byte>): int32
    requires |b| == 4
  {
    Int32OfBits(Le32Value(b))
  }

  lemma {:induction false} Int32LeRoundTrip(v: int32)
    ensures Int32FromLe(Int32Le(v)) == v
  {
    Le32RoundTrip(Int32Bits(v));
    Int32BitsRoundTrip(v);
  }

  predicate IsAscii(s: string)
  {
    forall i :: 0 <= i < |s| ==> s[i] as int < 0x80
  }

  /** Go's `[]byte(s)` for a string of ASCII characters. */
  function Ascii(s: string): (b: seq<byte>)
    requires IsAscii(s)
    ensures |b| == |s|
    ensures forall i :: 0 <= i < |s| ==> b[i] as int == s[i] as int
  {
    seq(|s|, i requires 0 <= i < |s| && IsAscii(s) => s[i] as int as byte)
  }
}
