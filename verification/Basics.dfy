/** Shared vocabulary: optional values, results, bytes and big-endian header fields. */
module Basics {
  datatype Option<+T> = None | Some(value: T)

  /** Success, or the name of the error the program throws. */
  datatype Result<+T> = Ok(value: T) | Err(reason: string)

  type Time = real
  type Duration = d: real | d > 0.0 witness 1.0
  type Positive = n: int | n > 0 witness 1

  const U16: int := 0x1_0000
  const U32: int := 0x1_0000_0000

  type Byte = b: int | 0 <= b < 256
  type Uint32 = w: int | 0 <= w < 0x1_0000_0000

  /** Unsigned 16-bit big-endian field at `offset`. */
  function ReadU16(bytes: seq<Byte>, offset: nat): (value: nat)
    requires offset + 2 <= |bytes|
    ensures value < U16
  {
    256 * bytes[offset] as int + bytes[offset + 1] as int
  }

  /** Unsigned 32-bit big-endian field at `offset`. */
  function ReadU32(bytes: seq<Byte>, offset: nat): (value: Uint32)
    requires offset + 4 <= |bytes|
  {
    0x1_0000 * ReadU16(bytes, offset) + ReadU16(bytes, offset + 2)
  }

  /** Big-endian bytes of a 16-bit value. */
  function U16Bytes(value: nat): (bytes: seq<Byte>)
    requires value < U16
    ensures |bytes| == 2 && ReadU16(bytes, 0) == value
  {
    [value / 256, value % 256]
  }

  /** Big-endian bytes of a 32-bit value. */
  function U32Bytes(value: Uint32): (bytes: seq<Byte>)
    ensures |bytes| == 4 && ReadU32(bytes, 0) == value
  {
    var high, low := U16Bytes(value / 0x1_0000), U16Bytes(value % 0x1_0000);
    assert ReadU16(high + low, 0) == ReadU16(high, 0) && ReadU16(high + low, 2) == ReadU16(low, 0);
    high + low
  }

  lemma Associative<T>(a: seq<T>, b: seq<T>, c: seq<T>)
    ensures (a + b) + c == a + (b + c)
  {}

  lemma {:induction false} SubsetSize<T>(a: set<T>, b: set<T>)
    requires a <= b
    ensures |a| <= |b|
  {
    assert b == a + (b - a);
  }
}
