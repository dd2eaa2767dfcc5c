/** Machine integer types of the Rust source, as bounded subsets of `int`. */
module Numeric {

  newtype u8 = x: int | 0 <= x < 0x100
  newtype u16 = x: int | 0 <= x < 0x1_0000
  newtype u32 = x: int | 0 <= x < 0x1_0000_0000
  newtype i32 = x: int | -0x8000_0000 <= x < 0x8000_0000

  const U8_MAX: u8 := 0xFF

  /** Bytes of a `u32`, most significant first (Rust's `u32::to_be_bytes`). */
  function ToBeBytes(c: u32): (bytes: seq<u8>)
    ensures |bytes| == 4
    ensures FromBeBytes(bytes) == c
  {
    ByteDecomposition(c as int);
    [(c / 0x100_0000) as u8, (c / 0x1_0000 % 0x100) as u8,
     (c / 0x100 % 0x100) as u8, (c % 0x100) as u8]
  }

  /** The inverse of `ToBeBytes` (Rust's `u32::from_be_bytes`). */
  function FromBeBytes(bytes: seq<u8>): (c: u32)
    requires |bytes| == 4
  {
    (bytes[0] as int * 0x100_0000 + bytes[1] as int * 0x1_0000
     + bytes[2] as int * 0x100 + bytes[3] as int) as u32
  }

  /** A 32-bit value is the sum of its four bytes at their place values. */
  lemma ByteDecomposition(c: int)
    requires 0 <= c < 0x1_0000_0000
    ensures c / 0x100_0000 < 0x100
    ensures c == c / 0x100_0000 * 0x100_0000 + c / 0x1_0000 % 0x100 * 0x1_0000
               + c / 0x100 % 0x100 * 0x100 + c % 0x100
  {
    var c1 := c / 0x100;
    assert c == c1 * 0x100 + c % 0x100;
    var c2 := c1 / 0x100;
    assert c1 == c2 * 0x100 + c1 % 0x100;
    assert c2 == c2 / 0x100 * 0x100 + c2 % 0x100;
    assert c / 0x1_0000 == c2;
    assert c / 0x100_0000 == c2 / 0x100;
  }

  lemma {:induction false} BeBytesRoundTrip(bytes: seq<u8>)
    requires |bytes| == 4
    ensures ToBeBytes(FromBeBytes(bytes)) == bytes
  {
    var c := FromBeBytes(bytes) as int;
    var b0, b1, b2, b3 := bytes[0] as int, bytes[1] as int, bytes[2] as int, bytes[3] as int;
    assert c == ((b0 * 0x100 + b1) * 0x100 + b2) * 0x100 + b3;
    assert c % 0x100 == b3 && c / 0x100 == (b0 * 0x100 + b1) * 0x100 + b2;
    var c1 := c / 0x100;
    assert c1 % 0x100 == b2 && c1 / 0x100 == b0 * 0x100 + b1;
    var c2 := c1 / 0x100;
    assert c2 % 0x100 == b1 && c2 / 0x100 == b0;
    assert c / 0x1_0000 == c2;
    assert c / 0x100_0000 == c2 / 0x100;
  }
}
