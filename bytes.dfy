/** Fixed-width integers and the network (big-endian) byte order used on the
    rtl_tcp wire. Integers are unbounded in Dafny; the C++ widths are subset
    types, and wrap-around is written out where the client relies on it. */
module Bytes {

  type byte = x: int | 0 <= x < 0x100
  type uint16 = x: int | 0 <= x < 0x1_0000
  type uint32 = x: int | 0 <= x < 0x1_0000_0000
  type int32 = x: int | -0x8000_0000 <= x < 0x8000_0000

  const Two32: int := 0x1_0000_0000

  /** The implicit C++ conversion of an integer to `uint16_t`: keep the low 16 bits. */
  function AsUint16(x: int): (r: uint16)
    ensures (x - r) % 0x1_0000 == 0
  {
    x % 0x1_0000
  }

  /** Reading 32 bits as a two's-complement `int32_t`. */
  function AsInt32(u: uint32): (r: int32)
    ensures (r - u) % Two32 == 0
  {
    if u < 0x8000_0000 then u else u - Two32
  }

  /** The four bytes `(x >> 24) & 0xFF`, `(x >> 16) & 0xFF`, `(x >> 8) & 0xFF`,
      `x & 0xFF`, most significant first. `>>` on a signed value is an
      arithmetic shift, i.e. floor division by a power of two, which is what
      Dafny's `/` by a positive divisor computes, so negative `x` is covered. */
  function BigEndian32(x: int): (b: seq<byte>)
    ensures |b| == 4
  {
    [(x / 0x100_0000) % 0x100, (x / 0x1_0000) % 0x100, (x / 0x100) % 0x100, x % 0x100]
  }

  /** `ntohl` applied to four bytes copied from the wire: the unsigned value
      they spell, most significant byte first. */
  function FromBigEndian32(b: seq<byte>): (v: uint32)
    requires |b| == 4
  {
    ((b[0] as int * 0x100 + b[1]) * 0x100 + b[2]) * 0x100 + b[3]
  }

  /** Decoding the four bytes of any integer gives back that integer modulo 2^32. */
  lemma BigEndian32Decodes(x: int)
    ensures FromBigEndian32(BigEndian32(x)) == x % Two32
  {
    var q1, q2, q3, q4 := x / 0x100, x / 0x1_0000, x / 0x100_0000, x / Two32;
    assert x == 0x100 * q1 + x % 0x100;
    assert q1 == 0x100 * q2 + q1 % 0x100;
    assert q2 == 0x100 * q3 + q2 % 0x100;
    assert q3 == 0x100 * q4 + q3 % 0x100;
    assert q1 % 0x100 == (x / 0x100) % 0x100;
    assert q2 % 0x100 == (x / 0x1_0000) % 0x100;
    assert q3 % 0x100 == (x / 0x100_0000) % 0x100;
    var b := BigEndian32(x);
    assert x == FromBigEndian32(b) + Two32 * q4;
  }

  /** Every four bytes are the encoding of the value they spell: the byte
      order is a bijection between 4-byte strings and 32-bit values. */
  lemma BigEndian32Encodes(b: seq<byte>)
    requires |b| == 4
    ensures BigEndian32(FromBigEndian32(b)) == b
  {
    var v := FromBigEndian32(b);
    assert v % 0x100 == b[3];
    assert v / 0x100 == (b[0] as int * 0x100 + b[1]) * 0x100 + b[2];
    assert v / 0x1_0000 == b[0] as int * 0x100 + b[1];
    assert v / 0x100_0000 == b[0];
  }

  /** An `int32_t` that travels as four big-endian bytes comes back unchanged. */
  lemma Int32RoundTrip(p: int32)
    ensures AsInt32(FromBigEndian32(BigEndian32(p))) == p
  {
    BigEndian32Decodes(p);
  }
}
