/** Shared vocabulary: optional values and Rust's fixed-width unsigned integers. */
module Prelude {

  datatype Option<+T> = None | Some(value: T)

  const POW16: nat := 0x1_0000
  const POW26: nat := 0x400_0000
  const POW32: nat := 0x1_0000_0000
  const POW64: nat := 0x1_0000_0000_0000_0000

  type Byte = x: int | 0 <= x < 256
  type U16 = x: int | 0 <= x < POW16
  type U32 = x: int | 0 <= x < POW32
  type U64 = x: int | 0 <= x < POW64

  function Zeros(n: nat): (s: seq<Byte>)
    ensures |s| == n
  {
    seq(n, _ => 0)
  }

  /** `to_be_bytes` of a 16-bit value. */
  function BigEndian16(v: U16): (s: seq<Byte>)
    ensures |s| == 2
  {
    [v / 256, v % 256]
  }

  /** `to_be_bytes` of a 32-bit value. */
  function BigEndian32(v: U32): (s: seq<Byte>)
    ensures |s| == 4
  {
    BigEndian16(v / POW16) + BigEndian16(v % POW16)
  }

  function FromBigEndian16(s: seq<Byte>): U16
    requires |s| == 2
  {
    256 * (s[0] as int) + s[1] as int
  }

  function FromBigEndian32(s: seq<Byte>): U32
    requires |s| == 4
  {
    POW16 * (FromBigEndian16(s[..2]) as int) + FromBigEndian16(s[2..]) as int
  }

  lemma BigEndian16RoundTrip(v: U16)
    ensures FromBigEndian16(BigEndian16(v)) == v
  {
  }

  lemma BigEndian32RoundTrip(v: U32)
    ensures FromBigEndian32(BigEndian32(v)) == v
  {
    var hi, lo := BigEndian16(v / POW16), BigEndian16(v % POW16);
    assert BigEndian32(v)[..2] == hi && BigEndian32(v)[2..] == lo;
    BigEndian16RoundTrip(v / POW16);
    BigEndian16RoundTrip(v % POW16);
  }

  lemma Regroup<T>(a: seq<T>, b: seq<T>, c: seq<T>)
    ensures a + b + c == a + (b + c)
  {
  }
}
