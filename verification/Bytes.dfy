// Machine integers, byte strings and big-endian numbers.
module Bytes {

  type u8 = x: int | 0 <= x < 0x100
  type u16 = x: int | 0 <= x < 0x1_0000
  type u32 = x: int | 0 <= x < 0x1_0000_0000
  type u64 = x: int | 0 <= x < 0x1_0000_0000_0000_0000

  type Octets = seq<u8>

  // `x as u8`, `x as u16`, `x as u32` on an unsigned value: the low bits.
  function Low8(n: nat): (r: u8) {
    n % 0x100
  }

  function Low16(n: nat): (r: u16) {
    n % 0x1_0000
  }

  function Low32(n: nat): (r: u32) {
    n % 0x1_0000_0000
  }

  // 64-bit arithmetic that wraps around.
  function WrappingAdd(a: u64, b: u64): (r: u64) {
    (a + b) % 0x1_0000_0000_0000_0000
  }

  function WrappingMul(a: u64, b: u64): (r: u64) {
    a * b % 0x1_0000_0000_0000_0000
  }

  // `n` fetch_add calls later.
  function Advance(counter: u64, n: nat): (r: u64) {
    (counter + n) % 0x1_0000_0000_0000_0000
  }

  // u32::to_be_bytes and u32::from_be_bytes.
  function BigEndian32(n: u32): (b: Octets)
    ensures |b| == 4
  {
    [n / 0x100_0000, n / 0x1_0000 % 0x100, n / 0x100 % 0x100, n % 0x100]
  }

  function FromBigEndian32(a: u8, b: u8, c: u8, d: u8): (n: u32) {
    a * 0x100_0000 + b * 0x1_0000 + c * 0x100 + d
  }

  function FromBigEndian16(a: u8, b: u8): (n: u16) {
    a * 0x100 + b
  }

  function ReadU32(b: Octets, at: nat): (n: u32)
    requires at + 4 <= |b|
  {
    FromBigEndian32(b[at], b[at + 1], b[at + 2], b[at + 3])
  }

  // The number printed by BigEndian32 is the number read back.
  lemma BigEndian32RoundTrip(n: u32)
    ensures var b := BigEndian32(n); FromBigEndian32(b[0], b[1], b[2], b[3]) == n
    ensures var b := BigEndian32(n); n == (((b[0] as int) * 256 + b[1]) * 256 + b[2]) * 256 + b[3]
  {
    var high, mid := n / 0x1_0000, n / 0x100;
    assert mid == high * 0x100 + mid % 0x100 by {
      assert mid / 0x100 == high;
    }
    assert high == n / 0x100_0000 * 0x100 + high % 0x100 by {
      assert high / 0x100 == n / 0x100_0000;
    }
  }

  // n zero bytes.
  function Zeros(n: nat): (z: Octets)
    ensures |z| == n
    ensures forall i :: 0 <= i < n ==> z[i] == 0
  {
    seq(n, i => 0)
  }
}
