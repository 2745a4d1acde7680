/**
 * Machine integers of the Rust side and the wrap-around of release-build
 * `u32` arithmetic, written out explicitly.
 */
module MachineInts {
  const TWO_32: int := 0x1_0000_0000
  const TWO_64: int := 0x1_0000_0000_0000_0000

  newtype u8 = x: int | 0 <= x < 0x100
  newtype u32 = x: int | 0 <= x < 0x1_0000_0000
  newtype u64 = x: int | 0 <= x < 0x1_0000_0000_0000_0000

  /** A `u32` operation of a release build: the exact value modulo 2^32. */
  function Wrap32(x: int): (r: u32)
    ensures 0 <= x < TWO_32 ==> r as int == x
    ensures (r as int - x) % TWO_32 == 0
  {
    (x % TWO_32) as u32
  }

  /** An `as u32` cast of a wider unsigned value keeps the low 32 bits. */
  function TruncateToU32(x: u64): (r: u32)
    ensures x as int < TWO_32 ==> r as int == x as int
  {
    Wrap32(x as int)
  }
}
