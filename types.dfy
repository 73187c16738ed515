/** Fixed-width unsigned integers of the emulator and the C++ unsigned
    arithmetic on them: a result that leaves the width wraps around. */
module Types {

  /** std::uint8_t, std::uint16_t and std::uint32_t as ranges of int. */
  type u8 = x: int | 0 <= x < 0x100
  type u16 = x: int | 0 <= x < 0x1_0000
  type u32 = x: int | 0 <= x < 0x1_0000_0000

  /** Size of the address space: 64 KiB. */
  const MAX_MEM: int := 1024 * 64

  /** `x + k` stored back into 8 bits. */
  function Add8(x: u8, k: int): (r: u8)
    requires -0x100 < k < 0x100
    ensures r == (x + k) % 0x100
  {
    var s := x + k;
    if s < 0 then s + 0x100 else if s >= 0x100 then s - 0x100 else s
  }

  /** `x + k` stored back into 16 bits (`PC++`, `SP++`, `PC - 1`). */
  function Add16(x: u16, k: int): (r: u16)
    requires -0x1_0000 < k < 0x1_0000
    ensures r == (x + k) % 0x1_0000
  {
    var s := x + k;
    if s < 0 then s + 0x1_0000 else if s >= 0x1_0000 then s - 0x1_0000 else s
  }

  /** `x -= k` on a 32-bit unsigned counter. */
  function Sub32(x: u32, k: nat): (r: u32)
    requires k < 0x1_0000_0000
    ensures r == (x - k) % 0x1_0000_0000
  {
    if x >= k then x - k else x + 0x1_0000_0000 - k
  }

  /** The contents of an address space after it has been zero-filled. */
  function Zeros(): (z: seq<u8>)
    ensures |z| == MAX_MEM
    ensures forall k :: 0 <= k < MAX_MEM ==> z[k] == 0
  {
    seq(MAX_MEM, _ => 0)
  }
}
