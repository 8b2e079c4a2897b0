/** Machine-width integers and small wrappers shared by the managed (C#) and native (Rust) sides. */
module Primitives {

  type byte = x: int | 0 <= x < 0x100
  type u16 = x: int | 0 <= x < 0x1_0000
  type u32 = x: int | 0 <= x < 0x1_0000_0000
  type u64 = x: int | 0 <= x < 0x1_0000_0000_0000_0000

  /** A fixed four-byte IPv4 address. */
  type Octets4 = s: seq<byte> | |s| == 4 witness [0, 0, 0, 0]

  /** A fixed sixteen-byte IPv6 address. */
  type Octets16 = s: seq<byte> | |s| == 16 witness seq(16, _ => 0)

  datatype Option<+T> = None | Some(value: T)

  /** The connection id a 64-bit protocol handle index is truncated to (`as u32`). */
  function TruncateU32(x: nat): (r: u32)
    ensures x < 0x1_0000_0000 ==> r == x
    ensures (r - x) % 0x1_0000_0000 == 0
  {
    x % 0x1_0000_0000
  }
}
