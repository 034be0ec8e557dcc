/** Types shared by several modules. */
module Basics {

  datatype Option<+T> = None | Some(value: T)

  /** An 8-bit unsigned value: a byte on the wire or a set of quality flags. */
  type uint8 = x: int | 0 <= x < 0x100

  /** A 16-bit unsigned value, such as a water level in millimetres. */
  type uint16 = x: int | 0 <= x < 0x1_0000

  /** A 32-bit unsigned value, such as a sequence number. */
  type uint32 = x: int | 0 <= x < 0x1_0000_0000

  /** Unsigned 32-bit arithmetic wraps around. */
  function Wrap32(x: int): uint32 {
    x % 0x1_0000_0000
  }

  /** The slot after i in a circular buffer. */
  function NextSlot(i: nat, cap: nat): (n: nat)
    requires i < cap
    ensures n == if i + 1 == cap then 0 else i + 1
  {
    if i + 1 < cap then
      assert (i + 1) % cap == i + 1;
      (i + 1) % cap
    else
      (i + 1) % cap
  }
}
