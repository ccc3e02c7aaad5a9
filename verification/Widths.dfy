/** Hardware fields narrower than the values computed for them. */
module Widths {
  function Uint16(x: int): int { x % 0x1_0000 }

  function Uint32(x: int): int { x % 0x1_0000_0000 }
}
