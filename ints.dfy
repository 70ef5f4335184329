/** Machine integer widths used by the indicator's C types. */
module Ints {
  /** C `uint8_t`. */
  type uint8 = x: int | 0 <= x < 0x100

  /** C `uint16_t`. */
  type uint16 = x: int | 0 <= x < 0x1_0000
}
