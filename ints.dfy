/** The fixed-width integers of the wire format. Nothing in the model does
    arithmetic on them; the ranges record what a decoded value can hold. */
module Ints {

  type U64 = x: int | 0 <= x <= 0xFFFF_FFFF_FFFF_FFFF

  type I64 = x: int | -0x8000_0000_0000_0000 <= x <= 0x7FFF_FFFF_FFFF_FFFF
}
