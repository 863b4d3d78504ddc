/** The range of the 64-bit integers that the programs count in. */
module Integers {
  const U64 := 0x1_0000_0000_0000_0000
  const U64_MAX := 0xFFFF_FFFF_FFFF_FFFF
}
