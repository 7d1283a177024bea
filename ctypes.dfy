/** The C integer types the driver's globals are declared with, and the two
    in-place updates it applies to its `unsigned short` globals. */
module CTypes {

  const TWO_TO_16: int := 0x1_0000
  const TWO_TO_32: int := 0x1_0000_0000
  const TWO_TO_64: int := 0x1_0000_0000_0000_0000

  /** C `unsigned short` (16 bits on the targets the driver is built for),
      for globals the driver updates arithmetically. The key-map row, which it
      updates with `^=`, is kept as a `bv16` instead. */
  newtype uint16 = x: int | 0 <= x < 0x1_0000

  /** C `unsigned int` / `uint32_t`. */
  newtype uint32 = x: int | 0 <= x < 0x1_0000_0000

  /** `++x` on an `unsigned short`: one more, wrapping to 0 past the maximum. */
  function Increment(x: uint16): (r: uint16)
    ensures x as int < TWO_TO_16 - 1 ==> r as int == x as int + 1
    ensures x as int == TWO_TO_16 - 1 ==> r == 0
  {
    ((x as int + 1) % TWO_TO_16) as uint16
  }
}
