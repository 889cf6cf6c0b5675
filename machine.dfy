/** Fixed-width integers of the charger's 8-bit AVR target and the C++
    conversions between them. On this target `int` is 16 bits wide. */
module MachineInts {

  type uint8 = x: int | 0 <= x < 0x100
  type uint16 = x: int | 0 <= x < 0x1_0000
  type uint32 = x: int | 0 <= x < 0x1_0000_0000
  type int16 = x: int | -0x8000 <= x < 0x8000

  const TWO16: int := 0x1_0000
  const TWO32: int := 0x1_0000_0000

  /** Conversion of any integer to `uint8_t` (keeps it modulo 2^8). */
  function Wrap8(x: int): (r: uint8)
    ensures 0 <= x < 0x100 ==> r == x
  {
    x % 0x100
  }

  /** Conversion of any integer to `uint16_t` (keeps it modulo 2^16). */
  function Wrap16(x: int): (r: uint16)
    ensures 0 <= x < TWO16 ==> r == x
  {
    x % 0x1_0000
  }

  /** Conversion of any integer to `uint32_t` (keeps it modulo 2^32). */
  function Wrap32(x: int): (r: uint32)
    ensures 0 <= x < TWO32 ==> r == x
  {
    x % 0x1_0000_0000
  }

  /** Conversion to `int16_t` (and to the 16-bit `int`): two's complement. */
  function ToInt16(x: int): (r: int16)
    ensures -0x8000 <= x < 0x8000 ==> r == x
  {
    var m := x % 0x1_0000;
    if m < 0x8000 then m else m - 0x1_0000
  }

  /** The mathematical absolute value. */
  function Abs(x: int): (r: nat)
    ensures r == x || r == -x
  {
    if x < 0 then -x else x
  }

  /** C `abs` on a 16-bit `int`. C++ gives -32768 no result; the model takes the
      two's-complement wrap, under which it maps back to -32768. */
  function AbsInt16(x: int16): (r: int16)
    ensures x != -0x8000 ==> r == Abs(x)
    ensures x == -0x8000 ==> r == x
  {
    ToInt16(Abs(x))
  }
}
