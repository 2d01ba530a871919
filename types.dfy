/** Fixed-width integer types of the C/C++ sources, and an Option for nullable pointers. */
module Types {

  type Uint8 = x: int | 0 <= x < 0x100
  type Uint16 = x: int | 0 <= x < 0x1_0000
  type Int16 = x: int | -0x8000 <= x < 0x8000
  type Uint32 = x: int | 0 <= x < 0x1_0000_0000

  /** A pointer that may be NULL, or an optional configuration. */
  datatype Option<T> = None | Some(value: T)

  function Max(a: int, b: int): (r: int)
    ensures r >= a && r >= b && (r == a || r == b)
  {
    if a >= b then a else b
  }

  function Min(a: int, b: int): (r: int)
    ensures r <= a && r <= b && (r == a || r == b)
  {
    if a <= b then a else b
  }

  /** Conversion of a `uint32_t` to a 32-bit `int` (two's complement, as GCC does it). */
  function ToInt32(v: Uint32): (r: int)
    ensures -0x8000_0000 <= r < 0x8000_0000
    ensures (r - v) % 0x1_0000_0000 == 0
    ensures v < 0x8000_0000 ==> r == v
  {
    if v < 0x8000_0000 then v else v - 0x1_0000_0000
  }
}
