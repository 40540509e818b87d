/** Fixed-width integers of the C# source, written out explicitly. */
module Machine {

  const UShortMax: int := 0xFFFF

  /** C#'s `ushort`. */
  newtype ushort = x: int | 0 <= x <= 0xFFFF

  /** An unchecked `(uint)` cast of a C# `int`: wraps modulo 2^32. */
  function ToUInt32(x: int): (r: int)
    ensures 0 <= r < 0x1_0000_0000
    ensures 0 <= x < 0x1_0000_0000 ==> r == x
    ensures x < 0 && -0x1_0000_0000 <= x ==> r == x + 0x1_0000_0000
  {
    x % 0x1_0000_0000
  }

  /** C#'s `x / 2` on an `int`: the quotient truncates toward zero (Dafny's `/` is Euclidean). */
  function Half(x: int): (r: int)
    ensures 0 <= x ==> 0 <= x - 2 * r <= 1
    ensures x < 0 ==> 0 <= 2 * r - x <= 1
  {
    if x >= 0 then x / 2 else -((-x) / 2)
  }
}
