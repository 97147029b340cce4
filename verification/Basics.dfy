/** Optional values, machine words and a little arithmetic. */
module Basics {

  datatype Option<+T> = None | Some(value: T)

  const TWO64: nat := 0x1_0000_0000_0000_0000
  const MAX64: nat := TWO64 - 1

  /** A number as a 64-bit word. */
  function W(x: int): nat { x % TWO64 }

  lemma WSmall(x: nat)
    requires x < TWO64
    ensures W(x) == x
  {
  }

  lemma WOver(x: nat)
    requires TWO64 <= x < 2 * TWO64
    ensures W(x) == x - TWO64
  {
  }

  function Max(a: nat, b: nat): nat { if a >= b then a else b }

  function Min(a: nat, b: nat): nat { if a <= b then a else b }

  function Pow2(e: nat): nat { if e == 0 then 1 else 2 * Pow2(e - 1) }

  lemma MulMono(a: int, b: int, c: nat)
    requires a <= b
    ensures a * c <= b * c
  {
  }
}
