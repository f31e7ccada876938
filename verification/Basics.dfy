/** Machine integers, byte strings and the small helpers every other module uses. */
module Basics {
  const TWO16: int := 0x1_0000
  const TWO32: int := 0x1_0000_0000
  const TWO64: int := 0x1_0000_0000_0000_0000

  type byte = x: int | 0 <= x < 256
  type u16 = x: int | 0 <= x < 0x1_0000
  type u32 = x: int | 0 <= x < 0x1_0000_0000
  type u64 = x: int | 0 <= x < 0x1_0000_0000_0000_0000
  type u128 = x: int | 0 <= x < 0x1_0000_0000_0000_0000_0000_0000_0000_0000
  type Bytes = seq<byte>

  datatype Option<+T> = None | Some(value: T)

  function Min(a: int, b: int): int { if a <= b then a else b }

  function Max(a: int, b: int): int { if a <= b then b else a }

  /** `a.saturating_sub(b)` */
  function SaturatingSub(a: int, b: int): int { if a <= b then 0 else a - b }

  // ----- sequences -----

  lemma {:induction false} AppendLast<T>(x: seq<T>, y: seq<T>)
    requires y != []
    ensures x + y == (x + y[..|y| - 1]) + [y[|y| - 1]]
    ensures (x + y)[..|x + y| - 1] == x + y[..|y| - 1]
  {}

  lemma {:induction false} AppendFirst<T>(x: seq<T>, y: seq<T>)
    requires y != []
    ensures x + y == (x + [y[0]]) + y[1..]
  {}

  lemma {:induction false} Reassociate<T>(x: seq<T>, y: seq<T>, z: seq<T>)
    ensures (x + y) + z == x + (y + z)
  {}

  lemma {:induction false} AppendNothing<T>(x: seq<T>)
    ensures x + [] == x && [] + x == x
  {}
}
