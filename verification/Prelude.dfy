/** Definitions shared by every part of the kernel model. */
module Prelude {

  datatype Option<+T> = None | Some(value: T)

  /** The number of values of the source's `u64` and `usize`. */
  const U64: nat := 0x1_0000_0000_0000_0000

  function Max(a: int, b: int): int {
    if a < b then b else a
  }

  lemma MulGrows(d: int, n: nat)
    ensures d >= 0 ==> d * n >= 0
    ensures d >= 1 ==> d * n >= n
    ensures d <= -1 ==> d * n <= -(n as int)
  {
  }
}
