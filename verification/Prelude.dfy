/** Small types shared by every part of the model. */
module Prelude {

  /** A value that may be absent: the source's `std::optional`. */
  datatype Option<+T> = None | Some(value: T)

  /** An unsigned 8-bit value. */
  type byte = x: int | 0 <= x < 256

  /** 2 to the power n. */
  function Pow2(n: nat): (p: nat)
    ensures p >= 1
  {
    if n == 0 then 1 else 2 * Pow2(n - 1)
  }

  /** Concatenation is associative. */
  lemma Associative<T>(a: seq<T>, b: seq<T>, c: seq<T>)
    ensures a + (b + c) == a + b + c
  {
  }
}
