/** What several parts of the model share. */
module Common {
  datatype Option<T> = None | Some(value: T)

  type Frequency = n: nat | n >= 10 witness 100

  /** Ticks per second.  Nothing depends on its value, except that a tenth of it is at least one tick. */
  const HZ: Frequency

  /**
   For definitions used by name.  A predicate whose body stands under `forall k :: Unfold(k, x) ==> …`
   is seen through only by proofs that mention `Unfold(0, x)`; all others treat it as a name.
   */
  predicate Unfold<T>(k: int, x: T) { true }

  // ---- products

  lemma Grow(n: nat, a: int, b: int)
    requires a <= b
    ensures n * a <= n * b
  {
  }

  lemma Distribute(n: int, a: int, b: int)
    ensures n * a + n * b == n * (a + b)
  {
  }
}
