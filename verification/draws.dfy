/**
  The inputs that the figure generators take from the outside world, made explicit.

  Every call of `Math.random()` becomes one element of a sequence of draws, consumed
  left to right in the order in which JavaScript evaluates the calls. `Math.exp` and
  `Math.sin` become function parameters; the only fact assumed about `exp` is that it
  is positive.
 */
module Draws {

  /** One value returned by `Math.random()`: a real in the half-open interval [0, 1). */
  type Draw = r: real | 0.0 <= r < 1.0

  /** The one property of `Math.exp` the model relies on. */
  ghost predicate Positive(f: real -> real) {
    forall x :: f(x) > 0.0
  }

  /** `Math.floor` of a non-negative number, as a natural number. */
  function FloorNat(x: real): (n: nat)
    requires 0.0 <= x
    ensures n as real <= x < n as real + 1.0
  {
    x.Floor
  }

  /** A draw scaled by a positive factor stays in [0, factor). */
  lemma ScaledDrawBelow(r: Draw, c: real)
    requires 0.0 < c
    ensures 0.0 <= r * c < c
  {
    assert (1.0 - r) * c > 0.0;
  }

  /**
    The index `Math.floor(r * n)` that the source uses to pick one of `n` labels
    from a literal array: it always names an element of the array.
   */
  function ChoiceIndex(r: Draw, n: nat): (k: nat)
    requires 0 < n
    ensures k < n
    ensures k as real <= r * n as real < k as real + 1.0
  {
    assert r * n as real < n as real;
    FloorNat(r * n as real)
  }
}
