/** The activation strategy (Functions/Activation.java). The sigmoid's `Math.exp` has no
    counterpart over `real`, so the activation is a parameter of every operation that
    applies it; only its derivative identity is fixed here. */
module Activations {
  import opened Sums

  /** An activation reads a whole pre-activation vector and an index, as the interface does. */
  type Activation = (seq<real>, int) -> real

  /** The derivative, written in terms of the activated value `a`: `a * (1 - a)`. */
  function Derivative(act: Activation, s: seq<real>, i: int): (r: real)
    ensures r <= 0.25
    ensures 0.0 < act(s, i) < 1.0 ==> r > 0.0
  {
    var a := act(s, i);
    assert (a - 0.5) * (a - 0.5) >= 0.0;
    assert 0.0 < a < 1.0 ==> a * (1.0 - a) > 0.0 by {
      if 0.0 < a < 1.0 {
        PositiveProduct(a, 1.0 - a, a * (1.0 - a));
      }
    }
    a * (1.0 - a)
  }

  /** The activated value at `i` depends on the pre-activation at `i` alone, as the
      sigmoid's does. */
  ghost predicate Pointwise(act: Activation)
  {
    forall s: seq<real>, t: seq<real>, i: int {:trigger act(s, i), act(t, i)} ::
      0 <= i < |s| && i < |t| && s[i] == t[i] ==> act(s, i) == act(t, i)
  }
}
