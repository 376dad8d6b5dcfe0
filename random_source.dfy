/** `Math.random()` as an injected source: the values a run draws, in the
    order it draws them. */
module RandomSource {
  /** Every draw is one `Math.random()` result: a number in [0, 1). */
  predicate IsRandomSource(draws: seq<real>) {
    forall i :: 0 <= i < |draws| ==> 0.0 <= draws[i] < 1.0
  }

  /** A draw times a positive width `w` lies in [0, w). The product is
      passed in as `v` so that callers reason about it without
      multiplying. */
  lemma ScaledDraw(r: real, w: real, v: real)
    requires 0.0 <= r < 1.0 && w > 0.0 && v == r * w
    ensures 0.0 <= v < w
  {
    assert (1.0 - r) * w > 0.0;
  }
}
