/**
 * The dashboard's source of randomness, `Math.random()`, enters the model as
 * parameters; this is what such a parameter may be.
 */
module Random {
  /** A value `Math.random()` can return: uniform in [0, 1). */
  predicate IsDraw(u: real) {
    0.0 <= u < 1.0
  }
}
