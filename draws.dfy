/** The shot's random source.

    The Python code draws from one `random.Random` object: the noise channel reads one value per
    qubit per round, and the flip decoder reads one value per ambiguous defect. Python's
    generator itself is not modelled; its output is an arbitrary infinite stream of reals,
    `rng(0), rng(1), ...`, read through a cursor that each operation advances and returns. */
module RandomStream {

  type Draws = nat -> real

  /** `random.random()` only ever returns values in [0, 1). */
  ghost predicate UnitDraws(rng: Draws) {
    forall k: nat :: 0.0 <= rng(k) < 1.0
  }
}
