/** The browser services game.js calls, given to the model instead of computed by it:
    `Math.random` as the stream of values it returns in one session, and the
    floating-point functions `Math.hypot`, `Math.cos`, `Math.sin`, `Math.atan2`
    and the constant `Math.PI`. */
module Host {

  datatype MathLib = MathLib(
    random: nat -> real,          // the k-th value Math.random() returns
    hypot: (real, real) -> real,  // Math.hypot
    cos: real -> real,            // Math.cos
    sin: real -> real,            // Math.sin
    atan2: (real, real) -> real,  // Math.atan2(y, x)
    pi: real)                     // Math.PI

  /** Math.random() always returns a value in [0, 1). */
  ghost predicate ValidHost(m: MathLib) {
    forall k: nat :: 0.0 <= m.random(k) < 1.0
  }
}
