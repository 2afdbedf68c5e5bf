/** Runtime values held in registers and in a process's variable store. */
module Values {

  /** A register or variable holds exactly one of these. `Empty` is what a freshly
      loaded register file is filled with. Rust's `f64` is modelled as `real`. */
  datatype Value = Empty | Number(n: real) | Boolean(b: bool) | String(s: string)

  /** The two floating-point operations whose IEEE-754 results the model does not
      compute: division (`x / y`, which yields an infinity or NaN for a zero divisor
      instead of failing) and the `Display` formatting of a number used by the
      string form of `Add`. Both are left as parameters, so every property proved
      below holds whatever they return. */
  datatype NumberOps = NumberOps(divide: (real, real) -> real, format: real -> string)
}
