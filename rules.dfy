/**
  The range rules the sensor validators enforce, stated once as data, and the
  outcome type both validators return (Rust's `Result<(), &'static str>`).
  The validators themselves compare against literals, as the source does; their
  contracts are stated against the rules below.
 */
module Rules {

  /** `Ok(())` or `Err(message)` with one of the fixed messages. */
  datatype Outcome = Ok | Err(message: string)

  /** An unsigned 64-bit timestamp (`u64`). */
  type Timestamp = t: int | 0 <= t < 0x1_0000_0000_0000_0000

  /** A closed interval of admissible readings; both ends are admissible. */
  datatype Interval = Interval(lo: real, hi: real)

  predicate Contains(iv: Interval, v: real) {
    iv.lo <= v <= iv.hi
  }

  /** The admissible range of one sensor category and the two messages for leaving it. */
  datatype Rule = Rule(range: Interval, tooLow: string, tooHigh: string)

  const TemperatureTooLow := "INVALID TEMPERATURE: TOO LOW"
  const TemperatureTooHigh := "INVALID TEMPERATURE: TOO HIGH"
  const PressureTooLow := "INVALID PRESSURE: TOO LOW"
  const PressureTooHigh := "INVALID PRESSURE: TOO HIGH"

  const TemperatureRule := Rule(Interval(0.0, 100.0), TemperatureTooLow, TemperatureTooHigh)
  const PressureRule := Rule(Interval(900.0, 1100.0), PressureTooLow, PressureTooHigh)

  /**
    `r` is the verdict `rule` gives on reading `v`: `Ok` exactly inside the
    closed range, the too-low message exactly below it, the too-high message
    exactly above it.
   */
  predicate Conforms(rule: Rule, v: real, r: Outcome) {
    && (r == Ok <==> Contains(rule.range, v))
    && (r == Err(rule.tooLow) <==> v < rule.range.lo)
    && (r == Err(rule.tooHigh) <==> v > rule.range.hi)
  }
}
