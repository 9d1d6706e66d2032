/** Rounding and bounding numbers the way the source does. */
module Decimals {
  function Min(a: real, b: real): real { if a <= b then a else b }

  function Max(a: real, b: real): real { if a >= b then a else b }

  function Clamp(value: real, low: real, high: real): real { Max(low, Min(high, value)) }

  /** `math.Round`: half away from zero. */
  function Round(x: real): int { if x >= 0.0 then (x + 0.5).Floor else -((0.5 - x).Floor) }

  lemma RoundNear(x: real)
    requires x >= 0.0
    ensures x - 0.5 <= Round(x) as real <= x + 0.5
  {}

  /** Four decimals, cut towards zero. */
  function Truncate4(x: real): real {
    if x >= 0.0 then (x * 10000.0).Floor as real / 10000.0 else -((-x * 10000.0).Floor as real / 10000.0)
  }
}
