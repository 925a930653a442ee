/**
 * DOM measurements as plain inputs. `parseFloat(getComputedStyle(el).x)` is
 * an `Option<real>`: `None` stands for NaN, `Some(v)` for a number.
 * The program falls back to a default in two different ways.
 */
module Measure {
  import opened Wrappers

  /** `isNaN(v) ? default : v`: any number, zero included, is kept. */
  function NumberOr(parsed: Option<real>, default: real): (r: real)
    ensures parsed.Some? ==> r == parsed.value
    ensures parsed.None? ==> r == default
  {
    parsed.GetOr(default)
  }

  /** `v || default`: NaN and zero are both falsy, so both give `default`. */
  function TruthyNumberOr(parsed: Option<real>, default: real): (r: real)
    ensures default != 0.0 ==> r != 0.0
    ensures r == default || (parsed.Some? && r == parsed.value)
    ensures parsed.Some? && parsed.value != 0.0 ==> r == parsed.value
  {
    if parsed.Some? && parsed.value != 0.0 then parsed.value else default
  }

  /** `Math.max(0, x)`. */
  function ClampNonNegative(x: real): (r: real)
    ensures r >= 0.0 && r >= x
    ensures r == x || r == 0.0
  {
    if x < 0.0 then 0.0 else x
  }
}
