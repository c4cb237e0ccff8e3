/** The horizontal progress bar: the `progress` prop is clamped to a percentage in [0, 100]. */
module ProgressBar {

  /** `Math.min(Math.max(progress, 0), 100)`. */
  function Clamp(progress: real): (percentage: real)
    ensures 0.0 <= percentage <= 100.0
    ensures 0.0 <= progress <= 100.0 ==> percentage == progress
    ensures progress < 0.0 ==> percentage == 0.0
    ensures progress > 100.0 ==> percentage == 100.0
  {
    var atLeastZero := if progress > 0.0 then progress else 0.0;
    if atLeastZero < 100.0 then atLeastZero else 100.0
  }

  /** Clamping a clamped value changes nothing. */
  lemma ClampIdempotent(progress: real)
    ensures Clamp(Clamp(progress)) == Clamp(progress)
  {
  }

  /** More progress never shows a shorter bar. */
  lemma ClampMonotone(a: real, b: real)
    requires a <= b
    ensures Clamp(a) <= Clamp(b)
  {
  }
}
