/**
 * The circular progress ring: a circle of radius `(size - strokeWidth) / 2` whose stroke is
 * dashed so that the visible arc is the clamped percentage of the circumference. The
 * circumference involves `Math.PI`, so `pi` is a parameter: any positive value will do.
 */
module CircularProgress {
  import ProgressBar

  const DefaultSize: real := 120.0
  const DefaultStrokeWidth: real := 8.0

  /** `(size - strokeWidth) / 2`. */
  function Radius(size: real, strokeWidth: real): (r: real)
    ensures r * 2.0 + strokeWidth == size
  {
    (size - strokeWidth) / 2.0
  }

  /** With the default props the radius is 56. */
  lemma DefaultRadius()
    ensures Radius(DefaultSize, DefaultStrokeWidth) == 56.0
  {
  }

  /** `radius * 2 * Math.PI`: positive whenever the stroke is narrower than the ring. */
  function Circumference(radius: real, pi: real): (c: real)
    requires pi > 0.0
    ensures radius > 0.0 ==> c > 0.0
    ensures c == 0.0 <==> radius == 0.0
  {
    radius * 2.0 * pi
  }

  /**
   * `circumference - (percentage / 100) * circumference`, where `percentage` is the same clamp
   * as the progress bar's: the length of the ring left undrawn.
   */
  function DashOffset(circumference: real, progress: real): (offset: real)
    ensures circumference >= 0.0 ==> 0.0 <= offset <= circumference
    ensures ProgressBar.Clamp(progress) == 0.0 ==> offset == circumference
    ensures ProgressBar.Clamp(progress) == 100.0 ==> offset == 0.0
  {
    var percentage := ProgressBar.Clamp(progress);
    circumference - (percentage / 100.0) * circumference
  }

  /** On a ring, more progress leaves less of it undrawn. */
  lemma OffsetShrinks(circumference: real, a: real, b: real)
    requires circumference >= 0.0 && a <= b
    ensures DashOffset(circumference, b) <= DashOffset(circumference, a)
  {
    ProgressBar.ClampMonotone(a, b);
    var pa, pb := ProgressBar.Clamp(a), ProgressBar.Clamp(b);
    var d := pb / 100.0 - pa / 100.0;
    assert d >= 0.0;
    assert d * circumference >= 0.0;
    assert (pb / 100.0) * circumference == (pa / 100.0) * circumference + d * circumference;
  }
}
