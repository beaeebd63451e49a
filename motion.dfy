/** Time-linear estimation of a shutter's position during a movement. */
module Motion {

  /** `min(1.0, elapsed / duration)`: the fraction of the movement done. No lower bound is applied. */
  function Progress(elapsed: real, duration: real): (p: real)
    requires duration > 0.0
    ensures p <= 1.0
    ensures elapsed >= 0.0 ==> 0.0 <= p
    ensures elapsed >= duration ==> p == 1.0
    ensures elapsed == 0.0 ==> p == 0.0
  {
    var fraction := elapsed / duration;
    if fraction < 1.0 then fraction else 1.0
  }

  /** True when `x` lies between `a` and `b`, in either order. */
  predicate Between(x: real, a: real, b: real) {
    (a <= x <= b) || (b <= x <= a)
  }

  /** The position `elapsed` seconds into a movement from `startPosition` to `target`. */
  function Interpolate(startPosition: real, target: real, elapsed: real, duration: real): (r: real)
    requires duration > 0.0
    ensures elapsed == 0.0 ==> r == startPosition
    ensures elapsed >= duration ==> r == target
    ensures elapsed >= 0.0 ==> Between(r, startPosition, target)
  {
    var p := Progress(elapsed, duration);
    ScaledStepBetween(startPosition, target, p);
    startPosition + (target - startPosition) * p
  }

  /** The product of two non-negative numbers is non-negative. */
  lemma ProductNonNegative(x: real, y: real)
    requires 0.0 <= x && 0.0 <= y
    ensures 0.0 <= x * y
  {
  }

  /** Moving a fraction in [0, 1] of the way from `a` to `b` stays between them. */
  lemma ScaledStepBetween(a: real, b: real, p: real)
    ensures 0.0 <= p <= 1.0 ==> Between(a + (b - a) * p, a, b)
  {
    if 0.0 <= p <= 1.0 {
      if a <= b {
        ProductNonNegative(b - a, p);
        ProductNonNegative(b - a, 1.0 - p);
      } else {
        ProductNonNegative(a - b, p);
        ProductNonNegative(a - b, 1.0 - p);
      }
    }
  }

  /** Progress never decreases as time passes. */
  lemma ProgressMonotone(e1: real, e2: real, duration: real)
    requires duration > 0.0
    requires e1 <= e2
    ensures Progress(e1, duration) <= Progress(e2, duration)
  {
    assert e1 / duration <= e2 / duration by {
      assert e2 / duration - e1 / duration == (e2 - e1) / duration;
    }
  }

  /** The estimate moves toward the target as time passes, never away from it. */
  lemma InterpolateMonotone(startPosition: real, target: real, e1: real, e2: real, duration: real)
    requires duration > 0.0
    requires e1 <= e2
    ensures startPosition <= target ==>
              Interpolate(startPosition, target, e1, duration) <= Interpolate(startPosition, target, e2, duration)
    ensures target <= startPosition ==>
              Interpolate(startPosition, target, e2, duration) <= Interpolate(startPosition, target, e1, duration)
  {
    var p1, p2 := Progress(e1, duration), Progress(e2, duration);
    ProgressMonotone(e1, e2, duration);
    if startPosition <= target {
      ProductNonNegative(target - startPosition, p2 - p1);
    } else {
      ProductNonNegative(startPosition - target, p2 - p1);
    }
  }
}
