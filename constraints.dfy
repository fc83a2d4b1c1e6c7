/**
  Elementwise clamping of a curve into its limits (core/constraints.py).
  numpy's clip takes the maximum with the lower bound first and then the
  minimum with the upper bound, so where a lower bound exceeds its upper
  bound the upper bound wins.
*/
module Constraints {
  import opened SeqMath
  import opened Sieves

  /** np.clip on one element. */
  function Clip(x: real, lo: real, hi: real): real
  {
    Min(hi, Max(lo, x))
  }

  /** clamp_curve; arrays of different lengths fail to broadcast, hence the
      precondition. Every point ends at or below its upper limit, at or above
      its lower limit when the two are ordered, and is either left alone or
      moved onto one of its limits; a point already within its limits stays. */
  function ClampCurve(curve: seq<real>, lower: seq<real>, upper: seq<real>): (r: seq<real>)
    requires |lower| == |curve| && |upper| == |curve|
    ensures |r| == |curve|
    ensures forall i :: 0 <= i < |r| ==> r[i] <= upper[i]
    ensures forall i :: 0 <= i < |r| && lower[i] <= upper[i] ==> lower[i] <= r[i]
    ensures forall i :: 0 <= i < |r| ==> r[i] == curve[i] || r[i] == lower[i] || r[i] == upper[i]
    ensures forall i :: 0 <= i < |r| && lower[i] <= curve[i] <= upper[i] ==> r[i] == curve[i]
  {
    seq(|curve|, i requires 0 <= i < |curve| => Clip(curve[i], lower[i], upper[i]))
  }

  /** With ordered limits every clamped point lies within them. */
  lemma ClampWithinLimits(curve: seq<real>, lower: seq<real>, upper: seq<real>)
    requires |lower| == |curve| && OrderedLimits(lower, upper)
    ensures WithinLimits(ClampCurve(curve, lower, upper), lower, upper)
  {
  }

  /** A point already within its limits is returned unchanged, and only such
      points are (for ordered limits). */
  lemma ClampKeepsExactlyInBoundsPoints(curve: seq<real>, lower: seq<real>, upper: seq<real>)
    requires |lower| == |curve| && OrderedLimits(lower, upper)
    ensures forall i :: 0 <= i < |curve| ==>
      (ClampCurve(curve, lower, upper)[i] == curve[i] <==> lower[i] <= curve[i] <= upper[i])
  {
  }

  /** A curve within its limits is a fixed point. */
  lemma ClampFixesCurveWithinLimits(curve: seq<real>, lower: seq<real>, upper: seq<real>)
    requires WithinLimits(curve, lower, upper)
    ensures ClampCurve(curve, lower, upper) == curve
  {
  }

  /** Clamping twice is clamping once, whatever the limits. */
  lemma ClampIdempotent(curve: seq<real>, lower: seq<real>, upper: seq<real>)
    requires |lower| == |curve| && |upper| == |curve|
    ensures ClampCurve(ClampCurve(curve, lower, upper), lower, upper) == ClampCurve(curve, lower, upper)
  {
  }

  /** Clamping is monotone: a pointwise lower curve stays pointwise lower. */
  lemma ClampMonotone(c: seq<real>, d: seq<real>, lower: seq<real>, upper: seq<real>)
    requires |d| == |c| && |lower| == |c| && |upper| == |c|
    requires forall i :: 0 <= i < |c| ==> c[i] <= d[i]
    ensures forall i :: 0 <= i < |c| ==>
      ClampCurve(c, lower, upper)[i] <= ClampCurve(d, lower, upper)[i]
  {
  }

  /** Crossed limits at a sieve pin the point to the upper limit. */
  lemma ClampCrossedLimitsGivesUpper(curve: seq<real>, lower: seq<real>, upper: seq<real>, i: nat)
    requires |lower| == |curve| && |upper| == |curve|
    requires i < |curve| && upper[i] < lower[i]
    ensures ClampCurve(curve, lower, upper)[i] == upper[i]
  {
  }
}
