/**
  The older curve generator (src/utils/random_gen.py): one uniform draw
  per sieve between its limits, a moving average that reads only the
  original points, then a clamp written out by hand and applied in place.
  The uniform draws are the `samples` parameter.
*/
module LegacyRandomGen {
  import opened SeqMath
  import opened Sieves
  import opened Constraints

  /** smooth_curve's default window. */
  const DefaultWindowSize: nat := 3

  /** First index of the window around i: max(0, i - half). */
  function WindowStart(i: nat, half: nat): nat
  {
    if i >= half then i - half else 0
  }

  /** One past the last index of the window around i: min(n, i + half + 1). */
  function WindowEnd(n: nat, i: nat, half: nat): nat
  {
    if i + half + 1 <= n then i + half + 1 else n
  }

  /** The mean of the original points in the window around i; the window
      always contains i, so it is never empty. */
  function WindowMean(points: seq<real>, i: nat, half: nat): real
    requires i < |points|
  {
    var window := points[WindowStart(i, half)..WindowEnd(|points|, i, half)];
    Sum(window) / (|window| as real)
  }

  /** The moving average of every point over its clipped window. */
  function MovingAverage(points: seq<real>, half: nat): (r: seq<real>)
    ensures |r| == |points|
  {
    seq(|points|, i requires 0 <= i < |points| => WindowMean(points, i, half))
  }

  /** What smooth_curve returns: the input itself when it is shorter than
      the window, the moving average otherwise. */
  function Smoothed(points: seq<real>, windowSize: nat): (r: seq<real>)
    ensures |r| == |points|
  {
    if |points| < windowSize then points else MovingAverage(points, windowSize / 2)
  }

  /** smooth_curve, building the result with an append loop. */
  method SmoothCurve(points: seq<real>, windowSize: nat) returns (smoothed: seq<real>)
    ensures smoothed == Smoothed(points, windowSize)
  {
    if |points| < windowSize {
      return points;
    }
    smoothed := [];
    var halfWindow := windowSize / 2;
    for i := 0 to |points|
      invariant smoothed == MovingAverage(points, halfWindow)[..i]
    {
      ghost var target := MovingAverage(points, halfWindow);
      assert target[..i + 1] == target[..i] + [target[i]];
      var start := WindowStart(i, halfWindow);
      var end := WindowEnd(|points|, i, halfWindow);
      var window := points[start..end];
      smoothed := smoothed + [Sum(window) / (|window| as real)];
    }
  }

  /** The hand-written clamp: max(lower, min(upper, x)). */
  function LegacyClip(x: real, lo: real, hi: real): real
  {
    Max(lo, Min(hi, x))
  }

  /** What a uniform draw between a and b can return, in either order. */
  predicate DrawnBetween(x: real, a: real, b: real)
  {
    Min(a, b) <= x <= Max(a, b)
  }

  /** generate_random_curve: collect the draws, smooth them with the default
      window, then clamp each point in place. */
  method GenerateRandomCurve(lowerLimits: seq<real>, upperLimits: seq<real>, samples: seq<real>)
    returns (smoothedPoints: seq<real>)
    requires |upperLimits| == |lowerLimits| && |samples| == |lowerLimits|
    requires forall i :: 0 <= i < |samples| ==> DrawnBetween(samples[i], lowerLimits[i], upperLimits[i])
    ensures |smoothedPoints| == |lowerLimits|
    ensures forall i :: 0 <= i < |lowerLimits| ==>
      smoothedPoints[i] == LegacyClip(Smoothed(samples, DefaultWindowSize)[i], lowerLimits[i], upperLimits[i])
    ensures OrderedLimits(lowerLimits, upperLimits) ==> WithinLimits(smoothedPoints, lowerLimits, upperLimits)
  {
    var nPoints := |lowerLimits|;
    var randomPoints: seq<real> := [];
    for i := 0 to nPoints
      invariant randomPoints == samples[..i]
    {
      randomPoints := randomPoints + [samples[i]];
    }
    assert randomPoints == samples;
    var smoothed := SmoothCurve(randomPoints, DefaultWindowSize);
    var a := new real[nPoints](i requires 0 <= i < nPoints => smoothed[i]);
    for i := 0 to nPoints
      invariant forall k :: 0 <= k < i ==> a[k] == LegacyClip(smoothed[k], lowerLimits[k], upperLimits[k])
      invariant forall k :: i <= k < nPoints ==> a[k] == smoothed[k]
    {
      a[i] := Max(lowerLimits[i], Min(upperLimits[i], a[i]));
    }
    smoothedPoints := a[..];
  }

  /** Each smoothed point lies between any bounds on the points of its window. */
  lemma WindowMeanWithinWindowBounds(points: seq<real>, i: nat, half: nat, lo: real, hi: real)
    requires i < |points|
    requires forall j :: WindowStart(i, half) <= j < WindowEnd(|points|, i, half) ==> lo <= points[j] <= hi
    ensures lo <= WindowMean(points, i, half) <= hi
  {
    var window := points[WindowStart(i, half)..WindowEnd(|points|, i, half)];
    var m := |window| as real;
    forall j | 0 <= j < |window| ensures lo <= window[j] <= hi {
      assert window[j] == points[WindowStart(i, half) + j];
    }
    SumBounds(window, lo, hi);
    MeanWithinBounds(Sum(window), m, lo, hi);
  }

  /** A total between m * lo and m * hi averages to between lo and hi. */
  lemma MeanWithinBounds(total: real, m: real, lo: real, hi: real)
    requires 0.0 < m && m * lo <= total <= m * hi
    ensures lo <= total / m <= hi
  {
    assert total / m * m == total;
  }

  /** A constant curve is a fixed point of the smoothing. */
  lemma ConstantIsFixedPoint(points: seq<real>, x: real, windowSize: nat)
    requires forall i :: 0 <= i < |points| ==> points[i] == x
    ensures Smoothed(points, windowSize) == points
  {
    if |points| >= windowSize {
      forall i | 0 <= i < |points|
        ensures MovingAverage(points, windowSize / 2)[i] == points[i]
      {
        WindowMeanWithinWindowBounds(points, i, windowSize / 2, x, x);
      }
    }
  }

  /** An interior point's window of three is its two neighbours and itself. */
  lemma InteriorWindowMean(points: seq<real>, i: nat)
    requires 1 <= i < |points| - 1
    ensures WindowMean(points, i, 1) == (points[i - 1] + points[i] + points[i + 1]) / 3.0
  {
    SumOfThree(points[i - 1..i + 2]);
  }

  /** With the default window of three and at least three points the ends are
      averaged over two points and every interior point over three, all of
      them original values. */
  lemma DefaultWindowShape(points: seq<real>)
    requires |points| >= DefaultWindowSize
    ensures var n, r := |points|, Smoothed(points, DefaultWindowSize);
      && r[0] == (points[0] + points[1]) / 2.0
      && r[n - 1] == (points[n - 2] + points[n - 1]) / 2.0
      && forall i :: 1 <= i < n - 1 ==> r[i] == (points[i - 1] + points[i] + points[i + 1]) / 3.0
  {
    var n := |points|;
    SumOfTwo(points[0..2]);
    SumOfTwo(points[n - 2..n]);
    forall i | 1 <= i < n - 1
      ensures Smoothed(points, DefaultWindowSize)[i] == (points[i - 1] + points[i] + points[i + 1]) / 3.0
    {
      InteriorWindowMean(points, i);
    }
  }

  /** Shorter inputs come back unchanged. */
  lemma ShortInputUnchanged(points: seq<real>)
    requires |points| < DefaultWindowSize
    ensures Smoothed(points, DefaultWindowSize) == points
  {
  }

  /** The hand-written clamp agrees with np.clip on ordered limits and
      disagrees on crossed ones: it returns the lower limit where np.clip
      returns the upper. */
  lemma LegacyClipVersusClip(x: real, lo: real, hi: real)
    ensures lo <= hi ==> LegacyClip(x, lo, hi) == Clip(x, lo, hi)
    ensures hi < lo ==> LegacyClip(x, lo, hi) == lo && Clip(x, lo, hi) == hi
  {
  }
}
