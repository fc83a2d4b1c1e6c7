/**
  Random passing-curve synthesis (core/random_generator.py): start from
  the midpoint of the limits, add a random walk re-centred on its mean,
  clamp into the limits, then run one left-to-right smoothing sweep over
  the interior points, updating the curve in place. The Gaussian draws are
  the `noise` parameter.
*/
module RandomGenerator {
  import opened SeqMath
  import opened Sieves
  import opened Constraints
  import opened Materials

  /** The midpoint of the limits at every sieve: the seed curve. */
  function Midpoint(lower: seq<real>, upper: seq<real>): (m: seq<real>)
    requires |upper| == |lower|
    ensures |m| == |lower|
  {
    seq(|lower|, i requires 0 <= i < |lower| => (lower[i] + upper[i]) / 2.0)
  }

  function Mean(s: seq<real>): real
    requires |s| >= 1
  {
    Sum(s) / (|s| as real)
  }

  /** The running sum of the noise draws, minus its own mean. */
  function CentredWalk(noise: seq<real>): (w: seq<real>)
    ensures |w| == |noise|
  {
    if |noise| == 0 then []
    else
      var walk := CumSum(noise);
      var m := Mean(walk);
      seq(|noise|, i requires 0 <= i < |noise| => walk[i] - m)
  }

  /** The seed curve plus the centred walk, before clamping. */
  function Perturbed(lower: seq<real>, upper: seq<real>, noise: seq<real>): (c: seq<real>)
    requires |upper| == |lower| && |noise| == |lower|
    ensures |c| == |lower|
  {
    var mid, walk := Midpoint(lower, upper), CentredWalk(noise);
    seq(|lower|, i requires 0 <= i < |lower| => mid[i] + walk[i])
  }

  /** The clamped curve the smoothing sweep starts from. */
  function Clamped(lower: seq<real>, upper: seq<real>, noise: seq<real>): (c: seq<real>)
    requires |upper| == |lower| && |noise| == |lower|
    ensures |c| == |lower|
  {
    ClampCurve(Perturbed(lower, upper, noise), lower, upper)
  }

  /** One iteration of the sweep: point i becomes the mean of itself and its
      two current neighbours. */
  function SmoothStep(c: seq<real>, i: nat): (r: seq<real>)
    requires 1 <= i && i + 1 < |c|
    ensures |r| == |c|
  {
    c[i := (c[i - 1] + c[i] + c[i + 1]) / 3.0]
  }

  /** The curve after the sweep has visited points 1, ..., k: nothing
      outside 1..k has moved. */
  function SmoothedThrough(c: seq<real>, k: nat): (r: seq<real>)
    requires k == 0 || k + 2 <= |c|
    ensures |r| == |c|
    ensures forall j :: 0 <= j < |c| && (j == 0 || k < j) ==> r[j] == c[j]
    decreases k
  {
    if k == 0 then c else SmoothStep(SmoothedThrough(c, k - 1), k)
  }

  /** The whole sweep, `for i in range(1, n - 1)`. */
  function SmoothPass(c: seq<real>): (r: seq<real>)
    ensures |r| == |c|
  {
    SmoothedThrough(c, if |c| >= 2 then |c| - 2 else 0)
  }

  /** Point j of the curve through k (1 <= j <= k) is the mean of the
      already smoothed left neighbour and the original point and right
      neighbour: the left neighbour was overwritten one step earlier, the
      right one not yet. */
  lemma {:induction false} SweepRecurrence(c: seq<real>, k: nat, j: nat)
    requires k + 2 <= |c| && 1 <= j <= k
    ensures SmoothedThrough(c, k)[j] == (SmoothedThrough(c, k)[j - 1] + c[j] + c[j + 1]) / 3.0
    decreases k
  {
    if j < k {
      SweepRecurrence(c, k - 1, j);
    }
  }

  /** The sweep as one more visit: the curve through k is the curve through
      k - 1 with point k smoothed. */
  lemma SmoothedThroughStep(c: seq<real>, k: nat)
    requires 1 <= k && k + 2 <= |c|
    ensures SmoothedThrough(c, k) == SmoothStep(SmoothedThrough(c, k - 1), k)
  {
  }

  /** The `for i in range(1, n - 1)` sweep, in place on the array. */
  method SmoothInPlace(a: array<real>)
    modifies a
    ensures a[..] == SmoothPass(old(a[..]))
  {
    ghost var start := a[..];
    var n := a.Length;
    var i := 1;
    while i < n - 1
      invariant 1 <= i && (i == 1 || i <= n - 1)
      invariant a[..] == SmoothedThrough(start, i - 1)
    {
      ghost var before := a[..];
      var smoothed := (a[i - 1] + a[i] + a[i + 1]) / 3.0;
      a[i] := smoothed;
      assert a[..] == before[i := smoothed];
      SmoothedThroughStep(start, i);
      i := i + 1;
    }
  }

  /** generate: pure seed, walk and clamp, then the in-place sweep on an
      array. The sieve labels are accepted and never used. */
  method Generate(sieveSizes: seq<SieveLabel>, lower: seq<real>, upper: seq<real>, noise: seq<real>)
    returns (curve: seq<real>)
    requires |upper| == |lower| && |noise| == |lower|
    ensures curve == SmoothPass(Clamped(lower, upper, noise))
  {
    var n := |lower|;
    var start := Clamped(lower, upper, noise);
    var a := new real[n](i requires 0 <= i < n => start[i]);
    assert a[..] == start;
    SmoothInPlace(a);
    curve := a[..];
  }

  /** The re-centred walk adds nothing on balance: it sums to zero. */
  lemma CentredWalkSumsToZero(noise: seq<real>)
    ensures Sum(CentredWalk(noise)) == 0.0
  {
    if |noise| > 0 {
      var walk := CumSum(noise);
      SumAffine(walk, CentredWalk(noise), -Mean(walk), 1.0);
      assert (|walk| as real) * Mean(walk) == Sum(walk);
    }
  }

  /** Without noise the curve before clamping is the midpoint seed. */
  lemma SilentNoiseGivesMidpoint(lower: seq<real>, upper: seq<real>, noise: seq<real>)
    requires |upper| == |lower| && |noise| == |lower|
    requires forall i :: 0 <= i < |noise| ==> noise[i] == 0.0
    ensures Perturbed(lower, upper, noise) == Midpoint(lower, upper)
  {
    if |noise| > 0 {
      var walk := CumSum(noise);
      forall i | 0 <= i < |noise| ensures walk[i] == 0.0 {
        SumBounds(noise[..i + 1], 0.0, 0.0);
      }
      SumBounds(walk, 0.0, 0.0);
      assert Mean(walk) == 0.0;
      var centred := CentredWalk(noise);
      forall i | 0 <= i < |noise| ensures centred[i] == 0.0 {
        assert centred[i] == walk[i] - Mean(walk);
      }
    }
  }

  /** With ordered limits the midpoint seed already lies within them. */
  lemma MidpointWithinLimits(lower: seq<real>, upper: seq<real>)
    requires OrderedLimits(lower, upper)
    ensures WithinLimits(Midpoint(lower, upper), lower, upper)
  {
  }

  /** Right after the clamp every point is within its limits. */
  lemma ClampedWithinLimits(lower: seq<real>, upper: seq<real>, noise: seq<real>)
    requires OrderedLimits(lower, upper) && |noise| == |lower|
    ensures WithinLimits(Clamped(lower, upper, noise), lower, upper)
  {
    ClampWithinLimits(Perturbed(lower, upper, noise), lower, upper);
  }

  /** The sweep never moves the two end points, and with fewer than three
      points it does nothing at all. */
  lemma SmoothPassKeepsEnds(c: seq<real>)
    ensures |c| >= 1 ==> SmoothPass(c)[0] == c[0] && SmoothPass(c)[|c| - 1] == c[|c| - 1]
    ensures |c| <= 2 ==> SmoothPass(c) == c
  {
  }

  /** The sweep's recurrence over the finished curve: each interior point is
      the mean of the smoothed left neighbour and the original point and
      right neighbour. */
  lemma SmoothPassRecurrence(c: seq<real>)
    ensures forall j :: 1 <= j < |c| - 1 ==>
      SmoothPass(c)[j] == (SmoothPass(c)[j - 1] + c[j] + c[j + 1]) / 3.0
  {
    forall j | 1 <= j < |c| - 1
      ensures SmoothPass(c)[j] == (SmoothPass(c)[j - 1] + c[j] + c[j + 1]) / 3.0
    {
      SweepRecurrence(c, |c| - 2, j);
    }
  }

  /** Even with no noise at all the promise fails: the coarse-aggregate
      midpoint [100, 95, 30, 5, 0] is within its limits and survives the
      clamp, but the sweep pulls sieve 1 down to (100 + 95 + 30) / 3 = 75,
      below its lower limit of 90. */
  lemma SilentNoiseLeavesCoarseLimits()
    ensures |CoarseAggregate.lowerLimits| == 5
    ensures SmoothPass(Clamped(CoarseAggregate.lowerLimits, CoarseAggregate.upperLimits, [0.0, 0.0, 0.0, 0.0, 0.0]))[1]
         == 75.0
    ensures !WithinLimits(
      SmoothPass(Clamped(CoarseAggregate.lowerLimits, CoarseAggregate.upperLimits, [0.0, 0.0, 0.0, 0.0, 0.0])),
      CoarseAggregate.lowerLimits, CoarseAggregate.upperLimits)
  {
    var lower, upper := CoarseAggregate.lowerLimits, CoarseAggregate.upperLimits;
    var z: seq<real> := [0.0, 0.0, 0.0, 0.0, 0.0];
    SilentNoiseGivesMidpoint(lower, upper, z);
    assert Midpoint(lower, upper) == [100.0, 95.0, 30.0, 5.0, 0.0];
    var c := Clamped(lower, upper, z);
    assert c == [100.0, 95.0, 30.0, 5.0, 0.0];
    SmoothPassRecurrence(c);
    SmoothPassKeepsEnds(c);
  }

  const CoarseNoise: seq<real> := [-10.0, 20.0, 0.0, 0.0, -30.0]

  /** The promised "within limits" fails: with the coarse-aggregate limits and
      the draws [-10, 20, 0, 0, -30] the clamped curve is
      [100, 100, 35, 10, 0] and the sweep lifts sieve 2 to 370/9, above its
      upper limit of 35 (and sieve 3 to 460/27, above its limit of 10). */
  lemma SmoothingLeavesCoarseLimits()
    ensures |CoarseAggregate.lowerLimits| == 5
    ensures SmoothPass(Clamped(CoarseAggregate.lowerLimits, CoarseAggregate.upperLimits, CoarseNoise))[2]
         == 370.0 / 9.0
    ensures !WithinLimits(
      SmoothPass(Clamped(CoarseAggregate.lowerLimits, CoarseAggregate.upperLimits, CoarseNoise)),
      CoarseAggregate.lowerLimits, CoarseAggregate.upperLimits)
  {
    var lower, upper := CoarseAggregate.lowerLimits, CoarseAggregate.upperLimits;
    var z := CoarseNoise;
    var walk := CumSum(z);
    assert z[..0] == [];
    SumPrefixStep(z, 0);
    SumPrefixStep(z, 1);
    SumPrefixStep(z, 2);
    SumPrefixStep(z, 3);
    SumPrefixStep(z, 4);
    assert walk == [-10.0, 10.0, 10.0, 10.0, -20.0];
    assert walk[..0] == [];
    SumPrefixStep(walk, 0);
    SumPrefixStep(walk, 1);
    SumPrefixStep(walk, 2);
    SumPrefixStep(walk, 3);
    SumPrefixStep(walk, 4);
    assert walk[..5] == walk;
    assert Sum(walk) == 0.0;
    assert CentredWalk(z) == walk;
    assert Perturbed(lower, upper, z) == [90.0, 105.0, 40.0, 15.0, -20.0];
    var c := Clamped(lower, upper, z);
    assert c == [100.0, 100.0, 35.0, 10.0, 0.0];
    SmoothPassRecurrence(c);
    SmoothPassKeepsEnds(c);
  }

  /** The evidently intended generator: the same steps followed by a second
      clamp, so the result really lies within the limits. */
  method GenerateWithinLimits(sieveSizes: seq<SieveLabel>, lower: seq<real>, upper: seq<real>, noise: seq<real>)
    returns (curve: seq<real>)
    requires |upper| == |lower| && |noise| == |lower|
    ensures curve == ClampCurve(SmoothPass(Clamped(lower, upper, noise)), lower, upper)
    ensures OrderedLimits(lower, upper) ==> WithinLimits(curve, lower, upper)
  {
    var smoothed := Generate(sieveSizes, lower, upper, noise);
    curve := ClampCurve(smoothed, lower, upper);
    if OrderedLimits(lower, upper) {
      ClampWithinLimits(smoothed, lower, upper);
    }
  }
}
