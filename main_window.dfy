/**
  The two calculations of the desktop window (src/ui/main_window.py),
  lifted out of the window class: weight retained straight from the passing
  percentages, with no clamping, and a fineness modulus straight from the
  passing curve. Also the window's built-in sample curves.
*/
module MainWindow {
  import opened SeqMath
  import opened Sieves

  /** pct percent of a weight w, computed as w * pct / 100. */
  function PercentOf(w: real, pct: real): real
  {
    w * pct / 100.0
  }

  /** The weights calculate_weight_retained produces. */
  function WeightRetained(passing: seq<real>, totalWeight: real): (r: seq<real>)
    ensures |r| == |passing|
  {
    seq(|passing|, i requires 0 <= i < |passing| => PercentOf(totalWeight, PrevPassing(passing, i) - passing[i]))
  }

  /** calculate_weight_retained: walk the curve carrying the previous
      percentage passing, starting from 100. */
  method CalculateWeightRetained(passing: seq<real>, totalWeight: real) returns (weightRetained: seq<real>)
    ensures weightRetained == WeightRetained(passing, totalWeight)
  {
    weightRetained := [];
    var cumulativePassing := 100.0;
    for i := 0 to |passing|
      invariant cumulativePassing == PrevPassing(passing, i)
      invariant weightRetained == WeightRetained(passing, totalWeight)[..i]
    {
      ghost var target := WeightRetained(passing, totalWeight);
      assert target[..i + 1] == target[..i] + [target[i]];
      var p := passing[i];
      var retainedPercent := cumulativePassing - p;
      var retainedWeight := PercentOf(totalWeight, retainedPercent);
      weightRetained := weightRetained + [retainedWeight];
      cumulativePassing := p;
    }
  }

  /** The terms 100 - p of calculate_fm (named cumulative retained there). */
  function ComplementTerms(passing: seq<real>): (t: seq<real>)
    ensures |t| == |passing|
  {
    seq(|passing|, i requires 0 <= i < |passing| => 100.0 - passing[i])
  }

  /** calculate_fm: the sum of 100 - p over the curve, over 100; that is the
      number of sieves less the curve's sum over 100. */
  function CalculateFm(passing: seq<real>): (fm: real)
    ensures fm == (|passing| as real) - Sum(passing) / 100.0
  {
    SumAffine(passing, ComplementTerms(passing), 100.0, -1.0);
    Sum(ComplementTerms(passing)) / 100.0
  }

  /** Unclamped mass balance: whatever the curve's shape the weights add up to
      the weight times the percentage retained above the pan. */
  lemma WeightRetainedTelescopes(passing: seq<real>, totalWeight: real)
    requires |passing| >= 1
    ensures Sum(WeightRetained(passing, totalWeight))
         == totalWeight * (100.0 - passing[|passing| - 1]) / 100.0
  {
    Telescoping(passing, WeightRetained(passing, totalWeight), totalWeight);
  }

  /** The same for the running totals: the weights down to sieve i add up to
      the weight times the percentage retained on sieves 0..i. */
  lemma WeightRetainedPrefixTelescopes(passing: seq<real>, totalWeight: real, i: nat)
    requires i < |passing|
    ensures CumSum(WeightRetained(passing, totalWeight))[i]
         == totalWeight * (100.0 - passing[i]) / 100.0
  {
    TelescopingThrough(passing, WeightRetained(passing, totalWeight), totalWeight, i);
  }

  /** With a positive weight an entry is negative exactly where the curve
      rises, since nothing is clamped. */
  lemma NegativeExactlyWhereCurveRises(passing: seq<real>, totalWeight: real, i: nat)
    requires 0.0 < totalWeight && i < |passing|
    ensures WeightRetained(passing, totalWeight)[i] < 0.0 <==> PrevPassing(passing, i) < passing[i]
  {
    var d := PrevPassing(passing, i) - passing[i];
    if d < 0.0 {
      assert totalWeight * d < 0.0;
    } else {
      assert totalWeight * d >= 0.0;
    }
  }

  /** For percentages in [0, 100] the modulus lies between 0 and the number of sieves. */
  lemma CalculateFmBounds(passing: seq<real>)
    requires forall i :: 0 <= i < |passing| ==> 0.0 <= passing[i] <= 100.0
    ensures 0.0 <= CalculateFm(passing) <= |passing| as real
  {
    SumBounds(passing, 0.0, 100.0);
  }

  // The fine-aggregate sample the window starts with.
  const FineSampleLower: seq<real> := [100.0, 95.0, 85.0, 70.0, 45.0, 20.0, 5.0, 0.0]
  const FineSampleUpper: seq<real> := [100.0, 100.0, 100.0, 95.0, 75.0, 40.0, 15.0, 0.0]
  const FineSamplePassing: seq<real> := [100.0, 97.0, 90.0, 80.0, 60.0, 30.0, 10.0, 0.0]

  // The sub-base sample the window starts with.
  const SubBaseSampleLower: seq<real> := [100.0, 95.0, 85.0, 70.0, 60.0, 40.0, 25.0, 5.0, 0.0]
  const SubBaseSampleUpper: seq<real> := [100.0, 100.0, 100.0, 95.0, 85.0, 65.0, 45.0, 15.0, 0.0]
  const SubBaseSamplePassing: seq<real> := [100.0, 98.0, 92.0, 82.0, 72.0, 50.0, 35.0, 10.0, 0.0]

  /** Both sample curves lie within their sample limits at every sieve. */
  lemma SampleCurvesWithinLimits()
    ensures WithinLimits(FineSamplePassing, FineSampleLower, FineSampleUpper)
    ensures WithinLimits(SubBaseSamplePassing, SubBaseSampleLower, SubBaseSampleUpper)
  {
  }

  /** The fine sample sums to 467. */
  lemma FineSampleSum()
    ensures Sum(FineSamplePassing) == 467.0
  {
    var p := FineSamplePassing;
    assert p[..0] == [] && p[..8] == p;
    SumPrefixStep(p, 0);
    SumPrefixStep(p, 1);
    SumPrefixStep(p, 2);
    SumPrefixStep(p, 3);
    SumPrefixStep(p, 4);
    SumPrefixStep(p, 5);
    SumPrefixStep(p, 6);
    SumPrefixStep(p, 7);
  }

  /** The fine sample with a total of 2000 retains
      [0, 60, 140, 200, 400, 600, 400, 200], which adds up to 2000, and its
      modulus by this formula is 3.33. */
  lemma FineSampleResults()
    ensures WeightRetained(FineSamplePassing, 2000.0)
         == [0.0, 60.0, 140.0, 200.0, 400.0, 600.0, 400.0, 200.0]
    ensures Sum(WeightRetained(FineSamplePassing, 2000.0)) == 2000.0
    ensures CalculateFm(FineSamplePassing) == 3.33
  {
    WeightRetainedTelescopes(FineSamplePassing, 2000.0);
    FineSampleSum();
  }
}
