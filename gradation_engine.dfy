/**
  Percent-passing curve to retained weights (core/gradation_engine.py).
  The material retained on sieve i is what passed the sieve above minus what
  passes sieve i; negative differences from a rising curve are clipped to
  zero, and the fractions are scaled by the weight read from a manager the
  engine holds by reference.
*/
module Gradation {
  import opened SeqMath
  import opened Sieves
  import opened TotalWeight

  /** Fraction passing the sieve above minus fraction passing sieve i. */
  function DropFraction(p: seq<real>, i: nat): real
    requires i < |p|
  {
    PrevPassing(p, i) / 100.0 - p[i] / 100.0
  }

  /** Fraction of the sample retained on sieve i, clipped at zero. */
  function RetainedFraction(p: seq<real>, i: nat): real
    requires i < |p|
  {
    Max(0.0, DropFraction(p, i))
  }

  /** The share of a total weight w that a fraction stands for. */
  function Weigh(fraction: real, w: real): real
  {
    fraction * w
  }

  /** The retained weights passing_to_retained produces for weight w. */
  function RetainedWeights(p: seq<real>, w: real): (r: seq<real>)
    ensures |r| == |p|
  {
    seq(|p|, i requires 0 <= i < |p| => Weigh(RetainedFraction(p, i), w))
  }

  /** With a non-negative weight no retained weight is negative, whatever the
      curve's shape. */
  lemma RetainedNonNegative(p: seq<real>, w: real)
    requires 0.0 <= w
    ensures forall i :: 0 <= i < |p| ==> 0.0 <= RetainedWeights(p, w)[i]
  {
  }

  /** The weights are linear in the total weight: multiplying it by k
      multiplies every retained weight by k. */
  lemma RetainedLinearInWeight(p: seq<real>, w: real, k: real)
    ensures forall i :: 0 <= i < |p| ==>
      RetainedWeights(p, k * w)[i] == k * RetainedWeights(p, w)[i]
  {
    forall i | 0 <= i < |p|
      ensures RetainedWeights(p, k * w)[i] == k * RetainedWeights(p, w)[i]
    {
      var f := RetainedFraction(p, i);
      assert f * (k * w) == k * (f * w);
    }
  }

  /** On a curve that starts at or below 100 and never rises nothing is
      clipped, so retained weight i is w times the drop in passing at i. */
  lemma RetainedIsDropOnMonotoneCurve(p: seq<real>, w: real)
    requires |p| >= 1 && p[0] <= 100.0 && NonIncreasing(p)
    ensures forall i :: 0 <= i < |p| ==>
      RetainedWeights(p, w)[i] == w * (PrevPassing(p, i) - p[i]) / 100.0
  {
    forall i | 0 <= i < |p|
      ensures RetainedWeights(p, w)[i] == w * (PrevPassing(p, i) - p[i]) / 100.0
    {
      assert PrevPassing(p, i) >= p[i];
    }
  }

  /** Mass balance: on such a curve the retained weights add up to w times the
      percentage retained above the pan. */
  lemma RetainedSumTelescopes(p: seq<real>, w: real)
    requires |p| >= 1 && p[0] <= 100.0 && NonIncreasing(p)
    ensures Sum(RetainedWeights(p, w)) == w * (1.0 - p[|p| - 1] / 100.0)
  {
    RetainedIsDropOnMonotoneCurve(p, w);
    Telescoping(p, RetainedWeights(p, w), w);
  }

  /** A curve that ends at 0 % passing on the pan conserves the total weight. */
  lemma RetainedSumsToWeight(p: seq<real>, w: real)
    requires |p| >= 1 && p[0] <= 100.0 && NonIncreasing(p) && p[|p| - 1] == 0.0
    ensures Sum(RetainedWeights(p, w)) == w
  {
    RetainedSumTelescopes(p, w);
  }

  /** The even 20 % steps with a total of 1000 retain 200 on every sieve but the first. */
  lemma RetainedEvenStepsExample()
    ensures RetainedWeights([100.0, 80.0, 60.0, 40.0, 20.0, 0.0], 1000.0)
         == [0.0, 200.0, 200.0, 200.0, 200.0, 200.0]
  {
    var p := [100.0, 80.0, 60.0, 40.0, 20.0, 0.0];
    assert NonIncreasing(p);
    RetainedIsDropOnMonotoneCurve(p, 1000.0);
  }

  class GradationEngine {
    /** The manager the weight is read from; possibly shared with other engines. */
    const manager: TotalWeightManager

    /** Keep the given manager, or make a fresh one when none is given. */
    constructor (totalWeightManager: TotalWeightManager?)
      ensures totalWeightManager != null ==> manager == totalWeightManager
      ensures totalWeightManager == null ==>
        fresh(manager) && manager.totalWeight == DefaultTotalWeight
    {
      if totalWeightManager != null {
        manager := totalWeightManager;
      } else {
        manager := new TotalWeightManager();
      }
    }

    /** Convert a percent-passing curve to retained weights at the manager's
        current weight. Reads the manager, modifies nothing. On an empty curve
        passing_to_retained raises IndexError at index 0, hence the precondition. */
    method PassingToRetained(passing: seq<real>) returns (retainedWeights: seq<real>)
      requires |passing| >= 1
      ensures retainedWeights == RetainedWeights(passing, manager.totalWeight)
    {
      var n := |passing|;
      var retainedFrac := new real[n];
      retainedFrac[0] := 1.0 - passing[0] / 100.0;
      for i := 1 to n
        invariant forall k :: 0 <= k < i ==> retainedFrac[k] == DropFraction(passing, k)
      {
        retainedFrac[i] := passing[i - 1] / 100.0 - passing[i] / 100.0;
      }
      var totalWt := manager.GetTotalWeight();
      retainedWeights := [];
      for i := 0 to n
        invariant forall k :: 0 <= k < n ==> retainedFrac[k] == DropFraction(passing, k)
        invariant retainedWeights == RetainedWeights(passing, totalWt)[..i]
      {
        ghost var target := RetainedWeights(passing, totalWt);
        assert target[..i + 1] == target[..i] + [target[i]];
        retainedWeights := retainedWeights + [Weigh(Max(0.0, retainedFrac[i]), totalWt)];
      }
    }
  }
}
