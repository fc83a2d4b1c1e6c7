/**
  How the pieces fit together: the engine's clamped conversion against the
  window's unclamped one, the two fineness-modulus formulas against each
  other, and several engines sharing one weight manager.
*/
module Consistency {
  import opened SeqMath
  import opened Sieves
  import opened TotalWeight
  import opened Gradation
  import FmCalculator
  import MainWindow

  /** Where the curve does not rise at sieve i the engine and the window
      produce the same weight there. */
  lemma EngineAgreesWithWindowAt(p: seq<real>, w: real, i: nat)
    requires i < |p| && p[i] <= PrevPassing(p, i)
    ensures RetainedWeights(p, w)[i] == MainWindow.WeightRetained(p, w)[i]
  {
    var a, b := PrevPassing(p, i), p[i];
    assert RetainedWeights(p, w)[i] == (a / 100.0 - b / 100.0) * w;
    assert MainWindow.WeightRetained(p, w)[i] == w * (a - b) / 100.0;
  }

  /** On a curve that starts at or below 100 and never rises the engine and
      the window produce the same weights. */
  lemma EngineAgreesWithWindow(p: seq<real>, w: real)
    requires |p| >= 1 && p[0] <= 100.0 && NonIncreasing(p)
    ensures RetainedWeights(p, w) == MainWindow.WeightRetained(p, w)
  {
    forall i | 0 <= i < |p|
      ensures RetainedWeights(p, w)[i] == MainWindow.WeightRetained(p, w)[i]
    {
      EngineAgreesWithWindowAt(p, w, i);
    }
  }

  /** For a non-zero weight the two agree on a sieve exactly when the curve
      does not rise there; where it rises the engine clips to 0 and the window
      keeps the negative weight. */
  lemma EngineAgreesWithWindowExactlyWhereCurveFalls(p: seq<real>, w: real, i: nat)
    requires w != 0.0 && i < |p|
    ensures RetainedWeights(p, w)[i] == MainWindow.WeightRetained(p, w)[i] <==> p[i] <= PrevPassing(p, i)
  {
    var d := PrevPassing(p, i) - p[i];
    assert MainWindow.WeightRetained(p, w)[i] == w * d / 100.0;
    if p[i] <= PrevPassing(p, i) {
      assert RetainedFraction(p, i) == d / 100.0;
    } else {
      assert RetainedWeights(p, w)[i] == 0.0;
      assert w * d != 0.0;
    }
  }

  /** The running totals of the engine's weights on such a curve: w times the
      percentage retained down to each sieve. */
  lemma CumulativeRetained(p: seq<real>, w: real, i: nat)
    requires |p| >= 1 && p[0] <= 100.0 && NonIncreasing(p) && i < |p|
    ensures CumSum(RetainedWeights(p, w))[i] == w * (100.0 - p[i]) / 100.0
  {
    EngineAgreesWithWindow(p, w);
    MainWindow.WeightRetainedPrefixTelescopes(p, w, i);
  }

  /** A running total of w * (100 - x) / 100 out of a grand total of w is
      turned back into x by the calculator's complement. */
  lemma ComplementRecoversPassing(c: real, w: real, x: real)
    requires w != 0.0 && c == w * (100.0 - x) / 100.0
    ensures (1.0 - c / w) * 100.0 == x
  {
    var y := (100.0 - x) / 100.0;
    assert c == w * y;
    assert c / w == y;
  }

  /** On a curve that ends at 0 on the pan the calculator's grand total is w. */
  lemma GrandTotalIsWeight(p: seq<real>, w: real)
    requires |p| >= 1 && p[0] <= 100.0 && NonIncreasing(p) && p[|p| - 1] == 0.0
    ensures CumSum(RetainedWeights(p, w))[|p| - 1] == w
  {
    CumulativeRetained(p, w, |p| - 1);
  }

  /** Each term the calculator sums is the passing percentage at that sieve. */
  lemma TermIsPassing(p: seq<real>, w: real, i: nat)
    requires |p| >= 1 && p[0] <= 100.0 && NonIncreasing(p) && i < |p|
    requires w != 0.0
    ensures FmCalculator.PassingTerms(CumSum(RetainedWeights(p, w)), w)[i] == p[i]
  {
    var cum := CumSum(RetainedWeights(p, w));
    CumulativeRetained(p, w, i);
    ComplementRecoversPassing(cum[i], w, p[i]);
  }

  /** Composing the engine with the modulus calculator yields the sum of the
      passing percentages over 100, which is the number of sieves less the
      window's modulus: the two formulas add up to n instead of agreeing. */
  lemma ComposedFmIsPassingSum(p: seq<real>, w: real)
    requires |p| >= 1 && p[0] <= 100.0 && NonIncreasing(p) && p[|p| - 1] == 0.0
    requires w != 0.0
    ensures FmCalculator.Fm(RetainedWeights(p, w)) == Sum(p) / 100.0
    ensures FmCalculator.Fm(RetainedWeights(p, w)) == (|p| as real) - MainWindow.CalculateFm(p)
  {
    GrandTotalIsWeight(p, w);
    var terms := FmCalculator.PassingTerms(CumSum(RetainedWeights(p, w)), w);
    forall i | 0 <= i < |p|
      ensures terms[i] == p[i]
    {
      TermIsPassing(p, w, i);
    }
    assert terms == p;
  }

  /** The fine sample: 4.67 from the retained weights against 3.33 from the
      passing curve. */
  lemma FineSampleModuliDiverge()
    ensures FmCalculator.Fm(RetainedWeights(MainWindow.FineSamplePassing, DefaultTotalWeight)) == 4.67
    ensures MainWindow.CalculateFm(MainWindow.FineSamplePassing) == 3.33
  {
    MainWindow.FineSampleSum();
    ComposedFmIsPassingSum(MainWindow.FineSamplePassing, DefaultTotalWeight);
  }

  /** Two engines built on one manager: a weight set between two conversions
      is seen by the second engine, every retained weight scales by 2.5 when
      the weight goes from 2000 to 5000, and the modulus does not move. */
  method SharedManagerRescale(passing: seq<real>)
    returns (before: seq<real>, after: seq<real>, fmBefore: real, fmAfter: real)
    requires |passing| >= 1
    ensures before == RetainedWeights(passing, 2000.0)
    ensures after == RetainedWeights(passing, 5000.0)
    ensures |after| == |before|
    ensures forall i :: 0 <= i < |before| ==> after[i] == 2.5 * before[i]
    ensures fmAfter == fmBefore
  {
    var manager := new TotalWeightManager();
    var fineEngine := new GradationEngine(manager);
    var subEngine := new GradationEngine(manager);
    before := fineEngine.PassingToRetained(passing);
    manager.SetTotalWeight(5000.0);
    after := subEngine.PassingToRetained(passing);
    RetainedLinearInWeight(passing, 2000.0, 2.5);
    FmCalculator.FmScaleInvariant(before, after, 2.5);
    fmBefore := FmCalculator.CalculateFm(before);
    fmAfter := FmCalculator.CalculateFm(after);
  }
}
