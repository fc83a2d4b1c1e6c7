/**
  The session's total sample weight (core/total_weight.py): one mutable
  value, written only through the setter and read by every component that
  turns percentages into weights, plus the rescaling of retained values so
  that they add up to it.
*/
module TotalWeight {
  import opened SeqMath

  /** The weight a fresh manager starts with. */
  const DefaultTotalWeight: real := 2000.0

  /** Rescale values by w / sum(values); a zero-sum list is passed through
      untouched rather than divided by zero. */
  function Normalize(values: seq<real>, w: real): (r: seq<real>)
    ensures |r| == |values|
  {
    var total := Sum(values);
    if total == 0.0 then values
    else
      var factor := w / total;
      seq(|values|, i requires 0 <= i < |values| => values[i] * factor)
  }

  /** Normalised values add up to the target weight exactly. */
  lemma NormalizeSumsToTotal(values: seq<real>, w: real)
    requires Sum(values) != 0.0
    ensures Sum(Normalize(values, w)) == w
  {
    var factor := w / Sum(values);
    SumAffine(values, Normalize(values, w), 0.0, factor);
  }

  /** A list that already adds up to the target is a fixed point (this
      includes the all-zero list when the target is 0). */
  lemma NormalizeFixesNormalized(values: seq<real>, w: real)
    ensures Sum(values) == w ==> Normalize(values, w) == values
  {
    if Sum(values) == w && w != 0.0 {
      assert w / Sum(values) == 1.0;
    }
  }

  /** Normalising twice is normalising once. */
  lemma NormalizeIdempotent(values: seq<real>, w: real)
    ensures Normalize(Normalize(values, w), w) == Normalize(values, w)
  {
    if Sum(values) != 0.0 {
      NormalizeSumsToTotal(values, w);
      NormalizeFixesNormalized(Normalize(values, w), w);
    }
  }

  /** Every ratio between two entries of r is the ratio between the same
      entries of values (cross-multiplied, so zero entries are allowed). */
  predicate SameRatios(r: seq<real>, values: seq<real>)
  {
    |r| == |values|
    && forall i, j :: 0 <= i < |values| && 0 <= j < |values| ==> r[i] * values[j] == r[j] * values[i]
  }

  /** Two entries scaled by a common factor keep their cross products. */
  lemma CommonFactorCrossProducts(a: real, b: real, f: real)
    ensures (a * f) * b == (b * f) * a
  {
  }

  /** Rescaling keeps every ratio between two entries. */
  lemma NormalizePreservesRatios(values: seq<real>, w: real)
    ensures SameRatios(Normalize(values, w), values)
  {
    var r := Normalize(values, w);
    if Sum(values) != 0.0 {
      var f := w / Sum(values);
      forall i, j | 0 <= i < |values| && 0 <= j < |values|
        ensures r[i] * values[j] == r[j] * values[i]
      {
        CommonFactorCrossProducts(values[i], values[j], f);
      }
    }
  }

  /** Dividing a weight by k times a sum and multiplying back by k is
      dividing by the sum. */
  lemma ScaledShare(w: real, s: real, k: real)
    requires s != 0.0 && k != 0.0
    ensures k * (w / (k * s)) == w / s
  {
    var f, g := w / s, w / (k * s);
    assert g * (k * s) == w == f * s;
    assert (k * g) * s == f * s;
  }

  /** An entry scaled by k, times a factor g with k * g == f, is the entry
      times f. */
  lemma ScaledEntry(v: real, k: real, g: real, f: real)
    requires k * g == f
    ensures (k * v) * g == v * f
  {
  }

  /** Only proportions matter: scaling the input by any non-zero k gives
      the same normalised list. */
  lemma NormalizeScaleInvariant(values: seq<real>, scaled: seq<real>, k: real, w: real)
    requires k != 0.0 && |scaled| == |values|
    requires forall i :: 0 <= i < |values| ==> scaled[i] == k * values[i]
    ensures Sum(values) != 0.0 ==> Normalize(scaled, w) == Normalize(values, w)
  {
    SumAffine(values, scaled, 0.0, k);
    if Sum(values) != 0.0 {
      var s := Sum(values);
      assert Sum(scaled) == k * s;
      var f, g := w / s, w / (k * s);
      ScaledShare(w, s, k);
      forall i | 0 <= i < |values|
        ensures Normalize(scaled, w)[i] == Normalize(values, w)[i]
      {
        ScaledEntry(values[i], k, g, f);
      }
    }
  }

  class TotalWeightManager {
    var totalWeight: real

    constructor ()
      ensures totalWeight == DefaultTotalWeight
    {
      totalWeight := DefaultTotalWeight;
    }

    /** Replace the stored weight; no validation, the last write wins. */
    method SetTotalWeight(value: real)
      modifies this
      ensures totalWeight == value
    {
      totalWeight := value;
    }

    method GetTotalWeight() returns (w: real)
      ensures w == totalWeight
    {
      w := totalWeight;
    }

    /** normalize_retained against the stored weight. Being a function it
        cannot change the stored weight. */
    function NormalizeRetained(values: seq<real>): (r: seq<real>)
      reads this
      ensures |r| == |values|
      ensures Sum(values) == 0.0 ==> r == values
      ensures Sum(values) != 0.0 ==> Sum(r) == totalWeight
      ensures SameRatios(r, values)
      ensures Sum(values) == totalWeight ==> r == values
    {
      NormalizePreservesRatios(values, totalWeight);
      NormalizeFixesNormalized(values, totalWeight);
      if Sum(values) == 0.0 then
        Normalize(values, totalWeight)
      else
        NormalizeSumsToTotal(values, totalWeight);
        Normalize(values, totalWeight)
    }
  }
}
