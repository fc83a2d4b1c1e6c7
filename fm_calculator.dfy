/**
  Fineness modulus from per-sieve retained quantities
  (core/fm_calculator.py): running totals of the retained list, each turned
  into the complement of its share of the grand total, summed and divided by
  100.
*/
module FmCalculator {
  import opened SeqMath

  /** The per-sieve terms (1 - cum[i] / total) * 100 that are summed. */
  function PassingTerms(cum: seq<real>, total: real): (t: seq<real>)
    requires total != 0.0
    ensures |t| == |cum|
  {
    seq(|cum|, i requires 0 <= i < |cum| => (1.0 - cum[i] / total) * 100.0)
  }

  /** The fineness modulus calculate_fm returns: 0 when nothing is retained. */
  function Fm(retained: seq<real>): real
    requires |retained| >= 1
  {
    var cum := CumSum(retained);
    var total := cum[|retained| - 1];
    if total == 0.0 then 0.0 else Sum(PassingTerms(cum, total)) / 100.0
  }

  /** calculate_fm: accumulate running totals, bail out with 0 when the last
      is 0, otherwise sum the complements. On an empty list the Python code
      raises IndexError reading the last running total, hence the precondition. */
  method CalculateFm(retainedList: seq<real>) returns (fm: real)
    requires |retainedList| >= 1
    ensures fm == Fm(retainedList)
  {
    var cumulative: seq<real> := [];
    var running := 0.0;
    for i := 0 to |retainedList|
      invariant |cumulative| == i
      invariant running == Sum(retainedList[..i])
      invariant forall k :: 0 <= k < i ==> cumulative[k] == Sum(retainedList[..k + 1])
    {
      SumPrefixStep(retainedList, i);
      running := running + retainedList[i];
      cumulative := cumulative + [running];
    }
    assert cumulative == CumSum(retainedList);
    var last := cumulative[|cumulative| - 1];
    if last == 0.0 {
      return 0.0;
    }
    var cumulativePct := seq(|cumulative|, i requires 0 <= i < |cumulative| => (1.0 - cumulative[i] / last) * 100.0);
    fm := Sum(cumulativePct) / 100.0;
  }

  /** Nothing retained in total gives exactly 0. */
  lemma FmZeroWhenNothingRetained(retained: seq<real>)
    requires |retained| >= 1
    requires forall i :: 0 <= i < |retained| ==> retained[i] == 0.0
    ensures Fm(retained) == 0.0
  {
    SumAffine(retained, retained, 0.0, 0.0);
  }

  /** The last term, for the pan, always vanishes. */
  lemma LastTermVanishes(retained: seq<real>)
    requires |retained| >= 1 && Sum(retained) != 0.0
    ensures PassingTerms(CumSum(retained), Sum(retained))[|retained| - 1] == 0.0
  {
    WholeShareIsOne(Sum(retained));
  }

  /** Running totals of a scaled list are the scaled running totals. */
  lemma CumSumScales(r: seq<real>, s: seq<real>, k: real)
    requires |s| == |r|
    requires forall i :: 0 <= i < |r| ==> s[i] == k * r[i]
    ensures forall i :: 0 <= i < |r| ==> CumSum(s)[i] == k * CumSum(r)[i]
  {
    forall i | 0 <= i < |r|
      ensures CumSum(s)[i] == k * CumSum(r)[i]
    {
      SumAffine(r[..i + 1], s[..i + 1], 0.0, k);
    }
  }

  /** A common non-zero factor cancels from a quotient. */
  lemma CommonFactorQuotient(a: real, b: real, k: real)
    requires b != 0.0 && k != 0.0
    ensures (k * a) / (k * b) == a / b
  {
    var q := a / b;
    assert q * b == a;
    assert (k * q) * b == k * a;
    assert q * (k * b) == k * a;
  }

  /** Scale invariance: multiplying every retained quantity by the same
      non-zero k (a change of total weight) leaves the modulus unchanged. */
  lemma FmScaleInvariant(r: seq<real>, s: seq<real>, k: real)
    requires |r| >= 1 && |s| == |r| && k != 0.0
    requires forall i :: 0 <= i < |r| ==> s[i] == k * r[i]
    ensures Fm(s) == Fm(r)
  {
    CumSumScales(r, s, k);
    var n := |r| - 1;
    var cr, cs := CumSum(r), CumSum(s);
    if cr[n] != 0.0 {
      forall i | 0 <= i < |r|
        ensures PassingTerms(cs, cs[n])[i] == PassingTerms(cr, cr[n])[i]
      {
        var a, b := cr[i], cr[n];
        assert cs[i] == k * a && cs[n] == k * b;
        CommonFactorQuotient(a, b, k);
        assert cs[i] / cs[n] == a / b;
      }
      assert PassingTerms(cs, cs[n]) == PassingTerms(cr, cr[n]);
    }
  }

  /** The complement of a share of a positive whole is a percentage. */
  lemma ComplementIsPercentage(part: real, whole: real)
    requires 0.0 <= part <= whole && 0.0 < whole
    ensures 0.0 <= (1.0 - part / whole) * 100.0 <= 100.0
  {
    ShareInUnitInterval(part, whole);
  }

  /** For non-negative retained quantities each term is a percentage and the
      pan's term is 0, so the modulus lies between 0 and one less than the
      number of sieves. */
  lemma FmBounds(retained: seq<real>)
    requires |retained| >= 1
    requires forall i :: 0 <= i < |retained| ==> 0.0 <= retained[i]
    ensures 0.0 <= Fm(retained) <= (|retained| - 1) as real
  {
    var n := |retained| - 1;
    var cum := CumSum(retained);
    var total := Sum(retained);
    SumNonNegative(retained);
    if total != 0.0 {
      var terms := PassingTerms(cum, total);
      forall i | 0 <= i < |retained|
        ensures 0.0 <= terms[i] <= 100.0
      {
        CumSumAt(retained, i);
        PrefixSumWithinTotal(retained, i + 1);
        ComplementIsPercentage(cum[i], total);
      }
      LastTermVanishes(retained);
      SumSplit(terms, n);
      SumBounds(terms[..n], 0.0, 100.0);
      SumBounds(terms[n..], 0.0, 0.0);
    }
  }
}
