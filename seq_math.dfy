/**
  Sums, prefix sums and the small facts about them that every gradation
  transform relies on. All quantities are exact reals.
*/
module SeqMath {

  function Max(a: real, b: real): real { if a >= b then a else b }

  function Min(a: real, b: real): real { if a <= b then a else b }

  /** The sum of a list of numbers, folded from the right end so that a
      prefix sum grows by exactly one element at a time. */
  function Sum(s: seq<real>): real
    decreases |s|
  {
    if |s| == 0 then 0.0 else Sum(s[..|s| - 1]) + s[|s| - 1]
  }

  /** Running totals: element i is the sum of s[0], ..., s[i]. */
  function CumSum(s: seq<real>): (c: seq<real>)
    ensures |c| == |s|
    ensures |s| > 0 ==> c[|s| - 1] == Sum(s)
  {
    assert s[..|s|] == s;
    seq(|s|, i requires 0 <= i < |s| => Sum(s[..i + 1]))
  }

  /** Running total i is the sum of the prefix through i. */
  lemma CumSumAt(s: seq<real>, i: nat)
    requires i < |s|
    ensures CumSum(s)[i] == Sum(s[..i + 1])
  {
  }

  lemma SumPrefixStep(s: seq<real>, k: nat)
    requires k < |s|
    ensures Sum(s[..k + 1]) == Sum(s[..k]) + s[k]
  {
    assert s[..k + 1][..k] == s[..k];
  }

  /** A sequence whose elements are an affine image a + b * s[i] of another
      sums to the affine image of the sum. Covers scaling (a == 0), shifting
      (b == 1) and constant sequences (b == 0). */
  lemma {:induction false} SumAffine(s: seq<real>, t: seq<real>, a: real, b: real)
    requires |t| == |s|
    requires forall i :: 0 <= i < |s| ==> t[i] == a + b * s[i]
    ensures Sum(t) == (|s| as real) * a + b * Sum(s)
  {
    if |s| > 0 {
      var n := |s| - 1;
      SumAffine(s[..n], t[..n], a, b);
      assert Sum(t) == ((n as real) * a + b * Sum(s[..n])) + (a + b * s[n]);
    }
  }

  lemma SumOfTwo(w: seq<real>)
    requires |w| == 2
    ensures Sum(w) == w[0] + w[1]
  {
    assert w[..0] == [] && w[..2] == w;
    SumPrefixStep(w, 0);
    SumPrefixStep(w, 1);
  }

  lemma SumOfThree(w: seq<real>)
    requires |w| == 3
    ensures Sum(w) == w[0] + w[1] + w[2]
  {
    assert w[..0] == [] && w[..3] == w;
    SumPrefixStep(w, 0);
    SumPrefixStep(w, 1);
    SumPrefixStep(w, 2);
  }

  /** Summing two sequences element by element sums their sums. */
  lemma {:induction false} SumAddPointwise(x: seq<real>, y: seq<real>, z: seq<real>)
    requires |y| == |x| && |z| == |x|
    requires forall i :: 0 <= i < |x| ==> z[i] == x[i] + y[i]
    ensures Sum(z) == Sum(x) + Sum(y)
  {
    if |x| > 0 {
      var n := |x| - 1;
      SumAddPointwise(x[..n], y[..n], z[..n]);
    }
  }

  /** Elementwise bounds give bounds on the sum. */
  lemma {:induction false} SumBounds(s: seq<real>, lo: real, hi: real)
    requires forall i :: 0 <= i < |s| ==> lo <= s[i] <= hi
    ensures (|s| as real) * lo <= Sum(s) <= (|s| as real) * hi
  {
    if |s| > 0 {
      var n := |s| - 1;
      SumBounds(s[..n], lo, hi);
      assert Sum(s) == Sum(s[..n]) + s[n];
      assert (|s| as real) * lo == (n as real) * lo + lo;
      assert (|s| as real) * hi == (n as real) * hi + hi;
    }
  }

  /** The sum of a sequence splits at any index. */
  lemma {:induction false} SumSplit(s: seq<real>, k: nat)
    requires k <= |s|
    ensures Sum(s) == Sum(s[..k]) + Sum(s[k..])
    decreases |s|
  {
    if k < |s| {
      var n := |s| - 1;
      assert s[..n][..k] == s[..k];
      assert s[..n][k..] == s[k..n];
      SumSplit(s[..n], k);
      assert s[k..][..|s[k..]| - 1] == s[k..n];
    } else {
      assert s[..k] == s;
    }
  }

  /** A sum of non-negative elements is non-negative. */
  lemma {:induction false} SumNonNegative(s: seq<real>)
    requires forall i :: 0 <= i < |s| ==> 0.0 <= s[i]
    ensures 0.0 <= Sum(s)
  {
    if |s| > 0 {
      SumNonNegative(s[..|s| - 1]);
    }
  }

  /** For non-negative elements every prefix sum lies between 0 and the total. */
  lemma PrefixSumWithinTotal(s: seq<real>, k: nat)
    requires forall i :: 0 <= i < |s| ==> 0.0 <= s[i]
    requires k <= |s|
    ensures 0.0 <= Sum(s[..k]) <= Sum(s)
  {
    SumSplit(s, k);
    SumNonNegative(s[..k]);
    SumNonNegative(s[k..]);
  }

  /** A part of a positive whole is a fraction in [0, 1]. */
  lemma ShareInUnitInterval(part: real, whole: real)
    requires 0.0 <= part <= whole && 0.0 < whole
    ensures 0.0 <= part / whole <= 1.0
  {
    assert (part / whole) * whole == part;
  }

  /** The whole's share of itself is one. */
  lemma WholeShareIsOne(whole: real)
    requires whole != 0.0
    ensures whole / whole == 1.0
  {
  }
}
