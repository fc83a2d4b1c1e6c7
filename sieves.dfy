/**
  Vocabulary shared by every transform of a percent-passing curve: one
  percentage per sieve, in sieve order from the largest opening down to the
  pan, with an implicit 100 % passing above the first sieve.
*/
module Sieves {
  import opened SeqMath

  /** The percentage passing the sieve above sieve i: 100 above the first. */
  function PrevPassing(p: seq<real>, i: nat): real
    requires i <= |p|
  {
    if i == 0 then 100.0 else p[i - 1]
  }

  /** A physically meaningful cumulative-passing curve never rises. */
  predicate NonIncreasing(p: seq<real>)
  {
    forall i :: 0 < i < |p| ==> p[i] <= p[i - 1]
  }

  /** Lower and upper limit sequences of the same length, lower below upper. */
  predicate OrderedLimits(lower: seq<real>, upper: seq<real>)
  {
    |upper| == |lower| && forall i :: 0 <= i < |lower| ==> lower[i] <= upper[i]
  }

  /** Every point of the curve lies inside its sieve's limits. */
  predicate WithinLimits(curve: seq<real>, lower: seq<real>, upper: seq<real>)
  {
    |lower| == |curve| && |upper| == |curve|
    && forall i :: 0 <= i < |curve| ==> lower[i] <= curve[i] <= upper[i]
  }

  /** Differences of a passing curve scaled by w telescope: those down to
      sieve i add up to w times the percentage retained above sieve i. */
  lemma {:induction false} TelescopingPrefix(p: seq<real>, d: seq<real>, w: real, i: nat)
    requires |d| == |p|
    requires forall i :: 0 <= i < |p| ==> d[i] == w * (PrevPassing(p, i) - p[i]) / 100.0
    requires i < |p|
    ensures Sum(d[..i + 1]) == w * (100.0 - p[i]) / 100.0
  {
    SumPrefixStep(d, i);
    if i == 0 {
      assert d[..0] == [];
    } else {
      TelescopingPrefix(p, d, w, i - 1);
      assert d[i] == w * (p[i - 1] - p[i]) / 100.0;
      assert w * (100.0 - p[i - 1]) / 100.0 + w * (p[i - 1] - p[i]) / 100.0
          == w * (100.0 - p[i]) / 100.0;
    }
  }

  /** The same as a running total. */
  lemma TelescopingThrough(p: seq<real>, d: seq<real>, w: real, i: nat)
    requires |d| == |p|
    requires forall i :: 0 <= i < |p| ==> d[i] == w * (PrevPassing(p, i) - p[i]) / 100.0
    requires i < |p|
    ensures CumSum(d)[i] == w * (100.0 - p[i]) / 100.0
  {
    TelescopingPrefix(p, d, w, i);
    CumSumAt(d, i);
  }

  /** The whole sequence of differences sums to w times the percentage
      retained above the pan. */
  lemma Telescoping(p: seq<real>, d: seq<real>, w: real)
    requires |d| == |p| && |p| >= 1
    requires forall i :: 0 <= i < |p| ==> d[i] == w * (PrevPassing(p, i) - p[i]) / 100.0
    ensures Sum(d) == w * (100.0 - p[|p| - 1]) / 100.0
  {
    var last := |p| - 1;
    TelescopingPrefix(p, d, w, last);
    assert d[..last + 1] == d;
  }
}
