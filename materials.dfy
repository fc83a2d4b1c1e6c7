/**
  The static material specification table (config/materials.py): for each
  material, its sieve labels from the largest opening down to the pan and
  the lower and upper percent-passing limits at each sieve.
*/
module Materials {
  import opened Sieves

  /** A sieve is a numeric mesh opening in millimetres or the pan below the finest sieve. */
  datatype SieveLabel = Opening(mm: real) | Pan

  datatype MaterialSpec = MaterialSpec(
    sieveSizes: seq<SieveLabel>,
    lowerLimits: seq<real>,
    upperLimits: seq<real>)

  const FineAggregate: MaterialSpec := MaterialSpec(
    [Opening(10.00), Opening(4.75), Opening(2.36), Opening(1.18), Opening(0.60), Opening(0.30), Opening(0.15), Pan],
    [100.00, 90.00, 75.00, 55.00, 35.00, 8.00, 0.00, 0.00],
    [100.00, 100.00, 100.00, 90.00, 59.00, 30.00, 10.00, 0.00])

  const CoarseAggregate: MaterialSpec := MaterialSpec(
    [Opening(40.00), Opening(20.00), Opening(10.00), Opening(4.75), Pan],
    [100.00, 90.00, 25.00, 0.00, 0.00],
    [100.00, 100.00, 35.00, 10.00, 0.00])

  const SubBase: MaterialSpec := MaterialSpec(
    [Opening(75.00), Opening(53.00), Opening(26.50), Opening(9.50), Opening(4.750), Opening(2.360), Opening(0.425), Opening(0.075), Pan],
    [100.00, 80.00, 55.00, 35.00, 25.00, 20.00, 10.00, 0.00, 0.00],
    [100.00, 100.00, 90.00, 65.00, 55.00, 40.00, 15.00, 5.00, 0.00])

  const CrmBase: MaterialSpec := MaterialSpec(
    [Opening(45.00), Opening(22.40), Opening(5.60), Opening(0.710), Opening(0.09), Pan],
    [100.00, 90.00, 35.00, 10.00, 2.00, 0.00],
    [100.00, 100.00, 55.00, 30.00, 5.00, 0.00])

  /** The lookup table from material key to specification. */
  const AllMaterials: map<string, MaterialSpec> := map[
    "fine" := FineAggregate,
    "coarse" := CoarseAggregate,
    "subbase" := SubBase,
    "crm" := CrmBase]

  /** Numeric openings strictly decrease and the stack ends with the pan. */
  predicate DescendsToPan(sizes: seq<SieveLabel>)
  {
    |sizes| >= 1 && sizes[|sizes| - 1] == Pan
    && (forall i :: 0 <= i < |sizes| - 1 ==> sizes[i].Opening?)
    && forall i :: 0 < i < |sizes| - 1 ==> sizes[i].mm < sizes[i - 1].mm
  }

  /** What every operation expects of the limits it is handed. */
  predicate WellFormed(m: MaterialSpec)
  {
    var n := |m.sieveSizes|;
    && n >= 2 && |m.lowerLimits| == n && |m.upperLimits| == n
    && (forall i :: 0 <= i < n ==> 0.0 <= m.lowerLimits[i] && m.upperLimits[i] <= 100.0)
    && OrderedLimits(m.lowerLimits, m.upperLimits)
    && m.lowerLimits[0] == 100.0 && m.upperLimits[0] == 100.0
    && m.lowerLimits[n - 1] == 0.0 && m.upperLimits[n - 1] == 0.0
    && NonIncreasing(m.lowerLimits) && NonIncreasing(m.upperLimits)
    && DescendsToPan(m.sieveSizes)
  }

  lemma FineAggregateWellFormed()
    ensures WellFormed(FineAggregate)
  {
  }

  lemma CoarseAggregateWellFormed()
    ensures WellFormed(CoarseAggregate)
  {
  }

  lemma SubBaseWellFormed()
    ensures WellFormed(SubBase)
  {
  }

  lemma CrmBaseWellFormed()
    ensures WellFormed(CrmBase)
  {
  }

  /** Every entry of the table is well formed. */
  lemma AllMaterialsWellFormed()
    ensures forall key :: key in AllMaterials ==> WellFormed(AllMaterials[key])
  {
    FineAggregateWellFormed();
    CoarseAggregateWellFormed();
    SubBaseWellFormed();
    CrmBaseWellFormed();
  }

  /** The table is keyed by exactly four materials; the tab keys "coarse1"
      and "coarse2" are not among them. */
  lemma MaterialKeys()
    ensures AllMaterials.Keys == {"fine", "coarse", "subbase", "crm"}
    ensures "coarse1" !in AllMaterials && "coarse2" !in AllMaterials
  {
  }
}
