# Gradation engine model

A Dafny model of the numeric core of an aggregate-gradation tool. For a material
(fine aggregate, coarse aggregate, sub-base, crumb-rubber-modified base), the tool:

- keeps a percent-passing curve per sieve within lower and upper specification limits;
- turns that curve into retained weights for a session-wide total sample weight;
- computes the fineness modulus (FM);
- synthesises random curves inside the limits.

All quantities are exact reals.

## Modules

| Module | What it models |
|---|---|
| `SeqMath`, `Sieves` | Shared helpers: sums, prefix sums, the implicit 100 % above the first sieve, limit predicates and the telescoping of passing differences. |
| `Materials` | The four material records and the key map. |
| `TotalWeight` | `TotalWeightManager`, a class with one mutable `totalWeight` field, plus rescaling of retained values. |
| `Gradation` | `GradationEngine`, a class holding a manager reference that may be shared. `PassingToRetained` fills an array with the passing differences, clips them at zero and scales them by the manager's weight. |
| `FmCalculator` | The running-total loop of `calculate_fm` and its specification `Fm`. |
| `Constraints` | Elementwise `np.clip` of a curve into its limits. |
| `RandomGenerator` | `generate`: a midpoint seed, plus a random walk re-centred on its mean, then a clamp, then one left-to-right in-place 3-point smoothing sweep on an array. |
| `LegacyRandomGen` | The older generator: uniform draws, a moving average over the original points, then a hand-written clamp applied in place. |
| `MainWindow` | The window's own unclamped weight-retained loop, its FM formula `sum(100 - p) / 100`, and its built-in sample curves. |
| `Consistency` | Results that relate the modules: where the two conversions agree, how the two FM formulas relate, and two engines sharing one manager. |

Randomness is a parameter:

- `noise` stands for the `np.random.normal` draws.
- `samples` stands for the `np.random.uniform` draws. Each sample is required to lie between its two limits, in either order.

## Model

| member | source | states |
|---|---|---|
| Materials.FineAggregateWellFormed | config/materials.py:1-12 | the fine-aggregate record is well formed (conditions as in the next row) |
| Materials.CoarseAggregateWellFormed | config/materials.py:14-25 | the coarse-aggregate record is well formed |
| Materials.SubBaseWellFormed | config/materials.py:27-38 | the sub-base record is well formed |
| Materials.CrmBaseWellFormed | config/materials.py:40-51 | the crumb-rubber-modified base record is well formed |
| Materials.AllMaterialsWellFormed | config/materials.py:1-58 | every material has equal-length sizes and limits (at least 2), limits in [0, 100] with lower <= upper, 100/100 first and 0/0 last on the pan, both limit lists non-increasing, numeric openings strictly decreasing, list ending with the pan |
| Materials.MaterialKeys | config/materials.py:53-58 | the map is defined for exactly fine, coarse, subbase and crm, so coarse1 and coarse2 are not keys |
| TotalWeight.TotalWeightManager.constructor | core/total_weight.py:3-4 | a fresh manager holds 2000.0 |
| TotalWeight.TotalWeightManager.SetTotalWeight | core/total_weight.py:6-7 | the stored weight becomes exactly the given value, with no validation |
| TotalWeight.TotalWeightManager.GetTotalWeight | core/total_weight.py:9-10 | returns the stored weight and changes nothing |
| TotalWeight.TotalWeightManager.NormalizeRetained | core/total_weight.py:12-18 | same length; a zero-sum list comes back unchanged; otherwise the result sums to the stored weight; ratios are kept; a list already summing to the weight is a fixed point; being a function, it cannot change the stored weight |
| TotalWeight.NormalizeSumsToTotal | core/total_weight.py:12-18 | when sum(v) != 0, the rescaled list sums exactly to the target weight |
| TotalWeight.NormalizeFixesNormalized | core/total_weight.py:17-18 | a list that already sums to the target is returned unchanged |
| TotalWeight.NormalizeIdempotent | core/total_weight.py:12-18 | normalising twice equals normalising once |
| TotalWeight.NormalizePreservesRatios | core/total_weight.py:17-18 | every cross-ratio out[i]·v[j] = out[j]·v[i] is kept |
| TotalWeight.NormalizeScaleInvariant | core/total_weight.py:12-18 | scaling the input by any non-zero k gives the same normalised list |
| Gradation.GradationEngine.constructor | core/gradation_engine.py:6-8 | keeps the given manager reference, or creates a fresh manager holding 2000 when none is given |
| Gradation.GradationEngine.PassingToRetained | core/gradation_engine.py:10-33 | out[0] = max(0, 1 - p[0]/100)·W and out[i] = max(0, p[i-1]/100 - p[i]/100)·W, where W is the manager's current weight; the method modifies nothing |
| Gradation.RetainedNonNegative | core/gradation_engine.py:27-31 | for W >= 0, no retained weight is negative, whatever the curve's shape |
| Gradation.RetainedLinearInWeight | core/gradation_engine.py:29-31 | replacing W by k·W multiplies every entry by k |
| Gradation.RetainedIsDropOnMonotoneCurve | core/gradation_engine.py:20-27 | on a non-increasing curve with p[0] <= 100, nothing is clipped and out[i] = W·(prev - p[i])/100 |
| Gradation.RetainedSumTelescopes | core/gradation_engine.py:20-31 | on such a curve the weights sum to W·(1 - p[n-1]/100) |
| Gradation.RetainedSumsToWeight | core/gradation_engine.py:20-31 | when in addition p[n-1] = 0, the weights sum to W |
| Gradation.RetainedEvenStepsExample | core/gradation_engine.py:20-31 | [100,80,60,40,20,0] at 1000 gives [0,200,200,200,200,200] |
| FmCalculator.CalculateFm | core/fm_calculator.py:3-18 | the accumulator loop returns Fm: 0 when the last running total is 0, otherwise the sum of (1 - cum[i]/cum[n-1])·100, divided by 100 |
| FmCalculator.FmZeroWhenNothingRetained | core/fm_calculator.py:11-12 | all-zero input gives exactly 0 |
| FmCalculator.LastTermVanishes | core/fm_calculator.py:15 | the pan's term is 0 |
| FmCalculator.CumSumScales | core/fm_calculator.py:7-9 | the running totals of k·r are k times those of r |
| FmCalculator.FmScaleInvariant | core/fm_calculator.py:11-17 | multiplying every retained value by a non-zero k leaves the FM unchanged |
| FmCalculator.FmBounds | core/fm_calculator.py:15-17 | for non-negative input, 0 <= FM <= n - 1 |
| Constraints.ClampCurve | core/constraints.py:3-8 | same length; each point is at most its upper limit, at least its lower limit when the two are ordered, and either unchanged or moved onto one of its limits; a point within its limits is kept (np.clip's min(upper, max(lower, c)), so crossed limits give upper) |
| Constraints.ClampWithinLimits | core/constraints.py:3-8 | with lower <= upper, every clamped point lies within its limits |
| Constraints.ClampKeepsExactlyInBoundsPoints | core/constraints.py:8 | with ordered limits, a point is unchanged if and only if it was already within its limits |
| Constraints.ClampFixesCurveWithinLimits | core/constraints.py:8 | a curve within its limits is a fixed point |
| Constraints.ClampIdempotent | core/constraints.py:8 | clamp(clamp(c)) = clamp(c) for any limits |
| Constraints.ClampMonotone | core/constraints.py:8 | c <= c' pointwise implies clamp(c) <= clamp(c') pointwise |
| Constraints.ClampCrossedLimitsGivesUpper | core/constraints.py:8 | where lower > upper, np.clip yields the upper limit |
| RandomGenerator.SmoothedThrough | core/random_generator.py:30-31 | after the sweep has visited points 1..k, the result has the same length and no point outside 1..k has moved |
| RandomGenerator.SweepRecurrence | core/random_generator.py:30-31 | each visited point is the mean of the already-smoothed left neighbour and the original point and right neighbour |
| RandomGenerator.SmoothedThroughStep | core/random_generator.py:30-31 | one more iteration of the loop smooths point k of the curve through k - 1 |
| RandomGenerator.SmoothInPlace | core/random_generator.py:30-31 | the in-place loop on the array leaves exactly the sweep of the old contents |
| RandomGenerator.Generate | core/random_generator.py:6-33 | returns the sweep of the clamped (midpoint + centred walk); the output length is n and the sieve labels are unused |
| RandomGenerator.CentredWalkSumsToZero | core/random_generator.py:20-22 | cumsum(z) - mean(cumsum(z)) sums to 0 |
| RandomGenerator.SilentNoiseGivesMidpoint | core/random_generator.py:17-24 | with all-zero noise the curve before clamping is the midpoint (lower + upper)/2 |
| RandomGenerator.MidpointWithinLimits | core/random_generator.py:17 | with ordered limits the midpoint seed lies within them |
| RandomGenerator.ClampedWithinLimits | core/random_generator.py:27 | right after the clamp, and when the limits are ordered, every point lies within its limits |
| RandomGenerator.SmoothPassKeepsEnds | core/random_generator.py:30-31 | indices 0 and n-1 never change, and for n <= 2 the sweep does nothing |
| RandomGenerator.SmoothPassRecurrence | core/random_generator.py:30-31 | on the finished curve each interior point is (new left + old self + old right)/3 |
| RandomGenerator.SilentNoiseLeavesCoarseLimits | core/random_generator.py:8 | coarse limits with all-zero noise: the midpoint [100, 95, 30, 5, 0] survives the clamp, then the sweep sets index 1 to 75 < 90, so the result is not within limits |
| RandomGenerator.SmoothingLeavesCoarseLimits | core/random_generator.py:8 | coarse limits with noise [-10,20,0,0,-30] give a point 370/9 > 35 at index 2, so the result is not within limits |
| RandomGenerator.GenerateWithinLimits | core/random_generator.py:8 | the same steps followed by a second clamp, proved to lie within the limits whenever they are ordered |
| LegacyRandomGen.SmoothCurve | src/utils/random_gen.py:24-38 | the append loop returns the input when it is shorter than the window, otherwise the mean of the original points over each clipped window |
| LegacyRandomGen.GenerateRandomCurve | src/utils/random_gen.py:3-22 | the length is len(lower); out[i] = max(lower[i], min(upper[i], smoothed[i])); the result lies within ordered limits |
| LegacyRandomGen.WindowMeanWithinWindowBounds | src/utils/random_gen.py:33-36 | each smoothed point lies between any bounds on its window |
| LegacyRandomGen.ConstantIsFixedPoint | src/utils/random_gen.py:24-38 | a constant curve comes back unchanged |
| LegacyRandomGen.InteriorWindowMean | src/utils/random_gen.py:33-36 | an interior window of three is its two neighbours and itself |
| LegacyRandomGen.DefaultWindowShape | src/utils/random_gen.py:29-36 | the endpoints are 2-point means and the interior points are 3-point means of original values |
| LegacyRandomGen.ShortInputUnchanged | src/utils/random_gen.py:26-27 | fewer than 3 points come back unchanged |
| LegacyRandomGen.LegacyClipVersusClip | src/utils/random_gen.py:20 | agrees with np.clip on ordered limits; on crossed limits it returns lower where np.clip returns upper |
| MainWindow.CalculateWeightRetained | src/ui/main_window.py:257-268 | the loop carrying the previous passing value returns W·(prev - p[i])/100 per sieve, with no clamping |
| MainWindow.CalculateFm | src/ui/main_window.py:278-283 | sum(100 - p)/100 = n - sum(p)/100, which gives 0 for the empty list |
| MainWindow.WeightRetainedTelescopes | src/ui/main_window.py:257-268 | for any curve, the weights sum to W·(100 - p[n-1])/100 |
| MainWindow.WeightRetainedPrefixTelescopes | src/ui/main_window.py:257-268 | running total i is W·(100 - p[i])/100 |
| MainWindow.NegativeExactlyWhereCurveRises | src/ui/main_window.py:260-266 | for W > 0, an entry is negative if and only if the curve rises there |
| MainWindow.CalculateFmBounds | src/ui/main_window.py:280-282 | for percentages in [0, 100], 0 <= FM <= n |
| MainWindow.SampleCurvesWithinLimits | src/ui/main_window.py:188-201 | both built-in sample curves lie within their limits |
| MainWindow.FineSampleResults | src/ui/main_window.py:188-190 | the fine sample at 2000 retains [0,60,140,200,400,600,400,200], which sums to 2000, and its FM is 3.33 |
| Consistency.EngineAgreesWithWindowAt | core/gradation_engine.py:20-27 | where the curve does not rise at sieve i, the engine and the window give the same weight there |
| Consistency.EngineAgreesWithWindow | core/gradation_engine.py:20-31 | for a non-increasing curve with p[0] <= 100, the engine and the window produce the same weights |
| Consistency.EngineAgreesWithWindowExactlyWhereCurveFalls | core/gradation_engine.py:27 | for W != 0, the two agree at a sieve if and only if the curve does not rise there |
| Consistency.CumulativeRetained | core/fm_calculator.py:7-9 | the running totals of the engine's weights on such a curve are W·(100 - p[i])/100 |
| Consistency.GrandTotalIsWeight | core/fm_calculator.py:11 | for the engine's weights on a curve ending at 0, the calculator's grand total is W |
| Consistency.TermIsPassing | core/fm_calculator.py:15 | each term the calculator sums is the passing percentage at that sieve |
| Consistency.ComposedFmIsPassingSum | core/fm_calculator.py:15-17 | for a non-increasing curve with p[0] <= 100 and p[n-1] = 0, the engine followed by the calculator gives sum(p)/100, which equals n minus the window's FM |
| Consistency.FineSampleModuliDiverge | core/fm_calculator.py:15-17 | the fine sample gives 4.67 through the engine and calculator, against 3.33 from the window |
| Consistency.SharedManagerRescale | core/gradation_engine.py:8 | two engines share one manager; the second sees a weight set in between; going from 2000 to 5000 scales every weight by 2.5 and leaves the FM unchanged |

## Left out

- The widget code of the window and panels is not part of this model. Only the window's two calculations and its sample data are kept.
- The spreadsheet fields of the material records (`sieve_range`, the column names, `total_weight_cell`) are left out. They carry no logic.
- The clipboard and display formatting (`:.2f`) are left out.
- The random number generators are not modelled. The normal draws (standard deviation 3) and the uniform draws are parameters. Nothing is assumed about the normal draws.
- IEEE-754 rounding is not modelled. Everything is exact `real` arithmetic, so "sums to W exactly" means over the reals.
- Python's dynamic typing is not modelled. Integer inputs are treated as reals.
- Constraints.ClampCurve: numpy broadcasting of length-1 or unequal-length arrays is not modelled. The function requires equal lengths, and np.clip raises a broadcasting error on unequal lengths.
- Gradation.GradationEngine.PassingToRetained: requires a non-empty curve. passing_to_retained raises an IndexError on an empty curve, and that exception path is not modelled.
- FmCalculator.CalculateFm: requires a non-empty list, for the same reason.
- Gradation.GradationEngine.constructor: Python's `manager or TotalWeightManager()` is modelled as a null test, since a manager object is always truthy.
- The default weight follows the code (2000.0), not a possible alternative default of 5000.
- RandomGenerator.Generate: models the single in-place sweep and the single clamp that the code performs. A three-pass sweep with scratch copies and a final clamp is not what the code does.
- The two FM formulas are not reconciled. The model proves how they relate (Consistency.ComposedFmIsPassingSum) and does not choose one.

## Findings

| source | as written | input that shows it | evidently intended | confidence | as-written member | corrected member |
|---|---|---|---|---|---|---|
| core/random_generator.py:8 | the docstring promises a curve "within limits", but the smoothing sweep after the clamp at line 27 is never re-clamped | coarse-aggregate limits with all-zero noise: the midpoint [100, 95, 30, 5, 0] is within limits and survives the clamp, then the sweep sets index 1 to (100 + 95 + 30)/3 = 75, below the lower limit 90 (noise [-10, 20, 0, 0, -30] also lifts index 2 to 370/9, above its upper limit 35) | clamp again after smoothing, so the result lies within ordered limits | high, not executed | RandomGenerator.SilentNoiseLeavesCoarseLimits | RandomGenerator.GenerateWithinLimits |
