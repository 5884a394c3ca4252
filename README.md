# Rupture engine — a Dafny model of the analytic core

The rupture engine reads a series of price/volume bars. For each bar it
computes a "structural strain" and classifies the bar into one of six regime
states. It also detects and confirms "rupture" episodes, which are sudden
structural breaks.

This project models the analytic core of that engine in Dafny over exact
`real` numbers. One Dafny module stands for each Rust source file.

**The robust statistics** (`StatsRobust`, `Sorting`, `StatsMedian`,
`StatsMad`, `StatsQuantile`, `StatsRollingWindow`):
- `safe_div` and `clip`;
- the median, which sorts its slice in place (`SortInPlace` on an `array`);
- the median absolute deviation;
- the linearly interpolated quantile;
- the bounded FIFO `RollingWindow`, a class whose `Push` is proved against
  `Fill`, the pure "last `capacity` values" window.

**The per-bar components:**
- `FeaturesAccel`: the first-difference acceleration.
- `FeaturesNormalise`: robust normalisation through three rolling windows; the
  loop drives three `RollingWindow` objects.
- `ModelResiduals`: the three one-sided residual channels.
- `ModelMemory`: the power-law memory kernel. Its class `MemoryKernel` holds
  the normalised weights and a FIFO buffer.
- `ModelCapacity`: the adaptive capacity estimator. Its class
  `CapacityEstimator` holds a `RollingWindow` and the previous capacity.

**The rupture state machine** (`ModelStateMachine`):
- the pure transition function `Step` over a `Machine` record;
- the machine invariant `Inv`;
- whole-run lemmas over `Run`;
- the class `StateMachine`, whose `Update` changes its fields exactly as
  `Step` says.

**The engine fold** (`ModelEngine`):
- `RunEngine` threads the memory kernel, the capacity estimator and the state
  machine through one loop.
- The loop is proved equal to the pure `Pipeline`.
- Lemmas then say what every output row holds.

**The validators and the cleaning step:**
- `Config.Validate` and `PreprocessValidate.ValidateBars`: accept/reject rules
  with a fixed check order.
- `PreprocessClean.CleanBars`: a stable sort by timestamp, the removal of
  neighbouring duplicates and the removal of implausible bars.

Shared modules:
- `Types`: the record types and the state labels.
- `Errors`: the error variants.
- `Wrappers`: `Option` and `Result`.
- `RealArith`: `Sum` and `RealMax`.

The combiner `soft_max_combine` (log-sum-exp) is not modelled; it is a
parameter of type `ModelEngine.Combiner`. The return series is an input
to the engine.

The memory kernel's raw weights `k^(-alpha)` are given as an arbitrary
positive sequence of length K.

**Choices made in modelling:**
- The doc comment of `clean_bars` speaks of "negative close". The code removes
  every bar whose close is not positive, zero included. The model follows the
  code, in `Plausible` and `CleanClosesPositive`.
- The confirmation check of the state machine counts the whole confirmation
  buffer, and the buffer includes the triggering bar. With k = 1 the episode
  therefore closes on the bar after the trigger with two flags counted.
  `SingleBarConfirmation` states this.
- The configuration is documented with the thresholds ordered
  rho_stressed < rho_critical <= rho_rupture. `Config::validate` does not
  check that order. `ValidateReadsOnlyCheckedFields` states that the
  thresholds never change the verdict, and the state machine is modelled for
  arbitrary thresholds.

## Model

| member | source | states |
|---|---|---|
| Types.SixStates | src/types.rs:53-60 | every state is one of the six variants, and the six are pairwise distinct |
| Types.LabelValues | src/types.rs:64-71 | CandidateRupture shows as "Candidate", ConfirmedRupture as "Confirmed"; the other four show their own names |
| Types.LabelInjective | src/types.rs:64-71 | two states have the same label if and only if they are the same state |
| Config.Validate | src/config.rs:124-163 | every rejection is the Config error variant |
| Config.ValidateAcceptsIffWellFormed | src/config.rs:124-163 | accepted exactly when 0 < alpha < 1, memory_k >= 10, capacity_l >= 50, confirm_k in 1..3, 1 <= confirm_m <= confirm_k, 0 < q < 1 and tau > 0 |
| Config.ValidateReportsFirstFailure | src/config.rs:125-161 | the error reported is the message of the first check that fails, in the source's order |
| Config.ValidateReadsOnlyCheckedFields | src/config.rs:124-163 | two configurations that agree on the seven checked fields get the same verdict, whatever their other fields (the rho thresholds, lambda, e_min, robust_scale_n, recovery_hold and the rest) |
| StatsRobust.SafeDiv | src/stats/robust.rs:2-4 | a non-negative numerator over a positive denominator gives a non-negative quotient |
| StatsRobust.SafeDivInverts | src/stats/robust.rs:2-4 | the quotient times (b + eps) gives back a |
| StatsRobust.Clip | src/stats/robust.rs:7-9 | with max >= 0 the result lies in [0, max]; a value already in range is unchanged; below 0 gives 0, above max gives max; a negative max always gives max |
| StatsRobust.ClipIdempotent | src/stats/robust.rs:7-9 | clipping twice equals clipping once |
| Sorting.Insert | src/stats/median.rs:8 | inserting adds exactly one element to the multiset |
| Sorting.InsertSorted | src/stats/median.rs:8 | inserting into an ascending sequence keeps it ascending |
| Sorting.SortRealsSpec | src/stats/median.rs:8 | the reference sort is an ascending permutation of its input |
| Sorting.SortedUnique | src/stats/median.rs:8 | two ascending sequences with the same multiset are equal, so any correct sort gives the same result |
| Sorting.SortedPermutationIsSort | src/stats/median.rs:8 | any ascending permutation of s is the reference sort of s |
| Sorting.SortOfSorted | src/stats/median.rs:8 | sorting an ascending sequence leaves it unchanged |
| Sorting.SortDependsOnlyOnMultiset | src/stats/median.rs:8 | permutations of each other sort to the same sequence |
| Sorting.SortEnds | src/stats/median.rs:8 | the first sorted element is the minimum and the last is the maximum |
| Sorting.SortBounds | src/stats/median.rs:8 | every sorted element lies between the minimum and the maximum of the input |
| Sorting.SortInPlace | src/stats/median.rs:8 | the array ends ascending, is a permutation of its old contents and equals the reference sort of them |
| StatsMedian.Median | src/stats/median.rs:3-14 | the slice ends sorted and permuted; the result is 0 when empty, the middle element when the length is odd, the mean of the two middle elements when it is even; it equals the reference median of the old contents |
| StatsMedian.MedianBounds | src/stats/median.rs:8-13 | a non-empty median lies between the minimum and the maximum |
| StatsMedian.MedianOfNonNegative | src/stats/median.rs:8-13 | the median of non-negative values is non-negative |
| StatsMedian.MedianOfPermutation | src/stats/median.rs:8-13 | the median depends only on the multiset of values |
| StatsMedian.MedianViaSorted | src/stats/median.rs:8-13 | the median is read off any ascending permutation of the input |
| StatsMedian.MedianOfConstant | src/stats/median.rs:9-12 | a constant non-empty sequence has that constant as median |
| StatsMedian.MedianOddExample | src/stats/median.rs:21-24 | [3, 1, 2] has median 2 |
| StatsMedian.MedianEvenExample | src/stats/median.rs:27-30 | [4, 1, 3, 2] has median 2.5 |
| StatsMedian.MedianSingleAndEmptyExample | src/stats/median.rs:33-42 | [7] has median 7 and the empty slice has median 0 |
| StatsMedian.MedianFiveExample | tests/rolling_stats.rs:19-22 | [5, 1, 3, 2, 4] has median 3 |
| StatsMad.Deviations | src/stats/mad.rs:12 | one deviation per value, in order, each the absolute difference from the centre |
| StatsMad.Mad | src/stats/mad.rs:6-14 | the median of the absolute deviations from the median, computed on private array copies that are sorted in place; 0 for empty input; the caller's values are not modified |
| StatsMad.MadNonNegative | src/stats/mad.rs:12-13 | the MAD is never negative |
| StatsMad.MadOfConstant | src/stats/mad.rs:28-31 | a constant sequence has MAD 0 |
| StatsMad.MadExample | src/stats/mad.rs:21-25 | [1, 2, 3, 4, 5] has MAD 1 |
| StatsQuantile.Bracket | src/stats/quantile.rs:14-16 | floor and ceiling of q·(n−1) are in range and at most one apart; when they differ, the position lies strictly between them; a non-positive position brackets (0, 0) as the saturating cast does |
| StatsQuantile.PositionInRange | src/stats/quantile.rs:14-16 | for q <= 1 both lo and hi index inside the sorted copy |
| StatsQuantile.Quantile | src/stats/quantile.rs:4-23 | the computed value is the reference quantile: 0 when empty, the element itself when single, else interpolation between the bracketing sorted elements |
| StatsQuantile.QuantileOfSingle | src/stats/quantile.rs:11-13 | a single element is returned for every q |
| StatsQuantile.BlendBetween | src/stats/quantile.rs:20-21 | interpolating with a fraction in [0, 1] stays between the two endpoints |
| StatsQuantile.SortedQuantileBounds | src/stats/quantile.rs:8-22 | on a sorted copy the quantile lies between its first and last elements |
| StatsQuantile.QuantileBounds | src/stats/quantile.rs:8-22 | the quantile lies between the minimum and the maximum of the input |
| StatsQuantile.SortedQuantileBelowZero | src/stats/quantile.rs:14-18 | q <= 0 picks the first sorted element |
| StatsQuantile.SortedQuantileOne | src/stats/quantile.rs:14-18 | q = 1 picks the last sorted element |
| StatsQuantile.QuantileBelowZeroIsMin | src/stats/quantile.rs:35-40 | q <= 0 gives the minimum |
| StatsQuantile.QuantileOneIsMax | src/stats/quantile.rs:35-40 | q = 1 gives the maximum |
| StatsQuantile.QuantileInterpolationExample | src/stats/quantile.rs:43-46 | quantile([0, 10], 0.3) = 3 |
| StatsQuantile.QuantileMedianExample | src/stats/quantile.rs:29-33 | quantile([1..5], 0.5) = 3 |
| StatsQuantile.QuantileExtremesExample | src/stats/quantile.rs:35-40 | quantile([10, 20, 30], 0) = 10 and quantile at 1 = 30 |
| StatsRollingWindow.FillKeepsLast | src/stats/rolling_window.rs:21-26 | with capacity >= 1, pushing xs into an empty window leaves exactly the last min(|xs|, capacity) values in push order |
| StatsRollingWindow.FillZeroCapacityKeepsAll | src/stats/rolling_window.rs:21-26 | with capacity 0 nothing is ever evicted and the window keeps every value |
| StatsRollingWindow.FillMembers | src/stats/rolling_window.rs:21-26 | the window only holds values that were pushed |
| StatsRollingWindow.EvictionExample | tests/rolling_stats.rs:4-16 | capacity 3 fed [1, 2, 3, 4] holds [2, 3, 4] |
| StatsRollingWindow.EvictionScenario | tests/rolling_stats.rs:4-16 | the class, fed [1, 2, 3, 4] with capacity 3, is full, has length 3 and holds [2, 3, 4] |
| StatsRollingWindow.RollingWindow.constructor | src/stats/rolling_window.rs:13-18 | a new window is empty with the given capacity |
| StatsRollingWindow.RollingWindow.Push | src/stats/rolling_window.rs:21-26 | a full window drops its oldest value and appends; otherwise it only appends; with capacity >= 1 the length never exceeds the capacity |
| StatsRollingWindow.RollingWindow.IsFull | src/stats/rolling_window.rs:29-31 | full if and only if the length equals the capacity |
| StatsRollingWindow.RollingWindow.Len | src/stats/rolling_window.rs:34-36 | the number of stored values |
| StatsRollingWindow.RollingWindow.SortedSnapshot | src/stats/rolling_window.rs:39-43 | an ascending permutation of the contents; the window is not modified |
| StatsRollingWindow.RollingWindow.AsSlice | src/stats/rolling_window.rs:46-48 | the contents in insertion order; the window is not modified |
| ModelMemory.NormaliseSumsToOne | src/model/memory.rs:15-17 | normalised positive weights sum to 1 |
| ModelMemory.NormalisePositive | src/model/memory.rs:15-17 | normalised positive weights stay positive |
| ModelMemory.NormaliseKeepsOrder | src/model/memory.rs:63-68 | non-increasing raw weights give non-increasing normalised weights |
| ModelMemory.StrainOfZeros | src/model/memory.rs:35-42 | an all-zero buffer has zero strain for any weights |
| ModelMemory.StrainNoWeights | src/model/memory.rs:35-42 | with no weights the guarded sum is 0 |
| ModelMemory.StrainOfConstant | src/model/memory.rs:35-42 | a constant buffer c has strain c times the sum of the weights used |
| ModelMemory.StrainOfImpulse | src/model/memory.rs:35-42 | a buffer with one non-zero value v at age j has strain w[j]·v when that weight exists, else 0, so the newest value gets w[0] |
| ModelMemory.ZeroInputZeroStrain | tests/memory_kernel.rs:49-56 | pushing only zeros gives zero strain at every step |
| ModelMemory.ConstantInputGivesConstant | src/model/memory.rs:71-79 | after at least K pushes of c, with weights summing to 1, the strain is exactly c |
| ModelMemory.ImpulseResponse | tests/memory_kernel.rs:58-70 | an impulse v followed by j zeros gives strain w[j]·v while j < K and 0 once the impulse is evicted |
| ModelMemory.ImpulseDecays | tests/memory_kernel.rs:58-70 | with positive non-increasing weights and v >= 0 the impulse response never increases and stays non-negative |
| ModelMemory.MemoryKernel.constructor | src/model/memory.rs:14-24 | the kernel holds the normalised raw weights, K as capacity and an empty buffer |
| ModelMemory.MemoryKernel.PushAndAccumulate | src/model/memory.rs:29-43 | the buffer is pushed FIFO-style and, for K >= 1, never longer than the weights; the result is Σ weights[i]·buffer[len−1−i] |
| ModelMemory.MemoryKernel.Weights | src/model/memory.rs:46-48 | the normalised raw weights, which sum to 1 when K > 0 |
| ModelCapacity.RollingQuantiles | src/model/capacity.rs:28-30 | one raw quantile per strain pushed, and the quantile at step i is taken over what the window holds after pushing strains 0..i |
| ModelCapacity.SmoothTraceSnoc | src/model/capacity.rs:32-42 | each update extends the trace by one capacity computed from the previous one (None on the first update) |
| ModelCapacity.CapacityAtLeastFloor | src/model/capacity.rs:41 | one update never returns less than e_min |
| ModelCapacity.SmoothTraceAtLeastFloor | src/model/capacity.rs:41-43 | every capacity of a trace is at least e_min |
| ModelCapacity.CapacityTraceAtLeastFloor | src/model/capacity.rs:27-44 | every capacity the estimator returns is at least e_min |
| ModelCapacity.CapacityUnsmoothed | src/model/capacity.rs:30-39 | without smoothing, or on the first update, the capacity is max(quantile, e_min) |
| ModelCapacity.MixBetween | src/model/capacity.rs:34 | exponential smoothing with lambda in [0, 1] stays between the previous and the new value |
| ModelCapacity.SmoothedCapacityBetween | src/model/capacity.rs:30-41 | a smoothed capacity lies between the floored previous capacity and the floored raw estimate |
| ModelCapacity.UnsmoothedTraceIsFloored | src/model/capacity.rs:30-38 | without smoothing each capacity is its raw quantile floored at e_min |
| ModelCapacity.UnsmoothedTraceIsRollingQuantile | src/model/capacity.rs:28-30 | without smoothing, capacity i is max(quantile of the last min(i+1, L) strains, e_min) |
| ModelCapacity.SmoothTracePrefix | src/model/capacity.rs:42 | the trace of a prefix is the prefix of the trace, so each capacity depends only on earlier strains |
| ModelCapacity.CapacityEstimator.constructor | src/model/capacity.rs:15-24 | a fresh estimator has an empty window of length L, the given parameters and no previous capacity |
| ModelCapacity.CapacityEstimator.Update | src/model/capacity.rs:27-44 | pushes the strain, returns the last element of the capacity trace of all strains so far, at least e_min, and stores it as the previous capacity |
| ModelResiduals.ComputeResiduals | src/model/residuals.rs:10-31 | the combined field is 0; without clipping each channel is the feature's excess over its threshold or 0; with a clip bound >= 0 each channel lies in [0, bound], and a channel whose excess is at or below the bound keeps its unclipped value; a channel whose excess is above the bound equals the bound; a negative bound replaces every channel |
| ModelResiduals.ResidualsNonNegative | src/model/residuals.rs:15-23 | every channel is >= 0 unless clipped to a negative bound |
| ModelResiduals.ResidualZeroAtOrBelowThreshold | src/model/residuals.rs:15-17 | a channel whose feature does not exceed its threshold is 0 |
| ModelResiduals.ResidualsMonotone | src/model/residuals.rs:15-23 | larger features never give smaller channels |
| FeaturesAccel.ComputeAcceleration | src/features/accel.rs:3-10 | length 1 for empty input and the input length otherwise; out[0] = 0, out[i] = r[i] − r[i−1], and the partial sums telescope to r[i] − r[0] |
| FeaturesAccel.Telescoping | src/features/accel.rs:1-8 | any first-difference series sums over 1..i to r[i] − r[0] |
| FeaturesNormalise.Sigma | src/features/normalise.rs:31-32 | c·mad + eps is positive for mad, c >= 0 and eps > 0 |
| FeaturesNormalise.VolumeScale | src/features/normalise.rs:33-36 | median + eps is positive for a non-negative median |
| FeaturesNormalise.ComputeNormed | src/features/normalise.rs:7-46 | one entry per bar, entry i being the specified normalisation of bar i over its three windows |
| FeaturesNormalise.NormaliseStep | src/features/normalise.rs:22-43 | one loop iteration pushes bar i into each window and returns entry i |
| FeaturesNormalise.WindowsStep | src/features/normalise.rs:23-25 | the windows after bar i are the windows after bar i−1 with bar i's values pushed |
| FeaturesNormalise.NormaliseBar | src/features/normalise.rs:27-42 | u, v and a are the absolute return, volume and absolute acceleration over their windows' scales |
| FeaturesNormalise.NormedNonNegative | src/features/normalise.rs:31-40 | with eps > 0, c >= 0 and non-negative volumes, u, v and a are all >= 0 |
| FeaturesNormalise.NormedUsesRecentWindow | src/features/normalise.rs:18-25 | at bar i each window holds the values of bars max(0, i−N+1)..i in order |
| FeaturesNormalise.NormedCausal | src/features/normalise.rs:22-43 | entry i depends only on bars, returns and accelerations at indices <= i |
| ModelStateMachine.BaseState | src/model/state_machine.rs:144-154 | only Stable, Stressed or Critical; Critical exactly when rho reaches rho_critical or rho_rupture; Stable exactly when rho is below all three thresholds |
| ModelStateMachine.BaseStateMonotone | src/model/state_machine.rs:144-154 | a larger rho never gives a less severe base state |
| ModelStateMachine.InitInv | src/model/state_machine.rs:27-39 | the initial machine (Stable, prev rho 0, no candidate, empty log) satisfies the invariant |
| ModelStateMachine.StepKeepsInv | src/model/state_machine.rs:43-135 | every update preserves the invariant: candidate fields present exactly inside an episode, buffer non-empty, starting with true and shorter than max(k, 2), so the fallbacks never fire |
| ModelStateMachine.StepFlags | src/model/state_machine.rs:49-81 | the candidate flag is raised exactly on an upward crossing of rho_rupture from a base state; the confirmed flag exactly when a closing episode has at least m trues; never both; they are the only ways into Candidate and Confirmed; prev rho becomes rho |
| ModelStateMachine.StepFromBase | src/model/state_machine.rs:53-67 | a crossing opens an episode with this bar's index, timestamp, peak and buffer [true]; otherwise only the state changes, to the base state |
| ModelStateMachine.StepInCandidate | src/model/state_machine.rs:68-115 | the flag rho >= rho_rupture is appended and the peak raised; at length k the episode closes, to Confirmed (recovery count 0) with at least m trues and to the base state otherwise, clearing the candidate fields |
| ModelStateMachine.StepEvents | src/model/state_machine.rs:76-113 | a closing step appends exactly one event with the trigger's index and timestamp, the peak, k and m, and the confirmed index and timestamp set exactly when confirmed; other steps leave the log unchanged |
| ModelStateMachine.StepInConfirmed | src/model/state_machine.rs:116-126 | with recovery enabled and rho < rho_critical the counter grows and moves the machine to Recovery once it reaches the hold, then resets; otherwise it resets and the state stays Confirmed |
| ModelStateMachine.StepFromRecovery | src/model/state_machine.rs:127-130 | Recovery lasts one bar: the next state is the base state, no candidate opens and the log is unchanged |
| ModelStateMachine.SingleBarConfirmation | src/model/state_machine.rs:61-78 | with k = 1 an episode closes on the bar after the trigger, counting two flags, and with m = 1 it always confirms |
| ModelStateMachine.RunInv | src/model/state_machine.rs:43-135 | the invariant holds after any sequence of updates |
| ModelStateMachine.RunEventsAppendOnly | src/model/state_machine.rs:82-108 | the log after a prefix of the updates is a prefix of the final log |
| ModelStateMachine.StepCounts | src/model/state_machine.rs:56-113 | one update adds an event exactly when an open episode closes, and a confirmed event exactly when it raises the confirmed flag |
| ModelStateMachine.RunCounts | src/model/state_machine.rs:56-113 | events plus any open episode equal the number of candidate flags raised, and confirmed events equal the number of confirmed flags |
| ModelStateMachine.RunTracked | src/model/state_machine.rs:57-74 | an open episode's index and timestamp are those of the last candidate flag, and its peak is at least every rho since |
| ModelStateMachine.EventProvenance | src/model/state_machine.rs:82-108 | a new event points to the last bar that raised the candidate flag, carries its timestamp, has a peak above every rho of the episode and is confirmed at this bar exactly when the flag says so |
| ModelStateMachine.StepCloses | src/model/state_machine.rs:76-114 | a step that logs an event closes an open episode: one event is appended, earlier ones untouched, with the episode's fields and peak |
| ModelStateMachine.SingleSpikeTrace | tests/state_machine.rs:51-73 | rho 0.5, 1.2, 0.8, 0.7 opens a candidate at bar 1 and logs one unconfirmed event |
| ModelStateMachine.SustainedAndRecoveryTrace | tests/state_machine.rs:77-119 | rho 0.5, 1.5, 1.3, 1.1 confirms at bar 3 with candidate 1 and peak 1.5; then 0.7 stays Confirmed, 0.6 enters Recovery and 0.3 returns to Stable |
| ModelStateMachine.FlappingTrace | tests/state_machine.rs:122-133 | rho 0.5, 1.1, 0.9, 0.8 never confirms |
| ModelStateMachine.StateMachine.constructor | src/model/state_machine.rs:27-39 | a new machine is the initial machine with the given configuration |
| ModelStateMachine.StateMachine.Update | src/model/state_machine.rs:43-135 | the fields change exactly as one step of the transition function says, and the returned state and flags are the step's |
| ModelStateMachine.StateMachine.UpdateFromBase | src/model/state_machine.rs:53-67 | the base-state arm changes the fields as the base transition says |
| ModelStateMachine.StateMachine.UpdateInCandidate | src/model/state_machine.rs:68-115 | the candidate arm changes the fields as the candidate transition says |
| ModelStateMachine.StateMachine.UpdateInConfirmed | src/model/state_machine.rs:116-126 | the confirmed arm changes the fields as the confirmed transition says |
| ModelStateMachine.StateMachine.Events | src/model/state_machine.rs:138-140 | the log, each event carrying the configured k and m and a confirmed index exactly when a confirmed timestamp |
| ModelEngine.NormedFeatures | src/model/engine.rs:13-22 | one feature record per bar, each with non-negative v |
| ModelEngine.Features | src/model/engine.rs:13-22 | runs the acceleration and normalisation steps to give exactly the specified features |
| ModelEngine.NextRow | src/model/engine.rs:37-61 | a row's capacity is at least e_min and capacity + eps is positive |
| ModelEngine.Pipeline | src/model/engine.rs:34-62 | n bars give exactly n rows |
| ModelEngine.RunEngine | src/model/engine.rs:12-66 | the rows are the pipeline's rows over the specified features, and the events are the state machine's log after a run over the row timestamps and rhos |
| ModelEngine.RunBars | src/model/engine.rs:34-62 | the loop emits exactly the pipeline's rows, one per bar in order, and leaves the machine in the state of the whole run |
| ModelEngine.RunBarsStep | src/model/engine.rs:36-61 | one iteration extends the rows by the next pipeline row and keeps the component histories in step |
| ModelEngine.EngineStep | src/model/engine.rs:36-61 | one bar steps the memory kernel, then the capacity estimator, then the state machine, once each, and builds the specified row |
| ModelEngine.MemoryStep | src/model/engine.rs:40 | the strain is the kernel over all combined residuals so far |
| ModelEngine.CapacityStep | src/model/engine.rs:41 | the capacity is the last element of the capacity trace of all strains so far, at least e_min |
| ModelEngine.PipelinePrefix | src/model/engine.rs:34-62 | the rows of a prefix of the bars are a prefix of the rows, so the fold is causal |
| ModelEngine.PipelineRow | src/model/engine.rs:36-61 | row i is built from the earlier rows' combined residuals, strains and state-machine run |
| ModelEngine.PipelineRowBasics | src/model/engine.rs:42-50 | row i passes bar i's timestamp, close and volume through unchanged; its capacity is at least e_min and rho = strain / (capacity + eps) with a positive denominator |
| ModelEngine.PipelineResiduals | src/model/engine.rs:37-54 | row i's channels are the residuals of bar i's features, and its combined value is the combiner applied to them |
| ModelEngine.PipelineStrainAndCapacity | src/model/engine.rs:40-41 | row i's strain is the kernel over rows 0..i's combined values, and its capacity is the capacity trace of rows 0..i's strains |
| ModelEngine.PipelineStates | src/model/engine.rs:44-60 | row i's state label and flags are those of update i of the state machine over the rows' rho column |
| ModelEngine.PipelineCandidateFlag | src/model/engine.rs:44-60 | row i raises the candidate flag exactly when the previous row's state is a base state, its rho (0 before the first row) is below rho_rupture and this row's rho is not |
| PreprocessValidate.RequiredRows | src/preprocess/validate.rs:17-21 | the required row count is the largest of min_rows, robust_scale_n, memory_k and capacity_l |
| PreprocessValidate.FirstFlagged | src/preprocess/validate.rs:32-39 | the scan finds the first flagged index, and finds none exactly when no element is flagged |
| PreprocessValidate.ValidateBars | src/preprocess/validate.rs:6-62 | every rejection is EmptyData or Validation |
| PreprocessValidate.ValidateOkIff | src/preprocess/validate.rs:11-61 | accepted exactly when non-empty, long enough, with positive closes when required and positive volumes unless zero volume is allowed |
| PreprocessValidate.ValidateEmptyFirst | src/preprocess/validate.rs:11-15 | an empty series is EmptyData before any other check |
| PreprocessValidate.ValidateTooFewRows | src/preprocess/validate.rs:17-29 | a non-empty series shorter than the required count is rejected with the required and actual counts |
| PreprocessValidate.ValidateReportsFirstBadClose | src/preprocess/validate.rs:31-40 | with positive closes required, the first non-positive close is reported with its row and value |
| PreprocessValidate.ValidateReportsFirstBadVolume | src/preprocess/validate.rs:42-51 | with zero volume disallowed and the close check passed, the first non-positive volume is reported with its row and value |
| PreprocessValidate.ValidateIgnoresVolumesWhenAllowed | src/preprocess/validate.rs:42-51 | when zero volume is allowed the volumes never affect the verdict, so negative volumes pass |
| PreprocessValidate.ValidateExamples | src/preprocess/validate.rs:11-51 | concrete series: empty, too short, zero close, zero volume, and zero volume when allowed |
| PreprocessClean.TsLeRefl | src/preprocess/clean.rs:9 | the timestamp order is reflexive |
| PreprocessClean.TsLeTotal | src/preprocess/clean.rs:9 | the timestamp order is total |
| PreprocessClean.TsLeTrans | src/preprocess/clean.rs:9 | the timestamp order is transitive |
| PreprocessClean.TsLeAntisym | src/preprocess/clean.rs:9 | the timestamp order is antisymmetric |
| PreprocessClean.Filter | src/preprocess/clean.rs:16 | retaining never lengthens the sequence |
| PreprocessClean.FilterMembers | src/preprocess/clean.rs:16 | every retained element was in the input and passes the test |
| PreprocessClean.FilterSubseq | src/preprocess/clean.rs:16 | retaining keeps a subsequence, in order |
| PreprocessClean.InsertPermutes | src/preprocess/clean.rs:9 | one insertion adds exactly the inserted bar |
| PreprocessClean.SortPermutes | src/preprocess/clean.rs:9 | the sort is a permutation |
| PreprocessClean.InsertKeepsAscending | src/preprocess/clean.rs:9 | inserting into a timestamp-ascending sequence keeps it ascending |
| PreprocessClean.SortByTsAscending | src/preprocess/clean.rs:9 | the sorted bars have ascending timestamps |
| PreprocessClean.InsertStable | src/preprocess/clean.rs:9 | insertion keeps the relative order of bars with the same timestamp |
| PreprocessClean.SortByTsStable | src/preprocess/clean.rs:9 | the sort is stable: the bars of each timestamp keep their input order |
| PreprocessClean.DedupBySameTsIsDedup | src/preprocess/clean.rs:13 | the generic dedup applied to equal timestamps is the timestamp dedup |
| PreprocessClean.DedupSubseq | src/preprocess/clean.rs:13 | dedup keeps a subsequence |
| PreprocessClean.DedupNoAdjacentDuplicates | src/preprocess/clean.rs:13 | no two neighbours of the result share a timestamp |
| PreprocessClean.DedupKeepsDistinctNeighbours | src/preprocess/clean.rs:13 | a sequence without equal neighbours is left unchanged |
| PreprocessClean.DedupIdempotent | src/preprocess/clean.rs:13 | dedup twice equals dedup once |
| PreprocessClean.DedupAscendingStrict | src/preprocess/clean.rs:8-13 | dedup of an ascending sequence is strictly ascending |
| PreprocessClean.DedupAscendingGroup | src/preprocess/clean.rs:8-13 | on an ascending sequence dedup keeps exactly the first bar of each timestamp |
| PreprocessClean.CleanClosesPositive | src/preprocess/clean.rs:16 | every cleaned bar has a positive close |
| PreprocessClean.CleanIsSubsequence | src/preprocess/clean.rs:5-18 | the output is a subsequence of the (sorted, if asked) input; the sort is a permutation; no bar is created or altered |
| PreprocessClean.CleanSortedStrictlyAscending | src/preprocess/clean.rs:8-13 | with sorting the timestamps are strictly ascending and pairwise distinct |
| PreprocessClean.CleanSortedKeepsEarliest | src/preprocess/clean.rs:8-16 | with sorting, a timestamp keeps its earliest bar if that bar's close is positive, and disappears otherwise even when a later duplicate is valid |
| PreprocessClean.CleanUnsortedKeepsOrder | src/preprocess/clean.rs:13-16 | without sorting only neighbouring duplicates go, and the order is preserved |
| PreprocessClean.CleanEarliestInvalidHidesLater | src/preprocess/clean.rs:8-16 | an invalid earliest bar hides a valid later duplicate |
| PreprocessClean.CleanEarliestValidKept | src/preprocess/clean.rs:8-16 | a valid earliest bar is kept and its invalid duplicate dropped |
| PreprocessClean.CleanUnsortedKeepsDistantDuplicates | src/preprocess/clean.rs:13 | without sorting, duplicates that are not neighbours are both kept |
| PreprocessClean.CleanBars | src/preprocess/clean.rs:5-18 | the vector operations (sort in place, dedup, retain) give exactly the specified cleaning |
| PreprocessClean.SortInPlace | src/preprocess/clean.rs:9 | the array ends as the stable sort of its old contents |
| PreprocessClean.InsertInPlace | src/preprocess/clean.rs:9 | the prefix is untouched and the tail becomes the insertion of one element into the sorted rest |
| PreprocessClean.ShiftAndPlace | src/preprocess/clean.rs:9 | elements are shifted left until the first one the inserted element may precede, and it is written into the gap |
| PreprocessClean.InsertAt | src/preprocess/clean.rs:9 | insertion places the element before the first one it may precede |
| PreprocessClean.DedupInPlace | src/preprocess/clean.rs:13 | the loop gives exactly the specified dedup |
| PreprocessClean.RetainPlausible | src/preprocess/clean.rs:16 | the loop keeps exactly the bars with a positive close |

## Left out

- `src/model/combine.rs` (`soft_max_combine`) is not modelled, since log-sum-exp needs `exp` and `ln`. The engine takes the combiner as a parameter. Because of this, no property of combined residuals beyond "the combiner applied to the channels" is stated.
- `src/features/returns.rs` (`compute_returns`) depends on `ln` and an `is_finite` guard. ModelEngine.RunEngine takes the return series as input `rets`.
- ModelMemory.MemoryKernel.constructor: the raw weights `i^(-alpha)` computed with `powf` (src/model/memory.rs:15) are a parameter. The only assumption made about it is that it holds K positive values, so alpha has no effect on the model. Monotone weights are a hypothesis of `NormaliseKeepsOrder` and `ImpulseDecays`.
- The NaN checks (src/preprocess/validate.rs:53-59 and the `is_nan` tests in src/preprocess/clean.rs:16) are not modelled, because a `real` is never NaN. For the same reason `partial_cmp(...).unwrap_or(Equal)` is an ordinary comparison.
- Floating-point rounding is not modelled. The properties the tests check up to 1e-10 or 1e-12 hold exactly over the reals.
- Machine integer widths are not modelled. `usize` counters and indices are `nat`, so the increment of `recovery_count` cannot overflow.
- StatsRobust.SafeDiv: requires b + eps != 0. Floating point would give an infinity or NaN there.
- ModelResiduals.ComputeResiduals: requires v + eps != 0, for the same reason.
- StatsQuantile.Quantile: requires q <= 1 when there are at least two values. A larger q makes the source index past the end of the sorted copy and panic. A negative q is modelled: the saturating `as usize` cast picks the minimum.
- ModelCapacity.CapacityEstimator.constructor: requires q <= 1, for the same reason. `Config::validate` already ensures 0 < q < 1 on the engine's path.
- FeaturesNormalise.ComputeNormed: requires eps > 0, madScale >= 0 and non-negative volumes (`PositiveDenominators`), plus return and acceleration series at least as long as the bars. Only the length condition is something the source needs: shorter series make it index out of range and panic. The sign conditions are stronger than the source. `clean_bars` never looks at volumes, `validate_bars` skips the volume scan when `allow_zero_volume` is set (`ValidateIgnoresVolumesWhenAllowed`), and `Config::validate` checks neither `mad_scale_factor` nor eps. On such inputs the source still computes, dividing by median(volumes) + eps and c * mad + eps. Those denominators are non-zero except on exact coincidences, so the source normally gives finite, possibly negative u, v and a. The model leaves those inputs out, in exchange for positive denominators and non-negative features (`NormedNonNegative`).
- ModelEngine.RunEngine: requires (`EngineInputs`) K positive raw weights, q <= 1, eps > 0, e_min + eps > 0, at least one return per bar, and, through `PositiveDenominators`, non-negative volumes and madScale >= 0. The return-length condition and q <= 1 keep the source from panicking. The rest is stronger than the source, as for `ComputeNormed`. `Config::validate` checks neither e_min, eps nor `mad_scale_factor`, and negative volumes can reach the engine. On those inputs the source computes anyway. The model requires them so that every denominator, including v + eps in the residuals and capacity + eps in rho, is positive.
- StatsRollingWindow.RollingWindow.Push: with capacity 0 the length is not bounded. The source's window then grows without limit, and the model shows exactly that (`FillZeroCapacityKeepsAll`).
- StatsRollingWindow.RollingWindow and ModelMemory.MemoryKernel: the `VecDeque` is a `seq`. `pop_front`/`push_back` become slicing and appending, and the ring-buffer layout is not modelled.
- PreprocessClean.SortInPlace: Rust's `sort_by` is a stable merge sort; the model is a stable insertion sort on an `array`. Every stable sort gives the same result (`SortByTsStable`, `SortByTsAscending`), but the order of the intermediate moves differs.
- PreprocessClean.DedupInPlace: `dedup_by` compacts the vector in place. The model builds the kept elements in a new `seq`, so the in-place compaction and the vector's retained capacity are not modelled.
- PreprocessClean.RetainPlausible: `retain` compacts in place. The model builds a new `seq`, with the same caveat.
- The engine's `state.to_string()` is `Types.Label`. The `Display` formatting machinery itself is not modelled.
- Not modelled: file I/O and parsing (`src/io/*`, `Config::from_file`), the CLI (`src/main.rs`), printing and reporting (`src/reporting/*`), the plotting script and the error message formatting in `src/error.rs`. Only the error variants `Config`, `Validation` and `EmptyData` appear, in `Errors`. The validation messages are a datatype of the values they report, not formatted strings.
