/**
 * The per-bar pipeline (src/model/engine.rs): features, residuals, memory
 * strain, capacity, load ratio rho and the rupture state machine, threaded
 * through one loop that emits one output row per bar. The return series and
 * the log-sum-exp combiner are inputs.
 */
module ModelEngine {

  import opened Wrappers
  import opened Types
  import opened Config
  import opened StatsRollingWindow
  import opened ModelMemory
  import opened ModelCapacity
  import opened ModelResiduals
  import opened ModelStateMachine
  import opened FeaturesAccel
  import opened FeaturesNormalise

  /** The soft-max combiner (r_vol, r_liq, r_acc, tau) to r, taken as given. */
  type Combiner = (real, real, real, real) -> real

  /**
   * What the pipeline needs of its parameters over the reals: K positive raw
   * weights standing for k^(-alpha), a quantile level of at most 1, a positive
   * eps and a positive rho denominator capacity + eps (capacity never drops
   * below e_min).
   */
  predicate EngineParams(config: Config, rawWeights: seq<real>)
  {
    && |rawWeights| == config.windows.memoryK && AllPositive(rawWeights)
    && config.capacity.q <= 1.0
    && config.numerics.eps > 0.0
    && config.capacity.eMin + config.numerics.eps > 0.0
  }

  /** One return per bar, usable parameters and positive normalisation denominators. */
  predicate EngineInputs(bars: seq<Bar>, config: Config, rets: seq<real>, rawWeights: seq<real>)
  {
    && |rets| >= |bars|
    && EngineParams(config, rawWeights)
    && PositiveDenominators(bars, config.robust.madScaleFactor, config.numerics.eps)
  }

  predicate NonNegativeLiquidity(normed: seq<Normed>)
  {
    forall i :: 0 <= i < |normed| ==> normed[i].v >= 0.0
  }

  /** The normalised features of every bar, as `compute_normed` computes them. */
  function NormedFeatures(bars: seq<Bar>, rets: seq<real>, config: Config): (normed: seq<Normed>)
    requires |rets| >= |bars|
    requires PositiveDenominators(bars, config.robust.madScaleFactor, config.numerics.eps)
    ensures |normed| == |bars|
    ensures NonNegativeLiquidity(normed)
  {
    var accel := Acceleration(rets);
    var normed := seq(|bars|, i requires 0 <= i < |bars| =>
                        NormedAt(bars, rets, accel, config.windows.robustScaleN,
                                 config.robust.madScaleFactor, config.numerics.eps, i));
    assert NonNegativeLiquidity(normed) by {
      forall i | 0 <= i < |normed|
        ensures normed[i].v >= 0.0
      {
        NormedNonNegative(bars, rets, accel, config.windows.robustScaleN,
                          config.robust.madScaleFactor, config.numerics.eps, i);
      }
    }
    normed
  }

  function Timestamps(bars: seq<Bar>): (tss: seq<string>)
    ensures |tss| == |bars|
    ensures forall i :: 0 <= i < |bars| ==> tss[i] == bars[i].ts
  {
    seq(|bars|, i requires 0 <= i < |bars| => bars[i].ts)
  }

  /** The columns of the output that later bars read back. */
  function CombinedColumn(rows: seq<EngineOutputRow>): (c: seq<real>)
    ensures |c| == |rows|
    ensures forall i :: 0 <= i < |rows| ==> c[i] == rows[i].rCombined
  {
    seq(|rows|, i requires 0 <= i < |rows| => rows[i].rCombined)
  }

  function StrainColumn(rows: seq<EngineOutputRow>): (c: seq<real>)
    ensures |c| == |rows|
    ensures forall i :: 0 <= i < |rows| ==> c[i] == rows[i].strain
  {
    seq(|rows|, i requires 0 <= i < |rows| => rows[i].strain)
  }

  function RhoColumn(rows: seq<EngineOutputRow>): (c: seq<real>)
    ensures |c| == |rows|
    ensures forall i :: 0 <= i < |rows| ==> c[i] == rows[i].rho
  {
    seq(|rows|, i requires 0 <= i < |rows| => rows[i].rho)
  }

  /** The load ratio: strain over capacity plus eps. */
  function Rho(strain: real, capacity: real, eps: real): real
    requires capacity + eps != 0.0
  {
    strain / (capacity + eps)
  }

  /**
   * The row emitted for bar i when the memory kernel has already seen the
   * combined residuals `combined`, the capacity estimator the strains `strains`
   * and the state machine stands at `m`: residuals of bar i's features, their
   * combination, the strain after pushing it, the capacity after pushing that,
   * rho = strain / (capacity + eps), and the state machine's update for rho.
   */
  function NextRow(bars: seq<Bar>, config: Config, rawWeights: seq<real>, combine: Combiner,
                   normed: seq<Normed>, i: nat, combined: seq<real>, strains: seq<real>, m: Machine)
    : (row: EngineOutputRow)
    requires i < |bars| && i < |normed| && normed[i].v >= 0.0
    requires EngineParams(config, rawWeights)
    ensures row.capacity >= config.capacity.eMin
    ensures row.capacity + config.numerics.eps > 0.0
  {
    var cc := config.capacity;
    var res := ComputeResiduals(normed[i], config.residuals, config.numerics);
    var rCombined := combine(res.rVol, res.rLiq, res.rAcc, config.combine.tau);
    var strain := Strain(Normalise(rawWeights), Fill(config.windows.memoryK, combined + [rCombined]));
    var trace := CapacityTrace(config.windows.capacityL, cc.q, cc.smooth, cc.lambda, cc.eMin, strains + [strain]);
    CapacityTraceAtLeastFloor(config.windows.capacityL, cc.q, cc.smooth, cc.lambda, cc.eMin,
                              strains + [strain], |strains|);
    var cap := trace[|strains|];
    var rho := Rho(strain, cap, config.numerics.eps);
    var t := Step(config.stateMachine, m, i, bars[i].ts, rho);
    EngineOutputRow(bars[i].ts, bars[i].close, bars[i].volume, res.rVol, res.rLiq, res.rAcc, rCombined,
                    strain, cap, rho, Label(t.next.state), t.candidateFlag, t.confirmedFlag)
  }

  /** The rows of the first n bars: row i is the next row after rows 0 .. i - 1. */
  function Pipeline(bars: seq<Bar>, config: Config, rawWeights: seq<real>, combine: Combiner,
                    normed: seq<Normed>, n: nat): (rows: seq<EngineOutputRow>)
    requires n <= |bars| && n <= |normed| && NonNegativeLiquidity(normed)
    requires EngineParams(config, rawWeights)
    ensures |rows| == n
    decreases n
  {
    seq(n, i requires 0 <= i < n =>
          var before := Pipeline(bars, config, rawWeights, combine, normed, i);
          NextRow(bars, config, rawWeights, combine, normed, i, CombinedColumn(before), StrainColumn(before),
                  Run(config.stateMachine, Timestamps(bars[..i]), RhoColumn(before))))
  }

  /** The memory kernel is valid and built from the configured K raw weights. */
  ghost predicate MemoryReady(memory: MemoryKernel, config: Config, rawWeights: seq<real>)
    reads memory
  {
    memory.Valid() && memory.rawWeights == rawWeights && memory.capacity == config.windows.memoryK
  }

  /** The capacity estimator is valid and carries the configured window length and parameters. */
  ghost predicate CapacityReady(capacity: CapacityEstimator, config: Config)
    reads capacity, capacity.window
  {
    && capacity.Valid() && capacity.window.capacity == config.windows.capacityL
    && capacity.q == config.capacity.q && capacity.smooth == config.capacity.smooth
    && capacity.lambda == config.capacity.lambda && capacity.eMin == config.capacity.eMin
  }

  /** The three stateful components are valid and configured as `config` says. */
  ghost predicate ComponentsReady(memory: MemoryKernel, capacity: CapacityEstimator, machine: StateMachine,
                                  config: Config, rawWeights: seq<real>)
    reads memory, capacity, capacity.window, machine
  {
    && MemoryReady(memory, config, rawWeights)
    && CapacityReady(capacity, config)
    && machine.Valid() && machine.cfg == config.stateMachine
  }

  /** What the components have seen is what the rows emitted so far fed them. */
  ghost predicate HistoriesFollow(combined: seq<real>, strains: seq<real>, m: Machine,
                                  bars: seq<Bar>, config: Config, rows: seq<EngineOutputRow>)
    requires |rows| <= |bars|
  {
    && combined == CombinedColumn(rows)
    && strains == StrainColumn(rows)
    && m == Run(config.stateMachine, Timestamps(bars[..|rows|]), RhoColumn(rows))
  }

  /** The normalised features (`compute_returns` and `compute_accel` feed `compute_normed`). */
  method Features(bars: seq<Bar>, config: Config, rets: seq<real>) returns (normed: seq<Normed>)
    requires |rets| >= |bars|
    requires PositiveDenominators(bars, config.robust.madScaleFactor, config.numerics.eps)
    ensures normed == NormedFeatures(bars, rets, config)
  {
    var accel := ComputeAcceleration(rets);
    normed := ComputeNormed(bars, rets, accel, config.windows.robustScaleN,
                            config.robust.madScaleFactor, config.numerics.eps);
  }

  /** Runs the pipeline over `bars` and returns the output rows and the event log. */
  method RunEngine(bars: seq<Bar>, config: Config, rets: seq<real>, rawWeights: seq<real>,
                   combine: Combiner)
    returns (rows: seq<EngineOutputRow>, events: seq<RuptureEvent>)
    requires EngineInputs(bars, config, rets, rawWeights)
    ensures rows == Pipeline(bars, config, rawWeights, combine, NormedFeatures(bars, rets, config), |bars|)
    ensures events == Run(config.stateMachine, Timestamps(bars), RhoColumn(rows)).events
  {
    var normed := Features(bars, config, rets);
    var memory := new MemoryKernel(config.windows.memoryK, rawWeights);
    var capacity := new CapacityEstimator(config.windows.capacityL, config.capacity.q, config.capacity.smooth,
                                          config.capacity.lambda, config.capacity.eMin);
    var machine := new StateMachine(config.stateMachine);
    rows := RunBars(memory, capacity, machine, bars, config, rawWeights, combine, normed);
    events := machine.Events();
  }

  /** The loop of `RunEngine`: one `EngineStep` per bar, in order, on components that start fresh. */
  method RunBars(memory: MemoryKernel, capacity: CapacityEstimator, machine: StateMachine,
                 bars: seq<Bar>, config: Config, rawWeights: seq<real>, combine: Combiner, normed: seq<Normed>)
    returns (rows: seq<EngineOutputRow>)
    requires |normed| == |bars| && NonNegativeLiquidity(normed)
    requires EngineParams(config, rawWeights)
    requires ComponentsReady(memory, capacity, machine, config, rawWeights)
    requires HistoriesFollow(memory.history, capacity.history, machine.Snapshot(), bars, config, [])
    modifies memory, capacity, capacity.window, machine
    ensures rows == Pipeline(bars, config, rawWeights, combine, normed, |bars|)
    ensures ComponentsReady(memory, capacity, machine, config, rawWeights)
    ensures machine.Snapshot() == Run(config.stateMachine, Timestamps(bars), RhoColumn(rows))
  {
    rows := [];
    for i := 0 to |bars|
      invariant |rows| == i
      invariant Progress(memory, capacity, machine, bars, config, rawWeights, combine, normed, rows)
    {
      rows := RunBarsStep(memory, capacity, machine, bars, config, rawWeights, combine, normed, rows);
    }
    ProgressComplete(machine, bars, config, rows);
  }

  /** Once every bar has a row, the machine has run over all the bars' timestamps. */
  lemma ProgressComplete(machine: StateMachine, bars: seq<Bar>, config: Config, rows: seq<EngineOutputRow>)
    requires |rows| == |bars|
    requires machine.Snapshot() == Run(config.stateMachine, Timestamps(bars[..|rows|]), RhoColumn(rows))
    ensures machine.Snapshot() == Run(config.stateMachine, Timestamps(bars), RhoColumn(rows))
  {
    assert bars[..|rows|] == bars;
  }

  /** The state of the loop of `RunBars` after the rows `rows`. */
  ghost predicate Progress(memory: MemoryKernel, capacity: CapacityEstimator, machine: StateMachine,
                           bars: seq<Bar>, config: Config, rawWeights: seq<real>, combine: Combiner,
                           normed: seq<Normed>, rows: seq<EngineOutputRow>)
    reads memory, capacity, capacity.window, machine
  {
    && |rows| <= |bars| && |normed| == |bars| && NonNegativeLiquidity(normed)
    && EngineParams(config, rawWeights)
    && ComponentsReady(memory, capacity, machine, config, rawWeights)
    && rows == Pipeline(bars, config, rawWeights, combine, normed, |rows|)
    && HistoriesFollow(memory.history, capacity.history, machine.Snapshot(), bars, config, rows)
  }

  /** One turn of the loop of `RunBars`: the rows so far grow by the next row of the pipeline. */
  method RunBarsStep(memory: MemoryKernel, capacity: CapacityEstimator, machine: StateMachine,
                     bars: seq<Bar>, config: Config, rawWeights: seq<real>, combine: Combiner, normed: seq<Normed>,
                     rows: seq<EngineOutputRow>)
    returns (rows': seq<EngineOutputRow>)
    requires |rows| < |bars| && NonNegativeLiquidity(normed)
    requires EngineParams(config, rawWeights)
    requires Progress(memory, capacity, machine, bars, config, rawWeights, combine, normed, rows)
    modifies memory, capacity, capacity.window, machine
    ensures |rows'| == |rows| + 1
    ensures Progress(memory, capacity, machine, bars, config, rawWeights, combine, normed, rows')
  {
    ghost var combined, strains, m := memory.history, capacity.history, machine.Snapshot();
    var row := EngineStep(memory, capacity, machine, bars, config, rawWeights, combine, normed, |rows|,
                          combined, strains, m);
    HistoriesSnoc(bars, config, rows, row, combined, strains, m, machine.Snapshot());
    PipelineSnoc(bars, config, rawWeights, combine, normed, rows, row, combined, strains, m);
    rows' := rows + [row];
  }

  /** One turn of the loop of `RunEngine`: bar i steps memory, then capacity, then the state machine. */
  method EngineStep(memory: MemoryKernel, capacity: CapacityEstimator, machine: StateMachine,
                    bars: seq<Bar>, config: Config, rawWeights: seq<real>, combine: Combiner,
                    normed: seq<Normed>, i: nat, ghost combined: seq<real>, ghost strains: seq<real>,
                    ghost m: Machine)
    returns (row: EngineOutputRow)
    requires i < |bars| && i < |normed| && normed[i].v >= 0.0
    requires EngineParams(config, rawWeights)
    requires ComponentsReady(memory, capacity, machine, config, rawWeights)
    requires memory.history == combined && capacity.history == strains && machine.Snapshot() == m
    modifies memory, capacity, capacity.window, machine
    ensures ComponentsReady(memory, capacity, machine, config, rawWeights)
    ensures row == NextRow(bars, config, rawWeights, combine, normed, i, combined, strains, m)
    ensures memory.history == combined + [row.rCombined]
    ensures capacity.history == strains + [row.strain]
    ensures machine.Snapshot() == Step(config.stateMachine, m, i, bars[i].ts, row.rho).next
  {
    var res := ComputeResiduals(normed[i], config.residuals, config.numerics);
    var rCombined := combine(res.rVol, res.rLiq, res.rAcc, config.combine.tau);
    var strain := MemoryStep(memory, config, rawWeights, combined, rCombined);
    var cap := CapacityStep(capacity, config, strains, strain);
    DenominatorPositive(cap, config.capacity.eMin, config.numerics.eps);
    var rho := Rho(strain, cap, config.numerics.eps);
    var state, candidateFlag, confirmedFlag := machine.Update(i, bars[i].ts, rho);
    ghost var t := Step(config.stateMachine, m, i, bars[i].ts, rho);
    row := EngineOutputRow(bars[i].ts, bars[i].close, bars[i].volume, res.rVol, res.rLiq, res.rAcc, rCombined,
                           strain, cap, rho, Label(state), candidateFlag, confirmedFlag);
    NextRowOf(bars, config, rawWeights, combine, normed, i, combined, strains, m, res, rCombined, strain, cap, rho, t);
  }

  /** The memory kernel's step: push the combined residual and read the strain. */
  method MemoryStep(memory: MemoryKernel, config: Config, rawWeights: seq<real>, ghost combined: seq<real>,
                    rCombined: real) returns (strain: real)
    requires MemoryReady(memory, config, rawWeights) && memory.history == combined
    modifies memory
    ensures MemoryReady(memory, config, rawWeights) && memory.history == combined + [rCombined]
    ensures strain == Strain(Normalise(rawWeights), Fill(config.windows.memoryK, combined + [rCombined]))
  {
    strain := memory.PushAndAccumulate(rCombined);
  }

  /** The capacity estimator's step: push the strain and read the capacity. */
  method CapacityStep(capacity: CapacityEstimator, config: Config, ghost strains: seq<real>, strain: real)
    returns (cap: real)
    requires CapacityReady(capacity, config) && capacity.history == strains
    modifies capacity, capacity.window
    ensures CapacityReady(capacity, config) && capacity.history == strains + [strain]
    ensures config.capacity.q <= 1.0
    ensures cap == CapacityTrace(config.windows.capacityL, config.capacity.q, config.capacity.smooth,
                                 config.capacity.lambda, config.capacity.eMin, strains + [strain])[|strains|]
    ensures cap >= config.capacity.eMin
  {
    cap := capacity.Update(strain);
  }

  /** `NextRow` from the values each component's step supplies. */
  lemma NextRowOf(bars: seq<Bar>, config: Config, rawWeights: seq<real>, combine: Combiner,
                  normed: seq<Normed>, i: nat, combined: seq<real>, strains: seq<real>, m: Machine,
                  res: Residuals, rCombined: real, strain: real, cap: real, rho: real, t: Transition)
    requires i < |bars| && i < |normed| && normed[i].v >= 0.0
    requires EngineParams(config, rawWeights)
    requires res == ComputeResiduals(normed[i], config.residuals, config.numerics)
    requires rCombined == combine(res.rVol, res.rLiq, res.rAcc, config.combine.tau)
    requires strain == Strain(Normalise(rawWeights), Fill(config.windows.memoryK, combined + [rCombined]))
    requires cap == CapacityTrace(config.windows.capacityL, config.capacity.q, config.capacity.smooth,
                                  config.capacity.lambda, config.capacity.eMin, strains + [strain])[|strains|]
    requires rho == Rho(strain, cap, config.numerics.eps)
    requires t == Step(config.stateMachine, m, i, bars[i].ts, rho)
    ensures NextRow(bars, config, rawWeights, combine, normed, i, combined, strains, m)
         == EngineOutputRow(bars[i].ts, bars[i].close, bars[i].volume, res.rVol, res.rLiq, res.rAcc, rCombined,
                            strain, cap, rho, Label(t.next.state), t.candidateFlag, t.confirmedFlag)
  {
  }

  lemma DenominatorPositive(cap: real, eMin: real, eps: real)
    requires cap >= eMin && eMin + eps > 0.0
    ensures cap + eps > 0.0
  {
  }

  /** Appending a row extends each column by that row's entry; the timestamps of a prefix are a prefix. */
  lemma ColumnsSnoc(bars: seq<Bar>, rows: seq<EngineOutputRow>, row: EngineOutputRow)
    requires |rows| < |bars|
    ensures CombinedColumn(rows + [row]) == CombinedColumn(rows) + [row.rCombined]
    ensures StrainColumn(rows + [row]) == StrainColumn(rows) + [row.strain]
    ensures RhoColumn(rows + [row]) == RhoColumn(rows) + [row.rho]
    ensures Timestamps(bars[..|rows| + 1]) == Timestamps(bars[..|rows|]) + [bars[|rows|].ts]
  {
  }

  /** The run over one more bar ends in that bar's update. */
  lemma RunSnocOf(cfg: StateMachineConfig, tss: seq<string>, rhos: seq<real>, ts: string, rho: real)
    requires |tss| == |rhos|
    ensures Run(cfg, tss + [ts], rhos + [rho]) == Step(cfg, Run(cfg, tss, rhos), |rhos|, ts, rho).next
  {
    assert (tss + [ts])[..|rhos|] == tss;
    assert (rhos + [rho])[..|rhos|] == rhos;
  }

  /** Emitting one more row keeps the components' histories in step with the rows. */
  lemma HistoriesSnoc(bars: seq<Bar>, config: Config, rows: seq<EngineOutputRow>, row: EngineOutputRow,
                      combined: seq<real>, strains: seq<real>, m: Machine, m': Machine)
    requires |rows| < |bars|
    requires HistoriesFollow(combined, strains, m, bars, config, rows)
    requires m' == Step(config.stateMachine, m, |rows|, bars[|rows|].ts, row.rho).next
    ensures HistoriesFollow(combined + [row.rCombined], strains + [row.strain], m', bars, config, rows + [row])
  {
    ColumnsSnoc(bars, rows, row);
    RunSnocOf(config.stateMachine, Timestamps(bars[..|rows|]), RhoColumn(rows), bars[|rows|].ts, row.rho);
  }

  /** The row computed from the components' histories is the next row of the pipeline. */
  lemma PipelineSnoc(bars: seq<Bar>, config: Config, rawWeights: seq<real>, combine: Combiner,
                     normed: seq<Normed>, rows: seq<EngineOutputRow>, row: EngineOutputRow,
                     combined: seq<real>, strains: seq<real>, m: Machine)
    requires |rows| < |bars| && |rows| < |normed| && NonNegativeLiquidity(normed)
    requires EngineParams(config, rawWeights)
    requires rows == Pipeline(bars, config, rawWeights, combine, normed, |rows|)
    requires HistoriesFollow(combined, strains, m, bars, config, rows)
    requires row == NextRow(bars, config, rawWeights, combine, normed, |rows|, combined, strains, m)
    ensures rows + [row] == Pipeline(bars, config, rawWeights, combine, normed, |rows| + 1)
  {
    PipelineRow(bars, config, rawWeights, combine, normed, |rows| + 1, |rows|);
    var next := Pipeline(bars, config, rawWeights, combine, normed, |rows| + 1);
    assert next == next[..|rows| + 1];
  }

  // ----- Properties of the pipeline -----

  /** Earlier rows never change: the rows of n bars start with the rows of any k <= n bars. */
  lemma PipelinePrefix(bars: seq<Bar>, config: Config, rawWeights: seq<real>, combine: Combiner,
                       normed: seq<Normed>, n: nat, k: nat)
    requires k <= n <= |bars| && n <= |normed| && NonNegativeLiquidity(normed)
    requires EngineParams(config, rawWeights)
    ensures Pipeline(bars, config, rawWeights, combine, normed, n)[..k]
         == Pipeline(bars, config, rawWeights, combine, normed, k)
  {
  }

  /** Row i is the next row after the rows of bars 0 .. i - 1. */
  lemma PipelineRow(bars: seq<Bar>, config: Config, rawWeights: seq<real>, combine: Combiner,
                    normed: seq<Normed>, n: nat, i: nat)
    requires i < n <= |bars| && n <= |normed| && NonNegativeLiquidity(normed)
    requires EngineParams(config, rawWeights)
    ensures var rows := Pipeline(bars, config, rawWeights, combine, normed, n);
            var before := Pipeline(bars, config, rawWeights, combine, normed, i);
            && rows[..i] == before
            && rows[..i + 1] == before + [rows[i]]
            && rows[i] == NextRow(bars, config, rawWeights, combine, normed, i, CombinedColumn(before),
                                  StrainColumn(before), Run(config.stateMachine, Timestamps(bars[..i]), RhoColumn(before)))
  {
    var rows := Pipeline(bars, config, rawWeights, combine, normed, n);
    PipelinePrefix(bars, config, rawWeights, combine, normed, n, i);
    TakeSnoc(rows, i);
  }

  /** Taking one more element appends it. */
  lemma TakeSnoc<T>(s: seq<T>, i: nat)
    requires i < |s|
    ensures s[..i + 1] == s[..i] + [s[i]]
  {
  }

  /** A sequence is its prefix followed by its last element. */
  lemma SnocOf<T>(s: seq<T>, prefix: seq<T>, x: T)
    requires |s| == |prefix| + 1 && s[..|prefix|] == prefix && s[|prefix|] == x
    ensures s == prefix + [x]
  {
    assert s == s[..|prefix|] + [s[|prefix|]];
  }

  /**
   * Each row carries its bar's timestamp, close and volume, a capacity of at
   * least e_min, and rho = strain / (capacity + eps) with a positive denominator.
   */
  lemma PipelineRowBasics(bars: seq<Bar>, config: Config, rawWeights: seq<real>, combine: Combiner,
                          normed: seq<Normed>, n: nat, i: nat)
    requires i < n <= |bars| && n <= |normed| && NonNegativeLiquidity(normed)
    requires EngineParams(config, rawWeights)
    ensures var row := Pipeline(bars, config, rawWeights, combine, normed, n)[i];
            && row.timestamp == bars[i].ts && row.close == bars[i].close && row.volume == bars[i].volume
            && row.capacity >= config.capacity.eMin
            && row.capacity + config.numerics.eps > 0.0
            && row.rho == Rho(row.strain, row.capacity, config.numerics.eps)
  {
    PipelineRow(bars, config, rawWeights, combine, normed, n, i);
  }

  /** The residual channels are those of the bar's features; the combined residual is the combiner applied to them. */
  lemma PipelineResiduals(bars: seq<Bar>, config: Config, rawWeights: seq<real>, combine: Combiner,
                          normed: seq<Normed>, n: nat, i: nat)
    requires i < n <= |bars| && n <= |normed| && NonNegativeLiquidity(normed)
    requires EngineParams(config, rawWeights)
    ensures normed[i].v + config.numerics.eps != 0.0
    ensures var row := Pipeline(bars, config, rawWeights, combine, normed, n)[i];
            var res := ComputeResiduals(normed[i], config.residuals, config.numerics);
            && row.rVol == res.rVol && row.rLiq == res.rLiq && row.rAcc == res.rAcc
            && row.rCombined == combine(res.rVol, res.rLiq, res.rAcc, config.combine.tau)
  {
    PipelineRow(bars, config, rawWeights, combine, normed, n, i);
  }

  /**
   * The strain of row i is the memory kernel over the combined residuals of rows
   * 0 .. i, and its capacity is the last capacity of a fresh estimator fed the
   * strains of rows 0 .. i.
   */
  lemma PipelineStrainAndCapacity(bars: seq<Bar>, config: Config, rawWeights: seq<real>, combine: Combiner,
                                  normed: seq<Normed>, n: nat, i: nat)
    requires i < n <= |bars| && n <= |normed| && NonNegativeLiquidity(normed)
    requires EngineParams(config, rawWeights)
    ensures var rows := Pipeline(bars, config, rawWeights, combine, normed, n);
            var cc := config.capacity;
            && rows[i].strain == Strain(Normalise(rawWeights), Fill(config.windows.memoryK, CombinedColumn(rows[..i + 1])))
            && rows[i].capacity == CapacityTrace(config.windows.capacityL, cc.q, cc.smooth, cc.lambda, cc.eMin,
                                                 StrainColumn(rows[..i + 1]))[i]
  {
    var rows := Pipeline(bars, config, rawWeights, combine, normed, n);
    PipelineRow(bars, config, rawWeights, combine, normed, n, i);
    ColumnsSnoc(bars, Pipeline(bars, config, rawWeights, combine, normed, i), rows[i]);
  }

  /**
   * The state and the two flags of row i are those of update i of the state
   * machine run over the timestamps of the bars and the rho column of the rows.
   */
  lemma PipelineStates(bars: seq<Bar>, config: Config, rawWeights: seq<real>, combine: Combiner,
                       normed: seq<Normed>, n: nat, i: nat)
    requires i < n <= |bars| && n <= |normed| && NonNegativeLiquidity(normed)
    requires EngineParams(config, rawWeights)
    ensures var rows := Pipeline(bars, config, rawWeights, combine, normed, n);
            var t := StepAt(config.stateMachine, Timestamps(bars[..n]), RhoColumn(rows), i);
            && rows[i].state == Label(t.next.state)
            && rows[i].candidateFlag == t.candidateFlag
            && rows[i].confirmedFlag == t.confirmedFlag
  {
    var rows := Pipeline(bars, config, rawWeights, combine, normed, n);
    var before := Pipeline(bars, config, rawWeights, combine, normed, i);
    PipelineRow(bars, config, rawWeights, combine, normed, n, i);
    ColumnPrefixes(bars, rows, n, i);
    assert StepAt(config.stateMachine, Timestamps(bars[..n]), RhoColumn(rows), i)
        == Step(config.stateMachine, Run(config.stateMachine, Timestamps(bars[..i]), RhoColumn(before)),
                i, bars[i].ts, rows[i].rho);
  }

  /** The columns of a prefix are the prefixes of the columns. */
  lemma ColumnPrefixes(bars: seq<Bar>, rows: seq<EngineOutputRow>, n: nat, i: nat)
    requires i < n <= |bars| && n == |rows|
    ensures Timestamps(bars[..n])[..i] == Timestamps(bars[..i])
    ensures Timestamps(bars[..n])[i] == bars[i].ts
    ensures RhoColumn(rows)[..i] == RhoColumn(rows[..i])
    ensures RhoColumn(rows)[i] == rows[i].rho
  {
  }

  /** Stable, Stressed and Critical are the labels of the base states. */
  predicate IsBaseLabel(name: string)
  {
    name == "Stable" || name == "Stressed" || name == "Critical"
  }

  lemma BaseLabel(s: RuptureState)
    ensures IsBase(s) <==> IsBaseLabel(Label(s))
  {
  }

  /**
   * Row i raises the candidate flag exactly on an upward crossing of
   * rho_rupture from a base state: the previous row shows Stable, Stressed or
   * Critical (before the first row the machine is Stable), the previous rho
   * (0 before the first row) is below rho_rupture and this row's rho is not.
   */
  lemma PipelineCandidateFlag(bars: seq<Bar>, config: Config, rawWeights: seq<real>, combine: Combiner,
                              normed: seq<Normed>, n: nat, i: nat)
    requires i < n <= |bars| && n <= |normed| && NonNegativeLiquidity(normed)
    requires EngineParams(config, rawWeights)
    ensures var rows := Pipeline(bars, config, rawWeights, combine, normed, n);
            var prevLabel := if i == 0 then Label(Stable) else rows[i - 1].state;
            var prevRho := if i == 0 then 0.0 else rows[i - 1].rho;
            var cut := config.stateMachine.rhoRupture;
            rows[i].candidateFlag <==> IsBaseLabel(prevLabel) && prevRho < cut && rows[i].rho >= cut
  {
    var rows := Pipeline(bars, config, rawWeights, combine, normed, n);
    var cfg := config.stateMachine;
    var tss, rhos := Timestamps(bars[..n]), RhoColumn(rows);
    var m := Run(cfg, tss[..i], rhos[..i]);
    PipelineStates(bars, config, rawWeights, combine, normed, n, i);
    ColumnPrefixes(bars, rows, n, i);
    StepFlags(cfg, m, i, tss[i], rhos[i]);
    if i == 0 {
      assert m == Init();
      BaseLabel(Stable);
    } else {
      var j := i - 1;
      PipelineStates(bars, config, rawWeights, combine, normed, n, j);
      ColumnPrefixes(bars, rows, n, j);
      RunSnoc(cfg, tss, rhos, j);
      assert tss[..j + 1] == tss[..i] && rhos[..j + 1] == rhos[..i];
      StepFlags(cfg, Run(cfg, tss[..j], rhos[..j]), j, tss[j], rhos[j]);
      BaseLabel(m.state);
    }
  }
}
