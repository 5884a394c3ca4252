/** The configuration records read by the core and their validation (src/config.rs). */
module Config {

  import opened Wrappers
  import Errors

  datatype PreprocessConfig = PreprocessConfig(requirePositiveClose: bool, allowZeroVolume: bool, minRows: nat)

  datatype NumericsConfig = NumericsConfig(eps: real, clipResiduals: bool, residualClipMax: real)

  datatype WindowsConfig = WindowsConfig(robustScaleN: nat, memoryK: nat, capacityL: nat)

  datatype FeaturesConfig = FeaturesConfig(useLogReturns: bool)

  datatype RobustConfig = RobustConfig(madScaleFactor: real, useVolumeMedian: bool)

  datatype ResidualsConfig = ResidualsConfig(thetaVol: real, thetaLiq: real, thetaAcc: real)

  datatype CombineConfig = CombineConfig(tau: real)

  datatype MemoryConfig = MemoryConfig(alpha: real)

  datatype CapacityConfig = CapacityConfig(q: real, smooth: bool, lambda: real, eMin: real)

  datatype StateMachineConfig = StateMachineConfig(
    rhoStressed: real,
    rhoCritical: real,
    rhoRupture: real,
    confirmK: nat,
    confirmM: nat,
    enableRecovery: bool,
    recoveryHold: nat)

  /** The whole configuration, without the I/O and output sections. */
  datatype Config = Config(
    preprocess: PreprocessConfig,
    numerics: NumericsConfig,
    windows: WindowsConfig,
    features: FeaturesConfig,
    robust: RobustConfig,
    residuals: ResidualsConfig,
    combine: CombineConfig,
    memory: MemoryConfig,
    capacity: CapacityConfig,
    stateMachine: StateMachineConfig)

  const AlphaMessage := "memory.alpha must be in the open interval (0, 1)"
  const MemoryKMessage := "windows.memory_k must be at least 10"
  const CapacityLMessage := "windows.capacity_l must be at least 50"
  const ConfirmKMessage := "state_machine.confirm_k must be 1, 2, or 3"
  const ConfirmMMessage := "state_machine.confirm_m must satisfy 1 <= m <= k"
  const QMessage := "capacity.q must be in the open interval (0, 1)"
  const TauMessage := "combine.tau must be positive"

  /** The seven range checks, in the order `validate` runs them; the first failing one is reported. */
  function Validate(c: Config): (r: Result<(), Errors.RuptureError>)
    ensures r.Err? ==> r.error.Config?
  {
    if c.memory.alpha <= 0.0 || c.memory.alpha >= 1.0 then Err(Errors.Config(AlphaMessage))
    else if c.windows.memoryK < 10 then Err(Errors.Config(MemoryKMessage))
    else if c.windows.capacityL < 50 then Err(Errors.Config(CapacityLMessage))
    else if !(1 <= c.stateMachine.confirmK <= 3) then Err(Errors.Config(ConfirmKMessage))
    else if c.stateMachine.confirmM < 1 || c.stateMachine.confirmM > c.stateMachine.confirmK then
      Err(Errors.Config(ConfirmMMessage))
    else if c.capacity.q <= 0.0 || c.capacity.q >= 1.0 then Err(Errors.Config(QMessage))
    else if c.combine.tau <= 0.0 then Err(Errors.Config(TauMessage))
    else Ok(())
  }

  /** The conjunction of all seven constraints. */
  predicate WellFormed(c: Config)
  {
    && 0.0 < c.memory.alpha < 1.0
    && c.windows.memoryK >= 10
    && c.windows.capacityL >= 50
    && 1 <= c.stateMachine.confirmK <= 3
    && 1 <= c.stateMachine.confirmM <= c.stateMachine.confirmK
    && 0.0 < c.capacity.q < 1.0
    && c.combine.tau > 0.0
  }

  /** Validation accepts exactly the well-formed configurations. */
  lemma ValidateAcceptsIffWellFormed(c: Config)
    ensures Validate(c).Ok? <==> WellFormed(c)
  {
  }

  /** The reported message names the first constraint that fails, in check order. */
  lemma ValidateReportsFirstFailure(c: Config)
    ensures !(0.0 < c.memory.alpha < 1.0) ==> Validate(c) == Err(Errors.Config(AlphaMessage))
    ensures 0.0 < c.memory.alpha < 1.0 && c.windows.memoryK < 10 ==>
              Validate(c) == Err(Errors.Config(MemoryKMessage))
    ensures 0.0 < c.memory.alpha < 1.0 && c.windows.memoryK >= 10 && c.windows.capacityL < 50 ==>
              Validate(c) == Err(Errors.Config(CapacityLMessage))
    ensures 0.0 < c.memory.alpha < 1.0 && c.windows.memoryK >= 10 && c.windows.capacityL >= 50
            && !(1 <= c.stateMachine.confirmK <= 3) ==>
              Validate(c) == Err(Errors.Config(ConfirmKMessage))
    ensures 0.0 < c.memory.alpha < 1.0 && c.windows.memoryK >= 10 && c.windows.capacityL >= 50
            && 1 <= c.stateMachine.confirmK <= 3
            && !(1 <= c.stateMachine.confirmM <= c.stateMachine.confirmK) ==>
              Validate(c) == Err(Errors.Config(ConfirmMMessage))
    ensures 0.0 < c.memory.alpha < 1.0 && c.windows.memoryK >= 10 && c.windows.capacityL >= 50
            && 1 <= c.stateMachine.confirmK <= 3
            && 1 <= c.stateMachine.confirmM <= c.stateMachine.confirmK
            && !(0.0 < c.capacity.q < 1.0) ==>
              Validate(c) == Err(Errors.Config(QMessage))
    ensures 0.0 < c.memory.alpha < 1.0 && c.windows.memoryK >= 10 && c.windows.capacityL >= 50
            && 1 <= c.stateMachine.confirmK <= 3
            && 1 <= c.stateMachine.confirmM <= c.stateMachine.confirmK
            && 0.0 < c.capacity.q < 1.0 && c.combine.tau <= 0.0 ==>
              Validate(c) == Err(Errors.Config(TauMessage))
  {
  }

  /** Only alpha, memory_k, capacity_l, confirm_k, confirm_m, q and tau influence the verdict. */
  lemma ValidateReadsOnlyCheckedFields(c: Config, d: Config)
    requires c.memory.alpha == d.memory.alpha
    requires c.windows.memoryK == d.windows.memoryK && c.windows.capacityL == d.windows.capacityL
    requires c.stateMachine.confirmK == d.stateMachine.confirmK
    requires c.stateMachine.confirmM == d.stateMachine.confirmM
    requires c.capacity.q == d.capacity.q && c.combine.tau == d.combine.tau
    ensures Validate(c) == Validate(d)
  {
  }
}
