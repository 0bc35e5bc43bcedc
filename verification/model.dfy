/** The two records of the regulator: the tuning configuration, which the
    surrounding page may change between ticks, and the simulation state, which
    only the step writes. All numbers are exact reals. */
module Model {

  /** `config.inputMode`: the step treats every value other than "manual" as automatic. */
  datatype InputMode = Auto | Manual

  /** `state.status` */
  datatype Status = Active | Paused

  /** `state.mode` */
  datatype Mode = Active | Stabilising | Paused

  datatype Config = Config(
    smoothingAlpha: real,
    velocityAlpha: real,
    zeroDeadband: real,
    maxAbsBalance: real,
    maxAbsVelocity: real,
    pauseOnViolation: bool,
    autoRestart: bool,
    softBandMinFraction: real,
    softBandPrefFraction: real,
    restartThresholdFraction: real,
    restartConfirmTicks: real,
    recoveryGain: real,
    targetRelative: real,
    controlBias: real,
    controlGain: real,
    inputMode: InputMode,
    useEnvNoise: bool,
    noiseLevel: real,
    manualInput: real
  )

  /** One line of the tick log, kept as the values the formatted message shows. */
  datatype LogEntry = LogEntry(
    tick: nat,
    input: real,
    balance: real,
    target: real,
    velocity: real,
    mode: Mode,
    status: Status
  )

  datatype State = State(
    tick: nat,
    balance: real,
    velocity: real,
    targetBalance: real,
    softMin: real,
    softMax: real,
    lastInput: real,
    status: Status,
    mode: Mode,
    guardrailHits: nat,
    pauses: nat,
    stableTicks: nat,
    recoveryStableTicks: nat,
    history: seq<LogEntry>,
    graphPoints: seq<real>,
    avgStability: real
  )

  /** The configuration literal of demo.js:8-33. The page applies the
      "balanced" preset to it before the first tick (`Presets.StartConfig`). */
  const DefaultConfig: Config := Config(
    smoothingAlpha := 0.9,
    velocityAlpha := 0.6,
    zeroDeadband := 0.02,
    maxAbsBalance := 5.0,
    maxAbsVelocity := 2.0,
    pauseOnViolation := true,
    autoRestart := true,
    softBandMinFraction := 0.3,
    softBandPrefFraction := 0.5,
    restartThresholdFraction := 0.15,
    restartConfirmTicks := 4.0,
    recoveryGain := 0.7,
    targetRelative := 0.0,
    controlBias := 0.6,
    controlGain := 0.9,
    inputMode := Auto,
    useEnvNoise := false,
    noiseLevel := 0.25,
    manualInput := 0.0
  )

  /** The state literal, before the band fields are filled in. */
  const InitialState: State := State(
    tick := 0,
    balance := 0.0,
    velocity := 0.0,
    targetBalance := 0.0,
    softMin := 0.0,
    softMax := 0.0,
    lastInput := 0.0,
    status := Status.Active,
    mode := Mode.Active,
    guardrailHits := 0,
    pauses := 0,
    stableTicks := 0,
    recoveryStableTicks := 0,
    history := [],
    graphPoints := [],
    avgStability := 1.0
  )

  /** The only flag pairs the step can produce from the initial pair. */
  predicate FlagsReachable(st: State) {
    || (st.status == Status.Active && st.mode == Mode.Active)
    || (st.status == Status.Paused && st.mode == Mode.Stabilising)
    || (st.status == Status.Paused && st.mode == Mode.Paused)
  }
}
