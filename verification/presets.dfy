/** The three parameter presets (`applyPreset`, demo.js:166-205) and the
    configuration the page actually starts from: the configuration literal
    with the "balanced" preset applied (demo.js:332). */
module Presets {
  import opened Numeric
  import opened Model
  import opened Bands

  datatype Preset = Balanced | Reactive | Soft

  /** `applyPreset`: overwrite ten fields with the preset's values; the
      remaining nine fields keep theirs. */
  function ApplyPreset(cfg: Config, p: Preset): (r: Config)
    ensures r.(smoothingAlpha := cfg.smoothingAlpha, velocityAlpha := cfg.velocityAlpha,
               zeroDeadband := cfg.zeroDeadband, maxAbsBalance := cfg.maxAbsBalance,
               maxAbsVelocity := cfg.maxAbsVelocity, softBandPrefFraction := cfg.softBandPrefFraction,
               noiseLevel := cfg.noiseLevel, targetRelative := cfg.targetRelative,
               controlBias := cfg.controlBias, controlGain := cfg.controlGain) == cfg
    ensures MaxB(r) == 5.0 && Target(r) == 0.0
  {
    match p
    case Balanced =>
      cfg.(smoothingAlpha := 0.9, velocityAlpha := 0.6, zeroDeadband := 0.02, maxAbsBalance := 5.0,
           maxAbsVelocity := 1.6, softBandPrefFraction := 0.5, noiseLevel := 0.22, targetRelative := 0.0,
           controlBias := 0.65, controlGain := 0.9)
    case Reactive =>
      cfg.(smoothingAlpha := 0.8, velocityAlpha := 0.55, zeroDeadband := 0.015, maxAbsBalance := 5.0,
           maxAbsVelocity := 2.2, softBandPrefFraction := 0.35, noiseLevel := 0.28, targetRelative := 0.0,
           controlBias := 0.45, controlGain := 1.0)
    case Soft =>
      cfg.(smoothingAlpha := 0.93, velocityAlpha := 0.55, zeroDeadband := 0.02, maxAbsBalance := 5.0,
           maxAbsVelocity := 1.5, softBandPrefFraction := 0.75, noiseLevel := 0.18, targetRelative := 0.0,
           controlBias := 0.78, controlGain := 0.8)
  }

  /** Applying a preset twice is the same as applying it once. */
  lemma ApplyPresetIdempotent(cfg: Config, p: Preset)
    ensures ApplyPreset(ApplyPreset(cfg, p), p) == ApplyPreset(cfg, p)
  {
  }

  /** The configuration in force when the first tick runs. */
  const StartConfig: Config := ApplyPreset(DefaultConfig, Balanced)

  /** The state when the first tick runs: the bands computed for the literal
      configuration at demo.js:98, then recomputed by the preset at demo.js:332. */
  const StartUp: State := UpdateTargetAndBands(StartConfig, Initial(DefaultConfig))

  /** The start-up configuration and state: the balanced values, a hard limit
      of 5, the target at 0 and the soft band [-1.25, 1.25] (half of the wider
      of the 0.3 and 0.5 band fractions on each side), with the environmental
      noise left off. */
  lemma StartUpValues()
    ensures StartConfig.maxAbsVelocity == 1.6 && StartConfig.noiseLevel == 0.22
    ensures StartConfig.controlBias == 0.65 && StartConfig.autoRestart
    ensures !StartConfig.useEnvNoise
    ensures MaxB(StartConfig) == 5.0
    ensures StartUp == Initial(StartConfig)
    ensures StartUp.targetBalance == 0.0 && StartUp.softMin == -1.25 && StartUp.softMax == 1.25
  {
    UpdateOverwrites(DefaultConfig, StartConfig, InitialState);
    WidthIsWidestFraction(StartConfig);
    assert Width(StartConfig) == 2.5;
    PlaceCentredWithRoom(0.0, 1.25, 5.0);
  }
}
