/** Input selection: the proportional recovery controller
    (`computeRecoveryInput`, demo.js:338-344) and the synthetic environment
    signal (`generateAutoInput`, demo.js:346-365). `Math.sin` is the parameter
    `sine` and the value of `Math.random()` is the parameter `random`. */
module Inputs {
  import opened Numeric
  import opened Model
  import opened Bands

  /** `computeRecoveryInput`: the controller output saturated to [-1, 1]. */
  function RecoveryInput(cfg: Config, st: State): (y: real)
    ensures -1.0 <= y <= 1.0
  {
    Clamp(RecoveryDemand(cfg, st), -1.0, 1.0)
  }

  /** The unsaturated controller output: gain times the error, relative to the hard limit. */
  function RecoveryDemand(cfg: Config, st: State): real {
    cfg.recoveryGain * (st.targetBalance - st.balance) / MaxB(cfg)
  }

  /** The recovery input is a proportional controller toward the target: with
      a positive gain it pushes up below the target and down above it, it is
      zero on the target, and it is exactly proportional to the error until it
      saturates. */
  lemma RecoveryInputPointsToTarget(cfg: Config, st: State)
    requires cfg.recoveryGain > 0.0
    ensures st.balance < st.targetBalance ==> RecoveryInput(cfg, st) > 0.0
    ensures st.balance > st.targetBalance ==> RecoveryInput(cfg, st) < 0.0
    ensures st.balance == st.targetBalance ==> RecoveryInput(cfg, st) == 0.0
    ensures Abs(RecoveryDemand(cfg, st)) <= 1.0 ==> RecoveryInput(cfg, st) == RecoveryDemand(cfg, st)
  {
    assert RecoveryInput(cfg, st) == Clamp(RecoveryDemand(cfg, st), -1.0, 1.0);
    ProportionalSign(cfg.recoveryGain, st.targetBalance - st.balance, MaxB(cfg));
  }

  /** On the target the recovery input is zero, whatever the gain. */
  lemma RecoveryInputAtTarget(cfg: Config, st: State)
    requires st.balance == st.targetBalance
    ensures RecoveryInput(cfg, st) == 0.0
  {
    var e := st.targetBalance - st.balance;
    assert e == 0.0;
    assert cfg.recoveryGain * e == 0.0;
    assert RecoveryDemand(cfg, st) == 0.0;
    assert RecoveryInput(cfg, st) == Clamp(RecoveryDemand(cfg, st), -1.0, 1.0);
  }

  /** Sign facts for a saturated proportional term `Clamp(g * e / m, -1, 1)`. */
  lemma ProportionalSign(g: real, e: real, m: real)
    requires g > 0.0 && m > 0.0
    ensures e > 0.0 ==> Clamp(g * e / m, -1.0, 1.0) > 0.0
    ensures e < 0.0 ==> Clamp(g * e / m, -1.0, 1.0) < 0.0
    ensures e == 0.0 ==> Clamp(g * e / m, -1.0, 1.0) == 0.0
  {
    if e > 0.0 {
      MulPositive(g, e);
      DivPositive(g * e, m);
    } else if e < 0.0 {
      MulPositive(g, -e);
      assert g * -e == -(g * e);
      DivPositive(-(g * e), m);
      assert -(g * e) / m == -(g * e / m);
    }
  }

  /** The two sinusoids at the given tick (demo.js:349-351). */
  function BaseSignal(sine: real -> real, tick: nat): real {
    sine(tick as real / 32.0) * 0.45 + sine(tick as real / 11.0) * 0.25
  }

  /** The environment noise: zero unless enabled (demo.js:353-356). */
  function Noise(cfg: Config, random: real): real {
    if cfg.useEnvNoise then (random * 2.0 - 1.0) * cfg.noiseLevel else 0.0
  }

  /** The error-following term of the mix (demo.js:358-359). */
  function Control(cfg: Config, st: State): real {
    Clamp((st.targetBalance - st.balance) / MaxB(cfg) * cfg.controlGain, -1.0, 1.0)
  }

  /** `generateAutoInput`: a `controlBias`-weighted blend of the synthetic
      signal and the error term, plus noise, saturated to [-1, 1]. */
  function AutoInput(cfg: Config, st: State, sine: real -> real, random: real): (y: real)
    ensures -1.0 <= y <= 1.0
  {
    var base := BaseSignal(sine, st.tick);
    var mix := Clamp(cfg.controlBias, 0.0, 1.0);
    Clamp(base * (1.0 - mix) + Control(cfg, st) * mix + Noise(cfg, random), -1.0, 1.0)
  }

  /** With a bias of 0 or less the automatic input ignores the balance. */
  lemma AutoInputPureSignal(cfg: Config, st: State, sine: real -> real, random: real)
    requires cfg.controlBias <= 0.0
    ensures AutoInput(cfg, st, sine, random) == Clamp(BaseSignal(sine, st.tick) + Noise(cfg, random), -1.0, 1.0)
  {
  }

  /** With a bias of 1 or more the automatic input ignores the sinusoids. */
  lemma AutoInputPureControl(cfg: Config, st: State, sine: real -> real, random: real)
    requires cfg.controlBias >= 1.0
    ensures AutoInput(cfg, st, sine, random) == Clamp(Control(cfg, st) + Noise(cfg, random), -1.0, 1.0)
  {
  }

  /** With noise disabled the random draw has no effect. */
  lemma AutoInputIgnoresRandomWithoutNoise(cfg: Config, st: State, sine: real -> real, r1: real, r2: real)
    requires !cfg.useEnvNoise
    ensures AutoInput(cfg, st, sine, r1) == AutoInput(cfg, st, sine, r2)
  {
  }

  /** A draw in `Math.random`'s range [0, 1) gives noise of magnitude at most `noiseLevel`. */
  lemma NoiseBounded(cfg: Config, random: real)
    requires 0.0 <= random < 1.0
    requires cfg.noiseLevel >= 0.0
    ensures Abs(Noise(cfg, random)) <= cfg.noiseLevel
  {
    if cfg.useEnvNoise {
      ScaledBound(cfg.noiseLevel, random * 2.0 - 1.0, 1.0);
      assert Noise(cfg, random) == cfg.noiseLevel * (random * 2.0 - 1.0);
    }
  }

  /** With a positive gain, the error term points from the balance toward the target. */
  lemma ControlPointsToTarget(cfg: Config, st: State)
    requires cfg.controlGain > 0.0
    ensures st.balance < st.targetBalance ==> Control(cfg, st) > 0.0
    ensures st.balance > st.targetBalance ==> Control(cfg, st) < 0.0
    ensures st.balance == st.targetBalance ==> Control(cfg, st) == 0.0
  {
    var e := (st.targetBalance - st.balance) / MaxB(cfg);
    if e > 0.0 { MulPositive(e, cfg.controlGain); }
    if e < 0.0 { MulPositive(-e, cfg.controlGain); }
  }

  /** The sinusoid mix has amplitude at most 0.45 + 0.25 when `sine` is bounded by 1. */
  lemma BaseSignalBounded(sine: real -> real, tick: nat)
    requires Abs(sine(tick as real / 32.0)) <= 1.0
    requires Abs(sine(tick as real / 11.0)) <= 1.0
    ensures Abs(BaseSignal(sine, tick)) <= 0.7
  {
  }
}
