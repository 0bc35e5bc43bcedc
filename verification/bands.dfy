/** Band geometry (`updateTargetAndBands`, demo.js:67-96): the target balance
    and the soft operating band, shifted rather than shrunk to fit inside the
    hard limits `[-maxB, maxB]`. */
module Bands {
  import opened Numeric
  import opened Model

  /** `Math.abs(config.maxAbsBalance) || 1.0`: a zero limit reads as 1. */
  function MaxB(cfg: Config): (m: real)
    ensures m > 0.0
    ensures cfg.maxAbsBalance != 0.0 ==> m == Abs(cfg.maxAbsBalance)
    ensures cfg.maxAbsBalance == 0.0 ==> m == 1.0
  {
    if Abs(cfg.maxAbsBalance) == 0.0 then 1.0 else Abs(cfg.maxAbsBalance)
  }

  /** The wider of the two configured band widths, each fraction floored at 0. */
  function Width(cfg: Config): real {
    var maxB := MaxB(cfg);
    Max(maxB * Max(0.0, cfg.softBandMinFraction), maxB * Max(0.0, cfg.softBandPrefFraction))
  }

  /** The width is the hard limit times the largest of 0 and the two fractions. */
  lemma WidthIsWidestFraction(cfg: Config)
    ensures Width(cfg) == MaxB(cfg) * Max(0.0, Max(cfg.softBandMinFraction, cfg.softBandPrefFraction))
    ensures Width(cfg) >= 0.0
  {
    var m := MaxB(cfg);
    var a, b := Max(0.0, cfg.softBandMinFraction), Max(0.0, cfg.softBandPrefFraction);
    assert Width(cfg) == Max(m * a, m * b);
    MulNonneg(m, a);
    MulNonneg(m, b);
    if a <= b {
      MulMonotone(m, a, b);
      assert Max(0.0, Max(cfg.softBandMinFraction, cfg.softBandPrefFraction)) == b;
      assert Width(cfg) == m * b;
    } else {
      MulMonotone(m, b, a);
      assert Max(0.0, Max(cfg.softBandMinFraction, cfg.softBandPrefFraction)) == a;
      assert Width(cfg) == m * a;
    }
  }

  datatype Band = Band(target: real, softMin: real, softMax: real)

  /** The target: the relative target clamped to [-1, 1], scaled by the limit. */
  function Target(cfg: Config): (t: real)
    ensures -MaxB(cfg) <= t <= MaxB(cfg)
    ensures -1.0 <= cfg.targetRelative <= 1.0 ==> t == cfg.targetRelative * MaxB(cfg)
    ensures cfg.targetRelative < -1.0 ==> t == -MaxB(cfg)
    ensures cfg.targetRelative > 1.0 ==> t == MaxB(cfg)
  {
    var c, m := Clamp(cfg.targetRelative, -1.0, 1.0), MaxB(cfg);
    MulNonneg(c + 1.0, m);
    MulNonneg(1.0 - c, m);
    c * m
  }

  /** The band of half-width `half` centred on `t`, shifted up if its lower
      edge is below `-maxB`, then shifted down if its upper edge is above
      `maxB`, then cut to the hard limits (demo.js:75-92). */
  function Place(t: real, half: real, maxB: real): (b: Band)
    ensures b.target == t
    ensures 0.0 <= half && -maxB <= t <= maxB ==> -maxB <= b.softMin <= b.softMax <= maxB
  {
    var lo0, hi0 := t - half, t + half;
    var (lo1, hi1) := if lo0 < -maxB then (lo0 + (-maxB - lo0), hi0 + (-maxB - lo0)) else (lo0, hi0);
    var (lo2, hi2) := if hi1 > maxB then (lo1 - (hi1 - maxB), hi1 - (hi1 - maxB)) else (lo1, hi1);
    Band(t, Max(lo2, -maxB), Min(hi2, maxB))
  }

  /** The band `updateTargetAndBands` computes for a configuration. */
  function ComputeBand(cfg: Config): (b: Band)
    ensures b.target == Target(cfg)
    ensures -MaxB(cfg) <= b.softMin <= b.softMax <= MaxB(cfg)
  {
    assert Width(cfg) >= 0.0 by { WidthIsWidestFraction(cfg); }
    Place(Target(cfg), Width(cfg) / 2.0, MaxB(cfg))
  }

  /** When the band fits (`width <= 2 * maxB`) it keeps exactly its configured
      width and still contains the target: the shifts move both edges by the
      same amount and the final cut removes nothing. */
  lemma BandKeepsWidth(cfg: Config)
    requires Width(cfg) <= 2.0 * MaxB(cfg)
    ensures ComputeBand(cfg).softMax - ComputeBand(cfg).softMin == Width(cfg)
    ensures ComputeBand(cfg).softMin <= Target(cfg) <= ComputeBand(cfg).softMax
  {
    WidthIsWidestFraction(cfg);
  }

  /** With room on both sides the band is left centred on the target. */
  lemma PlaceCentredWithRoom(t: real, half: real, maxB: real)
    requires -maxB <= t - half && t + half <= maxB
    ensures Place(t, half, maxB).softMin == t - half
    ensures Place(t, half, maxB).softMax == t + half
  {
  }

  /** A band wider than the hard range covers the hard range exactly. */
  lemma BandSaturates(cfg: Config)
    requires Width(cfg) > 2.0 * MaxB(cfg)
    ensures ComputeBand(cfg).softMin == -MaxB(cfg)
    ensures ComputeBand(cfg).softMax == MaxB(cfg)
  {
  }

  /** `updateTargetAndBands` writes the three band fields of the state and
      nothing else. */
  function UpdateTargetAndBands(cfg: Config, st: State): (r: State)
    ensures r.targetBalance == Target(cfg)
    ensures r.softMin == ComputeBand(cfg).softMin && r.softMax == ComputeBand(cfg).softMax
    ensures -MaxB(cfg) <= r.softMin <= r.softMax <= MaxB(cfg)
    ensures -MaxB(cfg) <= r.targetBalance <= MaxB(cfg)
    ensures r.(targetBalance := st.targetBalance, softMin := st.softMin, softMax := st.softMax) == st
  {
    var b := ComputeBand(cfg);
    st.(targetBalance := b.target, softMin := b.softMin, softMax := b.softMax)
  }

  /** A later recomputation overwrites an earlier one completely: only the
      last configuration the bands were computed for matters. */
  lemma UpdateOverwrites(c1: Config, c2: Config, st: State)
    ensures UpdateTargetAndBands(c2, UpdateTargetAndBands(c1, st)) == UpdateTargetAndBands(c2, st)
  {
  }

  /** The start-up state: the state literal with its bands computed (demo.js:98). */
  function Initial(cfg: Config): (r: State)
    ensures r.tick == 0 && r.balance == 0.0 && r.velocity == 0.0 && r.lastInput == 0.0
    ensures r.avgStability == 1.0
    ensures r.status == Status.Active && r.mode == Mode.Active
    ensures r.guardrailHits == 0 && r.pauses == 0 && r.stableTicks == 0 && r.recoveryStableTicks == 0
    ensures r.history == [] && r.graphPoints == []
    ensures r.targetBalance == Target(cfg)
    ensures r.softMin == ComputeBand(cfg).softMin && r.softMax == ComputeBand(cfg).softMax
    ensures -MaxB(cfg) <= r.softMin <= r.softMax <= MaxB(cfg)
  {
    UpdateTargetAndBands(cfg, InitialState)
  }
}
