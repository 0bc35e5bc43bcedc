/** The per-tick transition `step` (demo.js:367-458), written as the stages the
    source applies in order: freeze test, tick advance, input selection,
    deadband, input smoothing, velocity clamp and scaling, guardrail,
    commit, stable-tick accounting, recovery confirmation, stability average
    and the two telemetry buffers. */
module Engine {
  import opened Numeric
  import opened Model
  import opened Bands
  import opened Inputs
  import opened Telemetry

  /** The freeze test of demo.js:368: all three conditions are needed. */
  predicate Frozen(cfg: Config, st: State) {
    st.status == Status.Paused && !cfg.autoRestart && st.mode == Mode.Paused
  }

  /** Input source selection (demo.js:376-383); `st` already carries the new tick. */
  function RawInput(cfg: Config, st: State, sine: real -> real, random: real): real {
    if st.mode == Mode.Stabilising then RecoveryInput(cfg, st)
    else if cfg.inputMode == Manual then cfg.manualInput
    else AutoInput(cfg, st, sine, random)
  }

  /** The zero-input deadband of demo.js:385. */
  function Deadband(raw: real, deadband: real): real {
    if Abs(raw) < deadband then 0.0 else raw
  }

  /** The exponential smoothing update of demo.js:388. */
  function Smooth(alpha: real, prev: real, x: real): real {
    alpha * prev + (1.0 - alpha) * x
  }

  /** What one tick's input does to the motion: the new smoothed input, the
      applied (clamped and scaled) change, and the balance it would reach
      before the guardrail. */
  datatype Motion = Motion(lastInput: real, applied: real, projected: real)

  /** demo.js:385-394. The change is computed as `(balance + lastInput) - balance`,
      which over exact reals is `lastInput`. */
  function Move(cfg: Config, st: State, raw: real): Motion {
    var eff := Deadband(raw, cfg.zeroDeadband);
    var lastInput := Smooth(cfg.smoothingAlpha, st.lastInput, eff);
    var desired := st.balance + lastInput;
    var delta := Clamp(desired - st.balance, -cfg.maxAbsVelocity, cfg.maxAbsVelocity);
    var applied := cfg.velocityAlpha * delta;
    Motion(lastInput, applied, st.balance + applied)
  }

  /** The guardrail (demo.js:396-412) followed by the commit of the balance (demo.js:414). */
  function Guard(cfg: Config, st: State, newBalance: real): State {
    var maxB := MaxB(cfg);
    if Abs(newBalance) > maxB then
      var hit := st.(guardrailHits := st.guardrailHits + 1, balance := Clamp(newBalance, -maxB, maxB));
      if cfg.pauseOnViolation then
        var paused := hit.(pauses := hit.pauses + 1);
        if cfg.autoRestart then
          paused.(status := Status.Paused, mode := Mode.Stabilising, recoveryStableTicks := 0)
        else
          paused.(status := Status.Paused, mode := Mode.Paused)
      else hit
    else st.(balance := newBalance)
  }

  /** Whether the balance lies in the soft band. */
  predicate InSoftBand(st: State) {
    st.softMin <= st.balance && st.balance <= st.softMax
  }

  /** Stable-tick accounting (demo.js:417-421). */
  function CountStable(st: State): State {
    if st.status == Status.Active && InSoftBand(st) then st.(stableTicks := st.stableTicks + 1)
    else st
  }

  /** Whether the balance is within the restart threshold of the target. */
  predicate NearTarget(cfg: Config, st: State) {
    Abs(st.balance - st.targetBalance) <= cfg.restartThresholdFraction * MaxB(cfg)
  }

  /** Recovery confirmation (demo.js:423-434). */
  function Recover(cfg: Config, st: State): State {
    if st.mode == Mode.Stabilising then
      var counted := st.(recoveryStableTicks := if NearTarget(cfg, st) then st.recoveryStableTicks + 1 else 0);
      if counted.recoveryStableTicks as real >= cfg.restartConfirmTicks then
        counted.(status := Status.Active, mode := Mode.Active, recoveryStableTicks := 0)
      else counted
    else st
  }

  /** Instantaneous stability (demo.js:436-437): 1 on the target, falling
      linearly to 0 at one hard limit's distance. */
  function Stability(cfg: Config, st: State): (s: real)
    ensures 0.0 <= s <= 1.0
    ensures s == 1.0 <==> st.balance == st.targetBalance
    ensures s == 0.0 <==> Abs(st.balance - st.targetBalance) >= MaxB(cfg)
  {
    var dist := Abs(st.balance - st.targetBalance);
    var maxB := MaxB(cfg);
    assert (dist / maxB >= 1.0 <==> dist >= maxB) && (dist / maxB == 0.0 <==> dist == 0.0) by {
      DivCompare(dist, maxB);
    }
    1.0 - Min(1.0, dist / maxB)
  }

  /** The log line of demo.js:440-447, as the values it shows. */
  function EntryOf(st: State): LogEntry {
    LogEntry(st.tick, st.lastInput, st.balance, st.targetBalance, st.velocity, st.mode, st.status)
  }

  /** The telemetry appends of demo.js:449-457. */
  function Record(st: State): State {
    st.(history := PushHistory(st.history, EntryOf(st)), graphPoints := PushGraph(st.graphPoints, st.balance))
  }

  /** The state with the tick advanced, which every later stage of the step sees. */
  function Advance(st: State): State {
    st.(tick := st.tick + 1)
  }

  /** The raw input a step from `st` uses. */
  function StepInput(cfg: Config, st: State, sine: real -> real, random: real): real {
    RawInput(cfg, Advance(st), sine, random)
  }

  /** The motion a step from `st` computes. */
  function StepMotion(cfg: Config, st: State, sine: real -> real, random: real): Motion {
    Move(cfg, Advance(st), StepInput(cfg, st, sine, random))
  }

  /** Whether a step from `st` trips the guardrail. */
  predicate Trips(cfg: Config, st: State, sine: real -> real, random: real) {
    Abs(StepMotion(cfg, st, sine, random).projected) > MaxB(cfg)
  }

  /** The first half of a step (demo.js:373-415): advance the tick, select and
      filter the input, move, apply the guardrail and commit balance and velocity. */
  function Commit(cfg: Config, st: State, sine: real -> real, random: real): State {
    var m := StepMotion(cfg, st, sine, random);
    Guard(cfg, Advance(st).(lastInput := m.lastInput), m.projected).(velocity := m.applied)
  }

  /** The exponential moving average of the stability (demo.js:438). */
  function Average(cfg: Config, st: State): State {
    st.(avgStability := 0.97 * st.avgStability + 0.03 * Stability(cfg, st))
  }

  /** The second half of a step (demo.js:417-457): bookkeeping on the committed state. */
  function Settle(cfg: Config, st: State): State {
    Record(Average(cfg, Recover(cfg, CountStable(st))))
  }

  /** `step`: one tick of the regulator. */
  function Step(cfg: Config, st: State, sine: real -> real, random: real): (r: State)
    ensures Frozen(cfg, st) ==> r == st
  {
    if Frozen(cfg, st) then st
    else Settle(cfg, Commit(cfg, st, sine, random))
  }
}
