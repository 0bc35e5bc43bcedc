/** What one call of `step` guarantees, stated against its inputs. */
module StepFacts {
  import opened Numeric
  import opened Model
  import opened Bands
  import opened Inputs
  import opened Telemetry
  import opened Engine

  /** The first half of a step, stage by stage: the tick advances, the
      smoothed input and velocity are the motion's, the guardrail clamps,
      counts and pauses, and nothing else moves (demo.js:373-415). */
  lemma CommitFacts(cfg: Config, st: State, sine: real -> real, random: real)
    ensures var c := Commit(cfg, st, sine, random);
            var m := StepMotion(cfg, st, sine, random);
            && c.tick == st.tick + 1
            && c.lastInput == m.lastInput
            && c.velocity == m.applied
            && c.targetBalance == st.targetBalance && c.softMin == st.softMin && c.softMax == st.softMax
            && c.stableTicks == st.stableTicks && c.avgStability == st.avgStability
            && c.history == st.history && c.graphPoints == st.graphPoints
            && Abs(c.balance) <= MaxB(cfg)
            && (!Trips(cfg, st, sine, random) ==> c.balance == m.projected)
            && (Trips(cfg, st, sine, random) ==> c.balance == Clamp(m.projected, -MaxB(cfg), MaxB(cfg)))
            && c.guardrailHits == st.guardrailHits + (if Trips(cfg, st, sine, random) then 1 else 0)
            && c.pauses == st.pauses + (if Trips(cfg, st, sine, random) && cfg.pauseOnViolation then 1 else 0)
    ensures var c := Commit(cfg, st, sine, random);
            Trips(cfg, st, sine, random) && cfg.pauseOnViolation && cfg.autoRestart ==>
              c.status == Status.Paused && c.mode == Mode.Stabilising && c.recoveryStableTicks == 0
    ensures var c := Commit(cfg, st, sine, random);
            Trips(cfg, st, sine, random) && cfg.pauseOnViolation && !cfg.autoRestart ==>
              c.status == Status.Paused && c.mode == Mode.Paused && c.recoveryStableTicks == st.recoveryStableTicks
    ensures var c := Commit(cfg, st, sine, random);
            !(Trips(cfg, st, sine, random) && cfg.pauseOnViolation) ==>
              c.status == st.status && c.mode == st.mode && c.recoveryStableTicks == st.recoveryStableTicks
  {
    var m := StepMotion(cfg, st, sine, random);
    var a := Advance(st).(lastInput := m.lastInput);
    var g := Guard(cfg, a, m.projected);
    assert Commit(cfg, st, sine, random) == g.(velocity := m.applied);
    assert Trips(cfg, st, sine, random) <==> Abs(m.projected) > MaxB(cfg);
  }

  /** The guardrail and balance commit (demo.js:396-414): a projected balance
      inside the hard limits is committed as it is; one outside is clamped,
      counted as a hit and, under `pauseOnViolation`, counted as a pause that
      sets the flags according to `autoRestart`. */
  lemma GuardFacts(cfg: Config, st: State, nb: real)
    ensures Abs(Guard(cfg, st, nb).balance) <= MaxB(cfg)
    ensures Abs(nb) <= MaxB(cfg) ==> Guard(cfg, st, nb) == st.(balance := nb)
    ensures var g := Guard(cfg, st, nb);
            Abs(nb) > MaxB(cfg) ==>
              && g.balance == Clamp(nb, -MaxB(cfg), MaxB(cfg))
              && g.guardrailHits == st.guardrailHits + 1
              && g.pauses == st.pauses + (if cfg.pauseOnViolation then 1 else 0)
              && (!cfg.pauseOnViolation ==> g.status == st.status && g.mode == st.mode)
              && (cfg.pauseOnViolation && cfg.autoRestart ==>
                    g.status == Status.Paused && g.mode == Mode.Stabilising && g.recoveryStableTicks == 0)
              && (cfg.pauseOnViolation && !cfg.autoRestart ==>
                    g.status == Status.Paused && g.mode == Mode.Paused && g.recoveryStableTicks == st.recoveryStableTicks)
    ensures var g := Guard(cfg, st, nb);
            g.(balance := st.balance, guardrailHits := st.guardrailHits, pauses := st.pauses,
               status := st.status, mode := st.mode, recoveryStableTicks := st.recoveryStableTicks) == st
  {
  }

  /** Stable-tick accounting touches only `stableTicks`. A helper for
      `SettleFacts`; the step-level statement is `StepStableTicks`. */
  lemma CountStableFacts(g: State)
    ensures CountStable(g) == g.(stableTicks := g.stableTicks + (if g.status == Status.Active && InSoftBand(g) then 1 else 0))
  {
  }

  /** The recovery check touches only the flags and the recovery counter. A
      helper for `SettleFacts`; the step-level statements are `StepRecovery`
      and `StepTripStabilises`. */
  lemma RecoverFacts(cfg: Config, c: State)
    ensures var rec := Recover(cfg, c);
            rec == c.(status := rec.status, mode := rec.mode, recoveryStableTicks := rec.recoveryStableTicks)
    ensures var rec := Recover(cfg, c);
            c.mode != Mode.Stabilising ==> rec == c
    ensures var rec := Recover(cfg, c);
            var count: nat := if NearTarget(cfg, c) then c.recoveryStableTicks + 1 else 0;
            c.mode == Mode.Stabilising ==>
              if count as real >= cfg.restartConfirmTicks then
                rec.status == Status.Active && rec.mode == Mode.Active && rec.recoveryStableTicks == 0
              else
                rec.status == c.status && rec.mode == Mode.Stabilising && rec.recoveryStableTicks == count
  {
  }

  /** The second half of a step, stage by stage (demo.js:417-457): it keeps the
      committed motion and counters, counts a stable tick, runs the recovery
      check, averages the stability and appends to both buffers. */
  lemma SettleFacts(cfg: Config, g: State)
    ensures var r := Settle(cfg, g);
            && r.tick == g.tick && r.balance == g.balance && r.velocity == g.velocity
            && r.lastInput == g.lastInput
            && r.guardrailHits == g.guardrailHits && r.pauses == g.pauses
            && r.targetBalance == g.targetBalance && r.softMin == g.softMin && r.softMax == g.softMax
            && r.stableTicks == g.stableTicks + (if g.status == Status.Active && InSoftBand(g) then 1 else 0)
            && r.avgStability == 0.97 * g.avgStability + 0.03 * Stability(cfg, g)
            && r.history == PushHistory(g.history, EntryOf(r))
            && r.graphPoints == PushGraph(g.graphPoints, g.balance)
    ensures var r := Settle(cfg, g);
            g.mode != Mode.Stabilising ==>
              r.status == g.status && r.mode == g.mode && r.recoveryStableTicks == g.recoveryStableTicks
    ensures var r := Settle(cfg, g);
            var count: nat := if NearTarget(cfg, g) then g.recoveryStableTicks + 1 else 0;
            g.mode == Mode.Stabilising ==>
              if count as real >= cfg.restartConfirmTicks then
                r.status == Status.Active && r.mode == Mode.Active && r.recoveryStableTicks == 0
              else
                r.status == g.status && r.mode == Mode.Stabilising && r.recoveryStableTicks == count
  {
    var c := CountStable(g);
    CountStableFacts(g);
    var rec := Recover(cfg, c);
    RecoverFacts(cfg, c);
    assert NearTarget(cfg, c) == NearTarget(cfg, g) by {
      assert c.balance == g.balance && c.targetBalance == g.targetBalance;
    }
    assert Stability(cfg, rec) == Stability(cfg, g) by {
      assert rec.balance == g.balance && rec.targetBalance == g.targetBalance;
    }
    var av := rec.(avgStability := 0.97 * rec.avgStability + 0.03 * Stability(cfg, rec));
    assert Average(cfg, rec) == av;
    var r := av.(history := PushHistory(av.history, EntryOf(av)), graphPoints := PushGraph(av.graphPoints, av.balance));
    assert Record(av) == r;
    assert Settle(cfg, g) == r;
    assert EntryOf(r) == EntryOf(av);
  }

  /** A step from an unfrozen state is the two halves in sequence. */
  lemma StepHalves(cfg: Config, st: State, sine: real -> real, random: real)
    requires !Frozen(cfg, st)
    ensures Step(cfg, st, sine, random) == Settle(cfg, Commit(cfg, st, sine, random))
  {
  }

  /** The motion of a step: deadband, exponential smoothing, velocity clamp
      and scaling (demo.js:385-394). */
  lemma MotionFacts(cfg: Config, st: State, sine: real -> real, random: real)
    ensures var m := StepMotion(cfg, st, sine, random);
            && m.lastInput == Smooth(cfg.smoothingAlpha, st.lastInput, Deadband(StepInput(cfg, st, sine, random), cfg.zeroDeadband))
            && m.applied == cfg.velocityAlpha * Clamp(m.lastInput, -cfg.maxAbsVelocity, cfg.maxAbsVelocity)
            && m.projected == st.balance + m.applied
  {
    var a := Advance(st);
    assert a.lastInput == st.lastInput && a.balance == st.balance;
    var raw := StepInput(cfg, st, sine, random);
    assert StepMotion(cfg, st, sine, random) == Move(cfg, a, raw);
    var li := Smooth(cfg.smoothingAlpha, st.lastInput, Deadband(raw, cfg.zeroDeadband));
    assert (st.balance + li) - st.balance == li;
  }

  /** An unfrozen step records its motion's smoothed input and velocity. */
  lemma StepRecordsMotion(cfg: Config, st: State, sine: real -> real, random: real)
    requires !Frozen(cfg, st)
    ensures Step(cfg, st, sine, random).lastInput == StepMotion(cfg, st, sine, random).lastInput
    ensures Step(cfg, st, sine, random).velocity == StepMotion(cfg, st, sine, random).applied
  {
    StepHalves(cfg, st, sine, random);
    CommitFacts(cfg, st, sine, random);
    SettleFacts(cfg, Commit(cfg, st, sine, random));
  }

  /** The smoothed input of a step's motion (demo.js:385-388): one clause of
      `MotionFacts`, kept separate so that callers need not carry the others
      into their arithmetic. */
  lemma MotionSmoothed(cfg: Config, st: State, sine: real -> real, random: real)
    ensures StepMotion(cfg, st, sine, random).lastInput ==
              Smooth(cfg.smoothingAlpha, st.lastInput, Deadband(StepInput(cfg, st, sine, random), cfg.zeroDeadband))
  {
    MotionFacts(cfg, st, sine, random);
  }

  /** The applied change is the smoothed input clamped to the velocity limit
      and scaled by `velocityAlpha` (demo.js:390-393): one clause of
      `MotionFacts`, kept separate for the same reason as `MotionSmoothed`. */
  lemma MotionApplied(cfg: Config, st: State, sine: real -> real, random: real)
    ensures var m := StepMotion(cfg, st, sine, random);
            m.applied == cfg.velocityAlpha * Clamp(m.lastInput, -cfg.maxAbsVelocity, cfg.maxAbsVelocity)
  {
    MotionFacts(cfg, st, sine, random);
  }

  /** A step changes nothing at all exactly when it is frozen; otherwise the
      tick rises by one (demo.js:368-373). */
  lemma FreezeExactly(cfg: Config, st: State, sine: real -> real, random: real)
    ensures Frozen(cfg, st) ==> Step(cfg, st, sine, random) == st
    ensures Step(cfg, st, sine, random).tick == st.tick <==> Frozen(cfg, st)
    ensures !Frozen(cfg, st) ==> Step(cfg, st, sine, random).tick == st.tick + 1
  {
    if !Frozen(cfg, st) {
      StepHalves(cfg, st, sine, random);
      CommitFacts(cfg, st, sine, random);
      SettleFacts(cfg, Commit(cfg, st, sine, random));
    }
  }

  /** A step never touches the band geometry; only `updateTargetAndBands` writes it. */
  lemma StepKeepsBands(cfg: Config, st: State, sine: real -> real, random: real)
    ensures Step(cfg, st, sine, random).targetBalance == st.targetBalance
    ensures Step(cfg, st, sine, random).softMin == st.softMin
    ensures Step(cfg, st, sine, random).softMax == st.softMax
  {
    if !Frozen(cfg, st) {
      StepHalves(cfg, st, sine, random);
      CommitFacts(cfg, st, sine, random);
      SettleFacts(cfg, Commit(cfg, st, sine, random));
    }
  }

  /** Input selection at a step: the recovery controller in STABILISING, the
      manual value passed through unclamped, otherwise the automatic signal,
      which sees the already advanced tick (demo.js:373-383). */
  lemma StepInputSelection(cfg: Config, st: State, sine: real -> real, random: real)
    ensures st.mode == Mode.Stabilising ==> StepInput(cfg, st, sine, random) == RecoveryInput(cfg, st)
    ensures st.mode != Mode.Stabilising && cfg.inputMode == Manual ==>
              StepInput(cfg, st, sine, random) == cfg.manualInput
    ensures st.mode != Mode.Stabilising && cfg.inputMode == Auto ==>
              StepInput(cfg, st, sine, random) == AutoInput(cfg, st.(tick := st.tick + 1), sine, random)
    ensures st.mode == Mode.Stabilising || cfg.inputMode == Auto ==>
              -1.0 <= StepInput(cfg, st, sine, random) <= 1.0
  {
    var a := Advance(st);
    assert RecoveryDemand(cfg, a) == RecoveryDemand(cfg, st) by {
      assert a.balance == st.balance && a.targetBalance == st.targetBalance;
    }
    assert RecoveryInput(cfg, a) == Clamp(RecoveryDemand(cfg, a), -1.0, 1.0);
    assert RecoveryInput(cfg, st) == Clamp(RecoveryDemand(cfg, st), -1.0, 1.0);
  }

  /** Deadband and exponential smoothing (demo.js:385-388): the step records
      the smoothed, deadbanded input as its new `lastInput`. */
  lemma StepSmoothing(cfg: Config, st: State, sine: real -> real, random: real)
    requires !Frozen(cfg, st)
    ensures Step(cfg, st, sine, random).lastInput ==
              Smooth(cfg.smoothingAlpha, st.lastInput, Deadband(StepInput(cfg, st, sine, random), cfg.zeroDeadband))
  {
    StepRecordsMotion(cfg, st, sine, random);
    MotionSmoothed(cfg, st, sine, random);
  }

  /** An input below the deadband acts as exactly 0, so the smoothed input
      only decays; at or above it the raw input is smoothed in unchanged. */
  lemma DeadbandSmoothing(alpha: real, prev: real, raw: real, deadband: real)
    ensures Abs(raw) < deadband ==> Smooth(alpha, prev, Deadband(raw, deadband)) == alpha * prev
    ensures Abs(raw) >= deadband ==> Smooth(alpha, prev, Deadband(raw, deadband)) == Smooth(alpha, prev, raw)
  {
    if Abs(raw) < deadband {
      assert Deadband(raw, deadband) == 0.0;
      assert (1.0 - alpha) * 0.0 == 0.0;
    }
  }

  /** The recorded velocity never exceeds `|velocityAlpha| * maxAbsVelocity`
      in magnitude, whatever the input (demo.js:390-393, 415). */
  lemma StepVelocityBound(cfg: Config, st: State, sine: real -> real, random: real)
    requires !Frozen(cfg, st)
    requires cfg.maxAbsVelocity >= 0.0
    ensures Abs(Step(cfg, st, sine, random).velocity) <= Abs(cfg.velocityAlpha) * cfg.maxAbsVelocity
  {
    MotionApplied(cfg, st, sine, random);
    VelocityBounded(cfg, StepMotion(cfg, st, sine, random));
    StepRecordsMotion(cfg, st, sine, random);
  }

  /** A change computed by clamping to the velocity limit and scaling by
      `velocityAlpha` is at most `|velocityAlpha| * maxAbsVelocity` in magnitude. */
  lemma VelocityBounded(cfg: Config, m: Motion)
    requires m.applied == cfg.velocityAlpha * Clamp(m.lastInput, -cfg.maxAbsVelocity, cfg.maxAbsVelocity)
    requires cfg.maxAbsVelocity >= 0.0
    ensures Abs(m.applied) <= Abs(cfg.velocityAlpha) * cfg.maxAbsVelocity
  {
    ScaledClampBound(cfg.velocityAlpha, m.lastInput, cfg.maxAbsVelocity);
  }

  /** A symmetric clamp to `m` scaled by `k` has magnitude at most `|k| * m`. */
  lemma ScaledClampBound(k: real, x: real, m: real)
    requires m >= 0.0
    ensures Abs(k * Clamp(x, -m, m)) <= Abs(k) * m
  {
    ClampSymmetricBound(x, m);
    ScaledBound(k, Clamp(x, -m, m), m);
  }

  /** Balance containment, whatever `pauseOnViolation` says: without a trip the
      balance moves by exactly the recorded velocity, with one it is pinned to
      the limit it crossed (demo.js:394-398, 414). */
  lemma StepBalance(cfg: Config, st: State, sine: real -> real, random: real)
    requires !Frozen(cfg, st)
    ensures Abs(Step(cfg, st, sine, random).balance) <= MaxB(cfg)
    ensures !Trips(cfg, st, sine, random) ==>
              Step(cfg, st, sine, random).balance == st.balance + Step(cfg, st, sine, random).velocity
    ensures Trips(cfg, st, sine, random) && st.balance + Step(cfg, st, sine, random).velocity > 0.0 ==>
              Step(cfg, st, sine, random).balance == MaxB(cfg)
    ensures Trips(cfg, st, sine, random) && st.balance + Step(cfg, st, sine, random).velocity < 0.0 ==>
              Step(cfg, st, sine, random).balance == -MaxB(cfg)
  {
    StepHalves(cfg, st, sine, random);
    CommitFacts(cfg, st, sine, random);
    SettleFacts(cfg, Commit(cfg, st, sine, random));
    MotionFacts(cfg, st, sine, random);
  }

  /** Lifetime counters (demo.js:396-401): a trip adds exactly one guardrail
      hit, and one pause only under `pauseOnViolation`; without a trip neither moves. */
  lemma StepCounters(cfg: Config, st: State, sine: real -> real, random: real)
    requires !Frozen(cfg, st)
    ensures Step(cfg, st, sine, random).guardrailHits ==
              st.guardrailHits + (if Trips(cfg, st, sine, random) then 1 else 0)
    ensures Step(cfg, st, sine, random).pauses ==
              st.pauses + (if Trips(cfg, st, sine, random) && cfg.pauseOnViolation then 1 else 0)
  {
    StepHalves(cfg, st, sine, random);
    CommitFacts(cfg, st, sine, random);
    SettleFacts(cfg, Commit(cfg, st, sine, random));
  }

  /** A pausing trip without auto-restart parks the machine at (PAUSED, PAUSED)
      (demo.js:407-410). */
  lemma StepTripHalts(cfg: Config, st: State, sine: real -> real, random: real)
    requires !Frozen(cfg, st)
    requires Trips(cfg, st, sine, random) && cfg.pauseOnViolation && !cfg.autoRestart
    ensures Step(cfg, st, sine, random).status == Status.Paused
    ensures Step(cfg, st, sine, random).mode == Mode.Paused
    ensures Step(cfg, st, sine, random).recoveryStableTicks == st.recoveryStableTicks
  {
    StepHalves(cfg, st, sine, random);
    CommitFacts(cfg, st, sine, random);
    SettleFacts(cfg, Commit(cfg, st, sine, random));
  }

  /** A pausing trip with auto-restart enters STABILISING with a zero counter
      (demo.js:403-406); the recovery check of the same tick then counts the
      clamped balance at once, and may already confirm (demo.js:423-434). */
  lemma StepTripStabilises(cfg: Config, st: State, sine: real -> real, random: real)
    requires !Frozen(cfg, st)
    requires Trips(cfg, st, sine, random) && cfg.pauseOnViolation && cfg.autoRestart
    ensures var r := Step(cfg, st, sine, random);
            var count: nat := if NearTarget(cfg, r) then 1 else 0;
            if count as real >= cfg.restartConfirmTicks then
              r.status == Status.Active && r.mode == Mode.Active && r.recoveryStableTicks == 0
            else
              r.status == Status.Paused && r.mode == Mode.Stabilising && r.recoveryStableTicks == count
  {
    StepHalves(cfg, st, sine, random);
    CommitFacts(cfg, st, sine, random);
    SettleFacts(cfg, Commit(cfg, st, sine, random));
    var c := Commit(cfg, st, sine, random);
    var r := Step(cfg, st, sine, random);
    assert NearTarget(cfg, r) == NearTarget(cfg, c) by {
      assert r.balance == c.balance && r.targetBalance == c.targetBalance;
    }
  }

  /** Recovery counting in STABILISING without a pausing trip (demo.js:423-434):
      the counter grows on each tick near the target and resets otherwise, and
      reaching `restartConfirmTicks` returns the flags to (ACTIVE, ACTIVE). */
  lemma StepRecovery(cfg: Config, st: State, sine: real -> real, random: real)
    requires !Frozen(cfg, st)
    requires st.mode == Mode.Stabilising
    requires !(Trips(cfg, st, sine, random) && cfg.pauseOnViolation)
    ensures var r := Step(cfg, st, sine, random);
            var count: nat := if NearTarget(cfg, r) then st.recoveryStableTicks + 1 else 0;
            if count as real >= cfg.restartConfirmTicks then
              r.status == Status.Active && r.mode == Mode.Active && r.recoveryStableTicks == 0
            else
              r.status == st.status && r.mode == Mode.Stabilising && r.recoveryStableTicks == count
  {
    StepHalves(cfg, st, sine, random);
    CommitFacts(cfg, st, sine, random);
    SettleFacts(cfg, Commit(cfg, st, sine, random));
    var c := Commit(cfg, st, sine, random);
    var r := Step(cfg, st, sine, random);
    assert NearTarget(cfg, r) == NearTarget(cfg, c) by {
      assert r.balance == c.balance && r.targetBalance == c.targetBalance;
    }
  }

  /** Outside STABILISING and without a pausing trip the flags and the recovery
      counter are left alone. */
  lemma StepFlagsKept(cfg: Config, st: State, sine: real -> real, random: real)
    requires !Frozen(cfg, st)
    requires st.mode != Mode.Stabilising
    ensures !(Trips(cfg, st, sine, random) && cfg.pauseOnViolation) ==>
              var r := Step(cfg, st, sine, random);
              r.status == st.status && r.mode == st.mode && r.recoveryStableTicks == st.recoveryStableTicks
  {
    StepHalves(cfg, st, sine, random);
    CommitFacts(cfg, st, sine, random);
    SettleFacts(cfg, Commit(cfg, st, sine, random));
  }

  /** `stableTicks` grows by one exactly when the status is still ACTIVE after
      the guardrail and the committed balance lies in the soft band
      (demo.js:417-421); otherwise it is unchanged. */
  lemma StepStableTicks(cfg: Config, st: State, sine: real -> real, random: real)
    requires !Frozen(cfg, st)
    ensures var r := Step(cfg, st, sine, random);
            var counts := st.status == Status.Active && !(Trips(cfg, st, sine, random) && cfg.pauseOnViolation)
                          && st.softMin <= r.balance <= st.softMax;
            r.stableTicks == st.stableTicks + (if counts then 1 else 0)
  {
    StepHalves(cfg, st, sine, random);
    CommitFacts(cfg, st, sine, random);
    SettleFacts(cfg, Commit(cfg, st, sine, random));
  }

  /** The stability score is an exponential moving average of a value in
      [0, 1], so it stays in [0, 1] (demo.js:436-438). */
  lemma StepStability(cfg: Config, st: State, sine: real -> real, random: real)
    requires !Frozen(cfg, st)
    requires 0.0 <= st.avgStability <= 1.0
    ensures 0.0 <= Step(cfg, st, sine, random).avgStability <= 1.0
    ensures var r := Step(cfg, st, sine, random);
            r.balance == r.targetBalance ==> r.avgStability == 0.97 * st.avgStability + 0.03
    ensures var r := Step(cfg, st, sine, random);
            Abs(r.balance - r.targetBalance) >= MaxB(cfg) ==> r.avgStability == 0.97 * st.avgStability
  {
    StepHalves(cfg, st, sine, random);
    CommitFacts(cfg, st, sine, random);
    SettleFacts(cfg, Commit(cfg, st, sine, random));
    var c := Commit(cfg, st, sine, random);
    var r := Step(cfg, st, sine, random);
    assert r.balance == c.balance && r.targetBalance == c.targetBalance;
  }

  /** Each step appends its own log line, keeping the newest `MaxHistory`
      lines (demo.js:440-452). */
  lemma StepHistory(cfg: Config, st: State, sine: real -> real, random: real)
    requires !Frozen(cfg, st)
    ensures var r := Step(cfg, st, sine, random);
            r.history == KeepNewest(st.history + [EntryOf(r)], MaxHistory)
    ensures |Step(cfg, st, sine, random).history| <= MaxHistory
  {
    StepHalves(cfg, st, sine, random);
    CommitFacts(cfg, st, sine, random);
    SettleFacts(cfg, Commit(cfg, st, sine, random));
  }

  /** Each step appends its balance sample; on a series within capacity this
      keeps the newest `MaxGraphPoints` samples (demo.js:454-457). */
  lemma StepGraph(cfg: Config, st: State, sine: real -> real, random: real)
    requires !Frozen(cfg, st)
    requires |st.graphPoints| <= MaxGraphPoints
    ensures var r := Step(cfg, st, sine, random);
            r.graphPoints == KeepNewest(st.graphPoints + [r.balance], MaxGraphPoints)
    ensures |Step(cfg, st, sine, random).graphPoints| <= MaxGraphPoints
  {
    StepHalves(cfg, st, sine, random);
    CommitFacts(cfg, st, sine, random);
    SettleFacts(cfg, Commit(cfg, st, sine, random));
    PushGraphKeepsNewest(st.graphPoints, Commit(cfg, st, sine, random).balance);
  }

  /** Only (ACTIVE, ACTIVE), (PAUSED, STABILISING) and (PAUSED, PAUSED) occur:
      every step keeps the flag pair among them. */
  lemma StepKeepsFlagsReachable(cfg: Config, st: State, sine: real -> real, random: real)
    requires FlagsReachable(st)
    ensures FlagsReachable(Step(cfg, st, sine, random))
  {
    if !Frozen(cfg, st) {
      StepHalves(cfg, st, sine, random);
      CommitFacts(cfg, st, sine, random);
      SettleFacts(cfg, Commit(cfg, st, sine, random));
    }
  }

  /** Leaving (PAUSED, PAUSED) once `autoRestart` is set: the step runs, the
      pair stays put unless a pausing trip occurs, and such a trip passes
      through STABILISING (demo.js:368, 403-406). */
  lemma LeavingHalt(cfg: Config, st: State, sine: real -> real, random: real)
    requires st.status == Status.Paused && st.mode == Mode.Paused
    requires cfg.autoRestart
    ensures !Frozen(cfg, st)
    ensures !(Trips(cfg, st, sine, random) && cfg.pauseOnViolation) ==>
              Step(cfg, st, sine, random).status == Status.Paused &&
              Step(cfg, st, sine, random).mode == Mode.Paused
    ensures Trips(cfg, st, sine, random) && cfg.pauseOnViolation ==>
              Step(cfg, st, sine, random).mode != Mode.Paused
  {
    if Trips(cfg, st, sine, random) && cfg.pauseOnViolation {
      StepTripStabilises(cfg, st, sine, random);
    }
  }

  /** The manual ramp: full manual input with no smoothing, unit velocity
      scaling and a 0.1 velocity limit moves the balance up by exactly 0.1 per
      tick; the tick that would cross the limit trips the guardrail and pins
      the balance there (demo.js:379-398). */
  lemma StepManualRamp(cfg: Config, st: State, sine: real -> real, random: real)
    requires !Frozen(cfg, st) && st.mode != Mode.Stabilising
    requires cfg.inputMode == Manual && cfg.manualInput == 1.0 && cfg.zeroDeadband <= 1.0
    requires cfg.smoothingAlpha == 0.0 && cfg.velocityAlpha == 1.0 && cfg.maxAbsVelocity == 0.1
    requires Abs(st.balance) <= MaxB(cfg)
    ensures st.balance + 0.1 <= MaxB(cfg) ==>
              Step(cfg, st, sine, random).balance == st.balance + 0.1 &&
              Step(cfg, st, sine, random).guardrailHits == st.guardrailHits
    ensures st.balance + 0.1 > MaxB(cfg) ==>
              Step(cfg, st, sine, random).balance == MaxB(cfg) &&
              Step(cfg, st, sine, random).guardrailHits == st.guardrailHits + 1
  {
    StepInputSelection(cfg, st, sine, random);
    MotionFacts(cfg, st, sine, random);
    var m := StepMotion(cfg, st, sine, random);
    assert Deadband(1.0, cfg.zeroDeadband) == 1.0;
    assert m.lastInput == 1.0;
    assert m.applied == 0.1;
    StepRecordsMotion(cfg, st, sine, random);
    StepBalance(cfg, st, sine, random);
    StepCounters(cfg, st, sine, random);
  }
}
