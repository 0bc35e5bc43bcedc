/** Repeated ticks (the `setInterval(step, 80)` loop, demo.js:647, with the
    timer replaced by a sequence of per-tick random draws) and the invariants
    every reachable state keeps. */
module Simulation {
  import opened Numeric
  import opened Model
  import opened Bands
  import opened Inputs
  import opened Telemetry
  import opened Engine
  import opened StepFacts
  import opened Presets

  /** The band fields hold what `updateTargetAndBands` computes for `cfg`. */
  predicate BandsFor(cfg: Config, st: State) {
    && st.targetBalance == Target(cfg)
    && st.softMin == ComputeBand(cfg).softMin
    && st.softMax == ComputeBand(cfg).softMax
  }

  /** What holds of every state reachable from start-up under a fixed configuration. */
  predicate Inv(cfg: Config, st: State) {
    && FlagsReachable(st)
    && Abs(st.balance) <= MaxB(cfg)
    && 0.0 <= st.avgStability <= 1.0
    && |st.history| <= MaxHistory
    && |st.graphPoints| <= MaxGraphPoints
    && BandsFor(cfg, st)
  }

  /** The start-up state satisfies the invariant. */
  lemma InitialInv(cfg: Config)
    ensures Inv(cfg, Initial(cfg))
  {
  }

  /** One step keeps the invariant: flags stay in the reachable set, the
      balance inside the hard limits, the stability score in [0, 1], both
      buffers within capacity, and the bands as configured. */
  lemma StepInv(cfg: Config, st: State, sine: real -> real, random: real)
    requires Inv(cfg, st)
    ensures Inv(cfg, Step(cfg, st, sine, random))
  {
    StepKeepsFlagsReachable(cfg, st, sine, random);
    StepKeepsBands(cfg, st, sine, random);
    if !Frozen(cfg, st) {
      StepBalance(cfg, st, sine, random);
      StepStability(cfg, st, sine, random);
      StepHistory(cfg, st, sine, random);
      StepGraph(cfg, st, sine, random);
    }
  }

  /** `|randoms|` ticks, the i-th drawing `randoms[i]` from `Math.random`. */
  function Run(cfg: Config, st: State, sine: real -> real, randoms: seq<real>): State
    decreases |randoms|
  {
    if |randoms| == 0 then st
    else Run(cfg, Step(cfg, st, sine, randoms[0]), sine, randoms[1..])
  }

  /** The states after each of the ticks of `Run`, in order. */
  function Trace(cfg: Config, st: State, sine: real -> real, randoms: seq<real>): (tr: seq<State>)
    ensures |tr| == |randoms|
    decreases |randoms|
  {
    if |randoms| == 0 then []
    else
      var next := Step(cfg, st, sine, randoms[0]);
      [next] + Trace(cfg, next, sine, randoms[1..])
  }

  /** The log lines of a sequence of states. */
  function Entries(tr: seq<State>): (es: seq<LogEntry>)
    ensures |es| == |tr|
    ensures forall i :: 0 <= i < |tr| ==> es[i] == EntryOf(tr[i])
  {
    if |tr| == 0 then [] else [EntryOf(tr[0])] + Entries(tr[1..])
  }

  /** The balance samples of a sequence of states. */
  function Samples(tr: seq<State>): (xs: seq<real>)
    ensures |xs| == |tr|
    ensures forall i :: 0 <= i < |tr| ==> xs[i] == tr[i].balance
  {
    if |tr| == 0 then [] else [tr[0].balance] + Samples(tr[1..])
  }

  /** The invariant holds after any number of ticks. */
  lemma {:induction false} RunInv(cfg: Config, st: State, sine: real -> real, randoms: seq<real>)
    requires Inv(cfg, st)
    ensures Inv(cfg, Run(cfg, st, sine, randoms))
    decreases |randoms|
  {
    if |randoms| > 0 {
      StepInv(cfg, st, sine, randoms[0]);
      RunInv(cfg, Step(cfg, st, sine, randoms[0]), sine, randoms[1..]);
    }
  }

  /** From start-up, under any configuration, every later balance stays
      within the hard limits, whatever the sinusoid and the draws. */
  lemma RunContained(cfg: Config, sine: real -> real, randoms: seq<real>)
    ensures Abs(Run(cfg, Initial(cfg), sine, randoms).balance) <= MaxB(cfg)
  {
    InitialInv(cfg);
    RunInv(cfg, Initial(cfg), sine, randoms);
  }

  /** The page's own start-up run: with the balanced preset the balance stays
      within [-5, 5] on every tick, for any sinusoid and any draws, so in
      particular over the first 100 ticks. */
  lemma StartUpRunContained(sine: real -> real, randoms: seq<real>)
    ensures Abs(Run(StartConfig, StartUp, sine, randoms).balance) <= 5.0
  {
    StartUpValues();
    RunContained(StartConfig, sine, randoms);
  }

  /** A frozen regulator stays frozen and unchanged however many ticks pass. */
  lemma {:induction false} RunFrozen(cfg: Config, st: State, sine: real -> real, randoms: seq<real>)
    requires Frozen(cfg, st)
    ensures Run(cfg, st, sine, randoms) == st
    decreases |randoms|
  {
    if |randoms| > 0 {
      FreezeExactly(cfg, st, sine, randoms[0]);
      RunFrozen(cfg, st, sine, randoms[1..]);
    }
  }

  /** With `autoRestart` set nothing freezes, so every tick advances the counter. */
  lemma {:induction false} RunTicks(cfg: Config, st: State, sine: real -> real, randoms: seq<real>)
    requires cfg.autoRestart
    ensures Run(cfg, st, sine, randoms).tick == st.tick + |randoms|
    decreases |randoms|
  {
    if |randoms| > 0 {
      FreezeExactly(cfg, st, sine, randoms[0]);
      RunTicks(cfg, Step(cfg, st, sine, randoms[0]), sine, randoms[1..]);
    }
  }

  /** With `autoRestart` set the log after a run is the newest `MaxHistory`
      lines of the old log followed by one line per tick, in order. */
  lemma {:induction false} RunHistory(cfg: Config, st: State, sine: real -> real, randoms: seq<real>)
    requires cfg.autoRestart
    requires |st.history| <= MaxHistory
    ensures Run(cfg, st, sine, randoms).history ==
              KeepNewest(st.history + Entries(Trace(cfg, st, sine, randoms)), MaxHistory)
    decreases |randoms|
  {
    if |randoms| == 0 {
      assert st.history + [] == st.history;
    } else {
      var next := Step(cfg, st, sine, randoms[0]);
      var rest := Trace(cfg, next, sine, randoms[1..]);
      assert Run(cfg, st, sine, randoms) == Run(cfg, next, sine, randoms[1..]);
      assert Entries(Trace(cfg, st, sine, randoms)) == [EntryOf(next)] + Entries(rest) by {
        assert Trace(cfg, st, sine, randoms) == [next] + rest;
        assert ([next] + rest)[1..] == rest;
      }
      FreezeExactly(cfg, st, sine, randoms[0]);
      StepHistory(cfg, st, sine, randoms[0]);
      RunHistory(cfg, next, sine, randoms[1..]);
      KeepNewestThen(st.history, EntryOf(next), Entries(rest), MaxHistory);
    }
  }

  /** With `autoRestart` set the plot series after a run is the newest
      `MaxGraphPoints` samples of the old series followed by one sample per
      tick, in order. */
  lemma {:induction false} RunGraph(cfg: Config, st: State, sine: real -> real, randoms: seq<real>)
    requires cfg.autoRestart
    requires |st.graphPoints| <= MaxGraphPoints
    ensures Run(cfg, st, sine, randoms).graphPoints ==
              KeepNewest(st.graphPoints + Samples(Trace(cfg, st, sine, randoms)), MaxGraphPoints)
    decreases |randoms|
  {
    if |randoms| == 0 {
      assert st.graphPoints + [] == st.graphPoints;
    } else {
      var next := Step(cfg, st, sine, randoms[0]);
      var rest := Trace(cfg, next, sine, randoms[1..]);
      assert Run(cfg, st, sine, randoms) == Run(cfg, next, sine, randoms[1..]);
      assert Samples(Trace(cfg, st, sine, randoms)) == [next.balance] + Samples(rest) by {
        assert Trace(cfg, st, sine, randoms) == [next] + rest;
        assert ([next] + rest)[1..] == rest;
      }
      FreezeExactly(cfg, st, sine, randoms[0]);
      StepGraph(cfg, st, sine, randoms[0]);
      RunGraph(cfg, next, sine, randoms[1..]);
      KeepNewestThen(st.graphPoints, next.balance, Samples(rest), MaxGraphPoints);
    }
  }

  /** The start-up scenario of the eviction rule: after 130 ticks with
      `autoRestart` set, the log holds exactly 120 lines, the lines of ticks
      11 to 130 in order. */
  lemma EvictionAfter130Ticks(cfg: Config, sine: real -> real, randoms: seq<real>)
    requires cfg.autoRestart
    requires |randoms| == 130
    ensures |Run(cfg, Initial(cfg), sine, randoms).history| == 120
    ensures Run(cfg, Initial(cfg), sine, randoms).history == Entries(Trace(cfg, Initial(cfg), sine, randoms))[10..]
  {
    var es := Entries(Trace(cfg, Initial(cfg), sine, randoms));
    RunHistory(cfg, Initial(cfg), sine, randoms);
    assert Initial(cfg).history + es == es;
  }

  /** At the target with no residual input, one recovery tick keeps the
      balance where it is and counts the tick as stable; the count that reaches
      `restartConfirmTicks` reactivates the regulator (demo.js:377-378, 423-434). */
  lemma RecoveryTickAtTarget(cfg: Config, st: State, sine: real -> real, random: real)
    requires st.mode == Mode.Stabilising
    requires st.balance == st.targetBalance && st.lastInput == 0.0
    requires Abs(st.balance) <= MaxB(cfg)
    requires cfg.maxAbsVelocity >= 0.0 && cfg.restartThresholdFraction >= 0.0
    ensures var r := Step(cfg, st, sine, random);
            && r.balance == st.balance && r.targetBalance == st.targetBalance && r.lastInput == 0.0
            && if (st.recoveryStableTicks + 1) as real >= cfg.restartConfirmTicks then
                 r.status == Status.Active && r.mode == Mode.Active && r.recoveryStableTicks == 0
               else
                 r.status == st.status && r.mode == Mode.Stabilising
                 && r.recoveryStableTicks == st.recoveryStableTicks + 1
  {
    var r := Step(cfg, st, sine, random);
    MotionAtRest(cfg, st, sine, random);
    assert !Trips(cfg, st, sine, random);
    StepRecordsMotion(cfg, st, sine, random);
    StepBalance(cfg, st, sine, random);
    StepKeepsBands(cfg, st, sine, random);
    assert r.balance == st.balance;
    MulNonneg(cfg.restartThresholdFraction, MaxB(cfg));
    assert NearTarget(cfg, r);
    StepRecovery(cfg, st, sine, random);
  }

  /** Stabilising at rest on the target, the controller asks for nothing, so
      the motion is zero and the balance would stay put. */
  lemma MotionAtRest(cfg: Config, st: State, sine: real -> real, random: real)
    requires st.mode == Mode.Stabilising
    requires st.balance == st.targetBalance && st.lastInput == 0.0
    requires cfg.maxAbsVelocity >= 0.0
    ensures StepMotion(cfg, st, sine, random) == Motion(0.0, 0.0, st.balance)
  {
    StepInputSelection(cfg, st, sine, random);
    RecoveryInputAtTarget(cfg, st);
    MotionFacts(cfg, st, sine, random);
    var m := StepMotion(cfg, st, sine, random);
    var alpha := cfg.smoothingAlpha;
    assert Deadband(StepInput(cfg, st, sine, random), cfg.zeroDeadband) == 0.0;
    assert alpha * st.lastInput == 0.0 && (1.0 - alpha) * 0.0 == 0.0;
    assert m.lastInput == 0.0;
    assert Clamp(0.0, -cfg.maxAbsVelocity, cfg.maxAbsVelocity) == 0.0;
    assert cfg.velocityAlpha * 0.0 == 0.0;
    assert m.applied == 0.0;
  }

  /** Recovery convergence at the target: a regulator stabilising at rest on
      its target returns to (ACTIVE, ACTIVE) after exactly the number of ticks
      the confirmation count still needs. */
  lemma {:induction false} RecoveryAtTargetConverges(cfg: Config, st: State, sine: real -> real, randoms: seq<real>)
    requires st.status == Status.Paused && st.mode == Mode.Stabilising
    requires st.balance == st.targetBalance && st.lastInput == 0.0
    requires Abs(st.balance) <= MaxB(cfg)
    requires cfg.maxAbsVelocity >= 0.0 && cfg.restartThresholdFraction >= 0.0
    requires |randoms| >= 1
    requires (st.recoveryStableTicks + |randoms| - 1) as real < cfg.restartConfirmTicks
    requires cfg.restartConfirmTicks <= (st.recoveryStableTicks + |randoms|) as real
    ensures Run(cfg, st, sine, randoms).status == Status.Active
    ensures Run(cfg, st, sine, randoms).mode == Mode.Active
    ensures Run(cfg, st, sine, randoms).recoveryStableTicks == 0
    ensures forall k :: 0 <= k < |randoms| ==> Run(cfg, st, sine, randoms[..k]).mode == Mode.Stabilising
    decreases |randoms|
  {
    forall k | 0 <= k < |randoms|
      ensures Run(cfg, st, sine, randoms[..k]).mode == Mode.Stabilising
    {
      RecoveryPending(cfg, st, sine, randoms[..k]);
    }
    var next := Step(cfg, st, sine, randoms[0]);
    RecoveryTickAtTarget(cfg, st, sine, randoms[0]);
    if |randoms| > 1 {
      RecoveryAtTargetConverges(cfg, next, sine, randoms[1..]);
    }
  }

  /** Before the confirmation count is reached, a regulator at rest on the
      target stays (PAUSED, STABILISING) and counts one tick per tick, without
      moving (demo.js:423-434). */
  lemma {:induction false} RecoveryPending(cfg: Config, st: State, sine: real -> real, randoms: seq<real>)
    requires st.status == Status.Paused && st.mode == Mode.Stabilising
    requires st.balance == st.targetBalance && st.lastInput == 0.0
    requires Abs(st.balance) <= MaxB(cfg)
    requires cfg.maxAbsVelocity >= 0.0 && cfg.restartThresholdFraction >= 0.0
    requires ((st.recoveryStableTicks + |randoms|) as real) < cfg.restartConfirmTicks
    ensures var r := Run(cfg, st, sine, randoms);
            && r.status == Status.Paused && r.mode == Mode.Stabilising
            && r.recoveryStableTicks == st.recoveryStableTicks + |randoms|
            && r.balance == st.balance && r.lastInput == 0.0
    decreases |randoms|
  {
    if |randoms| > 0 {
      RecoveryTickAtTarget(cfg, st, sine, randoms[0]);
      RecoveryPending(cfg, Step(cfg, st, sine, randoms[0]), sine, randoms[1..]);
    }
  }
}
