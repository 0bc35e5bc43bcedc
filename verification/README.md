# Erevos balance regulator — a Dafny model

This project models the simulation engine of the Erevos demo (`demo.js`). The engine is a tick-driven regulator over one scalar *balance*. Each tick it:

- selects an input: the proportional recovery controller while STABILISING, otherwise the manual value or the synthetic auto signal;
- filters the input through a deadband and exponential smoothing;
- limits the rate of change with a velocity clamp and a velocity scale;
- keeps the balance inside the hard limits `[-maxB, maxB]` with a guardrail that may pause the regulator;
- runs a status/mode machine with a recovery confirmation counter;
- keeps lifetime counters and an exponentially averaged stability score;
- appends to two bounded buffers: the tick log and the plot series.

The target and the soft band come from `updateTargetAndBands`. When the band fits inside the hard limits, it shifts the band there without shrinking it. A band wider than the hard range is cut to the hard limits.

All numbers are exact `real`s. The configuration and the state are immutable datatypes (`Model.Config`, `Model.State`). Every operation is a pure function:

- `Bands.ComputeBand` and `Bands.UpdateTargetAndBands`;
- `Inputs.RecoveryInput` and `Inputs.AutoInput`;
- `Engine.Step`, split into `Engine.Commit` (demo.js:373-415) and `Engine.Settle` (demo.js:417-457);
- `Simulation.Run`, which applies `Step` once per element of a sequence of per-tick random draws;
- `Presets.ApplyPreset`, and the start-up configuration `Presets.StartConfig` (the literal with the "balanced" preset applied, as the page does before its first tick).

`Bands.Place` has a contract of its own, and lemmas add to it. The `Engine` stage functions and `Simulation.Run` carry no contracts of their own, and lemmas state what each one does:

- `Bands.Place` (the shift and cut): its own contract, plus `Bands.BandKeepsWidth`, `Bands.PlaceCentredWithRoom` and `Bands.BandSaturates`.
- `Engine.Move` (deadband, smoothing, velocity clamp): `StepFacts.MotionFacts`, `StepFacts.DeadbandSmoothing` and `StepFacts.VelocityBounded`.
- `Engine.Guard` (the guardrail): `StepFacts.GuardFacts`.
- `Engine.RawInput` (input selection): `StepFacts.StepInputSelection`.
- `Engine.CountStable`: `StepFacts.StepStableTicks`.
- `Engine.Recover` (recovery confirmation): `StepFacts.StepRecovery`, `StepFacts.StepTripStabilises`, `Simulation.RecoveryPending` and `Simulation.RecoveryAtTargetConverges`.
- `Engine.Average` (the stability average): `StepFacts.SettleFacts` and `StepFacts.StepStability`.
- `Engine.Record` (the two buffers): `StepFacts.SettleFacts`, `StepFacts.StepHistory` and `StepFacts.StepGraph`.
- `Simulation.Run`: `Simulation.RunInv`, `Simulation.RunFrozen`, `Simulation.RunTicks`, `Simulation.RunHistory` and `Simulation.RunGraph`.

`Math.sin` becomes a parameter `sine: real -> real`. The value of `Math.random()` becomes a parameter `random: real`.

The two flags `status` ∈ {ACTIVE, PAUSED} and `mode` ∈ {ACTIVE, STABILISING, PAUSED} are kept as a pair, as in the source. `StepFacts.StepKeepsFlagsReachable` and `Simulation.RunInv` prove that only (ACTIVE, ACTIVE), (PAUSED, STABILISING) and (PAUSED, PAUSED) occur.

Points where the code's behaviour is easy to misread, all modelled as the code has them:

- Each band fraction is floored at 0 (`Math.max(0, fraction)`) before the wider of the two is taken.
- The regulator keeps two flags, not one three-state value.
- The halted pair (PAUSED, PAUSED) is not terminal. It is left again once `autoRestart` is set and a new pausing trip occurs (`StepFacts.LeavingHalt`).
- After a pausing trip with `autoRestart`, the recovery check of the same tick already counts the clamped balance. So with `restartConfirmTicks <= 1` the tick can end back at (ACTIVE, ACTIVE) (`StepFacts.StepTripStabilises`).
- The velocity bound is `|velocityAlpha| * maxAbsVelocity`. It holds whenever `maxAbsVelocity >= 0`, including for a negative `velocityAlpha`.

## Model

| member | source | states |
|---|---|---|
| Numeric.Clamp | demo.js:63-65 | on a well-formed interval the result lies in it, and a value already inside is returned unchanged; the result is always the value or one of the bounds |
| Numeric.ClampIsNearest | demo.js:63-65 | on a well-formed interval the clamp is the point of the interval nearest to the value |
| Bands.MaxB | demo.js:68 | the hard limit is always positive: the absolute configured limit, or 1 when that is zero |
| Bands.WidthIsWidestFraction | demo.js:72-74 | band width = maxB · max(0, minFraction, prefFraction), never negative |
| Bands.Target | demo.js:69 | the target lies in [-maxB, maxB]; it is targetRelative·maxB for a relative target in [-1, 1], and the nearer limit beyond it |
| Bands.ComputeBand | demo.js:67-96 | band containment: -maxB ≤ softMin ≤ softMax ≤ maxB for every configuration, and the target is the clamped relative target |
| Bands.Place | demo.js:75-92 | the shifted and cut band keeps its target and, for a non-negative half-width around a target inside the limits, lies within [-maxB, maxB] |
| Bands.BandKeepsWidth | demo.js:75-92 | when width ≤ 2·maxB the band has exactly that width and contains the target, so the shifts move both edges equally |
| Bands.PlaceCentredWithRoom | demo.js:75-92 | when the centred band fits inside the hard limits, the shifts and the cut leave it centred on the target |
| Bands.BandSaturates | demo.js:80-92 | a band wider than the hard range becomes exactly [-maxB, maxB] |
| Bands.UpdateTargetAndBands | demo.js:67-96 | writes the clamped relative target and the computed band into the state, both within the hard limits, and changes no other field |
| Bands.UpdateOverwrites | demo.js:67-96 | recomputing the bands for a second configuration gives the same state as computing them for that configuration alone |
| Bands.Initial | demo.js:35-57 | the start-up state is at tick 0 with balance, velocity, input and all four counters at 0, (ACTIVE, ACTIVE), stability 1, empty buffers, and the target and band computed for the configuration |
| Presets.ApplyPreset | demo.js:166-205 | a preset overwrites exactly its ten fields and keeps the other nine; every preset gives a hard limit of 5 and a target of 0 |
| Presets.ApplyPresetIdempotent | demo.js:166-205 | applying a preset twice is the same as applying it once |
| Presets.StartUpValues | demo.js:166-178 | the page starts with maxAbsVelocity 1.6, noiseLevel 0.22, controlBias 0.65, limit 5, target 0, soft band [-1.25, 1.25] and environmental noise off (the preset does not touch it), and its start-up state is the initial state for that configuration |
| Inputs.RecoveryInput | demo.js:338-344 | the recovery input always lies in [-1, 1] |
| Inputs.RecoveryInputPointsToTarget | demo.js:338-344 | with positive gain the recovery input is positive below the target, negative above it and zero on it, and equals gain·error/maxB until it saturates |
| Inputs.RecoveryInputAtTarget | demo.js:340-343 | on the target the recovery input is zero for every gain |
| Inputs.AutoInput | demo.js:346-365 | the automatic input always lies in [-1, 1] |
| Inputs.AutoInputPureSignal | demo.js:361-364 | with controlBias ≤ 0 the automatic input is the clamped sinusoids plus noise, independent of the balance |
| Inputs.AutoInputPureControl | demo.js:358-364 | with controlBias ≥ 1 the automatic input is the clamped error term plus noise, independent of the sinusoids |
| Inputs.AutoInputIgnoresRandomWithoutNoise | demo.js:353-356 | with noise disabled the random draw does not affect the input |
| Inputs.NoiseBounded | demo.js:353-356 | a draw in [0, 1) gives noise of magnitude at most noiseLevel |
| Inputs.ControlPointsToTarget | demo.js:358-359 | with positive controlGain the error term points from the balance toward the target |
| Inputs.BaseSignalBounded | demo.js:349-351 | with a sine bounded by 1 the sinusoid mix has magnitude at most 0.7 |
| Engine.Stability | demo.js:436-437 | the instantaneous stability lies in [0, 1]; it is 1 exactly on the target and 0 exactly at one hard limit's distance or more |
| Engine.Step | demo.js:367-371 | a frozen step returns the state unchanged |
| Telemetry.KeepNewestFacts | demo.js:450-452 | trimming keeps min(length, capacity) elements, and they are the newest ones, in order |
| Telemetry.KeepNewestAppend | demo.js:449-452 | trimming and then appending more lines keeps the same lines as appending first and trimming once |
| Telemetry.PushHistoryFacts | demo.js:449-452 | the log grows by one up to 120 lines, ends with the new line, and is a suffix of old log plus new line |
| Telemetry.PushGraphFacts | demo.js:454-457 | below 180 samples the new sample is appended; otherwise exactly one oldest sample is dropped; the last sample is the new one |
| Telemetry.PushGraphKeepsNewest | demo.js:454-457 | on a series within capacity the one-shift eviction keeps the newest 180 samples and never exceeds capacity |
| StepFacts.CommitFacts | demo.js:373-415 | the first half of a step advances the tick, records the motion's input and velocity, keeps the balance within ±maxB, counts a hit per trip and a pause per pausing trip, sets the flags per auto-restart, and leaves band, buffers and stability alone |
| StepFacts.SettleFacts | demo.js:417-457 | the second half of a step keeps balance, velocity, input, counters and bands, counts a stable tick only for ACTIVE in-band states, runs recovery counting and confirmation, averages stability and appends to both buffers |
| StepFacts.GuardFacts | demo.js:396-414 | a projected balance inside the limits is committed unchanged; one outside is clamped, counts one hit, and under pauseOnViolation one pause with the flags set by autoRestart; no other field changes |
| StepFacts.FreezeExactly | demo.js:367-373 | a step leaves the tick unchanged exactly when status=PAUSED, mode=PAUSED and !autoRestart, and then the whole state is unchanged; otherwise tick rises by exactly 1 |
| StepFacts.StepKeepsBands | demo.js:367-458 | a step never changes targetBalance, softMin or softMax |
| StepFacts.StepInputSelection | demo.js:373-383 | STABILISING uses the recovery input; otherwise manual input passes through unclamped; otherwise the automatic input is computed with the already-advanced tick; recovery and automatic inputs lie in [-1, 1] |
| StepFacts.MotionFacts | demo.js:385-394 | a step's motion is the deadbanded input smoothed into lastInput, clamped to ±maxAbsVelocity and scaled by velocityAlpha, and the balance it would reach moves by exactly that change |
| StepFacts.StepRecordsMotion | demo.js:388-415 | a step that runs stores its motion's smoothed input as lastInput and its applied change as velocity |
| StepFacts.StepSmoothing | demo.js:385-388 | the new lastInput is smoothingAlpha·lastInput + (1 − smoothingAlpha)·(the raw input after the deadband) |
| StepFacts.DeadbandSmoothing | demo.js:385-388 | an input below the deadband acts as exactly 0, so the smoothed input only decays to smoothingAlpha·lastInput; at or above it the raw input is smoothed in unchanged |
| StepFacts.VelocityBounded | demo.js:390-393 | a change clamped to ±maxAbsVelocity and scaled by velocityAlpha has magnitude at most abs(velocityAlpha)·maxAbsVelocity |
| StepFacts.StepVelocityBound | demo.js:390-415 | with maxAbsVelocity ≥ 0 the recorded velocity has magnitude at most abs(velocityAlpha)·maxAbsVelocity, whatever the input |
| StepFacts.StepBalance | demo.js:394-414 | balance containment whatever pauseOnViolation is; without a trip the balance moves by the velocity, with one it is pinned to the crossed limit |
| StepFacts.StepCounters | demo.js:396-401 | a trip adds exactly one guardrail hit and one pause only under pauseOnViolation; without a trip neither counter moves |
| StepFacts.StepTripHalts | demo.js:407-410 | a pausing trip without autoRestart ends at (PAUSED, PAUSED) with the recovery counter untouched |
| StepFacts.StepTripStabilises | demo.js:403-434 | a pausing trip with autoRestart enters STABILISING with counter 0, then the same tick's recovery check leaves (PAUSED, STABILISING) with counter 0 or 1, or confirms to (ACTIVE, ACTIVE) |
| StepFacts.StepRecovery | demo.js:423-434 | in STABILISING the counter grows on ticks near the target and resets otherwise; reaching restartConfirmTicks returns to (ACTIVE, ACTIVE) with counter 0 |
| StepFacts.StepFlagsKept | demo.js:396-434 | outside STABILISING and without a pausing trip the flags and recovery counter do not change |
| StepFacts.StepStableTicks | demo.js:417-421 | stableTicks grows by one exactly when the post-guardrail status is ACTIVE and the balance is in the soft band, otherwise it is unchanged |
| StepFacts.StepStability | demo.js:436-438 | avgStability stays in [0, 1] if it starts there; on the target it moves toward 1, at one limit's distance it only decays |
| StepFacts.StepHistory | demo.js:440-452 | each step appends its own log line and keeps the newest 120 |
| StepFacts.StepGraph | demo.js:454-457 | each step appends its balance sample and, within capacity, keeps the newest 180 |
| StepFacts.StepKeepsFlagsReachable | demo.js:400-434 | a step keeps the flag pair among (ACTIVE, ACTIVE), (PAUSED, STABILISING), (PAUSED, PAUSED) |
| StepFacts.LeavingHalt | demo.js:368-412 | from (PAUSED, PAUSED) with autoRestart the step runs; without a pausing trip the pair stays, with one the mode leaves PAUSED |
| StepFacts.StepManualRamp | demo.js:379-398 | full manual input with α=0, velocityAlpha=1, maxAbsVelocity=0.1 raises the balance by exactly 0.1; the crossing tick counts a hit and pins the balance at the limit |
| Simulation.InitialInv | demo.js:35-57 | the start-up state satisfies the invariant: reachable flags, contained balance, stability in [0, 1], buffers within capacity, configured bands |
| Simulation.StepInv | demo.js:367-458 | one step preserves that invariant |
| Simulation.RunInv | demo.js:367-458 | any number of steps preserves that invariant |
| Simulation.RunContained | demo.js:394-414 | from start-up, under any configuration, the balance stays within the hard limits after any number of ticks, whatever the sinusoid and the draws |
| Simulation.StartUpRunContained | demo.js:394-414 | the page's own start-up run keeps the balance within [-5, 5] on every tick, in particular over the first 100 ticks |
| Simulation.RunFrozen | demo.js:368-371 | a frozen regulator stays exactly unchanged over any number of ticks |
| Simulation.RunTicks | demo.js:373 | with autoRestart, n ticks advance the tick counter by exactly n |
| Simulation.RunHistory | demo.js:449-452 | with autoRestart the log after a run is the newest 120 lines of old log plus one line per tick, in order |
| Simulation.RunGraph | demo.js:454-457 | with autoRestart the plot series after a run is the newest 180 samples of old series plus one sample per tick, in order |
| Simulation.EvictionAfter130Ticks | demo.js:449-452 | 130 ticks from start-up leave exactly 120 log lines, those of ticks 11 to 130 in order |
| Simulation.MotionAtRest | demo.js:376-394 | stabilising at rest on the target, the controller output is 0, so the motion leaves lastInput at 0, applies no change and projects the current balance |
| Simulation.RecoveryTickAtTarget | demo.js:423-434 | at rest on the target in STABILISING a tick keeps the balance and counts one stable tick, confirming when the count reaches restartConfirmTicks |
| Simulation.RecoveryPending | demo.js:423-434 | at rest on the target, while the count stays below restartConfirmTicks, the regulator stays (PAUSED, STABILISING), does not move, and counts one per tick |
| Simulation.RecoveryAtTargetConverges | demo.js:423-434 | at rest on the target the regulator returns to (ACTIVE, ACTIVE) after exactly the ticks the confirmation count still needs: it is STABILISING after every shorter prefix of the run |

## Left out

- DOM lookups, canvas drawing and `updateUi` (demo.js:104-160, 466-640): presentation only.
- Slider synchronisation, preset button highlighting and event listeners (demo.js:207-331). They only rewrite the configuration and call `updateTargetAndBands`. The configuration is an arbitrary input record here, and `Bands.UpdateTargetAndBands` models the recomputation. The presets themselves are modelled (`Presets.ApplyPreset`).
- The `setInterval` timer (demo.js:647). `Simulation.Run` iterates `Step` under a fixed configuration instead.
- `Math.sin` and `Math.random` (demo.js:349-355). They are parameters. Only the sinusoid weights, the noise scaling and the mix and clamp structure are modelled.
- IEEE-754 rounding. All arithmetic is exact. In particular, the step's `(balance + lastInput) - balance` equals `lastInput` here, which it need not in floating point.
- Log message formatting (`toFixed`, `padStart`, `padEnd`, demo.js:440-447). Each log line is a `Model.LogEntry` record of the values it shows.
- `state.maxHistory` and `state.maxGraphPoints` are the constants 120 and 180, since nothing reassigns them.
- Recovery convergence in general. Whether recovery converges depends on the gain, the smoothing and the velocity limits, and on the sinusoids while the regulator is not stabilising. Only convergence from rest on the target is proved (`Simulation.RecoveryAtTargetConverges`).
- The "stays RUNNING" half of the 100-tick start-up scenario. Under the start-up configuration noise is off (`Presets.StartUpValues`). The input and the balance form a feedback loop that is affine apart from the deadband, driven by the bounded sinusoids, and the guardrail does not trip as long as that loop keeps the balance below 5. Showing this needs an invariant-region argument about the loop, which this model does not make. The "balance stays within [-5, 5]" half holds for every sinusoid (`Simulation.StartUpRunContained`).
- A reset or resume action. The source has none.
