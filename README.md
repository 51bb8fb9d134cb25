# jollyrodger engine — a Dafny model

jollyrodger simulates a short space encounter in Blue's Hill frame. An
approaching "threat" spacecraft tries to hold a desired closing speed by
burning along the line of sight. Blue defends a keep-out zone (KOZ) with at
most one perpendicular dodge. Motion follows the linearised
Clohessy–Wiltshire equations, integrated with a semi-implicit Euler step.
Each pass of the loop records range, closing speed, the detection latch, the
keep-out flag and both sides' delta-v. `score_run` reduces that history to
a detection time, the closest approach, the time spent inside the zone, the
delta-v totals and an outcome label.

The model has seven modules:

- `Optional` — the `Option` datatype.
- `Vectors` — three-vectors over exact reals and the algebra the proofs use.
- `Dynamics` — `cw_derivatives` and the integration step.
- `Policies` — the three policy classes. Each `Command` method is proved
  equal to a pure function of the old fields and the step's observations.
  The policies' properties are lemmas about those functions.
- `Series` — the numpy reductions `score_run` uses: sum, minimum, count
  and first true flag.
- `Simulation` — `simulate_relative_motion`, in two parts:
  - a pure specification: `Advance` (one pass), `Iterate` (the first `k`
    passes) and `Simulate` (a whole run);
  - the imperative loop (`SimulateRelativeMotion`, whose body is `Pass`),
    proved equal to that specification.

  The history's bookkeeping properties are proved by induction over
  `Iterate`.
- `Scoring` — `score_run` and its outcome precedence, plus lemmas that
  score a history the simulation produced.

Two inputs are parameters of the model:

- **The Euclidean norm** is a parameter `norm: Vec3 -> real`, of which only
  non-negativity is assumed. The reals have no square root here.
- **The process noise** is a parameter `noise: nat -> Vec3`, one draw per
  pass. It is added only when the standard deviation is positive, as in the
  source.

The blue policy is duck-typed in the source. In the model it is the
datatype `Defender`, which dispatches to `KeepOutPolicy` or
`LLMHeuristicPolicy`.

## Model

| member | source | states |
|---|---|---|
| Dynamics.CwDerivatives | engine/cw.py:6-11 | The position rates are the input velocity components (vx, vy, vz). |
| Dynamics.ZeroStateIsEquilibrium | engine/cw.py:12-15 | With no thrust, the resting origin has zero derivative, and the Euler step leaves it at rest. |
| Dynamics.CwLinear | engine/cw.py:12-15 | The derivative is linear in the state and the acceleration together. |
| Dynamics.EulerStepLinear | engine/cw.py:72-75 | The semi-implicit step (velocity first, then position with the new velocity) is linear in state and acceleration. |
| Dynamics.OpposedBurnsSuperpose | engine/cw.py:63-75 | Stepping with `a_threat − a_blue` equals stepping with the threat's burn alone, minus the resting origin's response to Blue's burn. This is the superposition the loop's comment appeals to. |
| Dynamics.EulerStep | engine/cw.py:72-75 | No contract of its own: the semi-implicit step, velocity advanced with the pre-step derivative and position with the new velocity. `EulerStepLinear`, `OpposedBurnsSuperpose` and `ZeroStateIsEquilibrium` state its properties, and `RecordsPostStep` ties the recorded states to it. |
| Dynamics.JacobiIntegralRate | engine/cw.py:12-14 | Along the Hill equations the Jacobi-type integral changes at twice the thrust power, so it is conserved when unforced. |
| Dynamics.JacobiExpansion | engine/cw.py:12-14 | Moving the state by `h·d` changes the Jacobi-type integral by `h·JacobiRate + h²·J(d)`, so `JacobiRate` is its derivative along `d`. |
| Series.Sum | engine/scoring.py:14-15 | No contract of its own: `np.sum` as a fold from the front. `SumAppend`, `BlueFuel`, `ThreatFuelSum` and `RunTotals` state what it yields. |
| Series.FirstTrue | engine/scoring.py:11 | None exactly when no flag is set. Otherwise it is the index of a set flag with no set flag before it. |
| Series.MinOf | engine/scoring.py:12 | No entry of the non-empty series is below the result, and some entry equals it. |
| Series.CountTrue | engine/scoring.py:13 | At most the length of the series, and zero exactly when no flag is set. |
| Policies.Abs | engine/policies.py:27-28 | The result is non-negative and is the argument or its negation. |
| Policies.Clip | engine/policies.py:25 | `np.clip`: inside `[lo, hi]` when `lo <= hi`; the value itself when already inside; `lo` below and `hi` above; `hi` when `hi < lo`. |
| Policies.ThreatMagnitude | engine/policies.py:24-25 | With a non-negative limit the magnitude lies in `[−limit, limit]`, and it is the error `desired − closing` itself when that is inside. |
| Policies.ThreatCommand | engine/policies.py:17-29 | Below 1 m: zero acceleration and a zero rate, total unchanged. Otherwise the rate is the absolute clamped magnitude. The rate is in `[0, limit]` for a non-negative limit. The total grows by exactly the rate. |
| Policies.ThreatRateClamped | engine/policies.py:24-27 | The rate is \|desired − closing\| inside the limit and saturates at the limit outside it. |
| Policies.ThreatBurnsAlongLineOfSight | engine/policies.py:22-26 | The burn is `−mag/rng · r`, parallel to the line of sight. It points toward Blue when the magnitude is positive and away when it is negative. |
| Policies.DodgeTrigger | engine/policies.py:49 | No contract of its own (a predicate): `not did_dodge ∧ rng < KOZ ∧ closing > 0`, the condition the two defenders' commands fire on, as `KeepOutCommand` and `HeuristicCommand` state. |
| Policies.DodgeBasis | engine/policies.py:53-57 | The basis (`los × ẑ`, or `los × ŷ` when that is shorter than 1e-6) is perpendicular to the position. |
| Policies.DodgeDirection | engine/policies.py:58 | The normalised, side-scaled dodge direction is perpendicular to the position. |
| Policies.DodgeSide | engine/policies.py:78 | The side is ±1, and negative exactly when the along-track coordinate is positive. |
| Policies.KeepOutCommand | engine/policies.py:47-64 | The event is present exactly when the trigger `not did_dodge ∧ rng < KOZ ∧ closing > 0` fires, and it is then "DODGE". `did_dodge` latches. The rate is `dodge_dv` on firing and 0 otherwise. Otherwise the acceleration is zero. Every command is perpendicular to the position. |
| Policies.HeuristicCommand | engine/policies.py:71-88 | The same trigger, latch, rate and zero command as KeepOutPolicy, with the burn perpendicular to the position. The tag is "AI_DODGE_LEFT" when y > 0 and "AI_DODGE_RIGHT" otherwise. |
| Policies.DefenderTag | engine/policies.py:63 | A non-empty tag: "DODGE" for KeepOutPolicy; for LLMHeuristicPolicy "AI_DODGE_LEFT" when y > 0, otherwise "AI_DODGE_RIGHT" (policies.py:86). |
| Policies.DefenderCommand | engine/cw.py:58 | Either defender's command: the event exactly on the trigger, carrying `DefenderTag` of its kind and position, which is non-empty, so `if blue_event` is the same as "present". Also the latch, the rate and perpendicularity. |
| Policies.DodgeLatched | engine/policies.py:48-64 | After a dodge, every later command is zero acceleration, no event and a zero rate: at most one dodge until reset. |
| Policies.HeuristicMirrorsKeepOut | engine/policies.py:74-87 | The heuristic policy reaches the same new state and fires on the same trigger as KeepOutPolicy. Its acceleration is side × KeepOutPolicy's. The tag is "AI_DODGE_LEFT" exactly when it fires with y > 0, and "AI_DODGE_RIGHT" exactly when it fires with y ≤ 0. |
| Policies.DodgeDirectionSigned | engine/policies.py:82 | The signed dodge direction is the side times the unsigned one. |
| Policies.ThreatApproach.constructor | engine/policies.py:7-11 | Stores the desired closing speed and rate limit, with rate and total zero. |
| Policies.ThreatApproach.Reset | engine/policies.py:13-15 | `dv_rate_last = 0` and `total_dv = 0`. |
| Policies.ThreatApproach.Command | engine/policies.py:17-29 | The returned acceleration and the new fields are those of `ThreatCommand` on the old fields. `total_dv` never decreases. |
| Policies.KeepOutPolicy.constructor | engine/policies.py:34-37 | Stores `dodge_dv`, with no dodge and rate zero. |
| Policies.KeepOutPolicy.Reset | engine/policies.py:39-41 | `did_dodge = False` and `dv_rate_last = 0`. |
| Policies.KeepOutPolicy.OnDetect | engine/policies.py:43-45 | No contract of its own: the placeholder hook. It has no `modifies` clause, so it changes nothing. |
| Policies.KeepOutPolicy.Command | engine/policies.py:47-64 | The returned acceleration and event, and the new fields, are those of `KeepOutCommand` on the old fields. |
| Policies.LLMHeuristicPolicy.constructor | engine/policies.py:34-37 | The inherited constructor: stores `dodge_dv`, with no dodge and rate zero. |
| Policies.LLMHeuristicPolicy.Reset | engine/policies.py:39-41 | The inherited reset: `did_dodge = False` and `dv_rate_last = 0`. |
| Policies.LLMHeuristicPolicy.OnDetect | engine/policies.py:43-45 | No contract of its own: the inherited placeholder hook, which changes nothing (no `modifies` clause). |
| Policies.LLMHeuristicPolicy.Command | engine/policies.py:71-88 | The returned acceleration and event, and the new fields, are those of `HeuristicCommand` on the old fields. |
| Policies.Defender.Reset | engine/cw.py:40 | Blue's reset, whichever variant: back to the initial fields. |
| Policies.Defender.OnDetect | engine/cw.py:54 | No contract of its own: Blue's hook, whichever variant. It changes nothing; the loop counts its calls, and `DetectionLatch` states that count. |
| Policies.Defender.Command | engine/cw.py:58 | Blue's command, whichever variant: `DefenderCommand` on the old fields. |
| Simulation.ClosingSpeed | engine/cw.py:50 | Positive exactly when `r·v < 0` (closing), and zero exactly when `r·v = 0`; the `1e-9` guard keeps the denominator positive. |
| Simulation.NetAccel | engine/cw.py:65-69 | No contract of its own: `a_threat − a_blue`, plus the pass's noise draw only when the standard deviation is positive. `OpposedBurnsSuperpose` and `NoiseFreeRunIsDeterministic` state its properties. |
| Simulation.Initial | engine/cw.py:36-43 | No contract of its own: the initial state `x0`, the latch off, no hook call, both policies as after `reset`, and empty series. `Iterate` at 0 and `SimulateRelativeMotion`'s invariant start from it. |
| Simulation.Time | engine/cw.py:46 | No contract of its own: `k·dt`. `TimeStamps` states that the recorded times are these. |
| Simulation.Impulse | engine/cw.py:87-88 | No contract of its own: a rate times `dt`. `ImpulseBounds` and `ImpulseAdds` are its helpers, and `RecordsDeltaV` states that the delta-v series hold these. |
| Simulation.Advance | engine/cw.py:46-88 | No contract of its own: one pass of the loop body as a function of the carried state. `Pass` is proved equal to it, and `IterateUnfolds` and the history lemmas state its effects. |
| Simulation.Run | engine/cw.py:45-88 | No contract of its own: `steps + 1` passes from `Initial`. `SimulateRelativeMotion` is proved equal to it. |
| Simulation.Simulate | engine/cw.py:18-96 | No contract of its own: the history of `Run`. `HistoryLength`, `TimeStamps`, `DetectionLatch`, `SingleDodge` and the other history lemmas state its properties. |
| Simulation.Iterate | engine/cw.py:45-88 | After `k` passes every series holds `k` entries and the threat event log is empty. |
| Simulation.Step | engine/cw.py:45-88 | Pass `k` leaves every series with `k + 1` entries and the threat log empty. |
| Simulation.IterateUnfolds | engine/cw.py:45 | The first `k + 1` passes are pass `k` run after the first `k`. |
| Simulation.HistoryLength | engine/cw.py:33-88 | A run's series all have exactly `steps + 1` entries, and `threat_events` stays empty. |
| Simulation.TimeStamps | engine/cw.py:46 | The time recorded at index `j` is `j·dt`. |
| Simulation.KeepOutFlagIsStrict | engine/cw.py:84 | `inside_KOZ[j]` holds exactly when `range[j] < KOZ_R_km·1000` (strict). |
| Simulation.DetectionLatch | engine/cw.py:43-54 | `detected[j]` holds exactly when some range up to and including `j` was `<= detect_R_km·1000` (inclusive). `on_detect` is called once if the latch is set and never otherwise. |
| Simulation.DetectedIsMonotone | engine/cw.py:52-54 | Once `detected` is true it stays true at every later index. |
| Simulation.DetectionPrecedesKeepOut | engine/cw.py:83-84 | When the detection radius is at least the keep-out radius, every record inside the zone is also detected. |
| Simulation.RecordsPostStep | engine/cw.py:72-80 | The recorded `x[j]` and `v[j]` are the state after pass `j`. |
| Simulation.RecordsPreStep | engine/cw.py:49-82 | The recorded range and closing speed are those of the state before pass `j`, with closing speed `−r·v / (rng + 1e-9)`. |
| Simulation.RecordsDeltaV | engine/cw.py:87-88 | `blue_dv[j]` and `threat_dv[j]` are each policy's `dv_rate_last`, read after pass `j`, times `dt`. |
| Simulation.ThreatFuelBounds | engine/cw.py:88 | With `dt ≥ 0` and a non-negative limit, every `threat_dv` entry lies in `[0, limit·dt]`. |
| Simulation.ThreatFuelSum | engine/cw.py:88 | `threat_dv` sums to the policy's `total_dv` times `dt`. |
| Simulation.BeforeDodge | engine/cw.py:60-61 | Until Blue dodges there are no blue events and `blue_dv` is all zero. |
| Simulation.SingleDodge | engine/cw.py:60-61 | Once Blue has dodged there is exactly one event. It is stamped with the dodge pass's time and carries the tag of Blue's kind for the position it dodged from ("DODGE", or LEFT/RIGHT by the sign of y). `blue_dv` is `dodge_dv·dt` at that pass and zero elsewhere. |
| Simulation.BlueFuel | engine/cw.py:87 | `blue_dv` sums to `dodge_dv·dt` if Blue dodged and to zero otherwise. |
| Simulation.DodgeInsideKeepOut | engine/policies.py:49 | If Blue dodged, some record is flagged inside the keep-out zone. |
| Simulation.NoiseFreeRunIsDeterministic | engine/cw.py:68-69 | With the noise standard deviation not positive, the run does not depend on the noise draws. |
| Simulation.Pass | engine/cw.py:46-88 | One pass of the loop body: the carried variables, both policies' fields and the history end as `Advance` specifies. |
| Simulation.SimulateRelativeMotion | engine/cw.py:18-96 | The returned history, the hook call count and both policies' final fields are those of the pure `Run`. |
| Scoring.DetectionTime | engine/scoring.py:11 | None exactly when no record is detected. Otherwise it is the time at the first detected index. |
| Scoring.TimeInside | engine/scoring.py:13 | Zero with fewer than two records or with no inside flag. With a positive first step it is positive exactly when some record is inside, and at most `len·step`. |
| Scoring.Outcome | engine/scoring.py:17-24 | Always one of the four labels, chosen by the precedence in the source: each label holds exactly when its guard holds and no earlier guard does. |
| Scoring.ScoreRun | engine/scoring.py:3-33 | Detection time as `DetectionTime`. Closest approach is the minimum of the ranges. Time inside as `TimeInside`. The totals are the sums of the delta-v series. The outcome comes from those three values. |
| Scoring.OutcomeIgnoresThreatTotal | engine/scoring.py:15-24 | Replacing the threat's delta-v series never changes the outcome. |
| Scoring.QuietRunScore | engine/scoring.py:11-24 | A history never detected and never inside scores detection None, time inside 0 and "No encounter". |
| Scoring.RunDetectionTime | engine/scoring.py:11 | For a simulated run, the detection time is `j·dt` for the first pass `j` whose pre-step range is within the detection radius. It is None exactly when no pass comes that close. |
| Scoring.RunTotals | engine/scoring.py:14-15 | For a simulated run, Blue's total is `dodge_dv·dt` if it dodged and 0 otherwise. The threat's total is its `total_dv·dt`. |
| Scoring.RunTimeInside | engine/scoring.py:13 | For a simulated run, the time inside is `dt` times the number of inside flags. A single-pass run reports zero. |
| Scoring.DodgedRunRecovered | engine/scoring.py:19-20 | With `dt > 0`, more than one pass and `dodge_dv > 0`, a run in which Blue dodged has positive time inside and is scored "KOZ violated briefly; Blue recovered with dodge". |

## Left out

- Floating point: all quantities are exact reals. The 1e-9 guards and the 1e-6 degeneracy threshold are exact constants. Rounding, NaN and infinity are not modelled, so `np.isfinite(detection_time)` becomes "a detection time exists".
- Dynamics.CwDerivatives: its contract states only the position rates. The velocity rates are its definition, and `CwLinear`, `ZeroStateIsEquilibrium` and `JacobiIntegralRate` state properties of them.
- `np.linalg.norm` is a parameter of which only non-negativity is assumed. Properties that need it to be the Euclidean norm, such as a unit line of sight, are not stated.
- Process noise: `np.random.normal` is replaced by an arbitrary per-pass input. Its distribution is not modelled.
- Division of a vector by a scalar is written as scaling by the reciprocal. The two are equal over the reals.
- The final conversion of the history lists to numpy arrays is a change of representation with no behaviour of its own.
- `on_detect` does nothing in the source and the model's method changes nothing. The loop's calls to it are counted in a ghost out-parameter.
- LLMHeuristicPolicy inherits from KeepOutPolicy in the source. The model gives it its own class with the same fields, constructor, `Reset` and `OnDetect`, and `Defender` dispatches between the two. Any other object with the same methods is not covered.
- The policies' constructor parameters (`desired`, `dv_rate_limit`, `dodge_dv`) are immutable fields. The core never reassigns them.
- The unused arguments of the commands (`t`, `n`) and the radii passed to `score_run` are kept but have no effect.
- Scoring.ScoreRun: it requires a non-empty range series and, when some flag is set, a detection mask as long as the time series. In those cases the source raises an exception from numpy; the model does not cover those error paths.
- Negative step counts: `steps` is a natural number. The source accepts a negative count and then runs no pass, returning empty series; that case is not modelled.
- The web front end (`streamlit_app.py`) and the plotting module (`engine/visualize.py`) are presentation and are not part of this model.
