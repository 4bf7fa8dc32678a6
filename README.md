# Wire-EDM simulator kernel in Dafny

This project models the simulation kernel of a wire electrical-discharge
machining (wire-EDM) environment for reinforcement learning. All units are
micrometres and microseconds. It also models the earlier stand-alone
environments kept in the same repository. Every simulated microsecond does
the following:

- the ignition state machine decides whether the gap is short-circuited and
  then moves the spark status through idle (0), spark (1), short (−1) and
  rest (−2);
- a fresh spark removes workpiece material, charges the dielectric with
  debris and opens an ionised channel;
- the wire's segmented temperature field takes one explicit heat step;
- the servo axis moves the wire under acceleration, jerk and speed limits.

The environment applies a new generator and servo command every 1000
microseconds. It keeps the time counters and raises the termination flags.
A sampling logger records chosen state signals.

The older environments share the same ideas in a simpler form:

- a discrete action is decoded to a motor move;
- sparks are sampled from a gap-dependent rate;
- recent spark heights are kept in a list or a bounded deque;
- the wire breaks when too many recent sparks lie close together.

The smoke-test script adds a proportional gap controller, a logger
configuration per temperature-logging strategy, and a termination-reason
helper.

Modules, one file each:

- `wrappers.dfy` (module `Wrappers`): Option, Result, Outcome.
- `state.dfy` (module `EdmState`): the shared `EDMState` record and the short-circuit test.
- `ignition.dfy` (module `Ignition`): the spark/short state machine, the rate λ, the short models.
- `material.dfy` (module `Material`): workpiece removal per fresh spark.
- `dielectric.dfy` (module `Dielectric`): debris accumulator and ion-channel countdown.
- `wire.dfy` (module `Wire`): segment geometry and the explicit heat step of the wire.
- `mechanics.dfy` (module `Mechanics`): the saturating second-order servo.
- `orchestrator.dfy` (module `Orchestrator`): the two-rate environment step, reset and termination.
- `logger.dfy` (module `Logger`): configuration validation, sampling, reset, get_data.
- `profiling.dfy` (module `Profiling`): the earlier single-file kernel.
- `sparkrules.dfy` (module `SparkRules`): the helpers of the older environments: action decoder, sorting, break rules, bounded deque, unwinding, fading sparks.
- `legacyenv.dfy` (module `LegacyEnv`): the first gym environment.
- `wedmenv.dfy` (module `WedmEnv`): the stand-alone gym environment with a spark deque.
- `cleann.dfy` (module `CleannEnv`): the script environment with two deques.
- `smoke.dfy` (module `SmokeTest`): the smoke-test helpers.

Code that updates state in place is modelled as a class. Its fields are the
source's fields, its methods carry `modifies` frames and loop invariants, and
each method is proved against a function of the fields' values before the
call; the environment's step, for instance, is proved against `PhysicsNext`,
a function of the values the physics microsecond starts from.
The properties are stated as lemmas about those functions. Pure helpers are
functions. Each random draw is a parameter: the spark and break rolls, the
spark height, and the random-short roll.

## Model

| member | source | states |
|---|---|---|
| EdmState.IdleStatus | src/wedm/core/state.py:58-60 | the default spark status is idle: tag 0, no location, duration 0 |
| EdmState.EDMState.constructor | src/wedm/core/state.py:25-82 | a fresh record has every time counter at 0, voltage, current and all four generator commands None, positions and velocity 0, unwinding velocity 0.1, an empty temperature array, an idle spark status, dielectric values 0, no ion channel, target_delta 0, target_position 500 and all three process flags false |
| EdmState.IsShortCircuited | src/wedm/core/state_utils.py:9-22 | true exactly when the gap workpiece - wire is not positive, so equal positions count as a short and any positive gap does not; reads only the two position fields |
| Ignition.DenominatorPositive | src/wedm/modules/ignition.py:282 | the denominator 0.48g² − 3.69g + 14.05 is at least its vertex value 6.95828125 for every gap (negative discriminant) |
| Ignition.LambdaFormula | src/wedm/modules/ignition.py:282 | λ(gap) = ln 2 / (0.48g² − 3.69g + 14.05) is strictly positive and bounded by ln 2 / 6.95828125 for every gap |
| Ignition.CriticalDensityForGap | src/wedm/modules/ignition.py:286-295 | 0 below the hard-short gap; otherwise min(base + coeff·gap, max_critical_density): one of the two and above neither |
| Ignition.DetectCriticalDebrisShort | src/wedm/modules/ignition.py:92-112 | a gap below hard_short_gap always shorts; otherwise a short occurs iff the debris density exceeds the critical density for the gap |
| Ignition.RandomShortProbabilityBounds | src/wedm/modules/ignition.py:158-167 | the random-short probability lies in [0, max_probability], is 0 from max_gap on and max_probability at or below min_gap |
| Ignition.RandomShortProbabilityMonotone | src/wedm/modules/ignition.py:158-167 | a wider gap never gives a larger random-short probability |
| Ignition.RandomShortLatch | src/wedm/modules/ignition.py:146-173 | once latched with k remaining, the short flag holds for exactly k further updates whatever the gap, debris and rolls, the counter dropping by one each time; the update after that is decided afresh by the debris and random-short rules |
| Ignition.OrDefault | src/wedm/modules/ignition.py:255-269 | `x or default`: a set, non-zero value is used, None or 0 falls back to the default (80 V target, ON 3, OFF 80) |
| Ignition.TransitionInvariants | src/wedm/modules/ignition.py:117-245 | one update keeps the tag in {0, 1, −1, −2}, moves it only 0→1, 0→−1, 1→−2, −1→−2, −2→0 or not at all, leaves zero voltage whenever a short holds, and raises the duration by exactly one in the spark and short states and in rest until it returns to [0, None, 0] |
| Ignition.IdleBehaviour | src/wedm/modules/ignition.py:177-253 | from idle a short gives [−1, None, 0] at peak current and zero voltage without consulting the ignition roll; otherwise an ignition gives [1, loc, 0] at 0.3 × target voltage and peak current, and no ignition holds the target voltage at zero current |
| Ignition.RunAppend | src/wedm/modules/ignition.py:117-137 | running the state machine over two runs of updates in a row equals running it over their concatenation |
| Ignition.PulsePhase | src/wedm/modules/ignition.py:198-226 | a spark or short pulse counts its duration up by one per update, keeps its location and enters rest exactly when the duration reaches ON |
| Ignition.RestPhase | src/wedm/modules/ignition.py:228-245 | rest counts up from its entry duration and returns to [0, None, 0] exactly when the duration reaches ON + OFF |
| Ignition.PulseCycleTiming | src/wedm/modules/ignition.py:198-245 | since the duration is not reset on entering rest, a fresh spark or short is in rest with duration ON after exactly ON updates and idle again after exactly ON + OFF updates, and never idle in between |
| Ignition.NormalizeMode | src/wedm/modules/ignition.py:78-85 | a missing or unknown current mode falls back to "I5"; a known mode is kept |
| Ignition.IgnitionModule.constructor | src/wedm/modules/ignition.py:16-60 | empty λ cache, no random short pending, cache of the current lookup empty with 60 A |
| Ignition.IgnitionModule.GetCurrentFromMode | src/wedm/modules/ignition.py:75-90 | returns the table current of the normalised mode, recomputing only when the mode differs from the cached one; a None mode against the initial cache returns the hard-coded 60 A |
| Ignition.CacheBehaviour | src/wedm/modules/ignition.py:75-90 | a fresh cache reads an unset mode as the hard-coded 60 A and stays uncached; once a mode was cached, an unset mode reads the I5 current and caches "I5"; a second read of the same mode returns the same current and leaves the cache as it is |
| Ignition.IgnitionModule.GetLambda | src/wedm/modules/ignition.py:274-284 | fails (ValueError) exactly while a short holds; otherwise returns the closed form for the signed gap and records it in the cache, so equal gaps get the identical value |
| Ignition.IgnitionModule.ShouldIgnite | src/wedm/modules/ignition.py:247-253 | false while shorted, without touching λ or the cache; otherwise true iff the roll is below λ(gap) |
| Ignition.IgnitionModule.UpdateShortCircuitDetection | src/wedm/modules/ignition.py:139-175 | the flag and the random-short counter become those of the detection rule on the clamped gap, the debris density (0 when unset) and the roll |
| Ignition.IgnitionModule.HandleIdleState | src/wedm/modules/ignition.py:177-196 | status, voltage and current become the idle transition's |
| Ignition.IgnitionModule.HandleSparkState | src/wedm/modules/ignition.py:198-213 | status, voltage and current become the spark transition's |
| Ignition.IgnitionModule.HandleShortState | src/wedm/modules/ignition.py:215-226 | status and current become the short transition's; the voltage is not touched |
| Ignition.IgnitionModule.HandleRestState | src/wedm/modules/ignition.py:228-245 | status, voltage and current become the rest transition's |
| Ignition.IgnitionModule.Update | src/wedm/modules/ignition.py:117-137 | the short flag is decided first, then the state machine transition runs on the resulting flag, with zero voltage forced on a short and the peak current _get_current_from_mode returns from the cache the update started with; the λ cache changes only from idle without a short; the current-mode cache is refilled only when the update reads the peak current (from idle on a short or an ignition, in a spark or short while the pulse is on) |
| Material.Advance | src/wedm/modules/material.py:11-14 | an update moves the workpiece face only on a fresh spark (tag 1, duration 0), and then by exactly 0.0005 |
| Material.RemovalAccumulates | src/wedm/modules/material.py:11-14 | over any run of updates the workpiece advances by exactly 0.0005 per fresh spark and never moves back |
| Material.MaterialRemovalModule.Update | src/wedm/modules/material.py:11-14 | only the workpiece position changes, by the advance the current spark status calls for |
| Dielectric.DebrisBounds | src/wedm/modules/dielectric.py:26-39 | the debris concentration stays in [0, 1]; without a fresh spark it never grows and a positive concentration strictly decays; on a fresh spark it is the capped jump times 0.9995 |
| Dielectric.ChannelCountdown | src/wedm/modules/dielectric.py:32-35 | a live channel with k microseconds left and no new spark counts down by one per update and disappears after exactly k updates |
| Dielectric.ChannelLifetime | src/wedm/modules/dielectric.py:26-35 | the update that sees a fresh spark at y leaves the channel (y, 5), whatever it held before; with no further spark it stays at y for four more updates and is gone after the fifth |
| Dielectric.DielectricModule.constructor | src/wedm/modules/dielectric.py:15-20 | 293.15 K, no debris, flow rate 1.0, no ionised channel |
| Dielectric.DielectricModule.Update | src/wedm/modules/dielectric.py:23-43 | debris and channel advance one update (keeping debris in [0, 1] and the channel's remaining time in 1..5), and temperature, debris, flow rate and channel are mirrored into the shared record |
| Common.Trunc | src/wedm/modules/wire.py:30 | Python's int() on a float: truncation toward zero for either sign, within one of the argument and never farther from zero (also the `int()` of cleann.py:17) |
| Wire.MakeGeometry | src/wedm/modules/wire.py:23-71 | a zero segment length fails (division by zero); a success has at least one segment, zone start ≤ zone end ≤ segment count, non-zero denominator, cross-section and Δy, and keeps the configured segment length and spool temperature |
| Wire.ZeroDiameterRejected | src/wedm/modules/wire.py:64-71 | a zero wire diameter makes the dT/dt denominator zero and the construction fails |
| Wire.GeometryWellFormed | src/wedm/modules/wire.py:30-35 | with non-negative lengths and a positive segment length the work zone starts at 0 or later |
| Wire.DefaultGeometry | src/wedm/modules/wire.py:16-35 | the default buffers 30 and 20 around a 10 mm workpiece give 60 segments with the work zone [30, 40) |
| Wire.NextField | src/wedm/modules/wire.py:114-211 | the stepped field has one entry per segment and its top segment is pinned to the spool temperature (Dirichlet condition) |
| Wire.UniformFieldIsFixedPoint | src/wedm/modules/wire.py:92-211 | a wire entirely at spool temperature, in a dielectric at that temperature and carrying no current, is left exactly as it is |
| Wire.PlasmaHeatIsLocal | src/wedm/modules/wire.py:165-179 | the plasma spot heats only the spark's segment: the heat rate there exceeds the spark-free rate by η·V·I, everywhere else it is the same |
| Wire.NextFieldFromSegments | src/wedm/modules/wire.py:202-211 | a field that holds the spool temperature on top and the stepped temperature in every other segment is the next field |
| Wire.SumBounds | src/wedm/modules/wire.py:221-223 | the sum of entries between lo and hi lies between n·lo and n·hi |
| Wire.MeanBounds | src/wedm/modules/wire.py:221-223 | the mean of entries between lo and hi lies between lo and hi |
| Wire.ZoneAverageBounds | src/wedm/modules/wire.py:213-237 | the work-zone average, when defined, lies between the coldest and the hottest segment |
| Wire.ZoneAverageOfValidZone | src/wedm/modules/wire.py:217-223 | for a zone 0 ≤ start < end ≤ n the average is defined and is the plain mean of the zone |
| Wire.WireModule.Create | src/wedm/modules/wire.py:13-71 | succeeds exactly when the geometry can be derived; the record's field is replaced by a fresh spool-temperature field of the segment count unless it already has that length, and is left alone when the segment length is zero |
| Wire.WireModule.ComputeRates | src/wedm/modules/wire.py:117-200 | every segment's entry is the heat rate (conduction with the Neumann bottom, Joule, plasma, convection, advection) of the field as it stood |
| Wire.WireModule.ApplyStep | src/wedm/modules/wire.py:202-206 | every segment advances by its rate over the denominator times 1 µs, all computed from the same pinned field |
| Wire.WireModule.Update | src/wedm/modules/wire.py:92-237 | a broken wire changes nothing; otherwise the field (re-created at spool temperature if its length is wrong) becomes the next field in place and the zone average is recorded, failing only when the zone index falls outside the wire, with the recorded average then left as it was |
| Mechanics.ParseControlMode | src/wedm/modules/mechanics.py:14-20 | accepts exactly "position" and "velocity", mapping each to its own mode; anything else is a ValueError |
| Mechanics.Clip | src/wedm/modules/mechanics.py:63-84 | the scalar clip keeps the value within ±bound, leaves a value already inside unchanged and saturates a value beyond either end to that end |
| Mechanics.ServoLimits | src/wedm/modules/mechanics.py:56-91 | after one update the speed is within ±3e4, the acceleration stays within ±3e5 when it was before, the acceleration changed by at most max_jerk·dt, and the position moved by exactly the new velocity times dt |
| Mechanics.PositionLawIsTranslationInvariant | src/wedm/modules/mechanics.py:31-49 | the position law cancels the wire position: the nominal acceleration is −220·v + 40000·target_delta wherever the wire is |
| Mechanics.ServoEquilibria | src/wedm/modules/mechanics.py:46-91 | in position mode an axis at rest with zero target delta and no acceleration stays put; in velocity mode an axis already at an attainable commanded speed keeps it and advances by speed times dt |
| Mechanics.PositionLawPushesTowardTarget | src/wedm/modules/mechanics.py:46-77 | from rest, a positive target delta gives a positive acceleration in position mode |
| Mechanics.MechanicsModule.constructor | src/wedm/modules/mechanics.py:20-38 | the mode is kept, dt is the environment's dt in microseconds converted to seconds, and no acceleration is remembered |
| Mechanics.MechanicsModule.Create | src/wedm/modules/mechanics.py:11-44 | construction succeeds exactly for the two known mode strings, and then with the parsed mode, dt·1e-6 and zero acceleration |
| Mechanics.MechanicsModule.Update | src/wedm/modules/mechanics.py:56-91 | the wire position, wire velocity and remembered acceleration become one servo step of the mode's law from their old values |
| Orchestrator.ControlSchedule | src/wedm/envs/wire_edm.py:73-92 | in an episode that never breaks the wire, the servo counter after k steps is (k − 1) mod 1000 + 1, and step k is a control step exactly when k is a positive multiple of 1000 |
| Orchestrator.SparkClocksCountRuns | src/wedm/envs/wire_edm.py:95-100 | time_since_spark_ignition is the length of the trailing run of spark steps and time_since_spark_end that of the trailing run of non-spark steps (plus the start value when the run covers the whole history) |
| Orchestrator.PhysicsNextFacts | src/wedm/envs/wire_edm.py:79-83 | after one physics microsecond the spark tag is legal and moved only along a state-machine edge, the workpiece stayed or advanced by exactly one spark's removal, the record mirrors the dielectric's debris, a broken wire keeps its field and mean, an intact one has 60 segments and a defined work-zone mean, and the lambda memo keeps holding only the formula's values |
| Orchestrator.WireEDMEnv.constructor | src/wedm/envs/wire_edm.py:21-44 | a fresh default record whose wire field holds 60 segments at 293.15 K, the default short-circuit parameters, the default wire, and the position-mode servo at 1 µs |
| Orchestrator.WireEDMEnv.Reset | src/wedm/envs/wire_edm.py:67-70 | a fresh record with every default value, while the modules keep their internal state (debris, pending random short, remembered acceleration) |
| Orchestrator.WireEDMEnv.Command | src/wedm/envs/wire_edm.py:72-76 | the control-step decision (with _apply_action, lines 118-124) is time_since_servo ≥ 1000 before the step; exactly then the servo delta, target voltage, peak current, ON and OFF times take the action's values and the servo counter restarts at 0; otherwise none of them changes; nothing the physics reads or the end of the step writes is touched |
| Orchestrator.WireEDMEnv.Begin | src/wedm/envs/wire_edm.py:72-83 | the commands as in Command, then everything the physics writes equals PhysicsNext from the record as it was before the step under the inputs the commands left; the clocks, the wire axis and the termination flags are untouched |
| Orchestrator.WireEDMEnv.Physics | src/wedm/envs/wire_edm.py:79-83 | the short flag, electrical state, ignition latch and caches, workpiece, dielectric fields and wire field equal PhysicsNext of the start values: ignition, then material and dielectric on the status ignition left, then the wire on the current and voltage ignition left; commands, clocks and wire axis untouched; the environment invariants kept |
| Orchestrator.WireEDMEnv.IgnitionPhase | src/wedm/envs/wire_edm.py:80 | the ignition results equal IgnitionNext: the short decision on the clamped gap, the state-machine transition, the lambda memo and current-mode cache updates; the spark tag stays legal |
| Orchestrator.WireEDMEnv.RemovalPhase | src/wedm/envs/wire_edm.py:81-82 | workpiece, debris, ionised channel and the dielectric fields of the record equal RemovalNext of their start values under the status ignition left; the ignition results and the wire's heat inputs are untouched |
| Orchestrator.WireEDMEnv.WirePhase | src/wedm/envs/wire_edm.py:83 | the wire field and work-zone mean equal WireNext: a broken wire keeps both, an intact one takes one heat step from the current and voltage ignition left and averages segments 30 to 39; ignition and removal results untouched |
| Orchestrator.WireEDMEnv.Advance | src/wedm/envs/wire_edm.py:88-102 | one position-mode servo step (speed within ±3e4), every clock advanced by 1 µs with the spark clocks switched by the tag, then the termination verdict |
| Orchestrator.WireEDMEnv.Bookkeeping | src/wedm/envs/wire_edm.py:90-100 | time, servo counter and open-voltage clock advance by 1 µs; on a spark the ignition clock advances and the end clock is 0, otherwise the reverse |
| Orchestrator.WireEDMEnv.CheckTermination | src/wedm/envs/wire_edm.py:126-133 | terminated iff the wire is more than 100 past the workpiece (breaking, checked first) or the workpiece reached the target; the matching flag is latched and the other left as it was |
| Orchestrator.WireEDMEnv.Finish | src/wedm/envs/wire_edm.py:85-113 | a broken wire returns the broken-wire result and leaves the clocks, the axis and the flags alone; otherwise one servo step, the clocks, the termination verdict and the info of the step; the physics results and the commands are untouched |
| Orchestrator.WireEDMEnv.Step | src/wedm/envs/wire_edm.py:72-113 | commands apply exactly on control steps; the physics results equal PhysicsNext of the record before the step under the commanded inputs; a wire broken after the physics returns (None, 0, terminated, not truncated, {wire_broken}) with clocks, wire axis and flags unchanged; otherwise servo, clocks and termination follow and the info reports broken, reached, tag, time and the control-step flag, with an observation only on control steps; the target position, unwinding velocity, current mode and debris density are never written |
| Logger.Validate | src/wedm/utils/logger.py:73-102 | accepts exactly a non-empty signal list, a non-empty frequency and a memory or numpy backend, the numpy one with a string file path; an empty or missing signal list, frequency or backend is a ValueError; a backend without a type is a KeyError; a type other than memory or numpy is a NotImplementedError; a numpy backend without a file path or with a non-string one is a ValueError; a numpy backend keeps its path and defaults compress to False |
| Logger.ValidateIsIdempotent | src/wedm/utils/logger.py:99-102 | the dictionary validation leaves behind (with compress filled in) validates again to the same configuration |
| Logger.ShouldLog | src/wedm/utils/logger.py:127-137 | every_step always logs; control_step logs iff info's control_step entry is true; an interval n ≠ 0 logs iff n divides the counter; a missing type, a missing interval value or a zero interval is an error; any other type never logs |
| Logger.IntervalHitsCount | src/wedm/utils/logger.py:135-137 | with an interval n, the first k calls after a reset log exactly k / \|n\| times, with Python's remainder for a negative n |
| Logger.RecordAppends | src/wedm/utils/logger.py:139-156 | a logged call appends to each name exactly the values sampled for its occurrences in the signal list, and leaves a list exactly for the names already logged or configured |
| Logger.RecordValues | src/wedm/utils/logger.py:139-156 | a logged call appends to each name exactly the values sampled for its occurrences, in order |
| Logger.RecordKeys | src/wedm/utils/logger.py:139-156 | after a logged call the log has a list for a name exactly when it had one before or the name is configured (the defaultdict creates it) |
| Logger.DynamicAttributesRead | src/wedm/utils/logger.py:114-116 | the attributes the modules set at run time (`current_mode`, `debris_density`, `flow_rate`, `is_short_circuit`) are logged as the value the record holds, a mode as a string, and None while it holds none |
| Logger.SamplesRepeat | src/wedm/utils/logger.py:139-150 | within one logged call every occurrence of a name records the same value, the state's attribute or None when missing |
| Logger.RecordKeepsShape | src/wedm/utils/logger.py:114-156 | if every list held one entry per earlier logged call per occurrence of its name, one more logged call keeps that with one call more |
| Logger.CountOfDistinct | src/wedm/utils/logger.py:110-116 | among distinct signal names a configured name occurs exactly once |
| Logger.SimulationLogger.constructor | src/wedm/utils/logger.py:59-116 | the validated configuration, an empty log, a zero counter and one accessor per configured name |
| Logger.SimulationLogger.Create | src/wedm/utils/logger.py:59-71 | construction succeeds exactly when validation does, reporting validation's error otherwise, and starts with an empty log and a zero counter |
| Logger.SimulationLogger.Collect | src/wedm/utils/logger.py:118-164 | the counter rises by exactly one on every call; the log gets one sample of every configured signal exactly when the sampling rule says so, stays as it was otherwise, and a configuration error surfaces after the counter moved; each sample is the value at the call (see "## Left out" for list aliasing) |
| Logger.SimulationLogger.LogCall | src/wedm/utils/logger.py:139-156 | one logged call appends the current samples and keeps every list at one entry per logged call per occurrence |
| Logger.SimulationLogger.LogSignals | src/wedm/utils/logger.py:140-156 | the loop appends the current sample of each configured signal, in configuration order |
| Logger.SimulationLogger.UniformLengths | src/wedm/utils/logger.py:139-156 | with distinct signal names every list has exactly one entry per logged call, so all lists have the same length |
| Logger.SimulationLogger.GetData | src/wedm/utils/logger.py:215-230 | the log as a value at the call for the memory backend (the live dict is under "## Left out"), the configured file path for the numpy backend |
| Logger.SimulationLogger.Reset | src/wedm/utils/logger.py:232-237 | an empty log and a zero counter; the configuration is kept |
| Profiling.IfNotNone | edm_environments/profiling_code.py:102-103 | `x if x is not None else d`: a set value, even 0, is kept; only None falls back |
| Profiling.ProfTransitionInvariants | edm_environments/profiling_code.py:90-137 | contact (wire at or past the workpiece) gives [−1, None, 0] at zero voltage and peak current from any state; otherwise the tag stays legal and moves only 0→1, 1→−2, −2→0, a −1 status is left as it is, a TypeError arises exactly on entering or continuing a spark with the target voltage unset, entering rest resets the duration to 0 and rest otherwise counts up by one |
| Profiling.ShortIsStuck | edm_environments/profiling_code.py:99-137 | a −1 status has no branch: while the wire is clear of the workpiece an update leaves status, voltage and current untouched |
| Profiling.ProfSparkPhase | edm_environments/profiling_code.py:106-115 | a spark counts its duration up by one per update and becomes [−2, None, 0] exactly when the duration reaches ON |
| Profiling.ProfRestPhase | edm_environments/profiling_code.py:118-126 | rest counts up from its entry duration and returns to [0, None, 0] exactly when the duration reaches ON + OFF |
| Profiling.QuietRunAppend | edm_environments/profiling_code.py:90-137 | running quiet updates a then b times equals running them a + b times |
| Profiling.ProfPulseCycle | edm_environments/profiling_code.py:106-126 | since rest restarts its duration at 0 and waits for ON + OFF, a fresh spark sparks for ON updates, rests for ON + OFF and is idle only after 2·ON + OFF updates |
| Profiling.Removal | edm_environments/profiling_code.py:153-159 | an update moves the workpiece only on a fresh spark, and then by exactly 0.05 |
| Profiling.ChannelCountsToZero | edm_environments/profiling_code.py:190-196 | a channel at k ≥ 0 with no new spark counts down through 0 and is cleared one update later (a (y, 0) tuple is still truthy) |
| Profiling.ProfChannelLifetime | edm_environments/profiling_code.py:181-196 | after the update that sees a fresh spark at y the channel is (y, 5), whatever it held before; with no new spark it reaches (y, 0) after five more updates and is gone after the sixth |
| Profiling.FreshEpisodeEndsAtOnce | edm_environments/profiling_code.py:368-379 | with wire and workpiece both starting at 0 the first update sees contact and shorts, nothing is removed, and the workpiece is already at the default target delta 0, so the episode reports the target reached at once |
| Profiling.ProfState.constructor | edm_environments/profiling_code.py:17-74 | every counter 0, every generator setting and electrical reading unset, positions and target delta 0, status [0, None, 0], no channel and both process flags false |
| Profiling.ProfIgnitionModule.constructor | edm_environments/profiling_code.py:86-88 | an empty λ cache |
| Profiling.ProfIgnitionModule.GetLambda | edm_environments/profiling_code.py:139-148 | λ is the closed form at the absolute gap, positive, and is cached under the absolute gap |
| Profiling.ProfIgnitionModule.Update | edm_environments/profiling_code.py:90-137 | status, voltage and current become those the transition writes (also when it raises), the raise is reported exactly for the TypeError case, and the cache grows only from idle without contact |
| Profiling.ProfMaterialModule.Update | edm_environments/profiling_code.py:153-159 | only the workpiece position changes, by the removal the spark status calls for |
| Profiling.ProfDielectricModule.constructor | edm_environments/profiling_code.py:162-173 | no debris and no channel |
| Profiling.ProfDielectricModule.Update | edm_environments/profiling_code.py:175-205 | the main kernel's debris law and this variant's channel countdown, with temperature 293.15, debris, flow rate 1.0 and channel mirrored into the record |
| Profiling.ProfilingEnv.constructor | edm_environments/profiling_code.py:330-336 | a default record, an empty λ cache, a clean dielectric and no remembered peak current |
| Profiling.ProfilingEnv.Command | edm_environments/profiling_code.py:389-398 | exactly on a control step the five settings are taken from the action and the servo counter restarts; otherwise neither changes |
| Profiling.ProfilingEnv.IgnitionPhase | edm_environments/profiling_code.py:401 | the electrical fields become the transition's, the raise is reported exactly when the transition raises, the λ memo gains the gap only on the idle branch without contact, and the spark tag stays legal |
| Profiling.ProfilingEnv.RemovalPhase | edm_environments/profiling_code.py:402-403 | material and dielectric both see the status ignition left: the workpiece advances by the fresh-spark removal, and the debris, the channel and their mirror in the record equal DielectricNext of the module's values |
| Profiling.ProfilingEnv.Physics | edm_environments/profiling_code.py:401-403 | ignition, then (unless it raised) removal and dielectric: electrical fields and λ memo as the ignition update leaves them; without a raise the workpiece and the dielectric follow the status ignition left, with a raise both stay as they were; clocks, wire and flags untouched |
| Profiling.ProfilingEnv.Begin | edm_environments/profiling_code.py:389-403 | the control-step commands are in place before the physics runs, which then behaves as Physics under them |
| Profiling.ProfilingEnv.Bookkeeping | edm_environments/profiling_code.py:410-420 | time, servo counter and open-voltage clock advance by 1; the spark clocks switch on the tag |
| Profiling.ProfilingEnv.CheckTermination | edm_environments/profiling_code.py:368-379 | terminated iff the wire is past the workpiece height 10 (breaking, checked first) or the workpiece is at or past the target delta; the matching flag is latched |
| Profiling.ProfilingEnv.Finish | edm_environments/profiling_code.py:410-431 | clocks, the peak current remembered on a control step, then termination; settings, electrical fields and positions are untouched |
| Profiling.ProfilingEnv.Step | edm_environments/profiling_code.py:387-442 | commands on control steps; electrical fields and λ memo as the ignition update leaves them; an unset target voltage makes ignition raise, which ends the step leaving workpiece, dielectric, clocks, wire, flags and the remembered peak current as they were; otherwise removal and dielectric follow the status ignition left; a broken wire returns (None, 0, terminated, {wire_broken}) with the clocks untouched; otherwise clocks, the remembered peak current and termination follow and the observation is always None with reward 0; the wire never moves |
| SparkRules.DecodeAction | edm_environments/envs/wire_edm.py:105 | the motor command has direction ±1 and a non-negative step count whose signed product is action − max_steps; on the action space 0..2·max_steps it never exceeds max_steps steps |
| SparkRules.DecodeRoundTrip | wedm-environment.py:88 | decoding is injective: every action is recovered from its motor command, and a forward move of at least one step or a backward move of any length is recovered from its action |
| SparkRules.SortSpec | wedm-environment.py:149 | sorting yields an ascending permutation of its input |
| SparkRules.SortedUnique | wedm-environment.py:149 | two ascending lists with the same elements are equal |
| SparkRules.SortIgnoresOrder | edm_environments/envs/wire_edm.py:155-156 | permutations of the positions sort to the same list |
| SparkRules.ClosePairs | wedm-environment.py:152 | the number of adjacent pairs closer than the threshold is at most one less than the list length, and 0 for fewer than two positions |
| SparkRules.DiffsOfSorted | edm_environments/envs/wire_edm.py:156-160 | on a sorted list, counting signed differences below the threshold (np.diff) equals counting absolute differences below it |
| SparkRules.Relevant | wedm-environment.py:149 | the filtered list is no longer than the deque and holds no −1 entry |
| SparkRules.RelevantCounts | wedm-environment.py:149 | filtering keeps every real position with its multiplicity and drops every −1 |
| SparkRules.BreakProbabilityHaz | edm_environments/envs/wire_edm.py:149-164 | the break probability is 0 or 1 |
| SparkRules.BreakProbabilityCrater | wedm-environment.py:140-158 | the break probability is 0 or 1 |
| SparkRules.HazBreakRule | edm_environments/envs/wire_edm.py:149-164 | the probability is 1 exactly when at least two adjacent sorted positions lie closer than the heat-affected zone; it ignores the order of the recorded sparks and is 0 with fewer than three sparks |
| SparkRules.CraterBreakRule | wedm-environment.py:140-158 | the probability ignores the order of the recorded positions and is 0 with fewer than four real positions, since three close pairs are needed |
| SparkRules.Window | wedm-environment.py:62 | the window holds the last maxlen elements, or all of them when there are fewer |
| SparkRules.Push | wedm-environment.py:175 | appending to a bounded deque grows it by one until it is full and then keeps it full |
| SparkRules.PushAllIsWindow | wedm-environment.py:197-199 | a deque within its bound, after any run of appends, holds the last maxlen elements of its contents followed by everything appended |
| SparkRules.PushAllKeepsLength | wedm-environment.py:197-204 | a full deque stays full whatever is appended |
| SparkRules.PushAllSplit | wedm-environment.py:197-199 | appending two runs one after the other is appending their concatenation |
| SparkRules.Positions | edm_environments/envs/wire_edm.py:155 | the list of spark positions, one per spark, in order |
| SparkRules.UnwoundShrinks | edm_environments/envs/wire_edm.py:204-214 | unwinding never grows the spark list |
| SparkRules.UnwoundMembers | edm_environments/envs/wire_edm.py:204-214 | a spark is in the unwound list exactly when it is some recorded spark moved down by the unwinding speed and one microsecond older, with position and lifetime both still non-negative |
| SparkRules.UnwoundKeepsOrder | edm_environments/envs/wire_edm.py:209-214 | unwinding keeps the order: unwinding a concatenation unwinds each part |
| SparkRules.UnwindEntry | wedm-environment.py:224-228 | an empty slot (−1) stays empty; a real position moves up by the unwinding speed and is cleared to −1 once it passes the workpiece height |
| SparkRules.UnwindAll | wedm-environment.py:219-228 | every deque entry is unwound on its own and the length is kept |
| SparkRules.UnwindAllNeverAdds | wedm-environment.py:219-228 | unwinding never creates a spark: the number of real entries never grows |
| SparkRules.FadedSpec | wedm-environment.py:216 | fading keeps exactly the drawn sparks whose lifespan exceeded one, each one microsecond older, and never adds any |
| LegacyEnv.Advanced | edm_environments/envs/wire_edm.py:173-198 | a spark restarts the time counter, adds one spark, moves the workpiece by the increment, records the spark with the full dissipation lifetime and its frame point at the gap midpoint, and charges one plus the generator's downtime to the global clock; the flags are untouched |
| LegacyEnv.Flagged | edm_environments/envs/wire_edm.py:182-193 | after a spark the broken flag is the break roll against the hazard-zone rule, the colliding flag says the wire reached the workpiece, the target flag says the workpiece reached the target distance; nothing else changes |
| LegacyEnv.Generate | edm_environments/envs/wire_edm.py:167-202 | without a spark only the two time counters advance by one; with a spark the bookkeeping and then the flags apply |
| LegacyEnv.Moved | edm_environments/envs/wire_edm.py:226 | a motor step moves only the wire, by direction times the minimum step size |
| LegacyEnv.MoveRunUnfold | edm_environments/envs/wire_edm.py:225-230 | a motor move is its first step and microsecond followed by the rest of the move |
| LegacyEnv.ServoRunIsPrefix | edm_environments/envs/wire_edm.py:263-267 | the servo loop runs the microseconds of a prefix of its draws, at least one when there are any, and stops early only when the episode is done |
| LegacyEnv.MicroAccounting | edm_environments/envs/wire_edm.py:167-214 | one microsecond never moves the wire and either adds no spark (one tick, workpiece unchanged) or exactly one (one tick plus the downtime, workpiece advanced by the increment) |
| LegacyEnv.MoveStepAccounted | edm_environments/envs/wire_edm.py:225-230 | one motor step and its microsecond satisfy the move accounting for one step |
| LegacyEnv.AccountedOne | edm_environments/envs/wire_edm.py:225-230 | either outcome of a microsecond after a motor step meets the move accounting for one step |
| LegacyEnv.AccountedChain | edm_environments/envs/wire_edm.py:225-230 | the move accounting composes: one step then n steps is n + 1 steps |
| LegacyEnv.MoveRunAccounting | edm_environments/envs/wire_edm.py:216-230 | over a move of n steps there are between 0 and n sparks; the global clock advances by n plus the downtime per spark, the workpiece by one increment per spark and the wire by n steps |
| LegacyEnv.FlagsFollowLastSpark | edm_environments/envs/wire_edm.py:183 | after a spark with a break roll in [0, 1), a broken flag set earlier is cleared exactly when the hazard rule over the sparks including the new one gives 0, since the flag is overwritten rather than latched |
| LegacyEnv.LegacyWireEDMEnv.constructor | edm_environments/envs/wire_edm.py:15-82 | the environment starts at the configured positions with no sparks, zero counters, cleared flags, no truncation and an empty lambda cache |
| LegacyEnv.LegacyWireEDMEnv.Create | edm_environments/envs/wire_edm.py:59-74 | construction fails with ZeroDivisionError when the workpiece height is zero, otherwise with TypeError when the initial gap is not whole (the gap-average buffer repeats [0] initial_gap times), and otherwise yields the initial state |
| LegacyEnv.LegacyWireEDMEnv.GetLambda | edm_environments/envs/wire_edm.py:120-139 | the rate is the closed form at the signed distance wire − workpiece whether or not it was cached, and the cache then holds it under that distance |
| LegacyEnv.LegacyWireEDMEnv.GenerateSparks | edm_environments/envs/wire_edm.py:167-202 | the fields change exactly as one step of the spark generator says |
| LegacyEnv.LegacyWireEDMEnv.RecordSpark | edm_environments/envs/wire_edm.py:174-198 | the spark branch is the bookkeeping followed by the flags |
| LegacyEnv.LegacyWireEDMEnv.AdvanceSpark | edm_environments/envs/wire_edm.py:174-198 | the downtime loop and the spark bookkeeping leave the fields as the spark bookkeeping function says |
| LegacyEnv.LegacyWireEDMEnv.UpdateFlags | edm_environments/envs/wire_edm.py:182-193 | the three flags are set as the flag function says and nothing else changes |
| LegacyEnv.LegacyWireEDMEnv.UnwindWire | edm_environments/envs/wire_edm.py:204-214 | the spark list becomes its unwound copy |
| LegacyEnv.LegacyWireEDMEnv.Tick | edm_environments/envs/wire_edm.py:263-267 | one microsecond is spark generation followed by unwinding |
| LegacyEnv.LegacyWireEDMEnv.MoveMotor | edm_environments/envs/wire_edm.py:216-230 | the motor loop leaves the state the motor-move function gives, one step and microsecond per draw |
| LegacyEnv.LegacyWireEDMEnv.MoveAndTick | edm_environments/envs/wire_edm.py:226-230 | one body of the motor loop: the wire moves one step, then one microsecond runs |
| LegacyEnv.LegacyWireEDMEnv.ServoLoop | edm_environments/envs/wire_edm.py:263-267 | the servo loop leaves the state of the servo run, which stops at the first microsecond after which the episode is done |
| LegacyEnv.LegacyWireEDMEnv.IsDone | edm_environments/envs/wire_edm.py:232-238 | done exactly when the wire is broken, the target is reached or the wire collides |
| LegacyEnv.LegacyWireEDMEnv.Step | edm_environments/envs/wire_edm.py:240-285 | the frame and spark counter are cleared, the decoded motor move and the servo interval run; the observation is the step's spark count, the reward is the signed move minus 1000 per broken or colliding wire, termination is the done test, and truncation latches once the step count exceeds max_time_steps |
| LegacyEnv.LegacyWireEDMEnv.Simulate | edm_environments/envs/wire_edm.py:248-267 | the simulated part of a step is the motor move from the cleared state followed by the servo run |
| LegacyEnv.LegacyWireEDMEnv.Reset | edm_environments/envs/wire_edm.py:287-311 | positions, counters, flags, frame, step count and truncation return to their start values; the recorded sparks and the lambda cache are kept, as reset never clears them |
| WedmEnv.Advanced | wedm-environment.py:168-179 | a spark adds one to the spark count, restarts the time counter, ticks the global clock once, moves the workpiece by the increment, appends the spark height to the bounded deque and adds a visual spark at the gap midpoint with a 2000 µs lifespan; the flags are untouched |
| WedmEnv.Flagged | wedm-environment.py:181-193 | after a spark the broken flag is the break roll against the crater rule on the deque, the colliding flag says the wire reached the workpiece, the target flag says the workpiece reached the target distance; nothing else changes |
| WedmEnv.Rested | wedm-environment.py:196-199 | the downtime after a spark charges rest_time + pulse_duration microseconds to the global clock and appends that many empty slots to the deque |
| WedmEnv.Quiet | wedm-environment.py:202-206 | a microsecond without a spark appends one empty slot and ticks both time counters, changing nothing else |
| WedmEnv.GeneratedPositions | wedm-environment.py:161-206 | after a microsecond the deque is the last dissipation_time entries of the old deque followed by the spark height and the downtime's empty slots, or by one empty slot without a spark |
| WedmEnv.GenerateKeepsDeque | wedm-environment.py:161-206 | a full deque stays full whatever a microsecond brings |
| WedmEnv.MicroKeepsDeque | wedm-environment.py:219-228 | unwinding after a microsecond keeps a full deque full |
| WedmEnv.MicroAccounting | wedm-environment.py:161-228 | one microsecond never moves the wire and either adds no spark (both counters tick once, workpiece unchanged) or exactly one (time counter restarted, global clock one plus the downtime, workpiece advanced by the increment) |
| WedmEnv.Moved | wedm-environment.py:240 | a motor step moves only the wire, by direction times the minimum step size |
| WedmEnv.MoveRunUnfold | wedm-environment.py:239-244 | a motor move is its first step and microsecond followed by the rest of the move |
| WedmEnv.RunsKeepDeque | wedm-environment.py:230-276 | the deque keeps exactly dissipation_time entries through any motor move and any servo interval |
| WedmEnv.Reward | wedm-environment.py:283 | the reward is the step's spark count when nothing failed, never exceeds it, and is 2000 below it when the wire both broke and collided |
| WedmEnv.DowntimeLoop | wedm-environment.py:197-199 | the loop ticks rest_time + pulse_duration times and appends that many empty slots to the bounded deque |
| WedmEnv.WireEdmEnv.constructor | wedm-environment.py:36-75 | the environment starts at the configured positions with a deque of dissipation_time empty slots, no visual sparks, zero counters and cleared flags |
| WedmEnv.WireEdmEnv.Create | wedm-environment.py:56-62 | construction fails with ZeroDivisionError when the workpiece height is zero, otherwise with ValueError when dissipation_time is negative, and otherwise yields the initial state |
| WedmEnv.WireEdmEnv.GenerateSparks | wedm-environment.py:161-216 | the fields change exactly as one step of the spark generator says, including the fading of the visual sparks |
| WedmEnv.WireEdmEnv.NoSpark | wedm-environment.py:202-206 | the quiet branch appends one empty slot and ticks both counters |
| WedmEnv.WireEdmEnv.RecordSpark | wedm-environment.py:168-199 | the spark branch is the bookkeeping, then the flags, then the downtime |
| WedmEnv.WireEdmEnv.AdvanceSpark | wedm-environment.py:170-179 | the fields change as the spark bookkeeping function says |
| WedmEnv.WireEdmEnv.UpdateFlags | wedm-environment.py:181-193 | the three flags are set as the flag function says and nothing else changes |
| WedmEnv.WireEdmEnv.Rest | wedm-environment.py:196-199 | the downtime loop charges the global clock and fills the deque with empty slots |
| WedmEnv.WireEdmEnv.UnwindWire | wedm-environment.py:219-228 | the in-place loop leaves every deque entry unwound on its own |
| WedmEnv.WireEdmEnv.Tick | wedm-environment.py:272-276 | one microsecond is spark generation followed by unwinding |
| WedmEnv.WireEdmEnv.MoveAndTick | wedm-environment.py:240-244 | one body of the motor loop: the wire moves one step, then one microsecond runs |
| WedmEnv.WireEdmEnv.MoveMotor | wedm-environment.py:230-244 | the motor loop leaves the state the motor-move function gives, one step and microsecond per draw |
| WedmEnv.WireEdmEnv.ServoLoop | wedm-environment.py:272-276 | the servo loop leaves the state of the servo run, which stops at the first microsecond after which the episode is done |
| WedmEnv.WireEdmEnv.IsDone | wedm-environment.py:246-253 | done exactly when the wire is broken, the target is reached or the wire collides |
| WedmEnv.WireEdmEnv.Simulate | wedm-environment.py:263-276 | the simulated part of a step is the motor move from a zeroed spark count followed by the servo run |
| WedmEnv.WireEdmEnv.Step | wedm-environment.py:255-287 | the decoded motor move and the servo interval run; the observation is the step's spark count, the reward that count minus 1000 per broken or colliding wire, termination the done test, and the episode is never truncated |
| WedmEnv.WireEdmEnv.Reset | wedm-environment.py:290-313 | every changing field returns to its start value, with a fresh deque of empty slots, and the observation and info report that state |
| CleannEnv.Advanced | cleann.py:60-68 | a spark appends 1 to sparks_list and its height to the position deque, adds one to the spark count, restarts the time counter, ticks the global clock once, moves the workpiece by the given increment and adds a visual spark with a 2000 µs lifespan; the flags are untouched |
| CleannEnv.Flagged | cleann.py:69-79 | after a spark the broken flag is the break roll against the crater rule on the position deque, the colliding flag says the wire reached the workpiece, the target flag says the workpiece reached the target distance; nothing else changes |
| CleannEnv.Rested | cleann.py:80-83 | the downtime charges T_rest + spark_ignition_time microseconds to the global clock and appends that many 0s to sparks_list and −1s to the position deque |
| CleannEnv.Quiet | cleann.py:84-88 | a microsecond without a spark appends a 0 and a −1 to the two deques and ticks both time counters |
| CleannEnv.GeneratedLists | cleann.py:59-88 | after a microsecond each deque is the newest entries of the old deque followed by what the microsecond appended: 1 and the spark height then the downtime's 0s and −1s, or one 0 and one −1 |
| CleannEnv.SparkAppends | cleann.py:61-83 | one append followed by a run of appends to a bounded deque keeps the newest entries of everything appended |
| CleannEnv.GenerateKeepsLists | cleann.py:28-29 | full deques stay full whatever a microsecond brings |
| CleannEnv.GenerateAccounting | cleann.py:59-88 | a microsecond never moves the wire; a spark adds one spark, restarts the time counter, charges one plus the downtime to the global clock and moves the workpiece by the increment, otherwise both counters tick once and the workpiece stays |
| CleannEnv.Moved | cleann.py:100 | a motor step moves only the wire, by direction times the minimum step size |
| CleannEnv.MoveRunUnfold | cleann.py:99-101 | a motor move is its first step and microsecond followed by the rest of the move |
| CleannEnv.MoveStepAccounted | cleann.py:99-101 | one motor step and its microsecond satisfy the move accounting for one step |
| CleannEnv.AccountedOne | cleann.py:99-101 | either outcome of a microsecond after a motor step meets the move accounting for one step |
| CleannEnv.AccountedChain | cleann.py:99-101 | the move accounting composes: one step then n steps is n + 1 steps |
| CleannEnv.MoveRunAccounting | cleann.py:97-101 | over a move of n steps there are between 0 and n sparks; the global clock advances by n plus the downtime per spark, the workpiece by one increment per spark and the wire by n steps, with no done check during the move |
| CleannEnv.ServoRunStopsWhenDone | cleann.py:111-114 | the microsecond loop uses at most its draws and stops short of them only once the episode is done |
| CleannEnv.DowntimeLoop | cleann.py:80-83 | the loop ticks T_rest + spark_ignition_time times and appends that many 0s and −1s to the two bounded deques |
| CleannEnv.Environment.constructor | cleann.py:9-39 | the environment starts at the configured positions with sparks_list full of 0s, the position deque full of −1s, no visual sparks, zero counters and cleared flags |
| CleannEnv.Environment.Create | cleann.py:17-29 | construction fails with ZeroDivisionError on a zero unwinding speed and with ValueError when the renewal time or heat_dissipation_time is negative, and otherwise yields the initial state |
| CleannEnv.Environment.GenerateSparks | cleann.py:59-95 | the fields change exactly as one step of the spark generator says, including the fading of the visual sparks |
| CleannEnv.Environment.NoSpark | cleann.py:84-88 | the quiet branch appends a 0 and a −1 and ticks both counters |
| CleannEnv.Environment.RecordSpark | cleann.py:60-83 | the spark branch is the bookkeeping, then the flags, then the downtime |
| CleannEnv.Environment.AdvanceSpark | cleann.py:61-68 | the fields change as the spark bookkeeping function says |
| CleannEnv.Environment.UpdateFlags | cleann.py:69-79 | the three flags are set as the flag function says and nothing else changes |
| CleannEnv.Environment.Rest | cleann.py:80-83 | the downtime loop charges the global clock and fills both deques |
| CleannEnv.Environment.MoveAndGenerate | cleann.py:100-101 | one body of the motor loop: the wire moves one step, then one microsecond of sparking, with no unwinding |
| CleannEnv.Environment.MoveMotor | cleann.py:97-101 | the motor loop leaves the state the motor-move function gives, one step and microsecond per draw |
| CleannEnv.Environment.ServoLoop | cleann.py:111-114 | the loop leaves the state of the servo run, which stops at the first microsecond after which the episode is done |
| CleannEnv.Environment.IsDone | cleann.py:103-104 | done exactly when the wire is broken, the target is reached or the wire collides |
| CleannEnv.Environment.Step | cleann.py:106-114 | the spark counter is cleared first; an action that is not a (direction, steps) pair raises ValueError and changes nothing else, a pair runs the motor move and then the microsecond loop |
| CleannEnv.Environment.Reset | cleann.py:116-122 | positions, both time counters and sparks_list return to their start values and the broken flag is cleared; every other field keeps its value |
| SmokeTest.GapController | experiments/smoke_test.py:24-54 | the generator settings are fixed (80 V, current mode 9, on 2, off 33); in position mode the command is a tenth of the gap error, in velocity mode fifty times the error inside ±20 µm of error, and exactly +1000 or −1000 beyond it |
| SmokeTest.ControllerTracksGap | experiments/smoke_test.py:28-37 | in either mode the command is positive exactly when the gap is wider than desired, zero exactly at the desired gap, and grows as the wire falls back |
| SmokeTest.StrategySignals | experiments/smoke_test.py:68-90 | only full_field, zone_mean and both are known strategies |
| SmokeTest.SetupLogger | experiments/smoke_test.py:57-107 | an unknown strategy raises ValueError; a file configuration logs the base signals plus the strategy's at every step to a compressed npz named after the control mode; otherwise only time is logged in memory at control steps |
| SmokeTest.SetupLoggerValidates | experiments/smoke_test.py:92-107 | every configuration the script builds passes the logger's validation, as a compressed numpy backend or as a memory backend logging only time |
| SmokeTest.StrategyTemperatures | experiments/smoke_test.py:68-90 | a file configuration logs the temperature field unless the strategy is zone_mean, and the zone mean unless it is full_field |
| SmokeTest.TerminationReason | experiments/smoke_test.py:212-223 | reaching the target outranks a broken wire, which outranks termination and then truncation; each result is pinned ("terminated", "truncated") and "unknown" holds exactly when none of them does |
| SmokeTest.StepReasons | experiments/smoke_test.py:212-223 | for any step result, a terminated episode never reads as unknown and an early return on a broken wire always reads as wire broken |

Reset (src/wedm/envs/wire_edm.py:67-70) only installs a fresh `EDMState`,
whose temperature array is empty. The wire module refills that array with the
spool temperature on its next update. `Orchestrator.WireEDMEnv.Reset` and
`Wire.WireModule.Update` state exactly this.

Variants behave differently where their code differs, and the model keeps
each variant's behaviour:

- The main ignition does not reset the duration on entering rest, so a
  pulse cycle takes ON + OFF updates. The earlier kernel does reset it, so
  its cycle takes ON + ON + OFF.
- In the earlier kernel a short (−1) with a positive gap matches no branch
  and stays put.
- The earlier kernel's target is `target_delta`, which is 0 in a fresh
  record, so its first step already terminates.
- Its spark branch raises TypeError while the target voltage is unset.
- The termination thresholds differ:
  - the main environment breaks the wire 100 µm past the workpiece;
  - the earlier kernel breaks it past the workpiece height.

## Left out

- Floating point. Every float is a `real`, so the model covers no rounding,
  no float32 storage or casts, and no NaN or infinity. `np.log(2)` and π are
  real constants with their double values. The model proves the structure of
  the explicit heat step, not its numerical accuracy or stability.
- Randomness. Each `np.random` / `np_random` draw is a parameter, and the
  model says nothing about the distributions. `randint(0, height)` bounds the
  spark height, but `SparkRules.Draw` accepts any integer height.
- The current table `currents.json` (src/wedm/modules/ignition.py:62-73) is
  not read. It is an injected map that must contain "I5".
- The logger's `finalize` (src/wedm/utils/logger.py:166-213) is not modelled:
  it writes the npz file.
- The None result of `get_data` is not modelled. It needs a backend other
  than memory or numpy, which validation already rejects.
- Logger values are Dafny values, so every logged entry is a snapshot taken at
  the call. The source copies only NumPy arrays (src/wedm/utils/logger.py:148-150);
  the copy of the wire temperature array is the one case the model and the
  source agree on. The two lines below name what this leaves out.
- Logger.SimulationLogger.Collect: list-valued signals (`spark_status`) are
  stored by reference in the source, and the ignition module then rewrites
  that same list in place (src/wedm/modules/ignition.py:201-231) until it
  replaces it with a new list. So every entry logged during one pulse and the
  rest after it ends up showing the last value of that cycle. The model logs the value at
  the call, for example `[1, y, 0]` and then `[1, y, 1]` where the source ends
  up holding `[1, y, 1]` twice. Aliasing between the record and the log is
  not modelled.
- Logger.SimulationLogger.GetData: the source returns the live `log_data`
  dict (src/wedm/utils/logger.py:224-225), so later collects and the in-place
  rewrites above still show through it. The model returns the log as a value
  at the time of the call.
- `is_short_circuit` is not a field of the state dataclass. Before the
  ignition module first sets it, a logger reading it gets None through the
  getattr default. The model's record starts it at false, so such a read
  gives `BoolD(false)`.
- Rendering is not modelled: pygame, the `Display` classes, `_render_frame`,
  the frame clock and FPS measured with `time.time`, and every `print`. Only
  the data the environments record for drawing is kept (`sparks_frame` and
  the fading visual sparks).
- Gym plumbing is not modelled: action and observation spaces,
  `super().reset` seeding, the `render_mode` assertion, and the float32
  observation arrays (the model's observation is the integer spark count).
- The module base class and registry (src/wedm/core/module.py) are not part
  of this model. The environment holds its five modules directly.
- The earlier kernel's wire thermal module and its empty mechanics module
  are not modelled. They write temperature fields nothing in that file
  reads.
- The first gym environment keeps some fields that only rendering reads,
  and they are not modelled:
  - `average_gap`, `average_speed` and `initial_gap`; only the TypeError
    that building `average_gap` raises for a fractional gap is modelled;
  - `sparks_positions` and `current_spark_index`, which `reset` sets and
    nothing reads.
- LegacyEnv.LegacyWireEDMEnv.Create: Python ints and floats are both
  `real` here, so a whole gap given as floats (100.0 − 50.0) is accepted,
  while the source raises TypeError for any float gap.
- `spark_counter` in the first gym environment is never initialised by
  `__init__`. The model starts it at 0.
- `break_timeout` and `T_timeout` are stored but never read.
- WedmEnv.WireEdmEnv.Reset: wedm-environment.py:294 passes `seed` and
  `options` to `super().reset` by position, and gymnasium's `Env.reset`
  takes them by keyword only, so every reset as written raises TypeError
  before any field is restored. The model describes the body after that
  call.
- An unset `current_mode`: src/wedm/modules/ignition.py:261 reads the
  attribute directly, so a record that never had it set raises
  AttributeError on the first peak-current read (the first short or spark,
  already on the first step from a fresh record). The model's record holds
  `currentMode` as a field whose default None stands for a mode set to None,
  which falls back to I5.
- wedm-environment.py never imports `deque` or `time`. The model reads the
  deque as `collections.deque`, and `time` is used only for rendering.
  Its `main` refers to undefined names and is a driver only.
- The cleann.py script's `main`, `Display` and `history` are drivers and
  rendering. The model keeps only `main`'s parameters
  (`CleannEnv.MAIN_CONFIG`).
- A tuple of non-integers passed to the cleann.py `step` raises TypeError
  inside `range`, which the model does not cover: a `Pair` action has
  integer fields. A tuple of any other length raises ValueError, which the
  model covers.
- Interface mismatches between files. The model follows each file's own
  code:
  - ignition reads `current_mode` and `debris_density`, which the record is
    given as fields, although no shown module writes them;
  - the environment writes `peak_current`;
  - the smoke script's `mechanics_control_mode=` and `compute_zone_mean=`
    keywords and `compute_zone_mean_temperature` call do not exist in the
    environment, so `SmokeTest.GapController` takes the control mode as a
    parameter.
- Package `__init__` files, `prof.py`, `clean_comments.py`, `blank.py`,
  `setup.py`, the experiment plotting and the example scripts are not part
  of this model.
