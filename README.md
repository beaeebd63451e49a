# LOGO! shutter cover, modelled in Dafny

This project models the core of the `logo_shutters` Home Assistant integration. The integration drives a
roller shutter through a Siemens LOGO! controller. It turns on an "open" or a "close" switch to start a
movement. It estimates the shutter's position from elapsed time, because the hardware reports none. Two
optional "moving up" / "moving down" sensors report physical movement. A configurable stop sequence
halts the shutter.

The model covers `custom_components/logo_shutters/cover.py`:

- **`Position`**: `_clamp_position`, with Python's `round` (half to even) written out exactly.
- **`Yaml`** and **`StopSequence`**:
  - the values `yaml.safe_load` yields that the parser distinguishes (null, booleans, integers, floats, strings, lists, mappings), and Python's truthiness, `dict.get`, `float(...)` and `str.strip()` on them;
  - `StopStep`;
  - `_parse_stop_sequence`, both as a function and as a method with the source's loop.
  - The parser's exceptions are part of the model. A truthy `service` that is a boolean or a number makes `"." in service` raise. A list or mapping `service` that contains `"."` passes that test and then makes `service.split` raise. A truthy list or mapping without `"."` is skipped.
- **`Motion`**: the time-linear estimate behind `_interpolated_position`.
- **`CoverSpec`**: the entity's state as a value, with one transition function per operation. These are `__init__`, restore, `_cancel_movement`, `_fire_direction_switch`, `_start_movement`, `async_stop_cover`, `async_set_cover_position`, one pass of the loop of `_run_movement_task` and its completion, and `_handle_motion_sensor`. The service calls and pauses an operation makes are appended to a trace of effects.
- **`CoverProperties`**: what those operations guarantee, including worked scenarios.
- **`LogoCovers`**: the class `LogoCover`, whose methods update its fields in place as the Python object does. The constructor establishes the entity's invariant (`Valid`). Every other method, except three helpers named below, requires and keeps that invariant. Each leaves exactly the state its `CoverSpec` function describes.

  The invariant says:
  - the position is in 0..100;
  - the movement fields are set and cleared together;
  - durations are positive;
  - a running task always has a movement.

  Three helpers touch only some fields: `FireDirectionSwitch`, `ExecuteStopSequence` (with its loop body `RunStep`) and `SetMotion`. They neither require nor state `Valid`. `FireDirectionSwitch` is stated through `FireNext`. The other two state the effects or flags they set directly.

What the code does, as proved:

- **Stop direction.** `async_stop_cover` resolves the direction before cancelling, so a stop during a movement runs that direction's stop sequence (`StopOutcome`).
- **Set position.** `async_set_cover_position` compares the target with the committed position before cancelling, but picks the direction after cancelling has moved the position to the estimate. When the estimate has already reached the target, it turns on the close switch and starts a closing movement. That movement covers no distance but lasts the full closing time (`SetPositionReachedWhileCancelling`).
- **Progress.** Progress is `min(1, elapsed / duration)`. Every operation reads the clock at or after a movement's start, so the estimate stays between the endpoints (`Interpolated`, `TickBetweenEndpoints`).
- **Travel time.** The whole configured travel time is spent on any distance. A move from 0 to 50 with a 20 s opening time publishes 25 after 10 s and reaches 50 at 20 s (`HalfOpenMidway`, `HalfOpenCompletes`).
- **Sensor-tracked movement.** An up sensor active from position 30 for 5 s, with a 20 s opening time, freezes the position at `round(47.5)`, which is 48 (`SensorUpScenario`).
- **Delays.** A step's delay is whatever `float` yields, negative values included. Exactly the positive delays cause a pause of that length, after their step's call (`StepEffectsPauses`).
- **Start position.** A new movement starts from the committed integer position, after the cancel has frozen it (`SetPositionStartsMovement`).
- **Restored position.** A restored position overrides the configured initial position (`RestoreNext`).

Inputs the code gets from outside become parameters:

- the clock becomes a `now: real` argument, one instant per command;
- `yaml.safe_load` becomes `load: string -> Option<YValue>`, where `None` is a loader exception;
- `float(str)` becomes `strToFloat: string -> Option<real>`, where `None` is a `ValueError`.

## Model

| member | source | states |
|---|---|---|
| Position.RoundHalfEven | custom_components/logo_shutters/cover.py:52 | `round` gives an integer within 0.5 of its argument, and an exact tie goes to the even neighbour |
| Position.Clamp | custom_components/logo_shutters/cover.py:50-52 | the result is always a position 0..100; at or below 0 it is 0, at or above 100 it is 100, and in range it is `round` of the value, so within 0.5 of it with ties to even |
| Position.RoundOfInteger | custom_components/logo_shutters/cover.py:52 | rounding an integer returns it unchanged |
| Position.ClampKeepsPositions | custom_components/logo_shutters/cover.py:50-52 | every position 0..100 is a fixed point of the clamp |
| Position.ClampIdempotent | custom_components/logo_shutters/cover.py:50-52 | clamping a clamped value changes nothing |
| Position.RoundMonotone | custom_components/logo_shutters/cover.py:52 | half-to-even rounding preserves order |
| Position.ClampMonotone | custom_components/logo_shutters/cover.py:50-52 | clamping preserves order |
| Yaml.Lookup | custom_components/logo_shutters/cover.py:85 | `dict.get` yields the stored value for a present key and `None` for an absent one |
| Yaml.ToFloat | custom_components/logo_shutters/cover.py:92-95 | `float` fails on `None`, lists and mappings, converts integers exactly and keeps floats |
| Yaml.Truthy | custom_components/logo_shutters/cover.py:86 | Python truthiness of a loaded value, used at cover.py:86, 96 and 363; no contract of its own, its use is stated by `StepOutcomeOf`, `ServiceDataOf` and `StepDataMerges` |
| Yaml.IsBlank | custom_components/logo_shutters/cover.py:68 | empty or whitespace-only text; no contract of its own, its use is stated by `StopSequenceOf` |
| StopSequence.SplitAtFirstDot | custom_components/logo_shutters/cover.py:89 | a split exists exactly when the text has a dot; the parts rejoin to the text around its first dot |
| StopSequence.DotIn | custom_components/logo_shutters/cover.py:86 | `"." in service` raises exactly for values that are not strings, lists or mappings; on a string it is the substring test, on a list the element test for the string `"."`, on a mapping the key test |
| StopSequence.ServiceDataOf | custom_components/logo_shutters/cover.py:96-99 | the step's data is the given mapping, or empty when it is absent, falsy or not a mapping |
| StopSequence.DelayOf | custom_components/logo_shutters/cover.py:91-95 | the delay is 0 when absent or not convertible, otherwise the converted value, negative values kept |
| StopSequence.StepOutcomeOf | custom_components/logo_shutters/cover.py:81-108 | a mapping element is skipped exactly when its service is absent or falsy or has no `"."`, and raises exactly when its service is a truthy boolean or number, or a list or mapping containing `"."`; it is kept exactly when its service is a dotted string, as a step carrying the split service, the entity id, the data and the delay; non-mappings are skipped |
| StopSequence.StepsOf | custom_components/logo_shutters/cover.py:80-109 | the loop yields at most one step per loaded element |
| StopSequence.StopSequenceOf | custom_components/logo_shutters/cover.py:66-109 | blank text, a loader exception or a loaded value that is not a list all give an empty sequence; non-blank text that loads to a list gives exactly the loop's result over that list |
| StopSequence.StepsOfAppend | custom_components/logo_shutters/cover.py:81-109 | parsing a concatenation parses each part in turn: order is preserved and the first exception wins |
| StopSequence.RaisedPrefixRaises | custom_components/logo_shutters/cover.py:81-89 | an element that raises aborts the whole parse, whatever follows it |
| StopSequence.SkippedElementDropped | custom_components/logo_shutters/cover.py:82-88 | a skipped element leaves the steps of the elements around it unchanged |
| StopSequence.AllWellFormedKept | custom_components/logo_shutters/cover.py:100-109 | a list of well-formed elements yields exactly one step per element, in the same order |
| StopSequence.StepsComeFromElements | custom_components/logo_shutters/cover.py:100-109 | every parsed step is the step of some well-formed input element |
| StopSequence.ParseElement | custom_components/logo_shutters/cover.py:82-108 | the loop body's imperative decision agrees with `StepOutcomeOf` on every element |
| StopSequence.ParseStopSequence | custom_components/logo_shutters/cover.py:66-109 | the parser's guard clauses and loop compute exactly `StopSequenceOf`, including its exceptions |
| Motion.Progress | custom_components/logo_shutters/cover.py:385 | progress never exceeds 1, is 0 at the start, 1 once the duration has elapsed, and non-negative for non-negative elapsed time |
| Motion.Interpolate | custom_components/logo_shutters/cover.py:384-387 | the estimate is the start position at elapsed 0, the target once the duration has elapsed, and between the two for any non-negative elapsed time |
| Motion.ScaledStepBetween | custom_components/logo_shutters/cover.py:386-387 | a fraction in [0, 1] of the way from start to target stays between them |
| Motion.ProgressMonotone | custom_components/logo_shutters/cover.py:385 | progress never decreases as time passes |
| Motion.InterpolateMonotone | custom_components/logo_shutters/cover.py:384-387 | the estimate only moves toward the target as time passes |
| CoverSpec.SensorId | custom_components/logo_shutters/cover.py:146-147 | an empty sensor id means no sensor; a non-empty one is kept |
| CoverSpec.SettingsOf | custom_components/logo_shutters/cover.py:141-162 | construction succeeds exactly when none of the three stop sequences raises. Each direction keeps its own sequence when it is non-empty and falls back to the shared one otherwise. Both positions are `Clamp` of the configured value, defaulting to 0 and 40. Sensor ids go through `SensorId`, and the state is assumed exactly when there is no sensor. Name, switches and times are kept. Positive times give valid settings |
| CoverSpec.OrCommon | custom_components/logo_shutters/cover.py:157-162 | `parsed or common`; no contract of its own, the choice is stated by `SettingsOf` |
| CoverSpec.InitialState | custom_components/logo_shutters/cover.py:164-174 | a new entity sits at the initial position, idle, with no movement, sensors off, no last direction and no effects; valid settings give a valid state |
| CoverSpec.RestoreNext | custom_components/logo_shutters/cover.py:214-216 | a restored position replaces the committed one, clamped, and nothing else changes; without one the state is unchanged |
| CoverSpec.Interpolated | custom_components/logo_shutters/cover.py:375-387 | without a movement the estimate is the committed position; with one it starts at the start position, reaches the target once the duration has elapsed, and stays in 0..100 |
| CoverSpec.Direction | custom_components/logo_shutters/cover.py:395-401 | opening wins when the up sensor or the opening flag is set; otherwise closing when the down sensor or the closing flag is set; otherwise the last direction |
| CoverSpec.TurnOffBoth | custom_components/logo_shutters/cover.py:352-358 | the default stop: one `switch.turn_off` naming both switches; no contract of its own, its use is stated by `StopPlan` and `StopFallsBackToSwitchesOff` |
| CoverSpec.StepData | custom_components/logo_shutters/cover.py:362-364 | a step's call data; no contract of its own, the merge is stated by `StepDataMerges` |
| CoverSpec.StepDataMerges | custom_components/logo_shutters/cover.py:362-364 | a step's call data keeps every entry of its own data, adds nothing but the entity id, and adds that exactly when the step has a truthy id and the data names none |
| CoverSpec.StepCalls | custom_components/logo_shutters/cover.py:361-371 | one call per step, in order |
| CoverSpec.StepRun | custom_components/logo_shutters/cover.py:365-373 | one step makes its call first, then one pause of exactly its delay when that delay is positive, and nothing else |
| CoverSpec.StepEffects | custom_components/logo_shutters/cover.py:361-373 | running n steps makes between n and 2n effects |
| CoverSpec.DelayPauses | custom_components/logo_shutters/cover.py:372-373 | one pause per step whose delay is positive, at most one per step; the pauses a run makes are tied to it by `StepEffectsPauses` |
| CoverSpec.SequenceFor | custom_components/logo_shutters/cover.py:345-349 | the up sequence when opening, the down one when closing, none for an unknown direction; no contract of its own, its use is stated by `StopPlan` |
| CoverSpec.StopPlan | custom_components/logo_shutters/cover.py:343-373 | with no direction or an empty sequence the only effect is one `switch.turn_off` of both switches; otherwise it is the run of the direction's steps |
| CoverSpec.CancelNext | custom_components/logo_shutters/cover.py:329-341 | cancelling drops the task and the movement and clears both flags; the position is frozen at the clamped estimate only when asked and a movement exists; sensors, last direction and effects are untouched; the invariant is kept |
| CoverSpec.FireNext | custom_components/logo_shutters/cover.py:274-283 | one `switch.turn_on` of the open or the close switch is appended to the effects and nothing else changes |
| CoverSpec.StartNext | custom_components/logo_shutters/cover.py:285-298 | a started movement runs from the committed position, the estimate at its start equals that position, the flags follow the direction, a task is running, and the invariant is kept |
| CoverSpec.StopNext | custom_components/logo_shutters/cover.py:262-268 | stopping keeps the invariant |
| CoverSpec.SetPositionNext | custom_components/logo_shutters/cover.py:243-260 | a position command keeps the invariant |
| CoverSpec.CompleteNext | custom_components/logo_shutters/cover.py:321-327 | completion keeps the invariant |
| CoverSpec.TickNext | custom_components/logo_shutters/cover.py:305-317 | a tick keeps the invariant |
| CoverSpec.SensorNext | custom_components/logo_shutters/cover.py:403-430 | a sensor event keeps the invariant |
| CoverProperties.StepEffectsCalls | custom_components/logo_shutters/cover.py:361-371 | running stop steps calls exactly each step's service, once, in step order; only pauses come in between |
| CoverProperties.StepEffectsPausesPositive | custom_components/logo_shutters/cover.py:372-373 | every pause between steps is positive |
| CoverProperties.StepEffectsPauses | custom_components/logo_shutters/cover.py:361-373 | the pauses of running stop steps are exactly one pause per step with a positive delay, lasting that delay, in step order; zero and negative delays cause none |
| CoverProperties.StopPlanRunsSteps | custom_components/logo_shutters/cover.py:343-373 | with a configured sequence for the resolved direction, stopping makes exactly that sequence's calls in order, and pauses exactly for the steps with a positive delay, in order |
| CoverProperties.StopOutcome | custom_components/logo_shutters/cover.py:262-268 | stop runs the plan of the direction resolved before cancelling, freezes the position at the clamped estimate, and leaves the shutter idle with its sensors and last direction unchanged |
| CoverProperties.StopFallsBackToSwitchesOff | custom_components/logo_shutters/cover.py:351-359 | with no direction, or no sequences at all, stop makes exactly one call: both switches off |
| CoverProperties.SetPositionWithoutTarget | custom_components/logo_shutters/cover.py:245-247 | a command without a position changes nothing |
| CoverProperties.SetPositionAtCurrentIsStop | custom_components/logo_shutters/cover.py:248-252 | asking for the committed position (after clamping) is exactly a stop |
| CoverProperties.SetPositionStartsMovement | custom_components/logo_shutters/cover.py:254-260 | asking for another position turns on exactly the switch of the direction taken from the frozen position; a movement then starts from there toward the clamped target, with that direction's duration; sensors are untouched |
| CoverProperties.SupersedingStartsAtEstimate | custom_components/logo_shutters/cover.py:254-260 | a command that supersedes a running movement starts the new one at the old one's clamped estimate |
| CoverProperties.SetPositionReachedWhileCancelling | custom_components/logo_shutters/cover.py:250-260 | when cancelling already brings the position to the target, the close switch is turned on and a closing movement starts that covers no distance but lasts the full closing time |
| CoverProperties.TickPublishesEstimate | custom_components/logo_shutters/cover.py:306-314 | before the duration has elapsed, a tick publishes the clamped estimate and changes nothing else |
| CoverProperties.TickCompletes | custom_components/logo_shutters/cover.py:315-327 | once the duration has elapsed, the exact target is committed, the flags follow the sensors, the task is released and no effect is made |
| CoverProperties.TickBetweenEndpoints | custom_components/logo_shutters/cover.py:308-309 | every position a tick publishes lies between the movement's clamped start and its target |
| CoverProperties.SensorIgnoresOtherEntities | custom_components/logo_shutters/cover.py:405-406 | events of other entities change nothing |
| CoverProperties.SensorOnTracksMovement | custom_components/logo_shutters/cover.py:408-424 | a sensor turning on records itself, freezes the position, and tracks a movement toward 100 (up) or 0 (down) with that direction's duration, calling no service |
| CoverProperties.SensorOffReleases | custom_components/logo_shutters/cover.py:408-428 | a sensor turning off records itself; the movement is cancelled with a position update only when no sensor is active any more, and is otherwise untouched |
| CoverProperties.HalfOpenStarts | custom_components/logo_shutters/cover.py:243-260 | opening halfway from a fresh entity at 0 turns on the open switch and starts a 20 s movement from 0 toward 50 |
| CoverProperties.HalfOpenMidway | custom_components/logo_shutters/cover.py:305-314 | 10 s into that movement the published position is 25 |
| CoverProperties.HalfOpenCompletes | custom_components/logo_shutters/cover.py:315-327 | 20 s in, the position is exactly 50 and the shutter is idle |
| CoverProperties.SensorUpScenario | custom_components/logo_shutters/cover.py:403-430 | the up sensor at 30 tracks a movement toward 100 without any service call; releasing it 5 s later freezes the position at 48 and leaves the shutter idle |
| LogoCovers.LogoCover.constructor | custom_components/logo_shutters/cover.py:137-178 | the new entity holds `SettingsOf` of its configuration, is idle at the initial position with no history, and is valid |
| LogoCovers.LogoCover.AddedToHass | custom_components/logo_shutters/cover.py:210-216 | the fields become `RestoreNext` of the old state |
| LogoCovers.LogoCover.WillRemoveFromHass | custom_components/logo_shutters/cover.py:231-233 | removal cancels without a position update |
| LogoCovers.LogoCover.OpenCover | custom_components/logo_shutters/cover.py:235-237 | opening is a position command for 100 |
| LogoCovers.LogoCover.CloseCover | custom_components/logo_shutters/cover.py:239-241 | closing is a position command for 0 |
| LogoCovers.LogoCover.SetShade | custom_components/logo_shutters/cover.py:270-272 | shading is a position command for the configured shade position |
| LogoCovers.LogoCover.SetCoverPosition | custom_components/logo_shutters/cover.py:243-260 | the fields become `SetPositionNext` of the old state, and the invariant is kept |
| LogoCovers.LogoCover.StopCover | custom_components/logo_shutters/cover.py:262-268 | the fields become `StopNext` of the old state, and the invariant is kept |
| LogoCovers.LogoCover.FireDirectionSwitch | custom_components/logo_shutters/cover.py:274-283 | one `switch.turn_on` of the open or the close switch is appended, and nothing else changes |
| LogoCovers.LogoCover.StartMovement | custom_components/logo_shutters/cover.py:285-298 | the fields become `StartNext` of the old state, and the invariant is kept |
| LogoCovers.LogoCover.Tick | custom_components/logo_shutters/cover.py:305-317 | the fields become `TickNext` of the old state; the loop is left exactly when the expected duration has elapsed |
| LogoCovers.LogoCover.Complete | custom_components/logo_shutters/cover.py:321-327 | the fields become `CompleteNext` of the old state |
| LogoCovers.LogoCover.CancelMovement | custom_components/logo_shutters/cover.py:329-341 | the fields become `CancelNext` of the old state |
| LogoCovers.LogoCover.ExecuteStopSequence | custom_components/logo_shutters/cover.py:343-373 | the loop appends exactly `StopPlan` of the direction to the effects, and changes nothing else |
| LogoCovers.LogoCover.RunStep | custom_components/logo_shutters/cover.py:362-373 | one pass of the loop appends exactly `StepRun` of the step to the effects and changes nothing else |
| LogoCovers.LogoCover.SetMotion | custom_components/logo_shutters/cover.py:390-393 | the two flags take the given values and nothing else changes |
| LogoCovers.LogoCover.HandleMotionSensor | custom_components/logo_shutters/cover.py:403-430 | the fields become `SensorNext` of the old state, and the invariant is kept |

## Left out

- Yaml.YValue has no timestamps (`date`, `datetime`), `!!binary` bytes or `!!set` values, which the YAML loader can also produce. Documents that contain one of these, anywhere, are not modelled.
- Yaml.ToFloat: converting an integer always succeeds. Python's `float` raises `OverflowError` on an integer too large for a double. That error is not among those caught at cover.py:94, so it would escape the parser; the model does not capture this.
- Asynchronous scheduling is not modelled: `asyncio` tasks, `CancelledError`, awaiting and the 0.5 s sleep between ticks. The movement task is one flag, and each loop pass is an explicit `Tick` at a chosen instant. Commands are atomic, so the interleaving of two overlapping stop sequences, which the source does not guard against, is not modelled.
- `monotonic()` is a `now` argument that each command reads once. The loop's second clock reading for the elapsed-time test uses the same instant as its estimate.
- `yaml.safe_load` and `float` on strings are foreign routines. They are parameters, and YAML mapping keys are strings only. Numbers are exact reals, so floating-point rounding, `nan` and `inf` are not modelled.
- Home Assistant plumbing is left out: `async_setup_entry`, entity-service registration, `device_info`, the property getters, `async_write_ha_state`, state-change subscriptions, logging and the service-call `context`.
- Service calls always succeed. A failing call, which would raise out of the command, is not modelled.
- config_flow.py is not part of this model. Its bounds (times of at least 0.1 s, positions in 0..100) appear only as the constructor's requirement of positive times.
- LogoCovers.LogoCover.constructor: requires that no stop sequence makes the parser raise. The source's constructor would raise there; the failing case is described by `SettingsOf` returning `None`.
- LogoCovers.LogoCover.Tick: the loop's exit when the movement start has been cleared is not modelled. A cancel always ends the task before it runs again, so a running task always has a movement start.
- LogoCovers.LogoCover.AddedToHass: the restored attribute is taken as a number or absent. Other attribute types are not modelled.
