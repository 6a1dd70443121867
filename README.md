# Simple plane autopilot for Space Engineers, modelled in Dafny

The modelled system is an in-game script (`Mdk.SimpleAutopilot`). It holds a
plane's pitch, roll and bearing at optional target values. Once per update
tick (ten frames, 1/6 s) it feeds the difference between target and measured
attitude to one PID controller per axis, and writes the controllers' outputs
as trim to the control surfaces of the Elevators, Ailerons and Rudders block
groups. Commands typed to the programmable block switch the autopilot on and
off, force a new search for blocks, and set, offset or clear the targets.

The Dafny project has eight modules:

- `Pid` (`pid.dfy`): the discrete-time PID controller as a class with the
  source's fields. Functions over a `History` value state what one `Control`
  call does. Lemmas give closed forms for a whole run of calls: the
  proportional law, the linear integral, and no derivative on the first call.
- `VectorMath` (`vector_math.dfy`): cosine, angle, projection, rejection and
  scalar projection on exact real 3-vectors. The host square root and arc
  cosine are parameters.
- `Actuators` (`actuators.dfy`): the clamp-and-invert rule for one surface,
  and the loop that trims a whole list of surfaces.
- `BearingMath` (`bearing_math.dfy`): the wrap-around of the bearing error,
  and the last corrections applied to a measured bearing.
- `Setpoints` (`setpoints.dfy`): the three optional targets, and the
  `set`/`add`/`sub`/`reset` commands as functions.
- `Cockpits` (`cockpits.dfy`): the choice of the primary cockpit, both as the
  code is written, which the block search uses, and as its comment intends
  (see Findings).
- `Autopilot` (`autopilot.dfy`): the script's state as a class. It covers the
  update tick, the command switch, target updates and the block search. Each
  method is specified by a function of the old state, and lemmas follow those
  functions.
- `Wrappers` (`wrappers.dfy`): an `Option` type.

The bearing error is wrapped by `error - 360 * floor((error + 180) / 360)`,
which yields a value in [-180, 180). An error of exactly 180 becomes -180. The
bearing controller receives the negation of that value, which lies in
(-180, 180].

## Model

| member | source | states |
|---|---|---|
| `Pid.PID.constructor` | Mdk.SimpleAutopilot/PID.cs:22-29 | stores the gains and time step, sets the inverse time step to its reciprocal, and starts re-armed (error sum 0, last error 0, first run) |
| `Pid.PID.Control` | Mdk.SimpleAutopilot/PID.cs:36-56 | the history becomes `Next`: the error sum grows by error × time step, the last error is the error and the first-run flag is clear; the returned value equals `Value`, which is Kp·e + Ki·(new sum) + Kd·derivative, where the derivative is 0 on the first run |
| `Pid.PID.ControlWithTimeStep` | Mdk.SimpleAutopilot/PID.cs:58-66 | adopts dt; the inverse is recomputed only when dt differs from the stored step; then it behaves as `Control` with dt; a valid controller stays valid |
| `Pid.PID.Reset` | Mdk.SimpleAutopilot/PID.cs:68-73 | re-arms the history (0, 0, first run); its frame leaves gains, time step, inverse and `Value` untouched |
| `Pid.Integral` | Mdk.SimpleAutopilot/PID.cs:31-34 | one call's integral rule: with a positive time step the error sum grows, stays or shrinks exactly as the error is positive, zero or negative (its effect over a run is `Pid.FinalHistory` and `Pid.ConstantErrorIntegral`) |
| `Pid.FinalHistory` | Mdk.SimpleAutopilot/PID.cs:31-51 | after n ≥ 1 calls the error sum is the start sum plus time step × the sum of the errors, the last error is the last one, and the flag is clear; no calls change nothing |
| `Pid.OutputAt` | Mdk.SimpleAutopilot/PID.cs:36-56 | closed form of the i-th output of a run: Kp·eᵢ + Ki·(integral of e₀..eᵢ) + Kd·(the first call's derivative, 0 when the run starts re-armed; otherwise (eᵢ − eᵢ₋₁) × the inverse time step, which is 1/T for a valid controller) |
| `Pid.ProportionalLaw` | Mdk.SimpleAutopilot/PID.cs:54 | with Ki = Kd = 0 every output of every run is exactly Kp × its error |
| `Pid.ConstantErrorIntegral` | Mdk.SimpleAutopilot/PID.cs:31-48 | n calls with constant error e after a reset accumulate e·n·T, and the n-th output is Kp·e + Ki·e·n·T |
| `Pid.FirstOutputAfterRearm` | Mdk.SimpleAutopilot/PID.cs:39-45 | the first output after construction or reset has no derivative term |
| `VectorMath.CosBetween` | Mdk.SimpleAutopilot/VectorMath.cs:11-17 | the result lies in [-1, 1]; it is 0 when either vector is zero; for non-zero vectors it is a · b / (\|a\| \|b\|), by `VectorMath.CosBetweenIsCosine` |
| `VectorMath.CosBetweenIsCosine` | Mdk.SimpleAutopilot/VectorMath.cs:8-17 | for non-zero a and b the clamp never bites: the result times √(\|a\|² \|b\|²) is exactly a · b (via Lagrange's identity \|a\|²\|b\|² − (a · b)² = \|a × b\|²) |
| `VectorMath.AngleBetween` | Mdk.SimpleAutopilot/VectorMath.cs:22-28 | 0 when either vector is zero, otherwise acos of `CosBetween` |
| `VectorMath.Projection` | Mdk.SimpleAutopilot/VectorMath.cs:33-42 | the zero vector for a zero argument; always parallel to b (its cross product with b is zero) |
| `VectorMath.Rejection` | Mdk.SimpleAutopilot/VectorMath.cs:47-53 | the zero vector for a zero argument; always orthogonal to b (dot product 0) |
| `VectorMath.ScalarProjection` | Mdk.SimpleAutopilot/VectorMath.cs:58-67 | 0 for a zero argument; a · b when b has unit length and a is non-zero |
| `VectorMath.ProjectionOntoUnit` | Mdk.SimpleAutopilot/VectorMath.cs:38-39 | for a unit b and a non-zero a, the projection is (a · b) b |
| `VectorMath.ProjectionGeneralFormula` | Mdk.SimpleAutopilot/VectorMath.cs:38-41 | the unit fast path agrees with the general formula (a · b / \|b\|²) b |
| `VectorMath.ProjectionPlusRejection` | Mdk.SimpleAutopilot/VectorMath.cs:33-53 | for non-zero a and b, projection + rejection = a |
| `VectorMath.ScalarProjectionTimesLength` | Mdk.SimpleAutopilot/VectorMath.cs:58-67 | for non-zero arguments, the scalar projection times \|b\| is a · b, on both the unit and the general path |
| `VectorMath.AngleToSelf` | Mdk.SimpleAutopilot/VectorMath.cs:11-28 | a non-zero vector has cosine exactly 1 with itself, so its angle is acos(1) |
| `VectorMath.AngleToOpposite` | Mdk.SimpleAutopilot/VectorMath.cs:11-28 | a non-zero vector has cosine exactly -1 with its opposite, so its angle is acos(-1) |
| `Actuators.Narrow` | Mdk.SimpleAutopilot/Program.cs:92-108 | the cast of a controller output to float is finite exactly when the output is below the float overflow threshold, and is then the value itself |
| `Actuators.Written` | Mdk.SimpleAutopilot/Program.cs:355-365 | the written trim is within ±44 and zero exactly when the command is; otherwise its sign is the command's, flipped when inverted; inside the range it is ±command, outside it is ±44 |
| `Actuators.ApplyTrim` | Mdk.SimpleAutopilot/Program.cs:350-368 | a NaN or infinite command leaves the surface as it was; a finite one sets its trim to `Written`; the invert flag is never changed |
| `Actuators.ApplyTrimMultiple` | Mdk.SimpleAutopilot/Program.cs:341-348 | the result is every surface of the list, in order, after `ApplyTrim` with the same command; an empty list is returned as it is |
| `Actuators.ZeroCommandIgnoresInvert` | Mdk.SimpleAutopilot/Program.cs:359-365 | a zero command writes 0 to every surface whatever its invert flag |
| `Actuators.NonFiniteWritesNothing` | Mdk.SimpleAutopilot/Program.cs:352-353 | a non-finite command leaves every surface of a list unchanged |
| `Actuators.TrimsBounded` | Mdk.SimpleAutopilot/Program.cs:355 | surfaces within ±44 stay within ±44 after any command |
| `Actuators.TrimAll` | Mdk.SimpleAutopilot/Program.cs:341-348 | the list after one command has the same length, and each surface in it is the one at the same position after `ApplyTrim` |
| `Actuators.TrimAllIdempotent` | Mdk.SimpleAutopilot/Program.cs:341-368 | writing the same command twice equals writing it once |
| `Actuators.InvertMirrors` | Mdk.SimpleAutopilot/Program.cs:359-365 | an inverted surface receives exactly the negation of what a plain one receives |
| `Actuators.WrittenExamples` | Mdk.SimpleAutopilot/Program.cs:355-365 | 1000 → 44, -1000 → -44, 1000 inverted → -44, 5 inverted → -5, 0 inverted → 0 |
| `BearingMath.NormalizeError` | Mdk.SimpleAutopilot/Program.cs:107 | the wrapped error lies in [-180, 180) and differs from the raw error by a whole number of turns |
| `BearingMath.NormalizeCharacterized` | Mdk.SimpleAutopilot/Program.cs:107 | the wrapped error is the only value in [-180, 180) a whole number of turns away from the raw error |
| `BearingMath.NormalizeInWindow` | Mdk.SimpleAutopilot/Program.cs:107 | an error already in [-180, 180) is passed through unchanged |
| `BearingMath.NormalizePeriodic` | Mdk.SimpleAutopilot/Program.cs:107 | adding n × 360 to the error does not change the result |
| `BearingMath.NormalizeIdempotent` | Mdk.SimpleAutopilot/Program.cs:107 | wrapping twice is wrapping once |
| `BearingMath.NormalizeExamples` | Mdk.SimpleAutopilot/Program.cs:107 | 200 → -160, -200 → 160, 180 → -180, 540 → -180 |
| `BearingMath.PostFix` | Mdk.SimpleAutopilot/Program.cs:320-325 | the bearing is below 359.5 and is 0, the angle, or 360 − angle; facing east it is the angle, facing west 360 − angle, and a westward angle of 0.5 or less reads as 0 |
| `Setpoints.AxisNamed` | Mdk.SimpleAutopilot/Program.cs:205-231 | a name selects an axis exactly when its lower-case form is pitch, roll or bearing, and then that axis |
| `Setpoints.AxisNamedByName` | Mdk.SimpleAutopilot/Program.cs:205-223 | every axis is selected by its name in any letter case |
| `Setpoints.Assign` | Mdk.SimpleAutopilot/Program.cs:208-213 | an offset with a value adds it to the target, or starts the target from the value when absent; any other call replaces the target by the value |
| `Setpoints.AssignTarget` | Mdk.SimpleAutopilot/Program.cs:203-232 | only the named axis changes, by `Assign`; an unknown name changes nothing |
| `Setpoints.Update` | Mdk.SimpleAutopilot/Program.cs:160-201 | an empty mode or axis, an unknown mode, or an unknown axis outside `reset all` changes nothing; an axis other than the named one is never changed (except by `reset all`); reset only ever clears targets |
| `Setpoints.SetHolds` | Mdk.SimpleAutopilot/Program.cs:177-198 | `set <axis> v` makes that target exactly v and leaves the other two |
| `Setpoints.ResetReleases` | Mdk.SimpleAutopilot/Program.cs:167-176 | `reset <axis>` makes that target absent and leaves the other two |
| `Setpoints.ResetAllReleases` | Mdk.SimpleAutopilot/Program.cs:167-174 | `reset all` makes all three targets absent |
| `Setpoints.AddOffsets` | Mdk.SimpleAutopilot/Program.cs:187-198 | `add <axis> v` turns a present target t into t + v and an absent one into v |
| `Setpoints.SubIsNegatedAdd` | Mdk.SimpleAutopilot/Program.cs:193-195 | `sub <axis> v` has exactly the effect of `add <axis> -v` |
| `Setpoints.AddThenSubRestores` | Mdk.SimpleAutopilot/Program.cs:187-198 | `add <axis> v` followed by `sub <axis> v` restores a present target |
| `Setpoints.EmptyArgumentIgnored` | Mdk.SimpleAutopilot/Program.cs:162-163 | an empty mode or axis name changes nothing |
| `Setpoints.UnreadableValueIgnored` | Mdk.SimpleAutopilot/Program.cs:180-185 | set, add and sub with an empty or unparseable number change nothing |
| `Setpoints.UnknownAxisIgnored` | Mdk.SimpleAutopilot/Program.cs:205-231 | a name other than pitch, roll, bearing (or `all` for reset) changes nothing |
| `Setpoints.UnknownModeIgnored` | Mdk.SimpleAutopilot/Program.cs:165-200 | a mode other than reset, set, add or sub changes nothing |
| `Cockpits.AsWrittenChoice` | Mdk.SimpleAutopilot/Program.cs:252-266 | the chosen index is the first cockpit that is main or controlled, or 0 when none is |
| `Cockpits.SelectPrimary` | Mdk.SimpleAutopilot/Program.cs:252-266 | the selection loop as written returns `AsWrittenChoice` |
| `Cockpits.IntendedChoice` | Mdk.SimpleAutopilot/Program.cs:251 | the first main cockpit if there is one; otherwise the first controlled one; otherwise index 0 |
| `Cockpits.SelectPrimaryByPriority` | Mdk.SimpleAutopilot/Program.cs:251-266 | the corrected selection returns `IntendedChoice` |
| `Cockpits.AgreeWithoutMain` | Mdk.SimpleAutopilot/Program.cs:252-266 | without a main cockpit, the loop as written makes the intended choice |
| `Cockpits.ControlledBeforeMainWins` | Mdk.SimpleAutopilot/Program.cs:251-266 | for [controlled, main] the loop as written picks the controlled cockpit; the intended rule picks the main one |
| `Autopilot.ControllerInput` | Mdk.SimpleAutopilot/Program.cs:92-109 | pitch and roll controllers get desired − current; the bearing controller gets a value in (-180, 180] a whole number of turns from current − desired |
| `Autopilot.AxisCommand` | Mdk.SimpleAutopilot/Program.cs:88-109 | an axis without a target commands 0; with one it commands the float cast of 5 × its controller input |
| `Autopilot.Blocker` | Mdk.SimpleAutopilot/Program.cs:53-81 | a tick steers exactly when there is a cockpit, all three surface lists are non-empty and the autopilot is enabled; otherwise it reports the first missing piece in the order cockpit, elevators, ailerons, rudders, and Disabled when nothing is missing |
| `Autopilot.AfterCommand` | Mdk.SimpleAutopilot/Program.cs:124-157 | no command changes the cockpit or the number of surfaces; only start/on/stop/off change the switch, only refresh changes the initialized flag (to false), and only set/add/sub/reset change the targets, which they replace by `Setpoints.Update` of the lower-cased word and the next two arguments |
| `Autopilot.Discovered` | Mdk.SimpleAutopilot/Program.cs:244-286 | no ship controller changes nothing; otherwise the cockpit is the as-written choice, the elevators are the Elevators group (or empty), and each later list is filled only when every earlier group exists; targets and flags are kept |
| `Autopilot.AfterSetup` | Mdk.SimpleAutopilot/Program.cs:234-242 | an initialized state is kept as it is; an uninitialized one is marked initialized and then searched (`Discovered`); the result is always initialized, with the targets and the switch kept |
| `Autopilot.Program.constructor` | Mdk.SimpleAutopilot/Program.cs:18-40 | three distinct controllers with gains (5, 0, 0) and time step 10/60, re-armed; no cockpit, no surfaces, no targets, not initialized, not enabled |
| `Autopilot.Program.Tick` | Mdk.SimpleAutopilot/Program.cs:51-117 | a blocked tick reports why and changes nothing, controllers included; an enabled tick reports each axis's command, steps exactly the controllers of axes with a target, and trims each surface list with its axis's command |
| `Autopilot.Program.Steer` | Mdk.SimpleAutopilot/Program.cs:84-116 | the steering part of an enabled tick, with the same per-axis statement as `Tick` |
| `Autopilot.Program.StepAxis` | Mdk.SimpleAutopilot/Program.cs:88-109 | without a target the controller is untouched and the command is 0; with one the controller steps on the axis's input, holds 5 × that input, and the command is its float cast |
| `Autopilot.Program.UpdateDesiredInternal` | Mdk.SimpleAutopilot/Program.cs:203-232 | the targets become `AssignTarget` of the old targets |
| `Autopilot.Program.UpdateDesired` | Mdk.SimpleAutopilot/Program.cs:160-201 | the targets become `Update` of the old targets |
| `Autopilot.Program.HandleCommand` | Mdk.SimpleAutopilot/Program.cs:121-157 | the state becomes `AfterCommand` of the old state |
| `Autopilot.Program.FindBlocks` | Mdk.SimpleAutopilot/Program.cs:244-286 | the state becomes `Discovered` of the old state |
| `Autopilot.Program.Setup` | Mdk.SimpleAutopilot/Program.cs:234-242 | the state becomes `AfterSetup` of the old state: an initialized script is left alone, otherwise it is marked initialized and the grid is searched |
| `Autopilot.Program.Run` | Mdk.SimpleAutopilot/Program.cs:47-158 | with s the state after `Setup`: a command call ends in `AfterCommand` of s, returns no status and leaves the controllers untouched; a blocked update call returns the blocker, keeps s and the controllers; an engaged one returns the per-axis commands, trims each list with its axis's command and steps exactly the controllers of axes with a target; the script is initialized afterwards unless the command was refresh |
| `Autopilot.SteersExactlyWhenReady` | Mdk.SimpleAutopilot/Program.cs:53-81 | a tick steers if and only if there is a cockpit, three non-empty surface lists and the switch is on |
| `Autopilot.BearingInputIsShortestTurn` | Mdk.SimpleAutopilot/Program.cs:104-108 | the bearing controller gets the negated wrapped error; inside [-180, 180) that is current − desired |
| `Autopilot.EngagedTrimsBounded` | Mdk.SimpleAutopilot/Program.cs:111-113 | if every elevator, aileron and rudder is within ±44 before an engaged tick, all still are after it |
| `Autopilot.StartEnables` | Mdk.SimpleAutopilot/Program.cs:128-131 | `start` and `on` enable the autopilot and change nothing else |
| `Autopilot.StopZeroesSurfaces` | Mdk.SimpleAutopilot/Program.cs:132-138 | `stop` and `off` disable it and write 0 to every elevator, aileron and rudder whatever their invert flags; the targets and cockpit are kept |
| `Autopilot.StopBlocksTick` | Mdk.SimpleAutopilot/Program.cs:132-134 | after `stop` the next tick does not steer |
| `Autopilot.RefreshRequestsSearch` | Mdk.SimpleAutopilot/Program.cs:139-141 | `refresh` clears the initialized flag and nothing else |
| `Autopilot.CommandWordCaseInsensitive` | Mdk.SimpleAutopilot/Program.cs:124 | the command word is read regardless of letter case |
| `Autopilot.UnknownCommandIgnored` | Mdk.SimpleAutopilot/Program.cs:121-157 | an empty command line and an unknown command word change nothing |
| `Autopilot.EmptySearchKeepsState` | Mdk.SimpleAutopilot/Program.cs:246-249 | a search that finds no ship controller keeps the previous cockpit and surfaces |
| `Autopilot.MissingElevatorsBlockTick` | Mdk.SimpleAutopilot/Program.cs:268-274 | a search without an Elevators group empties every surface list, so the next tick reports missing elevators |
| `Autopilot.FullSearch` | Mdk.SimpleAutopilot/Program.cs:252-285 | a search that finds all three groups takes them over; the cockpit is one of those found, main or controlled when any is, and the first one when none is |

## Left out

- `VectorMath.ScalarProjection`: the unit-length fast path is proved equal to a · b only for non-zero a. That a zero-length a has a zero dot product with every b is not proved.
- `VectorMath.ProjectionOntoUnit`: requires a non-zero a, for the same reason.
- `VectorMath.ProjectionGeneralFormula`: requires a non-zero a, for the same reason.
- `VectorMath.ScalarProjectionTimesLength`: requires non-zero a and b, for the same reason.
- `Pid.PID.constructor`: requires a non-zero time step. In the source, a zero step gives an infinite inverse under IEEE arithmetic, which reals cannot express.
- `Pid.PID.ControlWithTimeStep`: requires a non-zero dt whenever it differs from the stored step, for the same reason.
- `Actuators.Narrow`: only overflow to infinity is modelled. Rounding a double to float precision is not.
- Floating point in general: all arithmetic is exact over reals. There are no NaNs or rounding, and `Math.Round(…, 2)` is not modelled.
- VRageMath's `Vector3D.IsZero` and `IsUnit` tolerate small errors. The model uses exact zero and exact unit length.
- `Math.Sqrt` and `Math.Acos` are host functions. They are passed in as parameters, with only the properties a lemma needs required of them.
- Attitude extraction (`GetCurrentPitch`, `GetCurrentRoll`, `GetCurrentBearing`) is floating-point geometry through the game's math library. Its results are inputs to a tick (`Attitude`). Only the final bearing corrections are modelled (`BearingMath.PostFix`).
- Host glue is reduced to its observable effects:
  - Echo messages are reduced to the `TickStatus` a tick returns. It names the blocker, or holds the three commands of an engaged tick. The echoed current pitch, roll and bearing and the echoed targets are not part of it.
  - `Runtime.UpdateFrequency` and `Save` have no effect in the model.
  - The update-source test is the `isUpdate` flag.
  - The grid search is the `Discovery` input.
  - The `IsWing` filter is assumed applied to the group contents.
- Control surfaces are values in lists, not shared objects. A block in two groups would be trimmed once per group in the source, with the last write winning. The model does not capture that aliasing.
- The name of the invert property ("InvertPitch", "Invert", "InvertRoll", "InvertYaw") only selects which host property is read. The model keeps one invert flag per surface.
- The `debug` command is treated as a no-op. The source writes the property list of the first elevator to the block's custom data, and fails on an empty elevator list.
- Command-line tokenising is not modelled: a command is its list of arguments, and a missing argument reads as the empty string. `double.TryParse` is the parameter `parse`. `ToLowerInvariant` is modelled for ASCII letters only.
- The overridable `GetIntegral` hook: no subclass exists, so only the base rule is modelled.

## Findings

| source | as written | input that shows it | evidently intended | confidence | as-written member | corrected member |
|---|---|---|---|---|---|---|
| Mdk.SimpleAutopilot/Program.cs:251-266 | one loop stops at the first cockpit that is main OR under control, so a controlled cockpit listed before the main cockpit wins | cockpits [not main and controlled, main and not controlled]: index 0 is chosen | main cockpit first, then a controlled one, then the first cockpit, as the comment at line 251 says | medium, not executed | `Cockpits.ControlledBeforeMainWins` | `Cockpits.SelectPrimaryByPriority` |
