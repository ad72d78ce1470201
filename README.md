# BluPants robot command layer in Dafny

This project models the command layer of the BluPants educational robot
(`src/python/blupants/beagleboneblue.py`). The layer is a chain of four robot
profiles:

- `BeagleBoneBlue`: the board. It loads the configuration document and offers
  servo and motor writes and a blocking sleep.
- `BluPants`: the four-wheel drivetrain, the claw servo and the ultrasonic
  range finder.
- `BluPantsCar`: adds a two-servo camera mount. It steps through eleven fixed
  presets, looks to an angle, and nods or shakes.
- `EduMIP`: the self-balancing robot. It moves by leaving empty command files
  for an external balancing daemon. Its two shoulder servos act as the claw.

Every hardware effect is an `Event`, appended to the board's `trace` in order:

- a servo position;
- a motor duty;
- a sleep;
- a created command file;
- the ranging trigger pulse.

Three functions read the trace (module `Events`):

- `LastSet`: where an actuator is left.
- `Duration`: how long a command blocks.
- `Files`: which command files it creates.

The lemmas state the source's promises in these terms. The echo line and the
clock are input sequences that the range finder consumes, one element per
`GPIO.input` and per `time.time()` call.

Modules and files:

| module | file | models |
|---|---|---|
| `Config` | config.dfy | The JSON-like document, the top-level merge with the defaults, and nested lookups with Python's `in` semantics. |
| `Events` | events.dfy | The event trace and its three summaries. |
| `Board` | board.dfy | `BeagleBoneBlue`, the servo clamp and scale, and how Python maps list indices to channels. |
| `Ranging` | ranging.dfy | The two polling loops of `_distance_measurement` as functions of the echo and clock reads, the rounding, and the unit choice. |
| `Pants` | blupants.dfy | `BluPants`. |
| `Car` | car.dfy | `BluPantsCar`. |
| `EduMip` | edumip.dfy | `EduMIP`. |

The Python classes inherit from each other. The model uses composition instead:

- a `BluPants` holds its board in `board`;
- a `BluPantsCar` and an `EduMIP` hold their `BluPants` layer in `base`.

Four behaviours of the code are easy to miss:

- **Channels are not checked.** `set_servo` and `set_motor` index a Python list
  with `i - 1`. A servo channel from -7 to 0, or a motor channel from -3 to 0,
  therefore selects a servo or motor counted from the end of the list
  (`ServoSlot`, `MotorSlot`). A channel above 8 (servos) or 4 (motors), or
  below -7 (servos) or -3 (motors), raises `IndexError`. Nothing else rejects
  a channel.
- **Motor duties are not clamped.** They are written as given.
- **EduMIP motion takes no absolute value.** `move` sleeps
  `meter_coefficient * distance`, so a backward move sleeps a negative time.
  `time.sleep` then raises, and the brake file is never written
  (`EduMip.BackwardsNeverBrakes`).
- **`turn_left` uses the right-turn period.** It sleeps
  `angle * turn_right_period`. The configured `turn_left_period` is read but
  never used.

## Model

| member | source | states |
|---|---|---|
| Config.Merged | src/python/blupants/beagleboneblue.py:60-62 | The merged document has the keys of both documents, keeps every user value, and takes a default only for a key the user lacks. |
| Config.MergeIdempotent | src/python/blupants/beagleboneblue.py:60-62 | Merging the defaults into an already merged document changes nothing. |
| Config.MergeOfEmpty | src/python/blupants/beagleboneblue.py:60-62 | An empty user document resolves to exactly the defaults. |
| Config.MergeIsShallow | src/python/blupants/beagleboneblue.py:60-62 | A nested path is resolved wholly in the user document when the user gave its first key, and wholly in the defaults otherwise: nested dictionaries are not merged. |
| Config.MissingPrefix | src/python/blupants/beagleboneblue.py:122-147 | If any prefix of a nested path is missing, the whole path is missing. The chained `in` tests never go past an absent key. |
| Config.KeepsDefaultWhenPrefixMissing | src/python/blupants/beagleboneblue.py:122-147 | A parameter whose nested path is cut off at any level keeps its hardcoded default, for real, index and list parameters alike. |
| Config.Step | src/python/blupants/beagleboneblue.py:124-147 | One `if key in parent:` and `parent[key]`: a dict answers by its keys; a string or list answers `in` without raising, but indexing it then raises; any other value raises at `in`. |
| Config.Walk | src/python/blupants/beagleboneblue.py:124-147 | A chain of such steps along a key path, stopping at the first missing key or raise. |
| Config.Resolve | src/python/blupants/beagleboneblue.py:124-147 | The chain of lookups starting at the configuration dictionary. |
| Config.RealParam | src/python/blupants/beagleboneblue.py:124-147 | A number parameter: the configured value when the whole path is found, the hardcoded default otherwise. |
| Config.IndexParam | src/python/blupants/beagleboneblue.py:133-354 | A channel parameter, the same way: the motor positions and claw servo (:133-143), the camera servos (:277-282) and the shoulder servos (:346-349). |
| Config.RealListParam | src/python/blupants/beagleboneblue.py:124-127 | The `duty_ratio` list, the same way. |
| Board.ServoSlot | src/python/blupants/beagleboneblue.py:89 | `bbb_servos[i - 1]` drives the servo channel in 1..8 that is congruent to `i` modulo 8. |
| Board.MotorSlot | src/python/blupants/beagleboneblue.py:95 | `motors[i - 1]` drives the motor channel in 1..4 that is congruent to `i` modulo 4. |
| Board.ClampAngle | src/python/blupants/beagleboneblue.py:84-87 | The clamped angle lies in [-90, 90]: the angle itself inside, 90 above and -90 below. |
| Board.ServoPosition | src/python/blupants/beagleboneblue.py:84-88 | The written position lies in [-1.35, 1.35]. It equals angle times 0.015 inside [-90, 90], and is ±1.35 beyond. |
| Board.ServoPositionOdd | src/python/blupants/beagleboneblue.py:84-88 | Negating the angle negates the position. |
| Board.ServoPositionMonotone | src/python/blupants/beagleboneblue.py:84-88 | A larger angle never gives a smaller position. |
| Board.ServoWrite | src/python/blupants/beagleboneblue.py:83-90 | The events of one `set_servo`: settle, one position write on the channel, settle. |
| Board.ServoWriteFacts | src/python/blupants/beagleboneblue.py:81-90 | A servo write blocks 0.4 seconds, creates no file, and leaves its own channel, and only that one, at the clamped and scaled angle. |
| Board.BeagleBoneBlue.constructor | src/python/blupants/beagleboneblue.py:25-54 | The board starts running with the merged configuration, an empty trace, and the configured name or "BeagleBoneBlue". |
| Board.BeagleBoneBlue.LoadConfig | src/python/blupants/beagleboneblue.py:56-64 | The loop fills every missing top-level key from the defaults, which gives exactly `Merged`. The name is then taken from the document if it has one. |
| Board.BeagleBoneBlue.Shutdown | src/python/blupants/beagleboneblue.py:66-75 | The board is no longer running. |
| Board.BeagleBoneBlue.Sleep | src/python/blupants/beagleboneblue.py:77-79 | A non-negative sleep is recorded. A negative one raises: `ok` is false and nothing is recorded. |
| Board.BeagleBoneBlue.SetServo | src/python/blupants/beagleboneblue.py:81-90 | Settle, the clamped and scaled position on the selected servo, settle. |
| Board.BeagleBoneBlue.SetMotor | src/python/blupants/beagleboneblue.py:92-95 | The duty is written unchanged to the selected motor, with no delay. |
| Ranging.LeadingRun | src/python/blupants/beagleboneblue.py:157-167 | A loop's run length is within its cap and the input. Every element before it has the polled level, and the element after it differs unless the cap or the input ran out. |
| Ranging.LeadingRunUnique | src/python/blupants/beagleboneblue.py:157-167 | Those three conditions determine the run length. |
| Ranging.FirstLoopReads | src/python/blupants/beagleboneblue.py:157-161 | The first loop reads the echo between 1 and 10001 times. |
| Ranging.SecondLoopReads | src/python/blupants/beagleboneblue.py:162-167 | The second loop reads the echo at most 10001 times. |
| Ranging.EchoReads | src/python/blupants/beagleboneblue.py:157-167 | One measurement reads the echo at most 20002 times. |
| Ranging.ClockReads | src/python/blupants/beagleboneblue.py:154-167 | One measurement reads the clock at most 20004 times. |
| Ranging.Round2 | src/python/blupants/beagleboneblue.py:171 | Rounding to two decimals moves the value by at most 0.005 and keeps its sign. |
| Ranging.Measure | src/python/blupants/beagleboneblue.py:154-167 | The reference outcome of the two polling loops: a timeout when a loop exceeds its budget, otherwise the last clock reading of each loop, or the initial reading when a loop did not iterate. |
| Ranging.Reported | src/python/blupants/beagleboneblue.py:161-172 | The value returned: -1 for a timeout, else the rounded pulse length times 17150. |
| Ranging.MeasurementSystem | src/python/blupants/beagleboneblue.py:197-200 | The lowercased `measurement_system` string, or "m" when it is missing or not a string, as the `except` branch gives. |
| Ranging.InConfiguredUnit | src/python/blupants/beagleboneblue.py:201-206 | The value times 0.393701 under "r", "i" or "b", unchanged otherwise. |
| Ranging.TimeoutIff | src/python/blupants/beagleboneblue.py:156-167 | A measurement times out if and only if the echo never rises within the first budget, or rises and then stays high through the whole second budget. |
| Ranging.NeverRisingTimesOut | src/python/blupants/beagleboneblue.py:157-161 | An echo that never rises gives the -1 sentinel after exactly 10001 reads. The second loop never runs. |
| Ranging.LateRiseIsCaught | src/python/blupants/beagleboneblue.py:157-161 | An echo that rises on the 10001st read is still timed: the first loop gives up only after 10001 low reads. |
| Ranging.CounterRestarts | src/python/blupants/beagleboneblue.py:162-167 | The second loop's counter starts again at 0. A 10001-read high pulse after up to 10000 low reads is timed, not a timeout. |
| Ranging.FirstLoopGivesUp | src/python/blupants/beagleboneblue.py:157-161 | 10001 low reads give a timeout after 10001 echo reads and 10003 clock readings. |
| Ranging.SecondLoopGivesUp | src/python/blupants/beagleboneblue.py:162-167 | An echo high through the whole second budget gives a timeout, with the exact numbers of reads. |
| Ranging.PulseTimed | src/python/blupants/beagleboneblue.py:154-172 | A low run, a rise, a high run and a fall within budget are timed by the last clock reading of each loop, or by the initial readings when a loop did not iterate. The exact numbers of reads are stated. |
| Ranging.ReadingSign | src/python/blupants/beagleboneblue.py:169-172 | With a clock that never goes back, a reading is non-negative, except a missed pulse that is non-positive. |
| Ranging.Lower | src/python/blupants/beagleboneblue.py:198 | `lower()` keeps the length and lowercases each character. |
| Ranging.ImperialTokens | src/python/blupants/beagleboneblue.py:197-202 | Inches are chosen exactly when the setting is one of "r", "R", "i", "I", "b" or "B". |
| Ranging.ImperialSentinel | src/python/blupants/beagleboneblue.py:201-202 | Under an imperial setting a timeout reads -0.393701, not the -1 sentinel. |
| Ranging.DefaultIsCentimetres | src/python/blupants/beagleboneblue.py:197-200 | A missing or non-string setting leaves the value in centimetres. |
| Pants.MoveEvents | src/python/blupants/beagleboneblue.py:208-215 | The events of `move`: duty times ratio on motors 1 to 4, then the sleep and four zero writes, which a negative sleep cuts off. |
| Pants.TurnRightEvents | src/python/blupants/beagleboneblue.py:227-244 | The events of `turn_right`: +0.3 on the left motors, -0.3 on the right ones, then the sleep and four zero writes. |
| Pants.TurnLeftEvents | src/python/blupants/beagleboneblue.py:246-263 | The events of `turn_left`: the same with the signs swapped. |
| Pants.MoveStopsWheels | src/python/blupants/beagleboneblue.py:208-215 | A completed move blocks for `period` and leaves all four wheels at 0. |
| Pants.NegativePeriodLeavesWheelsRunning | src/python/blupants/beagleboneblue.py:211-213 | A move with a negative period leaves each wheel at its driving duty and does not block. |
| Pants.TurnsMirror | src/python/blupants/beagleboneblue.py:227-263 | A left turn is a right turn with every duty negated, in both directions. |
| Pants.TurnStopsMotors | src/python/blupants/beagleboneblue.py:227-263 | A completed turn either way blocks for its sleep and leaves its four motors at 0. |
| Pants.BluPants.constructor | src/python/blupants/beagleboneblue.py:99-147 | `Loaded` and `ClawConfigured`: every parameter is its hardcoded default, replaced by the configured value when its whole nested path exists. The claw starts open and the board is running with the merged configuration. |
| Pants.BluPants.Move | src/python/blupants/beagleboneblue.py:208-215 | Drives motors 1-4 with duty times ratio, then sleeps and stops them. A negative period leaves them running. `duty` is updated. |
| Pants.BluPants.MoveForward | src/python/blupants/beagleboneblue.py:217-220 | `move(blocks / speed, speed)`. |
| Pants.BluPants.MoveBackwards | src/python/blupants/beagleboneblue.py:222-225 | `move(blocks / speed, -speed)`. |
| Pants.BluPants.TurnRight | src/python/blupants/beagleboneblue.py:227-244 | Left wheels at +0.3 and right wheels at -0.3, then `angle * turn_right_period` of sleep, then all four at 0. |
| Pants.BluPants.TurnLeft | src/python/blupants/beagleboneblue.py:246-263 | The mirrored writes, with the same right-turn period. |
| Pants.BluPants.ClawOpen | src/python/blupants/beagleboneblue.py:183-186 | `grab` is set and the claw servo goes to the open angle. |
| Pants.BluPants.ClawClose | src/python/blupants/beagleboneblue.py:188-191 | `grab` is cleared and the claw servo goes to the close angle. |
| Pants.BluPants.ClawToggle | src/python/blupants/beagleboneblue.py:174-178 | `grab` flips, and the servo goes to the angle of the new state. |
| Pants.BluPants.DistanceMeasurement | src/python/blupants/beagleboneblue.py:149-172 | The polling loops return the specified measurement. They consume exactly the specified numbers of echo and clock reads, and record one trigger pulse. |
| Pants.BluPants.ReadDistance | src/python/blupants/beagleboneblue.py:193-206 | The measurement, converted to inches under an imperial setting. |
| Car.CameraToggleEvents | src/python/blupants/beagleboneblue.py:289-294 | The events of one toggle: pause, horizontal write, pause, vertical write, pause, for the wrapped preset. |
| Car.LookAngleEvents | src/python/blupants/beagleboneblue.py:299-307 | The events of `look_angle`: pause, the clamped angle scaled by 0.015 sent to `set_servo`, the vertical servo to 0, pause. |
| Car.GestureEvents | src/python/blupants/beagleboneblue.py:309-323 | The events of `say_yes` on the vertical servo or `say_no` on the horizontal one: look at 0, 60, -60, 60, look at 0. |
| Car.PresetIndex | src/python/blupants/beagleboneblue.py:286-289 | The preset aimed at is always valid: the position itself, or 0 past the end. |
| Car.TogglesCycle | src/python/blupants/beagleboneblue.py:284-295 | The n-th toggle aims at preset (start + n) mod 11. After any toggle `camera_pos` is at most 11. |
| Car.TogglesPeriod | src/python/blupants/beagleboneblue.py:284-295 | Eleven toggles return to the starting preset. |
| Car.CameraToggleFacts | src/python/blupants/beagleboneblue.py:284-295 | A toggle blocks 1.4 seconds and leaves the two camera servos at the preset's angles. |
| Car.LookAngleFacts | src/python/blupants/beagleboneblue.py:297-307 | `look_angle` blocks 1.2 seconds, centres the vertical servo and moves the horizontal one. |
| Car.LookAngleScaledTwice | src/python/blupants/beagleboneblue.py:304-305 | The angle is scaled by 0.015 twice, so the horizontal servo moves at most 0.02025. |
| Car.GestureFacts | src/python/blupants/beagleboneblue.py:309-323 | Either gesture blocks 3.6 seconds, leaves both camera servos centred, and touches nothing else. |
| Car.BluPantsCar.constructor | src/python/blupants/beagleboneblue.py:267-282 | The `BluPants` layer is built as by its own constructor (`Loaded`, `ClawConfigured`). The camera servos default to 1 and 2 unless configured. `camera_pos` starts at 0. |
| Car.BluPantsCar.CameraToggle | src/python/blupants/beagleboneblue.py:284-295 | The current preset is written with its pauses. `camera_pos` becomes the wrapped index plus one, at most 11. |
| Car.BluPantsCar.LookAngle | src/python/blupants/beagleboneblue.py:297-307 | The events of `look_angle` on the selected servos. |
| Car.BluPantsCar.SayYes | src/python/blupants/beagleboneblue.py:309-315 | The nod on the vertical servo. |
| Car.BluPantsCar.SayNo | src/python/blupants/beagleboneblue.py:317-323 | The shake on the horizontal servo. |
| EduMip.CommandEvents | src/python/blupants/beagleboneblue.py:362-368 | The events of one motion: command file, sleep, brake file, 2-second wait, cut off after a negative sleep. |
| EduMip.Direction | src/python/blupants/beagleboneblue.py:362-365 | The up file for a positive distance, the down file otherwise, zero included. |
| EduMip.ShoulderEvents | src/python/blupants/beagleboneblue.py:392-402 | `claw_open` (left shoulder to minus the angle, right to the angle) or `claw_close` (left to the angle, right to minus it). |
| EduMip.SayNoEvents | src/python/blupants/beagleboneblue.py:404-416 | The `say_no` sequence: both shoulders to 0, pause, both to -45, pause, both to 45, pause, both to 0. |
| EduMip.SayYesEvents | src/python/blupants/beagleboneblue.py:418-430 | The `say_yes` sequence: both to 0, pause, right 80 and left -80, pause, left 80 and right -80, a zero pause, both to 0. |
| EduMip.CommandFacts | src/python/blupants/beagleboneblue.py:360-390 | A motion creates its command file and, only when its sleep succeeds, the brake file. It blocks for the sleep plus 2 seconds, or not at all, and moves no servo or motor. |
| EduMip.BackwardsNeverBrakes | src/python/blupants/beagleboneblue.py:374-376 | With positive coefficients a backward move creates only the down file. |
| EduMip.ForwardBrakes | src/python/blupants/beagleboneblue.py:360-372 | With positive coefficients a forward move creates the up file, then the brake file. |
| EduMip.StandingStillGoesDown | src/python/blupants/beagleboneblue.py:362-368 | A zero-length move creates the down file and is braked after a zero sleep. |
| EduMip.ShouldersMirrored | src/python/blupants/beagleboneblue.py:392-402 | Opening or closing leaves the two shoulders at mirrored positions and blocks 0.8 seconds. |
| EduMip.GestureOutFacts | src/python/blupants/beagleboneblue.py:404-411 | The first half of a gesture blocks 2.0 seconds and writes only the shoulders. |
| EduMip.GestureBackFacts | src/python/blupants/beagleboneblue.py:412-416 | The second half of a gesture blocks 1.6 seconds plus its last pause, and leaves both shoulders at 0. |
| EduMip.ShoulderGestureFacts | src/python/blupants/beagleboneblue.py:404-430 | A whole gesture leaves both shoulders at 0, creates no file, and blocks for its writes and pauses. |
| EduMip.GestureDurations | src/python/blupants/beagleboneblue.py:404-430 | `say_no` blocks 3.8 seconds and `say_yes` blocks 3.6. |
| EduMip.EduMIP.constructor | src/python/blupants/beagleboneblue.py:327-354 | The `BluPants` layer is built as by its own constructor (`Loaded`), except the claw angles. The defaults are 0.28, 0.0175, 14, 7 and 6, each replaced by its configured value. The claw angles are reset to 45 and 30, then read from the EduMIP claw settings. |
| EduMip.EduMIP.CreateCommandFile | src/python/blupants/beagleboneblue.py:356-358 | One file is created under "/blupants". |
| EduMip.EduMIP.Command | src/python/blupants/beagleboneblue.py:360-390 | The pattern `move` and both turns share (:362-368, :380-383, :387-390): command file, sleep, brake file, 2-second wait. The sequence stops at a negative sleep. |
| EduMip.EduMIP.Move | src/python/blupants/beagleboneblue.py:360-368 | Up for a positive distance, else down, for `meter_coefficient * distance` seconds. |
| EduMip.EduMIP.MoveForward | src/python/blupants/beagleboneblue.py:370-372 | `move(block_length * blocks)`. |
| EduMip.EduMIP.MoveBackwards | src/python/blupants/beagleboneblue.py:374-376 | `move(block_length * blocks * -1)`. |
| EduMip.EduMIP.TurnLeft | src/python/blupants/beagleboneblue.py:378-383 | The left file, for `turn_coefficient * angle` seconds. |
| EduMip.EduMIP.TurnRight | src/python/blupants/beagleboneblue.py:385-390 | The right file, for `turn_coefficient * angle` seconds. |
| EduMip.EduMIP.ClawOpen | src/python/blupants/beagleboneblue.py:392-396 | `grab` is set. The left shoulder goes to minus the open angle and the right one to the open angle. |
| EduMip.EduMIP.ClawClose | src/python/blupants/beagleboneblue.py:398-402 | `grab` is cleared. The left shoulder goes to the close angle and the right one to minus it. |
| EduMip.EduMIP.ClawToggle | src/python/blupants/beagleboneblue.py:174-178 | The inherited toggle, dispatched to the shoulder claw: `grab` flips. |
| EduMip.EduMIP.SayNo | src/python/blupants/beagleboneblue.py:404-416 | The 45-degree shoulder shake. |
| EduMip.EduMIP.SayYes | src/python/blupants/beagleboneblue.py:418-430 | The 80-degree shoulder gesture, with a zero last pause. |

## Left out

- Hardware: the rcpy state machine, the servo clocks, servo enable and disable, and the GPIO setup and cleanup. They have no observable effect in the model beyond `running`, the trace and the input sequences.
- The `period` setting of the servo clocks is not modelled. It only configures the rcpy clocks.
- The GPIO pin names of the trigger and the echo are not modelled; only their reads and the trigger pulse are.
- The trigger: raising it, the 10-microsecond sleep and lowering it are one `TriggerPulse` event. That sleep is not counted in `Duration`.
- Clocks: `time.time()` readings are an input sequence. Nothing in the model is real time.
- `print_stdout` and the `quiet` flags, and the messages the EduMIP constructor prints, are not modelled: console output only.
- `claw()` is only an alias of `claw_toggle()`, so it has no member of its own.
- Reading the configuration file is not modelled. The source calls `json.load(self.config, f)`, but `json.load` takes one positional argument, so this call raises `TypeError`: construction fails whenever `config_file` names an existing file. The model starts from the given dictionary, as when no file is given.
- The configuration dictionary's default argument `config={}` is shared between calls in Python. The model takes the dictionary as a value.
- `default_config` comes from `robots_common`, which is not part of this model. It enters the constructors as the `defaults` parameter.
- Creating a command file is recorded as an event; the file system itself is not modelled.
- Floating point: all numbers are exact reals, and `Round2` rounds half to even on the exact value.
- `Ranging.Lower`: ASCII letters only. No other character lowercases to a one-letter "r", "i" or "b".
- Configured values of the wrong kind: `_load_config` stores whatever value the document holds, such as `servo_claw: 8.0` or a string `turn_right_period`, and only the command that uses it fails. The model's fields are typed (`real`, `int`, `seq<real>`), so the constructors require `PantsConfigOk`, `CarConfigOk` or `EduConfigOk`. These exclude both such robots and a lookup that reaches a number, bool or null, or a string or list that contains the next key, which raises at construction. A string or list that does not contain the next key answers `in` with False and keeps the default, as in the model.
- Exceptions a command raises, other than a negative `time.sleep`, are preconditions, because an exception would abort the command halfway:
  - a channel outside the servo or motor list (`IsServoIndex`, `IsMotorIndex`);
  - a `duty_ratio` with fewer than four entries (`Pants.BluPants.Move`);
  - a zero `speed`, where `blocks/speed` raises `ZeroDivisionError` (`Pants.BluPants.MoveForward`, `Pants.BluPants.MoveBackwards`).
- Default arguments are not modelled: every member takes all its arguments explicitly. The source's defaults are:
  - `set_servo(i=1, angle=0.0)`, `set_motor(i=1, duty=0.5)` and `sleep(seconds=1.0)`;
  - `move(period=1, duty=1)`, `move_forward(blocks=1, speed=0.5)` and `move_backwards(blocks=1, speed=0.5)`;
  - `turn_right(angle=90)`, `turn_left(angle=90)` and `look_angle(angle=90)`;
  - the EduMIP's `move(distance_meter=1.0)`, `move_forward(blocks=1)`, `move_backwards(blocks=1)`, `turn_left(angle=90.0)` and `turn_right(angle=90.0)`.
- Pants.BluPants.DistanceMeasurement: the echo and clock inputs must be long enough for both loops to run out; the hardware's inputs are unbounded.
- Composition instead of inheritance: a `BluPantsCar` or an `EduMIP` exposes its `BluPants` operations through `base`. Overriding is modelled only where the source relies on it, in `EduMIP.ClawToggle`. The EduMIP overrides `move`, the turns and the claw commands, so of an `EduMIP`'s `base` only the fields, `ReadDistance` and `DistanceMeasurement` stand for source behaviour; its `Move`, `TurnLeft`, `TurnRight`, `ClawOpen`, `ClawClose` and `ClawToggle` are the `BluPants` versions the EduMIP replaces.
