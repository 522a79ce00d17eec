# Incubator controller: relay board and bang-bang regulators

This project models the regulation core of a Raspberry Pi incubator controller
and proves properties of that model. The core has three parts.

- **The relay board** (`RelayController`) holds a fixed-size table of on/off
  relay states. Its `turn_on`, `turn_off` and `toggle` act only while the board
  is initialised and only on an index in range. `get_state` reads the table;
  `all_off` switches every relay off; `cleanup` switches everything off and
  releases the board.
- **The temperature regulator** (`TemperatureController`) drives two heater
  relays with a five-band bang-bang policy. A reading at or above the safety
  cutoff forces both heaters off and sets a latch. While the latch is set, the
  loop does nothing but wait for a reading strictly below the cutoff minus 0.3
  degrees.
- **The humidity regulator** (`HumidityController`) drives one humidifier relay
  with a four-band policy and has no latch.

Each controller is a Dafny `class` whose fields are the fields the original
updates in place. One iteration of a control loop is a `Tick` method. A `Tick`
taken while the temperature latch is set is one pass of the recovery sub-loop.
Each `Tick` is proved equal to a pure `Step` function:

- `DesiredHeaters` and `DesiredHumidifier` give the band decision;
- a relay call is a `Command` value, `Switch(relay, on)`;
- `Apply` / `ApplyAll` give the relay table's effect of a list of commands.

A `Loop` method runs one `Tick` per poll and is proved equal to `Run`, which
applies `Step` to each poll in order; the lemmas about runs are stated over
`Run`. `Tick` returns the commands it issued, so "a repeated reading issues no relay
call" can be stated and proved.

What the model proves, in outline:

- `turn_on`, `turn_off` and `toggle` change only the addressed entry, and only
  when their guard holds. `turn_on` and `turn_off` are idempotent; toggling
  twice restores the table.
- On an initialised board, `all_off` and `cleanup` leave every relay off. On an
  uninitialised one they change nothing. After `cleanup`, `turn_on` is
  rejected.
- The temperature controller keeps an object invariant, `Valid()`:
  - heater 2 is never on without heater 1;
  - no heater is on while the latch is set;
  - both heaters are off whenever the loop is not running;
  - while the board is initialised and the heater relay numbers are distinct
    valid indices, the relay table agrees with the heater statuses.
- The humidity controller keeps its own `Valid()`:
  - the humidifier is off whenever the loop is not running;
  - while the board is initialised and the humidifier relay number is a valid
    index, the relay table agrees with the humidifier status.
- Constructed with their default arguments, both controllers are wired to
  valid, distinct relays of their board.
- The latch holds across any run of non-recovering readings, failed reads
  included. During such a run no relay call is made.
- After any run, the humidifier's state is the policy's decision for the last
  successful reading, or the initial state if no read succeeded.

Inputs from outside become parameters:

- each sensor reading is an `Option<Sample>` argument of `Tick`;
- the wall-clock time is a `now: real` argument;
- hardware readiness is given to the constructors as `gpioReady` and
  `sensorConnected`.

Temperatures and humidities are `real`. The policies only compare them and
subtract the constant 0.3.

## Model

| member | source | states |
|---|---|---|
| `Relay.Apply` | relay_controller.py:62-116 | a turn_on/turn_off call changes only the addressed relay, to the requested state, and only when the board is initialised and the index is in `[0, num_relays)`; otherwise the table is unchanged |
| `Relay.ApplyAll` | relay_controller.py:62-116 | a sequence of calls keeps the table's size, and on an uninitialised board leaves it unchanged |
| `Relay.ApplyAllAppend` | temperature_controller.py:185-190 | issuing two lists of calls in turn (heater 1's call, then heater 2's) has the effect of issuing their concatenation |
| `Relay.SwitchIdempotent` | relay_controller.py:80-113 | repeating a turn_on or turn_off leaves the table as the first call left it |
| `Relay.ToggleTwice` | relay_controller.py:128-131 | toggling a valid relay twice restores the table |
| `Relay.RelayController.constructor` | relay_controller.py:15-60 | the default pins are used when none are given, `num_relays` equals the pin count, every state is off, and `is_initialized` reflects whether the GPIO setup succeeded |
| `Relay.RelayController.TurnOn` | relay_controller.py:62-88 | returns True exactly when initialised and in range; then sets that relay on and nothing else, otherwise changes nothing |
| `Relay.RelayController.TurnOff` | relay_controller.py:90-116 | returns True exactly when initialised and in range; then sets that relay off and nothing else, otherwise changes nothing |
| `Relay.RelayController.Toggle` | relay_controller.py:118-131 | negates the stored state through turn_on/turn_off; a Python-negative index is read from the end and then rejected by the call |
| `Relay.RelayController.GetState` | relay_controller.py:133-147 | is False out of range and the stored state otherwise, whether or not the board is initialised |
| `Relay.RelayController.AllOff` | relay_controller.py:149-167 | when initialised every relay ends off and it returns True; otherwise returns False and leaves the table unchanged |
| `Relay.RelayController.Cleanup` | relay_controller.py:169-187 | returns False when not initialised; otherwise every relay ends off and the board is no longer initialised |
| `Relay.Issue` | relay_controller.py:62-116 | one controller-issued call updates the table as `Apply` says and extends the record of issued calls |
| `Relay.CleanupThenTurnOn` | relay_controller.py:169-187 | on any valid board, initialised or not, turn_on returns False for every relay after cleanup |
| `Temperature.DesiredHeaters` | temperature_controller.py:182-230 | heater 2 is on exactly below min−0.3; heater 1 is on exactly below min, or at most max and below target; so heater 2 implies heater 1 |
| `Temperature.BandWrites` | temperature_controller.py:185-229 | no relay call exactly when both statuses already match; each call switches a heater that differs to its desired state |
| `Temperature.Recovers` | temperature_controller.py:170 | the reading that ends the latch is a valid one strictly below the cutoff minus 0.3, so it is also below the cutoff itself |
| `Temperature.Step` | temperature_controller.py:140-236 | a recovery pass only tests the hysteresis condition; a failed read records the reading and time and changes no heater; a cutoff reading switches both off and latches; otherwise the heaters follow `DesiredHeaters`, with calls only on change; the heater invariant is preserved |
| `Temperature.Run` | temperature_controller.py:140-236 | the loop `while self.is_running` as `Step` applied to each poll in order, collecting every relay call; its properties are stated by the lemmas below and tied to the class by `Loop` |
| `Temperature.RunCalls` | temperature_controller.py:140-236 | every relay call of any run addresses one of the two heater relays, and there are at most two per iteration |
| `Temperature.RunKeepsSafe` | temperature_controller.py:140-236 | heater 2 ⇒ heater 1, and latched ⇒ both off, holds after any run of ticks |
| `Temperature.LatchHolds` | temperature_controller.py:158-176 | once latched, every run of readings that are failed or not below cutoff−0.3 leaves the latch set, both heaters off and no relay call issued |
| `Temperature.RecoveryClears` | temperature_controller.py:168-174 | a reading strictly below cutoff−0.3 clears the latch without switching any heater |
| `Temperature.RepeatIssuesNoWrites` | temperature_controller.py:185-229 | with the latch clear, feeding the same reading twice issues no relay call the second time |
| `Temperature.TemperatureController.constructor` | temperature_controller.py:18-63 | an omitted argument takes its default (target 99.8, min 99.6, max 100.2, cutoff 100.3, heater relays 0 and 1), and the default relays are wired; both heaters off, not running, latch clear, no reading yet, own relay board, initialised exactly when sensor and board both are |
| `Temperature.TemperatureController.Start` | temperature_controller.py:65-100 | returns False and changes nothing when not initialised or already running; otherwise running with the latch cleared |
| `Temperature.TemperatureController.Stop` | temperature_controller.py:102-131 | returns False when not running; afterwards never running, both heater statuses off, and both heater relays off on a wired, initialised board |
| `Temperature.TemperatureController.Tick` | temperature_controller.py:140-236 | one loop iteration equals `Step`; the relay table is the old one after exactly the calls issued; the controller invariant is kept |
| `Temperature.TemperatureController.Loop` | temperature_controller.py:140-236 | consecutive Ticks, one per poll, leave the runtime fields as `Run` says and the relay table as after every call `Run` issues; the controller invariant is kept |
| `Temperature.TemperatureController.RecoveryPass` | temperature_controller.py:168-174 | the latch clears exactly on a valid reading below cutoff−0.3 |
| `Temperature.TemperatureController.Record` | temperature_controller.py:146-149 | the reading and its time are recorded even when the read failed |
| `Temperature.TemperatureController.CutOff` | temperature_controller.py:158-165 | both heater relays switched off, statuses off, latch set |
| `Temperature.TemperatureController.Regulate` | temperature_controller.py:179-230 | the heater statuses become `DesiredHeaters` and the calls issued are `BandWrites` |
| `Temperature.TemperatureController.Drive` | temperature_controller.py:185-229 | brings both heaters to a desired state, calling the relay only for a heater that differs |
| `Temperature.TemperatureController.SwitchHeater1` | temperature_controller.py:185-187 | heater 1 is called only when its status differs; the status is set regardless of the call's result |
| `Temperature.TemperatureController.SwitchHeater2` | temperature_controller.py:188-190 | heater 2 is called only when its status differs; the status is set regardless of the call's result |
| `Temperature.TemperatureController.GetStatus` | temperature_controller.py:238-258 | the snapshot holds every status field, and its heater fields satisfy the controller invariant |
| `Temperature.TemperatureController.UpdateSettings` | temperature_controller.py:260-288 | each given threshold replaces the old one, the rest are kept, no ordering is checked, returns True |
| `Temperature.TemperatureController.Cleanup` | temperature_controller.py:290-310 | stops if running, releases the board; all relays off if the board was initialised, and returns True |
| `Temperature.HeatingScenario` | temperature_controller.py:182-230 | with the default thresholds, 99.0, 99.7, 100.0 give both heaters, heater 1, none |
| `Temperature.CutoffScenario` | temperature_controller.py:158-176 | with the default thresholds, 100.35 latches, 100.1 keeps the latch, 99.9 clears it, 99.5 gives heater 1 |
| `Humidity.DesiredHumidifier` | humidity_controller.py:150-175 | on exactly below min, or at most max and below target |
| `Humidity.Step` | humidity_controller.py:130-181 | the reading and time are always recorded; a failed read changes nothing else; a valid one sets the humidifier to `DesiredHumidifier`, calling the relay only on change |
| `Humidity.Run` | humidity_controller.py:130-181 | the loop `while self.is_running` as `Step` applied to each poll in order, collecting every relay call; its properties are stated by the lemmas below and tied to the class by `Loop` |
| `Humidity.LastDecision` | humidity_controller.py:150-175 | the humidifier state decided by the last valid reading, an independent reference definition; with no valid reading it is the initial state |
| `Humidity.RunCalls` | humidity_controller.py:130-181 | every relay call of any run addresses the humidifier relay, at most one per iteration, and the run ends with the last poll's time recorded |
| `Humidity.RunEndsAtLastDecision` | humidity_controller.py:130-181 | after any run the humidifier is in the policy's state for the last valid reading, or unchanged if none |
| `Humidity.RepeatIssuesNoWrites` | humidity_controller.py:151-173 | feeding the same reading twice issues no relay call the second time |
| `Humidity.HumidityController.constructor` | humidity_controller.py:17-56 | an omitted argument takes its default (target 60, min 55, max 65, humidifier relay 2), and the default relay is wired; humidifier off, not running, no reading yet, own relay board, initialised exactly when sensor and board both are |
| `Humidity.HumidityController.Start` | humidity_controller.py:58-92 | returns False and changes nothing when not initialised or already running; otherwise running |
| `Humidity.HumidityController.Stop` | humidity_controller.py:94-121 | returns False when not running; afterwards never running, humidifier status off, and its relay off on a wired, initialised board |
| `Humidity.HumidityController.Tick` | humidity_controller.py:130-181 | one loop iteration equals `Step`; the relay table is the old one after exactly the calls issued; the controller invariant is kept |
| `Humidity.HumidityController.Loop` | humidity_controller.py:130-181 | consecutive Ticks, one per poll, leave the runtime fields as `Run` says and the relay table as after every call `Run` issues; the controller invariant is kept |
| `Humidity.HumidityController.Drive` | humidity_controller.py:150-175 | the humidifier relay is called only when its status differs; the status is set regardless |
| `Humidity.HumidityController.GetStatus` | humidity_controller.py:183-200 | the snapshot holds every status field; a stopped controller reports the humidifier off |
| `Humidity.HumidityController.UpdateSettings` | humidity_controller.py:202-227 | each given threshold replaces the old one, the rest are kept, no ordering is checked, returns True |
| `Humidity.HumidityController.Cleanup` | humidity_controller.py:229-249 | stops if running, releases the board; all relays off if the board was initialised, and returns True |
| `Humidity.Scenario` | humidity_controller.py:150-175 | with target 60, min 55, max 65, the readings 50, 58, 66, 60 give on, on, off, off |

## Left out

- GPIO pin writes (`GPIO.setup`, `GPIO.output`, `GPIO.cleanup`) and all console output: they have no effect the state table does not record.
- Relay.RelayController.TurnOn: does not model the exception path where the GPIO write raises and False is returned; the pin write is not modelled, so the call always succeeds once its guards pass.
- Relay.RelayController.TurnOff: does not model the GPIO-exception path, for the same reason.
- Relay.RelayController.constructor: requires at most eight pins. With more, `turn_on`/`turn_off` set the state and then fail on the relay-name lookup, which the model does not capture.
- Relay.RelayController.Toggle: requires an index Python can subscript (`-num_relays <= n < num_relays`); outside it the source raises before doing anything.
- Threads, the lock, the sleep intervals and the bounded join in `stop`: the loop is a sequence of `Tick` calls, each taken while `is_running` holds, and `stop` means the loop no longer runs. A tick racing with `stop` is not modelled.
- A failure to start the thread (`start` returning False after setting `is_running`) is not modelled.
- The catch-all handler around a loop iteration only logs; the model has no error path there.
- The guard `if not self.safety_triggered` before the band policy is always true when reached in a sequential run, so the model has no separate branch for it.
- The sensor driver (I2C, Celsius-to-Fahrenheit conversion) is not part of this model. A reading is an `Option<Sample>` argument, and `time.time()` is the `now` argument.
- Temperature.TemperatureController.UpdateSettings: does not model `float(...)` raising on a non-numeric argument; the arguments are already `real`.
- Humidity.HumidityController.UpdateSettings: does not model `float(...)` raising, for the same reason.
- Each controller owns a separate relay-state table. On the hardware both use the same eight default pins, so one controller's `all_off` or `cleanup` also switches the other's outputs. The model does not capture that sharing.
- `real` arithmetic is exact, so readings exactly at `min - 0.3` or `safety_cutoff - 0.3` may fall on the other side of the boundary in the original's floating point.
- The web layer, code that reads or writes the settings file, and the manual test harness are not part of this model.
