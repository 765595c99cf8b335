# Kiln controller: a Dafny model

This project models the decision logic of a kiln controller and proves
properties of it. The controller is an ESP32 firmware that drives a
solid-state relay (SSR) from a thermocouple, plus a web front end with a
mock backend. Five parts are modelled:

- `firmware.dfy`, module `Firmware`: one iteration of the firmware's
  `loop()`. It covers the safety check (over-temperature latch, door
  interlock), the thermocouple read with its NaN error, and `updatePID()`.
  That step uses either the autotuner or the PID, then derives the relay
  level from a 5000 ms time-proportional window. Pure functions
  (`SafetyCheck`, `PidStep`, `LoopIteration`, `Run`) define one iteration
  over a snapshot of the globals. The class `Controller` holds the globals
  as fields, with one method per firmware function. Each method is proved
  to produce exactly the state and relay writes of those functions. The
  relay pin is a trace of the levels written to it.
- `mock_api.dfy`, module `MockApi`: the demo backend. The class `Backend`
  holds the mock `kilnState` and the stored schedule list. Its methods are
  the `/api/control` and `/api/autotune` handlers, the autotune timeout,
  the two-second heating interval, and the schedule POST/PUT/DELETE
  handlers.
- `schedule_editor.dfy`, module `ScheduleEditor`: the editor's step
  handlers (add, update, remove, drag-and-drop reorder). It also has the
  firing-cost estimate. That estimate is a loop, proved equal to a fold
  over the steps with a running temperature.
- `app.dfy`, module `App`: the front end's status transitions (start,
  stop, autotune, skip), the heating and holding simulation updaters, and
  the schedule library's save (an upsert by id) and delete.
- `dashboard.dfy`, module `Dashboard`: the 50-entry chart history, the
  state-to-colour map, the time-remaining label, the error alert, the step
  label, and which buttons each state shows.

Two shared files support these. `types.dfy` (`KilnTypes`) holds the
shared records: schedule steps, schedules and the status record.
`schedule_list.dfy` (`ScheduleList`) holds the id-based list transforms
that the backend and the front end share.

The hardware, the libraries and the clock become explicit inputs:

- A `TickInput` carries the thermocouple reading, the door switch,
  `millis()`, the output the PID library computes, and the autotuner's
  output, completion flag and gains.
- `Math.random()` is a parameter of the front-end simulation.
- Timers and intervals are separate events (methods or functions) that
  the caller invokes.
- Temperatures, rates and costs are `real`.

### Observations on the code

Where the repository states an intent in a comment or its changelog, the
point quotes it. In every case the model follows the code:

- **Door interlock.** `handleSafety()` writes LOW with the comment "Door
  open, pause heating" (src/firmware/enhanced_main.cpp:138), and the
  firmware changelog lists the door switch among its "critical safety
  limits" (src/components/Documentation.tsx:28). In the same iteration,
  `updatePID()` then writes the level the window decides, so an open door
  does not pause heating (`DoorDoesNotDecideLastWrite`,
  `DoorOpenStillEndsHigh`).
- **Over-temperature check.** `handleSafety()` compares the `input` left
  by the previous iteration with the 1300 limit, before the new reading
  is taken. A reading above the limit is therefore acted on one iteration
  late (`OverTempActsNextIteration`).
- **Fail-safe after a read error.** The LOW marked "Fail-safe"
  (src/firmware/enhanced_main.cpp:115) is written only by the iteration
  after the one that reads NaN. With the door closed, the NaN iteration
  writes nothing, so the previous level stays on the relay for one more
  iteration (`NaNLeavesRelayForOneIteration`).
- **Leaving the error state.** No code path clears ERROR_STATE except
  `startAutoTune()`, which the `/api/autotune` handler calls in any state
  (`AutotuneFromError`).
- **Commands accepted in any state.** The backend's `/api/control` and
  `/api/autotune` handlers and the front end's start, stop and autotune
  handlers check no state before acting.
- **Rate unit.** The step record documents `rate` in degrees per minute
  (src/types.ts:5). The cost estimate divides a temperature difference by it
  to get hours, so it reads the rate in degrees per hour. The model
  computes what the estimate computes.

## Model

| member | source | states |
|---|---|---|
| KilnTypes.PhaseOfName | src/types.ts:20 | a state string read back as a phase names exactly that phase |
| KilnTypes.PhaseName | src/types.ts:20 | every phase has a non-empty state string; `PhaseNameRoundTrip` shows the six strings are distinct and read back as their phase |
| KilnTypes.PhaseNameRoundTrip | src/types.ts:20 | every phase's string reads back as that phase, so the six state strings are distinct |
| ScheduleList.ReplaceById | src/backend/enhanced_api.ts:92 | the result has the same length; each schedule with the id is the replacement, every other one is unchanged |
| ScheduleList.RemoveById | src/backend/enhanced_api.ts:100 | a schedule is in the result iff it was in the list and does not carry the id; the result is no longer |
| ScheduleList.CountId | src/backend/enhanced_api.ts:100 | the number of schedules with the id is at most the length |
| ScheduleList.ReplaceAbsent | src/backend/enhanced_api.ts:92 | replacing an id no schedule carries leaves the list unchanged (no insert) |
| ScheduleList.ReplaceIdempotent | src/App.tsx:573 | replacing twice with the same schedule equals replacing once |
| ScheduleList.ReplaceAppend | src/App.tsx:573 | replacement distributes over concatenation |
| ScheduleList.RemoveCount | src/backend/enhanced_api.ts:100 | delete shortens the list by exactly the number of schedules with the id, and none with the id remains |
| ScheduleList.RemoveAppend | src/backend/enhanced_api.ts:100 | removal distributes over concatenation, so the order of the kept schedules is preserved |
| ScheduleList.RemoveAbsent | src/backend/enhanced_api.ts:100 | removing an id no schedule carries leaves the list unchanged |
| ScheduleList.RemoveIdempotent | src/backend/enhanced_api.ts:97-103 | deleting the same id twice equals deleting it once |
| Firmware.SafetyCheck | src/firmware/enhanced_main.cpp:132-141 | an input above 1300 latches ERROR_STATE with the over-temperature message, otherwise nothing changes; only state and message can change; a single LOW is written iff the door is open and the resulting state is not IDLE |
| Firmware.AdvanceWindow | src/firmware/enhanced_main.cpp:155-158 | the window start moves by 0 or exactly one window, and moves iff the gap exceeds the window; it never passes the clock; a gap of at most two windows ends at most one window; a larger gap stays above one window |
| Firmware.RelayLevel | src/firmware/enhanced_main.cpp:159-163 | HIGH iff the output exceeds the elapsed time; an output of at most 0 gives LOW; an output above the window size gives HIGH within the window |
| Firmware.FinishTuning | src/firmware/enhanced_main.cpp:175-180 | the tuned gains are installed and the state is IDLE, nothing else changes |
| Firmware.StartTuning | src/firmware/enhanced_main.cpp:166-168 | tuning is on and the state is AUTOTUNE, from any state, nothing else changes |
| Firmware.PidStep | src/firmware/enhanced_main.cpp:143-164 | while tuning, the tuner's output is used and, when it reports done, tuning ends with the new gains and IDLE; otherwise the PID output is used and state and gains stay; the window advances as AdvanceWindow; exactly one relay write, decided by RelayLevel on the advanced window |
| Firmware.LoopIteration | src/firmware/enhanced_main.cpp:103-116 | in an iteration whose safety check yields ERROR_STATE, nothing more happens except a final LOW; a NaN reading sets ERROR_STATE with the read-error message and only the safety writes; a number runs PidStep on the new reading after the safety writes; the window stays between its old value and the clock; the next state is ERROR_STATE, IDLE or unchanged |
| Firmware.Run | src/firmware/enhanced_main.cpp:103-116 | no iterations write nothing and change nothing; each iteration writes the relay at most twice; `ErrorIsSticky` and `WindowMovesInWholeWindows` state what any number of iterations keep |
| Firmware.ErrorSkipsReadAndPid | src/firmware/enhanced_main.cpp:106-116 | once ERROR_STATE is present after the safety check, input, window and output are untouched and every write of the iteration is LOW, the last one included |
| Firmware.ErrorIsSticky | src/firmware/enhanced_main.cpp:104-116 | from ERROR_STATE, any number of iterations stays in ERROR_STATE and writes only LOW |
| Firmware.WindowMovesInWholeWindows | src/firmware/enhanced_main.cpp:155-158 | over n iterations with a monotone clock, the window start grows by a multiple of the window size, by at most n windows, and never passes the last clock reading |
| Firmware.WindowStep | src/firmware/enhanced_main.cpp:155-158 | one iteration moves the window start by nothing or one whole window, and not past the clock |
| Firmware.OverTempActsNextIteration | src/firmware/enhanced_main.cpp:104-107 | a reading above 1300 does not stop the iteration that reads it; the next iteration latches ERROR_STATE with the over-temperature message |
| Firmware.NaNLeavesRelayForOneIteration | src/firmware/enhanced_main.cpp:104-116 | with the door closed, an iteration reading NaN enters ERROR_STATE and writes nothing; the next iteration writes only LOW, the last write included |
| Firmware.DoorDoesNotDecideLastWrite | src/firmware/enhanced_main.cpp:137-163 | when the iteration reaches updatePID, the state reached and the last relay write are the same with the door open or closed, and the last write is decided by the window |
| Firmware.DoorOpenStillEndsHigh | src/firmware/enhanced_main.cpp:137-163 | heating with the door open and a full output, an iteration writes LOW and then HIGH |
| Firmware.AutotuneFromError | src/firmware/enhanced_main.cpp:166-168 | startAutoTune leaves ERROR_STATE; after a read error a numeric reading keeps it out, while a stale over-temperature input re-latches ERROR_STATE with its message |
| Firmware.TuningIgnoresPid | src/firmware/enhanced_main.cpp:144-151 | while tuning, the PID library's output has no effect on the iteration |
| Firmware.Controller.Setup | src/firmware/enhanced_main.cpp:70-91 | a failed SPIFFS mount skips the rest of setup; a failed thermocouple start enters ERROR_STATE with its message; the window starts at the clock; initial input 20, output 0, gains 2/5/1, no writes |
| Firmware.Controller.DigitalWrite | src/firmware/enhanced_main.cpp:160 | the level is appended to the relay trace |
| Firmware.Controller.HandleSafety | src/firmware/enhanced_main.cpp:132-141 | the new globals and relay writes are those of SafetyCheck |
| Firmware.Controller.FinishAutoTune | src/firmware/enhanced_main.cpp:175-180 | the new globals are those of FinishTuning |
| Firmware.Controller.StartAutoTune | src/firmware/enhanced_main.cpp:166-168 | the new globals are those of StartTuning |
| Firmware.Controller.UpdatePid | src/firmware/enhanced_main.cpp:143-164 | the new globals and relay writes are those of PidStep; the window start stays between 0 and the clock |
| Firmware.Controller.Tick | src/firmware/enhanced_main.cpp:103-116 | the new globals and the returned writes are those of LoopIteration; the writes are appended to the relay trace; window start stays between 0 and the clock |
| MockApi.Backend.constructor | src/backend/enhanced_api.ts:7-15 | the initial mock state: 22.5 degrees, idle, no schedule, the stored schedule list |
| MockApi.Backend.Control | src/backend/enhanced_api.ts:40-56 | start: heating, the given schedule id, step 0; stop: idle, no schedule id, step index kept; any other action: 400 "Invalid action" and no change; temperature, setpoint, time and error never change; start and stop are accepted in every state |
| MockApi.Backend.StartAutotune | src/backend/enhanced_api.ts:59-62 | the state is autotune from any state and the answer is "Autotune started" |
| MockApi.Backend.AutotuneTimeout | src/backend/enhanced_api.ts:64-70 | the state returns to idle only if it is still autotune |
| MockApi.Backend.SimulationTick | src/backend/enhanced_api.ts:116-122 | only a heating kiln changes: +2.5 degrees, and holding once strictly above 1000 |
| MockApi.Backend.CreateSchedule | src/backend/enhanced_api.ts:80-86 | the schedule is appended at the end |
| MockApi.Backend.UpdateSchedule | src/backend/enhanced_api.ts:88-95 | every schedule with the id is replaced; an unknown id leaves the list unchanged |
| MockApi.Backend.DeleteSchedule | src/backend/enhanced_api.ts:97-103 | every schedule with the id is removed and the length drops by their number |
| MockApi.StartDuringAutotune | src/backend/enhanced_api.ts:64-67 | a start issued while autotuning wins over the pending timeout: heating with the firing's schedule id |
| MockApi.AutotuneDuringFiring | src/backend/enhanced_api.ts:59-70 | autotune started during a firing and left to time out ends idle, with the schedule id still set |
| MockApi.FiringReachesHolding | src/backend/enhanced_api.ts:116-122 | from 22.5 degrees a firing holds after exactly 392 ticks, at 1002.5 (1000 itself is not above the threshold) |
| ScheduleEditor.AddStep | src/components/ScheduleEditor.tsx:121-137 | without a selection, no change; otherwise exactly one step is appended at 0 degrees, ramp/cool with rate 100 and no duration, hold with 60 minutes and no rate, the rest of the schedule unchanged |
| ScheduleEditor.Edited | src/components/ScheduleEditor.tsx:142 | only the edited field of the step changes |
| ScheduleEditor.UpdateStep | src/components/ScheduleEditor.tsx:139-144 | without a selection, no change; otherwise the step at the index is edited, the length and every other step are unchanged |
| ScheduleEditor.RemoveStep | src/components/ScheduleEditor.tsx:146-151 | without a selection or for an index past the end, no change; otherwise exactly that step is removed, the others keep their order and the multiset loses exactly that step |
| ScheduleEditor.FindIndex | src/components/ScheduleEditor.tsx:157-158 | the first index of a step with the id, or -1 iff none has it |
| ScheduleEditor.MoveTarget | src/components/ScheduleEditor.tsx:162 | a non-negative index is kept; a negative one counts back from the end of the list; any index from minus the length to below the length lands in the list |
| ScheduleEditor.ArrayMove | src/components/ScheduleEditor.tsx:162 | the length is kept |
| ScheduleEditor.ArrayMoveSpec | src/components/ScheduleEditor.tsx:162 | the moved element lands at the target, the elements in between shift by one towards the gap, the others stay, and the multiset is unchanged |
| ScheduleEditor.DragEnd | src/components/ScheduleEditor.tsx:153-165 | without a selection or dropped on itself, no change; otherwise a permutation of the steps in which the dragged step is at the drop target's index (last when dropped on nothing) |
| ScheduleEditor.DragOntoStep | src/components/ScheduleEditor.tsx:157-163 | dropped on another step, the dragged step takes exactly its place and the other steps keep their relative order |
| ScheduleEditor.StepHours | src/components/ScheduleEditor.tsx:174-183 | a ramp/cool step with positive rate takes the temperature difference divided by the rate; without one, zero; a hold step takes its duration in hours |
| ScheduleEditor.HoursAppend | src/components/ScheduleEditor.tsx:173-185 | the estimate of a concatenation adds up, the second part starting from the first part's last target |
| ScheduleEditor.HoursFrom | src/components/ScheduleEditor.tsx:173-185 | with no negative hold duration the estimated hours are never negative; `HoursAppend`, `HoursFromStep` and `EstimatedCost` relate it to the estimate's loop |
| ScheduleEditor.HoursFromStep | src/components/ScheduleEditor.tsx:173-185 | the estimate from any step on is that step's hours from the running temperature plus the estimate of the rest from its target |
| ScheduleEditor.UnratedStepOnlyMovesTemp | src/components/ScheduleEditor.tsx:174-184 | a ramp/cool step without a positive rate adds no hours but the following steps start from its target |
| ScheduleEditor.EstimatedCost | src/components/ScheduleEditor.tsx:168-190 | 0 without a selection; otherwise the fold's hours times power times 0.6 times tariff |
| ScheduleEditor.BisqueEstimate | src/App.tsx:15-20 | the demo bisque schedule is estimated at 9.25 hours, 2.4975 at 3 kW and 0.15 per kWh |
| App.Start | src/App.tsx:527-535 | heating, setpoint 1060, step 0, 360 minutes left; temperature, schedule id and error kept |
| App.Stop | src/App.tsx:537-545 | idle, setpoint 0, no step index, 0 minutes left; temperature, schedule id and error kept |
| App.StartAutotune | src/App.tsx:547-553 | autotune, setpoint 100, 0 minutes left; temperature and step index kept |
| App.AutotuneDone | src/App.tsx:556-558 | idle only if still in autotune, otherwise unchanged |
| App.Skip | src/App.tsx:561-568 | a defined step index grows by exactly one and nothing else changes; without one, no change |
| App.HeatingTick | src/App.tsx:508-514 | for any increment the temperature stays at most the setpoint; holding at exactly the setpoint iff the new temperature reaches it |
| App.HoldingTick | src/App.tsx:517-521 | only the temperature changes, within one degree of the setpoint for a fluctuation in [-1, 1] |
| App.SimulationTick | src/App.tsx:504-525 | only heating and holding change anything; the setpoint is kept; holding stays holding; heating stays at most the setpoint, is holding iff at the setpoint, and rises at least one degree when still heating |
| App.Simulate | src/App.tsx:504-525 | successive seconds never change the setpoint, and leave a kiln that is neither heating nor holding as it is; `HoldingStaysNearSetpoint` and `HeatingReachesHolding` state where heating and holding go |
| App.HoldingStaysNearSetpoint | src/App.tsx:516-522 | any number of holding ticks stays holding, within one degree of the setpoint |
| App.HeatingReachesHolding | src/App.tsx:504-522 | a heating kiln given more ticks than the remaining degrees ends holding within one degree of the setpoint |
| App.Save | src/App.tsx:570-576 | a known id has every matching schedule replaced and the length kept; an unknown id is appended; the id is present afterwards |
| App.SaveIdempotent | src/App.tsx:570-576 | saving the same schedule twice gives the list of saving it once |
| App.SaveThenDelete | src/App.tsx:570-580 | saving and then deleting the same id gives the list without that id, in order |
| App.RemoveAfterReplace | src/App.tsx:573-579 | deleting an id after replacing it equals deleting it |
| Dashboard.Recent | src/components/EnhancedDashboard.tsx:27 | the last min(n, length) elements, in order |
| Dashboard.UpdateHistory | src/components/EnhancedDashboard.tsx:19-31 | the status's temperature and setpoint, with its time, become the newest entry; below 50 the history grows by it, from 50 on the oldest entry is dropped; from at most 50 the result is the last 50 |
| Dashboard.RecentAppend | src/components/EnhancedDashboard.tsx:27 | trimming after each append is trimming after the whole sequence for one more element |
| Dashboard.RecentConcat | src/components/EnhancedDashboard.tsx:27 | trimming to 50 before appending any sequence is the same as trimming afterwards |
| Dashboard.ReplayKeepsLastFifty | src/components/EnhancedDashboard.tsx:19-31 | from a history of at most 50, a series of updates leaves exactly the last 50 entries, oldest first |
| Dashboard.Replay | src/components/EnhancedDashboard.tsx:19-31 | from at most 50 entries the history never exceeds 50, and after at least one update its newest entry is the last update; `ReplayKeepsLastFifty` gives its exact contents |
| Dashboard.StatusColor | src/components/EnhancedDashboard.tsx:33-43 | total: grey iff the state is idle or names no phase |
| Dashboard.PhaseColorsDistinct | src/components/EnhancedDashboard.tsx:33-43 | the six phases get six different colours, and only idle gets grey |
| Dashboard.JsRem60 | src/components/EnhancedDashboard.tsx:84 | the JavaScript remainder by 60: sign of the dividend, magnitude below 60, same residue |
| Dashboard.FormatTimeRemaining | src/components/EnhancedDashboard.tsx:84 | "--:--" iff undefined or 0; for t > 0, hours and minutes with 60 h + m = t and 0 <= m < 60 |
| Dashboard.NegativeTimeDoesNotAddUp | src/components/EnhancedDashboard.tsx:84 | a negative time of -30 shows as -1 hours and -30 minutes |
| Dashboard.ErrorAlert | src/components/EnhancedDashboard.tsx:95-103 | an alert appears iff the state is error; it shows the status's message, or the fixed text when that is missing or empty |
| Dashboard.StepLabelOf | src/components/EnhancedDashboard.tsx:70-72 | hidden iff idle or error; otherwise index + 1 when defined, "-" when not |
| Dashboard.Controls | src/components/EnhancedDashboard.tsx:112-160 | idle: autotune and start; autotune: abort only; every other state, error included: pause, skip and abort |
| Dashboard.Press | src/components/EnhancedDashboard.tsx:112-160 | each button calls the handler it is given at src/App.tsx:639: abort gives idle with no step index, start heating at step 0, autotune the autotune state, skip keeps state and temperature; Pause calls none and changes nothing; no button changes the temperature |
| Dashboard.ControlsReachIdle | src/components/EnhancedDashboard.tsx:112-160 | every state but idle offers abort, which always leads to idle; start and autotune are offered iff idle |

## Left out

- Network and storage: WiFi, the firmware's web server and WebSocket
  (`notifyClients`, the two-second broadcast), and SPIFFS contents are I/O.
  The same goes for the backend's Express routing, socket.io emits, and
  reading and writing schedules.json. The stored list is a constructor
  parameter and a field.
- Foreign libraries: the PID library's `Compute` and the autotune
  library's `Runtime` and gain getters are not part of this model. Their
  results are inputs of each iteration. The output limits
  `[0, windowSize]` are not imposed, so the firmware lemmas hold for any
  output.
- The sortable list library's `arrayMove` is not part of this model.
  `ScheduleEditor.ArrayMove` reads it as "remove at `from`, insert at
  `to`", with negative indices counted from the end, as `splice` does.
  `DragEnd`'s contract rests on that reading.
- Hardware: the thermocouple, the door switch and `digitalWrite` are
  inputs and a trace. The display is not part of this model.
- `millis()` wrap-around: the clock is unbounded and never goes back. The
  class keeps the window start between 0 and the latest clock value, and
  the unsigned subtraction then cannot wrap.
- Floating point: temperatures, rates, outputs and costs are reals, so
  IEEE rounding is not modelled. NaN appears only as a reading, and a NaN
  compares false against the limit.
- Concurrency: asynchronous web handlers and timers run between loop
  iterations or status updates, one at a time.
- The front end's interval set-up and tear-down on state changes becomes
  one `SimulationTick` per second in the state current at that moment.
- Randomness, ids and time: `Math.random()` is a parameter,
  `Date.now()` step ids are a parameter, and the history's time string is
  a parameter.
- ScheduleEditor.UpdateStep: requires an index of an existing step, the
  only ones the editor renders. An index past the end would grow a sparse
  JavaScript array with holes before the new step, which a sequence of
  steps cannot represent.
- ScheduleEditor.DragEnd: requires a non-empty step list, because a drag
  starts from a rendered step. On an empty list `arrayMove` would insert
  `undefined`.
- The dashboard's Pause button has no click handler, so pressing it
  changes nothing.
- `WATCHDOG_TIMEOUT` is declared but never used. The firmware never
  changes its setpoint, and the autotune parameters (step, noise,
  look-back) only configure the library.
- Multi-zone control, delayed start, add-time and add-temp, the
  ramp/hold setpoint profile and the relay-feedback gain formula are not
  implemented by the code, so they are not modelled.
- The source listings embedded in `src/App.tsx` are display text. So are
  the translations, the documentation and settings pages, the code
  viewer, the LVGL display code and the server bootstrap.
- Dashboard.FormatTimeRemaining: the label is a pair of integers, not the
  rendered string, and `timeRemaining` is modelled as an integer number
  of minutes.
