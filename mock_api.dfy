/** The demo backend: a mock kiln whose `kilnState` the REST handlers and a
    two-second simulation timer update field by field, and the schedule list
    kept in schedules.json. Timers are explicit events: `AutotuneTimeout` is
    the ten-second callback of `/api/autotune`, `SimulationTick` one run of
    the interval. */
module MockApi {
  import opened KilnTypes
  import opened ScheduleList

  /** The JSON answer of a handler. */
  datatype Response =
    | Message(message: string)   // { success: true, message }
    | Saved(schedule: Schedule)  // { success: true, schedule }
    | Ack                        // { success: true }
    | BadRequest(error: string)  // status 400, { error }

  const InitialTemp: real := 22.5
  const HeatPerTick: real := 2.5
  const HoldAbove: real := 1000.0

  class Backend {
    var currentTemp: real
    var setpoint: real
    var state: Phase
    var currentScheduleId: Option<string>
    var currentStepIndex: int
    var timeRemaining: int
    var error: Option<string>
    /** The contents of schedules.json. */
    var schedules: seq<Schedule>

    /** What the handlers can ever produce: four of the six phases, a
        temperature that never falls, and fields that nothing writes. */
    ghost predicate Valid()
      reads this
    {
      && (state == Idle || state == Heating || state == Holding || state == Autotune)
      && currentTemp >= InitialTemp
      && setpoint == 0.0 && currentStepIndex == 0 && timeRemaining == 0 && error == None
    }

    /** The module's initial `kilnState`; `stored` is what `loadSchedules`
        finds on disk (empty when the file is missing). */
    constructor (stored: seq<Schedule>)
      ensures Valid()
      ensures currentTemp == InitialTemp && state == Idle && currentScheduleId == None
      ensures schedules == stored
    {
      currentTemp := InitialTemp;
      setpoint := 0.0;
      state := Idle;
      currentScheduleId := None;
      currentStepIndex := 0;
      timeRemaining := 0;
      error := None;
      schedules := stored;
    }

    /** `POST /api/control`: `start` and `stop` are accepted in every state;
        any other action is refused and changes nothing. */
    method Control(action: string, scheduleId: Option<string>) returns (resp: Response)
      requires Valid()
      modifies this
      ensures Valid()
      ensures action == "start" ==>
        state == Heating && currentScheduleId == scheduleId && currentStepIndex == 0
        && resp == Message("Firing started")
      ensures action == "stop" ==>
        state == Idle && currentScheduleId == None && resp == Message("Firing stopped")
      ensures action != "start" && action != "stop" ==>
        state == old(state) && currentScheduleId == old(currentScheduleId)
        && resp == BadRequest("Invalid action")
      ensures action != "start" ==> currentStepIndex == old(currentStepIndex)
      ensures currentTemp == old(currentTemp) && setpoint == old(setpoint)
      ensures timeRemaining == old(timeRemaining) && error == old(error)
      ensures schedules == old(schedules)
    {
      if action == "start" {
        state := Heating;
        currentScheduleId := scheduleId;
        currentStepIndex := 0;
        resp := Message("Firing started");
      } else if action == "stop" {
        state := Idle;
        currentScheduleId := None;
        resp := Message("Firing stopped");
      } else {
        resp := BadRequest("Invalid action");
      }
    }

    /** `POST /api/autotune`: enter autotune from any state (and arm the
        completion timer, `AutotuneTimeout`). */
    method StartAutotune() returns (resp: Response)
      requires Valid()
      modifies this`state
      ensures Valid()
      ensures state == Autotune && resp == Message("Autotune started")
    {
      state := Autotune;
      resp := Message("Autotune started");
    }

    /** The autotune timer: back to idle only if still in autotune, so a start
        or stop issued in between wins. */
    method AutotuneTimeout()
      requires Valid()
      modifies this`state
      ensures Valid()
      ensures state == (if old(state) == Autotune then Idle else old(state))
    {
      if state == Autotune {
        state := Idle;
      }
    }

    /** One run of the simulation interval: only a heating kiln changes; its
        temperature rises by 2.5 and it holds once strictly above 1000. */
    method SimulationTick()
      requires Valid()
      modifies this`currentTemp, this`state
      ensures Valid()
      ensures old(state) != Heating ==> state == old(state) && currentTemp == old(currentTemp)
      ensures old(state) == Heating ==>
        currentTemp == old(currentTemp) + HeatPerTick
        && state == (if currentTemp > HoldAbove then Holding else Heating)
    {
      if state == Heating {
        currentTemp := currentTemp + HeatPerTick;
        if currentTemp > HoldAbove {
          state := Holding;
        }
      }
    }

    /** `POST /api/schedules`: append the posted schedule. */
    method CreateSchedule(s: Schedule) returns (resp: Response)
      modifies this`schedules
      ensures schedules == old(schedules) + [s]
      ensures resp == Saved(s)
    {
      schedules := schedules + [s];
      resp := Saved(s);
    }

    /** `PUT /api/schedules/:id`: replace every schedule with that id; an
        unknown id inserts nothing. */
    method UpdateSchedule(id: string, s: Schedule) returns (resp: Response)
      modifies this`schedules
      ensures schedules == ReplaceById(old(schedules), id, s)
      ensures !HasId(old(schedules), id) ==> schedules == old(schedules)
      ensures resp == Ack
    {
      ReplaceAbsentWhenMissing(schedules, id, s);
      schedules := ReplaceById(schedules, id, s);
      resp := Ack;
    }

    /** `DELETE /api/schedules/:id`: drop every schedule with that id. */
    method DeleteSchedule(id: string) returns (resp: Response)
      modifies this`schedules
      ensures schedules == RemoveById(old(schedules), id)
      ensures |schedules| == |old(schedules)| - CountId(old(schedules), id)
      ensures resp == Ack
    {
      RemoveCount(schedules, id);
      schedules := RemoveById(schedules, id);
      resp := Ack;
    }
  }

  lemma ReplaceAbsentWhenMissing(list: seq<Schedule>, id: string, s: Schedule)
    ensures !HasId(list, id) ==> ReplaceById(list, id, s) == list
  {
    if !HasId(list, id) {
      ReplaceAbsent(list, id, s);
    }
  }

  /** A start or stop issued while autotuning wins over the pending timer. */
  method StartDuringAutotune(stored: seq<Schedule>, id: string) returns (phase: Phase, scheduleId: Option<string>)
    ensures phase == Heating && scheduleId == Some(id)
  {
    var api := new Backend(stored);
    var _ := api.StartAutotune();
    var _ := api.Control("start", Some(id));
    api.AutotuneTimeout();
    phase, scheduleId := api.state, api.currentScheduleId;
  }

  /** Autotune started during a firing and left to time out ends idle with
      the firing's schedule id still set. */
  method AutotuneDuringFiring(stored: seq<Schedule>, id: string) returns (phase: Phase, scheduleId: Option<string>)
    ensures phase == Idle && scheduleId == Some(id)
  {
    var api := new Backend(stored);
    var _ := api.Control("start", Some(id));
    var _ := api.StartAutotune();
    api.AutotuneTimeout();
    phase, scheduleId := api.state, api.currentScheduleId;
  }

  /** From the initial 22.5 degrees, a started firing heats for 391 ticks
      (reaching exactly 1000, which is not above the threshold) and holds on
      the 392nd, at 1002.5. */
  method FiringReachesHolding(stored: seq<Schedule>) returns (heatingTicks: nat, temp: real, phase: Phase)
    ensures heatingTicks == 392 && temp == 1002.5 && phase == Holding
  {
    var api := new Backend(stored);
    var _ := api.Control("start", None);
    heatingTicks := 0;
    while api.state == Heating
      invariant api.Valid()
      invariant heatingTicks <= 392
      invariant api.currentTemp == InitialTemp + heatingTicks as real * HeatPerTick
      invariant api.state == Heating || api.state == Holding
      invariant api.state == Holding <==> heatingTicks == 392
      decreases 392 - heatingTicks
    {
      api.SimulationTick();
      heatingTicks := heatingTicks + 1;
    }
    temp, phase := api.currentTemp, api.state;
  }
}
