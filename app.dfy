/** The demo front end's status reducer and schedule library. Every handler
    builds a new status (or list) from the old one; timers and the random
    number generator are explicit parameters. */
module App {
  import opened KilnTypes
  import opened ScheduleList

  const StartSetpoint: real := 1060.0
  const StartTimeRemaining: int := 360
  const AutotuneSetpoint: real := 100.0

  /** `handleStart`: heat towards 1060 from step 0 with 360 minutes left. */
  function Start(status: KilnStatus): (r: KilnStatus)
    ensures r.state == Heating && r.setpoint == StartSetpoint
    ensures r.currentStepIndex == Some(0) && r.timeRemaining == Some(StartTimeRemaining)
    ensures r.currentTemp == status.currentTemp
    ensures r.currentScheduleId == status.currentScheduleId && r.error == status.error
  {
    status.(state := Heating, setpoint := StartSetpoint, currentStepIndex := Some(0),
            timeRemaining := Some(StartTimeRemaining))
  }

  /** `handleStop`: idle, no setpoint, no step, no time left. */
  function Stop(status: KilnStatus): (r: KilnStatus)
    ensures r.state == Idle && r.setpoint == 0.0
    ensures r.currentStepIndex == None && r.timeRemaining == Some(0)
    ensures r.currentTemp == status.currentTemp
    ensures r.currentScheduleId == status.currentScheduleId && r.error == status.error
  {
    status.(state := Idle, setpoint := 0.0, currentStepIndex := None, timeRemaining := Some(0))
  }

  /** `handleAutotune`: autotune towards 100, no time left; the step index
      is kept. */
  function StartAutotune(status: KilnStatus): (r: KilnStatus)
    ensures r.state == Autotune && r.setpoint == AutotuneSetpoint && r.timeRemaining == Some(0)
    ensures r.currentTemp == status.currentTemp && r.currentStepIndex == status.currentStepIndex
    ensures r.currentScheduleId == status.currentScheduleId && r.error == status.error
  {
    status.(state := Autotune, setpoint := AutotuneSetpoint, timeRemaining := Some(0))
  }

  /** The autotune timer's updater: idle only if still in autotune. */
  function AutotuneDone(prev: KilnStatus): (r: KilnStatus)
    ensures prev.state == Autotune ==> r == prev.(state := Idle)
    ensures prev.state != Autotune ==> r == prev
  {
    if prev.state == Autotune then prev.(state := Idle) else prev
  }

  /** `handleSkip`: one step further, with no bound and in any state; a
      status without a step index is left alone. */
  function Skip(status: KilnStatus): (r: KilnStatus)
    ensures status.currentStepIndex == None ==> r == status
    ensures status.currentStepIndex.Some? ==>
      r.currentStepIndex == Some(status.currentStepIndex.value + 1)
      && r == status.(currentStepIndex := r.currentStepIndex)
  {
    match status.currentStepIndex
    case None => status
    case Some(i) => status.(currentStepIndex := Some(i + 1))
  }

  /** The heating interval's updater: add the increment, and hold at the
      setpoint as soon as it would be reached. */
  function HeatingTick(prev: KilnStatus, increment: real): (r: KilnStatus)
    ensures r.currentTemp <= prev.setpoint
    ensures prev.currentTemp + increment >= prev.setpoint ==>
      r == prev.(currentTemp := prev.setpoint, state := Holding)
    ensures prev.currentTemp + increment < prev.setpoint ==>
      r == prev.(currentTemp := prev.currentTemp + increment)
  {
    var newTemp := prev.currentTemp + increment;
    if newTemp >= prev.setpoint then prev.(currentTemp := prev.setpoint, state := Holding)
    else prev.(currentTemp := newTemp)
  }

  /** The holding interval's updater: the temperature is the setpoint plus
      a fluctuation. */
  function HoldingTick(prev: KilnStatus, fluctuation: real): (r: KilnStatus)
    ensures -1.0 <= fluctuation <= 1.0 ==> prev.setpoint - 1.0 <= r.currentTemp <= prev.setpoint + 1.0
    ensures r == prev.(currentTemp := r.currentTemp)
  {
    prev.(currentTemp := prev.setpoint + fluctuation)
  }

  /** One second of the simulation effect with `Math.random()` = `random`:
      the heating interval adds 1 + 2*random, the holding interval sets the
      setpoint plus 2*random - 1; other states have no interval. */
  function SimulationTick(prev: KilnStatus, random: real): (r: KilnStatus)
    ensures prev.state != Heating && prev.state != Holding ==> r == prev
    ensures r.setpoint == prev.setpoint
    ensures prev.state == Holding ==> r.state == Holding
    ensures prev.state == Heating && 0.0 <= random < 1.0 ==>
      r.currentTemp <= prev.setpoint
      && (r.state == Holding <==> r.currentTemp == prev.setpoint)
      && (r.state == Heating ==> r.currentTemp >= prev.currentTemp + 1.0)
  {
    match prev.state
    case Heating => HeatingTick(prev, random * 2.0 + 1.0)
    case Holding => HoldingTick(prev, random * 2.0 - 1.0)
    case _ => prev
  }

  /** Successive seconds of the simulation. The setpoint is never changed,
      and a kiln neither heating nor holding is left as it is. */
  function Simulate(status: KilnStatus, randoms: seq<real>): (r: KilnStatus)
    ensures r.setpoint == status.setpoint
    ensures status.state != Heating && status.state != Holding ==> r == status
    decreases |randoms|
  {
    if randoms == [] then status else Simulate(SimulationTick(status, randoms[0]), randoms[1..])
  }

  ghost predicate AllUnit(randoms: seq<real>)
  {
    forall i :: 0 <= i < |randoms| ==> 0.0 <= randoms[i] < 1.0
  }

  lemma {:induction false} HoldingStaysNearSetpoint(status: KilnStatus, randoms: seq<real>)
    requires status.state == Holding && AllUnit(randoms)
    requires status.setpoint - 1.0 <= status.currentTemp <= status.setpoint + 1.0
    ensures Simulate(status, randoms).state == Holding
    ensures Simulate(status, randoms).setpoint == status.setpoint
    ensures status.setpoint - 1.0 <= Simulate(status, randoms).currentTemp <= status.setpoint + 1.0
    decreases |randoms|
  {
    if randoms != [] {
      assert AllUnit(randoms[1..]) by {
        forall i | 0 <= i < |randoms[1..]| ensures 0.0 <= randoms[1..][i] < 1.0 {
          assert randoms[1..][i] == randoms[i + 1];
        }
      }
      HoldingStaysNearSetpoint(SimulationTick(status, randoms[0]), randoms[1..]);
    }
  }

  /** A heating kiln reaches holding within setpoint - currentTemp seconds,
      and from then on stays within one degree of the setpoint. */
  lemma {:induction false} HeatingReachesHolding(status: KilnStatus, randoms: seq<real>)
    requires status.state == Heating && AllUnit(randoms)
    requires |randoms| > 0 && |randoms| as real > status.setpoint - status.currentTemp
    ensures Simulate(status, randoms).state == Holding
    ensures status.setpoint - 1.0 <= Simulate(status, randoms).currentTemp <= status.setpoint + 1.0
    decreases |randoms|
  {
    var next := SimulationTick(status, randoms[0]);
    var rest := randoms[1..];
    assert AllUnit(rest) by {
      forall i | 0 <= i < |rest| ensures 0.0 <= rest[i] < 1.0 {
        assert rest[i] == randoms[i + 1];
      }
    }
    if next.state == Holding {
      HoldingStaysNearSetpoint(next, rest);
    } else {
      HeatingReachesHolding(next, rest);
    }
  }

  /** `handleSaveSchedule`: an upsert by id. A known id has every matching
      schedule replaced, the length kept; an unknown one is appended. */
  function Save(list: seq<Schedule>, schedule: Schedule): (r: seq<Schedule>)
    ensures HasId(r, schedule.id)
    ensures HasId(list, schedule.id) ==>
      |r| == |list|
      && forall i :: 0 <= i < |list| ==> r[i] == (if list[i].id == schedule.id then schedule else list[i])
    ensures !HasId(list, schedule.id) ==> r == list + [schedule]
  {
    if HasId(list, schedule.id) then ReplaceById(list, schedule.id, schedule)
    else
      var appended := list + [schedule];
      assert appended[|list|] == schedule;
      appended
  }

  /** Saving the same schedule twice gives the list of saving it once. */
  lemma SaveIdempotent(list: seq<Schedule>, schedule: Schedule)
    ensures Save(Save(list, schedule), schedule) == Save(list, schedule)
  {
    var once := Save(list, schedule);
    if HasId(list, schedule.id) {
      ReplaceIdempotent(list, schedule.id, schedule);
    } else {
      ReplaceAppend(list, [schedule], schedule.id, schedule);
      ReplaceAbsent(list, schedule.id, schedule);
    }
  }

  /** Saving then deleting by the same id leaves the list without it,
      the other schedules in their order. */
  lemma SaveThenDelete(list: seq<Schedule>, schedule: Schedule)
    ensures RemoveById(Save(list, schedule), schedule.id) == RemoveById(list, schedule.id)
  {
    if HasId(list, schedule.id) {
      RemoveAfterReplace(list, schedule.id, schedule);
    } else {
      RemoveAppend(list, [schedule], schedule.id);
      assert RemoveById([schedule], schedule.id) == [];
    }
  }

  lemma {:induction false} RemoveAfterReplace(list: seq<Schedule>, id: string, s: Schedule)
    requires s.id == id
    ensures RemoveById(ReplaceById(list, id, s), id) == RemoveById(list, id)
  {
    if list != [] {
      RemoveAfterReplace(list[1..], id, s);
      var head := if list[0].id == id then s else list[0];
      assert ReplaceById(list, id, s) == [head] + ReplaceById(list[1..], id, s);
      assert ([head] + ReplaceById(list[1..], id, s))[1..] == ReplaceById(list[1..], id, s);
    }
  }
}
