/** Shared data shapes of the kiln controller's web side: firing schedules,
    their steps and the status record the dashboard shows. */
module KilnTypes {

  /** An optional value: a TypeScript `?` field or a `null`/`undefined`. */
  datatype Option<T> = None | Some(value: T)

  /** The three kinds of schedule step. */
  datatype StepKind = Ramp | Hold | Cool

  /** One step of a schedule. `rate` is present for ramp and cool steps,
      `duration` (minutes) for hold steps; both are optional in the record. */
  datatype ScheduleStep = ScheduleStep(
    id: string,
    kind: StepKind,
    targetTemp: real,
    rate: Option<real>,
    duration: Option<real>,
    alarm: Option<bool>)

  /** A named firing schedule. */
  datatype Schedule = Schedule(
    id: string,
    name: string,
    steps: seq<ScheduleStep>,
    estimatedCost: Option<real>)

  /** The `state` field of a status record. */
  datatype Phase = Idle | Heating | Holding | Cooling | Error | Autotune

  /** The string the web code uses for each phase. */
  function PhaseName(p: Phase): (name: string)
    ensures |name| > 0
  {
    match p
    case Idle => "idle"
    case Heating => "heating"
    case Holding => "holding"
    case Cooling => "cooling"
    case Error => "error"
    case Autotune => "autotune"
  }

  /** Reads a state string back; `None` for a string that names no phase. */
  function PhaseOfName(name: string): (p: Option<Phase>)
    ensures p.Some? ==> PhaseName(p.value) == name
  {
    if name == "idle" then Some(Idle)
    else if name == "heating" then Some(Heating)
    else if name == "holding" then Some(Holding)
    else if name == "cooling" then Some(Cooling)
    else if name == "error" then Some(Error)
    else if name == "autotune" then Some(Autotune)
    else None
  }

  /** Every phase name reads back as its phase, so distinct phases have
      distinct names. */
  lemma PhaseNameRoundTrip(p: Phase)
    ensures PhaseOfName(PhaseName(p)) == Some(p)
  {
    match p
    case Idle =>
    case Heating => assert "heating"[0] != "idle"[0];
    case Holding => assert "holding"[1] != "heating"[1];
    case Cooling => assert "cooling"[0] != "idle"[0];
    case Error => assert "error"[0] != "idle"[0];
    case Autotune => assert "autotune"[0] != "idle"[0];
  }

  /** The status record shown by the dashboard. */
  datatype KilnStatus = KilnStatus(
    currentTemp: real,
    setpoint: real,
    state: Phase,
    currentScheduleId: Option<string>,
    currentStepIndex: Option<int>,
    timeRemaining: Option<int>,
    error: Option<string>)
}
