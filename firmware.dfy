/** The ESP32 kiln firmware's control loop: the safety check, the thermocouple
    read, the PID or autotune step and the time-proportional SSR window.

    The PID and autotune libraries, the thermocouple, the door switch and
    `millis()` are outside the model: what they deliver to one iteration is a
    `TickInput`. The relay pin is a trace of the levels written to it. */
module Firmware {

  datatype KilnState = Idle | Heating | Holding | Cooling | ErrorState | Autotune

  /** A thermocouple reading: a temperature in degrees Celsius or not-a-number. */
  datatype Reading = NaN | Celsius(value: real)

  /** A level written to the SSR pin. */
  datatype Level = Low | High

  datatype Gains = Gains(kp: real, ki: real, kd: real)

  const MaxTemp: real := 1300.0
  const WindowSize: int := 5000
  const OverTempMessage: string := "Over-temperature Limit Exceeded!"
  const ReadErrorMessage: string := "Thermocouple Read Error"
  const BeginErrorMessage: string := "Thermocouple Error"
  const InitialInput: Reading := Celsius(20.0)
  const InitialGains: Gains := Gains(2.0, 5.0, 1.0)

  /** What the hardware and the libraries deliver to one `loop()` iteration. */
  datatype TickInput = TickInput(
    reading: Reading,    // thermocouple.readCelsius()
    doorOpen: bool,      // digitalRead(DOOR_SWITCH_PIN) == LOW
    now: int,            // millis() as read by updatePID
    pidOutput: real,     // `output` as kilnPID.Compute() leaves it
    tunerOutput: real,   // `output` as aTune.Runtime() leaves it
    tunerDone: bool,     // aTune.Runtime() returned non-zero
    tuned: Gains)        // aTune.GetKp(), GetKi(), GetKd()

  /** The firmware's globals that the loop reads and writes. */
  datatype Fw = Fw(
    state: KilnState,
    message: string,
    input: Reading,
    output: real,
    windowStart: int,
    tuning: bool,
    gains: Gains)

  /** The state after a step of the loop, and the levels written to the relay
      during it, in order. */
  datatype Iteration = Iteration(next: Fw, writes: seq<Level>)

  /** `input > MAX_TEMP`; a NaN compares false. */
  predicate AboveMax(r: Reading)
  {
    r.Celsius? && r.value > MaxTemp
  }

  /** `handleSafety()`: latch an over-temperature into ERROR_STATE, then write
      the relay LOW if the door is open and the (possibly just latched) state
      is not IDLE. It reads the `input` left by the previous iteration. */
  function SafetyCheck(s: Fw, doorOpen: bool): (r: Iteration)
    ensures AboveMax(s.input) ==> r.next.state == ErrorState && r.next.message == OverTempMessage
    ensures !AboveMax(s.input) ==> r.next == s
    ensures r.next == s.(state := r.next.state, message := r.next.message)
    ensures r.writes == [] || r.writes == [Low]
    ensures r.writes == [Low] <==> doorOpen && r.next.state != Idle
  {
    var latched := if AboveMax(s.input) then s.(state := ErrorState, message := OverTempMessage) else s;
    Iteration(latched, if doorOpen && latched.state != Idle then [Low] else [])
  }

  /** The window advance of `updatePID()`: at most one window per call, and
      only when the elapsed time exceeds the window. */
  function AdvanceWindow(windowStart: int, now: int): (r: int)
    ensures r == windowStart || r == windowStart + WindowSize
    ensures r == windowStart + WindowSize <==> now - windowStart > WindowSize
    ensures windowStart <= now ==> r <= now
    ensures windowStart <= now && now - windowStart <= 2 * WindowSize ==> 0 <= now - r <= WindowSize
    ensures now - windowStart > 2 * WindowSize ==> now - r > WindowSize
  {
    if now - windowStart > WindowSize then windowStart + WindowSize else windowStart
  }

  /** The relay level for an output and the time elapsed in the window. */
  function RelayLevel(output: real, elapsed: int): (level: Level)
    ensures level == High <==> output > elapsed as real
    ensures 0 <= elapsed && output <= 0.0 ==> level == Low
    ensures output > WindowSize as real && elapsed <= WindowSize ==> level == High
  {
    if output > elapsed as real then High else Low
  }

  /** `finishAutoTune()`: install the tuned gains and return to IDLE. */
  function FinishTuning(s: Fw, tuned: Gains): (r: Fw)
    ensures r.state == Idle && r.gains == tuned
    ensures r == s.(state := Idle, gains := tuned)
  {
    s.(state := Idle, gains := tuned)
  }

  /** `startAutoTune()`: unconditionally enter AUTOTUNE with the tuner running. */
  function StartTuning(s: Fw): (r: Fw)
    ensures r.tuning && r.state == Autotune
    ensures r == s.(tuning := true, state := Autotune)
  {
    s.(tuning := true, state := Autotune)
  }

  /** `updatePID()`: step the autotuner or the PID, then drive the relay from
      the time-proportional window. Exactly one relay write. */
  function PidStep(s: Fw, ev: TickInput): (r: Iteration)
    ensures s.tuning && ev.tunerDone ==>
      !r.next.tuning && r.next.gains == ev.tuned && r.next.state == Idle && r.next.output == ev.tunerOutput
    ensures s.tuning && !ev.tunerDone ==>
      r.next.tuning && r.next.gains == s.gains && r.next.state == s.state && r.next.output == ev.tunerOutput
    ensures !s.tuning ==>
      !r.next.tuning && r.next.gains == s.gains && r.next.state == s.state && r.next.output == ev.pidOutput
    ensures r.next.input == s.input && r.next.message == s.message
    ensures r.next.windowStart == AdvanceWindow(s.windowStart, ev.now)
    ensures r.writes == [RelayLevel(r.next.output, ev.now - r.next.windowStart)]
  {
    var stepped :=
      if s.tuning then
        if ev.tunerDone then FinishTuning(s.(output := ev.tunerOutput, tuning := false), ev.tuned)
        else s.(output := ev.tunerOutput)
      else s.(output := ev.pidOutput);
    var windowStart := AdvanceWindow(s.windowStart, ev.now);
    Iteration(stepped.(windowStart := windowStart), [RelayLevel(stepped.output, ev.now - windowStart)])
  }

  /** One `loop()` iteration: safety check, then (unless in ERROR_STATE) the
      sensor read and, for a number, `updatePID()`; in ERROR_STATE a fail-safe
      LOW write instead. */
  function LoopIteration(s: Fw, ev: TickInput): (r: Iteration)
    // a latched error: no read, no updatePID, a final LOW
    ensures SafetyCheck(s, ev.doorOpen).next.state == ErrorState ==>
      r.next == SafetyCheck(s, ev.doorOpen).next && r.writes == SafetyCheck(s, ev.doorOpen).writes + [Low]
    // a NaN reading: ERROR_STATE with its message, no updatePID
    ensures SafetyCheck(s, ev.doorOpen).next.state != ErrorState && ev.reading.NaN? ==>
      r.next == s.(state := ErrorState, message := ReadErrorMessage, input := NaN)
      && r.writes == SafetyCheck(s, ev.doorOpen).writes
    // a number: updatePID on the new reading, whose write is the last
    ensures SafetyCheck(s, ev.doorOpen).next.state != ErrorState && ev.reading.Celsius? ==>
      r == Iteration(PidStep(s.(input := ev.reading), ev).next,
                     SafetyCheck(s, ev.doorOpen).writes + PidStep(s.(input := ev.reading), ev).writes)
    ensures s.windowStart <= ev.now ==> s.windowStart <= r.next.windowStart <= ev.now
    ensures r.next.state == ErrorState || r.next.state == s.state || r.next.state == Idle
  {
    var safe := SafetyCheck(s, ev.doorOpen);
    if safe.next.state != ErrorState then
      var read := safe.next.(input := ev.reading);
      if ev.reading.NaN? then
        Iteration(read.(state := ErrorState, message := ReadErrorMessage), safe.writes)
      else
        var pid := PidStep(read, ev);
        Iteration(pid.next, safe.writes + pid.writes)
    else
      Iteration(safe.next, safe.writes + [Low])
  }

  /** Successive loop iterations, with all their relay writes in order. An
      iteration writes the relay at most twice. */
  function Run(s: Fw, evs: seq<TickInput>): (r: Iteration)
    ensures evs == [] ==> r == Iteration(s, [])
    ensures |r.writes| <= 2 * |evs|
    decreases |evs|
  {
    if evs == [] then Iteration(s, [])
    else
      var first := LoopIteration(s, evs[0]);
      var rest := Run(first.next, evs[1..]);
      Iteration(rest.next, first.writes + rest.writes)
  }

  /** The clock readings of successive iterations never go back. */
  ghost predicate ClockMonotone(start: int, evs: seq<TickInput>)
  {
    (forall i :: 0 <= i < |evs| ==> start <= evs[i].now)
    && (forall i, j :: 0 <= i < j < |evs| ==> evs[i].now <= evs[j].now)
  }

  /** An over-temperature latched by `handleSafety()` silences the iteration:
      the sensor is not read, `updatePID()` does not run, the last write is LOW. */
  lemma ErrorSkipsReadAndPid(s: Fw, ev: TickInput)
    requires AboveMax(s.input) || s.state == ErrorState
    ensures LoopIteration(s, ev).next.input == s.input
    ensures LoopIteration(s, ev).next.windowStart == s.windowStart
    ensures LoopIteration(s, ev).next.output == s.output
    ensures LoopIteration(s, ev).next.state == ErrorState
    ensures |LoopIteration(s, ev).writes| > 0 && LoopIteration(s, ev).writes[|LoopIteration(s, ev).writes| - 1] == Low
    ensures forall i :: 0 <= i < |LoopIteration(s, ev).writes| ==> LoopIteration(s, ev).writes[i] == Low
  {
  }

  /** ERROR_STATE is sticky across loop iterations, and while in it every
      write to the relay is LOW. */
  lemma {:induction false} ErrorIsSticky(s: Fw, evs: seq<TickInput>)
    requires s.state == ErrorState
    ensures Run(s, evs).next.state == ErrorState
    ensures forall i :: 0 <= i < |Run(s, evs).writes| ==> Run(s, evs).writes[i] == Low
    decreases |evs|
  {
    if evs != [] {
      var first := LoopIteration(s, evs[0]);
      ErrorSkipsReadAndPid(s, evs[0]);
      assert first.next == SafetyCheck(s, evs[0].doorOpen).next;
      ErrorIsSticky(first.next, evs[1..]);
      var rest := Run(first.next, evs[1..]);
      assert Run(s, evs).writes == first.writes + rest.writes;
      forall i | 0 <= i < |first.writes + rest.writes| ensures (first.writes + rest.writes)[i] == Low {
        if i >= |first.writes| {
          assert (first.writes + rest.writes)[i] == rest.writes[i - |first.writes|];
        }
      }
    }
  }

  /** One iteration moves the window by nothing or by one whole window, and
      not past the clock. */
  lemma WindowStep(s: Fw, ev: TickInput)
    ensures var w := LoopIteration(s, ev).next.windowStart;
      && (w == s.windowStart || w == s.windowStart + WindowSize)
      && (s.windowStart <= ev.now ==> w <= ev.now)
  {
    var safe := SafetyCheck(s, ev.doorOpen);
    if safe.next.state != ErrorState && ev.reading.Celsius? {
      assert LoopIteration(s, ev).next.windowStart == AdvanceWindow(s.windowStart, ev.now);
    }
  }

  /** Monotone clock readings stay so after the first, from any start not
      past the first reading. */
  lemma ClockTail(start: int, evs: seq<TickInput>, next: int)
    requires evs != [] && ClockMonotone(start, evs) && next <= evs[0].now
    ensures ClockMonotone(next, evs[1..])
  {
    var tail := evs[1..];
    forall i | 0 <= i < |tail| ensures next <= tail[i].now {
      assert tail[i] == evs[i + 1];
    }
    forall i, j | 0 <= i < j < |tail| ensures tail[i].now <= tail[j].now {
      assert tail[i] == evs[i + 1] && tail[j] == evs[j + 1];
    }
  }

  lemma WholeWindows(moved: int, step: int)
    requires moved % WindowSize == 0 && (step == 0 || step == WindowSize)
    ensures (moved + step) % WindowSize == 0
  {
    if step == WindowSize {
      assert (moved + WindowSize) % WindowSize == moved % WindowSize;
    }
  }

  /** The window only moves forward, in whole windows, at most one per
      iteration, and never past the clock. */
  lemma {:induction false} WindowMovesInWholeWindows(s: Fw, evs: seq<TickInput>)
    requires s.windowStart <= (if evs == [] then s.windowStart else evs[0].now)
    requires ClockMonotone(s.windowStart, evs)
    ensures s.windowStart <= Run(s, evs).next.windowStart <= s.windowStart + |evs| * WindowSize
    ensures (Run(s, evs).next.windowStart - s.windowStart) % WindowSize == 0
    ensures evs != [] ==> Run(s, evs).next.windowStart <= evs[|evs| - 1].now
    decreases |evs|
  {
    if evs != [] {
      var first := LoopIteration(s, evs[0]);
      var w := first.next.windowStart;
      WindowStep(s, evs[0]);
      var tail := evs[1..];
      ClockTail(s.windowStart, evs, w);
      WindowMovesInWholeWindows(first.next, tail);
      assert Run(s, evs).next == Run(first.next, tail).next;
      var end := Run(first.next, tail).next.windowStart;
      var moved, step := end - w, w - s.windowStart;
      assert 0 <= moved <= |tail| * WindowSize && moved % WindowSize == 0;
      assert |evs| * WindowSize == |tail| * WindowSize + WindowSize;
      assert end - s.windowStart == moved + step;
      WholeWindows(moved, step);
      if tail == [] {
        assert end == w;
      } else {
        assert evs[|evs| - 1] == tail[|tail| - 1];
      }
    }
  }

  /** The over-temperature check lags by one iteration: a reading above the
      limit is only acted on by the next iteration's `handleSafety()`. */
  lemma OverTempActsNextIteration(s: Fw, ev1: TickInput, ev2: TickInput)
    requires s.state != ErrorState && !AboveMax(s.input)
    requires AboveMax(ev1.reading)
    ensures LoopIteration(s, ev1).next.state != ErrorState
    ensures LoopIteration(s, ev1).next.input == ev1.reading
    ensures LoopIteration(LoopIteration(s, ev1).next, ev2).next.state == ErrorState
    ensures LoopIteration(LoopIteration(s, ev1).next, ev2).next.message == OverTempMessage
  {
  }

  /** The fail-safe LOW lags a read error by one iteration: with the door
      closed, the iteration that reads NaN writes nothing, so the level of
      the previous iteration stays on the relay; the next iteration writes
      only LOW. */
  lemma NaNLeavesRelayForOneIteration(s: Fw, ev1: TickInput, ev2: TickInput)
    requires s.state != ErrorState && !AboveMax(s.input)
    requires ev1.reading.NaN? && !ev1.doorOpen
    ensures LoopIteration(s, ev1).writes == []
    ensures LoopIteration(s, ev1).next.state == ErrorState
    ensures var w := LoopIteration(LoopIteration(s, ev1).next, ev2).writes;
      |w| > 0 && w[|w| - 1] == Low && forall i :: 0 <= i < |w| ==> w[i] == Low
  {
  }

  /** The door switch does not decide the last write of an iteration that
      reaches `updatePID()`: the window does, and the state reached is the
      same with the door open or closed. */
  lemma DoorDoesNotDecideLastWrite(s: Fw, ev: TickInput)
    requires SafetyCheck(s, true).next.state != ErrorState && ev.reading.Celsius?
    ensures var withDoor := LoopIteration(s, ev.(doorOpen := true));
            var noDoor := LoopIteration(s, ev.(doorOpen := false));
            withDoor.next == noDoor.next
            && |withDoor.writes| > 0 && |noDoor.writes| > 0
            && withDoor.writes[|withDoor.writes| - 1] == noDoor.writes[|noDoor.writes| - 1]
            && withDoor.writes[|withDoor.writes| - 1]
               == RelayLevel(withDoor.next.output, ev.now - withDoor.next.windowStart)
  {
    var withDoor := LoopIteration(s, ev.(doorOpen := true));
    var pid := PidStep(s.(input := ev.reading), ev.(doorOpen := true));
    assert withDoor.writes == SafetyCheck(s, true).writes + pid.writes;
  }

  /** A concrete iteration: HEATING with the door open, a full PID output and
      a fresh window writes LOW and then HIGH. */
  lemma DoorOpenStillEndsHigh()
    ensures LoopIteration(
              Fw(Heating, "", Celsius(500.0), 0.0, 0, false, InitialGains),
              TickInput(Celsius(500.0), true, 0, 5000.0, 0.0, false, InitialGains)).writes
            == [Low, High]
  {
  }

  /** `startAutoTune()` is accepted in every state, ERROR_STATE included. After
      a thermocouple read error, the next iteration stays out of ERROR_STATE
      when its reading is a number; after an over-temperature the stale
      `input` re-latches ERROR_STATE on the next iteration. */
  lemma AutotuneFromError(s: Fw, ev: TickInput)
    requires s.state == ErrorState
    ensures StartTuning(s).state == Autotune
    ensures !AboveMax(s.input) && ev.reading.Celsius? ==>
      LoopIteration(StartTuning(s), ev).next.state != ErrorState
    ensures AboveMax(s.input) ==>
      LoopIteration(StartTuning(s), ev).next.state == ErrorState
      && LoopIteration(StartTuning(s), ev).next.message == OverTempMessage
  {
  }

  /** While the tuner runs, the PID output is ignored: only the tuner's output
      reaches the relay. */
  lemma TuningIgnoresPid(s: Fw, ev: TickInput, pidOutput: real)
    requires s.tuning
    ensures LoopIteration(s, ev) == LoopIteration(s, ev.(pidOutput := pidOutput))
  {
  }

  /** A reference-typed view of the firmware globals; the methods follow the
      functions in the source one to one. */
  class Controller {
    var currentState: KilnState
    var errorMessage: string
    var input: Reading
    var output: real
    var windowStartTime: int
    var tuning: bool
    var gains: Gains
    /** Every level written to SSR_PIN since power-up, oldest first. */
    var relay: seq<Level>
    /** The latest `millis()` value seen; the clock does not wrap. */
    ghost var clock: int

    ghost predicate Valid()
      reads this
    {
      0 <= windowStartTime <= clock
    }

    function Snapshot(): Fw
      reads this
    {
      Fw(currentState, errorMessage, input, output, windowStartTime, tuning, gains)
    }

    /** `setup()`: a failed SPIFFS mount returns before the hardware and PID
        initialisation; a failed thermocouple start enters ERROR_STATE. */
    constructor Setup(spiffsOk: bool, thermocoupleOk: bool, now: int)
      requires 0 <= now
      ensures Valid() && clock == now && relay == []
      ensures input == InitialInput && output == 0.0 && !tuning && gains == InitialGains
      ensures currentState == (if spiffsOk && !thermocoupleOk then ErrorState else Idle)
      ensures errorMessage == (if spiffsOk && !thermocoupleOk then BeginErrorMessage else "")
      ensures windowStartTime == (if spiffsOk then now else 0)
    {
      currentState := Idle;
      errorMessage := "";
      input := InitialInput;
      output := 0.0;
      tuning := false;
      gains := InitialGains;
      relay := [];
      windowStartTime := 0;
      clock := now;
      if spiffsOk {
        if !thermocoupleOk {
          currentState := ErrorState;
          errorMessage := BeginErrorMessage;
        }
        windowStartTime := now;
      }
    }

    method DigitalWrite(level: Level)
      modifies this`relay
      ensures relay == old(relay) + [level]
    {
      relay := relay + [level];
    }

    method HandleSafety(doorOpen: bool)
      modifies this`currentState, this`errorMessage, this`relay
      ensures Snapshot() == SafetyCheck(old(Snapshot()), doorOpen).next
      ensures relay == old(relay) + SafetyCheck(old(Snapshot()), doorOpen).writes
    {
      if AboveMax(input) {
        currentState := ErrorState;
        errorMessage := OverTempMessage;
      }
      if doorOpen && currentState != Idle {
        DigitalWrite(Low);
      }
    }

    method FinishAutoTune(tuned: Gains)
      modifies this`gains, this`currentState
      ensures Snapshot() == FinishTuning(old(Snapshot()), tuned)
    {
      gains := tuned;
      currentState := Idle;
    }

    /** The `/api/autotune` handler's call. */
    method StartAutoTune()
      modifies this`tuning, this`currentState
      ensures Snapshot() == StartTuning(old(Snapshot()))
      ensures tuning && currentState == Autotune
    {
      tuning := true;
      currentState := Autotune;
    }

    method UpdatePid(ev: TickInput)
      requires Valid() && clock <= ev.now
      modifies this`output, this`tuning, this`gains, this`currentState, this`windowStartTime, this`relay, this`clock
      ensures Valid() && clock == ev.now
      ensures Snapshot() == PidStep(old(Snapshot()), ev).next
      ensures relay == old(relay) + PidStep(old(Snapshot()), ev).writes
    {
      if tuning {
        output := ev.tunerOutput;
        if ev.tunerDone {
          tuning := false;
          FinishAutoTune(ev.tuned);
        }
      } else {
        output := ev.pidOutput;
      }
      clock := ev.now;
      if ev.now - windowStartTime > WindowSize {
        windowStartTime := windowStartTime + WindowSize;
      }
      if output > (ev.now - windowStartTime) as real {
        DigitalWrite(High);
      } else {
        DigitalWrite(Low);
      }
    }

    /** `loop()`, with the hardware inputs of this iteration; returns the
        levels it wrote to the relay. */
    method Tick(reading: Reading, doorOpen: bool, now: int,
                pidOutput: real, tunerOutput: real, tunerDone: bool, tuned: Gains)
      returns (writes: seq<Level>)
      requires Valid() && clock <= now
      modifies this
      ensures Valid() && clock == now
      ensures Snapshot() == LoopIteration(old(Snapshot()),
                TickInput(reading, doorOpen, now, pidOutput, tunerOutput, tunerDone, tuned)).next
      ensures writes == LoopIteration(old(Snapshot()),
                TickInput(reading, doorOpen, now, pidOutput, tunerOutput, tunerDone, tuned)).writes
      ensures relay == old(relay) + writes
    {
      var ev := TickInput(reading, doorOpen, now, pidOutput, tunerOutput, tunerDone, tuned);
      ghost var start, written := Snapshot(), relay;
      ghost var safe := SafetyCheck(start, doorOpen);
      ghost var r := LoopIteration(start, ev);
      var before := |relay|;
      HandleSafety(doorOpen);
      assert Snapshot() == safe.next && relay == written + safe.writes;
      if currentState != ErrorState {
        input := reading;
        if reading.NaN? {
          currentState := ErrorState;
          errorMessage := ReadErrorMessage;
          clock := now;
          assert Snapshot() == r.next && relay == written + r.writes;
        } else {
          ghost var pid := PidStep(safe.next.(input := reading), ev);
          UpdatePid(ev);
          assert Snapshot() == pid.next && relay == (written + safe.writes) + pid.writes;
          assert relay == written + r.writes;
        }
      } else {
        DigitalWrite(Low);
        clock := now;
        assert relay == (written + safe.writes) + [Low];
        assert relay == written + r.writes;
      }
      assert |written| == before;
      writes := relay[before..];
    }
  }
}
