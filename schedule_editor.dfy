/** The schedule editor's handlers. Each takes the currently selected
    schedule (`None` when nothing is selected) and returns the value handed
    to `setSelectedSchedule`; with nothing selected the selection stays as it
    is. The cost estimate folds over the steps with a running temperature. */
module ScheduleEditor {
  import opened KilnTypes

  const DefaultRate: real := 100.0
  const DefaultHoldMinutes: real := 60.0
  const StartTemp: real := 20.0
  const DutyCycle: real := 0.6

  function Abs(x: real): (r: real)
    ensures r >= 0.0 && (r == x || r == -x)
  {
    if x < 0.0 then -x else x
  }

  /** `handleAddStep`: append one step at 0 degrees; ramp and cool steps get
      rate 100 and no duration, hold steps 60 minutes and no rate. */
  method AddStep(selected: Option<Schedule>, kind: StepKind, newId: string) returns (next: Option<Schedule>)
    ensures selected.None? ==> next == selected
    ensures selected.Some? ==>
      && next.Some?
      && next.value == selected.value.(steps := next.value.steps)
      && |next.value.steps| == |selected.value.steps| + 1
      && next.value.steps[..|selected.value.steps|] == selected.value.steps
      && var step := next.value.steps[|selected.value.steps|];
         && step.id == newId && step.kind == kind && step.targetTemp == 0.0 && step.alarm == None
         && step.rate == (if kind == Hold then None else Some(DefaultRate))
         && step.duration == (if kind == Hold then Some(DefaultHoldMinutes) else None)
  {
    if selected.None? {
      return selected;
    }
    var step := ScheduleStep(newId, kind, 0.0, None, None, None);
    if kind == Ramp || kind == Cool {
      step := step.(rate := Some(DefaultRate));
    }
    if kind == Hold {
      step := step.(duration := Some(DefaultHoldMinutes));
    }
    var steps := selected.value.steps + [step];
    assert steps[..|selected.value.steps|] == selected.value.steps;
    next := Some(selected.value.(steps := steps));
  }

  /** The three fields the step row edits, with the number typed in. */
  datatype StepEdit = SetTargetTemp(temp: real) | SetRate(rate: real) | SetDuration(minutes: real)

  /** `{ ...step, [field]: value }`: only the named field changes. */
  function Edited(step: ScheduleStep, edit: StepEdit): (r: ScheduleStep)
    ensures r.id == step.id && r.kind == step.kind && r.alarm == step.alarm
    ensures r.targetTemp == (if edit.SetTargetTemp? then edit.temp else step.targetTemp)
    ensures r.rate == (if edit.SetRate? then Some(edit.rate) else step.rate)
    ensures r.duration == (if edit.SetDuration? then Some(edit.minutes) else step.duration)
  {
    match edit
    case SetTargetTemp(t) => step.(targetTemp := t)
    case SetRate(v) => step.(rate := Some(v))
    case SetDuration(m) => step.(duration := Some(m))
  }

  /** `handleUpdateStep`: edit the step at `index` of a copy of the steps;
      the other steps and the length stay. The index is that of a rendered
      step row. */
  method UpdateStep(selected: Option<Schedule>, index: nat, edit: StepEdit) returns (next: Option<Schedule>)
    requires selected.Some? ==> index < |selected.value.steps|
    ensures selected.None? ==> next == selected
    ensures selected.Some? ==>
      && next.Some?
      && next.value == selected.value.(steps := next.value.steps)
      && |next.value.steps| == |selected.value.steps|
      && next.value.steps[index] == Edited(selected.value.steps[index], edit)
      && forall j :: 0 <= j < |selected.value.steps| && j != index ==>
           next.value.steps[j] == selected.value.steps[j]
  {
    if selected.None? {
      return selected;
    }
    var newSteps := selected.value.steps;
    newSteps := newSteps[index := Edited(newSteps[index], edit)];
    next := Some(selected.value.(steps := newSteps));
  }

  /** `handleRemoveStep`: `splice(index, 1)` on a copy of the steps; an index
      past the end removes nothing. */
  method RemoveStep(selected: Option<Schedule>, index: nat) returns (next: Option<Schedule>)
    ensures selected.None? ==> next == selected
    ensures selected.Some? && index >= |selected.value.steps| ==> next == selected
    ensures selected.Some? && index < |selected.value.steps| ==>
      && next.Some?
      && next.value == selected.value.(steps := next.value.steps)
      && |next.value.steps| == |selected.value.steps| - 1
      && (forall j :: 0 <= j < index ==> next.value.steps[j] == selected.value.steps[j])
      && (forall j :: index <= j < |next.value.steps| ==> next.value.steps[j] == selected.value.steps[j + 1])
      && multiset(next.value.steps) + multiset{selected.value.steps[index]} == multiset(selected.value.steps)
  {
    if selected.None? {
      return selected;
    }
    var newSteps := selected.value.steps;
    if index < |newSteps| {
      ghost var before := newSteps;
      newSteps := newSteps[..index] + newSteps[index + 1..];
      assert before == before[..index] + [before[index]] + before[index + 1..];
    }
    next := Some(selected.value.(steps := newSteps));
  }

  /** `steps.findIndex(s => s.id === id)`: the first index with that id, or -1. */
  function FindIndex(steps: seq<ScheduleStep>, id: string): (r: int)
    ensures -1 <= r < |steps|
    ensures r >= 0 ==> steps[r].id == id && forall j :: 0 <= j < r ==> steps[j].id != id
    ensures r == -1 <==> forall j :: 0 <= j < |steps| ==> steps[j].id != id
  {
    if steps == [] then -1
    else if steps[0].id == id then 0
    else
      var k := FindIndex(steps[1..], id);
      assert forall j :: 1 <= j < |steps| ==> steps[j] == steps[1..][j - 1];
      if k == -1 then -1 else k + 1
  }

  /** How `splice` reads an index of `arrayMove`: a negative one counts from
      the end (of the original array, for the target too). */
  function MoveTarget(length: nat, to: int): (r: int)
    ensures -(length as int) <= to < length ==> 0 <= r < length
    ensures to >= 0 ==> r == to
    ensures to < 0 ==> r - to == length
  {
    if to < 0 then length + to else to
  }

  /** `arrayMove(array, from, to)` of the sortable list library: take the
      element out at `from` and insert it at `to`. */
  function ArrayMove<T>(s: seq<T>, from: int, to: int): (r: seq<T>)
    requires -|s| <= from < |s| && -|s| <= to < |s|
    ensures |r| == |s|
  {
    var src, at := MoveTarget(|s|, from), MoveTarget(|s|, to);
    var rest := s[..src] + s[src + 1..];
    rest[..at] + [s[src]] + rest[at..]
  }

  /** Taking out the element at `i`: the ones after it move down by one. */
  lemma RemovedAt<T>(s: seq<T>, i: nat)
    requires i < |s|
    ensures var rest := s[..i] + s[i + 1..];
      && |rest| == |s| - 1
      && (forall j :: 0 <= j < i ==> rest[j] == s[j])
      && (forall j :: i <= j < |rest| ==> rest[j] == s[j + 1])
      && multiset(rest) + multiset{s[i]} == multiset(s)
  {
    assert s == s[..i] + [s[i]] + s[i + 1..];
  }

  /** Inserting `x` at `i`: the ones from `i` on move up by one. */
  lemma InsertedAt<T>(s: seq<T>, i: nat, x: T)
    requires i <= |s|
    ensures var r := s[..i] + [x] + s[i..];
      && |r| == |s| + 1
      && r[i] == x
      && (forall j :: 0 <= j < i ==> r[j] == s[j])
      && (forall j :: i < j < |r| ==> r[j] == s[j - 1])
      && multiset(r) == multiset(s) + multiset{x}
  {
    assert s[..i] + s[i..] == s;
  }

  /** The moved element lands at the target, the elements between shift by
      one towards the gap, the others stay, and nothing is lost or added. */
  lemma ArrayMoveSpec<T>(s: seq<T>, from: int, to: int)
    requires -|s| <= from < |s| && -|s| <= to < |s|
    ensures var r, src, at := ArrayMove(s, from, to), MoveTarget(|s|, from), MoveTarget(|s|, to);
      && 0 <= src < |s| && 0 <= at < |s|
      && r[at] == s[src]
      && (forall j :: 0 <= j < |s| && j < src && j < at ==> r[j] == s[j])
      && (forall j :: 0 <= j < |s| && j > src && j > at ==> r[j] == s[j])
      && (forall j :: src <= j < at ==> r[j] == s[j + 1])
      && (forall j :: at < j <= src ==> r[j] == s[j - 1])
      && multiset(r) == multiset(s)
  {
    var src, at := MoveTarget(|s|, from), MoveTarget(|s|, to);
    var rest := s[..src] + s[src + 1..];
    RemovedAt(s, src);
    InsertedAt(rest, at, s[src]);
    assert ArrayMove(s, from, to) == rest[..at] + [s[src]] + rest[at..];
  }

  /** `handleDragEnd`: move the dragged step to the position of the step it
      was dropped on. Nothing happens without a selection or when dropped on
      itself. An id that names no step has index -1, which `arrayMove` reads
      as the last position: dropped on nothing, the step goes last. A drag
      needs a rendered step, so the list is not empty. */
  function DragEnd(selected: Option<Schedule>, activeId: string, overId: Option<string>): (next: Option<Schedule>)
    requires selected.Some? ==> |selected.value.steps| > 0
    ensures overId == Some(activeId) || selected.None? ==> next == selected
    ensures overId != Some(activeId) && selected.Some? ==>
      && next.Some?
      && next.value == selected.value.(steps := next.value.steps)
      && |next.value.steps| == |selected.value.steps|
      && multiset(next.value.steps) == multiset(selected.value.steps)
      && var n := |selected.value.steps|;
         var oldIndex := FindIndex(selected.value.steps, activeId);
         var newIndex := if overId.None? then -1 else FindIndex(selected.value.steps, overId.value);
         next.value.steps[MoveTarget(n, newIndex)] == selected.value.steps[MoveTarget(n, oldIndex)]
  {
    if overId != Some(activeId) && selected.Some? then
      var steps := selected.value.steps;
      var oldIndex := FindIndex(steps, activeId);
      var newIndex := if overId.None? then -1 else FindIndex(steps, overId.value);
      ArrayMoveSpec(steps, oldIndex, newIndex);
      Some(selected.value.(steps := ArrayMove(steps, oldIndex, newIndex)))
    else
      selected
  }

  /** Dragging a step onto another moves it to exactly that step's place
      and keeps the order of all the others. */
  lemma DragOntoStep(selected: Schedule, activeId: string, overId: string)
    requires overId != activeId
    requires FindIndex(selected.steps, activeId) >= 0 && FindIndex(selected.steps, overId) >= 0
    ensures var next := DragEnd(Some(selected), activeId, Some(overId)).value.steps;
      var from, to := FindIndex(selected.steps, activeId), FindIndex(selected.steps, overId);
      && next[to] == selected.steps[from] && next[to].id == activeId
      && (forall j :: 0 <= j < |next| && j < from && j < to ==> next[j] == selected.steps[j])
      && (forall j :: 0 <= j < |next| && j > from && j > to ==> next[j] == selected.steps[j])
      && (forall j :: from <= j < to ==> next[j] == selected.steps[j + 1])
      && (forall j :: to < j <= from ==> next[j] == selected.steps[j - 1])
  {
    ArrayMoveSpec(selected.steps, FindIndex(selected.steps, activeId), FindIndex(selected.steps, overId));
  }

  /** Hours one step adds to the estimate, given the running temperature:
      ramp and cool steps with a positive rate take |target - running| / rate
      (the rate read as degrees per hour); hold steps with a non-zero
      duration take duration / 60. */
  function StepHours(step: ScheduleStep, running: real): (h: real)
    ensures step.kind != Hold && step.rate.Some? && step.rate.value > 0.0 ==>
      h * step.rate.value == Abs(step.targetTemp - running) && h >= 0.0
    ensures step.kind != Hold && !(step.rate.Some? && step.rate.value > 0.0) ==> h == 0.0
    ensures step.kind == Hold ==> h * 60.0 == (if step.duration.Some? then step.duration.value else 0.0)
  {
    match step.kind
    case Ramp | Cool =>
      if step.rate.Some? && step.rate.value > 0.0 then Abs(step.targetTemp - running) / step.rate.value else 0.0
    case Hold =>
      if step.duration.Some? && step.duration.value != 0.0 then step.duration.value / 60.0 else 0.0
  }

  /** No hold step of `steps` has a negative duration. */
  predicate NoNegativeHold(steps: seq<ScheduleStep>)
    decreases |steps|
  {
    steps == []
    || ((steps[0].kind == Hold && steps[0].duration.Some? ==> steps[0].duration.value >= 0.0)
        && NoNegativeHold(steps[1..]))
  }

  /** The total hours of `steps` from a running temperature, which each step
      sets to its own target, whatever its kind. With no negative hold
      duration the estimate is never negative. */
  function HoursFrom(steps: seq<ScheduleStep>, running: real): (h: real)
    ensures NoNegativeHold(steps) ==> h >= 0.0
    decreases |steps|
  {
    if steps == [] then 0.0
    else StepHours(steps[0], running) + HoursFrom(steps[1..], steps[0].targetTemp)
  }

  /** The estimate from step `i` on is that step's hours plus the estimate
      of the rest from its target. */
  lemma HoursFromStep(steps: seq<ScheduleStep>, i: nat, running: real)
    requires i < |steps|
    ensures HoursFrom(steps[i..], running)
         == StepHours(steps[i], running) + HoursFrom(steps[i + 1..], steps[i].targetTemp)
  {
    assert steps[i..][1..] == steps[i + 1..];
  }

  /** The running temperature after `steps`: the last step's target. */
  function EndTemp(steps: seq<ScheduleStep>, running: real): real
  {
    if steps == [] then running else steps[|steps| - 1].targetTemp
  }

  /** The estimate of a concatenation: the second part starts from the
      target of the last step of the first. */
  lemma {:induction false} HoursAppend(a: seq<ScheduleStep>, b: seq<ScheduleStep>, running: real)
    ensures HoursFrom(a + b, running) == HoursFrom(a, running) + HoursFrom(b, EndTemp(a, running))
    decreases |a|
  {
    if a == [] {
      assert a + b == b;
    } else {
      assert (a + b)[1..] == a[1..] + b;
      HoursAppend(a[1..], b, a[0].targetTemp);
      assert EndTemp(a[1..], a[0].targetTemp) == EndTemp(a, running);
    }
  }

  /** A ramp or cool step without a positive rate adds no time, yet the
      steps after it are estimated from its target. */
  lemma UnratedStepOnlyMovesTemp(step: ScheduleStep, rest: seq<ScheduleStep>, running: real)
    requires step.kind != Hold && !(step.rate.Some? && step.rate.value > 0.0)
    ensures HoursFrom([step] + rest, running) == HoursFrom(rest, step.targetTemp)
  {
    assert ([step] + rest)[1..] == rest;
  }

  /** The cost of `hours` of firing at `powerKw` kW and `tariff` per kWh,
      with the element on 60% of the time. */
  function FiringCost(hours: real, powerKw: real, tariff: real): real
  {
    hours * powerKw * DutyCycle * tariff
  }

  /** `estimatedCost`: the `forEach` over the steps, then
      hours x power x 0.6 x tariff; 0 without a selection. */
  method EstimatedCost(selected: Option<Schedule>, powerKw: real, tariff: real) returns (cost: real)
    ensures selected.None? ==> cost == 0.0
    ensures selected.Some? ==>
      cost == FiringCost(HoursFrom(selected.value.steps, StartTemp), powerKw, tariff)
  {
    if selected.None? {
      return 0.0;
    }
    var steps := selected.value.steps;
    var totalHours := 0.0;
    var currentTemp := StartTemp;
    var i := 0;
    while i < |steps|
      invariant 0 <= i <= |steps|
      invariant totalHours + HoursFrom(steps[i..], currentTemp) == HoursFrom(steps, StartTemp)
    {
      var step := steps[i];
      HoursFromStep(steps, i, currentTemp);
      if step.kind == Ramp || step.kind == Cool {
        if step.rate.Some? && step.rate.value > 0.0 {
          var tempDiff := Abs(step.targetTemp - currentTemp);
          totalHours := totalHours + tempDiff / step.rate.value;
        }
      } else if step.kind == Hold {
        if step.duration.Some? && step.duration.value != 0.0 {
          totalHours := totalHours + step.duration.value / 60.0;
        }
      }
      currentTemp := step.targetTemp;
      i := i + 1;
    }
    assert steps[i..] == [];
    var energyKwh := totalHours * powerKw * DutyCycle;
    cost := energyKwh * tariff;
    assert cost == FiringCost(totalHours, powerKw, tariff);
  }

  /** The bisque schedule of the demo data: 80/50 + 60/60 + 960/150 + 15/60
      = 9.25 hours, so at 3 kW and 0.15 per kWh it is estimated at 2.4975. */
  lemma BisqueEstimate()
    ensures var steps := [
              ScheduleStep("s1", Ramp, 100.0, Some(50.0), None, None),
              ScheduleStep("s2", Hold, 100.0, None, Some(60.0), None),
              ScheduleStep("s3", Ramp, 1060.0, Some(150.0), None, None),
              ScheduleStep("s4", Hold, 1060.0, None, Some(15.0), None)];
            HoursFrom(steps, StartTemp) == 9.25
            && HoursFrom(steps, StartTemp) * 3.0 * DutyCycle * 0.15 == 2.4975
  {
    var steps := [
      ScheduleStep("s1", Ramp, 100.0, Some(50.0), None, None),
      ScheduleStep("s2", Hold, 100.0, None, Some(60.0), None),
      ScheduleStep("s3", Ramp, 1060.0, Some(150.0), None, None),
      ScheduleStep("s4", Hold, 1060.0, None, Some(15.0), None)];
    assert HoursFrom(steps[3..], 1060.0) == 0.25;
    assert HoursFrom(steps[2..], 100.0) == 6.4 + 0.25;
    assert HoursFrom(steps[1..], 100.0) == 1.0 + 6.65;
  }
}
