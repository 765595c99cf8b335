/** The dashboard: the chart's bounded history, the state colour, the
    time-remaining label, the step label and the controls offered in each
    state. The wall-clock label of a sample is a parameter. */
module Dashboard {
  import opened KilnTypes
  import App

  const HistoryLimit: nat := 50

  /** One point of the chart. */
  datatype Sample = Sample(time: string, temp: real, setpoint: real)

  /** The last `n` elements of `s` (all of them when there are fewer). */
  function Recent<T>(s: seq<T>, n: nat): (r: seq<T>)
    ensures |r| == if |s| <= n then |s| else n
    ensures forall i :: 0 <= i < |r| ==> r[i] == s[|s| - |r| + i]
  {
    if |s| <= n then s else s[|s| - n..]
  }

  /** The history updater: append the status's point as the newest, then
      `shift()` the oldest off a copy longer than 50. */
  method UpdateHistory(prev: seq<Sample>, status: KilnStatus, time: string) returns (next: seq<Sample>)
    ensures |next| > 0 && next[|next| - 1] == Sample(time, status.currentTemp, status.setpoint)
    ensures |prev| <= HistoryLimit ==> next == Recent(prev + [next[|next| - 1]], HistoryLimit)
    ensures |prev| < HistoryLimit ==> next == prev + [next[|next| - 1]]
    ensures |prev| >= HistoryLimit ==> next == prev[1..] + [next[|next| - 1]]
  {
    var newHistory := prev + [Sample(time, status.currentTemp, status.setpoint)];
    if |newHistory| > HistoryLimit {
      assert newHistory[1..] == prev[1..] + [newHistory[|prev|]];
      newHistory := newHistory[1..];
    }
    next := newHistory;
  }

  /** Keeping the last n after each append is keeping the last n of all. */
  lemma RecentAppend<T>(s: seq<T>, x: T, n: nat)
    requires n > 0
    ensures Recent(Recent(s, n) + [x], n) == Recent(s + [x], n)
  {
    if |s| >= n {
      var k := |s| - n;
      assert Recent(s, n) == s[k..];
      assert (s[k..] + [x])[1..] == s[k + 1..] + [x];
      assert (s + [x])[k + 1..] == s[k + 1..] + [x];
    }
  }

  /** The history after a series of status updates: from at most 50
      entries it never exceeds 50, and ends with the newest update. */
  function Replay(history: seq<Sample>, samples: seq<Sample>): (r: seq<Sample>)
    ensures |history| <= HistoryLimit ==> |r| <= HistoryLimit
    ensures samples != [] ==> |r| > 0 && r[|r| - 1] == samples[|samples| - 1]
    decreases |samples|
  {
    if samples == [] then history
    else Replay(Recent(history + [samples[0]], HistoryLimit), samples[1..])
  }

  /** From any history of at most 50 entries, a series of updates leaves the
      last 50 of the old entries followed by the updates, oldest first. */
  lemma {:induction false} ReplayKeepsLastFifty(history: seq<Sample>, samples: seq<Sample>)
    requires |history| <= HistoryLimit
    ensures Replay(history, samples) == Recent(history + samples, HistoryLimit)
    decreases |samples|
  {
    if samples == [] {
      assert history + samples == history;
    } else {
      var h := Recent(history + [samples[0]], HistoryLimit);
      ReplayKeepsLastFifty(h, samples[1..]);
      assert (history + [samples[0]]) + samples[1..] == history + samples;
      RecentConcat(history + [samples[0]], samples[1..]);
    }
  }

  lemma {:induction false} RecentConcat<T>(s: seq<T>, t: seq<T>)
    ensures Recent(Recent(s, HistoryLimit) + t, HistoryLimit) == Recent(s + t, HistoryLimit)
    decreases |t|
  {
    if t == [] {
      assert Recent(s, HistoryLimit) + t == Recent(s, HistoryLimit);
      assert s + t == s;
    } else {
      var init, last := t[..|t| - 1], t[|t| - 1];
      assert t == init + [last];
      RecentConcat(s, init);
      calc {
        Recent(Recent(s, HistoryLimit) + t, HistoryLimit);
        { assert Recent(s, HistoryLimit) + t == (Recent(s, HistoryLimit) + init) + [last]; }
        Recent((Recent(s, HistoryLimit) + init) + [last], HistoryLimit);
        { RecentAppend(Recent(s, HistoryLimit) + init, last, HistoryLimit); }
        Recent(Recent(Recent(s, HistoryLimit) + init, HistoryLimit) + [last], HistoryLimit);
        Recent(Recent(s + init, HistoryLimit) + [last], HistoryLimit);
        { RecentAppend(s + init, last, HistoryLimit); }
        Recent((s + init) + [last], HistoryLimit);
        { assert (s + init) + [last] == s + t; }
        Recent(s + t, HistoryLimit);
      }
    }
  }

  const Gray: string := "text-gray-400"

  /** `getStatusColor`: total over strings; unknown states get idle's grey. */
  function StatusColor(state: string): (color: string)
    ensures color == Gray <==> state == "idle" || PhaseOfName(state).None?
  {
    match state
    case "idle" => Gray
    case "heating" => "text-red-500"
    case "holding" => "text-orange-500"
    case "cooling" => "text-blue-500"
    case "error" => "text-red-600"
    case "autotune" => "text-purple-500"
    case _ => Gray
  }

  /** The six phases get six colours, only idle the grey one. */
  lemma PhaseColorsDistinct(p: Phase, q: Phase)
    ensures StatusColor(PhaseName(p)) == StatusColor(PhaseName(q)) <==> p == q
    ensures StatusColor(PhaseName(p)) == Gray <==> p == Idle
  {
    PhaseNameRoundTrip(p);
    PhaseNameRoundTrip(q);
  }

  /** The time-remaining label: `--:--`, or hours and minutes. */
  datatype TimeLabel = NoTime | HoursMinutes(hours: int, minutes: int)

  /** JavaScript's `t % 60`: the remainder takes the sign of the dividend. */
  function JsRem60(a: int): (r: int)
    ensures a >= 0 ==> 0 <= r < 60
    ensures a < 0 ==> -60 < r <= 0
    ensures (a - r) % 60 == 0
  {
    if a >= 0 then a % 60 else -((-a) % 60)
  }

  /** `timeRemaining ? floor(t / 60) + "h " + t % 60 + "m" : "--:--"`. */
  function FormatTimeRemaining(t: Option<int>): (shown: TimeLabel)
    ensures shown == NoTime <==> t == None || t == Some(0)
    ensures t.Some? && t.value > 0 ==>
      shown.HoursMinutes? && 60 * shown.hours + shown.minutes == t.value && 0 <= shown.minutes < 60
  {
    if t.None? || t.value == 0 then NoTime
    else HoursMinutes(t.value / 60, JsRem60(t.value))
  }

  /** A negative time does not add up: -30 shows as -1h -30m. */
  lemma NegativeTimeDoesNotAddUp()
    ensures FormatTimeRemaining(Some(-30)) == HoursMinutes(-1, -30)
  {
  }

  const UnknownError: string := "Unknown error occurred. Heating aborted."

  /** The error alert: shown only in the error state, with the status's
      message, or a fixed text when there is none or it is empty. */
  function ErrorAlert(status: KilnStatus): (alert: Option<string>)
    ensures alert.Some? <==> status.state == Error
    ensures alert.Some? && status.error.Some? && status.error.value != "" ==>
      alert.value == status.error.value
    ensures alert.Some? && (status.error.None? || status.error.value == "") ==>
      alert.value == UnknownError
    ensures alert.Some? ==> |alert.value| > 0
  {
    if status.state != Error then None
    else if status.error.Some? && status.error.value != "" then Some(status.error.value)
    else Some(UnknownError)
  }

  /** The step label under the status. */
  datatype StepLabel = Hidden | StepNumber(n: int) | Dash

  function StepLabelOf(status: KilnStatus): (shown: StepLabel)
    ensures shown == Hidden <==> status.state == Idle || status.state == Error
    ensures shown.StepNumber? <==>
      status.state != Idle && status.state != Error && status.currentStepIndex.Some?
    ensures shown.StepNumber? ==> shown.n == status.currentStepIndex.value + 1
  {
    if status.state == Idle || status.state == Error then Hidden
    else if status.currentStepIndex.Some? then StepNumber(status.currentStepIndex.value + 1)
    else Dash
  }

  /** The buttons of the control bar. Pause has no handler. */
  datatype Control = AutotuneButton | StartButton | PauseButton | SkipButton | AbortButton

  /** The buttons shown for a state, left to right. */
  function Controls(state: Phase): (buttons: seq<Control>)
    ensures state == Idle ==> buttons == [AutotuneButton, StartButton]
    ensures state == Autotune ==> buttons == [AbortButton]
    ensures state != Idle && state != Autotune ==> buttons == [PauseButton, SkipButton, AbortButton]
  {
    if state == Idle then [AutotuneButton, StartButton]
    else if state == Autotune then [AbortButton]
    else [PauseButton, SkipButton, AbortButton]
  }

  /** The status after pressing a button: each button calls the App handler
      it is wired to, and Pause calls none. */
  function Press(button: Control, status: KilnStatus): (r: KilnStatus)
    ensures button == PauseButton ==> r == status
    ensures button == AbortButton ==> r.state == Idle && r.currentStepIndex == None
    ensures button == StartButton ==> r.state == Heating && r.currentStepIndex == Some(0)
    ensures button == AutotuneButton ==> r.state == Autotune
    ensures button == SkipButton ==> r.state == status.state && r.currentTemp == status.currentTemp
    ensures r.currentTemp == status.currentTemp
  {
    match button
    case AutotuneButton => App.StartAutotune(status)
    case StartButton => App.Start(status)
    case PauseButton => status
    case SkipButton => App.Skip(status)
    case AbortButton => App.Stop(status)
  }

  /** Every state other than idle offers Abort, and Abort always returns to
      idle; start and autotune are offered only when idle. */
  lemma ControlsReachIdle(status: KilnStatus)
    ensures status.state != Idle ==> AbortButton in Controls(status.state)
    ensures Press(AbortButton, status).state == Idle
    ensures StartButton in Controls(status.state) <==> status.state == Idle
    ensures AutotuneButton in Controls(status.state) <==> status.state == Idle
  {
  }
}
