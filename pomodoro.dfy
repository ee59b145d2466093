/** The Pomodoro timer: a state machine over the current mode, the run status, the seconds
    left and the number of completed work sessions, driven by a one-second tick, the
    completion check and the start / pause / stop / mode buttons. Durations are configured in
    whole minutes. */
module Pomodoro {
  import opened Common
  import opened JsValue
  import opened Decimal

  datatype Mode = Work | ShortBreak | LongBreak

  datatype Status = Idle | Running | Paused

  /** Minutes per mode and the number of work sessions between long breaks. Each entry is
      whatever `parseInt(...) || default` produced, so it may be negative but is never 0. */
  datatype Settings = Settings(workDuration: int, shortBreak: int, longBreak: int, longBreakInterval: int)

  const DefaultSettings: Settings := Settings(25, 5, 15, 4)

  datatype TimerState = TimerState(mode: Mode, status: Status, timeLeft: int, completedSessions: nat)

  /** `getCurrentDuration` for a given mode: that mode's minutes, in seconds. */
  function Duration(mode: Mode, settings: Settings): (d: int)
    ensures d % 60 == 0
    ensures mode == Work ==> d / 60 == settings.workDuration
    ensures mode == ShortBreak ==> d / 60 == settings.shortBreak
    ensures mode == LongBreak ==> d / 60 == settings.longBreak
  {
    var minutes := match mode
      case Work => settings.workDuration
      case ShortBreak => settings.shortBreak
      case LongBreak => settings.longBreak;
    WholeMinutes(minutes);
    minutes * 60
  }

  /** `m * 60` seconds are exactly `m` whole minutes. */
  lemma WholeMinutes(m: int)
    ensures (m * 60) / 60 == m && (m * 60) % 60 == 0
  {
    DivUnique(m * 60, 60, m, 0);
  }

  /** The state on mount: a full work session, idle, nothing completed. */
  function Initial(settings: Settings): TimerState {
    TimerState(Work, Idle, Duration(Work, settings), 0)
  }

  // ---------------------------------------------------------------------------------------
  // Transitions

  /** One interval callback: the countdown runs only while running with time left. */
  function Tick(st: TimerState): (r: TimerState)
    ensures st.status == Running && st.timeLeft > 0 ==> r.timeLeft == st.timeLeft - 1
    ensures !(st.status == Running && st.timeLeft > 0) ==> r == st
    ensures r.mode == st.mode && r.status == st.status && r.completedSessions == st.completedSessions
  {
    if st.status == Running && st.timeLeft > 0 then st.(timeLeft := st.timeLeft - 1) else st
  }

  /** The completion effect fires exactly when a running countdown has reached zero. */
  predicate CompletionDue(st: TimerState) {
    st.timeLeft == 0 && st.status == Running
  }

  /** The mode after the `completed`-th work session: `completed % longBreakInterval === 0`
      picks the long break. `x % 0` is NaN in JavaScript, never equal to 0, so an interval of
      0 always picks the short break; `completed` is positive, so the truncating and the
      Euclidean remainder agree. */
  function BreakAfter(completed: nat, interval: int): (m: Mode)
    requires completed > 0
    ensures m != Work
    ensures m == LongBreak <==> interval != 0 && completed % interval == 0
  {
    if interval != 0 && completed % interval == 0 then LongBreak else ShortBreak
  }

  /** `handleTimerComplete`: always back to idle; a finished work session is counted and
      followed by a break of the right kind, a finished break is followed by work. */
  function Complete(st: TimerState, settings: Settings): (r: TimerState)
    ensures r.status == Idle
    ensures r.timeLeft == Duration(r.mode, settings)
    ensures st.mode == Work ==>
      && r.completedSessions == st.completedSessions + 1
      && r.mode != Work
      && (r.mode == LongBreak <==>
            settings.longBreakInterval != 0 && (st.completedSessions + 1) % settings.longBreakInterval == 0)
    ensures st.mode != Work ==> r.mode == Work && r.completedSessions == st.completedSessions
  {
    if st.mode == Work then
      var next := BreakAfter(st.completedSessions + 1, settings.longBreakInterval);
      TimerState(next, Idle, Duration(next, settings), st.completedSessions + 1)
    else
      TimerState(Work, Idle, Duration(Work, settings), st.completedSessions)
  }

  function Start(st: TimerState): (r: TimerState)
    ensures r.status == Running
    ensures r.mode == st.mode && r.timeLeft == st.timeLeft && r.completedSessions == st.completedSessions
  {
    st.(status := Running)
  }

  function Pause(st: TimerState): (r: TimerState)
    ensures r.status == Paused
    ensures r.mode == st.mode && r.timeLeft == st.timeLeft && r.completedSessions == st.completedSessions
  {
    st.(status := Paused)
  }

  /** `handleStop`: idle, and the countdown rewinds to the current mode's full duration. */
  function Stop(st: TimerState, settings: Settings): (r: TimerState)
    ensures r.status == Idle && r.timeLeft == Duration(st.mode, settings)
    ensures r.mode == st.mode && r.completedSessions == st.completedSessions
  {
    st.(status := Idle, timeLeft := Duration(st.mode, settings))
  }

  /** `handleModeChange`: the chosen mode, idle, with that mode's full duration. */
  function ChangeMode(st: TimerState, mode: Mode, settings: Settings): (r: TimerState)
    ensures r.mode == mode && r.status == Idle && r.timeLeft == Duration(mode, settings)
    ensures r.completedSessions == st.completedSessions
  {
    TimerState(mode, Idle, Duration(mode, settings), st.completedSessions)
  }

  // ---------------------------------------------------------------------------------------
  // The countdown

  function Ticks(st: TimerState, n: nat): TimerState
    decreases n
  {
    if n == 0 then st else Ticks(Tick(st), n - 1)
  }

  /** A running countdown loses exactly one second per tick until it reaches zero, and then
      stays at zero with the completion due; nothing else changes on the way. */
  lemma {:induction false} CountdownReachesZero(st: TimerState, n: nat)
    requires st.status == Running && st.timeLeft >= 0
    ensures var r := Ticks(st, n);
      && r.timeLeft == (if n <= st.timeLeft then st.timeLeft - n else 0)
      && r.mode == st.mode && r.status == Running && r.completedSessions == st.completedSessions
      && (n >= st.timeLeft ==> CompletionDue(r))
    decreases n
  {
    if n > 0 {
      CountdownReachesZero(Tick(st), n - 1);
    }
  }

  /** Outside the running state no number of ticks changes anything. */
  lemma {:induction false} TicksIdleOrPaused(st: TimerState, n: nat)
    requires st.status != Running
    ensures Ticks(st, n) == st
    decreases n
  {
    if n > 0 {
      TicksIdleOrPaused(Tick(st), n - 1);
    }
  }

  // ---------------------------------------------------------------------------------------
  // Long breaks over many sessions

  /** `Math.floor(completedSessions / longBreakInterval)`: the cycles shown on the page. */
  function Cycles(completed: nat, interval: int): (c: int)
    requires interval != 0
    ensures interval > 0 ==> c >= 0 && c * interval <= completed < c * interval + interval
  {
    FloorDiv(completed, interval)
  }

  /** A full Pomodoro from a work session: complete the work, then complete the break. */
  function Round(st: TimerState, settings: Settings): TimerState {
    Complete(Complete(st, settings), settings)
  }

  /** How many of the next `n` rounds, started in work mode, take the long break. */
  function LongBreaksIn(st: TimerState, settings: Settings, n: nat): nat
    decreases n
  {
    if n == 0 then 0
    else (if Complete(st, settings).mode == LongBreak then 1 else 0) + LongBreaksIn(Round(st, settings), settings, n - 1)
  }

  /** Division by a positive divisor is determined by any quotient/remainder split. */
  lemma DivUnique(a: int, k: int, q: int, r: int)
    requires k > 0 && a == q * k + r && 0 <= r < k
    ensures a / k == q
  {
    var d := a / k - q;
    assert d * k == r - a % k by {
      assert a == (a / k) * k + a % k;
      assert (a / k) * k - q * k == d * k;
    }
    MulAwayFromZero(d, k);
  }

  lemma MulAwayFromZero(d: int, k: int)
    requires k > 0
    ensures d >= 1 ==> d * k >= k
    ensures d <= -1 ==> d * k <= -k
  {
    if d >= 1 {
      assert (d - 1) * k >= 0;
    } else if d <= -1 {
      assert (-d - 1) * k >= 0;
    }
  }

  lemma DivStep(c: nat, k: int)
    requires k > 0
    ensures (c + 1) / k == c / k + (if (c + 1) % k == 0 then 1 else 0)
  {
    var q, r := c / k, c % k;
    assert c == q * k + r;
    if r == k - 1 {
      assert c + 1 == (q + 1) * k + 0;
      DivUnique(c + 1, k, q + 1, 0);
      assert (c + 1) % k == 0;
    } else {
      DivUnique(c + 1, k, q, r + 1);
      assert (c + 1) % k == r + 1;
    }
  }

  /** With a positive interval, rounds taken from work mode take exactly one long break per
      `longBreakInterval` sessions: after `n` rounds the long breaks taken are the cycles
      gained, so from a fresh timer they equal the cycle count the page shows. */
  lemma {:induction false} LongBreakEveryInterval(st: TimerState, settings: Settings, n: nat)
    requires st.mode == Work && settings.longBreakInterval > 0
    ensures LongBreaksIn(st, settings, n) ==
      Cycles(st.completedSessions + n, settings.longBreakInterval) - Cycles(st.completedSessions, settings.longBreakInterval)
    decreases n
  {
    if n > 0 {
      var k := settings.longBreakInterval;
      var c := st.completedSessions;
      var next := Round(st, settings);
      assert next.mode == Work && next.completedSessions == c + 1;
      LongBreakEveryInterval(next, settings, n - 1);
      DivStep(c, k);
    }
  }

  /** From a fresh timer, the long breaks taken in `n` rounds are `Math.floor(n / interval)`. */
  lemma FreshTimerLongBreaks(settings: Settings, n: nat)
    requires settings.longBreakInterval > 0
    ensures LongBreaksIn(Initial(settings), settings, n) == Cycles(n, settings.longBreakInterval)
  {
    LongBreakEveryInterval(Initial(settings), settings, n);
  }

  // ---------------------------------------------------------------------------------------
  // Settings inputs

  datatype SettingField = WorkMinutes | ShortBreakMinutes | LongBreakMinutes | SessionsPerLongBreak

  /** `parseInt(text) || fallback`, given what `parseInt` produced (`None` for NaN): NaN and
      0 are falsy and give the fallback, anything else is kept. */
  function Fallback(parsed: Option<int>, fallback: int): (r: int)
    ensures parsed.Some? && parsed.value != 0 ==> r == parsed.value
    ensures parsed.None? || parsed.value == 0 ==> r == fallback
  {
    if parsed.Some? && parsed.value != 0 then parsed.value else fallback
  }

  /** One settings input's `onChange`: that field takes the parsed value or its default. */
  function ApplyInput(s: Settings, field: SettingField, parsed: Option<int>): (r: Settings)
    ensures field == WorkMinutes ==> r == s.(workDuration := Fallback(parsed, 25))
    ensures field == ShortBreakMinutes ==> r == s.(shortBreak := Fallback(parsed, 5))
    ensures field == LongBreakMinutes ==> r == s.(longBreak := Fallback(parsed, 15))
    ensures field == SessionsPerLongBreak ==> r == s.(longBreakInterval := Fallback(parsed, 4))
    ensures NoZeroSetting(s) ==> NoZeroSetting(r)
  {
    match field
    case WorkMinutes => s.(workDuration := Fallback(parsed, 25))
    case ShortBreakMinutes => s.(shortBreak := Fallback(parsed, 5))
    case LongBreakMinutes => s.(longBreak := Fallback(parsed, 15))
    case SessionsPerLongBreak => s.(longBreakInterval := Fallback(parsed, 4))
  }

  predicate NoZeroSetting(s: Settings) {
    s.workDuration != 0 && s.shortBreak != 0 && s.longBreak != 0 && s.longBreakInterval != 0
  }

  /** The fallbacks keep every setting non-zero, whatever is typed: no mode ever gets a
      zero-length countdown and the cycle division is always defined. */
  lemma {:induction false} InputsKeepSettingsNonZero(s: Settings, inputs: seq<(SettingField, Option<int>)>)
    requires NoZeroSetting(s)
    ensures NoZeroSetting(ApplyInputs(s, inputs))
    decreases |inputs|
  {
    if inputs != [] {
      InputsKeepSettingsNonZero(ApplyInput(s, inputs[0].0, inputs[0].1), inputs[1..]);
    }
  }

  function ApplyInputs(s: Settings, inputs: seq<(SettingField, Option<int>)>): Settings
    decreases |inputs|
  {
    if inputs == [] then s else ApplyInputs(ApplyInput(s, inputs[0].0, inputs[0].1), inputs[1..])
  }

  // ---------------------------------------------------------------------------------------
  // Display

  /** `formatTime`: `mm:ss` with each part rendered by `toString` and left-padded with zeros
      to two places. `Math.floor(seconds / 60)` is Dafny's division by the positive 60; the
      seconds part uses JavaScript's truncating remainder. */
  function FormatTime(seconds: int): (r: string)
    ensures |r| >= 5
  {
    PadStart2(IntToString(seconds / 60)) + ":" + PadStart2(IntToString(Rem(seconds, 60)))
  }

  /** Below 100 minutes the display is exactly `MM:SS`, and reading the two digit groups back
      gives the minutes and seconds, so `MM * 60 + SS` recovers the seconds left. */
  lemma FormatTimeRoundTrip(seconds: int)
    requires 0 <= seconds < 6000
    ensures var r := FormatTime(seconds);
      && |r| == 5 && r[2] == ':'
      && AllDigits(r[..2]) && AllDigits(r[3..])
      && ParseDigits(r[..2]) == seconds / 60
      && ParseDigits(r[3..]) == seconds % 60
      && ParseDigits(r[..2]) * 60 + ParseDigits(r[3..]) == seconds
  {
    var mins, secs := seconds / 60, seconds % 60;
    var m, s := PadStart2(NatToString(mins)), PadStart2(NatToString(secs));
    assert |NatToString(mins)| <= 2 && |NatToString(secs)| <= 2;
    ParsePadded(mins);
    ParsePadded(secs);
    var r := FormatTime(seconds);
    assert r == m + ":" + s;
    assert r[..2] == m && r[3..] == s;
  }

  /** Distinct times in range never share a display. */
  lemma FormatTimeInjective(a: int, b: int)
    requires 0 <= a < 6000 && 0 <= b < 6000 && a != b
    ensures FormatTime(a) != FormatTime(b)
  {
    FormatTimeRoundTrip(a);
    FormatTimeRoundTrip(b);
  }

  // ---------------------------------------------------------------------------------------
  // Completion notices

  datatype Notice = Notice(title: string, body: string, icon: string)

  function ModeTitle(mode: Mode): string {
    match mode
    case Work => "Focus Time"
    case ShortBreak => "Short Break"
    case LongBreak => "Long Break"
  }

  /** The notification shown when a countdown of `mode` completes and permission is granted:
      the work notice suggests a break, a break notice suggests focusing again. */
  function CompletionNotice(mode: Mode): (n: Notice)
    ensures n.title == ModeTitle(mode) + " Complete!"
    ensures n.body == (if mode == Work then "Time for a break!" else "Ready to focus again?")
    ensures n.icon == "/pwa-192x192.png"
  {
    Notice(ModeTitle(mode) + " Complete!",
      if mode == Work then "Time for a break!" else "Ready to focus again?",
      "/pwa-192x192.png")
  }

  /** The three modes announce themselves with three different titles. */
  lemma NoticeTitlesDistinct(m1: Mode, m2: Mode)
    requires m1 != m2
    ensures CompletionNotice(m1).title != CompletionNotice(m2).title
  {
    assert ModeTitle(m1) != ModeTitle(m2);
    assert (ModeTitle(m1) + " Complete!")[..|ModeTitle(m1)|] == ModeTitle(m1);
    assert (ModeTitle(m2) + " Complete!")[..|ModeTitle(m2)|] == ModeTitle(m2);
    if |ModeTitle(m1)| == |ModeTitle(m2)| {
      assert ModeTitle(m1)[0] != ModeTitle(m2)[0];
      assert CompletionNotice(m1).title[0] != CompletionNotice(m2).title[0];
    }
  }

  // ---------------------------------------------------------------------------------------
  // The component's state

  class Timer {
    var settings: Settings
    var mode: Mode
    var status: Status
    var timeLeft: int
    var completedSessions: nat
    var notices: seq<Notice>

    function State(): TimerState
      reads this
    {
      TimerState(mode, status, timeLeft, completedSessions)
    }

    constructor ()
      ensures settings == DefaultSettings && State() == Initial(DefaultSettings) && notices == []
    {
      settings := DefaultSettings;
      mode := Work;
      status := Idle;
      timeLeft := DefaultSettings.workDuration * 60;
      completedSessions := 0;
      notices := [];
    }

    /** The interval callback `setTimeLeft(prev => prev - 1)`, scheduled only while running
        with time left. */
    method OnTick()
      modifies this
      ensures State() == Tick(old(State()))
      ensures settings == old(settings) && notices == old(notices)
    {
      if status == Running && timeLeft > 0 {
        timeLeft := timeLeft - 1;
      }
    }

    /** The completion effect: `handleTimerComplete` when a running countdown hit zero.
        `granted` is whether the Notification API exists with permission 'granted';
        `noticeThrows` is whether the `Notification` constructor throws. Nothing catches that
        throw, so the handler then stops after going idle: no notice, no mode switch, no count. */
    method OnCompletionCheck(granted: bool, noticeThrows: bool) returns (threw: bool)
      modifies this
      ensures threw <==> CompletionDue(old(State())) && granted && noticeThrows
      ensures threw ==> State() == old(State()).(status := Idle) && notices == old(notices)
      ensures CompletionDue(old(State())) && !threw ==>
        && State() == Complete(old(State()), settings)
        && notices == old(notices) + (if granted then [CompletionNotice(old(mode))] else [])
      ensures !CompletionDue(old(State())) ==> State() == old(State()) && notices == old(notices)
      ensures settings == old(settings)
    {
      threw := false;
      if timeLeft == 0 && status == Running {
        status := Idle;
        if granted {
          if noticeThrows {
            return true;
          }
          notices := notices + [CompletionNotice(mode)];
        }
        if mode == Work {
          var next := BreakAfter(completedSessions + 1, settings.longBreakInterval);
          completedSessions := completedSessions + 1;
          mode := next;
          timeLeft := if next == LongBreak then settings.longBreak * 60 else settings.shortBreak * 60;
        } else {
          mode := Work;
          timeLeft := settings.workDuration * 60;
        }
      }
    }

    method HandleStart()
      modifies this`status
      ensures State() == Start(old(State()))
    {
      status := Running;
    }

    method HandlePause()
      modifies this`status
      ensures State() == Pause(old(State()))
    {
      status := Paused;
    }

    method HandleStop()
      modifies this`status, this`timeLeft
      ensures State() == Stop(old(State()), settings)
    {
      status := Idle;
      timeLeft := Duration(mode, settings);
    }

    method HandleModeChange(m: Mode)
      modifies this`mode, this`status, this`timeLeft
      ensures State() == ChangeMode(old(State()), m, settings)
    {
      mode := m;
      status := Idle;
      timeLeft := if m == Work then settings.workDuration * 60
        else if m == ShortBreak then settings.shortBreak * 60
        else settings.longBreak * 60;
    }

    /** A settings input's `onChange`; the running countdown is not rescaled. */
    method EditSetting(field: SettingField, parsed: Option<int>)
      modifies this`settings
      ensures settings == ApplyInput(old(settings), field, parsed)
    {
      settings := ApplyInput(settings, field, parsed);
    }
  }
}
