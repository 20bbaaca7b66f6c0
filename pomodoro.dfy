/**
 * The Pomodoro timer window: a three-mode countdown driven by one-second ticks, with start,
 * pause, reset and mode switch, and a completion step that counts finished pomodoros and picks
 * the next mode by the every-fourth-cycle long-break rule.
 *
 * The transitions are pure functions on `TimerState`; the class `PomodoroTimer` performs them
 * in place, field by field, the way the component's handlers do. Sounds, browser notifications
 * and the counter update are not performed here but returned as `Effect`s.
 */
module PomodoroWindow {
  import opened Types
  import opened Text
  import opened Wrappers

  datatype Mode = Pomodoro | ShortBreak | LongBreak

  /** The minute setting that belongs to a mode. */
  function Minutes(settings: Settings, mode: Mode): nat {
    match mode
    case Pomodoro => settings.pomodoro
    case ShortBreak => settings.shortBreak
    case LongBreak => settings.longBreak
  }

  /** The `timerDurations` table: a mode's full countdown, in seconds, under the given settings. */
  function Duration(settings: Settings, mode: Mode): nat {
    Minutes(settings, mode) * 60
  }

  /** The browser's notification permission at the time the timer completes. */
  datatype Permission = Granted | Denied | Undecided

  /** What completion asks of the outside world. */
  datatype Effect =
    | PlaySound(url: string)
    | BrowserNotification(title: string, body: string)
    | RequestPermission
    | UpdateCount(count: nat)

  /**
   * The component's state: the mode, whether the timer counts as running, whether the
   * one-second interval is scheduled, the seconds left, and the in-app toast.
   */
  datatype TimerState = TimerState(
    mode: Mode,
    running: bool,
    ticking: bool,
    timeLeft: nat,
    toastVisible: bool,
    message: string)

  /** The interval is only ever scheduled while the timer counts as running. */
  predicate Valid(st: TimerState) {
    st.ticking ==> st.running
  }

  const DigitalBeepUrl := "https://assets.mixkit.co/sfx/preview/mixkit-alarm-digital-clock-beep-989.mp3"
  const BellUrl := "https://assets.mixkit.co/sfx/preview/mixkit-bell-notification-933.mp3"
  const AlertUrl := "https://assets.mixkit.co/sfx/preview/mixkit-software-interface-alert-248.mp3"

  const LongBreakMessage := "Great job! Time for a long break."
  const ShortBreakMessage := "Pomodoro completed! Take a short break."
  const BreakOverMessage := "Break is over. Time to focus!"
  const NotificationTitle := "Lowkey Lofi Timer"

  /** The sound chosen in `playTimerEndSound`: one URL per theme, the alert for any other theme. */
  function SoundUrl(theme: string): (url: string)
    ensures url == DigitalBeepUrl || url == BellUrl || url == AlertUrl
    ensures url == DigitalBeepUrl <==> theme == "digital"
    ensures url == BellUrl <==> theme == "nature"
  {
    if theme == "digital" then DigitalBeepUrl
    else if theme == "nature" then BellUrl
    else AlertUrl
  }

  /** The body of the browser notification for a countdown that ended in `mode`. */
  function NotificationBody(mode: Mode): string {
    if mode == Pomodoro then "Time for a break!" else "Break is over, back to work!"
  }

  /** The mode that follows a countdown in `mode` when `count` pomodoros were done before it. */
  function NextMode(mode: Mode, count: nat): Mode {
    if mode != Pomodoro then Pomodoro
    else if (count + 1) % 4 == 0 then LongBreak
    else ShortBreak
  }

  /** The toast message that completion leaves shown. */
  function CompletionMessage(mode: Mode, count: nat): string {
    if mode != Pomodoro then BreakOverMessage
    else if (count + 1) % 4 == 0 then LongBreakMessage
    else ShortBreakMessage
  }

  /** The effects `timerComplete` emits, in order: sound, notification, counter update. */
  function CompletionEffects(mode: Mode, settings: Settings, count: nat, permission: Permission): seq<Effect> {
    (if settings.soundEnabled then [PlaySound(SoundUrl(settings.soundTheme))] else [])
    + (match permission
       case Granted => [BrowserNotification(NotificationTitle, NotificationBody(mode))]
       case Undecided => [RequestPermission]
       case Denied => [])
    + (if mode == Pomodoro then [UpdateCount(count + 1)] else [])
  }

  /** The counter values requested by a list of effects. */
  function CountUpdates(effects: seq<Effect>): seq<nat> {
    if effects == [] then []
    else (if effects[0].UpdateCount? then [effects[0].count] else []) + CountUpdates(effects[1..])
  }

  lemma {:induction false} CountUpdatesAppend(a: seq<Effect>, b: seq<Effect>)
    ensures CountUpdates(a + b) == CountUpdates(a) + CountUpdates(b)
  {
    if a == [] {
      assert a + b == b;
    } else {
      assert (a + b)[1..] == a[1..] + b;
      CountUpdatesAppend(a[1..], b);
    }
  }

  // ---------------------------------------------------------------------------------------
  // Transitions

  /** The state the component mounts with. */
  function Initial(settings: Settings): TimerState {
    TimerState(Pomodoro, false, false, Duration(settings, Pomodoro), false, "")
  }

  /** `startTimer`. */
  function Start(st: TimerState): TimerState {
    if st.running then st else st.(running := true, ticking := true)
  }

  /** `pauseTimer`. */
  function Pause(st: TimerState): TimerState {
    if st.running then st.(running := false, ticking := false) else st
  }

  /** `toggleTimer`. */
  function Toggle(st: TimerState): TimerState {
    if st.running then Pause(st) else Start(st)
  }

  /** `resetTimer`. */
  function Reset(st: TimerState, settings: Settings): TimerState {
    Pause(st).(timeLeft := Duration(settings, st.mode))
  }

  /** `changeTimerMode`. */
  function ChangeMode(st: TimerState, settings: Settings, target: Mode): TimerState {
    Pause(st).(mode := target, timeLeft := Duration(settings, target))
  }

  /**
   * The effect that re-runs when the settings change: its cleanup clears the interval, then it
   * reloads the current mode's duration. It does not touch the running flag.
   */
  function SettingsChanged(st: TimerState, settings: Settings): TimerState {
    st.(ticking := false, timeLeft := Duration(settings, st.mode))
  }

  /** Closing the toast. */
  function DismissToast(st: TimerState): TimerState {
    st.(toastVisible := false)
  }

  /** `timerComplete`, reached after the interval has been cleared. */
  function Complete(st: TimerState, settings: Settings, count: nat, permission: Permission): (TimerState, seq<Effect>) {
    var next := NextMode(st.mode, count);
    (TimerState(next, false, false, Duration(settings, next), true, CompletionMessage(st.mode, count)),
     CompletionEffects(st.mode, settings, count, permission))
  }

  /** One firing of the one-second interval; nothing happens when no interval is scheduled. */
  function Ticked(st: TimerState, settings: Settings, count: nat, permission: Permission): (TimerState, seq<Effect>) {
    if !st.ticking then (st, [])
    else if st.timeLeft > 1 then (st.(timeLeft := st.timeLeft - 1), [])
    else Complete(st.(ticking := false, timeLeft := 0), settings, count, permission)
  }

  /** `n` successive ticks, with the effects of all of them in order. */
  function RunTicks(st: TimerState, n: nat, settings: Settings, count: nat, permission: Permission): (TimerState, seq<Effect>)
    decreases n
  {
    if n == 0 then (st, [])
    else
      var step := Ticked(st, settings, count, permission);
      var rest := RunTicks(step.0, n - 1, settings, count, permission);
      (rest.0, step.1 + rest.1)
  }

  // ---------------------------------------------------------------------------------------
  // Properties of the transitions

  /** Every transition keeps the interval scheduled only while the timer counts as running. */
  lemma TransitionsKeepValid(st: TimerState, settings: Settings, m: Mode, count: nat, permission: Permission)
    requires Valid(st)
    ensures Valid(Start(st)) && Valid(Pause(st)) && Valid(Toggle(st)) && Valid(Reset(st, settings))
    ensures Valid(ChangeMode(st, settings, m)) && Valid(SettingsChanged(st, settings)) && Valid(DismissToast(st))
    ensures Valid(Ticked(st, settings, count, permission).0)
  {
  }

  /** Starting and then pausing a stopped timer gives back exactly the state it was in. */
  lemma StartThenPause(st: TimerState)
    requires Valid(st) && !st.running
    ensures Pause(Start(st)) == st
  {
  }

  /** Pausing stops the countdown and keeps the mode and the seconds left. */
  lemma PauseKeepsTime(st: TimerState, settings: Settings, count: nat, permission: Permission)
    requires Valid(st)
    ensures !Pause(st).running && !Pause(st).ticking
    ensures Pause(st).mode == st.mode && Pause(st).timeLeft == st.timeLeft
    ensures Ticked(Pause(st), settings, count, permission) == (Pause(st), [])
  {
  }

  /** Above one second, a tick takes exactly one second off and changes nothing else. */
  lemma TickCountsDown(st: TimerState, settings: Settings, count: nat, permission: Permission)
    requires st.ticking && st.timeLeft > 1
    ensures Ticked(st, settings, count, permission) == (st.(timeLeft := st.timeLeft - 1), [])
  {
  }

  /**
   * At one second or less, a tick ends the countdown: the timer stops, the next mode is loaded
   * at its full duration and the completion effects are emitted once.
   */
  lemma TickCompletes(st: TimerState, settings: Settings, count: nat, permission: Permission)
    requires st.ticking && st.timeLeft <= 1
    ensures var (next, effects) := Ticked(st, settings, count, permission);
      && !next.running && !next.ticking
      && next.mode == NextMode(st.mode, count)
      && next.timeLeft == Duration(settings, next.mode)
      && effects == CompletionEffects(st.mode, settings, count, permission)
  {
  }

  /**
   * Completing a pomodoro requests the counter one higher, and goes to a long break exactly when
   * that new count is a multiple of four, to a short break otherwise, with the matching message.
   */
  lemma CompletePomodoro(st: TimerState, settings: Settings, count: nat, permission: Permission)
    requires st.mode == Pomodoro
    ensures var (next, effects) := Complete(st, settings, count, permission);
      && CountUpdates(effects) == [count + 1]
      && (next.mode == LongBreak <==> (count + 1) % 4 == 0)
      && (next.mode == ShortBreak <==> (count + 1) % 4 != 0)
      && next.message == (if (count + 1) % 4 == 0 then LongBreakMessage else ShortBreakMessage)
      && !next.running && next.timeLeft == Duration(settings, next.mode)
  {
    var effects := Complete(st, settings, count, permission).1;
    var a := if settings.soundEnabled then [PlaySound(SoundUrl(settings.soundTheme))] else [];
    var b := match permission
       case Granted => [BrowserNotification(NotificationTitle, NotificationBody(Pomodoro))]
       case Undecided => [RequestPermission]
       case Denied => [];
    CountUpdatesAppend(a, b);
    CountUpdatesAppend(a + b, [UpdateCount(count + 1)]);
  }

  /** Completing a break requests no counter change and goes back to a pomodoro. */
  lemma CompleteBreak(st: TimerState, settings: Settings, count: nat, permission: Permission)
    requires st.mode != Pomodoro
    ensures var (next, effects) := Complete(st, settings, count, permission);
      && CountUpdates(effects) == []
      && next.mode == Pomodoro && next.message == BreakOverMessage
      && !next.running && next.timeLeft == Duration(settings, Pomodoro)
  {
    var a := if settings.soundEnabled then [PlaySound(SoundUrl(settings.soundTheme))] else [];
    var b := match permission
       case Granted => [BrowserNotification(NotificationTitle, NotificationBody(st.mode))]
       case Undecided => [RequestPermission]
       case Denied => [];
    CountUpdatesAppend(a, b);
    assert CompletionEffects(st.mode, settings, count, permission) == a + b;
  }

  /** A sound is requested exactly when sound is enabled, and it is the theme's sound. */
  lemma CompletionSound(mode: Mode, settings: Settings, count: nat, permission: Permission, url: string)
    ensures PlaySound(url) in CompletionEffects(mode, settings, count, permission)
      <==> settings.soundEnabled && url == SoundUrl(settings.soundTheme)
  {
    var effects := CompletionEffects(mode, settings, count, permission);
    if settings.soundEnabled {
      assert effects[0] == PlaySound(SoundUrl(settings.soundTheme));
    }
  }

  /** Resetting twice is resetting once. */
  lemma ResetIdempotent(st: TimerState, settings: Settings)
    ensures Reset(Reset(st, settings), settings) == Reset(st, settings)
  {
  }

  /**
   * Both a mode switch and a reset leave the timer stopped with the full duration of the target
   * (or current) mode; a reset right after a mode switch changes nothing.
   */
  lemma ChangeModeAndReset(st: TimerState, settings: Settings, target: Mode)
    requires Valid(st)
    ensures var c := ChangeMode(st, settings, target);
      && !c.running && !c.ticking && c.mode == target && c.timeLeft == Duration(settings, target)
      && Reset(c, settings) == c
    ensures var r := Reset(st, settings);
      && !r.running && !r.ticking && r.mode == st.mode && r.timeLeft == Duration(settings, st.mode)
  {
  }

  /**
   * A settings change while running clears the interval but leaves the timer counting as
   * running: ticks then do nothing and start is ignored, until the user pauses.
   */
  lemma SettingsChangeStallsRun(st: TimerState, settings: Settings, count: nat, permission: Permission)
    requires st.running
    ensures var s := SettingsChanged(st, settings);
      && Ticked(s, settings, count, permission) == (s, [])
      && Start(s) == s
      && !Toggle(s).running
  {
  }

  /** Fewer ticks than the seconds left only count down, with no effect. */
  lemma {:induction false} CountdownTicks(st: TimerState, k: nat, settings: Settings, count: nat, permission: Permission)
    requires st.ticking && k < st.timeLeft
    ensures RunTicks(st, k, settings, count, permission) == (st.(timeLeft := st.timeLeft - k), [])
    decreases k
  {
    if k > 0 {
      var st1 := st.(timeLeft := st.timeLeft - 1);
      assert Ticked(st, settings, count, permission) == (st1, []);
      CountdownTicks(st1, k - 1, settings, count, permission);
      var rest := RunTicks(st1, k - 1, settings, count, permission);
      assert rest.0 == st.(timeLeft := st.timeLeft - k);
      assert [] + rest.1 == [];
    }
  }

  /** Once no interval is scheduled, any number of ticks changes nothing. */
  lemma {:induction false} IdleTicks(st: TimerState, n: nat, settings: Settings, count: nat, permission: Permission)
    requires !st.ticking
    ensures RunTicks(st, n, settings, count, permission) == (st, [])
    decreases n
  {
    if n > 0 {
      assert Ticked(st, settings, count, permission) == (st, []);
      IdleTicks(st, n - 1, settings, count, permission);
      var rest := RunTicks(st, n - 1, settings, count, permission);
      assert [] + rest.1 == [];
    }
  }

  /** Ticks compose: `a + b` ticks are `a` ticks followed by `b` ticks. */
  lemma {:induction false} RunTicksSplit(st: TimerState, a: nat, b: nat, settings: Settings, count: nat, permission: Permission)
    ensures var first := RunTicks(st, a, settings, count, permission);
      var second := RunTicks(first.0, b, settings, count, permission);
      RunTicks(st, a + b, settings, count, permission) == (second.0, first.1 + second.1)
    decreases a
  {
    if a == 0 {
      assert [] + RunTicks(st, b, settings, count, permission).1 == RunTicks(st, b, settings, count, permission).1;
    } else {
      var step := Ticked(st, settings, count, permission);
      RunTicksSplit(step.0, a - 1, b, settings, count, permission);
      var mid := RunTicks(step.0, a - 1, settings, count, permission);
      var fin := RunTicks(mid.0, b, settings, count, permission);
      assert RunTicks(st, a + b, settings, count, permission)
        == (fin.0, step.1 + (mid.1 + fin.1));
      assert RunTicks(st, a, settings, count, permission) == (mid.0, step.1 + mid.1);
      assert step.1 + (mid.1 + fin.1) == (step.1 + mid.1) + fin.1;
    }
  }

  /**
   * Ticking a running countdown at least as many times as it has seconds left completes it
   * exactly once: the result is that of a single completion, however many ticks follow.
   */
  lemma FullCountdown(st: TimerState, n: nat, settings: Settings, count: nat, permission: Permission)
    requires st.ticking && 1 <= st.timeLeft <= n
    ensures RunTicks(st, n, settings, count, permission)
      == Complete(st.(ticking := false, timeLeft := 0), settings, count, permission)
  {
    var k := st.timeLeft - 1;
    var last := st.(timeLeft := 1);
    CountdownTicks(st, k, settings, count, permission);
    RunTicksSplit(st, k, n - k, settings, count, permission);
    var done := Complete(st.(ticking := false, timeLeft := 0), settings, count, permission);
    assert last.(ticking := false, timeLeft := 0) == st.(ticking := false, timeLeft := 0);
    assert Ticked(last, settings, count, permission) == done;
    IdleTicks(done.0, n - k - 1, settings, count, permission);
    assert RunTicks(last, n - k, settings, count, permission) == (done.0, done.1 + []);
    assert done.1 + [] == done.1;
    assert [] + done.1 == done.1;
  }

  /**
   * A fresh pomodoro, started and ticked `minutes * 60` times, ends by requesting the counter
   * one higher exactly once and stands stopped in the break that follows.
   */
  lemma FreshPomodoroCompletesOnce(settings: Settings, count: nat, permission: Permission)
    requires settings.pomodoro >= 1
    ensures var (next, effects) := RunTicks(Start(Initial(settings)), settings.pomodoro * 60, settings, count, permission);
      && CountUpdates(effects) == [count + 1]
      && next.mode == NextMode(Pomodoro, count) && !next.running
      && next.timeLeft == Duration(settings, next.mode)
  {
    var st := Start(Initial(settings));
    FullCountdown(st, settings.pomodoro * 60, settings, count, permission);
    CompletePomodoro(st.(ticking := false, timeLeft := 0), settings, count, permission);
  }

  // ---------------------------------------------------------------------------------------
  // Display

  /** One field of the display: the number in decimal, zero-padded to at least two digits. */
  function Field(n: nat): string {
    PadStart(Decimal(n), 2, '0')
  }

  /** `formatTime`: whole minutes and the remaining seconds, each zero-padded to two digits. */
  function FormatTime(seconds: nat): string {
    Field(seconds / 60) + ":" + Field(seconds % 60)
  }

  /** Reads an `MM:SS` display back into seconds; the seconds field must be below 60. */
  function ParseClock(t: string): Option<nat> {
    if |t| >= 5 && t[|t| - 3] == ':' && AllDigits(t[..|t| - 3]) && AllDigits(t[|t| - 2..])
       && DecimalValue(t[|t| - 2..]) < 60
    then Some(DecimalValue(t[..|t| - 3]) * 60 + DecimalValue(t[|t| - 2..]))
    else None
  }

  /** A field has at least two digits, exactly two below 100, and reads back as its number. */
  lemma PaddedValue(n: nat)
    ensures |Field(n)| >= 2 && (|Field(n)| == 2 <==> n < 100)
    ensures AllDigits(Field(n)) && DecimalValue(Field(n)) == n
  {
    var d := Decimal(n);
    var zeros := Field(n)[..|Field(n)| - |d|];
    assert Field(n) == zeros + d;
    LeadingZerosValue(zeros, d);
    DecimalRoundTrip(n);
    DecimalAtMostTwoDigits(n);
  }

  /** The two fields of `mm + ":" + ss` when the seconds field has two characters. */
  lemma ClockShape(mm: string, ss: string)
    requires |mm| >= 2 && |ss| == 2
    ensures var t := mm + ":" + ss;
      |t| >= 5 && t[|t| - 3] == ':' && t[..|t| - 3] == mm && t[|t| - 2..] == ss
  {
    var t := mm + ":" + ss;
    assert t[..|t| - 3] == mm;
    assert t[|t| - 2..] == ss;
  }

  /**
   * The display's minutes field reads as `seconds / 60`, its seconds field as `seconds % 60`
   * in exactly two digits, separated by a colon.
   */
  lemma FormatTimeFields(seconds: nat)
    ensures var t := FormatTime(seconds);
      && |t| >= 5 && t[|t| - 3] == ':'
      && AllDigits(t[..|t| - 3]) && DecimalValue(t[..|t| - 3]) == seconds / 60
      && AllDigits(t[|t| - 2..]) && DecimalValue(t[|t| - 2..]) == seconds % 60
  {
    var m := seconds / 60;
    var sec := seconds % 60;
    PaddedValue(m);
    PaddedValue(sec);
    ClockShape(Field(m), Field(sec));
  }

  /** Reading the display back gives the seconds it was made from. */
  lemma FormatTimeRoundTrip(seconds: nat)
    ensures ParseClock(FormatTime(seconds)) == Some(seconds)
  {
    FormatTimeFields(seconds);
  }

  /** The display is five characters long exactly when fewer than 100 minutes remain. */
  lemma FormatTimeLength(seconds: nat)
    ensures |FormatTime(seconds)| == 5 <==> seconds < 6000
  {
    PaddedValue(seconds / 60);
    PaddedValue(seconds % 60);
  }

  /** Whether progress dot `i` (1 to 3) is lit for a given pomodoro count. */
  predicate DotLit(count: nat, i: nat) {
    count % 4 >= i
  }

  function LitDots(count: nat): nat {
    (if DotLit(count, 1) then 1 else 0) + (if DotLit(count, 2) then 1 else 0) + (if DotLit(count, 3) then 1 else 0)
  }

  /** The number of lit dots is the count modulo four; a completion that earns a long break clears them. */
  lemma LitDotsCount(count: nat)
    ensures LitDots(count) == count % 4
    ensures NextMode(Pomodoro, count) == LongBreak ==> LitDots(count + 1) == 0
  {
  }

  // ---------------------------------------------------------------------------------------
  // The component

  class PomodoroTimer {
    /** The `settings` prop. */
    var settings: Settings
    var mode: Mode
    var running: bool
    /** Whether `timerIntervalRef` holds a live interval. */
    var ticking: bool
    var timeLeft: nat
    var toastVisible: bool
    var message: string

    function State(): TimerState
      reads this
    {
      TimerState(mode, running, ticking, timeLeft, toastVisible, message)
    }

    predicate IsValid()
      reads this
    {
      Valid(State())
    }

    constructor (settings: Settings)
      ensures this.settings == settings && State() == Initial(settings) && IsValid()
      ensures mode == Pomodoro && !running && timeLeft == settings.pomodoro * 60
    {
      this.settings := settings;
      mode := Pomodoro;
      running := false;
      ticking := false;
      timeLeft := settings.pomodoro * 60;
      toastVisible := false;
      message := "";
    }

    method StartTimer()
      requires IsValid()
      modifies this
      ensures IsValid() && settings == old(settings)
      ensures State() == Start(old(State()))
      ensures old(running) ==> State() == old(State())
    {
      if !running {
        running := true;
        ticking := true;
      }
    }

    method PauseTimer()
      requires IsValid()
      modifies this
      ensures IsValid() && settings == old(settings)
      ensures State() == Pause(old(State()))
      ensures !running && !ticking && timeLeft == old(timeLeft) && mode == old(mode)
      ensures !old(running) ==> State() == old(State())
    {
      if running {
        running := false;
        ticking := false;
      }
    }

    method ToggleTimer()
      requires IsValid()
      modifies this
      ensures IsValid() && settings == old(settings)
      ensures State() == Toggle(old(State()))
    {
      if running {
        PauseTimer();
      } else {
        StartTimer();
      }
    }

    method ResetTimer()
      requires IsValid()
      modifies this
      ensures IsValid() && settings == old(settings)
      ensures State() == Reset(old(State()), settings)
      ensures !running && mode == old(mode) && timeLeft == Duration(settings, mode)
    {
      PauseTimer();
      timeLeft := Duration(settings, mode);
    }

    method ChangeTimerMode(target: Mode)
      requires IsValid()
      modifies this
      ensures IsValid() && settings == old(settings)
      ensures State() == ChangeMode(old(State()), settings, target)
      ensures !running && mode == target && timeLeft == Duration(settings, target)
    {
      PauseTimer();
      mode := target;
      timeLeft := Duration(settings, target);
    }

    /** `timerComplete`; `count` is the `pomodoroCount` prop. */
    method TimerComplete(count: nat, permission: Permission) returns (effects: seq<Effect>)
      requires IsValid() && !ticking
      modifies this
      ensures IsValid() && settings == old(settings)
      ensures (State(), effects) == Complete(old(State()), settings, count, permission)
    {
      var completed := mode;
      running := false;
      effects := [];
      if settings.soundEnabled {
        effects := effects + [PlaySound(SoundUrl(settings.soundTheme))];
      }
      // displayNotification
      message := NotificationBody(mode);
      toastVisible := true;
      if permission == Granted {
        effects := effects + [BrowserNotification(NotificationTitle, NotificationBody(mode))];
      } else if permission == Undecided {
        effects := effects + [RequestPermission];
      }
      if mode == Pomodoro {
        var newCount := count + 1;
        effects := effects + [UpdateCount(newCount)];
        if newCount % 4 == 0 {
          message := LongBreakMessage;
          ChangeTimerMode(LongBreak);
        } else {
          message := ShortBreakMessage;
          ChangeTimerMode(ShortBreak);
        }
      } else {
        message := BreakOverMessage;
        ChangeTimerMode(Pomodoro);
      }
      assert effects == CompletionEffects(completed, settings, count, permission);
    }

    /** One firing of the interval callback. */
    method Tick(count: nat, permission: Permission) returns (effects: seq<Effect>)
      requires IsValid()
      modifies this
      ensures IsValid() && settings == old(settings)
      ensures (State(), effects) == Ticked(old(State()), settings, count, permission)
    {
      if !ticking {
        effects := [];
      } else if timeLeft <= 1 {
        ticking := false;
        timeLeft := 0;
        effects := TimerComplete(count, permission);
      } else {
        timeLeft := timeLeft - 1;
        effects := [];
      }
    }

    /** A new `settings` prop: the mode-and-settings effect runs its cleanup and reloads the duration. */
    method ChangeSettings(newSettings: Settings)
      requires IsValid()
      modifies this
      ensures IsValid() && settings == newSettings
      ensures State() == SettingsChanged(old(State()), newSettings)
    {
      settings := newSettings;
      ticking := false;
      timeLeft := Duration(newSettings, mode);
    }

    method CloseToast()
      requires IsValid()
      modifies this
      ensures IsValid() && settings == old(settings)
      ensures State() == DismissToast(old(State()))
    {
      toastVisible := false;
    }
  }
}
