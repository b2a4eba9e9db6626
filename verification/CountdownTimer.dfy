/**
  The countdown timer of the timer window: a duration chosen in whole minutes,
  the seconds left, whether it is counting down, and the repeating one-second
  timer that drives it. Every quantity the view keeps is a whole number of
  minutes or seconds, so the model counts them with natural numbers.
 */
module CountdownTimer {
  import opened Ticker
  import opened Format

  /** The bounds of the minute adjustment and the duration a new view starts with. */
  const MinMinutes: nat := 1
  const MaxMinutes: nat := 120
  const DefaultMinutes: nat := 25

  datatype TimerState = TimerState(
    chosenMinutes: nat,
    remaining: nat,     // seconds left
    running: bool,
    ticker: Ticker)

  /** The full duration in seconds, the upper end of the gauge. */
  function TotalTime(s: TimerState): nat {
    s.chosenMinutes * 60
  }

  /**
    What every reachable state satisfies: the minutes lie in the adjustable
    range, the gauge value lies in `0...TotalTime`, and exactly one one-second
    timer is scheduled while the countdown runs and none otherwise.
   */
  predicate Valid(s: TimerState) {
    && MinMinutes <= s.chosenMinutes <= MaxMinutes
    && s.remaining <= TotalTime(s)
    && s.ticker == (if s.running then Ticker(true, 0) else Idle)
  }

  /** The state of a freshly built view: 25 minutes, full, stopped. */
  function Initial(): (s: TimerState)
    ensures Valid(s)
    ensures s.remaining == TotalTime(s) == 1500
    ensures !s.running && Live(s.ticker) == 0
  {
    TimerState(DefaultMinutes, DefaultMinutes * 60, false, Idle)
  }

  /** The minus button: one minute less, and the countdown refilled, but only when stopped and above one minute. */
  function MinusMinute(s: TimerState): (r: TimerState)
    ensures r != s <==> !s.running && s.chosenMinutes > MinMinutes
    ensures r != s ==>
      && r.chosenMinutes + 1 == s.chosenMinutes
      && r.remaining == TotalTime(r)
      && r.running == s.running && r.ticker == s.ticker
    ensures Valid(s) ==> Valid(r)
  {
    if !s.running && s.chosenMinutes > 1 then
      var minutes := s.chosenMinutes - 1;
      s.(chosenMinutes := minutes, remaining := minutes * 60)
    else
      s
  }

  /**
    The plus button: one minute more, and the countdown refilled, when
    stopped. The action itself has no upper bound; the button is disabled
    from 120 minutes on, which is the precondition here.
   */
  function PlusMinute(s: TimerState): (r: TimerState)
    requires s.chosenMinutes < MaxMinutes
    ensures r != s <==> !s.running
    ensures !s.running ==>
      && r.chosenMinutes == s.chosenMinutes + 1
      && r.remaining == TotalTime(r)
      && r.running == s.running && r.ticker == s.ticker
    ensures Valid(s) ==> Valid(r)
  {
    if !s.running then
      var minutes := s.chosenMinutes + 1;
      s.(chosenMinutes := minutes, remaining := minutes * 60)
    else
      s
  }

  /** `startTimer`: ignored while running; otherwise schedules one timer and runs from where it stands. */
  function Start(s: TimerState): (r: TimerState)
    ensures s.running ==> r == s
    ensures !s.running ==>
      && r.running
      && r.remaining == s.remaining && r.chosenMinutes == s.chosenMinutes
      && Live(r.ticker) == Live(s.ticker) + 1
    ensures Valid(s) ==> Valid(r)
  {
    if s.running then s else s.(running := true, ticker := Schedule(s.ticker))
  }

  /** `pauseTimer`: stops and cancels the timer, keeping the seconds left and the duration. */
  function Pause(s: TimerState): (r: TimerState)
    ensures !r.running && !r.ticker.held
    ensures r.remaining == s.remaining && r.chosenMinutes == s.chosenMinutes
    ensures Valid(s) ==> Valid(r) && Live(r.ticker) == 0
  {
    s.(running := false, ticker := Invalidate(s.ticker))
  }

  /** `resetTimer`: cancels the timer and refills the countdown to the full duration. */
  function Reset(s: TimerState): (r: TimerState)
    ensures !r.running && !r.ticker.held
    ensures r.chosenMinutes == s.chosenMinutes
    ensures r.remaining == TotalTime(r)
    ensures Valid(s) ==> Valid(r) && Live(r.ticker) == 0
  {
    s.(ticker := Invalidate(s.ticker), remaining := TotalTime(s), running := false)
  }

  lemma ResetIdempotent(s: TimerState)
    ensures Reset(Reset(s)) == Reset(s)
  {
  }

  /** What one firing of the one-second timer leaves, and whether it posted the "Timer Over!" notification. */
  datatype TickOutcome = TickOutcome(state: TimerState, notified: bool)

  /**
    One firing of the repeating timer. With seconds left it takes one away;
    at zero it cancels the timer, stops, posts the notification and resets.
    With no timer scheduled nothing fires.
   */
  function Tick(s: TimerState): (o: TickOutcome)
    ensures Live(s.ticker) == 0 ==> o == TickOutcome(s, false)
    ensures Live(s.ticker) > 0 && s.remaining > 0 ==>
      && !o.notified
      && o.state.remaining + 1 == s.remaining
      && o.state.running == s.running && o.state.chosenMinutes == s.chosenMinutes
      && o.state.ticker == s.ticker
    ensures Live(s.ticker) > 0 && s.remaining == 0 ==>
      && o.notified
      && !o.state.running && !o.state.ticker.held
      && o.state.chosenMinutes == s.chosenMinutes
      && o.state.remaining == TotalTime(s)
    ensures Valid(s) ==> Valid(o.state)
  {
    if Live(s.ticker) == 0 then
      TickOutcome(s, false)
    else if s.remaining > 0 then
      TickOutcome(s.(remaining := s.remaining - 1), false)
    else
      var stopped := s.(ticker := Invalidate(s.ticker), running := false);
      TickOutcome(Reset(stopped), true)
  }

  /** The seconds left as the view prints them, `MM:SS`, through `%02d:%02d`. */
  function TimeString(seconds: nat): (s: string)
    ensures |s| >= 5 && s[|s| - 3] == ':'
    ensures AllDigits(s[..|s| - 3]) && AllDigits(s[|s| - 2..])
    ensures ValueOf(s[|s| - 2..]) < 60
    ensures ValueOf(s[..|s| - 3]) * 60 + ValueOf(s[|s| - 2..]) == seconds
    ensures seconds < 100 * 60 <==> |s| == 5
    ensures |s| > 5 ==> s[0] != '0'
  {
    var m := PadTwo(seconds / 60);
    var r := PadTwo(seconds % 60);
    var s := m + ":" + r;
    assert s[..|s| - 3] == m && s[|s| - 2..] == r && s[0] == m[0];
    s
  }

  // ---------------------------------------------------------------------------
  // The view as a whole: every user action and every tick as one event.

  datatype Event = MinusTapped | PlusTapped | StartTapped | PauseTapped | ResetTapped | Ticked

  /**
    Whether the view lets the event through. The start button is shown only
    while stopped and the pause button only while running; plus is disabled
    from 120 minutes on; the reset button is disabled when stopped and full.
    Minus and ticks carry their own checks.
   */
  predicate Enabled(s: TimerState, e: Event) {
    match e
    case MinusTapped => true
    case PlusTapped => s.chosenMinutes < MaxMinutes && !s.running
    case StartTapped => !s.running
    case PauseTapped => s.running
    case ResetTapped => s.running || s.remaining != TotalTime(s)
    case Ticked => true
  }

  /** One event; pressing a disabled button changes nothing. */
  function Step(s: TimerState, e: Event): (o: TickOutcome)
    ensures !Enabled(s, e) ==> o == TickOutcome(s, false)
    ensures o.notified ==> e == Ticked && s.remaining == 0 && !o.state.running
    ensures Valid(s) ==> Valid(o.state)
  {
    if !Enabled(s, e) then TickOutcome(s, false)
    else
      match e
      case MinusTapped => TickOutcome(MinusMinute(s), false)
      case PlusTapped => TickOutcome(PlusMinute(s), false)
      case StartTapped => TickOutcome(Start(s), false)
      case PauseTapped => TickOutcome(Pause(s), false)
      case ResetTapped => TickOutcome(Reset(s), false)
      case Ticked => Tick(s)
  }

  /** The state after a sequence of events and how many notifications they posted. */
  datatype RunOutcome = RunOutcome(state: TimerState, notifications: nat)

  function Run(s: TimerState, es: seq<Event>): RunOutcome
    decreases |es|
  {
    if |es| == 0 then RunOutcome(s, 0)
    else
      var o := Step(s, es[0]);
      var rest := Run(o.state, es[1..]);
      RunOutcome(rest.state, rest.notifications + (if o.notified then 1 else 0))
  }

  /** No sequence of events leaves the invariant: the gauge stays in range and no timer leaks. */
  lemma {:induction false} RunPreservesValid(s: TimerState, es: seq<Event>)
    requires Valid(s)
    ensures Valid(Run(s, es).state)
    ensures Run(s, es).notifications <= |es|
    decreases |es|
  {
    if |es| > 0 {
      RunPreservesValid(Step(s, es[0]).state, es[1..]);
    }
  }

  /** `n` firings of the timer with nothing else happening. */
  function Countdown(s: TimerState, n: nat): RunOutcome
    decreases n
  {
    if n == 0 then RunOutcome(s, 0)
    else
      var o := Tick(s);
      var rest := Countdown(o.state, n - 1);
      RunOutcome(rest.state, rest.notifications + (if o.notified then 1 else 0))
  }

  /** While seconds are left, each tick takes exactly one away and posts nothing. */
  lemma {:induction false} CountdownToZero(s: TimerState, k: nat)
    requires Valid(s) && s.running
    requires k <= s.remaining
    ensures Countdown(s, k) == RunOutcome(s.(remaining := s.remaining - k), 0)
    decreases k
  {
    if k > 0 {
      CountdownToZero(Tick(s).state, k - 1);
    }
  }

  /**
    A running countdown with `r` seconds left shows zero after `r` ticks and
    completes on the tick after: exactly one notification, stopped, no timer
    left, and the countdown refilled to the full duration.
   */
  lemma {:induction false} CountdownCompletes(s: TimerState)
    requires Valid(s) && s.running
    ensures Countdown(s, s.remaining).state.remaining == 0
    ensures Countdown(s, s.remaining + 1) == RunOutcome(Reset(s), 1)
    ensures Live(Reset(s).ticker) == 0 && Reset(s).remaining == TotalTime(s)
    decreases s.remaining
  {
    CountdownToZero(s, s.remaining);
    if s.remaining > 0 {
      var next := Tick(s).state;
      CountdownCompletes(next);
      assert Reset(next) == Reset(s);
    }
  }

  /** The default 25 minutes, once started: zero after 1500 ticks, one notification and back to the start on tick 1501. */
  lemma DefaultRun()
    ensures Countdown(Start(Initial()), 1500).state.remaining == 0
    ensures Countdown(Start(Initial()), 1501) == RunOutcome(Initial(), 1)
  {
    CountdownCompletes(Start(Initial()));
  }
}
