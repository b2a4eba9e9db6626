/**
  The stopwatch of the stopwatch window: elapsed time accumulated by a timer
  that fires every tenth of a second, the minutes/seconds/tenths shown, and
  the recorded laps. Elapsed time is counted in whole tenths of a second,
  where the view adds 0.1 to a floating-point number of seconds.
 */
module Stopwatch {
  import opened Ticker
  import opened Format

  /** The three numbers the display shows. */
  datatype Components = Components(minutes: nat, seconds: nat, tenths: nat)

  /** One recorded lap: its number, the elapsed tenths when it was taken, and its text. */
  datatype LapRecord = LapRecord(number: nat, time: nat, formattedTime: string)

  datatype StopwatchState = StopwatchState(
    running: bool,
    elapsed: nat,       // tenths of a second
    ticker: Ticker,
    display: Components,
    laps: seq<LapRecord>)

  /** `updateTimeComponents`: whole minutes, seconds within the minute, tenths within the second. */
  function TimeComponents(elapsed: nat): (c: Components)
    ensures c.seconds < 60 && c.tenths < 10
    ensures c.minutes * 600 + c.seconds * 10 + c.tenths == elapsed
  {
    Components(elapsed / 600, (elapsed / 10) % 60, elapsed % 10)
  }

  /** The components are the only way of writing `elapsed` with seconds below 60 and tenths below 10. */
  lemma ComponentsUnique(elapsed: nat, c: Components)
    requires c.seconds < 60 && c.tenths < 10
    requires c.minutes * 600 + c.seconds * 10 + c.tenths == elapsed
    ensures c == TimeComponents(elapsed)
  {
  }

  /** `%02d:%02d.%01d`, the text of the display and of every lap. */
  function DisplayText(c: Components): (s: string)
    ensures |s| >= 7
    ensures c.seconds < 100 && c.tenths < 10 ==>
      && s[|s| - 5] == ':' && s[|s| - 2] == '.'
      && AllDigits(s[..|s| - 5]) && ValueOf(s[..|s| - 5]) == c.minutes
      && AllDigits(s[|s| - 4..|s| - 2]) && ValueOf(s[|s| - 4..|s| - 2]) == c.seconds
      && AllDigits(s[|s| - 1..]) && ValueOf(s[|s| - 1..]) == c.tenths
    ensures c.minutes < 100 && c.seconds < 100 && c.tenths < 10 ==> |s| == 7
    ensures c.seconds < 100 && c.tenths < 10 && |s| > 7 ==> s[0] != '0'
  {
    var m := PadTwo(c.minutes);
    var sec := PadTwo(c.seconds);
    var t := Decimal(c.tenths);
    DecimalRoundTrip(c.tenths);
    var s := m + ":" + sec + "." + t;
    assert c.seconds < 100 && c.tenths < 10 ==>
      s[..|s| - 5] == m && s[|s| - 4..|s| - 2] == sec && s[|s| - 1..] == t;
    assert s[0] == m[0];
    s
  }

  /** The display of `elapsed` tenths reads back as `elapsed`. */
  lemma DisplayReadsBack(elapsed: nat)
    ensures var s := DisplayText(TimeComponents(elapsed));
      ValueOf(s[..|s| - 5]) * 600 + ValueOf(s[|s| - 4..|s| - 2]) * 10 + ValueOf(s[|s| - 1..]) == elapsed
  {
  }

  /**
    Lap numbers run 1, 2, ... in order; laps are taken no later than now and
    in order of time; each lap's text is the display at the moment it was taken.
   */
  predicate LapsWellFormed(laps: seq<LapRecord>, elapsed: nat) {
    && (forall i :: 0 <= i < |laps| ==>
          && laps[i].number == i + 1
          && laps[i].time <= elapsed
          && laps[i].formattedTime == DisplayText(TimeComponents(laps[i].time)))
    && (forall i, j :: 0 <= i <= j < |laps| ==> laps[i].time <= laps[j].time)
  }

  /**
    What every reachable state satisfies: exactly one tick timer is scheduled
    while running and none otherwise, the display matches the elapsed time,
    and the laps are well formed.
   */
  predicate Valid(s: StopwatchState) {
    && s.ticker == (if s.running then Ticker(true, 0) else Idle)
    && s.display == TimeComponents(s.elapsed)
    && LapsWellFormed(s.laps, s.elapsed)
  }

  /** The state of a freshly built view. */
  function Initial(): (s: StopwatchState)
    ensures Valid(s)
    ensures !s.running && s.elapsed == 0 && s.laps == [] && Live(s.ticker) == 0
  {
    StopwatchState(false, 0, Idle, Components(0, 0, 0), [])
  }

  /** `updateTimeComponents`: the display recomputed from the elapsed time; nothing else changes. */
  function UpdateTimeComponents(s: StopwatchState): (r: StopwatchState)
    ensures r.display.seconds < 60 && r.display.tenths < 10
    ensures r.display.minutes * 600 + r.display.seconds * 10 + r.display.tenths == s.elapsed
    ensures r.(display := s.display) == s
  {
    s.(display := TimeComponents(s.elapsed))
  }

  /** `startTimer`: schedules a tick timer into the handle; it does not cancel one already there. */
  function StartTicker(s: StopwatchState): (r: StopwatchState)
    ensures r.ticker.held && Live(r.ticker) == Live(s.ticker) + 1
    ensures r.(ticker := s.ticker) == s
  {
    s.(ticker := Schedule(s.ticker))
  }

  /** `stopTimer`: cancels the timer the handle holds and clears the handle. */
  function StopTicker(s: StopwatchState): (r: StopwatchState)
    ensures !r.ticker.held && r.ticker.orphans == s.ticker.orphans
    ensures r.(ticker := s.ticker) == s
  {
    s.(ticker := Invalidate(s.ticker))
  }

  /**
    The start/pause button: stops the ticker when running, starts one when
    not, and flips `running`. The time, the display and the laps stay as they were.
   */
  function StartPause(s: StopwatchState): (r: StopwatchState)
    ensures r.running == !s.running
    ensures r.elapsed == s.elapsed && r.display == s.display && r.laps == s.laps
    ensures s.running ==> !r.ticker.held && r.ticker.orphans == s.ticker.orphans
    ensures !s.running ==> r.ticker.held && Live(r.ticker) == Live(s.ticker) + 1
    ensures Valid(s) ==> Valid(r)
  {
    var t := if s.running then StopTicker(s) else StartTicker(s);
    t.(running := !s.running)
  }

  /** One firing of a scheduled tick timer: one more tenth, and the display recomputed. */
  function Tick(s: StopwatchState): (r: StopwatchState)
    ensures Live(s.ticker) == 0 ==> r == s
    ensures Live(s.ticker) > 0 ==>
      && r.elapsed == s.elapsed + 1
      && r.display.seconds < 60 && r.display.tenths < 10
      && r.display.minutes * 600 + r.display.seconds * 10 + r.display.tenths == r.elapsed
      && r.running == s.running && r.ticker == s.ticker && r.laps == s.laps
    ensures Valid(s) ==> Valid(r)
  {
    if Live(s.ticker) == 0 then s
    else UpdateTimeComponents(s.(elapsed := s.elapsed + 1))
  }

  /** `resetTimer`, reachable only from the reset button, which is disabled when stopped at zero. */
  function Reset(s: StopwatchState): (r: StopwatchState)
    requires s.running || s.elapsed > 0
    ensures !r.running && !r.ticker.held && r.ticker.orphans == s.ticker.orphans
    ensures r.elapsed == 0 && r.display == Components(0, 0, 0) && r.laps == []
    ensures Valid(s) ==> Valid(r) && r == Initial()
  {
    var stopped := StopTicker(s);
    stopped.(elapsed := 0, display := Components(0, 0, 0), running := false, laps := [])
  }

  /**
    `recordLap`, reachable only from the lap button, which is disabled while
    stopped: appends one lap numbered after the last, taken at the current
    time and showing the current display; earlier laps are untouched.
   */
  function RecordLap(s: StopwatchState): (r: StopwatchState)
    requires s.running
    ensures |r.laps| == |s.laps| + 1 && r.laps[..|s.laps|] == s.laps
    ensures r.laps[|s.laps|].number == |s.laps| + 1
    ensures r.laps[|s.laps|].time == s.elapsed
    ensures r.laps[|s.laps|].formattedTime == DisplayText(s.display)
    ensures r.(laps := s.laps) == s
    ensures Valid(s) ==> Valid(r)
  {
    var lap := LapRecord(|s.laps| + 1, s.elapsed, DisplayText(s.display));
    s.(laps := s.laps + [lap])
  }

  /** The text of every lap of a reachable state reads back as the time it was taken. */
  lemma LapReadsBack(s: StopwatchState, i: nat)
    requires Valid(s) && i < |s.laps|
    ensures var t := s.laps[i].formattedTime;
      ValueOf(t[..|t| - 5]) * 600 + ValueOf(t[|t| - 4..|t| - 2]) * 10 + ValueOf(t[|t| - 1..]) == s.laps[i].time
  {
    DisplayReadsBack(s.laps[i].time);
  }

  // ---------------------------------------------------------------------------
  // The view as a whole: every button press and every tick as one event.

  datatype Event = StartPauseTapped | LapTapped | ResetTapped | Ticked

  /** The lap button is disabled while stopped, the reset button when stopped at zero. */
  predicate Enabled(s: StopwatchState, e: Event) {
    match e
    case StartPauseTapped => true
    case LapTapped => s.running
    case ResetTapped => s.running || s.elapsed > 0
    case Ticked => true
  }

  /** One event; pressing a disabled button changes nothing. */
  function Step(s: StopwatchState, e: Event): (r: StopwatchState)
    ensures !Enabled(s, e) ==> r == s
    ensures e != ResetTapped ==> r.elapsed >= s.elapsed && |r.laps| >= |s.laps|
    ensures Valid(s) ==> Valid(r)
  {
    if !Enabled(s, e) then s
    else
      match e
      case StartPauseTapped => StartPause(s)
      case LapTapped => RecordLap(s)
      case ResetTapped => Reset(s)
      case Ticked => Tick(s)
  }

  function Run(s: StopwatchState, es: seq<Event>): StopwatchState
    decreases |es|
  {
    if |es| == 0 then s else Run(Step(s, es[0]), es[1..])
  }

  /** No sequence of events leaves the invariant: no leaked tick timer, laps numbered 1..n in time order. */
  lemma {:induction false} RunPreservesValid(s: StopwatchState, es: seq<Event>)
    requires Valid(s)
    ensures Valid(Run(s, es))
    decreases |es|
  {
    if |es| > 0 {
      RunPreservesValid(Step(s, es[0]), es[1..]);
    }
  }

  /** `n` firings of the tick timer with nothing else happening. */
  function Ticks(s: StopwatchState, n: nat): StopwatchState
    decreases n
  {
    if n == 0 then s else Ticks(Tick(s), n - 1)
  }

  /** While running, `n` ticks add exactly `n` tenths and leave the display matching and the laps alone. */
  lemma {:induction false} ElapsedAfterTicks(s: StopwatchState, n: nat)
    requires Valid(s) && s.running
    ensures Ticks(s, n).elapsed == s.elapsed + n
    ensures Ticks(s, n).display == TimeComponents(s.elapsed + n)
    ensures Ticks(s, n).running && Ticks(s, n).laps == s.laps
    decreases n
  {
    if n > 0 {
      ElapsedAfterTicks(Tick(s), n - 1);
    }
  }
}
