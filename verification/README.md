# macTime engines in Dafny

macTime is a small macOS utility with a stopwatch, a countdown timer and an
alarm list, each in its own borderless window. This project models the logic
behind them as immutable states and pure transition functions:

- `CountdownTimer` (the timer window's view): the chosen minutes, the
  seconds left, whether it runs, and the repeating one-second timer that
  drives it. It covers the minus and plus buttons, start, the tick, pause,
  reset and the `MM:SS` text.
- `Stopwatch` (the stopwatch window's view): elapsed time, the
  minutes/seconds/tenths display, and the lap list. It covers the start/pause
  button, the tenth-of-a-second tick, the display update, reset and lap
  recording.
- `WindowManager`: one generic model of the four window-manager singletons
  (stopwatch, timer, alarm, full screen). A `Kind` selects the level a new
  window gets, whether the manager offers the pin toggle, and whether the
  window is centred or covers the main screen.
- `Ticker`: the scheduled repeating timers a view starts. Scheduling a new
  timer overwrites the handle without cancelling the old one, so a timer
  can be orphaned and keep firing. The model counts such timers, and the
  invariants of both views prove that none ever exists.
- `Format`: the `%d`, `%01d` and `%02d` conversions, and the reading of a
  digit string back into its value.
- `Wrappers`: `Option` and `Result`.

Modelling choices:

- Every timer quantity is a whole number of minutes or seconds, so the model
  uses natural numbers for them, even though the source stores them as
  `Double`.
- The stopwatch counts elapsed time in whole tenths. The source adds `0.1`
  to a floating-point number of seconds instead.
- Each firing of a scheduled timer is an explicit `Tick` event. A tick does
  nothing when no timer is scheduled.
- The completion notification is an output flag on the tick, and `Run` /
  `Countdown` count these flags.
- Some buttons are guarded only by `.disabled(...)` in the view, not by a
  check in the action. Those guards are the preconditions of the operations:
  - `PlusMinute` requires fewer than 120 minutes.
  - `RecordLap` requires the stopwatch to be running.
  - `Stopwatch.Reset` requires it to be running or to show a non-zero time.
- Both views have an `Event` type and a `Step` function. `Step` also applies
  the timer's reset-button guard and which of start or pause is shown.
  Pressing a disabled button changes nothing. `CountdownTimer.Reset` has no
  precondition, because the tick calls it as well.
- Behaviours of the Swift code the model keeps:
  - Closing a window does not clear the manager's reference to it. The model
    assumes the window survives `close()`, so the next open shows the same
    window and the same view state, and no second window is built
    (`CloseThenOpenReuses`, `AtMostOneWindowEver`).
  - The minute buttons work whenever the timer is not running, including
    while it is paused. Using them then discards the paused time left.
  - A countdown of `r` seconds shows zero after `r` ticks. It completes only
    on tick `r + 1`, which posts the notification and resets. For the
    default 25 minutes, that is tick 1501, not tick 1500 (`DefaultRun`).

## Model

| member | source | states |
|---|---|---|
| Format.Decimal | macTime/Views/StopwatchView.swift:178 | `%d`/`%01d` output is non-empty, all digits, one digit exactly below 10, at most two below 100, no leading zero for a positive number |
| Format.DecimalRoundTrip | macTime/Views/StopwatchView.swift:178 | reading back the digits printed for `n` gives `n` |
| Format.PadTwo | macTime/Views/TimerView.swift:212 | `%02d` output reads back as `n`, has at least two digits, exactly two iff `n < 100`, and a leading zero only in front of a single digit |
| Ticker.Schedule | macTime/Views/StopwatchView.swift:142-147 | scheduling adds one live timer and stores it in the handle; a timer the handle held before becomes an orphan |
| Ticker.Invalidate | macTime/Views/StopwatchView.swift:157-160 | invalidating through the handle cancels only the held timer; orphans stay live; with no orphans nothing is left |
| Ticker.InvalidateIdempotent | macTime/Views/TimerView.swift:163-177 | the double invalidate on completion, once in the tick and once in `resetTimer`, is harmless |
| CountdownTimer.Initial | macTime/Views/TimerView.swift:13-15 | a new view is valid: 25 minutes, 1500 seconds left (the full duration), stopped, no timer scheduled |
| CountdownTimer.MinusMinute | macTime/Views/TimerView.swift:64-68 | changes the state exactly when stopped and above one minute; then one minute less, the countdown refilled to the new full duration, and the invariant kept |
| CountdownTimer.PlusMinute | macTime/Views/TimerView.swift:81-92 | under the disabled-at-120 precondition, changes the state exactly when stopped; then one minute more, refilled, still stopped with the same ticker, and minutes stay in [1, 120] |
| CountdownTimer.Start | macTime/Views/TimerView.swift:151-157 | no-op while running; otherwise running, seconds left and minutes unchanged, exactly one more timer scheduled |
| CountdownTimer.Tick | macTime/Views/TimerView.swift:157-167 | with seconds left: one second less, nothing else changes, no notification; at zero: notification posted, stopped, timer cancelled, refilled to the full duration; with no timer scheduled: nothing happens |
| CountdownTimer.Pause | macTime/Views/TimerView.swift:171-174 | stopped and timer cancelled, seconds left and minutes unchanged |
| CountdownTimer.Reset | macTime/Views/TimerView.swift:176-181 | stopped, timer cancelled, seconds left equal to the full duration, minutes unchanged |
| CountdownTimer.ResetIdempotent | macTime/Views/TimerView.swift:176-181 | resetting twice is resetting once |
| CountdownTimer.TimeString | macTime/Views/TimerView.swift:209-213 | `MM:SS` text whose minute and second fields read back as `m` and `r` with `r < 60` and `m*60 + r` equal to the input; five characters exactly below 100 minutes, and no leading zero on a longer minute field |
| CountdownTimer.Step | macTime/Views/TimerView.swift:64-140 | a disabled button does nothing; only a tick at zero posts a notification, and it stops the timer; every event keeps the invariant |
| CountdownTimer.RunPreservesValid | macTime/Views/TimerView.swift:21-181 | after any sequence of events, minutes lie in [1, 120], `0 <= remaining <= totalTime`, and exactly one timer is live iff running |
| CountdownTimer.CountdownToZero | macTime/Views/TimerView.swift:157-161 | while seconds are left, `k` ticks take away exactly `k` seconds and post nothing |
| CountdownTimer.CountdownCompletes | macTime/Views/TimerView.swift:157-181 | from a running state with `r` seconds left, tick `r` shows zero; tick `r + 1` posts exactly one notification and leaves the reset state, with no timer live |
| CountdownTimer.DefaultRun | macTime/Views/TimerView.swift:13-14 | the default 25 minutes, once started, reaches zero on tick 1500, then notifies once and is back to the initial state on tick 1501 |
| Stopwatch.TimeComponents | macTime/Views/StopwatchView.swift:150-154 | `seconds < 60`, `tenths < 10`, `minutes*600 + seconds*10 + tenths == elapsed` |
| Stopwatch.ComponentsUnique | macTime/Views/StopwatchView.swift:150-154 | any minutes/seconds/tenths with those bounds that sum to `elapsed` are the components computed |
| Stopwatch.DisplayText | macTime/Views/StopwatchView.swift:178 | `MM:SS.T` text whose three fields read back as the minutes, seconds and tenths, with `:` and `.` in place; seven characters below 100 minutes, and no leading zero on a longer minute field |
| Stopwatch.DisplayReadsBack | macTime/Views/StopwatchView.swift:62-79 | the displayed text of `elapsed` reads back as `elapsed` tenths |
| Stopwatch.Initial | macTime/Views/StopwatchView.swift:12-22 | a new view is valid: stopped at zero, no laps, no timer scheduled |
| Stopwatch.UpdateTimeComponents | macTime/Views/StopwatchView.swift:150-154 | the display is recomputed to the bounded decomposition of the elapsed time; nothing else changes |
| Stopwatch.StartTicker | macTime/Views/StopwatchView.swift:142-147 | a timer is held and one more is live; nothing else changes |
| Stopwatch.StopTicker | macTime/Views/StopwatchView.swift:157-160 | the handle is cleared, orphans untouched; nothing else changes |
| Stopwatch.StartPause | macTime/Views/StopwatchView.swift:101-108 | `running` flips; a timer is started only when it was not running and cancelled when it was; elapsed, display and laps unchanged; invariant kept |
| Stopwatch.Tick | macTime/Views/StopwatchView.swift:143-146 | with a timer live: exactly one tenth more and the display recomputed to match, laps and running unchanged; with none: nothing happens |
| Stopwatch.Reset | macTime/Views/StopwatchView.swift:163-171 | under the button's guard (running or elapsed > 0): stopped, handle cleared, elapsed and display zero, laps empty; from a valid state it is the initial state |
| Stopwatch.RecordLap | macTime/Views/StopwatchView.swift:174-181 | under the button's guard (running): exactly one lap appended, numbered one after the last, at the current time, showing the current display; earlier laps and all else unchanged |
| Stopwatch.LapReadsBack | macTime/Views/StopwatchView.swift:178 | every lap text of a reachable state reads back as the tenths at which the lap was taken |
| Stopwatch.Step | macTime/Views/StopwatchView.swift:98-132 | a disabled button does nothing; only reset lowers elapsed or drops laps; every event keeps the invariant |
| Stopwatch.RunPreservesValid | macTime/Views/StopwatchView.swift:101-181 | after any sequence of events: exactly one timer live iff running, display matches elapsed, laps numbered 1..n, in time order, none later than now, each showing its own time |
| Stopwatch.ElapsedAfterTicks | macTime/Views/StopwatchView.swift:142-147 | while running, `n` ticks add exactly `n` tenths, the display matches the new time, laps untouched |
| WindowManager.Fresh | macTime/Helpers/StopwatchWindowManager.swift:12-14 | the singleton starts valid with no window and nothing built |
| WindowManager.Open | macTime/Helpers/StopwatchWindowManager.swift:16-39 | with no window: exactly one built at the kind's initial level, on screen, stored; fails only for the full-screen kind with no main screen; with a window: nothing built, same window, level and placement, brought on screen |
| WindowManager.Close | macTime/Helpers/StopwatchWindowManager.swift:42-44 | the window goes off screen but the reference is kept with its identity, level and placement; no-op with no window |
| WindowManager.Flip | macTime/Helpers/StopwatchWindowManager.swift:47-51 | the other of the two levels |
| WindowManager.ToggleOverlay | macTime/Helpers/StopwatchWindowManager.swift:46-52 | the level changes to the other one and nothing else about the window changes; no-op with no window |
| WindowManager.ToggleTwiceRestores | macTime/Helpers/StopwatchWindowManager.swift:46-52 | toggling twice restores the manager exactly |
| WindowManager.CloseThenOpenReuses | macTime/Helpers/StopwatchWindowManager.swift:17-44 | close then open gives back the same window at the same level, on screen, with nothing built |
| WindowManager.Handle | macTime/Views/TimerView.swift:27-48 | every open, close or pin request keeps the manager's invariant and never lowers the count of windows built |
| WindowManager.AtMostOneWindowEver | macTime/Helpers/StopwatchWindowManager.swift:14-44 | over any sequence of requests, each manager builds at most one window in the life of the program |
| WindowManager.PinnableManagerLifecycle | macTime/Helpers/TimerWindowManager.swift:16-51 | stopwatch and timer managers: close and toggle do nothing before the first open; open builds window 0, normal and centred; toggle makes it floating; close then open returns that same floating window |
| WindowManager.AlarmManagerLifecycle | macTime/Helpers/AlarmWindowManager.swift:17-45 | no toggle; close before the first open does nothing; open builds window 0, normal and centred; close then open returns the same window |
| WindowManager.FullScreenManagerLifecycle | macTime/Helpers/FullScreenWindowManager.swift:23-60 | no toggle; close before the first open does nothing; with no main screen the first open stops the program; otherwise it builds window 0, floating and covering the screen, and close then open returns the same window |

## Left out

- Floating-point drift: the stopwatch adds `0.1` to a `Double` on every tick and derives the tenths with `truncatingRemainder`. Rounding there can show a tenth too few; the model counts exact tenths.
- Real-time scheduling: `Timer.scheduledTimer` and its run loop. Each firing is an explicit tick event.
- Delivery of notifications (`UNUserNotificationCenter`) and the permission request. A completed countdown only reports that it posted one notification.
- `startDate` and `endDate` in the timer view: they are written but never read.
- SwiftUI layout, fonts, animations, gauge rendering, the `isPinned` icon flag and `LapRowView`: presentation only.
- The `id` (a fresh `UUID`) of each `LapRecord`: it only identifies rows for the list view.
- AppKit window configuration: style mask, transparency, content size, shadow, collection behaviour, dragging. Only window identity, level, placement and whether it is on screen are kept.
- Whether AppKit frees a window when it is closed: the managers never set `isReleasedWhenClosed`, whose AppKit default releases the window on close. The model keeps the reference the Swift code keeps and assumes the window stays usable.
- `FullScreenView`, `AlarmView`, `ContentView`, the button styles and the app entry point: views and bootstrap with no logic.
- The timer keeps ticking when its window is closed without pausing. The views' engines and the managers are modelled separately, not composed.
