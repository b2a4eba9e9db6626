/**
  The window managers of the stopwatch, timer, alarm and full-screen windows.
  Each is a process-wide singleton holding at most one window. Opening builds
  the window the first time and afterwards only brings the same window to the
  front; closing takes the window off screen but keeps the reference, so the
  window (and the view it hosts) is the one shown again on the next open. The
  four managers differ only in the level a new window gets, in whether they
  offer the pin toggle, and in where the new window is placed.
 */
module WindowManager {
  import opened Wrappers

  /** The stacking levels the managers use: `.normal` and `.floating` (pinned above other windows). */
  datatype Level = Normal | Floating

  datatype Rect = Rect(x: int, y: int, width: int, height: int)

  /** Where a new window goes: centred on screen, or with its frame set to the main screen's frame. */
  datatype Placement = Centered | CoversScreen(frame: Rect)

  /**
    The window a manager holds. `id` numbers the windows that manager has
    built, so two windows are the same window exactly when their ids agree.
   */
  datatype Window = Window(id: nat, level: Level, placement: Placement, onScreen: bool)

  /** One kind per manager file. */
  datatype Kind = StopwatchWindow | TimerWindow | AlarmWindow | FullScreenWindow

  /** The level a new window is given. */
  function InitialLevel(k: Kind): Level {
    if k == FullScreenWindow then Floating else Normal
  }

  /** Only the stopwatch and timer managers have `toggleOverlay`. */
  predicate HasToggle(k: Kind) {
    k == StopwatchWindow || k == TimerWindow
  }

  /** A manager: which one it is, the window it holds, and how many windows it has built. */
  datatype Manager = Manager(kind: Kind, window: Option<Window>, built: nat)

  /** `NSScreen.main!` finding no main screen stops the program. */
  datatype OpenError = NoMainScreen

  /** The singleton as the program starts: no window yet. */
  function Fresh(k: Kind): (m: Manager)
    ensures Valid(m) && m.window.None? && m.built == 0
  {
    Manager(k, None, 0)
  }

  /**
    What every reachable manager satisfies: it has built a window exactly when
    it holds one, and then only one, and that window's placement, and its level
    when the manager has no toggle, are the ones it was built with.
   */
  predicate Valid(m: Manager) {
    match m.window
    case None => m.built == 0
    case Some(w) =>
      && m.built == 1 && w.id == 0
      && (m.kind == FullScreenWindow <==> w.placement.CoversScreen?)
      && (!HasToggle(m.kind) ==> w.level == InitialLevel(m.kind))
  }

  /** The window `Open` builds for a manager of kind `k`. */
  function NewWindow(k: Kind, id: nat, mainScreen: Rect): (w: Window)
    ensures w.id == id && w.onScreen
    ensures w.placement.CoversScreen? ==> w.placement.frame == mainScreen
    ensures id == 0 ==> Valid(Manager(k, Some(w), 1))
  {
    Window(id, InitialLevel(k), if k == FullScreenWindow then CoversScreen(mainScreen) else Centered, true)
  }

  /**
    `openWindow` / `openFullScreenWindow`. With no window held, builds exactly
    one, at the kind's initial level, on screen, and stores it; the full-screen
    manager reads the main screen's frame and stops the program when there is
    none. With a window held, builds nothing and only brings that window to the
    front, its identity, level and placement unchanged.
   */
  function Open(m: Manager, mainScreen: Option<Rect>): (r: Result<Manager, OpenError>)
    ensures r.Failure? <==> m.window.None? && m.kind == FullScreenWindow && mainScreen.None?
    ensures r.Success? ==> r.value.kind == m.kind && r.value.window.Some? && r.value.window.value.onScreen
    ensures r.Success? && m.window.None? ==>
      && r.value.built == m.built + 1
      && r.value.window.value.id == m.built
      && r.value.window.value.level == InitialLevel(m.kind)
      && (m.kind == FullScreenWindow ==> r.value.window.value.placement == CoversScreen(mainScreen.value))
      && (m.kind != FullScreenWindow ==> r.value.window.value.placement == Centered)
    ensures m.window.Some? ==>
      && r.Success? && r.value.built == m.built
      && r.value.window.value.id == m.window.value.id
      && r.value.window.value.level == m.window.value.level
      && r.value.window.value.placement == m.window.value.placement
    ensures Valid(m) && r.Success? ==> Valid(r.value)
  {
    match m.window
    case Some(w) => Success(m.(window := Some(w.(onScreen := true))))
    case None =>
      if m.kind == FullScreenWindow && mainScreen.None? then
        Failure(NoMainScreen)
      else
        var screen := if mainScreen.Some? then mainScreen.value else Rect(0, 0, 0, 0);
        Success(m.(window := Some(NewWindow(m.kind, m.built, screen)), built := m.built + 1))
  }

  /**
    `closeWindow`: takes the held window off screen and keeps the reference to
    it; with no window it does nothing.
   */
  function Close(m: Manager): (r: Manager)
    ensures m.window.None? ==> r == m
    ensures r.window.Some? == m.window.Some?
    ensures m.window.Some? ==>
      && !r.window.value.onScreen
      && r.window.value.id == m.window.value.id
      && r.window.value.level == m.window.value.level
      && r.window.value.placement == m.window.value.placement
    ensures r.kind == m.kind && r.built == m.built
    ensures Valid(m) ==> Valid(r)
  {
    match m.window
    case None => m
    case Some(w) => m.(window := Some(w.(onScreen := false)))
  }

  /** The other level. */
  function Flip(l: Level): (r: Level)
    ensures r != l
  {
    if l == Floating then Normal else Floating
  }

  /**
    `toggleOverlay`: a floating window goes back to normal and any other goes
    floating; with no window nothing changes.
   */
  function ToggleOverlay(m: Manager): (r: Manager)
    requires HasToggle(m.kind)
    ensures m.window.None? ==> r == m
    ensures m.window.Some? ==>
      && r.window.Some?
      && r.window.value.level != m.window.value.level
      && r.window.value.(level := m.window.value.level) == m.window.value
    ensures r.kind == m.kind && r.built == m.built
    ensures Valid(m) ==> Valid(r)
  {
    match m.window
    case None => m
    case Some(w) => m.(window := Some(w.(level := Flip(w.level))))
  }

  /** Pinning twice leaves the window where it was. */
  lemma ToggleTwiceRestores(m: Manager)
    requires HasToggle(m.kind)
    ensures ToggleOverlay(ToggleOverlay(m)) == m
  {
  }

  /**
    Closing and opening again brings back the very window that was closed, at
    the level it had, and builds nothing: the view it hosts keeps its state.
   */
  lemma CloseThenOpenReuses(m: Manager, mainScreen: Option<Rect>)
    requires m.window.Some?
    ensures Open(Close(m), mainScreen) == Success(m.(window := Some(m.window.value.(onScreen := true))))
  {
  }

  // ---------------------------------------------------------------------------
  // A manager over the life of the program.

  datatype Request = OpenRequested(mainScreen: Option<Rect>) | CloseRequested | ToggleRequested

  /** One request; a toggle sent to a manager without `toggleOverlay` changes nothing. */
  function Handle(m: Manager, q: Request): (r: Result<Manager, OpenError>)
    ensures r.Success? ==> r.value.kind == m.kind && r.value.built >= m.built
    ensures Valid(m) && r.Success? ==> Valid(r.value)
  {
    match q
    case OpenRequested(screen) => Open(m, screen)
    case CloseRequested => Success(Close(m))
    case ToggleRequested => if HasToggle(m.kind) then Success(ToggleOverlay(m)) else Success(m)
  }

  /** The requests in order; the first failed open stops the program. */
  function HandleAll(m: Manager, qs: seq<Request>): Result<Manager, OpenError>
    decreases |qs|
  {
    if |qs| == 0 then Success(m)
    else
      match Handle(m, qs[0])
      case Failure(e) => Failure(e)
      case Success(next) => HandleAll(next, qs[1..])
  }

  /** However the window is opened, closed and pinned, each manager builds at most one window in the life of the program. */
  lemma {:induction false} AtMostOneWindowEver(m: Manager, qs: seq<Request>)
    requires Valid(m)
    ensures HandleAll(m, qs).Success? ==> Valid(HandleAll(m, qs).value) && HandleAll(m, qs).value.built <= 1
    decreases |qs|
  {
    if |qs| > 0 {
      match Handle(m, qs[0])
      case Failure(_) =>
      case Success(next) => AtMostOneWindowEver(next, qs[1..]);
    }
  }

  // ---------------------------------------------------------------------------
  // The four managers.

  /** The stopwatch and timer managers: new windows centred at normal level, pinnable, reused after close; close and toggle do nothing before the first open. */
  lemma PinnableManagerLifecycle(k: Kind, mainScreen: Option<Rect>)
    requires k == StopwatchWindow || k == TimerWindow
    ensures Close(Fresh(k)) == Fresh(k)
    ensures ToggleOverlay(Fresh(k)) == Fresh(k)
    ensures var first := Open(Fresh(k), mainScreen);
      && first.Success?
      && first.value.window == Some(Window(0, Normal, Centered, true))
      && ToggleOverlay(first.value).window == Some(Window(0, Floating, Centered, true))
      && Open(Close(ToggleOverlay(first.value)), None) == Success(ToggleOverlay(first.value))
  {
  }

  /** The alarm manager: a new window centred at normal level, no toggle, reused after close; closing with no window does nothing. */
  lemma AlarmManagerLifecycle(mainScreen: Option<Rect>)
    ensures !HasToggle(AlarmWindow)
    ensures Close(Fresh(AlarmWindow)) == Fresh(AlarmWindow)
    ensures var first := Open(Fresh(AlarmWindow), mainScreen);
      && first.Success?
      && first.value.window == Some(Window(0, Normal, Centered, true))
      && Open(Close(first.value), None) == first
  {
  }

  /**
    The full-screen manager: a new window floats above the others with the
    main screen's frame, no toggle, reused after close; with no main screen the
    first open stops the program.
   */
  lemma FullScreenManagerLifecycle(screen: Rect)
    ensures !HasToggle(FullScreenWindow)
    ensures Close(Fresh(FullScreenWindow)) == Fresh(FullScreenWindow)
    ensures Open(Fresh(FullScreenWindow), None) == Failure(NoMainScreen)
    ensures var first := Open(Fresh(FullScreenWindow), Some(screen));
      && first.Success?
      && first.value.window == Some(Window(0, Floating, CoversScreen(screen), true))
      && Open(Close(first.value), None) == first
  {
  }
}
