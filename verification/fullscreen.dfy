/** The fullscreen transition of the screen manager: capture the restore
    state when not already fullscreen, then either strip the window chrome
    and cover the nearest monitor, or put back what was captured. The
    monitor lookup (`MonitorFromWindow` + `GetMonitorInfo`) is a parameter:
    the full rectangle of the monitor nearest the window. */
module FullScreen {
  import opened Wrappers
  import opened Win32
  import opened ScreenManager

  /** Style bits removed on entry. */
  const ChromeStyleMask: bv32 := WS_CAPTION | WS_THICKFRAME

  /** Extended-style bits removed on entry. */
  const ChromeExStyleMask: bv32 :=
    WS_EX_DLGMODALFRAME | WS_EX_WINDOWEDGE | WS_EX_CLIENTEDGE | WS_EX_STATICEDGE

  /** A style word without its caption and sizing border. */
  function StripChrome(style: bv32): (r: bv32)
    ensures (r & ChromeStyleMask) == 0
    ensures (r & !ChromeStyleMask) == (style & !ChromeStyleMask)
  {
    style & !ChromeStyleMask
  }

  /** An extended-style word without its edge and dialog-frame bits. */
  function StripExChrome(exStyle: bv32): (r: bv32)
    ensures (r & ChromeExStyleMask) == 0
    ensures (r & !ChromeExStyleMask) == (exStyle & !ChromeExStyleMask)
  {
    exStyle & !ChromeExStyleMask
  }

  /** `SetWindowPos` flags of both fullscreen resizes. */
  const ResizeFlags: bv32 := SWP_NOZORDER | SWP_NOACTIVATE | SWP_FRAMECHANGED

  /** What a capture must record about manager `m`, stated directly: the
      maximized flag, both style words, the title-bar style and frameless
      flag as they are, and the frame the window has once it is no longer
      maximized (its normal placement when it was maximized). */
  function Snapshot(m: Manager): RestoreState
  {
    RestoreState(
      m.window.maximized,
      m.window.style,
      m.window.exStyle,
      if m.window.maximized then m.window.normalRect else m.window.rect,
      m.titleBarStyle,
      m.isFrameless)
  }

  /** The capture step: read `IsZoomed` and both style words, restore a
      maximized window, then read the frame, the title-bar style and the
      frameless flag. */
  function SaveState(m: Manager): (r: Manager)
    ensures r.saved == Some(Snapshot(m))
    ensures !r.window.maximized
    ensures r.window.style == m.window.style && r.window.exStyle == m.window.exStyle
    ensures r.window.classStyle == m.window.classStyle
    ensures !m.window.maximized ==> r.window == m.window
    ensures r.(window := m.window, saved := m.saved) == m
  {
    var wasMaximized := m.window.maximized;
    var style := GetWindowLong(m.window, GwlStyle);
    var exStyle := GetWindowLong(m.window, GwlExStyle);
    var w := if wasMaximized then SendSysCommand(m.window, ScRestore) else m.window;
    var frame := w.rect;
    m.(window := w,
       saved := Some(RestoreState(wasMaximized, style, exStyle, frame, m.titleBarStyle, m.isFrameless)))
  }

  /** The entry branch: normal title bar, chrome bits stripped from the
      saved style words, the frame set to the monitor, then SC_MAXIMIZE. */
  function EnterFullScreen(m: Manager, monitor: Rect): (r: Manager)
    requires m.saved.Some?
    ensures r.saved == m.saved
    ensures r.window.style == StripChrome(m.saved.value.style)
    ensures r.window.exStyle == StripExChrome(m.saved.value.exStyle)
    ensures r.window.rect == monitor && r.window.maximized
    ensures r.titleBarStyle == "normal" && !r.isFrameless
    ensures r.window.classStyle == m.window.classStyle
    ensures r.isResizable == m.isResizable && r.isSkipTaskbar == m.isSkipTaskbar
    ensures r.isFullScreen == m.isFullScreen
  {
    var m1 := SetTitleBarStyle(m, "normal");
    var s := m1.saved.value;
    var w1 := SetWindowLong(m1.window, GwlStyle, StripChrome(s.style));
    var w2 := SetWindowLong(w1, GwlExStyle, StripExChrome(s.exStyle));
    SetWindowPosToFrame(w2, monitor, ResizeFlags);
    var w3 := SetWindowPos(w2, monitor.left, monitor.top, monitor.Width(), monitor.Height(), ResizeFlags);
    var w4 := SendSysCommand(w3, ScMaximize);
    m1.(window := w4)
  }

  /** The first half of the exit (lines 188-201): saved style words back,
      SC_RESTORE, the saved title-bar style if it differs, frameless mode
      if it was on. */
  function RestoreChrome(m: Manager): (r: Manager)
    requires m.saved.Some?
    ensures var s := m.saved.value;
      && r.saved == m.saved
      && r.window.style == s.style && r.window.exStyle == s.exStyle
      && r.titleBarStyle == s.titleBarStyle
      && r.isFrameless == (s.frameless || (m.isFrameless && m.titleBarStyle == s.titleBarStyle))
      && !r.window.maximized
    ensures r.window.classStyle == m.window.classStyle
    ensures r.isResizable == m.isResizable && r.isSkipTaskbar == m.isSkipTaskbar
    ensures r.isFullScreen == m.isFullScreen
  {
    var s := m.saved.value;
    var w1 := SetWindowLong(m.window, GwlStyle, s.style);
    var w2 := SetWindowLong(w1, GwlExStyle, s.exStyle);
    var w3 := SendSysCommand(w2, ScRestore);
    var m1 := m.(window := w3);
    var m2 := if m1.titleBarStyle != s.titleBarStyle then SetTitleBarStyle(m1, s.titleBarStyle) else m1;
    if s.frameless then SetAsFrameless(m2) else m2
  }

  /** The `SetWindowPos` back to a saved frame: only the frame changes. */
  function MoveToFrame(m: Manager, frame: Rect): (r: Manager)
    ensures r.window.rect == frame
    ensures r == m.(window := m.window.(rect := r.window.rect))
  {
    SetWindowPosToFrame(m.window, frame, ResizeFlags);
    m.(window := SetWindowPos(m.window, frame.left, frame.top, frame.Width(), frame.Height(), ResizeFlags))
  }

  /** The exit branch: the chrome as saved, then either maximize or move
      back to the saved frame. */
  function ExitFullScreen(m: Manager): (r: Manager)
    requires m.saved.Some?
    ensures var s := m.saved.value;
      && r.saved == m.saved
      && r.window.style == s.style && r.window.exStyle == s.exStyle
      && r.titleBarStyle == s.titleBarStyle
      && r.isFrameless == (s.frameless || (m.isFrameless && m.titleBarStyle == s.titleBarStyle))
      && (s.maximized ==> r.window.maximized)
      && (!s.maximized ==> !r.window.maximized && r.window.rect == s.frame)
    ensures r.window.classStyle == m.window.classStyle
    ensures r.isResizable == m.isResizable && r.isSkipTaskbar == m.isSkipTaskbar
    ensures r.isFullScreen == m.isFullScreen
  {
    var s := m.saved.value;
    var m1 := RestoreChrome(m);
    if s.maximized then Maximize(m1) else MoveToFrame(m1, s.frame)
  }

  /** The exit evidently intended: as `ExitFullScreen`, except that the
      window is always moved back to the saved frame and only then
      maximized, so that a window maximized before entry keeps that frame
      as its normal placement. */
  function ExitFullScreenIntended(m: Manager): (r: Manager)
    requires m.saved.Some?
    ensures var s := m.saved.value;
      && r.saved == m.saved
      && r.window.style == s.style && r.window.exStyle == s.exStyle
      && r.titleBarStyle == s.titleBarStyle
      && r.isFrameless == (s.frameless || (m.isFrameless && m.titleBarStyle == s.titleBarStyle))
      && r.window.maximized == s.maximized
      && (s.maximized ==> r.window.normalRect == s.frame)
      && (!s.maximized ==> r.window.rect == s.frame)
    ensures r.window.classStyle == m.window.classStyle
    ensures r.isResizable == m.isResizable && r.isSkipTaskbar == m.isSkipTaskbar
    ensures r.isFullScreen == m.isFullScreen
  {
    var s := m.saved.value;
    var m1 := MoveToFrame(RestoreChrome(m), s.frame);
    if s.maximized then Maximize(m1) else m1
  }

  /** `SetFullScreen(isFullScreen)`. The restore state is captured exactly
      when the manager is not already fullscreen; the entry or exit branch
      then works from the saved state; afterwards `IsFullScreen` reports
      the requested mode. */
  function SetFullScreen(m: Manager, isFullScreen: bool, monitor: Rect): (r: Manager)
    requires Valid(m)
    ensures Valid(r) && IsFullScreen(r) == isFullScreen
    ensures r.saved == (if m.isFullScreen then m.saved else Some(Snapshot(m)))
    ensures isFullScreen ==> var s := r.saved.value;
      && r.window.style == StripChrome(s.style)
      && r.window.exStyle == StripExChrome(s.exStyle)
      && r.window.rect == monitor && r.window.maximized
      && r.titleBarStyle == "normal" && !r.isFrameless
    ensures !isFullScreen ==> var s := r.saved.value;
      && r.window.style == s.style && r.window.exStyle == s.exStyle
      && r.titleBarStyle == s.titleBarStyle
      && r.isFrameless == (s.frameless || (m.isFrameless && m.titleBarStyle == s.titleBarStyle))
      && (s.maximized ==> r.window.maximized)
      && (!s.maximized ==> !r.window.maximized && r.window.rect == s.frame)
    ensures r.window.classStyle == m.window.classStyle
    ensures r.isResizable == m.isResizable && r.isSkipTaskbar == m.isSkipTaskbar
  {
    var m1 := if !m.isFullScreen then SaveState(m) else m;
    assert m1.saved == (if m.isFullScreen then m.saved else Some(Snapshot(m)));
    assert m1.isFrameless == m.isFrameless && m1.titleBarStyle == m.titleBarStyle;
    if isFullScreen then
      EnterFullScreen(m1, monitor).(isFullScreen := true)
    else
      ExitFullScreen(m1).(isFullScreen := false)
  }

  /** A second `SetFullScreen(true)` keeps the saved state. */
  lemma NoRecapture(m: Manager, monitor: Rect)
    requires Valid(m) && m.isFullScreen
    ensures SetFullScreen(m, true, monitor).saved == m.saved
  {
  }

  /** A repeated entry on the same monitor changes nothing at all. */
  lemma EnterIdempotent(m: Manager, monitor: Rect)
    requires Valid(m)
    ensures var once := SetFullScreen(m, true, monitor);
      SetFullScreen(once, true, monitor) == once
  {
  }

  /** The first call on a new manager captures, whatever it asks for. */
  lemma FirstCallCaptures(w: Window, isFullScreen: bool, monitor: Rect)
    ensures SetFullScreen(Init(w), isFullScreen, monitor).saved == Some(Snapshot(Init(w)))
  {
  }

  /** Entering and then leaving fullscreen puts back the style words, the
      title-bar style and the frameless flag exactly, and either the frame
      (window not maximized before) or the maximized state. */
  lemma RoundTrip(m: Manager, monitor: Rect, monitor': Rect)
    requires Valid(m) && !m.isFullScreen
    ensures var r := SetFullScreen(SetFullScreen(m, true, monitor), false, monitor');
      && !IsFullScreen(r)
      && r.window.style == m.window.style && r.window.exStyle == m.window.exStyle
      && r.window.classStyle == m.window.classStyle
      && r.titleBarStyle == m.titleBarStyle && r.isFrameless == m.isFrameless
      && r.window.maximized == m.window.maximized
      && (!m.window.maximized ==> r.window.rect == m.window.rect)
      && r.isResizable == m.isResizable && r.isSkipTaskbar == m.isSkipTaskbar
  {
  }

  /** For a window maximized before entry, the code saves its normal
      placement as the frame but never uses it: the exit re-maximizes from
      the monitor-sized frame. In this model, where the maximized state is
      a flag apart from the style word, the normal placement afterwards is
      the monitor's rectangle, and un-maximizing the window leaves it
      covering the whole monitor. On Windows this may not happen: the style
      saved before the restore still carries WS_MAXIMIZE, entry writes it
      back (line 170), and a window Windows then treats as maximized may
      keep its old normal placement through the resize and SC_MAXIMIZE. */
  lemma MaximizedRoundTripLosesPlacement(m: Manager, monitor: Rect, monitor': Rect)
    requires Valid(m) && !m.isFullScreen && m.window.maximized
    ensures SetFullScreen(m, true, monitor).saved.value.frame == m.window.normalRect
    ensures var r := SetFullScreen(SetFullScreen(m, true, monitor), false, monitor');
      r.window.maximized && r.window.normalRect == monitor
  {
  }

  /** With the intended exit, entering and then leaving fullscreen restores
      the maximized flag, and the normal placement of a window that was
      maximized or the frame of one that was not. */
  lemma RoundTripIntended(m: Manager, monitor: Rect)
    requires Valid(m) && !m.isFullScreen
    ensures var r := ExitFullScreenIntended(SetFullScreen(m, true, monitor));
      && r.window.style == m.window.style && r.window.exStyle == m.window.exStyle
      && r.titleBarStyle == m.titleBarStyle && r.isFrameless == m.isFrameless
      && r.window.maximized == m.window.maximized
      && (m.window.maximized ==> r.window.normalRect == m.window.normalRect)
      && (!m.window.maximized ==> r.window.rect == m.window.rect)
  {
  }

  /** `SetFullScreen(false)` on a window that is not fullscreen captures and
      immediately restores: nothing visible changes except that a maximized
      window's frame is not modelled across the restore/maximize pair. */
  lemma ExitWhileWindowed(m: Manager, monitor: Rect)
    requires Valid(m) && !m.isFullScreen
    ensures var r := SetFullScreen(m, false, monitor);
      && r.window.style == m.window.style && r.window.exStyle == m.window.exStyle
      && r.titleBarStyle == m.titleBarStyle && r.isFrameless == m.isFrameless
      && r.window.maximized == m.window.maximized
      && (!m.window.maximized ==> r.window.rect == m.window.rect)
  {
  }

  /** `IsResizable` reads the manager's flag, not the style word: entering
      fullscreen strips WS_THICKFRAME but a resizable window still reports
      itself resizable. */
  lemma FullScreenKeepsResizableFlag(m: Manager, monitor: Rect)
    requires Valid(m)
    ensures var r := SetFullScreen(m, true, monitor);
      IsResizable(r) == IsResizable(m) && (r.window.style & WS_THICKFRAME) == 0
  {
  }
}
