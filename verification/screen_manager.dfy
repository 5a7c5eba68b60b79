/** The per-window screen manager: the native window plus the manager's own
    bookkeeping fields, and the small property setters and getters that are
    one or two Win32 calls each. The fullscreen transition lives in module
    FullScreen. */
module ScreenManager {
  import opened Wrappers
  import opened Win32

  /** What the manager remembers on entering fullscreen, so that leaving it
      can put the window back: the six `g_..._before_fullscreen` fields. */
  datatype RestoreState = RestoreState(
    maximized: bool,
    style: bv32,
    exStyle: bv32,
    frame: Rect,
    titleBarStyle: string,
    frameless: bool)

  /** The manager object. `saved` is None until the first capture: the
      native fields are left uninitialised by the constructor. */
  datatype Manager = Manager(
    window: Window,
    isFrameless: bool,
    isResizable: bool,
    isSkipTaskbar: bool,
    titleBarStyle: string,
    isFullScreen: bool,
    saved: Option<RestoreState>)

  /** The saved fields are never read uninitialised: whenever the manager
      believes the window is fullscreen, a restore state has been captured. */
  predicate Valid(m: Manager)
  {
    m.isFullScreen ==> m.saved.Some?
  }

  /** A freshly constructed manager attached to window `w`. */
  function Init(w: Window): (m: Manager)
    ensures Valid(m) && !IsFullScreen(m)
    ensures m.saved == None && m.window == w
    ensures !m.isFrameless && m.isResizable && m.isSkipTaskbar
    ensures m.titleBarStyle == "normal"
  {
    Manager(w, false, true, true, "normal", false, None)
  }

  /** Reports the manager's own flag; when it says fullscreen, a restore
      state is there for the exit to read. */
  function IsFullScreen(m: Manager): (fullScreen: bool)
    ensures fullScreen <==> m.isFullScreen
    ensures fullScreen && Valid(m) ==> m.saved.Some?
  {
    m.isFullScreen
  }

  /** Frame-change notification used by SetTitleBarStyle and SetAsFrameless:
      `SetWindowPos` with SWP_NOMOVE and SWP_NOSIZE, so the frame stays. */
  const FrameChangedFlags: bv32 :=
    SWP_NOZORDER | SWP_NOOWNERZORDER | SWP_NOMOVE | SWP_NOSIZE | SWP_FRAMECHANGED

  function NotifyFrameChanged(w: Window): (r: Window)
    ensures r == w
  {
    assert (FrameChangedFlags & SWP_NOMOVE) != 0 && (FrameChangedFlags & SWP_NOSIZE) != 0;
    SetWindowPos(w, w.rect.left, w.rect.top, 0, 0, FrameChangedFlags)
  }

  /** Sets the title-bar style and leaves frameless mode; the window's own
      styles and frame are untouched. */
  function SetTitleBarStyle(m: Manager, style: string): (r: Manager)
    ensures r.titleBarStyle == style && !r.isFrameless
    ensures r.window == m.window
    ensures r.(titleBarStyle := m.titleBarStyle, isFrameless := m.isFrameless) == m
    ensures Valid(m) ==> Valid(r)
  {
    var w := NotifyFrameChanged(m.window);
    m.(titleBarStyle := style, isFrameless := false, window := w)
  }

  /** Enters frameless mode; only the flag changes. */
  function SetAsFrameless(m: Manager): (r: Manager)
    ensures r.isFrameless
    ensures r.window == m.window && r.titleBarStyle == m.titleBarStyle
    ensures r.(isFrameless := m.isFrameless) == m
    ensures Valid(m) ==> Valid(r)
  {
    var w := NotifyFrameChanged(m.window);
    m.(isFrameless := true, window := w)
  }

  /** `Maximize` with `vertically == false`: posts SC_MAXIMIZE unless the
      window is already maximized. */
  function Maximize(m: Manager): (r: Manager)
    ensures r.window.maximized
    ensures m.window.maximized ==> r == m
    ensures r.window.style == m.window.style && r.window.exStyle == m.window.exStyle
    ensures r.window.rect == m.window.rect
    ensures r.(window := m.window) == m
    ensures Valid(m) ==> Valid(r)
  {
    if !m.window.maximized then m.(window := SendSysCommand(m.window, ScMaximize))
    else m
  }

  /** Reports the recorded flag, not the WS_THICKFRAME bit of the style. */
  function IsResizable(m: Manager): (resizable: bool)
    ensures resizable <==> m.isResizable
  {
    m.isResizable
  }

  /** Records the flag and sets or clears WS_THICKFRAME in the style word;
      every other style bit and every other field is kept. */
  function SetResizable(m: Manager, resizable: bool): (r: Manager)
    ensures IsResizable(r) == resizable
    ensures ((r.window.style & WS_THICKFRAME) != 0) == resizable
    ensures (r.window.style & !WS_THICKFRAME) == (m.window.style & !WS_THICKFRAME)
    ensures r == m.(isResizable := resizable, window := m.window.(style := r.window.style))
    ensures Valid(m) ==> Valid(r)
  {
    var style := GetWindowLong(m.window, GwlStyle);
    var style' := if resizable then style | WS_THICKFRAME else style & !WS_THICKFRAME;
    m.(isResizable := resizable, window := SetWindowLong(m.window, GwlStyle, style'))
  }

  /** True exactly when WS_EX_TOPMOST is set in the extended style. */
  function IsAlwaysOnTop(m: Manager): (onTop: bool)
    ensures onTop <==> (m.window.exStyle & WS_EX_TOPMOST) != 0
  {
    (GetWindowLong(m.window, GwlExStyle) & WS_EX_TOPMOST) != 0
  }

  /** `SetWindowPos` with HWND_TOPMOST or HWND_NOTOPMOST: the system sets or
      clears WS_EX_TOPMOST; nothing else about the window changes. */
  function SetAlwaysOnTop(m: Manager, onTop: bool): (r: Manager)
    ensures IsAlwaysOnTop(r) == onTop
    ensures (r.window.exStyle & !WS_EX_TOPMOST) == (m.window.exStyle & !WS_EX_TOPMOST)
    ensures r == m.(window := m.window.(exStyle := r.window.exStyle))
    ensures Valid(m) ==> Valid(r)
  {
    var ex := m.window.exStyle;
    m.(window := m.window.(exStyle := if onTop then ex | WS_EX_TOPMOST else ex & !WS_EX_TOPMOST))
  }

  /** True exactly when CS_NOCLOSE is clear in the class style. */
  function IsClosable(m: Manager): (closable: bool)
    ensures closable <==> (m.window.classStyle & CS_NOCLOSE) == 0
  {
    !((GetClassLong(m.window) & CS_NOCLOSE) != 0)
  }

  /** Clears CS_NOCLOSE in the class style to allow closing and sets it to
      forbid closing; no other class-style bit changes. */
  function SetClosable(m: Manager, closable: bool): (r: Manager)
    ensures IsClosable(r) == closable
    ensures (r.window.classStyle & !CS_NOCLOSE) == (m.window.classStyle & !CS_NOCLOSE)
    ensures r == m.(window := m.window.(classStyle := r.window.classStyle))
    ensures Valid(m) ==> Valid(r)
  {
    var cls := GetClassLong(m.window);
    var cls' := if closable then cls & !CS_NOCLOSE else cls | CS_NOCLOSE;
    m.(window := SetClassLong(m.window, cls'))
  }

  /** The `uFlags` that `SetBounds` computes, as the code writes it: the
      second assignment replaces the first instead of adding to it. */
  function BoundsFlagsAsWritten(hasX: bool, hasY: bool, hasWidth: bool, hasHeight: bool): (flags: bv32)
    ensures ((flags & SWP_NOSIZE) != 0) <==> !(hasWidth && hasHeight)
    ensures ((flags & SWP_NOMOVE) != 0) <==> !(hasX && hasY) && hasWidth && hasHeight
    ensures (flags & !(SWP_NOMOVE | SWP_NOSIZE)) == 0
  {
    var flags0: bv32 := 0;
    var flags1 := if !hasX || !hasY then SWP_NOMOVE else flags0;
    if !hasWidth || !hasHeight then SWP_NOSIZE else flags1
  }

  /** The `uFlags` evidently intended: no move unless both coordinates are
      given, no resize unless both extents are given, nothing else. */
  function BoundsFlags(hasX: bool, hasY: bool, hasWidth: bool, hasHeight: bool): (flags: bv32)
    ensures ((flags & SWP_NOMOVE) != 0) <==> !(hasX && hasY)
    ensures ((flags & SWP_NOSIZE) != 0) <==> !(hasWidth && hasHeight)
    ensures (flags & !(SWP_NOMOVE | SWP_NOSIZE)) == 0
  {
    var flags0: bv32 := 0;
    var flags1 := if !hasX || !hasY then flags0 | SWP_NOMOVE else flags0;
    if !hasWidth || !hasHeight then flags1 | SWP_NOSIZE else flags1
  }

  /** `SetBounds` as written, on arguments already converted to device
      pixels. A missing pair leaves its numbers at 0, so when neither a full
      position nor a full size is given the window moves to the origin. */
  function SetBoundsAsWritten(m: Manager, x: Option<int>, y: Option<int>,
                              width: Option<int>, height: Option<int>): (r: Manager)
    ensures x.Some? && y.Some? ==> r.window.rect.left == x.value && r.window.rect.top == y.value
    ensures !(x.Some? && y.Some?) && width.Some? && height.Some? ==>
      r.window.rect.left == m.window.rect.left && r.window.rect.top == m.window.rect.top
    ensures !(x.Some? && y.Some?) && !(width.Some? && height.Some?) ==>
      r.window.rect.left == 0 && r.window.rect.top == 0
    ensures width.Some? && height.Some? ==> r.window.rect.Width() == width.value && r.window.rect.Height() == height.value
    ensures !(width.Some? && height.Some?) ==> r.window.rect.Width() == m.window.rect.Width() && r.window.rect.Height() == m.window.rect.Height()
    ensures r == m.(window := m.window.(rect := r.window.rect))
    ensures Valid(m) ==> Valid(r)
  {
    var flags := BoundsFlagsAsWritten(x.Some?, y.Some?, width.Some?, height.Some?);
    var moves := x.Some? && y.Some?;
    var sizes := width.Some? && height.Some?;
    m.(window := SetWindowPos(m.window,
         if moves then x.value else 0, if moves then y.value else 0,
         if sizes then width.value else 0, if sizes then height.value else 0,
         flags))
  }

  /** `SetBounds` with the intended flags: the window moves exactly when
      both coordinates are given and is resized exactly when both extents
      are given; otherwise that part of the frame is kept. */
  function SetBounds(m: Manager, x: Option<int>, y: Option<int>,
                     width: Option<int>, height: Option<int>): (r: Manager)
    ensures x.Some? && y.Some? ==> r.window.rect.left == x.value && r.window.rect.top == y.value
    ensures !(x.Some? && y.Some?) ==> r.window.rect.left == m.window.rect.left && r.window.rect.top == m.window.rect.top
    ensures width.Some? && height.Some? ==> r.window.rect.Width() == width.value && r.window.rect.Height() == height.value
    ensures !(width.Some? && height.Some?) ==> r.window.rect.Width() == m.window.rect.Width() && r.window.rect.Height() == m.window.rect.Height()
    ensures r == m.(window := m.window.(rect := r.window.rect))
    ensures Valid(m) ==> Valid(r)
  {
    var flags := BoundsFlags(x.Some?, y.Some?, width.Some?, height.Some?);
    var moves := x.Some? && y.Some?;
    var sizes := width.Some? && height.Some?;
    m.(window := SetWindowPos(m.window,
         if moves then x.value else 0, if moves then y.value else 0,
         if sizes then width.value else 0, if sizes then height.value else 0,
         flags))
  }

  /** The code as written moves a window to the origin when `SetBounds` is
      called with none of x, y, width and height: the flags end up as
      SWP_NOSIZE alone, so the zero coordinates are applied. */
  lemma BoundsAsWrittenMovesWithoutArguments(m: Manager)
    requires m.window.rect.left != 0 || m.window.rect.top != 0
    ensures var r := SetBoundsAsWritten(m, None, None, None, None);
      r.window.rect.left == 0 && r.window.rect.top == 0 && r.window.rect != m.window.rect
    ensures SetBounds(m, None, None, None, None).window.rect == m.window.rect
  {
  }

  /** Apart from the call with all four values missing, the code as written
      and the intended version agree. */
  lemma BoundsAsWrittenAgreesOtherwise(m: Manager, x: Option<int>, y: Option<int>,
                                       width: Option<int>, height: Option<int>)
    requires (x.Some? && y.Some?) || (width.Some? && height.Some?)
    ensures SetBoundsAsWritten(m, x, y, width, height) == SetBounds(m, x, y, width, height)
  {
  }
}
