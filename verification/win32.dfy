/** The slice of the Win32 windowing API the screen manager relies on,
    modelled as pure updates of an immutable window record. Each call the
    native code makes (`GetWindowLong`/`SetWindowLong`, `GetClassLong`/
    `SetClassLong`, `SetWindowPos`, a `WM_SYSCOMMAND` message) becomes a
    function from the window before the call to the window after it.
    The flag values are those of the Windows SDK header winuser.h. */
module Win32 {

  // Window styles (GWL_STYLE).
  const WS_THICKFRAME: bv32 := 0x0004_0000
  const WS_CAPTION: bv32 := 0x00C0_0000

  // Extended window styles (GWL_EXSTYLE).
  const WS_EX_DLGMODALFRAME: bv32 := 0x0000_0001
  const WS_EX_TOPMOST: bv32 := 0x0000_0008
  const WS_EX_WINDOWEDGE: bv32 := 0x0000_0100
  const WS_EX_CLIENTEDGE: bv32 := 0x0000_0200
  const WS_EX_STATICEDGE: bv32 := 0x0002_0000

  // Class styles (GCL_STYLE).
  const CS_NOCLOSE: bv32 := 0x0000_0200

  // SetWindowPos flags.
  const SWP_NOSIZE: bv32 := 0x0001
  const SWP_NOMOVE: bv32 := 0x0002
  const SWP_NOZORDER: bv32 := 0x0004
  const SWP_NOACTIVATE: bv32 := 0x0010
  const SWP_FRAMECHANGED: bv32 := 0x0020
  const SWP_NOOWNERZORDER: bv32 := 0x0200

  /** A screen-space rectangle in device pixels, as `RECT`. */
  datatype Rect = Rect(left: int, top: int, right: int, bottom: int) {
    function Width(): int { right - left }
    function Height(): int { bottom - top }
  }

  /** The native window as the screen manager observes it: its style and
      extended-style words, the style word of its class, its current frame,
      the frame it returns to when it is restored from the maximized state
      (the normal placement), and whether it is maximized (`IsZoomed`). */
  datatype Window = Window(
    style: bv32,
    exStyle: bv32,
    classStyle: bv32,
    rect: Rect,
    normalRect: Rect,
    maximized: bool)

  /** The two indices of `GetWindowLong`/`SetWindowLong` the code uses. */
  datatype LongIndex = GwlStyle | GwlExStyle

  function GetWindowLong(w: Window, index: LongIndex): bv32
  {
    match index
    case GwlStyle => w.style
    case GwlExStyle => w.exStyle
  }

  /** `SetWindowLong`: writes one style word and nothing else. */
  function SetWindowLong(w: Window, index: LongIndex, value: bv32): (r: Window)
    ensures GetWindowLong(r, index) == value
    ensures forall other: LongIndex :: other != index ==> GetWindowLong(r, other) == GetWindowLong(w, other)
    ensures r.classStyle == w.classStyle && r.rect == w.rect
    ensures r.normalRect == w.normalRect && r.maximized == w.maximized
  {
    match index
    case GwlStyle => w.(style := value)
    case GwlExStyle => w.(exStyle := value)
  }

  /** `SetWindowPos` without a z-order change: moves the window to (x, y)
      unless SWP_NOMOVE is given and resizes it to cx by cy unless
      SWP_NOSIZE is given. Only the frame changes. */
  function SetWindowPos(w: Window, x: int, y: int, cx: int, cy: int, flags: bv32): (r: Window)
    ensures (flags & SWP_NOMOVE) == 0 ==> r.rect.left == x && r.rect.top == y
    ensures (flags & SWP_NOMOVE) != 0 ==> r.rect.left == w.rect.left && r.rect.top == w.rect.top
    ensures (flags & SWP_NOSIZE) == 0 ==> r.rect.Width() == cx && r.rect.Height() == cy
    ensures (flags & SWP_NOSIZE) != 0 ==> r.rect.Width() == w.rect.Width() && r.rect.Height() == w.rect.Height()
    ensures r.(rect := w.rect) == w
  {
    var left := if (flags & SWP_NOMOVE) != 0 then w.rect.left else x;
    var top := if (flags & SWP_NOMOVE) != 0 then w.rect.top else y;
    var width := if (flags & SWP_NOSIZE) != 0 then w.rect.Width() else cx;
    var height := if (flags & SWP_NOSIZE) != 0 then w.rect.Height() else cy;
    w.(rect := Rect(left, top, left + width, top + height))
  }

  /** A call `SetWindowPos(w, x, y, cx, cy, flags)` whose four numbers are
      taken from `frame` as the code writes it (left, top, right - left,
      bottom - top) lands the window exactly on `frame`, unless it is told
      not to move or not to size. */
  lemma SetWindowPosToFrame(w: Window, frame: Rect, flags: bv32)
    requires (flags & (SWP_NOMOVE | SWP_NOSIZE)) == 0
    ensures SetWindowPos(w, frame.left, frame.top, frame.Width(), frame.Height(), flags).rect == frame
  {
  }

  /** The `WM_SYSCOMMAND` commands the code sends or posts. */
  datatype SysCommand = ScRestore | ScMaximize

  /** The effect of a `WM_SYSCOMMAND` on the window. SC_RESTORE brings a
      maximized window back to its normal placement; SC_MAXIMIZE remembers
      the current frame as the normal placement and marks the window
      maximized (the maximized frame itself is not modelled). Either is a
      no-op when the window is already in the requested state. */
  function SendSysCommand(w: Window, command: SysCommand): (r: Window)
    ensures r.maximized <==> command == ScMaximize
    ensures r.style == w.style && r.exStyle == w.exStyle && r.classStyle == w.classStyle
    ensures command == ScRestore && w.maximized ==> r.rect == w.normalRect
    ensures command == ScMaximize ==> r.rect == w.rect
    ensures r.maximized == w.maximized ==> r == w
  {
    match command
    case ScRestore =>
      if w.maximized then w.(maximized := false, rect := w.normalRect) else w
    case ScMaximize =>
      if w.maximized then w else w.(maximized := true, normalRect := w.rect)
  }

  function GetClassLong(w: Window): bv32
  {
    w.classStyle
  }

  /** `SetClassLong(GCL_STYLE)`: writes the class style and nothing else. */
  function SetClassLong(w: Window, value: bv32): (r: Window)
    ensures GetClassLong(r) == value
    ensures r.(classStyle := w.classStyle) == w
  {
    w.(classStyle := value)
  }
}
