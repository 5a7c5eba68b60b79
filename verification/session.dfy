/** A session of calls on one screen manager: any sequence of the modelled
    operations, applied in order from a freshly constructed manager. Used
    to state what holds across calls: the saved fields are never read
    before they are written, `IsFullScreen` reports the last request, and
    nothing recaptures the restore state while the window stays
    fullscreen. */
module Session {
  import opened Wrappers
  import opened Win32
  import opened ScreenManager
  import opened FullScreen

  datatype Op =
    | SetFullScreenOp(isFullScreen: bool, monitor: Rect)
    | SetTitleBarStyleOp(style: string)
    | SetAsFramelessOp
    | MaximizeOp
    | SetResizableOp(resizable: bool)
    | SetAlwaysOnTopOp(onTop: bool)
    | SetClosableOp(closable: bool)
    | SetBoundsOp(x: Option<int>, y: Option<int>, width: Option<int>, height: Option<int>)

  /** One call, as the code performs it (`SetBounds` with its flags as
      written). */
  function Step(m: Manager, op: Op): (r: Manager)
    requires Valid(m)
    ensures Valid(r)
  {
    match op
    case SetFullScreenOp(on, monitor) => SetFullScreen(m, on, monitor)
    case SetTitleBarStyleOp(style) => SetTitleBarStyle(m, style)
    case SetAsFramelessOp => SetAsFrameless(m)
    case MaximizeOp => Maximize(m)
    case SetResizableOp(resizable) => SetResizable(m, resizable)
    case SetAlwaysOnTopOp(onTop) => SetAlwaysOnTop(m, onTop)
    case SetClosableOp(closable) => SetClosable(m, closable)
    case SetBoundsOp(x, y, width, height) => SetBoundsAsWritten(m, x, y, width, height)
  }

  /** Applies `ops` in order. Every `SetFullScreen` along the way finds the
      saved fields written whenever it reads them. */
  function Run(m: Manager, ops: seq<Op>): (r: Manager)
    requires Valid(m)
    ensures Valid(r)
    decreases |ops|
  {
    if |ops| == 0 then m else Run(Step(m, ops[0]), ops[1..])
  }

  /** The mode requested by the last `SetFullScreen` in `ops`, or `current`
      when there is none. */
  function LastRequest(ops: seq<Op>, current: bool): bool
    decreases |ops|
  {
    if |ops| == 0 then current
    else LastRequest(ops[1..], if ops[0].SetFullScreenOp? then ops[0].isFullScreen else current)
  }

  lemma {:induction false} RunReportsLastRequest(m: Manager, ops: seq<Op>)
    requires Valid(m)
    ensures IsFullScreen(Run(m, ops)) == LastRequest(ops, IsFullScreen(m))
    decreases |ops|
  {
    if |ops| > 0 {
      RunReportsLastRequest(Step(m, ops[0]), ops[1..]);
    }
  }

  /** `IsFullScreen` is false on a new manager and then reports the last
      `SetFullScreen` of any session. */
  lemma SessionReportsLastRequest(w: Window, ops: seq<Op>)
    ensures IsFullScreen(Run(Init(w), ops)) == LastRequest(ops, false)
  {
    RunReportsLastRequest(Init(w), ops);
  }

  /** No operation other than `SetFullScreen(false)` leaves fullscreen. */
  predicate StaysFullScreen(ops: seq<Op>)
  {
    forall i :: 0 <= i < |ops| ==> !(ops[i].SetFullScreenOp? && !ops[i].isFullScreen)
  }

  /** While no call leaves fullscreen, the restore state captured on entry
      is kept: repeated `SetFullScreen(true)` and every other setter leave
      it alone. */
  lemma {:induction false} NoRecaptureWhileFullScreen(m: Manager, ops: seq<Op>)
    requires Valid(m) && m.isFullScreen
    requires StaysFullScreen(ops)
    ensures Run(m, ops).isFullScreen
    ensures Run(m, ops).saved == m.saved
    decreases |ops|
  {
    if |ops| > 0 {
      var m' := Step(m, ops[0]);
      assert !(ops[0].SetFullScreenOp? && !ops[0].isFullScreen);
      assert m'.isFullScreen && m'.saved == m.saved;
      assert StaysFullScreen(ops[1..]) by {
        forall i | 0 <= i < |ops[1..]|
          ensures !(ops[1..][i].SetFullScreenOp? && !ops[1..][i].isFullScreen)
        {
          assert ops[1..][i] == ops[i + 1];
        }
      }
      NoRecaptureWhileFullScreen(m', ops[1..]);
    }
  }

  /** Entering fullscreen, making any calls that do not leave it, and then
      leaving it restores the style words and title-bar style captured at
      the entry, which are those the window had before it. */
  lemma EnterAnythingExit(m: Manager, monitor: Rect, ops: seq<Op>, monitor': Rect)
    requires Valid(m) && !m.isFullScreen
    requires StaysFullScreen(ops)
    ensures var entered := SetFullScreen(m, true, monitor);
      var r := SetFullScreen(Run(entered, ops), false, monitor');
      && !IsFullScreen(r)
      && r.window.style == m.window.style && r.window.exStyle == m.window.exStyle
      && r.titleBarStyle == m.titleBarStyle
      && (m.isFrameless ==> r.isFrameless)
      && (m.window.maximized ==> r.window.maximized)
      && (!m.window.maximized ==> !r.window.maximized && r.window.rect == m.window.rect)
  {
    var entered := SetFullScreen(m, true, monitor);
    NoRecaptureWhileFullScreen(entered, ops);
  }
}
