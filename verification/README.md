# Screen manager of desktop_multi_window (Windows), modelled in Dafny

This project models the `ScreenManager` of the `desktop_multi_window`
plugin for Windows (`packages/desktop_multi_window/windows/screen_manager.cpp`).
Its one real piece of logic is the fullscreen toggle, `SetFullScreen`. It
saves the window's restore state when the window is not already
fullscreen. On entry it strips the caption and sizing border and covers
the nearest monitor. On exit it puts back what it saved. Around it sit the
small bit-flag setters and getters (resizable, always-on-top, closable),
the flag rule of `SetBounds`, and the list form of a rectangle sent over
the platform channel.

The native window is an immutable record (`Win32.Window`). It holds the
style and extended-style words, the class style, the current frame, the
normal placement a restore returns to, and the maximized flag. Each Win32
call becomes a pure function of that record:

- `SetWindowLong` writes a style word.
- `SetWindowPos` moves and/or resizes, honouring SWP_NOMOVE and SWP_NOSIZE.
- SC_RESTORE and SC_MAXIMIZE clear or set the maximized flag.
- SC_RESTORE also returns the frame to the normal placement.
- SC_MAXIMIZE records the current frame as the normal placement.

The manager (`ScreenManager.Manager`) adds `is_frameless_`,
`is_resizable_`, `is_skip_taskbar_`, `title_bar_style_`,
`g_is_window_fullscreen` and the saved fields. The saved fields are an
`Option`: five of the six are left uninitialised by the native
constructor, and the saved title-bar string starts empty; none is read
before it is written. `Valid` states that they have been written whenever
the manager believes it is fullscreen. `Init` establishes it and every operation keeps it. The
monitor lookup of `SetFullScreen` is a parameter: the full rectangle of the
monitor nearest the window. Flag values are those of the Windows SDK
header winuser.h.

Modules: `Wrappers` (Option), `Win32` (window record and API calls),
`ScreenManager` (manager record, setters, getters, `SetBounds`),
`FullScreen` (the transition), `Session` (sequences of calls) and
`Channel` (rectangle serialisation). `Session` applies every call as the
code performs it, including `SetBounds` with its flags as written; the
corrected `SetBounds` and the intended fullscreen exit of the Findings
section are stated beside the as-written members.

Four points where the code is easy to misread:

- The code restores a maximized window before reading its frame, so the
  saved frame is the normal placement, not the maximized frame.
- The code also captures on `SetFullScreen(false)` when the window is not
  fullscreen.
- On exit the code re-maximizes a window that was maximized. It does not
  move it to a saved frame.
- The code only re-applies the saved title-bar style when it differs from
  the current one. So on exit the frameless flag is
  `saved frameless || (current frameless && titles equal)`. After a direct
  enter/exit pair this equals the saved flag.

## Model

| member | source | states |
|---|---|---|
| ScreenManager.Init | packages/desktop_multi_window/windows/screen_manager.cpp:47-81 | A new manager is not fullscreen, has no restore state yet (and so satisfies `Valid`), is not frameless, is resizable, skips the taskbar and has the "normal" title bar |
| ScreenManager.IsFullScreen | packages/desktop_multi_window/windows/screen_manager.cpp:136-138 | Reports the manager's fullscreen flag; whenever it reports true on a valid manager, a restore state has been captured for the exit to read |
| ScreenManager.IsResizable | packages/desktop_multi_window/windows/screen_manager.cpp:281-283 | Reports the recorded resizable flag, not the WS_THICKFRAME bit of the style word |
| ScreenManager.IsAlwaysOnTop | packages/desktop_multi_window/windows/screen_manager.cpp:298-301 | True exactly when WS_EX_TOPMOST is set in the extended style |
| ScreenManager.IsClosable | packages/desktop_multi_window/windows/screen_manager.cpp:347-351 | True exactly when CS_NOCLOSE is clear in the class style |
| ScreenManager.SetTitleBarStyle | packages/desktop_multi_window/windows/screen_manager.cpp:310-325 | The title-bar style becomes the argument and frameless mode is left; the window's styles and frame are untouched, since the frame-change `SetWindowPos` carries SWP_NOMOVE and SWP_NOSIZE |
| ScreenManager.SetAsFrameless | packages/desktop_multi_window/windows/screen_manager.cpp:98-109 | Frameless mode is on; the window, title-bar style and every other field are unchanged |
| ScreenManager.Maximize | packages/desktop_multi_window/windows/screen_manager.cpp:116-134 | The non-vertical branch: afterwards the window is maximized; an already maximized window is left exactly as it was; styles and frame do not change |
| ScreenManager.SetResizable | packages/desktop_multi_window/windows/screen_manager.cpp:281-296 | `IsResizable` then returns the argument, WS_THICKFRAME is set iff it is true, every other style bit and every other field is unchanged |
| ScreenManager.SetAlwaysOnTop | packages/desktop_multi_window/windows/screen_manager.cpp:298-308 | `IsAlwaysOnTop` (WS_EX_TOPMOST set) then returns the argument; every other extended-style bit and field is unchanged |
| ScreenManager.SetClosable | packages/desktop_multi_window/windows/screen_manager.cpp:347-360 | `IsClosable` (CS_NOCLOSE clear) then returns the argument; only CS_NOCLOSE in the class style changes |
| ScreenManager.BoundsFlagsAsWritten | packages/desktop_multi_window/windows/screen_manager.cpp:256-276 | The flags as written: SWP_NOSIZE iff width or height is missing; SWP_NOMOVE iff x or y is missing and both extents are given; no other bit |
| ScreenManager.SetBoundsAsWritten | packages/desktop_multi_window/windows/screen_manager.cpp:245-279 | As written: moves to (x, y) when both are given; keeps the position when one is missing but a full size is given; moves to (0, 0) when neither a full position nor a full size is given; resizes iff both extents are given; only the frame changes |
| ScreenManager.BoundsFlags | packages/desktop_multi_window/windows/screen_manager.cpp:256-276 | The intended flags: SWP_NOMOVE iff x or y is missing, SWP_NOSIZE iff width or height is missing, and no other bit |
| ScreenManager.SetBounds | packages/desktop_multi_window/windows/screen_manager.cpp:245-279 | The window moves to (x, y) iff both are given and otherwise keeps its position; it takes the given size iff both extents are given and otherwise keeps its size; nothing but the frame changes |
| ScreenManager.BoundsAsWrittenMovesWithoutArguments | packages/desktop_multi_window/windows/screen_manager.cpp:271-278 | As written, a call with no x, y, width or height moves a window not at the origin to (0, 0), while the intended version leaves the frame alone |
| ScreenManager.BoundsAsWrittenAgreesOtherwise | packages/desktop_multi_window/windows/screen_manager.cpp:271-276 | As written and intended agree whenever a full position or a full size is given |
| FullScreen.StripChrome | packages/desktop_multi_window/windows/screen_manager.cpp:170-171 | The entry style word has WS_CAPTION and WS_THICKFRAME clear and every other bit of the saved style |
| FullScreen.StripExChrome | packages/desktop_multi_window/windows/screen_manager.cpp:172-175 | The entry extended style has the dialog-frame, window-edge, client-edge and static-edge bits clear and every other bit of the saved one |
| FullScreen.SaveState | packages/desktop_multi_window/windows/screen_manager.cpp:149-161 | The capture records the maximized flag, both style words, title-bar style, frameless flag, and the frame after un-maximizing (the normal placement of a maximized window); the window ends up not maximized and nothing else changes |
| FullScreen.EnterFullScreen | packages/desktop_multi_window/windows/screen_manager.cpp:163-186 | Entry: style = saved style without caption and sizing border, extended style = saved one without edge bits, frame = the monitor's full rectangle, maximized, title bar "normal", not frameless; saved state, class style and other flags kept |
| FullScreen.ExitFullScreen | packages/desktop_multi_window/windows/screen_manager.cpp:187-216 | Exit: both saved style words and the saved title-bar style come back verbatim; frameless iff it was saved frameless or was frameless with an unchanged title bar; a window saved maximized is maximized, any other is not maximized and sits exactly on the saved frame |
| FullScreen.ExitFullScreenIntended | packages/desktop_multi_window/windows/screen_manager.cpp:187-216 | The intended exit: the saved styles and title-bar style come back, the maximized flag is the saved one, a window saved maximized has the saved frame as its normal placement and any other sits on the saved frame |
| FullScreen.SetFullScreen | packages/desktop_multi_window/windows/screen_manager.cpp:136-219 | Keeps `Valid`; `IsFullScreen` then returns the argument; the saved state is recaptured (as `Snapshot`) exactly when the manager was not fullscreen and kept otherwise; the entry or exit result as above is measured against that saved state |
| FullScreen.NoRecapture | packages/desktop_multi_window/windows/screen_manager.cpp:149-161 | A second `SetFullScreen(true)` leaves every saved field unchanged |
| FullScreen.EnterIdempotent | packages/desktop_multi_window/windows/screen_manager.cpp:149-186 | Entering fullscreen twice on the same monitor gives exactly the state of entering once |
| FullScreen.FirstCallCaptures | packages/desktop_multi_window/windows/screen_manager.cpp:75-161 | The first `SetFullScreen` on a new manager, whatever its argument, captures the restore state before it is read |
| FullScreen.RoundTrip | packages/desktop_multi_window/windows/screen_manager.cpp:140-219 | Entering then leaving fullscreen restores style, extended style, class style, title-bar style, frameless flag and maximized flag exactly, and the frame of a window that was not maximized |
| FullScreen.MaximizedRoundTripLosesPlacement | packages/desktop_multi_window/windows/screen_manager.cpp:152-158 | For a window maximized before entry, the saved frame is its normal placement, yet after entering and leaving fullscreen it is maximized with the monitor's rectangle as its normal placement (under the flag abstraction of the maximized state; see Findings) |
| FullScreen.RoundTripIntended | packages/desktop_multi_window/windows/screen_manager.cpp:150-216 | With the intended exit a round trip restores styles, title-bar style, frameless and maximized flags, and the normal placement of a maximized window or the frame of any other |
| FullScreen.ExitWhileWindowed | packages/desktop_multi_window/windows/screen_manager.cpp:149-216 | `SetFullScreen(false)` on a window that is not fullscreen keeps its styles, title-bar style, frameless and maximized flags, and the frame of a window that is not maximized |
| FullScreen.FullScreenKeepsResizableFlag | packages/desktop_multi_window/windows/screen_manager.cpp:163-175 | After entering fullscreen, `IsResizable` still reports the old flag although WS_THICKFRAME is clear |
| Session.Run | packages/desktop_multi_window/windows/screen_manager.cpp:75-161 | Any sequence of modelled calls from a valid manager keeps `Valid`: the saved fields are always written before `SetFullScreen` reads them |
| Session.RunReportsLastRequest | packages/desktop_multi_window/windows/screen_manager.cpp:136-219 | After any sequence of calls `IsFullScreen` returns the argument of the last `SetFullScreen` among them, or its earlier value if there is none |
| Session.SessionReportsLastRequest | packages/desktop_multi_window/windows/screen_manager.cpp:75-138 | From a new manager, `IsFullScreen` is false until the first `SetFullScreen` and then reports the last request |
| Session.NoRecaptureWhileFullScreen | packages/desktop_multi_window/windows/screen_manager.cpp:149-161 | While no call asks to leave fullscreen, the manager stays fullscreen and the saved restore state is never recaptured |
| Session.EnterAnythingExit | packages/desktop_multi_window/windows/screen_manager.cpp:149-216 | Enter, any calls that stay fullscreen, then exit: style words, title-bar style and maximized state (or frame) of the window before entry come back, and a frameless window is frameless again |
| Channel.RectToList | packages/desktop_multi_window/windows/screen_manager.cpp:362-372 | The list has four numbers: the origin, then the extent that reaches right and bottom from it |
| Channel.RectListRoundTrip | packages/desktop_multi_window/windows/screen_manager.cpp:362-372 | Reading the list back as origin plus extent gives the rectangle again |
| Channel.ListRectRoundTrip | packages/desktop_multi_window/windows/screen_manager.cpp:362-372 | Every four-number list is the serialisation of the rectangle read from it |

## Left out

- The method dispatch in desktop_multi_window_plugin.cpp: it forwards method names to the manager and packs replies. It has no logic of its own.
- Flutter `EncodableValue` marshalling: arguments are plain typed parameters, and a missing `SetBounds` value is an `Option`.
- `GetBounds` and the DPI scaling in `SetBounds` (lines 221-243 and 262-269): they are floating-point. `SetBounds` takes coordinates already in device pixels.
- `GetPlatformChannelRepresentationForMonitor` and `GetAttachedScreenList` (lines 374-410): the scale factor is floating point and monitor enumeration is a system callback.
- The vertical branch of `Maximize` (lines 124-128): it depends on the cursor position and a synthetic non-client double-click.
- `SetSkipTaskbar`, `WaitUntilReadyToShow` and `Destroy`: they are COM taskbar calls and `PostQuitMessage`, with no window state to model.
- `DwmExtendFrameIntoClientArea` in `SetTitleBarStyle`: the compositor's frame margins are not part of the window record.
- The z-order arguments of `SetWindowPos` (HWND_TOP, SWP_NOZORDER, SWP_NOACTIVATE): z-order and activation are not modelled. `SetAlwaysOnTop` is modelled by its documented effect on WS_EX_TOPMOST.
- Asynchrony: the posted SC_MAXIMIZE of `Maximize` is applied at once, and every Win32 call is assumed to succeed.
- 32-bit coordinate overflow: rectangle coordinates are unbounded integers.
- FullScreen.RoundTrip: says nothing about the frame of a window that was maximized before entry, because the frame a maximized window occupies is not modelled. What happens to its normal placement is stated by FullScreen.MaximizedRoundTripLosesPlacement and is listed under Findings.
- ScreenManager.Maximize: the maximized state is a flag of its own, not the WS_MAXIMIZE bit of the style word that `IsZoomed` reads. So the model cannot express that the style saved at line 153, before the SC_RESTORE at line 156, still carries WS_MAXIMIZE, nor that entry writes that bit back onto an already restored window (lines 170-171). SC_MAXIMIZE also keeps the frame, because the maximized frame is not modelled. This is why Maximize keeps styles and frame, and why the frame after entry is exactly the monitor's rectangle.
- FullScreen.ExitWhileWindowed: says nothing about the frame of a maximized window, for the same reason.

## Findings

| source | as written | input that shows it | evidently intended | confidence | as-written member | corrected member |
|---|---|---|---|---|---|---|
| packages/desktop_multi_window/windows/screen_manager.cpp:271-276 | The second test assigns `uFlags = SWP_NOSIZE`, replacing an SWP_NOMOVE set just before | `SetBounds` with only the device pixel ratio: the flags are SWP_NOSIZE alone, so `SetWindowPos` moves the window to (0, 0) | Combine the flags (`uFlags \|= ...`), so that a call without position and size neither moves nor resizes | medium, not executed | ScreenManager.BoundsAsWrittenMovesWithoutArguments | ScreenManager.SetBounds |
| packages/desktop_multi_window/windows/screen_manager.cpp:203-215 | A window maximized before entry is re-maximized directly, and the saved frame (its normal placement, read at line 158) is never used | Enter and leave fullscreen with a maximized window on a monitor other than its normal placement: in the model, where the maximized state is a flag apart from WS_MAXIMIZE, the normal placement afterwards is the monitor's rectangle, so un-maximizing leaves the window covering the whole monitor | Move to the saved frame first and then maximize, as the Chromium fullscreen handler the code cites does, so the normal placement survives | low, not executed; holds only under the flag abstraction of `SendSysCommand`: the style saved at line 153 still carries WS_MAXIMIZE and entry writes it back at line 170, so Windows may treat the window as maximized and keep its old normal placement | FullScreen.MaximizedRoundTripLosesPlacement | FullScreen.RoundTripIntended |
