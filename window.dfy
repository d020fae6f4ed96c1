/**
 * The flag machine of the overlay window (`WindowRunner`): whether the UI is
 * shown, whether mouse input passes through the window to what lies beneath
 * it, whether the Steam overlay is open, whether the cursor is hidden, and
 * which keyboard and mouse events are forwarded to the SDL thread for
 * keyboard-and-mouse emulation. Rendering, window attributes and cursor
 * grabbing belong to winit and are not modelled; what winit reports back
 * (whether the window is visible, whether egui consumed an event) arrives
 * as a parameter.
 */
module Window {
  import opened Wrappers

  datatype MouseButton = Left | Middle | Right | Back | Forward | Other(n: nat)

  /** `map_mouse_button`: the SDL button number, or None when it does not fit a byte. */
  function MapMouseButton(b: MouseButton): (r: Option<nat>)
    ensures r.Some? ==> r.value < 256
    ensures b.Other? ==> (r.Some? <==> b.n < 256) && (r.Some? ==> r.value == b.n)
    ensures !b.Other? ==> r.Some? && 1 <= r.value <= 5
  {
    match b
    case Left => Some(1)
    case Middle => Some(2)
    case Right => Some(3)
    case Back => Some(4)
    case Forward => Some(5)
    case Other(n) => if n < 256 then Some(n) else None
  }

  /** The five named buttons get five different numbers. */
  lemma NamedButtonsDistinct(a: MouseButton, b: MouseButton)
    requires !a.Other? && !b.Other? && a != b
    ensures MapMouseButton(a) != MapMouseButton(b)
  {
  }

  /** Events pushed to the SDL thread; wheel and motion deltas are floats and are not kept. */
  datatype KbmEvent = KbmReleaseAll | KbmKey(scancode: nat, down: bool) | KbmButton(button: nat, down: bool) | KbmWheel | KbmMotion

  datatype Modifiers = Modifiers(ctrl: bool, shift: bool, alt: bool)

  /**
   * The flags that decide passthrough: whether the window exists, the
   * fullscreen setting, the shared `kbm_emulation_enabled`, `ui_visible`,
   * `passthrough_active` and `overlay_open`.
   */
  datatype Flags = Flags(hasWindow: bool, fullscreen: bool, kbm: bool, uiVisible: bool, passthrough: bool, overlayOpen: bool)

  /**
   * What the runner shows the rest of the program: the shared mirrors of
   * `ui_visible` and of the window's visibility, whether the window was
   * visible when the last dialog was pushed, and whether the cursor is hidden.
   */
  datatype Shown = Shown(uiShared: bool, windowShared: bool, preDialogVisible: bool, cursorHidden: bool)

  /** Passthrough is only ever on with a window and a closed overlay. */
  predicate PassthroughSafe(f: Flags)
  {
    f.passthrough ==> f.hasWindow && !f.overlayOpen
  }

  /**
   * The initial flags of `WindowRunner::new`: no window, no passthrough, no
   * overlay; the UI starts hidden when fullscreen (the default) and
   * otherwise exactly when kbm emulation is off.
   */
  function Initial(fullscreen: Option<bool>, kbm: bool): (f: Flags)
    ensures f.fullscreen == fullscreen.GetOr(true) && f.kbm == kbm
    ensures f.uiVisible <==> !fullscreen.GetOr(true) && !kbm
    ensures !f.hasWindow && !f.passthrough && !f.overlayOpen
    ensures PassthroughSafe(f)
  {
    var fs := fullscreen.GetOr(true);
    Flags(false, fs, kbm, if fs then false else !kbm, false, false)
  }

  /**
   * `set_passthrough`: without a window nothing happens; otherwise
   * passthrough becomes `enable && !overlay_open`. Nothing else changes.
   */
  function PassthroughAfter(f: Flags, enable: bool): (r: Flags)
    ensures !f.hasWindow ==> r == f
    ensures f.hasWindow ==> (r.passthrough <==> enable && !f.overlayOpen)
    ensures r == f.(passthrough := r.passthrough)
    ensures PassthroughSafe(f) ==> PassthroughSafe(r)
  {
    f.(passthrough := if f.hasWindow then enable && !f.overlayOpen else f.passthrough)
  }

  /**
   * The `set_cursor_hittest` call a step made: one with `!passthrough`
   * exactly when passthrough changed (each step calls `set_passthrough` at
   * most once, and only it changes passthrough).
   */
  function HitTestCall(before: bool, after: bool): (r: seq<bool>)
    ensures r == [] <==> before == after
    ensures r != [] ==> r == [!after]
  {
    if before == after then [] else [!after]
  }

  /** The window hit-tests exactly when passthrough is off: the last value set, or on by default. */
  predicate HitTestAgrees(calls: seq<bool>, passthrough: bool)
  {
    if |calls| == 0 then !passthrough else calls[|calls| - 1] == !passthrough
  }

  /** Recording the call a step made keeps the window's hit-testing in agreement with passthrough. */
  lemma HitTestCallKeepsAgreement(calls: seq<bool>, before: bool, after: bool)
    requires HitTestAgrees(calls, before)
    ensures HitTestAgrees(calls + HitTestCall(before, after), after)
  {
  }

  /** The passthrough wanted when nothing is in front: fullscreen, UI hidden, no kbm emulation. */
  function RestingPassthrough(f: Flags): bool
  {
    f.fullscreen && !f.uiVisible && !f.kbm
  }

  /** `resumed`: creates the window once, then settles passthrough. */
  function ResumedStep(f: Flags): (r: Flags)
    ensures f.hasWindow ==> r == f
    ensures r.hasWindow
    ensures !f.hasWindow ==> (r.passthrough <==> RestingPassthrough(f) && !f.overlayOpen)
    ensures PassthroughSafe(f) ==> PassthroughSafe(r)
  {
    if f.hasWindow then f
    else f.(hasWindow := true, passthrough := RestingPassthrough(f) && !f.overlayOpen)
  }

  /**
   * The events of the window's own loop. `visible` is what winit answers
   * for `is_visible` when the event is handled.
   */
  datatype RunnerEvent =
    | Quit
    | Redraw
    | ShowWindow
    | HideWindow
    | DialogPushed(visible: Option<bool>)
    | DialogPopped
    | ToggleUi
    | EnterCaptureMode
    | SetKbmCursorGrab(enabled: bool, visible: Option<bool>)
    | OverlayStateChanged(open: bool)

  /**
   * `ToggleUi` with a window flips the UI. Hiding it asks for passthrough
   * when fullscreen without kbm emulation; showing it forces passthrough off.
   */
  function ToggleUiStep(f: Flags): (r: Flags)
    ensures !f.hasWindow ==> r == f
    ensures f.hasWindow ==> r.uiVisible == !f.uiVisible
    ensures f.hasWindow && f.uiVisible ==> (r.passthrough <==> f.fullscreen && !f.kbm && !f.overlayOpen)
    ensures f.hasWindow && !f.uiVisible ==> !r.passthrough
    ensures PassthroughSafe(f) ==> PassthroughSafe(r)
  {
    if !f.hasWindow then f
    else f.(uiVisible := !f.uiVisible, passthrough := f.uiVisible && f.fullscreen && !f.kbm && !f.overlayOpen)
  }

  /**
   * `SetKbmCursorGrab`: the kbm flag is stored first; with a window that is
   * not reported hidden, passthrough is recomputed from it.
   */
  function KbmGrabStep(f: Flags, enabled: bool, visible: Option<bool>): (r: Flags)
    ensures r.kbm == enabled
    ensures !f.hasWindow || visible == Some(false) ==> r == f.(kbm := enabled)
    ensures f.hasWindow && visible != Some(false) ==> (r.passthrough <==> f.fullscreen && !f.uiVisible && !enabled && !f.overlayOpen)
    ensures PassthroughSafe(f) ==> PassthroughSafe(r)
  {
    var acts := f.hasWindow && visible != Some(false);
    f.(kbm := enabled,
       passthrough := if acts then f.fullscreen && !f.uiVisible && !enabled && !f.overlayOpen else f.passthrough)
  }

  /** `OverlayStateChanged`: an open overlay forces passthrough off; closing restores the resting value. */
  function OverlayStep(f: Flags, open: bool): (r: Flags)
    ensures r.overlayOpen == open
    ensures f.hasWindow && open ==> !r.passthrough
    ensures f.hasWindow && !open ==> (r.passthrough <==> RestingPassthrough(f))
    ensures !f.hasWindow ==> r.passthrough == f.passthrough
    ensures PassthroughSafe(f) ==> PassthroughSafe(r)
  {
    f.(overlayOpen := open, passthrough := if f.hasWindow then !open && RestingPassthrough(f) else f.passthrough)
  }

  /** `EnterCaptureMode`: hides the UI and asks for passthrough when fullscreen without kbm emulation. */
  function CaptureStep(f: Flags): (r: Flags)
    ensures !f.hasWindow ==> r == f
    ensures f.hasWindow ==> !r.uiVisible
    ensures f.hasWindow ==> (r.passthrough <==> f.fullscreen && !f.kbm && !f.overlayOpen)
    ensures PassthroughSafe(f) ==> PassthroughSafe(r)
  {
    if !f.hasWindow then f
    else f.(uiVisible := false, passthrough := f.fullscreen && !f.kbm && !f.overlayOpen)
  }

  /** `user_event` on the passthrough flags. */
  function UserEventStep(f: Flags, e: RunnerEvent): (r: Flags)
    ensures r.hasWindow == f.hasWindow && r.fullscreen == f.fullscreen
    ensures e.OverlayStateChanged? && e.open && f.hasWindow ==> !r.passthrough
    ensures PassthroughSafe(f) ==> PassthroughSafe(r)
  {
    match e
    case Quit => f
    case Redraw => f
    case ShowWindow => f
    case HideWindow => f
    case DialogPushed(_) => PassthroughAfter(f, false)
    case DialogPopped => PassthroughAfter(f, RestingPassthrough(f))
    case ToggleUi => ToggleUiStep(f)
    case EnterCaptureMode => CaptureStep(f)
    case SetKbmCursorGrab(enabled, visible) => KbmGrabStep(f, enabled, visible)
    case OverlayStateChanged(open) => OverlayStep(f, open)
  }

  /**
   * `ShowWindow`: with a window, the window becomes visible and
   * `update_cursor_visibility` hides the cursor iff the UI is hidden and
   * kbm emulation is on.
   */
  function ShowShown(f: Flags, s: Shown): (r: Shown)
    ensures !f.hasWindow ==> r == s
    ensures f.hasWindow ==> r.windowShared && (r.cursorHidden <==> Capturing(f))
    ensures r.uiShared == s.uiShared && r.preDialogVisible == s.preDialogVisible
  {
    if f.hasWindow then s.(windowShared := true, cursorHidden := !f.uiVisible && f.kbm) else s
  }

  /** `HideWindow`: with a window, the window is hidden and the cursor shown again. */
  function HideShown(f: Flags, s: Shown): (r: Shown)
    ensures !f.hasWindow ==> r == s
    ensures f.hasWindow ==> !r.windowShared && !r.cursorHidden
    ensures r.uiShared == s.uiShared && r.preDialogVisible == s.preDialogVisible
  {
    if f.hasWindow then s.(windowShared := false, cursorHidden := false) else s
  }

  /** `DialogPushed` remembers whether the window was visible; no window counts as hidden. */
  function DialogPushedShown(f: Flags, s: Shown, visible: Option<bool>): (r: Shown)
    ensures r.preDialogVisible <==> f.hasWindow && visible == Some(true)
    ensures r.uiShared == s.uiShared && r.windowShared == s.windowShared && r.cursorHidden == s.cursorHidden
  {
    s.(preDialogVisible := f.hasWindow && visible.GetOr(false))
  }

  /**
   * `ToggleUi` with a window: the shared mirror follows the new
   * `ui_visible`, the cursor is hidden iff the new UI is hidden under kbm
   * emulation, and the window follows the UI (hidden only when fullscreen)
   * unless it was already visible before a dialog.
   */
  function ToggleShown(f: Flags, s: Shown): (r: Shown)
    ensures !f.hasWindow ==> r == s
    ensures f.hasWindow ==> r.uiShared == !f.uiVisible
    ensures f.hasWindow ==> (r.cursorHidden <==> f.uiVisible && f.kbm)
    ensures f.hasWindow && !f.uiVisible && !s.preDialogVisible ==> r.windowShared
    ensures f.hasWindow && f.uiVisible && f.fullscreen && !s.preDialogVisible ==> !r.windowShared
    ensures s.preDialogVisible || (f.uiVisible && !f.fullscreen) ==> r.windowShared == s.windowShared
    ensures r.preDialogVisible == s.preDialogVisible
  {
    if !f.hasWindow then s
    else
      s.(uiShared := !f.uiVisible,
         cursorHidden := f.uiVisible && f.kbm,
         windowShared := if s.preDialogVisible || (f.uiVisible && !f.fullscreen) then s.windowShared else !f.uiVisible)
  }

  /** `EnterCaptureMode` with a window hides the UI, so the cursor is hidden iff kbm emulation is on. */
  function CaptureShown(f: Flags, s: Shown): (r: Shown)
    ensures !f.hasWindow ==> r == s
    ensures f.hasWindow ==> r.cursorHidden == f.kbm
    ensures r.uiShared == s.uiShared && r.windowShared == s.windowShared && r.preDialogVisible == s.preDialogVisible
  {
    if f.hasWindow then s.(cursorHidden := f.kbm) else s
  }

  /**
   * `SetKbmCursorGrab` with a window not reported hidden and the UI hidden:
   * the cursor is hidden iff kbm emulation is now on.
   */
  function KbmGrabShown(f: Flags, s: Shown, enabled: bool, visible: Option<bool>): (r: Shown)
    ensures f.hasWindow && visible != Some(false) && !f.uiVisible ==> r.cursorHidden == enabled
    ensures !(f.hasWindow && visible != Some(false) && !f.uiVisible) ==> r == s
    ensures r.uiShared == s.uiShared && r.windowShared == s.windowShared && r.preDialogVisible == s.preDialogVisible
  {
    if f.hasWindow && visible != Some(false) && !f.uiVisible then s.(cursorHidden := enabled) else s
  }

  /** `user_event` on what the runner shows, given the flags before the event. */
  function UserShownStep(f: Flags, s: Shown, e: RunnerEvent): (r: Shown)
    ensures !f.hasWindow && !e.DialogPushed? ==> r == s
    ensures e.Quit? || e.Redraw? || e.DialogPopped? || e.OverlayStateChanged? ==> r == s
  {
    match e
    case Quit => s
    case Redraw => s
    case ShowWindow => ShowShown(f, s)
    case HideWindow => HideShown(f, s)
    case DialogPushed(visible) => DialogPushedShown(f, s, visible)
    case DialogPopped => s
    case ToggleUi => ToggleShown(f, s)
    case EnterCaptureMode => CaptureShown(f, s)
    case SetKbmCursorGrab(enabled, visible) => KbmGrabShown(f, s, enabled, visible)
    case OverlayStateChanged(_) => s
  }

  /** `user_event` pushes to the SDL thread only when `ToggleUi` shows the UI: a release of every held input. */
  function UserEventSent(f: Flags, e: RunnerEvent): (r: seq<KbmEvent>)
    ensures r == [] || r == [KbmReleaseAll]
    ensures r == [KbmReleaseAll] <==> e.ToggleUi? && f.hasWindow && !f.uiVisible
  {
    if e.ToggleUi? && f.hasWindow && !f.uiVisible then [KbmReleaseAll] else []
  }

  /** The flags after a sequence of user events. */
  function UserEvents(f: Flags, es: seq<RunnerEvent>): Flags
    decreases |es|
  {
    if |es| == 0 then f else UserEvents(UserEventStep(f, es[0]), es[1..])
  }

  /** However the user events arrive, passthrough never coexists with an open overlay or a missing window. */
  lemma {:induction false} UserEventsKeepPassthroughSafe(f: Flags, es: seq<RunnerEvent>)
    requires PassthroughSafe(f)
    ensures PassthroughSafe(UserEvents(f, es))
    decreases |es|
  {
    if |es| > 0 {
      UserEventsKeepPassthroughSafe(UserEventStep(f, es[0]), es[1..]);
    }
  }

  /**
   * Window input that reaches the forwarding code. `isS` says the physical
   * key is S, `scancode` is the SDL scancode the key maps to, `nonzero`
   * that the wheel moved.
   */
  datatype WindowInput =
    | ModifiersChanged(mods: Modifiers)
    | KeyInput(isS: bool, down: bool, scancode: Option<nat>)
    | MouseInput(button: MouseButton, down: bool)
    | MouseWheel(nonzero: bool)

  /** A pressed S with Ctrl, Shift and Alt held toggles the UI instead of being forwarded. */
  predicate IsToggleChord(m: Modifiers, e: WindowInput)
  {
    e.KeyInput? && e.down && e.isS && m.ctrl && m.shift && m.alt
  }

  /** Whether `capture_forward` holds: the UI is hidden and kbm emulation is on. */
  predicate Capturing(f: Flags)
  {
    !f.uiVisible && f.kbm
  }

  /** The event an input is forwarded as, when it is forwarded at all. */
  function Forwarded(e: WindowInput): Option<KbmEvent>
  {
    match e
    case ModifiersChanged(_) => None
    case KeyInput(_, down, scancode) => if scancode.Some? then Some(KbmKey(scancode.value, down)) else None
    case MouseInput(b, down) => if MapMouseButton(b).Some? then Some(KbmButton(MapMouseButton(b).value, down)) else None
    case MouseWheel(nonzero) => if nonzero then Some(KbmWheel) else None
  }

  /** Whether the input reaches the code after egui: egui sees it first while the UI or a dialog is shown. */
  predicate Heard(f: Flags, dialogShown: bool, consumed: bool)
  {
    !(f.hasWindow && (f.uiVisible || dialogShown) && consumed)
  }

  /**
   * `window_event` for input, flags: the toggle chord flips the UI when
   * there is a window, without touching passthrough, the cursor or the
   * shared mirror.
   */
  function WindowEventFlags(f: Flags, m: Modifiers, e: WindowInput, dialogShown: bool, consumed: bool): (r: Flags)
    ensures r.hasWindow == f.hasWindow && r.fullscreen == f.fullscreen && r.kbm == f.kbm
    ensures r.passthrough == f.passthrough && r.overlayOpen == f.overlayOpen
    ensures r.uiVisible != f.uiVisible <==> Heard(f, dialogShown, consumed) && IsToggleChord(m, e) && f.hasWindow
  {
    f.(uiVisible := if Heard(f, dialogShown, consumed) && IsToggleChord(m, e) && f.hasWindow then !f.uiVisible else f.uiVisible)
  }

  /**
   * `window_event` for input, what is pushed to the SDL thread: the toggle
   * chord releases held inputs when it shows the UI; key, button and wheel
   * events are forwarded only while capturing.
   */
  function WindowEventSent(f: Flags, m: Modifiers, e: WindowInput, dialogShown: bool, consumed: bool): (r: seq<KbmEvent>)
    ensures |r| <= 1
    ensures !Heard(f, dialogShown, consumed) || e.ModifiersChanged? ==> r == []
    ensures r != [] && !IsToggleChord(m, e) ==> Capturing(f)
    ensures IsToggleChord(m, e) ==> r == [] || r == [KbmReleaseAll]
  {
    if !Heard(f, dialogShown, consumed) then []
    else if IsToggleChord(m, e) then
      if f.hasWindow && !f.uiVisible then [KbmReleaseAll] else []
    else if Capturing(f) && Forwarded(e).Some? then [Forwarded(e).value]
    else []
  }

  /** While capturing with no dialog consuming input, every forwardable input is forwarded, once. */
  lemma ForwardedWhileCapturing(f: Flags, m: Modifiers, e: WindowInput, dialogShown: bool, consumed: bool)
    requires Capturing(f) && !(dialogShown && consumed) && !IsToggleChord(m, e)
    requires Forwarded(e).Some?
    ensures WindowEventSent(f, m, e, dialogShown, consumed) == [Forwarded(e).value]
  {
  }

  /** The toggle chord with a window and no egui consumption flips the UI, releasing inputs when it shows. */
  lemma ToggleChordFlipsUi(f: Flags, m: Modifiers, e: WindowInput, dialogShown: bool, consumed: bool)
    requires IsToggleChord(m, e) && f.hasWindow && Heard(f, dialogShown, consumed)
    ensures WindowEventFlags(f, m, e, dialogShown, consumed).uiVisible == !f.uiVisible
    ensures WindowEventSent(f, m, e, dialogShown, consumed) == if f.uiVisible then [] else [KbmReleaseAll]
  {
  }

  /** `device_event`: raw mouse motion is forwarded only while capturing, and only when it moved. */
  function DeviceEventSent(f: Flags, nonzero: bool): (r: seq<KbmEvent>)
    ensures r == [] || r == [KbmMotion]
    ensures r == [KbmMotion] <==> Capturing(f) && nonzero
  {
    if f.uiVisible then []
    else if !f.kbm then []
    else if nonzero then [KbmMotion]
    else []
  }

  /**
   * The window runner. Its passthrough flags and its shown state are kept
   * as the two records above; `fullscreen` never changes after `new`.
   */
  class WindowRunner {
    var flags: Flags
    var shown: Shown
    var mods: Modifiers
    var quit: bool
    /** The arguments of every `set_cursor_hittest` call, oldest first. */
    var hittest: seq<bool>
    /** Whether the shared `sdl_waker` slot holds the SDL thread's sender. */
    var sdlSender: bool
    /** Every event pushed to the SDL thread, oldest first. */
    var sent: seq<KbmEvent>

    /** `try_push_kbm_event` on each of `evs`: without a sender every push is dropped. */
    function Pushed(evs: seq<KbmEvent>): seq<KbmEvent>
      reads this
    {
      if sdlSender then evs else []
    }

    /** Passthrough is off without a window or with the overlay open, and hit-testing agrees with it. */
    predicate Valid()
      reads this
    {
      PassthroughSafe(flags) && HitTestAgrees(hittest, flags.passthrough)
    }

    /**
     * `WindowRunner::new`, given the window configuration, the kbm flag and
     * the shared mirrors handed in by the caller.
     */
    constructor (cfgFullscreen: Option<bool>, create: Option<bool>, kbmEnabled: bool, uiMirror: bool, windowMirror: bool, senderSet: bool)
      ensures sdlSender == senderSet
      ensures flags == Initial(cfgFullscreen, kbmEnabled)
      ensures shown == Shown(uiMirror, windowMirror, create.GetOr(false), false)
      ensures mods == Modifiers(false, false, false) && !quit && hittest == [] && sent == []
      ensures Valid()
    {
      var fs := cfgFullscreen.GetOr(true);
      flags := Flags(false, fs, kbmEnabled, if fs then false else !kbmEnabled, false, false);
      shown := Shown(uiMirror, windowMirror, create.GetOr(false), false);
      mods := Modifiers(false, false, false);
      quit := false;
      hittest := [];
      sdlSender := senderSet;
      sent := [];
    }

    /** The SDL thread storing its sender in the shared `sdl_waker` slot. */
    method InstallSdlSender()
      modifies this`sdlSender
      ensures sdlSender
    {
      sdlSender := true;
    }

    /** `try_push_kbm_event`: the event reaches the SDL thread only when a sender is installed. */
    method TryPush(ev: KbmEvent)
      modifies this`sent
      ensures sent == old(sent) + Pushed([ev])
    {
      if sdlSender {
        sent := sent + [ev];
      }
    }

    /** `set_passthrough`. */
    method SetPassthrough(enable: bool)
      modifies this`flags, this`hittest
      ensures flags == PassthroughAfter(old(flags), enable)
      ensures hittest == old(hittest) + HitTestCall(old(flags).passthrough, flags.passthrough)
    {
      if !flags.hasWindow {
        return;
      }
      var on := enable && !flags.overlayOpen;
      if flags.passthrough == on {
        return;
      }
      flags := flags.(passthrough := on);
      hittest := hittest + [!on];
    }

    /** `update_cursor_visibility`. */
    method UpdateCursorVisibility()
      modifies this`shown
      ensures shown == old(shown).(cursorHidden := Capturing(flags))
    {
      var hidden := !flags.uiVisible && flags.kbm;
      shown := shown.(cursorHidden := hidden);
    }

    /** The flag part of `resumed`. */
    method Resumed()
      requires Valid()
      modifies this`flags, this`hittest, this`shown
      ensures flags == ResumedStep(old(flags))
      ensures shown == if old(flags).hasWindow then old(shown) else old(shown).(cursorHidden := Capturing(flags))
      ensures hittest == old(hittest) + HitTestCall(old(flags).passthrough, flags.passthrough)
      ensures Valid()
    {
      if flags.hasWindow {
        return;
      }
      flags := flags.(hasWindow := true);
      SetPassthrough(flags.fullscreen && !flags.uiVisible && !flags.kbm);
      UpdateCursorVisibility();
    }

    /** The `ShowWindow` arm of `user_event`. */
    method ShowWindow()
      modifies this`shown
      ensures shown == ShowShown(flags, old(shown))
    {
      if flags.hasWindow {
        UpdateCursorVisibility();
        shown := shown.(windowShared := true);
      }
    }

    /** The `HideWindow` arm of `user_event`. */
    method HideWindow()
      modifies this`shown
      ensures shown == HideShown(flags, old(shown))
    {
      if flags.hasWindow {
        shown := shown.(cursorHidden := false, windowShared := false);
      }
    }

    /** The `DialogPushed` arm of `user_event`. */
    method DialogPushed(visible: Option<bool>)
      modifies this`flags, this`hittest, this`shown
      ensures flags == PassthroughAfter(old(flags), false)
      ensures shown == DialogPushedShown(old(flags), old(shown), visible)
      ensures hittest == old(hittest) + HitTestCall(old(flags).passthrough, flags.passthrough)
    {
      SetPassthrough(false);
      var wasVisible := flags.hasWindow && visible.GetOr(false);
      shown := shown.(preDialogVisible := wasVisible);
    }

    /** The hiding half of the `ToggleUi` arm. */
    method HideUi()
      requires flags.hasWindow && flags.uiVisible
      modifies this`flags, this`hittest, this`shown
      ensures flags == ToggleUiStep(old(flags))
      ensures shown == ToggleShown(old(flags), old(shown))
      ensures hittest == old(hittest) + HitTestCall(old(flags).passthrough, flags.passthrough)
    {
      flags := flags.(uiVisible := false);
      shown := shown.(uiShared := false);
      SetPassthrough(flags.fullscreen && !flags.kbm);
      UpdateCursorVisibility();
      if flags.fullscreen && !shown.preDialogVisible {
        shown := shown.(windowShared := false);
      }
    }

    /** The showing half of the `ToggleUi` arm. */
    method ShowUi()
      requires flags.hasWindow && !flags.uiVisible
      modifies this`flags, this`hittest, this`shown, this`sent
      ensures flags == ToggleUiStep(old(flags))
      ensures shown == ToggleShown(old(flags), old(shown))
      ensures sent == old(sent) + Pushed([KbmReleaseAll])
      ensures hittest == old(hittest) + HitTestCall(old(flags).passthrough, flags.passthrough)
    {
      flags := flags.(uiVisible := true);
      shown := shown.(uiShared := true);
      SetPassthrough(false);
      TryPush(KbmReleaseAll);
      UpdateCursorVisibility();
      if !shown.preDialogVisible {
        shown := shown.(windowShared := true);
      }
    }

    /** The `ToggleUi` arm of `user_event`. */
    method ToggleUi()
      modifies this`flags, this`hittest, this`shown, this`sent
      ensures flags == ToggleUiStep(old(flags))
      ensures shown == ToggleShown(old(flags), old(shown))
      ensures sent == old(sent) + Pushed(UserEventSent(old(flags), RunnerEvent.ToggleUi))
      ensures hittest == old(hittest) + HitTestCall(old(flags).passthrough, flags.passthrough)
    {
      if !flags.hasWindow {
        return;
      }
      if flags.uiVisible {
        HideUi();
      } else {
        ShowUi();
      }
    }

    /** The `EnterCaptureMode` arm of `user_event`. */
    method EnterCaptureMode()
      modifies this`flags, this`hittest, this`shown
      ensures flags == CaptureStep(old(flags))
      ensures shown == CaptureShown(old(flags), old(shown))
      ensures hittest == old(hittest) + HitTestCall(old(flags).passthrough, flags.passthrough)
    {
      if flags.hasWindow {
        flags := flags.(uiVisible := false);
        SetPassthrough(flags.fullscreen && !flags.kbm);
        UpdateCursorVisibility();
      }
    }

    /** The `SetKbmCursorGrab` arm of `user_event`. */
    method SetKbmCursorGrab(enabled: bool, visible: Option<bool>)
      modifies this`flags, this`hittest, this`shown
      ensures flags == KbmGrabStep(old(flags), enabled, visible)
      ensures shown == KbmGrabShown(old(flags), old(shown), enabled, visible)
      ensures hittest == old(hittest) + HitTestCall(old(flags).passthrough, flags.passthrough)
    {
      flags := flags.(kbm := enabled);
      if flags.hasWindow && visible != Some(false) {
        SetPassthrough(flags.fullscreen && !flags.uiVisible && !enabled);
        if !flags.uiVisible {
          UpdateCursorVisibility();
        }
      }
    }

    /** The `OverlayStateChanged` arm of `user_event`. */
    method OverlayStateChanged(open: bool)
      modifies this`flags, this`hittest
      ensures flags == OverlayStep(old(flags), open)
      ensures hittest == old(hittest) + HitTestCall(old(flags).passthrough, flags.passthrough)
    {
      flags := flags.(overlayOpen := open);
      if open {
        SetPassthrough(false);
      } else {
        SetPassthrough(flags.fullscreen && !flags.uiVisible && !flags.kbm);
      }
    }

    /** `user_event`. */
    method UserEvent(e: RunnerEvent)
      requires Valid()
      modifies this`flags, this`hittest, this`shown, this`sent, this`quit
      ensures flags == UserEventStep(old(flags), e)
      ensures shown == UserShownStep(old(flags), old(shown), e)
      ensures sent == old(sent) + Pushed(UserEventSent(old(flags), e))
      ensures hittest == old(hittest) + HitTestCall(old(flags).passthrough, flags.passthrough)
      ensures quit == (old(quit) || e.Quit?)
      ensures Valid()
    {
      match e
      case Quit =>
        quit := true;
      case Redraw =>
      case ShowWindow =>
        ShowWindow();
      case HideWindow =>
        HideWindow();
      case DialogPushed(visible) =>
        DialogPushed(visible);
      case DialogPopped =>
        SetPassthrough(flags.fullscreen && !flags.uiVisible && !flags.kbm);
      case ToggleUi =>
        ToggleUi();
      case EnterCaptureMode =>
        EnterCaptureMode();
      case SetKbmCursorGrab(enabled, visible) =>
        SetKbmCursorGrab(enabled, visible);
      case OverlayStateChanged(open) =>
        OverlayStateChanged(open);
    }

    /** The toggle chord in `window_event`: flips the UI when there is a window, releasing inputs when it shows. */
    method ToggleChord()
      modifies this`flags, this`sent
      ensures flags == old(flags).(uiVisible := old(flags).uiVisible != old(flags).hasWindow)
      ensures sent == old(sent) + Pushed(if old(flags).hasWindow && !old(flags).uiVisible then [KbmReleaseAll] else [])
    {
      if !flags.hasWindow {
        return;
      }
      if flags.uiVisible {
        flags := flags.(uiVisible := false);
      } else {
        flags := flags.(uiVisible := true);
        TryPush(KbmReleaseAll);
      }
    }

    /** The forwarding code of `window_event`: pushes the input's event while capturing. */
    method Forward(e: WindowInput)
      modifies this`sent
      ensures sent == old(sent) + Pushed(if Capturing(flags) && Forwarded(e).Some? then [Forwarded(e).value] else [])
    {
      var capture := !flags.uiVisible && flags.kbm;
      match e
      case ModifiersChanged(_) =>
      case KeyInput(_, down, scancode) =>
        if scancode.Some? && capture {
          TryPush(KbmKey(scancode.value, down));
        }
      case MouseInput(b, down) =>
        var btn := MapMouseButton(b);
        if btn.Some? && capture {
          TryPush(KbmButton(btn.value, down));
        }
      case MouseWheel(nonzero) =>
        if nonzero && capture {
          TryPush(KbmWheel);
        }
    }

    /** The input part of `window_event`. */
    method WindowEvent(e: WindowInput, dialogShown: bool, consumed: bool)
      modifies this`mods, this`flags, this`sent
      ensures flags == WindowEventFlags(old(flags), old(mods), e, dialogShown, consumed)
      ensures sent == old(sent) + Pushed(WindowEventSent(old(flags), old(mods), e, dialogShown, consumed))
      ensures mods == if e.ModifiersChanged? && Heard(old(flags), dialogShown, consumed) then e.mods else old(mods)
    {
      if flags.hasWindow && (flags.uiVisible || dialogShown) && consumed {
        return;
      }
      if e.ModifiersChanged? {
        mods := e.mods;
      } else if e.KeyInput? && e.down && e.isS && mods.ctrl && mods.shift && mods.alt {
        ToggleChord();
      } else {
        Forward(e);
      }
    }

    /** `device_event`. */
    method DeviceEvent(nonzero: bool)
      modifies this`sent
      ensures sent == old(sent) + Pushed(DeviceEventSent(flags, nonzero))
    {
      if flags.uiVisible {
        return;
      }
      if !flags.kbm {
        return;
      }
      if nonzero {
        TryPush(KbmMotion);
      }
    }
  }
}
