/**
 * The SDL thread's event loop (`SDLRunner::run_loop` and `process_one`):
 * each SDL event is routed to at most one handler operation, some events
 * mark the batch for a redraw, and a Quit ends the loop at once.
 *
 * A batch is what one `SDL_WaitEvent` and the `SDL_PollEvent` calls that
 * drain the queue after it deliver; a failed wait is an empty batch. What
 * the foreign libraries decide while an event is handled (whether a device
 * opens, the Steam handle SDL reports, the polled pad state, whether a URL
 * opens, which element a HashSet yields first) travels inside the event.
 */
module SdlLoop {
  import opened Wrappers
  import opened SdlDevices
  import opened ViiperBridge
  import opened InputHandler
  import opened EventHandlers

  /** `HandlerEvent`: the user events the handler posts to the SDL queue. */
  datatype HandlerEvent =
    | ViiperEventPosted(ev: ViiperEvent, openOk: bool, pick: set<nat> -> nat)
    | IgnoreDeviceRequested(deviceId: nat)
    | ConnectViiperDeviceRequested(deviceId: nat)
    | DisconnectViiperDeviceRequested(deviceId: nat)
    | CefDebugReady(port: nat)
    | OverlayStateChanged(open: bool)
    | SetKbmEmulationEnabled(enabled: bool)
    | KbmKeyEvent
    | KbmPointerEvent
    | KbmReleaseAll
    | ViiperReady(version: string)

  datatype SdlEvent =
    | Quit
    | SteamHandleUpdated(which: nat, reported: Gamepad -> nat)
    | GamepadUpdateComplete(which: nat, poll: (Frame, Gamepad) -> Frame)
    | JoystickUpdateComplete(which: nat, poll: (Frame, Gamepad) -> Frame)
      /** `pad` is what opening the gamepad gave; `reported` is SDL's Steam handle query. */
    | ControllerDeviceAdded(which: nat, pad: Option<Gamepad>, reported: Gamepad -> nat, openOk: bool)
    | JoyDeviceAdded(which: nat)
    | JoyDeviceRemoved(which: nat, openOk: bool)
    | ControllerDeviceRemoved(which: nat, openOk: bool)
    | User(event: HandlerEvent)
      /** Any other joystick or gamepad event (axis, button, ...). */
    | OtherPadEvent
      /** Anything else SDL delivers. */
    | OtherEvent

  /** The events after which `process_one` sets `redraw`. */
  predicate Marks(ev: SdlEvent) {
    ev.SteamHandleUpdated? || ev.ControllerDeviceAdded? || ev.JoyDeviceRemoved? || ev.ControllerDeviceRemoved?
  }

  /** The handle `on_pad_added` holds for a ControllerDeviceAdded: the opened gamepad, if any. */
  function OpenedHandle(pad: Option<Gamepad>): (r: Option<SdlDevice>)
    ensures r.Some? <==> pad.Some?
    ensures r.Some? ==> r.value == GamepadDev(pad.value)
  {
    match pad
    case None => None
    case Some(g) => Some(GamepadDev(g))
  }

  /** What one `process_one` call leaves: the handler state, the `redraw` flag it set, and whether it saw Quit. */
  datatype Outcome = Outcome(state: State, redraw: bool, quit: bool)

  /** The handler transition a user event selects; the KBM and ready handlers leave the registry alone. */
  function Dispatch(c: Ctx, s: State, e: HandlerEvent): State {
    match e
    case ViiperEventPosted(ev, openOk, pick) => ViiperEventSpec(c, s, ev, openOk, pick)
    case IgnoreDeviceRequested(id) => IgnoreDeviceSpec(s, id)
    case ConnectViiperDeviceRequested(id) => ConnectViiperDeviceSpec(c, s, id)
    case DisconnectViiperDeviceRequested(id) => DisconnectViiperDeviceSpec(c, s, id)
    case CefDebugReady(port) => CefDebugReadySpec(c, s, port)
    case OverlayStateChanged(open) => OverlayStateChangedSpec(c, s, open)
    case _ => s
  }

  /** `process_one`: the handler transition an event selects, the `redraw` mark, and the Quit verdict. */
  function Process(c: Ctx, s: State, ev: SdlEvent): (r: Outcome)
    ensures r.quit <==> ev.Quit?
    ensures r.redraw <==> Marks(ev)
    ensures ev.Quit? || ev.JoyDeviceAdded? || ev.OtherPadEvent? || ev.OtherEvent? ==> r.state == s
  {
    match ev
    case Quit => Outcome(s, false, true)
    case SteamHandleUpdated(which, reported) => Outcome(SteamHandleUpdatedSpec(c, s, which, reported), true, false)
    case GamepadUpdateComplete(which, poll) => Outcome(UpdateCompleteSpec(c, s, which, poll), false, false)
    case JoystickUpdateComplete(which, poll) => Outcome(UpdateCompleteSpec(c, s, which, poll), false, false)
    case ControllerDeviceAdded(which, pad, reported, openOk) =>
      Outcome(PadAddedSpec(c, s, which, OpenedHandle(pad), reported, openOk), true, false)
    case JoyDeviceAdded(_) => Outcome(s, false, false)
    case JoyDeviceRemoved(which, openOk) => Outcome(PadRemovedSpec(c, s, which, true, openOk), true, false)
    case ControllerDeviceRemoved(which, openOk) => Outcome(PadRemovedSpec(c, s, which, false, openOk), true, false)
    case User(e) => Outcome(Dispatch(c, s, e), false, false)
    case OtherPadEvent => Outcome(s, false, false)
    case OtherEvent => Outcome(s, false, false)
  }

  /**
   * The events of one batch handled in order, stopping at the first Quit:
   * the outcome after the last event handled, with `redraw` set when any of
   * them marked it.
   */
  function Batch(c: Ctx, s: State, evs: seq<SdlEvent>): Outcome
    decreases |evs|
  {
    if evs == [] then Outcome(s, false, false)
    else
      var p := Batch(c, s, evs[..|evs| - 1]);
      if p.quit then p
      else
        Then(p, Process(c, p.state, evs[|evs| - 1]))
  }

  /** One more event handled after `p`: its state and Quit verdict, and the `redraw` flag kept or set. */
  function Then(p: Outcome, o: Outcome): (r: Outcome)
    ensures r.state == o.state && r.quit == o.quit
    ensures r.redraw <==> p.redraw || o.redraw
  {
    Outcome(o.state, p.redraw || o.redraw, o.quit)
  }

  /** The state one turn of `run_loop` leaves: a marked batch that did not quit requests one redraw. */
  function AfterBatch(o: Outcome): State {
    if o.redraw && !o.quit then AddEffect(o.state, Redraw) else o.state
  }

  /** The loop's state after some turns, and whether one of them quit. */
  datatype Turns = Turns(state: State, quit: bool)

  /** `run_loop` over a finite run of batches: turn after turn until one of them quits. */
  function Run(c: Ctx, s: State, batches: seq<seq<SdlEvent>>): Turns
    decreases |batches|
  {
    if batches == [] then Turns(s, false)
    else
      var p := Run(c, s, batches[..|batches| - 1]);
      if p.quit then p
      else
        var o := Batch(c, p.state, batches[|batches| - 1]);
        Turns(AfterBatch(o), o.quit)
  }

  // ---------------------------------------------------------------------------
  // What the routing guarantees

  /** Every handled event keeps the registry invariant, and ids only grow. */
  lemma ProcessEvolves(c: Ctx, s: State, ev: SdlEvent)
    requires ValidState(c, s)
    ensures Evolves(c, s, Process(c, s, ev).state)
  {
    match ev
    case SteamHandleUpdated(which, reported) => HandleUpdatedEvolves(c, s, which, reported);
    case GamepadUpdateComplete(which, poll) => GamepadUpdateEvolves(c, s, which, poll);
    case JoystickUpdateComplete(which, poll) => JoystickUpdateEvolves(c, s, which, poll);
    case ControllerDeviceAdded(which, pad, reported, openOk) => AddedEvolves(c, s, which, pad, reported, openOk);
    case JoyDeviceRemoved(which, openOk) => JoyRemovedEvolves(c, s, which, openOk);
    case ControllerDeviceRemoved(which, openOk) => ControllerRemovedEvolves(c, s, which, openOk);
    case User(e) => UserEvolves(c, s, e);
    case _ =>
  }

  lemma HandleUpdatedEvolves(c: Ctx, s: State, which: nat, reported: Gamepad -> nat)
    requires ValidState(c, s)
    ensures Evolves(c, s, Process(c, s, SteamHandleUpdated(which, reported)).state)
  {
    SteamHandleUpdatedSound(c, s, which, reported);
  }

  lemma GamepadUpdateEvolves(c: Ctx, s: State, which: nat, poll: (Frame, Gamepad) -> Frame)
    requires ValidState(c, s)
    ensures Evolves(c, s, Process(c, s, GamepadUpdateComplete(which, poll)).state)
  {
    UpdateCompleteSound(c, s, which, poll);
  }

  lemma JoystickUpdateEvolves(c: Ctx, s: State, which: nat, poll: (Frame, Gamepad) -> Frame)
    requires ValidState(c, s)
    ensures Evolves(c, s, Process(c, s, JoystickUpdateComplete(which, poll)).state)
  {
    UpdateCompleteSound(c, s, which, poll);
  }

  lemma AddedEvolves(c: Ctx, s: State, which: nat, pad: Option<Gamepad>, reported: Gamepad -> nat, openOk: bool)
    requires ValidState(c, s)
    ensures Evolves(c, s, Process(c, s, ControllerDeviceAdded(which, pad, reported, openOk)).state)
  {
    PadAddedSound(c, s, which, OpenedHandle(pad), reported, openOk);
  }

  lemma JoyRemovedEvolves(c: Ctx, s: State, which: nat, openOk: bool)
    requires ValidState(c, s)
    ensures Evolves(c, s, Process(c, s, JoyDeviceRemoved(which, openOk)).state)
  {
    PadRemovedSound(c, s, which, true, openOk);
  }

  lemma ControllerRemovedEvolves(c: Ctx, s: State, which: nat, openOk: bool)
    requires ValidState(c, s)
    ensures Evolves(c, s, Process(c, s, ControllerDeviceRemoved(which, openOk)).state)
  {
    PadRemovedSound(c, s, which, false, openOk);
  }

  lemma UserEvolves(c: Ctx, s: State, e: HandlerEvent)
    requires ValidState(c, s)
    ensures Evolves(c, s, Process(c, s, User(e)).state)
  {
    DispatchEvolves(c, s, e);
  }

  lemma DispatchEvolves(c: Ctx, s: State, e: HandlerEvent)
    requires ValidState(c, s)
    ensures Evolves(c, s, Dispatch(c, s, e))
  {
    match e
    case ViiperEventPosted(v, openOk, pick) => PostedEvolves(c, s, v, openOk, pick);
    case IgnoreDeviceRequested(id) => IgnoreEvolves(c, s, id);
    case ConnectViiperDeviceRequested(id) => ConnectEvolves(c, s, id);
    case DisconnectViiperDeviceRequested(id) => DisconnectEvolves(c, s, id);
    case CefDebugReady(port) => CefEvolves(c, s, port);
    case OverlayStateChanged(open) => OverlayEvolves(c, s, open);
    case SetKbmEmulationEnabled(_) =>
    case KbmKeyEvent =>
    case KbmPointerEvent =>
    case KbmReleaseAll =>
    case ViiperReady(_) =>
  }

  lemma PostedEvolves(c: Ctx, s: State, v: ViiperEvent, openOk: bool, pick: set<nat> -> nat)
    requires ValidState(c, s)
    ensures Evolves(c, s, Dispatch(c, s, ViiperEventPosted(v, openOk, pick)))
  {
    ViiperEventSound(c, s, v, openOk, pick);
  }

  lemma IgnoreEvolves(c: Ctx, s: State, id: nat)
    requires ValidState(c, s)
    ensures Evolves(c, s, Dispatch(c, s, IgnoreDeviceRequested(id)))
  {
    IgnoreDeviceSound(c, s, id);
  }

  lemma ConnectEvolves(c: Ctx, s: State, id: nat)
    requires ValidState(c, s)
    ensures Evolves(c, s, Dispatch(c, s, ConnectViiperDeviceRequested(id)))
  {
    ConnectViiperDeviceSound(c, s, id);
  }

  lemma CefEvolves(c: Ctx, s: State, port: nat)
    requires ValidState(c, s)
    ensures Evolves(c, s, Dispatch(c, s, CefDebugReady(port)))
  {
    CefDebugReadySound(c, s, port);
  }

  lemma OverlayEvolves(c: Ctx, s: State, open: bool)
    requires ValidState(c, s)
    ensures Evolves(c, s, Dispatch(c, s, OverlayStateChanged(open)))
  {
    OverlayStateChangedSound(c, s, open);
  }

  lemma DisconnectEvolves(c: Ctx, s: State, id: nat)
    requires ValidState(c, s)
    ensures Evolves(c, s, Dispatch(c, s, DisconnectViiperDeviceRequested(id)))
  {
    DisconnectViiperDeviceSound(c, s, id);
  }

  /** A batch quits exactly when it holds a Quit. */
  lemma {:induction false} BatchQuit(c: Ctx, s: State, evs: seq<SdlEvent>)
    ensures Batch(c, s, evs).quit <==> exists i :: 0 <= i < |evs| && evs[i].Quit?
    decreases |evs|
  {
    if evs != [] {
      var init := evs[..|evs| - 1];
      BatchQuit(c, s, init);
      assert forall i :: 0 <= i < |init| ==> init[i] == evs[i];
    }
  }

  /** Once a Quit is handled, later events change nothing: they are never processed. */
  lemma {:induction false} BatchStops(c: Ctx, s: State, evs: seq<SdlEvent>, more: seq<SdlEvent>)
    requires Batch(c, s, evs).quit
    ensures Batch(c, s, evs + more) == Batch(c, s, evs)
    decreases |more|
  {
    if more != [] {
      var init := more[..|more| - 1];
      assert (evs + more)[..|evs + more| - 1] == evs + init;
      BatchStops(c, s, evs, init);
    } else {
      assert evs + more == evs;
    }
  }

  /** Of a batch that did not quit, `redraw` is set exactly when some event marked it. */
  lemma {:induction false} BatchRedraw(c: Ctx, s: State, evs: seq<SdlEvent>)
    requires !Batch(c, s, evs).quit
    ensures Batch(c, s, evs).redraw <==> exists i :: 0 <= i < |evs| && Marks(evs[i])
    decreases |evs|
  {
    if evs != [] {
      var init := evs[..|evs| - 1];
      BatchRedraw(c, s, init);
      assert forall i :: 0 <= i < |init| ==> init[i] == evs[i];
    }
  }

  /** A batch keeps the invariant and never brings back a removed device's id. */
  lemma {:induction false} BatchEvolves(c: Ctx, s: State, evs: seq<SdlEvent>)
    requires ValidState(c, s)
    ensures Evolves(c, s, Batch(c, s, evs).state)
    decreases |evs|
  {
    if evs != [] {
      var init := evs[..|evs| - 1];
      BatchEvolves(c, s, init);
      var p := Batch(c, s, init);
      if !p.quit {
        ProcessEvolves(c, p.state, evs[|evs| - 1]);
        EvolvesTrans(c, s, p.state, Process(c, p.state, evs[|evs| - 1]).state);
      }
    }
  }

  /** The redraw request at the end of a turn keeps the invariant too. */
  lemma AfterBatchEvolves(c: Ctx, s: State, evs: seq<SdlEvent>)
    requires ValidState(c, s)
    ensures Evolves(c, s, AfterBatch(Batch(c, s, evs)))
  {
    BatchEvolves(c, s, evs);
  }

  /** However many turns the loop runs, the invariant holds and no device id is ever handed out twice. */
  lemma {:induction false} RunEvolves(c: Ctx, s: State, batches: seq<seq<SdlEvent>>)
    requires ValidState(c, s)
    ensures Evolves(c, s, Run(c, s, batches).state)
    decreases |batches|
  {
    if batches != [] {
      var init := batches[..|batches| - 1];
      RunEvolves(c, s, init);
      var p := Run(c, s, init);
      if !p.quit {
        AfterBatchEvolves(c, p.state, batches[|batches| - 1]);
        EvolvesTrans(c, s, p.state, Run(c, s, batches).state);
      }
    }
  }

  /** The loop ends exactly when some batch holds a Quit. */
  lemma {:induction false} RunQuit(c: Ctx, s: State, batches: seq<seq<SdlEvent>>)
    ensures Run(c, s, batches).quit <==> exists i, j :: 0 <= i < |batches| && 0 <= j < |batches[i]| && batches[i][j].Quit?
    decreases |batches|
  {
    if batches != [] {
      var init := batches[..|batches| - 1];
      RunQuit(c, s, init);
      assert forall i :: 0 <= i < |init| ==> init[i] == batches[i];
      var p := Run(c, s, init);
      if !p.quit {
        BatchQuit(c, p.state, batches[|batches| - 1]);
      }
    }
  }

  // ---------------------------------------------------------------------------
  // The loop itself, on the handler object

  /** `process_one` on the handler object. */
  method ProcessOne(h: EventHandler, ev: SdlEvent) returns (redraw: bool, quit: bool)
    requires h.Valid()
    modifies h, h.bridge`requests, h.bridge`pushed, h.bridge`tasks, h.bridge`senders, h.enforcer
    ensures h.Valid()
    ensures Outcome(h.State(), redraw, quit) == Process(h.Ctx(), old(h.State()), ev)
  {
    redraw, quit := false, false;
    match ev
    case Quit =>
      quit := true;
    case SteamHandleUpdated(which, reported) =>
      h.OnSteamHandleUpdated(which, reported);
      redraw := true;
    case GamepadUpdateComplete(which, poll) =>
      h.OnUpdateComplete(which, poll);
    case JoystickUpdateComplete(which, poll) =>
      h.OnUpdateComplete(which, poll);
    case ControllerDeviceAdded(which, pad, reported, openOk) =>
      h.OnPadAdded(which, OpenedHandle(pad), reported, openOk);
      redraw := true;
    case JoyDeviceAdded(_) =>
    case JoyDeviceRemoved(which, openOk) =>
      h.OnPadRemoved(which, true, openOk);
      redraw := true;
    case ControllerDeviceRemoved(which, openOk) =>
      h.OnPadRemoved(which, false, openOk);
      redraw := true;
    case User(e) =>
      DispatchUser(h, e);
    case OtherPadEvent =>
    case OtherEvent =>
  }

  /** The inner match of `process_one` on a `HandlerEvent`: exactly one handler method. */
  method DispatchUser(h: EventHandler, e: HandlerEvent)
    requires h.Valid()
    modifies h, h.bridge`requests, h.bridge`pushed, h.bridge`tasks, h.bridge`senders, h.enforcer
    ensures h.Valid()
    ensures h.State() == Dispatch(h.Ctx(), old(h.State()), e)
  {
    match e
    case ViiperEventPosted(v, openOk, pick) => h.OnViiperEvent(v, openOk, pick);
    case IgnoreDeviceRequested(id) => h.IgnoreDevice(id);
    case ConnectViiperDeviceRequested(id) => h.ConnectViiperDevice(id);
    case DisconnectViiperDeviceRequested(id) => h.DisconnectViiperDevice(id);
    case CefDebugReady(port) => h.OnCefDebugReady(port);
    case OverlayStateChanged(open) => h.OnOverlayStateChanged(open);
    case _ =>
  }

  /** `SDLRunner::request_redraw`: one Redraw on the GUI's event proxy. */
  method RequestRedraw(h: EventHandler)
    requires h.Valid()
    modifies h`effects
    ensures h.Valid()
    ensures h.State() == AddEffect(old(h.State()), Redraw)
  {
    h.effects := h.effects + [Redraw];
  }

  /**
   * One turn of `run_loop`: the batch handled event by event until a Quit,
   * then at most one redraw request, and only when an event marked one.
   */
  method RunBatch(h: EventHandler, evs: seq<SdlEvent>) returns (quit: bool)
    requires h.Valid()
    modifies h, h.bridge`requests, h.bridge`pushed, h.bridge`tasks, h.bridge`senders, h.enforcer
    ensures h.Valid()
    ensures quit == Batch(h.Ctx(), old(h.State()), evs).quit
    ensures h.State() == AfterBatch(Batch(h.Ctx(), old(h.State()), evs))
  {
    ghost var c := h.Ctx();
    ghost var s0 := h.State();
    var redraw := false;
    var i := 0;
    quit := false;
    while i < |evs|
      invariant 0 <= i <= |evs|
      invariant h.Valid()
      invariant Batch(c, s0, evs[..i]) == Outcome(h.State(), redraw, false)
    {
      redraw, quit := Advance(h, c, s0, evs, i, redraw);
      if quit {
        BatchPrefixQuit(c, s0, evs, i + 1);
        return;
      }
      i := i + 1;
    }
    assert evs[..i] == evs;
    if redraw {
      RequestRedraw(h);
    }
  }

  /** The body of the drain loop: the `i`-th event of the batch handled after the ones before it. */
  method Advance(h: EventHandler, ghost c: Ctx, ghost s0: State, evs: seq<SdlEvent>, i: nat, redraw: bool)
      returns (redraw': bool, quit: bool)
    requires i < |evs| && h.Valid() && c == h.Ctx()
    requires Batch(c, s0, evs[..i]) == Outcome(h.State(), redraw, false)
    modifies h, h.bridge`requests, h.bridge`pushed, h.bridge`tasks, h.bridge`senders, h.enforcer
    ensures h.Valid()
    ensures Batch(c, s0, evs[..i + 1]) == Outcome(h.State(), redraw', quit)
  {
    BatchSnoc(c, s0, evs, i);
    var marked;
    marked, quit := ProcessOne(h, evs[i]);
    redraw' := redraw || marked;
  }

  /** Handling one more event of a batch, in terms of the prefix handled so far. */
  lemma BatchSnoc(c: Ctx, s: State, evs: seq<SdlEvent>, i: nat)
    requires i < |evs|
    ensures var p := Batch(c, s, evs[..i]);
      Batch(c, s, evs[..i + 1]) == if p.quit then p else Then(p, Process(c, p.state, evs[i]))
  {
    assert evs[..i + 1][..i] == evs[..i];
  }

  /** A batch whose prefix quit ends as that prefix did. */
  lemma BatchPrefixQuit(c: Ctx, s: State, evs: seq<SdlEvent>, i: nat)
    requires i <= |evs| && Batch(c, s, evs[..i]).quit
    ensures Batch(c, s, evs) == Batch(c, s, evs[..i])
  {
    BatchStops(c, s, evs[..i], evs[i..]);
    assert evs[..i] + evs[i..] == evs;
  }

  /** `run_loop` over the batches SDL delivers, returning once a batch holds a Quit. */
  method RunLoop(h: EventHandler, batches: seq<seq<SdlEvent>>) returns (quit: bool)
    requires h.Valid()
    modifies h, h.bridge`requests, h.bridge`pushed, h.bridge`tasks, h.bridge`senders, h.enforcer
    ensures h.Valid()
    ensures Turns(h.State(), quit) == Run(h.Ctx(), old(h.State()), batches)
  {
    ghost var c := h.Ctx();
    ghost var s0 := h.State();
    var k := 0;
    quit := false;
    while k < |batches|
      invariant 0 <= k <= |batches|
      invariant h.Valid()
      invariant Run(c, s0, batches[..k]) == Turns(h.State(), false)
    {
      assert batches[..k + 1][..k] == batches[..k];
      quit := RunBatch(h, batches[k]);
      if quit {
        RunPrefixQuit(c, s0, batches, k + 1);
        return;
      }
      k := k + 1;
    }
    assert batches[..k] == batches;
  }

  /** Turns after the one that quit change nothing. */
  lemma {:induction false} RunStops(c: Ctx, s: State, batches: seq<seq<SdlEvent>>, more: seq<seq<SdlEvent>>)
    requires Run(c, s, batches).quit
    ensures Run(c, s, batches + more) == Run(c, s, batches)
    decreases |more|
  {
    if more != [] {
      var init := more[..|more| - 1];
      assert (batches + more)[..|batches + more| - 1] == batches + init;
      RunStops(c, s, batches, init);
    } else {
      assert batches + more == batches;
    }
  }

  lemma RunPrefixQuit(c: Ctx, s: State, batches: seq<seq<SdlEvent>>, k: nat)
    requires k <= |batches| && Run(c, s, batches[..k]).quit
    ensures Run(c, s, batches) == Run(c, s, batches[..k])
  {
    RunStops(c, s, batches[..k], batches[k..]);
    assert batches[..k] + batches[k..] == batches;
  }
}
