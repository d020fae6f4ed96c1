/**
 * `EventHandler`: the registry fields that the handlers update in place,
 * with the VIIPER bridge and the binding enforcer they call. Each method
 * follows the code's steps and is proved to end in the state the matching
 * transition of `InputHandler` describes, keeping the registry invariant.
 */
module EventHandlers {
  import opened Wrappers
  import opened SdlDevices
  import opened ViiperBridge
  import opened BindingEnforcer
  import opened InputHandler

  class EventHandler {
    const bridge: Bridge
    const enforcer: Enforcer
    /** The `viiper_type` a new `Device` gets by default. */
    const defaultViiperType: string
    /** `window.continous_draw` from the configuration. */
    const continuousDrawConfigured: bool
    /** `launched_via_steam()`. */
    const launchedViaSteam: bool

    /** `state.devices`. */
    var devices: map<nat, Device>
    /** `sdl_id_to_device`. */
    var index: map<nat, (nat, Frame)>
    /** `sdl_devices`. */
    var sdlDevices: map<nat, seq<SdlDevice>>
    var nextDeviceId: nat
    var steamOverlayOpen: bool
    var cefDebugPort: Option<nat>
    /** The shared `window_continuous_redraw` flag. */
    var continuousRedraw: bool
    /** Overlay-close timers started and not yet fired. */
    var pendingRedrawClears: nat
    /** Redraw requests, rumble commands and injections issued, oldest first. */
    var effects: seq<Effect>

    /** Only constants: what the handler reads but never changes. */
    function Ctx(): Ctx {
      InputHandler.Ctx(bridge.hasClient, enforcer.appId, defaultViiperType, continuousDrawConfigured, launchedViaSteam)
    }

    function State(): State
      reads this, bridge, enforcer
    {
      InputHandler.State(devices, index, sdlDevices, nextDeviceId, steamOverlayOpen, cefDebugPort,
        continuousRedraw, pendingRedrawClears, effects, bridge.wakerSet, bridge.View(), enforcer.State())
    }

    predicate Valid()
      reads this, bridge, enforcer
    {
      bridge.Valid() && enforcer.Valid() && ValidState(Ctx(), State())
    }

    constructor (bridge: Bridge, enforcer: Enforcer, defaultViiperType: string, continuousDrawConfigured: bool,
                 launchedViaSteam: bool, continuousRedraw: bool, firstDeviceId: nat)
      requires bridge.Valid() && enforcer.Valid()
      ensures Valid()
      ensures this.bridge == bridge && this.enforcer == enforcer
      ensures devices == map[] && index == map[] && sdlDevices == map[] && nextDeviceId == firstDeviceId
      ensures !steamOverlayOpen && cefDebugPort.None? && this.continuousRedraw == continuousRedraw
      ensures pendingRedrawClears == 0 && effects == []
    {
      this.bridge := bridge;
      this.enforcer := enforcer;
      this.defaultViiperType := defaultViiperType;
      this.continuousDrawConfigured := continuousDrawConfigured;
      this.launchedViaSteam := launchedViaSteam;
      devices := map[];
      index := map[];
      sdlDevices := map[];
      nextDeviceId := firstDeviceId;
      steamOverlayOpen := false;
      cefDebugPort := None;
      this.continuousRedraw := continuousRedraw;
      pendingRedrawClears := 0;
      effects := [];
    }

    /** `on_pad_removed` for a JoyDeviceRemoved (`isJoystick`) or ControllerDeviceRemoved event. */
    method OnPadRemoved(which: nat, isJoystick: bool, openOk: bool)
      requires Valid()
      modifies this`sdlDevices, this`devices, this`index, bridge`requests, bridge`senders, enforcer`active, enforcer`urls
      ensures Valid()
      ensures State() == PadRemovedSpec(Ctx(), old(State()), which, isJoystick, openOk)
    {
      PadRemovedSound(Ctx(), State(), which, isJoystick, openOk);
      RemovePad(which, isJoystick, openOk);
    }

    /** The steps of `on_pad_removed`, in the code's order. */
    method RemovePad(which: nat, isJoystick: bool, openOk: bool)
      requires bridge.Valid()
      modifies this`sdlDevices, this`devices, this`index, bridge`requests, bridge`senders, enforcer`active, enforcer`urls
      ensures bridge.Valid()
      ensures State() == PadRemovedSpec(Ctx(), old(State()), which, isJoystick, openOk)
    {
      ghost var s0 := State();
      PopSdlHandle(which);
      ghost var s1 := State();
      assert s1 == s0.(sdlDevices := PopHandle(s0.sdlDevices, which));
      if which !in index || index[which].0 !in devices {
        return;
      }
      var id := index[which].0;
      ShrinkDevice(which, id, isJoystick, openOk, s0);
      PadRemovedSteps(Ctx(), s0, which, isJoystick, openOk, devices, index, bridge.View(), enforcer.State());
      assert State() == s1.(devices := devices, index := index, bridge := bridge.View(), enforcer := enforcer.State());
    }

    /**
     * The middle of `on_pad_removed` for an indexed, known device: the first
     * info of the removed kind goes; with no info left the SDL id leaves
     * `sdl_ids`, and with none of those left the device is erased.
     */
    method ShrinkDevice(which: nat, id: nat, isJoystick: bool, openOk: bool, ghost s: State)
      requires bridge.Valid() && which in s.index && s.index[which].0 == id && id in s.devices
      requires devices == s.devices && index == s.index && bridge.View() == s.bridge && enforcer.State() == s.enforcer
      requires bridge.wakerSet == s.wakerSet
      modifies this`devices, this`index, bridge`requests, bridge`senders, enforcer`active, enforcer`urls
      ensures bridge.Valid()
      ensures Shrunk(Ctx(), s, which, isJoystick, openOk, devices, index, bridge.View(), enforcer.State())
    {
      var dev := devices[id];
      var idx := KindPosition(dev.infos, !isJoystick);
      if idx.Some? {
        dev := dev.(infos := dev.infos[..idx.value] + dev.infos[idx.value + 1..]);
      }
      assert dev.infos == RemainingInfos(old(devices[id]), isJoystick);
      if |dev.infos| == 0 {
        dev := dev.(sdlIds := dev.sdlIds - {which});
        if dev.sdlIds == {} {
          EraseDevice(which, id, isJoystick, openOk, s);
          return;
        }
      }
      devices := devices[id := dev];
      assert !Erased(s, which, isJoystick);
    }

    /** The first step of `on_pad_removed`: the newest handle for the id is dropped, and an emptied list with it. */
    method PopSdlHandle(which: nat)
      modifies this`sdlDevices
      ensures sdlDevices == PopHandle(old(sdlDevices), which)
    {
      if which in sdlDevices {
        var handles := sdlDevices[which];
        if |handles| > 0 {
          handles := handles[..|handles| - 1];
        }
        if handles == [] {
          sdlDevices := sdlDevices - {which};
        } else {
          sdlDevices := sdlDevices[which := handles];
        }
      }
    }

    /** The last step of `on_pad_removed`: remove the queue, the index entry and the record, then the enforcer check. */
    method EraseDevice(which: nat, id: nat, isJoystick: bool, openOk: bool, ghost s: State)
      requires bridge.Valid() && which in s.index && s.index[which].0 == id && id in s.devices
      requires Erased(s, which, isJoystick)
      requires devices == s.devices && index == s.index && bridge.View() == s.bridge && enforcer.State() == s.enforcer
      requires bridge.wakerSet == s.wakerSet
      modifies this`devices, this`index, bridge`requests, bridge`senders, enforcer`active, enforcer`urls
      ensures bridge.Valid()
      ensures Shrunk(Ctx(), s, which, isJoystick, openOk, devices, index, bridge.View(), enforcer.State())
    {
      var dev := devices[id];
      var hadSteamViiper := dev.steamHandle != 0 && dev.viiperConnected;
      ApplyAllOne(bridge.hasClient, bridge.wakerSet, bridge.View(), RemoveRequest(id));
      bridge.RemoveDevice(id);
      index := index - {which};
      devices := devices - {id};
      ReleaseBindings(hadSteamViiper, openOk);
    }

    /** The enforcer check after a steam-bound device went away: deactivate once no connected steam-bound device is left. */
    method ReleaseBindings(hadSteamViiper: bool, openOk: bool)
      modifies enforcer`active, enforcer`urls
      ensures enforcer.State() ==
        if hadSteamViiper && !AnySteamBoundConnected(devices) && old(enforcer.active)
        then DeactivateStep(old(enforcer.State()), openOk) else old(enforcer.State())
    {
      if hadSteamViiper {
        var hasAny := AnySteamBoundConnected(devices);
        if !hasAny && enforcer.active {
          enforcer.Deactivate(openOk);
        }
      }
    }

    /** `on_pad_added` for a JoyDeviceAdded or ControllerDeviceAdded event; `handle0` is what opening the id gave. */
    method OnPadAdded(which: nat, handle0: Option<SdlDevice>, steamHandleOf: Gamepad -> nat, openOk: bool)
      requires Valid()
      modifies this`sdlDevices, this`devices, this`index, this`nextDeviceId
      modifies bridge`requests, bridge`pushed, bridge`tasks, bridge`senders, enforcer`active, enforcer`urls
      ensures Valid()
      ensures State() == PadAddedSpec(Ctx(), old(State()), which, handle0, steamHandleOf, openOk)
    {
      PadAddedSound(Ctx(), State(), which, handle0, steamHandleOf, openOk);
      AddPad(which, handle0, steamHandleOf, openOk);
    }

    method AddPad(which: nat, handle0: Option<SdlDevice>, steamHandleOf: Gamepad -> nat, openOk: bool)
      requires bridge.Valid()
      modifies this`sdlDevices, this`devices, this`index, this`nextDeviceId
      modifies bridge`requests, bridge`pushed, bridge`tasks, bridge`senders, enforcer`active, enforcer`urls
      ensures bridge.Valid()
      ensures State() == PadAddedSpec(Ctx(), old(State()), which, handle0, steamHandleOf, openOk)
    {
      if handle0.None? {
        return;
      }
      var sd := handle0.value;
      if sd.GamepadDev? {
        var ids := VidPidOrUnknown(sd.pad);
        if IsClone(devices, ids.0, ids.1) {
          if which in index && index[which].0 in devices && HasJoystickInfo(devices[index[which].0]) {
            RemovePad(which, true, openOk);
          }
          return;
        }
      }
      StorePad(which, sd, steamHandleOf, openOk);
    }

    /** The part of `on_pad_added` after the clone check: store the handle, then attach it to a device. */
    method StorePad(which: nat, sd: SdlDevice, steamHandleOf: Gamepad -> nat, ghost openOk: bool)
      requires bridge.Valid() && !IsOwnClone(State(), sd)
      modifies this`sdlDevices, this`devices, this`index, this`nextDeviceId, bridge`requests, bridge`pushed, bridge`tasks
      ensures bridge.Valid()
      ensures State() == PadAddedSpec(Ctx(), old(State()), which, Some(sd), steamHandleOf, openOk)
    {
      ghost var s0 := State();
      var handle := AddedHandle(sd, steamHandleOf);
      var info := InfoOf(sd);
      if which in index && index[which].0 in devices {
        AttachToKnown(which, sd, handle, info);
        PadAddedStepsKnown(Ctx(), s0, which, sd, steamHandleOf, openOk);
      } else if which in index {
        PushHandle(which, sd);
        PadAddedStepsStale(Ctx(), s0, which, sd, steamHandleOf, openOk);
      } else {
        AttachToNew(which, sd, handle, info);
        PadAddedStepsNew(Ctx(), s0, which, sd, steamHandleOf, openOk);
      }
    }

    /** `sdl_devices.entry(which).or_default().push(sd)`. */
    method PushHandle(which: nat, sd: SdlDevice)
      modifies this`sdlDevices
      ensures State() == StoredHandle(old(State()), which, sd)
    {
      sdlDevices := sdlDevices[which := HandlesAt(sdlDevices, which) + [sd]];
    }

    /** A handle for an SDL id already indexing a known device: it joins that device. */
    method AttachToKnown(which: nat, sd: SdlDevice, handle: nat, info: SdlDeviceInfo)
      requires bridge.Valid() && which in index && index[which].0 in devices
      modifies this`sdlDevices, this`devices, bridge`requests, bridge`pushed, bridge`tasks
      ensures bridge.Valid()
      ensures var id := old(index[which].0);
        var s1 := StoredHandle(old(State()), which, sd);
        var s2 := s1.(devices := s1.devices[id := s1.devices[id].(infos := s1.devices[id].infos + [info])]);
        State() == ExistingDeviceConnect(Ctx(), s2, id, handle)
    {
      PushHandle(which, sd);
      var id := index[which].0;
      devices := devices[id := devices[id].(infos := devices[id].infos + [info])];
      HandleExistingDeviceConnect(id, handle);
    }

    /** A handle for an SDL id seen for the first time: a new device under the next id. */
    method AttachToNew(which: nat, sd: SdlDevice, handle: nat, info: SdlDeviceInfo)
      requires bridge.Valid()
      modifies this`sdlDevices, this`devices, this`index, this`nextDeviceId, bridge`requests, bridge`pushed, bridge`tasks
      ensures bridge.Valid()
      ensures var id := old(nextDeviceId);
        var s1 := StoredHandle(old(State()), which, sd);
        var s2 := s1.(nextDeviceId := id + 1, index := s1.index[which := (id, NeutralFrame)]);
        State() == NewDevice(Ctx(), s2, id, which, handle, sd.JoystickDev?, info)
    {
      PushHandle(which, sd);
      var id := nextDeviceId;
      nextDeviceId := nextDeviceId + 1;
      index := index[which := (id, NeutralFrame)];
      HandleNewDevice(id, which, handle, sd.JoystickDev?, info);
    }

    /** `handle_existing_device_connect`. */
    method HandleExistingDeviceConnect(id: nat, handle: nat)
      requires bridge.Valid() && id in devices
      modifies this`devices, bridge`requests, bridge`pushed, bridge`tasks
      ensures bridge.Valid()
      ensures State() == ExistingDeviceConnect(Ctx(), old(State()), id, handle)
    {
      var dev := devices[id];
      if dev.steamHandle == 0 && handle != 0 {
        dev := dev.(steamHandle := handle);
        devices := devices[id := dev];
        if dev.viiperDevice.None? {
          ApplyAllOne(bridge.hasClient, bridge.wakerSet, bridge.View(), CreateRequest(id, dev.viiperType));
          bridge.CreateDevice(id, dev.viiperType);
        }
      }
    }

    /** `handle_new_device`. */
    method HandleNewDevice(id: nat, sdlId: nat, handle: nat, isJoystick: bool, info: SdlDeviceInfo)
      requires bridge.Valid()
      modifies this`devices, bridge`requests, bridge`pushed, bridge`tasks
      ensures bridge.Valid()
      ensures State() == NewDevice(Ctx(), old(State()), id, sdlId, handle, isJoystick, info)
    {
      var dev := Device(id, {sdlId}, [info], handle, defaultViiperType, None, false);
      if !isJoystick && handle != 0 {
        ApplyAllOne(bridge.hasClient, bridge.wakerSet, bridge.View(), CreateRequest(id, dev.viiperType));
        bridge.CreateDevice(id, dev.viiperType);
      }
      devices := devices[id := dev];
    }

    /** `on_steam_handle_updated`: every gamepad handle stored under `which` refreshes its device. */
    method OnSteamHandleUpdated(which: nat, steamHandleOf: Gamepad -> nat)
      requires Valid()
      modifies this`devices, this`effects, bridge`requests, bridge`pushed, bridge`tasks
      ensures Valid()
      ensures State() == SteamHandleUpdatedSpec(Ctx(), old(State()), which, steamHandleOf)
    {
      SteamHandleUpdatedSound(Ctx(), State(), which, steamHandleOf);
      RefreshHandles(which, steamHandleOf);
    }

    method RefreshHandles(which: nat, steamHandleOf: Gamepad -> nat)
      requires bridge.Valid()
      modifies this`devices, this`effects, bridge`requests, bridge`pushed, bridge`tasks
      ensures bridge.Valid()
      ensures State() == SteamHandleUpdatedSpec(Ctx(), old(State()), which, steamHandleOf)
    {
      if which !in sdlDevices {
        return;
      }
      ghost var s0 := State();
      ghost var rs := RefreshAll(sdlDevices[which], steamHandleOf);
      effects := effects + [Redraw];
      SteamHandleUpdatedSteps(Ctx(), s0, which, steamHandleOf);
      assert State() == s0.(devices := devices, bridge := bridge.View(), effects := effects);
    }

    /** The `for_each` over the stored handles, returning the requests it issued. */
    method RefreshAll(handles: seq<SdlDevice>, steamHandleOf: Gamepad -> nat) returns (ghost rs: seq<Request>)
      requires bridge.Valid()
      modifies this`devices, bridge`requests, bridge`pushed, bridge`tasks
      ensures bridge.Valid()
      ensures (devices, rs) == RefreshPads(old(devices), index, handles, steamHandleOf)
      ensures bridge.View() == ApplyAll(bridge.hasClient, bridge.wakerSet, old(bridge.View()), rs)
    {
      rs := [];
      ghost var d0 := devices;
      ghost var o0 := bridge.View();
      for i := 0 to |handles|
        invariant (devices, rs) == RefreshPads(d0, index, handles[..i], steamHandleOf)
        invariant bridge.Valid() && bridge.View() == ApplyAll(bridge.hasClient, bridge.wakerSet, o0, rs)
      {
        assert handles[..i + 1][..i] == handles[..i];
        ghost var r := RefreshOne(handles[i], steamHandleOf);
        ApplyAllConcat(bridge.hasClient, bridge.wakerSet, o0, rs, r);
        rs := rs + r;
      }
      assert handles[..|handles|] == handles;
    }

    /** One element of the refresh: a gamepad whose instance id indexes a known device updates it. */
    method RefreshOne(h: SdlDevice, steamHandleOf: Gamepad -> nat) returns (ghost r: seq<Request>)
      requires bridge.Valid()
      modifies this`devices, bridge`requests, bridge`pushed, bridge`tasks
      ensures bridge.Valid()
      ensures (devices, r) == RefreshStep(old(devices), index, h, steamHandleOf)
      ensures bridge.View() == ApplyAll(bridge.hasClient, bridge.wakerSet, old(bridge.View()), r)
    {
      r := [];
      if h.JoystickDev? || h.pad.instanceId.None? {
        return;
      }
      var pad := h.pad;
      var instanceId := pad.instanceId.value;
      var handle := SteamHandle(pad, steamHandleOf);
      if instanceId !in index {
        return;
      }
      var id := index[instanceId].0;
      if id in devices {
        var dev := devices[id];
        if dev.steamHandle != handle {
          dev := dev.(steamHandle := handle);
        }
        devices := devices[id := dev];
        if dev.viiperDevice.None? {
          r := [CreateRequest(id, dev.viiperType)];
          ApplyAllOne(bridge.hasClient, bridge.wakerSet, bridge.View(), r[0]);
          bridge.CreateDevice(id, dev.viiperType);
        }
      }
    }

    /** `on_update_complete`: poll the first gamepad stored for `which` into its frame and forward that frame. */
    method OnUpdateComplete(which: nat, poll: (Frame, Gamepad) -> Frame)
      requires Valid()
      modifies this`index, bridge`requests, bridge`senders
      ensures Valid()
      ensures State() == UpdateCompleteSpec(Ctx(), old(State()), which, poll)
    {
      UpdateCompleteSound(Ctx(), State(), which, poll);
      PollPad(which, poll);
    }

    method PollPad(which: nat, poll: (Frame, Gamepad) -> Frame)
      requires bridge.Valid()
      modifies this`index, bridge`requests, bridge`senders
      ensures bridge.Valid()
      ensures State() == UpdateCompleteSpec(Ctx(), old(State()), which, poll)
    {
      if steamOverlayOpen || which !in index || which !in sdlDevices {
        return;
      }
      var pad := FirstGamepad(sdlDevices[which]);
      if pad.None? {
        return;
      }
      var (id, frame) := index[which];
      var next := poll(frame, pad.value);
      index := index[which := (id, next)];
      ApplyAllOne(bridge.hasClient, bridge.wakerSet, bridge.View(), UpdateRequest(id, next));
      bridge.UpdateDeviceState(id, next);
    }

    /** `on_viiper_event`; `pick` stands for the first element a HashSet iteration yields. */
    method OnViiperEvent(ev: ViiperEvent, openOk: bool, pick: set<nat> -> nat)
      requires Valid()
      modifies this`devices, this`effects, bridge`requests, bridge`pushed, bridge`tasks, bridge`senders
      modifies enforcer`active, enforcer`urls
      ensures Valid()
      ensures State() == ViiperEventSpec(Ctx(), old(State()), ev, openOk, pick)
    {
      ViiperEventSound(Ctx(), State(), ev, openOk, pick);
      match ev
      case ServerDisconnected(id) => OnServerDisconnected(id, openOk);
      case DeviceCreated(id, vd) => OnDeviceCreated(id, vd);
      case DeviceConnected(id) => OnDeviceConnected(id, openOk);
      case DeviceRumble(id, l, r) => OnDeviceRumble(id, l, r, pick);
      case ErrorCreateDevice(_) => RequestRedraw();
      case ErrorConnectDevice(_) => RequestRedraw();
    }

    /** `request_redraw`. */
    method RequestRedraw()
      modifies this`effects
      ensures State() == AddEffect(old(State()), Redraw)
    {
      effects := effects + [Redraw];
    }

    /** ServerDisconnected: drop the queue first, then clear the device's virtual device and re-check the enforcer. */
    method OnServerDisconnected(id: nat, openOk: bool)
      requires bridge.Valid()
      modifies this`devices, bridge`requests, bridge`senders, enforcer`active, enforcer`urls
      ensures bridge.Valid()
      ensures State() == ServerDisconnectedSpec(Ctx(), old(State()), id, openOk)
    {
      ApplyAllOne(bridge.hasClient, bridge.wakerSet, bridge.View(), RemoveRequest(id));
      bridge.RemoveDevice(id);
      if id !in devices {
        return;
      }
      var dev := devices[id];
      var hadSteamViiper := dev.steamHandle != 0 && dev.viiperConnected;
      devices := devices[id := dev.(viiperDevice := None, viiperConnected := false)];
      ClearedLeavesOthers(old(devices), id, devices[id]);
      ReleaseBindings(hadSteamViiper, openOk);
    }

    /** DeviceCreated: store the descriptor, connect, redraw. */
    method OnDeviceCreated(id: nat, vd: ViiperDevice)
      requires bridge.Valid()
      modifies this`devices, this`effects, bridge`requests, bridge`pushed, bridge`tasks
      ensures bridge.Valid()
      ensures State() == DeviceCreatedSpec(Ctx(), old(State()), id, vd)
    {
      if id !in devices {
        return;
      }
      devices := devices[id := devices[id].(viiperDevice := Some(vd))];
      ApplyAllOne(bridge.hasClient, bridge.wakerSet, bridge.View(), ConnectRequest(id, Some(vd)));
      bridge.ConnectDevice(id, Some(vd));
      effects := effects + [Redraw];
    }

    /** DeviceConnected: mark connected; a device with a Steam handle activates an inactive enforcer; redraw. */
    method OnDeviceConnected(id: nat, openOk: bool)
      modifies this`devices, this`effects, enforcer`active, enforcer`urls
      ensures State() == DeviceConnectedSpec(Ctx(), old(State()), id, openOk)
    {
      if id !in devices {
        return;
      }
      var dev := devices[id].(viiperConnected := true);
      devices := devices[id := dev];
      if dev.steamHandle != 0 {
        assert SteamBoundConnected(devices[id]);
        var hasAny := AnySteamBoundConnected(devices);
        if hasAny && !enforcer.active {
          enforcer.Activate(openOk);
        }
      }
      effects := effects + [Redraw];
    }

    /** DeviceRumble: both motors of the first gamepad under the device's first SDL id, for 10000 ms; redraw. */
    method OnDeviceRumble(id: nat, l: Byte, r: Byte, pick: set<nat> -> nat)
      modifies this`effects
      ensures State() == RumbleSpec(old(State()), id, l, r, pick)
    {
      if id !in devices || devices[id].sdlIds == {} {
        return;
      }
      var sdlId := pick(devices[id].sdlIds);
      if sdlId !in sdlDevices {
        return;
      }
      var pad := FirstGamepad(sdlDevices[sdlId]);
      if pad.None? {
        return;
      }
      effects := effects + [SetRumble(pad.value, Scale257(l), Scale257(r), RumbleDurationMs)];
      effects := effects + [Redraw];
    }

    /** `ignore_device`. */
    method IgnoreDevice(id: nat)
      requires Valid()
      modifies this`devices
      ensures Valid()
      ensures State() == IgnoreDeviceSpec(old(State()), id)
    {
      IgnoreDeviceSound(Ctx(), State(), id);
      ForgetDevice(id);
    }

    method ForgetDevice(id: nat)
      modifies this`devices
      ensures State() == IgnoreDeviceSpec(old(State()), id)
    {
      if id in devices {
        devices := devices - {id};
      }
    }

    /** `connect_viiper_device`. */
    method ConnectViiperDevice(id: nat)
      requires Valid()
      modifies this`effects, bridge`requests, bridge`pushed, bridge`tasks
      ensures Valid()
      ensures State() == ConnectViiperDeviceSpec(Ctx(), old(State()), id)
    {
      ConnectViiperDeviceSound(Ctx(), State(), id);
      RequestConnect(id);
    }

    method RequestConnect(id: nat)
      requires bridge.Valid()
      modifies this`effects, bridge`requests, bridge`pushed, bridge`tasks
      ensures bridge.Valid()
      ensures State() == ConnectViiperDeviceSpec(Ctx(), old(State()), id)
    {
      if id !in devices {
        return;
      }
      var dev := devices[id];
      if dev.viiperConnected || dev.viiperDevice.Some? {
        return;
      }
      if dev.steamHandle == 0 {
        return;
      }
      ApplyAllOne(bridge.hasClient, bridge.wakerSet, bridge.View(), CreateRequest(id, dev.viiperType));
      bridge.CreateDevice(id, dev.viiperType);
      effects := effects + [Redraw];
    }

    /** `disconnect_viiper_device`. */
    method DisconnectViiperDevice(id: nat)
      requires Valid()
      modifies bridge`requests, bridge`senders
      ensures Valid()
      ensures State() == DisconnectViiperDeviceSpec(Ctx(), old(State()), id)
    {
      DisconnectViiperDeviceSound(Ctx(), State(), id);
      RequestDisconnect(id);
    }

    method RequestDisconnect(id: nat)
      requires bridge.Valid()
      modifies bridge`requests, bridge`senders
      ensures bridge.Valid()
      ensures State() == DisconnectViiperDeviceSpec(Ctx(), old(State()), id)
    {
      if id !in devices {
        return;
      }
      var dev := devices[id];
      if !dev.viiperConnected || dev.viiperDevice.None? {
        return;
      }
      ApplyAllOne(bridge.hasClient, bridge.wakerSet, bridge.View(), RemoveRequest(id));
      bridge.RemoveDevice(id);
    }

    /** `on_cef_debug_ready`. */
    method OnCefDebugReady(port: nat)
      requires Valid()
      modifies this`cefDebugPort, this`effects
      ensures Valid()
      ensures State() == CefDebugReadySpec(Ctx(), old(State()), port)
    {
      CefDebugReadySound(Ctx(), State(), port);
      RecordCefPort(port);
    }

    method RecordCefPort(port: nat)
      modifies this`cefDebugPort, this`effects
      ensures State() == CefDebugReadySpec(Ctx(), old(State()), port)
    {
      cefDebugPort := Some(port);
      effects := effects + [Redraw];
      if launchedViaSteam && !continuousRedraw {
        effects := effects + [InjectOverlayNotifier];
      }
    }

    /** `on_overlay_state_changed`. */
    method OnOverlayStateChanged(open: bool)
      requires Valid()
      modifies this`steamOverlayOpen, this`continuousRedraw, this`pendingRedrawClears
      ensures Valid()
      ensures State() == OverlayStateChangedSpec(Ctx(), old(State()), open)
    {
      OverlayStateChangedSound(Ctx(), State(), open);
      RecordOverlayState(open);
    }

    method RecordOverlayState(open: bool)
      modifies this`steamOverlayOpen, this`continuousRedraw, this`pendingRedrawClears
      ensures State() == OverlayStateChangedSpec(Ctx(), old(State()), open)
    {
      if continuousDrawConfigured {
        return;
      }
      steamOverlayOpen := open;
      if !open {
        pendingRedrawClears := pendingRedrawClears + 1;
      } else {
        continuousRedraw := open;
      }
    }

    /** The thread spawned on closing the overlay wakes up and stores `false`. */
    method FireOverlayCloseTimer()
      requires Valid() && pendingRedrawClears > 0
      modifies this`continuousRedraw, this`pendingRedrawClears
      ensures Valid()
      ensures State() == OverlayCloseTimerSpec(old(State()))
    {
      OverlayCloseTimerSound(Ctx(), State());
      ClearContinuousRedraw();
    }

    method ClearContinuousRedraw()
      requires pendingRedrawClears > 0
      modifies this`continuousRedraw, this`pendingRedrawClears
      ensures State() == OverlayCloseTimerSpec(old(State()))
    {
      continuousRedraw := false;
      pendingRedrawClears := pendingRedrawClears - 1;
    }
  }
}
