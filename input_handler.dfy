/**
 * The input handler's device-correlation registry and its event handlers.
 *
 * A `Device` is one physical controller as the user sees it; SDL may expose
 * it through several handles (a joystick and a gamepad) that share one SDL
 * instance id. The handler keeps
 * - `devices`: device id to `Device`,
 * - `index` (`sdl_id_to_device`): SDL id to (device id, latest input frame),
 * - `sdlDevices`: SDL id to the SDL handles opened for it,
 * - `nextDeviceId`, `steamOverlayOpen`, `cefDebugPort` and the shared
 *   continuous-redraw flag,
 * and talks to the VIIPER bridge and the binding enforcer.
 *
 * Every handler is described twice: as a pure transition on a `State`
 * snapshot (the functions ending in `Spec`, with lemmas stating what the code
 * promises), and as a method of `EventHandlers.EventHandler` that updates the fields in the
 * order the code does and is proved to end in the state the `Spec` function
 * gives.
 */
module InputHandler {
  import opened Wrappers
  import opened Text
  import opened SdlDevices
  import opened ViiperBridge
  import opened BindingEnforcer

  datatype Device = Device(
    id: nat,
    sdlIds: set<nat>,
    infos: seq<SdlDeviceInfo>,
    steamHandle: nat,
    viiperType: string,
    viiperDevice: Option<ViiperDevice>,
    viiperConnected: bool)

  /** Requests the handler sends outside the registry. */
  datatype Effect =
    | Redraw
    | SetRumble(pad: Gamepad, low: nat, high: nat, durationMs: nat)
    | InjectOverlayNotifier

  /** What the handler reads but never changes. */
  datatype Ctx = Ctx(
    hasClient: bool,
    appId: Option<nat>,
    defaultViiperType: string,
    continuousDrawConfigured: bool,
    launchedViaSteam: bool)

  datatype State = State(
    devices: map<nat, Device>,
    index: map<nat, (nat, Frame)>,
    sdlDevices: map<nat, seq<SdlDevice>>,
    nextDeviceId: nat,
    steamOverlayOpen: bool,
    cefDebugPort: Option<nat>,
    continuousRedraw: bool,
    pendingRedrawClears: nat,
    effects: seq<Effect>,
    wakerSet: bool,
    bridge: Outbox,
    enforcer: EnforcerState)

  const RumbleDurationMs: nat := 10000

  // ---------------------------------------------------------------------------
  // Registry invariant

  /**
   * - every device is stored under its own id, which is below `nextDeviceId`,
   *   and has at least one SDL id and one info;
   * - every indexed device id is below `nextDeviceId`;
   * - a device has exactly one SDL id, and the SDL ids indexing a known
   *   device are exactly that device's SDL ids;
   * - a stored handle list is never empty;
   * - without a client, the bridge holds no task and no queue.
   */
  predicate ValidState(c: Ctx, s: State) {
    Registry(s.devices, s.index, s.nextDeviceId) && HandlesNonEmpty(s.sdlDevices) && BridgeIdle(c, s.bridge)
  }

  predicate Registry(devices: map<nat, Device>, index: map<nat, (nat, Frame)>, next: nat) {
    && (forall d :: d in devices ==>
          devices[d].id == d && d < next && |devices[d].infos| > 0 && devices[d].sdlIds != {})
    && (forall k :: k in index ==> index[k].0 < next)
    && (forall d, k1, k2 :: d in devices && k1 in devices[d].sdlIds && k2 in devices[d].sdlIds ==> k1 == k2)
    && (forall d, k :: d in devices && k in devices[d].sdlIds ==> k in index && index[k].0 == d)
    && (forall k :: k in index && index[k].0 in devices ==> k in devices[index[k].0].sdlIds)
  }

  predicate HandlesNonEmpty(m: map<nat, seq<SdlDevice>>) {
    forall k :: k in m ==> |m[k]| > 0
  }

  predicate BridgeIdle(c: Ctx, o: Outbox) {
    !c.hasClient ==> o.tasks == [] && o.senders == map[]
  }

  /** Replacing a device by one with the same id and SDL ids and some info keeps the registry. */
  lemma RegistryUpdate(devices: map<nat, Device>, index: map<nat, (nat, Frame)>, next: nat, id: nat, dev: Device)
    requires Registry(devices, index, next) && id in devices
    requires dev.id == id && dev.sdlIds == devices[id].sdlIds && |dev.infos| > 0
    ensures Registry(devices[id := dev], index, next)
  {
  }

  /** Erasing a device together with its only SDL id keeps the registry. */
  lemma RegistryErase(devices: map<nat, Device>, index: map<nat, (nat, Frame)>, next: nat, which: nat)
    requires Registry(devices, index, next) && which in index && index[which].0 in devices
    requires devices[index[which].0].sdlIds == {which}
    ensures Registry(devices - {index[which].0}, index - {which}, next)
  {
  }

  /** A new device under the next id, indexed by a fresh SDL id, keeps the registry with the counter bumped. */
  lemma RegistryAdd(devices: map<nat, Device>, index: map<nat, (nat, Frame)>, next: nat, which: nat, f: Frame, dev: Device)
    requires Registry(devices, index, next) && which !in index
    requires dev.id == next && dev.sdlIds == {which} && |dev.infos| > 0
    ensures Registry(devices[next := dev], index[which := (next, f)], next + 1)
  {
  }

  /** Dropping a record (`ignore_device`) keeps the registry. */
  lemma RegistryForget(devices: map<nat, Device>, index: map<nat, (nat, Frame)>, next: nat, id: nat)
    requires Registry(devices, index, next)
    ensures Registry(devices - {id}, index, next)
  {
  }

  /** A new frame for an indexed SDL id keeps the registry. */
  lemma RegistryReframe(devices: map<nat, Device>, index: map<nat, (nat, Frame)>, next: nat, which: nat, f: Frame)
    requires Registry(devices, index, next) && which in index
    ensures Registry(devices, index[which := (index[which].0, f)], next)
  {
  }

  /** New handles only: the registry stays. */
  lemma RegistryHandles(devices: map<nat, Device>, after: map<nat, Device>, index: map<nat, (nat, Frame)>, next: nat)
    requires Registry(devices, index, next) && HandlesOnly(devices, after)
    ensures Registry(after, index, next)
  {
    assert forall d :: d in after ==> after[d].id == devices[d].id && after[d].sdlIds == devices[d].sdlIds && after[d].infos == devices[d].infos;
  }

  /** Under the invariant a device has exactly one SDL id: the one that indexes it. */
  lemma SoleSdlId(c: Ctx, s: State, k: nat)
    requires ValidState(c, s) && k in s.index && s.index[k].0 in s.devices
    ensures s.devices[s.index[k].0].sdlIds == {k}
  {
    var d := s.index[k].0;
    forall k2 | k2 in s.devices[d].sdlIds ensures k2 == k {
      assert s.index[k2].0 == d;
    }
  }

  // ---------------------------------------------------------------------------
  // Pure pieces

  /** The UI's vendor/product spelling of a 16-bit id: "0x" and four lowercase hex digits. */
  function HexId(n: U16): string {
    Lower("0x" + Hex4(n))
  }

  /** The `(vid, pid)` reported by SDL, used when the path does not give them. */
  function FallbackVidPid(pad: Gamepad): (r: Option<(string, string)>)
    ensures r.Some? <==> pad.vendorId.Some? && pad.productId.Some?
  {
    if pad.vendorId.Some? && pad.productId.Some? then
      Some((HexId(pad.vendorId.value), HexId(pad.productId.value)))
    else None
  }

  /** The ids in the third '#'-segment of a device path, split on '&'. */
  function PathVidPid(path: string): Option<(string, string)> {
    var parts := Split(path, '#');
    if |parts| >= 3 then
      var ids := Split(parts[2], '&');
      if |ids| >= 2 then Some((Lower("0x" + ids[0]), Lower("0x" + ids[1]))) else None
    else None
  }

  /** `try_get_real_vid_pid_from_gamepad`. */
  function RealVidPid(pad: Gamepad): (r: Option<(string, string)>)
    ensures r.None? <==> FallbackVidPid(pad).None? && (pad.path.None? || PathVidPid(pad.path.value).None?)
    ensures pad.path.Some? && PathVidPid(pad.path.value).Some? ==> r == PathVidPid(pad.path.value)
    ensures pad.path.None? || PathVidPid(pad.path.value).None? ==> r == FallbackVidPid(pad)
  {
    match pad.path
    case None => FallbackVidPid(pad)
    case Some(p) => if PathVidPid(p).Some? then PathVidPid(p) else FallbackVidPid(pad)
  }

  /** The ids `on_pad_added` compares, with the ("unknown", "unknown") stand-in. */
  function VidPidOrUnknown(pad: Gamepad): (string, string) {
    RealVidPid(pad).GetOr(("unknown", "unknown"))
  }

  /** Whether some device's virtual device has these ids (case-insensitively on its side). */
  predicate IsClone(devices: map<nat, Device>, vid: string, pid: string) {
    exists d {:trigger Mirrors(devices[d], vid, pid)} :: d in devices && Mirrors(devices[d], vid, pid)
  }

  /** The device's virtual device has these ids (compared after lowercasing its own). */
  predicate Mirrors(dev: Device, vid: string, pid: string) {
    dev.viiperDevice.Some? && Lower(dev.viiperDevice.value.vid) == vid && Lower(dev.viiperDevice.value.pid) == pid
  }

  predicate SteamBoundConnected(d: Device) {
    d.steamHandle != 0 && d.viiperConnected
  }

  predicate AnySteamBoundConnected(devices: map<nat, Device>) {
    exists d {:trigger SteamBoundConnected(devices[d])} :: d in devices && SteamBoundConnected(devices[d])
  }

  predicate HasJoystickInfo(d: Device) {
    exists i :: 0 <= i < |d.infos| && !d.infos[i].isGamepad
  }

  /** The position of the first info of the given kind (`iter().position`). */
  function KindPosition(infos: seq<SdlDeviceInfo>, isGamepad: bool): (r: Option<nat>)
    ensures r.Some? ==> r.value < |infos| && infos[r.value].isGamepad == isGamepad
    ensures r.Some? ==> forall j :: 0 <= j < r.value ==> infos[j].isGamepad != isGamepad
    ensures r.None? <==> forall j :: 0 <= j < |infos| ==> infos[j].isGamepad != isGamepad
  {
    if |infos| == 0 then None
    else if infos[0].isGamepad == isGamepad then Some(0)
    else match KindPosition(infos[1..], isGamepad)
      case None => None
      case Some(k) => Some(k + 1)
  }

  /** Removes the first info of the given kind, if any. */
  function RemoveInfo(infos: seq<SdlDeviceInfo>, isGamepad: bool): (r: seq<SdlDeviceInfo>)
    ensures KindPosition(infos, isGamepad).None? ==> r == infos
    ensures KindPosition(infos, isGamepad).Some? ==>
      |r| == |infos| - 1 && multiset(r) + multiset{SdlDeviceInfo(isGamepad)} == multiset(infos)
  {
    match KindPosition(infos, isGamepad)
    case None => infos
    case Some(k) =>
      assert infos == infos[..k] + [infos[k]] + infos[k + 1..];
      assert infos[k] == SdlDeviceInfo(isGamepad);
      infos[..k] + infos[k + 1..]
  }

  function HandlesAt(m: map<nat, seq<SdlDevice>>, k: nat): seq<SdlDevice> {
    if k in m then m[k] else []
  }

  /** Pops the newest handle stored for `k`, dropping the entry once it is empty. */
  function PopHandle(m: map<nat, seq<SdlDevice>>, k: nat): (r: map<nat, seq<SdlDevice>>)
    ensures forall j :: j != k ==> (j in r <==> j in m) && (j in m ==> r[j] == m[j])
    ensures k in r <==> k in m && |m[k]| > 1
    ensures k in r ==> r[k] == m[k][..|m[k]| - 1]
  {
    if k !in m then m
    else
      var hs := m[k];
      var rest := if |hs| > 0 then hs[..|hs| - 1] else hs;
      if |rest| == 0 then m - {k} else m[k := rest]
  }

  /**
   * Rumble strength scaling `l as u16 * 257`: a byte becomes the 16-bit
   * value whose high and low bytes both equal it, so 0 stays 0 and 255
   * becomes 65535.
   */
  function Scale257(b: Byte): (v: nat)
    ensures v < 0x1_0000
    ensures v / 256 == b && v % 256 == b
  {
    b * 257
  }

  // ---------------------------------------------------------------------------
  // Shared steps

  function Issue(c: Ctx, s: State, rs: seq<Request>): State {
    s.(bridge := ApplyAll(c.hasClient, s.wakerSet, s.bridge, rs))
  }

  function DeactivateIf(s: State, cond: bool, openOk: bool): State {
    if cond then s.(enforcer := DeactivateStep(s.enforcer, openOk)) else s
  }

  function AddEffect(s: State, e: Effect): State {
    s.(effects := s.effects + [e])
  }

  // ---------------------------------------------------------------------------
  // events_connection.rs

  /** The ids of the first info of the removed kind (`is_gamepad != is_joystick`) once it is gone. */
  function RemainingInfos(d: Device, isJoystick: bool): seq<SdlDeviceInfo> {
    RemoveInfo(d.infos, !isJoystick)
  }

  /** Whether removing this handle leaves the indexed device with neither infos nor SDL ids. */
  predicate Erased(s: State, which: nat, isJoystick: bool)
    requires which in s.index && s.index[which].0 in s.devices
  {
    var d := s.devices[s.index[which].0];
    RemainingInfos(d, isJoystick) == [] && d.sdlIds - {which} == {}
  }

  /**
   * `on_pad_removed`: pop one SDL handle for the id; then, for an indexed
   * and known device, drop its first info of the removed kind; once no info
   * is left the SDL id leaves its `sdl_ids`, and once those are empty the
   * device's queue, index entry and record are erased. If the erased device
   * was steam-bound and connected and no other device is, an active
   * enforcer is deactivated.
   */
  function PadRemovedSpec(c: Ctx, s: State, which: nat, isJoystick: bool, openOk: bool): (t: State)
    ensures t == s.(sdlDevices := PopHandle(s.sdlDevices, which), devices := t.devices, index := t.index, bridge := t.bridge, enforcer := t.enforcer)
    ensures which !in s.index || s.index[which].0 !in s.devices ==> t == s.(sdlDevices := PopHandle(s.sdlDevices, which))
    ensures which in s.index && s.index[which].0 in s.devices ==>
      forall d :: d in s.devices && d != s.index[which].0 ==> d in t.devices && t.devices[d] == s.devices[d]
  {
    var handles := PopHandle(s.sdlDevices, which);
    if which !in s.index || s.index[which].0 !in s.devices then s.(sdlDevices := handles)
    else
      var id := s.index[which].0;
      var dev := s.devices[id];
      var infos := RemainingInfos(dev, isJoystick);
      if infos != [] then
        s.(sdlDevices := handles, devices := s.devices[id := dev.(infos := infos)])
      else if dev.sdlIds - {which} != {} then
        s.(sdlDevices := handles, devices := s.devices[id := dev.(infos := infos, sdlIds := dev.sdlIds - {which})])
      else
        var devices := s.devices - {id};
        var deactivate := SteamBoundConnected(dev) && !AnySteamBoundConnected(devices) && s.enforcer.active;
        s.(sdlDevices := handles,
           bridge := ApplyAll(c.hasClient, s.wakerSet, s.bridge, [RemoveRequest(id)]),
           index := s.index - {which},
           devices := devices,
           enforcer := if deactivate then DeactivateStep(s.enforcer, openOk) else s.enforcer)
  }

  /** The last handle of a device gone: its queue, index entry and record are erased, and the enforcer rule applies. */
  lemma PadRemovedErases(c: Ctx, s: State, which: nat, isJoystick: bool, openOk: bool, t: State)
    requires which in s.index && s.index[which].0 in s.devices && Erased(s, which, isJoystick)
    requires t == PadRemovedSpec(c, s, which, isJoystick, openOk)
    ensures
      var id := s.index[which].0;
      && t.devices == s.devices - {id}
      && t.index == s.index - {which}
      && t.bridge == ApplyAll(c.hasClient, s.wakerSet, s.bridge, [RemoveRequest(id)])
      && t.enforcer ==
           if SteamBoundConnected(s.devices[id]) && !AnySteamBoundConnected(s.devices - {id}) && s.enforcer.active
           then DeactivateStep(s.enforcer, openOk) else s.enforcer
  {
  }

  /** Otherwise only the device's infos (and, when they run out, its SDL ids) shrink. */
  lemma PadRemovedKeeps(c: Ctx, s: State, which: nat, isJoystick: bool, openOk: bool, t: State)
    requires which in s.index && s.index[which].0 in s.devices && !Erased(s, which, isJoystick)
    requires t == PadRemovedSpec(c, s, which, isJoystick, openOk)
    ensures
      var id := s.index[which].0;
      var infos := RemainingInfos(s.devices[id], isJoystick);
      && t.devices == s.devices[id := s.devices[id].(infos := infos, sdlIds := if infos == [] then s.devices[id].sdlIds - {which} else s.devices[id].sdlIds)]
      && t.index == s.index && t.bridge == s.bridge && t.enforcer == s.enforcer
  {
  }

  /**
   * The outcome of the steps of `on_pad_removed` after the pop, for an
   * indexed and known device, as the code takes them one field at a time.
   */
  predicate Shrunk(c: Ctx, s: State, which: nat, isJoystick: bool, openOk: bool,
                   devices: map<nat, Device>, index: map<nat, (nat, Frame)>, bridge: Outbox, enforcer: EnforcerState)
    requires which in s.index && s.index[which].0 in s.devices
  {
    var id := s.index[which].0;
    var dev := s.devices[id];
    var infos := RemainingInfos(dev, isJoystick);
    var rest := s.devices - {id};
    (devices, index, bridge, enforcer) ==
      if Erased(s, which, isJoystick) then
        (rest, s.index - {which}, ApplyAll(c.hasClient, s.wakerSet, s.bridge, [RemoveRequest(id)]),
         if SteamBoundConnected(dev) && !AnySteamBoundConnected(rest) && s.enforcer.active
         then DeactivateStep(s.enforcer, openOk) else s.enforcer)
      else
        (s.devices[id := dev.(infos := infos, sdlIds := if infos == [] then dev.sdlIds - {which} else dev.sdlIds)],
         s.index, s.bridge, s.enforcer)
  }

  /** Those steps end where `PadRemovedSpec` says. */
  lemma PadRemovedSteps(c: Ctx, s: State, which: nat, isJoystick: bool, openOk: bool,
                        devices: map<nat, Device>, index: map<nat, (nat, Frame)>, bridge: Outbox, enforcer: EnforcerState)
    requires which in s.index && s.index[which].0 in s.devices
    requires Shrunk(c, s, which, isJoystick, openOk, devices, index, bridge, enforcer)
    ensures PadRemovedSpec(c, s, which, isJoystick, openOk)
      == s.(sdlDevices := PopHandle(s.sdlDevices, which), devices := devices, index := index, bridge := bridge, enforcer := enforcer)
  {
  }

  /**
   * `handle_existing_device_connect`: a stored handle of 0 is replaced by a
   * non-zero one, and only then, lacking a virtual device, a creation is
   * requested. A non-zero handle is never overwritten.
   */
  function ExistingDeviceConnect(c: Ctx, s: State, id: nat, handle: nat): (t: State)
    requires id in s.devices
    ensures var d0 := s.devices[id];
      var adopt := d0.steamHandle == 0 && handle != 0;
      && t == s.(devices := t.devices, bridge := t.bridge)
      && t.devices == s.devices[id := d0.(steamHandle := if adopt then handle else d0.steamHandle)]
      && t.bridge == if adopt && d0.viiperDevice.None? then ApplyAll(c.hasClient, s.wakerSet, s.bridge, [CreateRequest(id, d0.viiperType)]) else s.bridge
    ensures s.devices[id].steamHandle != 0 ==> t.devices[id].steamHandle == s.devices[id].steamHandle
  {
    var dev := s.devices[id];
    if dev.steamHandle == 0 && handle != 0 then
      var dev2 := dev.(steamHandle := handle);
      var s1 := s.(devices := s.devices[id := dev2]);
      if dev2.viiperDevice.Some? then s1 else Issue(c, s1, [CreateRequest(id, dev2.viiperType)])
    else s
  }

  /** `handle_new_device`: a joystick is only stored; a gamepad is stored and, with a non-zero handle, gets exactly one create request. */
  function NewDevice(c: Ctx, s: State, id: nat, sdlId: nat, handle: nat, isJoystick: bool, info: SdlDeviceInfo): (t: State)
    ensures t == s.(devices := t.devices, bridge := t.bridge)
    ensures t.devices == s.devices[id := Device(id, {sdlId}, [info], handle, c.defaultViiperType, None, false)]
    ensures t.bridge == if !isJoystick && handle != 0 then ApplyAll(c.hasClient, s.wakerSet, s.bridge, [CreateRequest(id, c.defaultViiperType)]) else s.bridge
  {
    var dev := Device(id, {sdlId}, [info], handle, c.defaultViiperType, None, false);
    if isJoystick then s.(devices := s.devices[id := dev])
    else
      var s1 := if handle != 0 then Issue(c, s, [CreateRequest(id, dev.viiperType)]) else s;
      s1.(devices := s1.devices[id := dev])
  }

  /** The handle `on_pad_added` reads: 0 for a joystick. */
  function AddedHandle(sd: SdlDevice, steamHandleOf: Gamepad -> nat): nat {
    if sd.GamepadDev? then SteamHandle(sd.pad, steamHandleOf) else 0
  }

  /** A gamepad whose derived ids are those of one of our own virtual devices. */
  predicate IsOwnClone(s: State, sd: SdlDevice) {
    sd.GamepadDev? && IsClone(s.devices, VidPidOrUnknown(sd.pad).0, VidPidOrUnknown(sd.pad).1)
  }

  /**
   * `on_pad_added`. `handle0` is the handle SDL opened (None when opening
   * failed); `steamHandleOf` is SDL's current Steam handle for a pad.
   */
  function PadAddedSpec(c: Ctx, s: State, which: nat, handle0: Option<SdlDevice>, steamHandleOf: Gamepad -> nat, openOk: bool): (t: State)
    ensures handle0.None? ==> t == s
    // A clone of our own virtual device is never stored; at most an earlier joystick entry is removed.
    ensures handle0.Some? && IsOwnClone(s, handle0.value) ==>
      t == if which in s.index && s.index[which].0 in s.devices && HasJoystickInfo(s.devices[s.index[which].0])
           then PadRemovedSpec(c, s, which, true, openOk) else s
    ensures handle0.Some? && !IsOwnClone(s, handle0.value) ==>
      var sd := handle0.value;
      var handle := AddedHandle(sd, steamHandleOf);
      && t.sdlDevices == s.sdlDevices[which := HandlesAt(s.sdlDevices, which) + [sd]]
      && t.effects == s.effects && t.enforcer == s.enforcer
  {
    match handle0
    case None => s
    case Some(sd) =>
      if IsOwnClone(s, sd) then
        if which in s.index && s.index[which].0 in s.devices && HasJoystickInfo(s.devices[s.index[which].0]) then
          PadRemovedSpec(c, s, which, true, openOk)
        else s
      else
        var handle := AddedHandle(sd, steamHandleOf);
        var s1 := s.(sdlDevices := s.sdlDevices[which := HandlesAt(s.sdlDevices, which) + [sd]]);
        if which in s1.index then
          var id := s1.index[which].0;
          if id in s1.devices then
            var dev := s1.devices[id].(infos := s1.devices[id].infos + [InfoOf(sd)]);
            ExistingDeviceConnect(c, s1.(devices := s1.devices[id := dev]), id, handle)
          else s1
        else
          var id := s1.nextDeviceId;
          var s2 := s1.(nextDeviceId := id + 1, index := s1.index[which := (id, NeutralFrame)]);
          NewDevice(c, s2, id, which, handle, sd.JoystickDev?, InfoOf(sd))
  }

  /** The handle list once `on_pad_added` stored `sd` under `which`. */
  function StoredHandle(s: State, which: nat, sd: SdlDevice): (t: State)
    ensures t == s.(sdlDevices := t.sdlDevices) && which in t.sdlDevices
    ensures t.sdlDevices[which] == HandlesAt(s.sdlDevices, which) + [sd]
  {
    s.(sdlDevices := s.sdlDevices[which := HandlesAt(s.sdlDevices, which) + [sd]])
  }

  /** The steps of `on_pad_added` after the clone check, for an SDL id indexing a known device. */
  lemma PadAddedStepsKnown(c: Ctx, s: State, which: nat, sd: SdlDevice, steamHandleOf: Gamepad -> nat, openOk: bool)
    requires !IsOwnClone(s, sd) && which in s.index && s.index[which].0 in s.devices
    ensures var id := s.index[which].0;
      var s1 := StoredHandle(s, which, sd);
      var s2 := s1.(devices := s1.devices[id := s1.devices[id].(infos := s1.devices[id].infos + [InfoOf(sd)])]);
      PadAddedSpec(c, s, which, Some(sd), steamHandleOf, openOk) == ExistingDeviceConnect(c, s2, id, AddedHandle(sd, steamHandleOf))
  {
  }

  /** ... for an SDL id indexing a device that is gone: only the handle is stored. */
  lemma PadAddedStepsStale(c: Ctx, s: State, which: nat, sd: SdlDevice, steamHandleOf: Gamepad -> nat, openOk: bool)
    requires !IsOwnClone(s, sd) && which in s.index && s.index[which].0 !in s.devices
    ensures PadAddedSpec(c, s, which, Some(sd), steamHandleOf, openOk) == StoredHandle(s, which, sd)
  {
  }

  /** ... for an SDL id seen for the first time. */
  lemma PadAddedStepsNew(c: Ctx, s: State, which: nat, sd: SdlDevice, steamHandleOf: Gamepad -> nat, openOk: bool)
    requires !IsOwnClone(s, sd) && which !in s.index
    ensures var id := s.nextDeviceId;
      var s1 := StoredHandle(s, which, sd);
      var s2 := s1.(nextDeviceId := id + 1, index := s1.index[which := (id, NeutralFrame)]);
      PadAddedSpec(c, s, which, Some(sd), steamHandleOf, openOk) == NewDevice(c, s2, id, which, AddedHandle(sd, steamHandleOf), sd.JoystickDev?, InfoOf(sd))
  {
  }

  /** An SDL id seen for the first time gets a new device under the next id, and a creation exactly for a gamepad with a Steam handle. */
  lemma PadAddedFresh(c: Ctx, s: State, which: nat, handle0: Option<SdlDevice>, steamHandleOf: Gamepad -> nat, openOk: bool, t: State)
    requires handle0.Some? && !IsOwnClone(s, handle0.value) && which !in s.index
    requires t == PadAddedSpec(c, s, which, handle0, steamHandleOf, openOk)
    ensures t == s.(sdlDevices := t.sdlDevices, devices := t.devices, bridge := t.bridge, index := t.index, nextDeviceId := t.nextDeviceId)
    ensures
      var sd := handle0.value;
      var handle := AddedHandle(sd, steamHandleOf);
      var id := s.nextDeviceId;
      && t.nextDeviceId == id + 1
      && t.index == s.index[which := (id, NeutralFrame)]
      && t.devices == s.devices[id := Device(id, {which}, [InfoOf(sd)], handle, c.defaultViiperType, None, false)]
      && t.bridge == if sd.GamepadDev? && handle != 0 then ApplyAll(c.hasClient, s.wakerSet, s.bridge, [CreateRequest(id, c.defaultViiperType)]) else s.bridge
  {
  }

  /** An SDL id already indexed changes at most its own device and the requests; nothing is added or removed. */
  lemma PadAddedIndexed(c: Ctx, s: State, which: nat, handle0: Option<SdlDevice>, steamHandleOf: Gamepad -> nat, openOk: bool, t: State)
    requires handle0.Some? && !IsOwnClone(s, handle0.value) && which in s.index
    requires t == PadAddedSpec(c, s, which, handle0, steamHandleOf, openOk)
    ensures t == s.(sdlDevices := t.sdlDevices, devices := t.devices, bridge := t.bridge)
    ensures t.devices.Keys == s.devices.Keys
    ensures forall d :: d in s.devices && d != s.index[which].0 ==> t.devices[d] == s.devices[d]
    ensures s.index[which].0 !in s.devices ==> t.bridge == s.bridge
  {
  }

  /**
   * For a known device, one info is appended; the handle is adopted only
   * when the stored one is 0 and the new one is not (so a non-zero handle
   * is never overwritten), and only then, lacking a virtual device, one
   * creation is requested.
   */
  lemma PadAddedKnown(c: Ctx, s: State, which: nat, handle0: Option<SdlDevice>, steamHandleOf: Gamepad -> nat, openOk: bool, t: State)
    requires handle0.Some? && !IsOwnClone(s, handle0.value) && which in s.index && s.index[which].0 in s.devices
    requires t == PadAddedSpec(c, s, which, handle0, steamHandleOf, openOk)
    ensures
      var id := s.index[which].0;
      var d0 := s.devices[id];
      var handle := AddedHandle(handle0.value, steamHandleOf);
      var adopt := d0.steamHandle == 0 && handle != 0;
      && t.devices[id] == d0.(infos := d0.infos + [InfoOf(handle0.value)], steamHandle := if adopt then handle else d0.steamHandle)
      && t.bridge == if adopt && d0.viiperDevice.None? then ApplyAll(c.hasClient, s.wakerSet, s.bridge, [CreateRequest(id, d0.viiperType)]) else s.bridge
  {
  }

  /** The device id an SDL gamepad's instance id indexes, if any and if that device is known. */
  predicate IndexesKnown(devices: map<nat, Device>, index: map<nat, (nat, Frame)>, pad: Gamepad) {
    pad.instanceId.Some? && pad.instanceId.value in index && index[pad.instanceId.value].0 in devices
  }

  /** Only `steamHandle` of a device may differ, and no device appears or disappears. */
  predicate HandlesOnly(before: map<nat, Device>, after: map<nat, Device>) {
    after.Keys == before.Keys && forall d :: d in before ==> after[d] == before[d].(steamHandle := after[d].steamHandle)
  }

  /** Requests that are creations for known devices without a virtual device. */
  predicate OnlyCreations(devices: map<nat, Device>, rs: seq<Request>) {
    forall i :: 0 <= i < |rs| ==>
      rs[i].CreateRequest? && rs[i].deviceId in devices &&
      devices[rs[i].deviceId].viiperDevice.None? && rs[i].viiperType == devices[rs[i].deviceId].viiperType
  }

  /**
   * One pad of `on_steam_handle_updated`: its device takes SDL's current
   * handle (even a 0 one) and, lacking a virtual device, gets a create
   * request whatever the handle.
   */
  function RefreshPad(devices: map<nat, Device>, index: map<nat, (nat, Frame)>, pad: Gamepad, steamHandleOf: Gamepad -> nat): (t: (map<nat, Device>, seq<Request>))
    ensures HandlesOnly(devices, t.0) && OnlyCreations(devices, t.1)
    ensures !IndexesKnown(devices, index, pad) ==> t == (devices, [])
    ensures IndexesKnown(devices, index, pad) ==>
      var id := index[pad.instanceId.value].0;
      && t.0 == devices[id := devices[id].(steamHandle := SteamHandle(pad, steamHandleOf))]
      && t.1 == if devices[id].viiperDevice.None? then [CreateRequest(id, devices[id].viiperType)] else []
  {
    if !IndexesKnown(devices, index, pad) then (devices, [])
    else
      var id := index[pad.instanceId.value].0;
      var dev := devices[id].(steamHandle := SteamHandle(pad, steamHandleOf));
      (devices[id := dev], if dev.viiperDevice.None? then [CreateRequest(id, dev.viiperType)] else [])
  }

  /** Every gamepad among `handles`, in order; joysticks are skipped. */
  function RefreshPads(devices: map<nat, Device>, index: map<nat, (nat, Frame)>, handles: seq<SdlDevice>, steamHandleOf: Gamepad -> nat): (t: (map<nat, Device>, seq<Request>))
    ensures HandlesOnly(devices, t.0) && OnlyCreations(devices, t.1)
    ensures (forall i :: 0 <= i < |handles| ==> handles[i].JoystickDev?) ==> t == (devices, [])
    decreases |handles|
  {
    if handles == [] then (devices, [])
    else
      var (d1, r1) := RefreshPads(devices, index, handles[..|handles| - 1], steamHandleOf);
      var (d2, r2) := RefreshStep(d1, index, handles[|handles| - 1], steamHandleOf);
      (d2, r1 + r2)
  }

  /** One element of the refresh loop: a gamepad is refreshed, a joystick skipped. */
  function RefreshStep(devices: map<nat, Device>, index: map<nat, (nat, Frame)>, h: SdlDevice, steamHandleOf: Gamepad -> nat): (t: (map<nat, Device>, seq<Request>))
    ensures HandlesOnly(devices, t.0) && OnlyCreations(devices, t.1)
    ensures h.JoystickDev? ==> t == (devices, [])
  {
    if h.GamepadDev? then RefreshPad(devices, index, h.pad, steamHandleOf) else (devices, [])
  }

  /** `on_steam_handle_updated`: only the handles stored under `which`; none stored means no redraw either. */
  function SteamHandleUpdatedSpec(c: Ctx, s: State, which: nat, steamHandleOf: Gamepad -> nat): (t: State)
    ensures which !in s.sdlDevices ==> t == s
    ensures which in s.sdlDevices ==>
      && t == s.(devices := t.devices, bridge := t.bridge, effects := s.effects + [Redraw])
      && HandlesOnly(s.devices, t.devices)
      && |s.bridge.requests| <= |t.bridge.requests|
    ensures which in s.sdlDevices && |s.bridge.requests| <= |t.bridge.requests| ==>
      var rs := t.bridge.requests[|s.bridge.requests|..];
      && t.bridge == ApplyAll(c.hasClient, s.wakerSet, s.bridge, rs)
      && OnlyCreations(s.devices, rs)
  {
    if which !in s.sdlDevices then s
    else
      var (devs, rs) := RefreshPads(s.devices, s.index, s.sdlDevices[which], steamHandleOf);
      var t := AddEffect(Issue(c, s.(devices := devs), rs), Redraw);
      assert t.bridge.requests[|s.bridge.requests|..] == rs;
      t
  }

  /** The refresh loop's outcome, folded left over the stored handles, is what `SteamHandleUpdatedSpec` gives. */
  lemma SteamHandleUpdatedSteps(c: Ctx, s: State, which: nat, steamHandleOf: Gamepad -> nat)
    requires which in s.sdlDevices
    ensures var r := RefreshPads(s.devices, s.index, s.sdlDevices[which], steamHandleOf);
      SteamHandleUpdatedSpec(c, s, which, steamHandleOf)
        == s.(devices := r.0, bridge := ApplyAll(c.hasClient, s.wakerSet, s.bridge, r.1), effects := s.effects + [Redraw])
  {
  }

  // ---------------------------------------------------------------------------
  // events_input.rs

  /**
   * `on_update_complete`: unless the overlay is open, an indexed SDL id with
   * a stored gamepad has its frame refreshed from that pad (`poll`) and sent
   * to the bridge.
   */
  function UpdateCompleteSpec(c: Ctx, s: State, which: nat, poll: (Frame, Gamepad) -> Frame): (t: State)
    ensures s.steamOverlayOpen || which !in s.index || FirstGamepad(HandlesAt(s.sdlDevices, which)).None? ==> t == s
    ensures !s.steamOverlayOpen && which in s.index && FirstGamepad(HandlesAt(s.sdlDevices, which)).Some? ==>
      var id := s.index[which].0;
      var next := poll(s.index[which].1, FirstGamepad(s.sdlDevices[which]).value);
      t == s.(index := s.index[which := (id, next)], bridge := ApplyAll(c.hasClient, s.wakerSet, s.bridge, [UpdateRequest(id, next)]))
  {
    if s.steamOverlayOpen || which !in s.index then s
    else
      var pad := FirstGamepad(HandlesAt(s.sdlDevices, which));
      if pad.None? then s
      else
        var (id, frame) := s.index[which];
        var next := poll(frame, pad.value);
        Issue(c, s.(index := s.index[which := (id, next)]), [UpdateRequest(id, next)])
  }

  /** Some device other than `id` is steam-bound and connected. */
  predicate OtherSteamBoundConnected(devices: map<nat, Device>, id: nat) {
    exists d {:trigger SteamBoundConnected(devices[d])} :: d in devices && d != id && SteamBoundConnected(devices[d])
  }

  /** Once `id` is no longer steam-bound and connected, "any device is" means "another device is". */
  lemma ClearedLeavesOthers(devices: map<nat, Device>, id: nat, dev: Device)
    requires !SteamBoundConnected(dev)
    ensures AnySteamBoundConnected(devices[id := dev]) <==> OtherSteamBoundConnected(devices, id)
  {
    if OtherSteamBoundConnected(devices, id) {
      var d :| d in devices && d != id && SteamBoundConnected(devices[d]);
      assert devices[id := dev][d] == devices[d];
    }
  }

  /**
   * ServerDisconnected: the device's queue is dropped in any case; a known
   * device keeps its SDL ids and infos, loses its virtual device, and if it
   * was the last steam-bound connected one, an active enforcer is
   * deactivated.
   */
  function ServerDisconnectedSpec(c: Ctx, s: State, id: nat, openOk: bool): (t: State)
    ensures t.bridge == ApplyAll(c.hasClient, s.wakerSet, s.bridge, [RemoveRequest(id)])
    ensures id !in s.devices ==> t == s.(bridge := t.bridge)
    ensures id in s.devices ==>
      && t == s.(bridge := t.bridge, devices := t.devices, enforcer := t.enforcer)
      && t.devices == s.devices[id := s.devices[id].(viiperDevice := None, viiperConnected := false)]
      && t.enforcer ==
           if SteamBoundConnected(s.devices[id]) && !OtherSteamBoundConnected(s.devices, id) && s.enforcer.active
           then DeactivateStep(s.enforcer, openOk) else s.enforcer
  {
    var s1 := Issue(c, s, [RemoveRequest(id)]);
    if id !in s1.devices then s1
    else
      var dev := s1.devices[id];
      var s2 := s1.(devices := s1.devices[id := dev.(viiperDevice := None, viiperConnected := false)]);
      ClearedLeavesOthers(s.devices, id, s2.devices[id]);
      DeactivateIf(s2, SteamBoundConnected(dev) && !AnySteamBoundConnected(s2.devices) && s2.enforcer.active, openOk)
  }

  /** DeviceCreated: a known device stores the descriptor, gets exactly one connect request, and a redraw is requested. */
  function DeviceCreatedSpec(c: Ctx, s: State, id: nat, vd: ViiperDevice): (t: State)
    ensures id !in s.devices ==> t == s
    ensures id in s.devices ==>
      t == s.(devices := s.devices[id := s.devices[id].(viiperDevice := Some(vd))],
              bridge := ApplyAll(c.hasClient, s.wakerSet, s.bridge, [ConnectRequest(id, Some(vd))]),
              effects := s.effects + [Redraw])
  {
    if id !in s.devices then s
    else
      var s1 := s.(devices := s.devices[id := s.devices[id].(viiperDevice := Some(vd))]);
      AddEffect(Issue(c, s1, [ConnectRequest(id, Some(vd))]), Redraw)
  }

  /**
   * DeviceConnected: a known device is marked connected; the enforcer is
   * activated exactly when that device has a non-zero handle and the
   * enforcer is inactive (the device itself then satisfies the "any
   * steam-bound connected device" test).
   */
  function DeviceConnectedSpec(c: Ctx, s: State, id: nat, openOk: bool): (t: State)
    ensures id !in s.devices ==> t == s
    ensures id in s.devices ==>
      t == s.(devices := s.devices[id := s.devices[id].(viiperConnected := true)],
              effects := s.effects + [Redraw],
              enforcer := if s.devices[id].steamHandle != 0 && !s.enforcer.active
                          then ActivateStep(s.enforcer, c.appId, openOk) else s.enforcer)
  {
    if id !in s.devices then s
    else
      var dev := s.devices[id].(viiperConnected := true);
      var s1 := s.(devices := s.devices[id := dev]);
      var s2 :=
        if dev.steamHandle != 0 && AnySteamBoundConnected(s1.devices) && !s1.enforcer.active then
          s1.(enforcer := ActivateStep(s1.enforcer, c.appId, openOk))
        else s1;
      assert dev.steamHandle != 0 ==> SteamBoundConnected(s1.devices[id]);
      AddEffect(s2, Redraw)
  }

  /**
   * DeviceRumble: the first gamepad stored under one of the device's SDL ids
   * (the one `pick` chooses, as HashSet iteration does) gets both motors
   * set for 10000 ms; a missing device, SDL id or gamepad changes nothing.
   */
  function RumbleSpec(s: State, id: nat, l: Byte, r: Byte, pick: set<nat> -> nat): (t: State)
    ensures t == s.(effects := t.effects)
    ensures id !in s.devices || s.devices[id].sdlIds == {} ==> t == s
    ensures id in s.devices && s.devices[id].sdlIds != {} ==>
      var k := pick(s.devices[id].sdlIds);
      && (k !in s.sdlDevices || FirstGamepad(s.sdlDevices[k]).None? ==> t == s)
      && (k in s.sdlDevices && FirstGamepad(s.sdlDevices[k]).Some? ==>
            t.effects == s.effects + [SetRumble(FirstGamepad(s.sdlDevices[k]).value, l * 257, r * 257, RumbleDurationMs), Redraw])
  {
    if id !in s.devices || s.devices[id].sdlIds == {} then s
    else
      var k := pick(s.devices[id].sdlIds);
      if k !in s.sdlDevices then s
      else
        var pad := FirstGamepad(s.sdlDevices[k]);
        if pad.None? then s
        else AddEffect(AddEffect(s, SetRumble(pad.value, Scale257(l), Scale257(r), RumbleDurationMs)), Redraw)
  }

  /** `on_viiper_event`; the two error events only request a redraw. */
  function ViiperEventSpec(c: Ctx, s: State, ev: ViiperEvent, openOk: bool, pick: set<nat> -> nat): (t: State)
    ensures ev.ErrorCreateDevice? || ev.ErrorConnectDevice? ==> t == s.(effects := s.effects + [Redraw])
  {
    match ev
    case ServerDisconnected(id) => ServerDisconnectedSpec(c, s, id, openOk)
    case DeviceCreated(id, vd) => DeviceCreatedSpec(c, s, id, vd)
    case DeviceConnected(id) => DeviceConnectedSpec(c, s, id, openOk)
    case DeviceRumble(id, l, r) => RumbleSpec(s, id, l, r, pick)
    case ErrorCreateDevice(_) => AddEffect(s, Redraw)
    case ErrorConnectDevice(_) => AddEffect(s, Redraw)
  }

  // ---------------------------------------------------------------------------
  // events_misc.rs

  /** `ignore_device`: the record only; the index, handles and queues stay. */
  function IgnoreDeviceSpec(s: State, id: nat): (t: State)
    ensures t == s.(devices := t.devices)
    ensures t.devices.Keys == s.devices.Keys - {id}
    ensures forall d :: d in t.devices ==> t.devices[d] == s.devices[d]
  {
    s.(devices := s.devices - {id})
  }

  /** A known device that is not connected, has no virtual device and has a Steam handle. */
  predicate CanConnect(s: State, id: nat) {
    id in s.devices && !s.devices[id].viiperConnected && s.devices[id].viiperDevice.None? && s.devices[id].steamHandle != 0
  }

  /** `connect_viiper_device`: one create request and a redraw, and only for a device that `CanConnect`. */
  function ConnectViiperDeviceSpec(c: Ctx, s: State, id: nat): (t: State)
    ensures !CanConnect(s, id) ==> t == s
    ensures CanConnect(s, id) ==>
      t == s.(bridge := ApplyAll(c.hasClient, s.wakerSet, s.bridge, [CreateRequest(id, s.devices[id].viiperType)]), effects := s.effects + [Redraw])
  {
    if id !in s.devices then s
    else
      var dev := s.devices[id];
      if dev.viiperConnected || dev.viiperDevice.Some? then s
      else if dev.steamHandle == 0 then s
      else AddEffect(Issue(c, s, [CreateRequest(id, dev.viiperType)]), Redraw)
  }

  /** `disconnect_viiper_device`: the queue of a connected device with a virtual device is dropped; the record is untouched. */
  function DisconnectViiperDeviceSpec(c: Ctx, s: State, id: nat): (t: State)
    ensures t == s.(bridge := t.bridge)
    ensures t.bridge == if id in s.devices && s.devices[id].viiperConnected && s.devices[id].viiperDevice.Some?
                        then ApplyAll(c.hasClient, s.wakerSet, s.bridge, [RemoveRequest(id)]) else s.bridge
  {
    if id !in s.devices then s
    else if !s.devices[id].viiperConnected || s.devices[id].viiperDevice.None? then s
    else Issue(c, s, [RemoveRequest(id)])
  }

  /** `on_cef_debug_ready`: record the port and redraw; launched by Steam without continuous redraw, also start the overlay notifier injection. */
  function CefDebugReadySpec(c: Ctx, s: State, port: nat): (t: State)
    ensures t.cefDebugPort == Some(port)
    ensures t == s.(cefDebugPort := Some(port), effects := t.effects)
    ensures t.effects == s.effects + [Redraw] + if c.launchedViaSteam && !s.continuousRedraw then [InjectOverlayNotifier] else []
  {
    var s1 := AddEffect(s.(cefDebugPort := Some(port)), Redraw);
    if c.launchedViaSteam && !s1.continuousRedraw then AddEffect(s1, InjectOverlayNotifier) else s1
  }

  /**
   * `on_overlay_state_changed`: ignored when continuous draw is configured;
   * otherwise records the overlay state; opening turns continuous redraw on
   * at once, closing schedules turning it off (`pendingRedrawClears`).
   */
  function OverlayStateChangedSpec(c: Ctx, s: State, open: bool): (t: State)
    ensures c.continuousDrawConfigured ==> t == s
    ensures !c.continuousDrawConfigured ==> t.steamOverlayOpen == open
    ensures !c.continuousDrawConfigured && open ==> t == s.(steamOverlayOpen := true, continuousRedraw := true)
    ensures !c.continuousDrawConfigured && !open ==> t == s.(steamOverlayOpen := false, pendingRedrawClears := s.pendingRedrawClears + 1)
  {
    if c.continuousDrawConfigured then s
    else
      var s1 := s.(steamOverlayOpen := open);
      if !open then s1.(pendingRedrawClears := s1.pendingRedrawClears + 1)
      else s1.(continuousRedraw := open)
  }

  /** The delayed store of the thread that closing the overlay started: continuous redraw off. */
  function OverlayCloseTimerSpec(s: State): (t: State)
    requires s.pendingRedrawClears > 0
    ensures !t.continuousRedraw && t.pendingRedrawClears == s.pendingRedrawClears - 1
    ensures t == s.(continuousRedraw := false, pendingRedrawClears := t.pendingRedrawClears)
  {
    s.(continuousRedraw := false, pendingRedrawClears := s.pendingRedrawClears - 1)
  }

  /**
   * Closing the overlay and reopening it before the close timer fires: when
   * the timer then fires, the overlay is open but continuous redraw is off.
   */
  lemma OverlayReopenRace(c: Ctx, s: State)
    requires !c.continuousDrawConfigured
    ensures var t := OverlayCloseTimerSpec(OverlayStateChangedSpec(c, OverlayStateChangedSpec(c, s, false), true));
      t.steamOverlayOpen && !t.continuousRedraw
  {
  }

  // ---------------------------------------------------------------------------
  // What every handler keeps

  /**
   * A handler step from `s` to `t` keeps the registry invariant, never moves
   * `nextDeviceId` back, gives any device it adds an id at or above the old
   * `nextDeviceId` (so ids of removed devices never come back), and only
   * appends to the bridge's requests, the effects and the enforcer's URLs.
   */
  predicate Evolves(c: Ctx, s: State, t: State) {
    && ValidState(c, t)
    && s.nextDeviceId <= t.nextDeviceId
    && (forall d :: d in t.devices && d !in s.devices ==> s.nextDeviceId <= d)
    && s.bridge.requests <= t.bridge.requests
    && s.effects <= t.effects
    && s.enforcer.urls <= t.enforcer.urls
    && t.wakerSet == s.wakerSet
  }

  lemma EvolvesTrans(c: Ctx, s: State, t: State, u: State)
    requires Evolves(c, s, t) && Evolves(c, t, u)
    ensures Evolves(c, s, u)
  {
  }

  /** Requests to the bridge keep the invariant. */
  lemma IssueIdle(c: Ctx, o: Outbox, wakerSet: bool, rs: seq<Request>)
    requires BridgeIdle(c, o)
    ensures BridgeIdle(c, ApplyAll(c.hasClient, wakerSet, o, rs))
  {
    if !c.hasClient {
      ApplyAllWithoutClient(wakerSet, o, rs);
    }
  }

  /** Under the invariant a removal erases the device exactly when the removed kind was its only info. */
  lemma PadRemovedErasesLastInfo(c: Ctx, s: State, which: nat, isJoystick: bool)
    requires ValidState(c, s) && which in s.index && s.index[which].0 in s.devices
    ensures var d := s.devices[s.index[which].0];
      Erased(s, which, isJoystick) <==> |d.infos| == 1 && d.infos[0].isGamepad == !isJoystick
  {
    var d := s.devices[s.index[which].0];
    SoleSdlId(c, s, which);
    var p := KindPosition(d.infos, !isJoystick);
    if |d.infos| == 1 && d.infos[0].isGamepad == !isJoystick {
      assert p == Some(0);
    }
  }

  lemma PopHandleNonEmpty(m: map<nat, seq<SdlDevice>>, k: nat)
    requires HandlesNonEmpty(m)
    ensures HandlesNonEmpty(PopHandle(m, k))
  {
  }

  lemma PadRemovedSound(c: Ctx, s: State, which: nat, isJoystick: bool, openOk: bool)
    requires ValidState(c, s)
    ensures Evolves(c, s, PadRemovedSpec(c, s, which, isJoystick, openOk))
  {
    PopHandleNonEmpty(s.sdlDevices, which);
    if which in s.index && s.index[which].0 in s.devices {
      if Erased(s, which, isJoystick) {
        PadRemovedErasedSound(c, s, which, isJoystick, openOk);
      } else {
        PadRemovedKeptSound(c, s, which, isJoystick, openOk);
      }
    }
  }

  lemma PadRemovedErasedSound(c: Ctx, s: State, which: nat, isJoystick: bool, openOk: bool)
    requires ValidState(c, s) && which in s.index && s.index[which].0 in s.devices && Erased(s, which, isJoystick)
    ensures Evolves(c, s, PadRemovedSpec(c, s, which, isJoystick, openOk))
  {
    var t := PadRemovedSpec(c, s, which, isJoystick, openOk);
    PopHandleNonEmpty(s.sdlDevices, which);
    SoleSdlId(c, s, which);
    PadRemovedErases(c, s, which, isJoystick, openOk, t);
    RegistryErase(s.devices, s.index, s.nextDeviceId, which);
    IssueIdle(c, s.bridge, s.wakerSet, [RemoveRequest(s.index[which].0)]);
  }

  lemma PadRemovedKeptSound(c: Ctx, s: State, which: nat, isJoystick: bool, openOk: bool)
    requires ValidState(c, s) && which in s.index && s.index[which].0 in s.devices && !Erased(s, which, isJoystick)
    ensures Evolves(c, s, PadRemovedSpec(c, s, which, isJoystick, openOk))
  {
    var t := PadRemovedSpec(c, s, which, isJoystick, openOk);
    PopHandleNonEmpty(s.sdlDevices, which);
    SoleSdlId(c, s, which);
    PadRemovedKeeps(c, s, which, isJoystick, openOk, t);
    RegistryUpdate(s.devices, s.index, s.nextDeviceId, s.index[which].0, t.devices[s.index[which].0]);
  }

  lemma PadAddedSound(c: Ctx, s: State, which: nat, handle0: Option<SdlDevice>, steamHandleOf: Gamepad -> nat, openOk: bool)
    requires ValidState(c, s)
    ensures Evolves(c, s, PadAddedSpec(c, s, which, handle0, steamHandleOf, openOk))
  {
    if handle0.Some? {
      var sd := handle0.value;
      if IsOwnClone(s, sd) {
        PadRemovedSound(c, s, which, true, openOk);
      } else if which in s.index {
        PadAddedExistingSound(c, s, which, sd, steamHandleOf, openOk);
      } else {
        PadAddedNewSound(c, s, which, sd, steamHandleOf, openOk);
      }
    }
  }

  lemma PadAddedExistingSound(c: Ctx, s: State, which: nat, sd: SdlDevice, steamHandleOf: Gamepad -> nat, openOk: bool)
    requires ValidState(c, s) && !IsOwnClone(s, sd) && which in s.index
    ensures Evolves(c, s, PadAddedSpec(c, s, which, Some(sd), steamHandleOf, openOk))
  {
    var t := PadAddedSpec(c, s, which, Some(sd), steamHandleOf, openOk);
    PadAddedIndexed(c, s, which, Some(sd), steamHandleOf, openOk, t);
    if s.index[which].0 in s.devices {
      PadAddedKnown(c, s, which, Some(sd), steamHandleOf, openOk, t);
      PadAddedKnownSound(c, s, which, sd, t);
    }
  }

  lemma PadAddedKnownSound(c: Ctx, s: State, which: nat, sd: SdlDevice, t: State)
    requires ValidState(c, s) && which in s.index && s.index[which].0 in s.devices
    requires t == s.(sdlDevices := t.sdlDevices, devices := t.devices, bridge := t.bridge)
    requires t.sdlDevices == s.sdlDevices[which := HandlesAt(s.sdlDevices, which) + [sd]]
    requires t.devices.Keys == s.devices.Keys
    requires forall d :: d in s.devices && d != s.index[which].0 ==> t.devices[d] == s.devices[d]
    requires var d0 := s.devices[s.index[which].0];
      t.devices[s.index[which].0] == d0.(infos := d0.infos + [InfoOf(sd)], steamHandle := t.devices[s.index[which].0].steamHandle)
    requires t.bridge == s.bridge || t.bridge == ApplyAll(c.hasClient, s.wakerSet, s.bridge, [CreateRequest(s.index[which].0, s.devices[s.index[which].0].viiperType)])
    ensures Evolves(c, s, t)
  {
    var id := s.index[which].0;
    assert t.devices == s.devices[id := t.devices[id]];
    RegistryUpdate(s.devices, s.index, s.nextDeviceId, id, t.devices[id]);
    IssueIdle(c, s.bridge, s.wakerSet, [CreateRequest(id, s.devices[id].viiperType)]);
  }

  lemma PadAddedNewSound(c: Ctx, s: State, which: nat, sd: SdlDevice, steamHandleOf: Gamepad -> nat, openOk: bool)
    requires ValidState(c, s) && !IsOwnClone(s, sd) && which !in s.index
    ensures Evolves(c, s, PadAddedSpec(c, s, which, Some(sd), steamHandleOf, openOk))
  {
    var t := PadAddedSpec(c, s, which, Some(sd), steamHandleOf, openOk);
    PadAddedFresh(c, s, which, Some(sd), steamHandleOf, openOk, t);
    PadAddedFreshSound(c, s, which, sd, AddedHandle(sd, steamHandleOf), t);
  }

  lemma PadAddedFreshSound(c: Ctx, s: State, which: nat, sd: SdlDevice, handle: nat, t: State)
    requires ValidState(c, s) && which !in s.index
    requires t == s.(sdlDevices := t.sdlDevices, devices := t.devices, bridge := t.bridge, index := t.index, nextDeviceId := t.nextDeviceId)
    requires t.sdlDevices == s.sdlDevices[which := HandlesAt(s.sdlDevices, which) + [sd]]
    requires t.nextDeviceId == s.nextDeviceId + 1
    requires t.index == s.index[which := (s.nextDeviceId, NeutralFrame)]
    requires t.devices == s.devices[s.nextDeviceId := Device(s.nextDeviceId, {which}, [InfoOf(sd)], handle, c.defaultViiperType, None, false)]
    requires t.bridge == s.bridge || t.bridge == ApplyAll(c.hasClient, s.wakerSet, s.bridge, [CreateRequest(s.nextDeviceId, c.defaultViiperType)])
    ensures Evolves(c, s, t)
  {
    var id := s.nextDeviceId;
    RegistryAdd(s.devices, s.index, id, which, NeutralFrame, t.devices[id]);
    IssueIdle(c, s.bridge, s.wakerSet, [CreateRequest(id, c.defaultViiperType)]);
  }

  lemma SteamHandleUpdatedSound(c: Ctx, s: State, which: nat, steamHandleOf: Gamepad -> nat)
    requires ValidState(c, s)
    ensures Evolves(c, s, SteamHandleUpdatedSpec(c, s, which, steamHandleOf))
  {
    var t := SteamHandleUpdatedSpec(c, s, which, steamHandleOf);
    if which in s.sdlDevices {
      RegistryHandles(s.devices, t.devices, s.index, s.nextDeviceId);
      IssueIdle(c, s.bridge, s.wakerSet, t.bridge.requests[|s.bridge.requests|..]);
    }
  }

  lemma UpdateCompleteSound(c: Ctx, s: State, which: nat, poll: (Frame, Gamepad) -> Frame)
    requires ValidState(c, s)
    ensures Evolves(c, s, UpdateCompleteSpec(c, s, which, poll))
  {
    if !s.steamOverlayOpen && which in s.index && FirstGamepad(HandlesAt(s.sdlDevices, which)).Some? {
      var id := s.index[which].0;
      var next := poll(s.index[which].1, FirstGamepad(s.sdlDevices[which]).value);
      RegistryReframe(s.devices, s.index, s.nextDeviceId, which, next);
      IssueIdle(c, s.bridge, s.wakerSet, [UpdateRequest(id, next)]);
    }
  }

  lemma ServerDisconnectedSound(c: Ctx, s: State, id: nat, openOk: bool)
    requires ValidState(c, s)
    ensures Evolves(c, s, ServerDisconnectedSpec(c, s, id, openOk))
  {
    var t := ServerDisconnectedSpec(c, s, id, openOk);
    IssueIdle(c, s.bridge, s.wakerSet, [RemoveRequest(id)]);
    if id in s.devices {
      RegistryUpdate(s.devices, s.index, s.nextDeviceId, id, t.devices[id]);
    }
  }

  lemma DeviceCreatedSound(c: Ctx, s: State, id: nat, vd: ViiperDevice)
    requires ValidState(c, s)
    ensures Evolves(c, s, DeviceCreatedSpec(c, s, id, vd))
  {
    var t := DeviceCreatedSpec(c, s, id, vd);
    if id in s.devices {
      IssueIdle(c, s.bridge, s.wakerSet, [ConnectRequest(id, Some(vd))]);
      RegistryUpdate(s.devices, s.index, s.nextDeviceId, id, t.devices[id]);
    }
  }

  lemma DeviceConnectedSound(c: Ctx, s: State, id: nat, openOk: bool)
    requires ValidState(c, s)
    ensures Evolves(c, s, DeviceConnectedSpec(c, s, id, openOk))
  {
    var t := DeviceConnectedSpec(c, s, id, openOk);
    if id in s.devices {
      RegistryUpdate(s.devices, s.index, s.nextDeviceId, id, t.devices[id]);
    }
  }

  lemma ViiperEventSound(c: Ctx, s: State, ev: ViiperEvent, openOk: bool, pick: set<nat> -> nat)
    requires ValidState(c, s)
    ensures Evolves(c, s, ViiperEventSpec(c, s, ev, openOk, pick))
  {
    match ev
    case ServerDisconnected(id) => ServerDisconnectedSound(c, s, id, openOk);
    case DeviceCreated(id, vd) => DeviceCreatedSound(c, s, id, vd);
    case DeviceConnected(id) => DeviceConnectedSound(c, s, id, openOk);
    case _ =>
  }

  lemma IgnoreDeviceSound(c: Ctx, s: State, id: nat)
    requires ValidState(c, s)
    ensures Evolves(c, s, IgnoreDeviceSpec(s, id))
  {
    RegistryForget(s.devices, s.index, s.nextDeviceId, id);
  }

  lemma ConnectViiperDeviceSound(c: Ctx, s: State, id: nat)
    requires ValidState(c, s)
    ensures Evolves(c, s, ConnectViiperDeviceSpec(c, s, id))
  {
    if CanConnect(s, id) {
      IssueIdle(c, s.bridge, s.wakerSet, [CreateRequest(id, s.devices[id].viiperType)]);
    }
  }

  lemma DisconnectViiperDeviceSound(c: Ctx, s: State, id: nat)
    requires ValidState(c, s)
    ensures Evolves(c, s, DisconnectViiperDeviceSpec(c, s, id))
  {
    IssueIdle(c, s.bridge, s.wakerSet, [RemoveRequest(id)]);
  }

  lemma CefDebugReadySound(c: Ctx, s: State, port: nat)
    requires ValidState(c, s)
    ensures Evolves(c, s, CefDebugReadySpec(c, s, port))
  {
  }

  lemma OverlayStateChangedSound(c: Ctx, s: State, open: bool)
    requires ValidState(c, s)
    ensures Evolves(c, s, OverlayStateChangedSpec(c, s, open))
  {
  }

  lemma OverlayCloseTimerSound(c: Ctx, s: State)
    requires ValidState(c, s) && s.pendingRedrawClears > 0
    ensures Evolves(c, s, OverlayCloseTimerSpec(s))
  {
  }

}
