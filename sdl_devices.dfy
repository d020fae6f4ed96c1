/**
 * The SDL handles the input handler keeps: opened joysticks and gamepads,
 * with the properties of a gamepad that the handler reads (instance id,
 * reported vendor/product ids, device path), and the Steam handle query.
 */
module SdlDevices {
  import opened Wrappers

  type U16 = n: nat | n < 0x1_0000

  /**
   * An opened SDL gamepad. `instanceId` is `Gamepad::id()` (which can fail);
   * `rawNull` says whether the wrapped `SDL_Gamepad` pointer is null.
   */
  datatype Gamepad = Gamepad(
    instanceId: Option<nat>,
    vendorId: Option<U16>,
    productId: Option<U16>,
    path: Option<string>,
    rawNull: bool)

  datatype Joystick = Joystick(instanceId: nat)

  /** `SDLDevice`. */
  datatype SdlDevice = JoystickDev(joystick: Joystick) | GamepadDev(pad: Gamepad)

  /** `SdlDeviceInfo`: the descriptive record kept per SDL handle; the handler only reads its kind. */
  datatype SdlDeviceInfo = SdlDeviceInfo(isGamepad: bool)

  function InfoOf(d: SdlDevice): (info: SdlDeviceInfo)
    ensures info.isGamepad <==> d.GamepadDev?
  {
    SdlDeviceInfo(d.GamepadDev?)
  }

  /**
   * `get_gamepad_steam_handle`: 0 when the instance id is missing or 0, or
   * when the raw pointer is null; otherwise whatever SDL reports, given here
   * as `reported` because it changes while the pad stays open.
   */
  function SteamHandle(pad: Gamepad, reported: Gamepad -> nat): (h: nat)
    ensures (pad.instanceId.GetOr(0) == 0 || pad.rawNull) ==> h == 0
    ensures h != 0 ==> h == reported(pad)
  {
    if pad.instanceId.GetOr(0) == 0 then 0
    else if pad.rawNull then 0
    else reported(pad)
  }

  /** The first gamepad among the handles stored for one SDL id (`find_map` over `SDLDevice::Gamepad`). */
  function FirstGamepad(handles: seq<SdlDevice>): (r: Option<Gamepad>)
    ensures r.Some? ==> exists i :: 0 <= i < |handles| && handles[i] == GamepadDev(r.value) && forall j :: 0 <= j < i ==> handles[j].JoystickDev?
    ensures r.None? <==> forall i :: 0 <= i < |handles| ==> handles[i].JoystickDev?
  {
    if |handles| == 0 then None
    else if handles[0].GamepadDev? then
      assert handles[0] == GamepadDev(handles[0].pad);
      Some(handles[0].pad)
    else
      var r := FirstGamepad(handles[1..]);
      if r.Some? then
        var i :| 0 <= i < |handles[1..]| && handles[1..][i] == GamepadDev(r.value) && forall j :: 0 <= j < i ==> handles[1..][j].JoystickDev?;
        assert handles[i + 1] == GamepadDev(r.value);
        assert forall j :: 0 <= j < i + 1 ==> handles[j].JoystickDev? by {
          forall j | 0 <= j < i + 1 ensures handles[j].JoystickDev? {
            if j > 0 {
              assert handles[j] == handles[1..][j - 1];
            }
          }
        }
        r
      else
        r
  }
}
