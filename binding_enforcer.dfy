/**
 * Steam input-binding enforcement. While active, Steam applies the
 * controller configuration of the app id derived from `SteamGameId` to the
 * virtual devices; it is switched on and off by opening
 * `steam://forceinputappid/<id>` URLs. Whether opening a URL succeeds is
 * decided by the operating system, so every method that opens one takes
 * that outcome as a parameter.
 */
module BindingEnforcer {
  import opened Wrappers
  import opened Text

  const ForceInputPrefix := "steam://forceinputappid/"

  /** The URL that forces the bindings of `appId` (0 turns enforcement off). */
  function ForceInputUrl(appId: nat): (url: string)
    ensures StartsWith(url, ForceInputPrefix)
    ensures ParseUnsigned(url[|ForceInputPrefix|..], U32) == if appId < U32 then Some(appId) else None
  {
    var digits := NatToDecimal(appId);
    var url := ForceInputPrefix + digits;
    assert url[|ForceInputPrefix|..] == digits;
    url
  }

  /** `SteamGameId` as `str::parse::<u64>` reads it; an unset variable gives None. */
  function ParseGameId(steamGameId: Option<string>): (r: Option<nat>)
    ensures r.Some? ==> r.value < U64
  {
    match steamGameId
    case None => None
    case Some(s) => ParseUnsigned(s, U64)
  }

  /** `(gid >> 32) as u32`: the high 32 bits of a 64-bit game id. */
  function AppIdOf(gameId: nat): (r: nat)
    requires gameId < U64
    ensures r < U32
    ensures r * U32 <= gameId < (r + 1) * U32
  {
    gameId / U32
  }

  /** The mutable part of an enforcer: whether it is active, and the URLs it opened, oldest first. */
  datatype EnforcerState = EnforcerState(active: bool, urls: seq<string>)

  /**
   * `activate` (with the stored `appId`) and `activate_with_appid`: nothing
   * happens when already active or without an id; otherwise the URL is
   * opened and enforcement becomes active exactly when that succeeded.
   */
  function ActivateStep(e: EnforcerState, appId: Option<nat>, openOk: bool): (r: EnforcerState)
    ensures e.active || appId.None? ==> r == e
    ensures !e.active && appId.Some? ==> r.urls == e.urls + [ForceInputUrl(appId.value)]
    ensures r.active <==> e.active || (appId.Some? && openOk)
  {
    if e.active || appId.None? then e
    else EnforcerState(openOk, e.urls + [ForceInputUrl(appId.value)])
  }

  /** `deactivate`: nothing when inactive; otherwise opens the id-0 URL and turns off only on success. */
  function DeactivateStep(e: EnforcerState, openOk: bool): (r: EnforcerState)
    ensures !e.active ==> r == e
    ensures e.active ==> r.urls == e.urls + [ForceInputUrl(0)]
    ensures r.active <==> e.active && !openOk
  {
    if !e.active then e
    else EnforcerState(!openOk, e.urls + [ForceInputUrl(0)])
  }

  class Enforcer {
    const gameId: Option<nat>
    const appId: Option<nat>
    var active: bool
    /** Every URL this enforcer opened (or tried to), oldest first. */
    var urls: seq<string>

    /** The app id exists exactly when the game id does, and is its high half. */
    predicate Valid()
      reads this
    {
      && (gameId.Some? <==> appId.Some?)
      && (gameId.Some? ==> gameId.value < U64 && appId.value == AppIdOf(gameId.value))
    }

    /** `BindingEnforcer::new`, given the value of the `SteamGameId` variable. */
    constructor (steamGameId: Option<string>)
      ensures Valid()
      ensures gameId == ParseGameId(steamGameId)
      ensures !active && urls == []
    {
      var gid := ParseGameId(steamGameId);
      gameId := gid;
      appId := match gid case None => None case Some(g) => Some(AppIdOf(g));
      active := false;
      urls := [];
    }

    function State(): EnforcerState
      reads this
    {
      EnforcerState(active, urls)
    }

    /** `activate`. */
    method Activate(openOk: bool)
      modifies this`active, this`urls
      ensures State() == ActivateStep(old(State()), appId, openOk)
    {
      if active {
        return;
      }
      if appId.None? {
        return;
      }
      urls := urls + [ForceInputUrl(appId.value)];
      if openOk {
        active := true;
      }
    }

    /** `activate_with_appid`: the given id instead of the stored one. */
    method ActivateWithAppId(id: nat, openOk: bool)
      requires id < U32
      modifies this`active, this`urls
      ensures State() == ActivateStep(old(State()), Some(id), openOk)
    {
      if active {
        return;
      }
      urls := urls + [ForceInputUrl(id)];
      if openOk {
        active := true;
      }
    }

    /** `deactivate`. */
    method Deactivate(openOk: bool)
      modifies this`active, this`urls
      ensures State() == DeactivateStep(old(State()), openOk)
    {
      if !active {
        return;
      }
      urls := urls + [ForceInputUrl(0)];
      if openOk {
        active := false;
      }
    }

    /** `Drop`: an active enforcer deactivates itself. */
    method Drop(openOk: bool)
      modifies this`active, this`urls
      ensures State() == DeactivateStep(old(State()), openOk)
    {
      if active {
        Deactivate(openOk);
      }
    }
  }
}
