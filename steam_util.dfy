/**
 * The Steam helpers of `steam_utils/util.rs`: finding the marker shortcut in
 * `shortcuts.vdf`, the game id built from its app id, the shortcuts path,
 * the `ActiveUser` scan of `registry.vdf` and the `userdata` fallback, the
 * two process-wide caches (`STEAM_PATH`, `LAUNCHED_VIA_STEAM`) and
 * `try_set_marker_steam_env`.
 *
 * The file system, the registry, the parsed VDF and the running executable
 * path are inputs; paths are strings joined with '/'.
 */
module SteamUtil {
  import opened Wrappers
  import opened Text
  import opened Search
  import BindingEnforcer

  // ---------------------------------------------------------------------------
  // The marker shortcut

  /** A field of a parsed shortcut: a string, an integer, or anything else. */
  datatype Value = Str(s: string) | Int(n: int) | OtherValue

  /** One entry of the parsed `shortcuts.vdf`, by field name. */
  type Shortcut = map<string, Value>

  /** `shortcut.get(key).and_then(as_str)`. */
  function StrField(sc: Shortcut, key: string): (r: Option<string>)
    ensures r.Some? <==> key in sc && sc[key].Str?
  {
    if key in sc && sc[key].Str? then Some(sc[key].s) else None
  }

  /** `get("appid").and_then(as_u64).unwrap_or(0) as u32`: a u64 appid truncated to 32 bits, else 0. */
  function AppIdField(sc: Shortcut): (r: nat)
    ensures r < U32
    ensures "appid" in sc && sc["appid"].Int? && 0 <= sc["appid"].n < U32 ==> r == sc["appid"].n
    ensures !("appid" in sc && sc["appid"].Int? && 0 <= sc["appid"].n < U64) ==> r == 0
  {
    if "appid" in sc && sc["appid"].Int? && 0 <= sc["appid"].n < U64 then sc["appid"].n % U32 else 0
  }

  /** `to_lowercase().replace("\\", "/")`. */
  function NormalizePath(s: string): (r: string)
    ensures |r| == |s|
    ensures forall i :: 0 <= i < |s| ==> r[i] == if LowerChar(s[i]) == '\\' then '/' else LowerChar(s[i])
  {
    if s == [] then []
    else
      var c := LowerChar(s[0]);
      [if c == '\\' then '/' else c] + NormalizePath(s[1..])
  }

  /** No backslash and no upper-case letter is left after normalising. */
  lemma NormalizedPathIsCanonical(s: string)
    ensures '\\' !in NormalizePath(s) && IsLower(NormalizePath(s))
    ensures NormalizePath(NormalizePath(s)) == NormalizePath(s)
  {
    var n := NormalizePath(s);
    assert forall i :: 0 <= i < |n| ==> n[i] != '\\';
    assert forall i :: 0 <= i < |n| ==> NormalizePath(n)[i] == n[i];
  }

  /**
   * Whether a shortcut is the marker for the running executable: both its
   * `exe` and `LaunchOptions` are strings, the normalised exe contains the
   * normalised running path, and the lowercased options contain "--marker".
   */
  predicate IsMarker(sc: Shortcut, running: string) {
    && StrField(sc, "exe").Some?
    && StrField(sc, "LaunchOptions").Some?
    && Contains(NormalizePath(StrField(sc, "exe").value), NormalizePath(Lower(running)))
    && Contains(Lower(StrField(sc, "LaunchOptions").value), "--marker")
  }

  /** The test the marker search applies to each shortcut. */
  function MarkerTest(running: string): Shortcut -> bool {
    sc => IsMarker(sc, running)
  }

  /**
   * `shortcuts_has_sisr_marker`: the appid of the first marker shortcut, or 0
   * when the file did not parse to an object or holds no marker.
   */
  function MarkerAppId(shortcuts: Option<seq<Shortcut>>, running: string): (r: nat)
    ensures r < U32
    ensures shortcuts.None? ==> r == 0
    ensures shortcuts.Some? && (forall j :: 0 <= j < |shortcuts.value| ==> !IsMarker(shortcuts.value[j], running)) ==> r == 0
  {
    match shortcuts
    case None => 0
    case Some(scs) =>
      match FirstWhere(scs, MarkerTest(running))
      case None => 0
      case Some(i) => AppIdField(scs[i])
  }

  /**
   * The first marker decides: its appid is the answer, even when it has none
   * and a later marker has one.
   */
  lemma FirstMarkerWins(scs: seq<Shortcut>, running: string, i: nat)
    requires i < |scs| && IsMarker(scs[i], running)
    requires forall j :: 0 <= j < i ==> !IsMarker(scs[j], running)
    ensures MarkerAppId(Some(scs), running) == AppIdField(scs[i])
  {
    FirstWhereIs(scs, MarkerTest(running), i);
  }

  /** A non-zero answer names a marker shortcut with that appid, and no marker before it. */
  lemma MarkerAppIdFound(scs: seq<Shortcut>, running: string)
    requires MarkerAppId(Some(scs), running) != 0
    ensures exists i :: (0 <= i < |scs| && IsMarker(scs[i], running) && AppIdField(scs[i]) == MarkerAppId(Some(scs), running)
      && forall j :: 0 <= j < i ==> !IsMarker(scs[j], running))
  {
    var i := FirstWhere(scs, MarkerTest(running)).value;
    assert IsMarker(scs[i], running) && AppIdField(scs[i]) == MarkerAppId(Some(scs), running);
  }

  /** The search loop of `shortcuts_has_sisr_marker`. */
  method FindMarker(shortcuts: Option<seq<Shortcut>>, running: string) returns (appId: nat)
    ensures appId == MarkerAppId(shortcuts, running)
  {
    if shortcuts.None? {
      return 0;
    }
    var scs := shortcuts.value;
    var runningNorm := NormalizePath(Lower(running));
    var i := 0;
    while i < |scs|
      invariant 0 <= i <= |scs|
      invariant forall j :: 0 <= j < i ==> !IsMarker(scs[j], running)
    {
      var exe := StrField(scs[i], "exe");
      var args := StrField(scs[i], "LaunchOptions");
      if exe.Some? && args.Some? && Contains(NormalizePath(exe.value), runningNorm)
        && Contains(Lower(args.value), "--marker")
      {
        FirstMarkerWins(scs, running, i);
        return AppIdField(scs[i]);
      }
      assert !IsMarker(scs[i], running);
      i := i + 1;
    }
    assert FirstWhere(scs, MarkerTest(running)).None?;
    return 0;
  }

  // ---------------------------------------------------------------------------
  // The game id of the marker shortcut

  /** `2 << 24`: the shortcut type bits of a non-Steam game id. */
  const ShortcutIdType: nat := 0x200_0000

  /**
   * `(marker_app_id as u64) << 32 | (2 << 24)`: the marker's app id in the
   * high half and the shortcut type in the low half (the two bit ranges do
   * not overlap, so the or is a sum).
   */
  function MarkerGameId(marker: nat): (gid: nat)
    requires marker < U32
    ensures gid < U64
    ensures gid % U32 == ShortcutIdType
    ensures gid / U32 == marker
  {
    marker * U32 + ShortcutIdType
  }

  /** Shifting the game id right by 32, as the binding enforcer does, gives the marker's app id back. */
  lemma MarkerGameIdRoundTrip(marker: nat)
    requires marker < U32
    ensures BindingEnforcer.AppIdOf(MarkerGameId(marker)) == marker
  {
  }

  /**
   * The round trip through the environment: the decimal `SteamGameId`
   * written for a marker parses back into that game id, and the enforcer
   * reading it gets the marker's app id.
   */
  lemma MarkerGameIdThroughEnv(marker: nat)
    requires marker < U32
    ensures BindingEnforcer.ParseGameId(Some(NatToDecimal(MarkerGameId(marker)))) == Some(MarkerGameId(marker))
    ensures BindingEnforcer.AppIdOf(MarkerGameId(marker)) == marker
  {
    DecimalRoundTrip(MarkerGameId(marker), U64);
    MarkerGameIdRoundTrip(marker);
  }

  // ---------------------------------------------------------------------------
  // The shortcuts path

  /** `PathBuf::join` of a relative path. */
  function JoinPath(base: string, rel: string): string {
    base + "/" + rel
  }

  /** `<steam>/userdata/<id>/config/shortcuts.vdf`. */
  function ShortcutsPath(steam: string, userId: nat): string {
    JoinPath(JoinPath(JoinPath(steam, "userdata"), NatToDecimal(userId)), "config/shortcuts.vdf")
  }

  /** `get_shortcuts_path`: the path, only when the file exists. */
  function GetShortcutsPath(steam: string, userId: nat, fileExists: string -> bool): (r: Option<string>)
    ensures r.Some? <==> fileExists(ShortcutsPath(steam, userId))
    ensures r.Some? ==> r.value == ShortcutsPath(steam, userId)
  {
    var p := ShortcutsPath(steam, userId);
    if fileExists(p) then Some(p) else None
  }

  /** Four '/'-free components joined under a base split back into those components. */
  lemma {:induction false} JoinedParts(base: string, a: string, b: string, c: string, d: string)
    requires '/' !in a && '/' !in b && '/' !in c && '/' !in d
    ensures var p := JoinPath(JoinPath(JoinPath(base, a), b), c + "/" + d);
      && StartsWith(p, base + "/")
      && Split(p[|base| + 1..], '/') == [a, b, c, d]
  {
    var p := JoinPath(JoinPath(JoinPath(base, a), b), c + "/" + d);
    var rest := a + ['/'] + (b + ['/'] + (c + ['/'] + d));
    assert p == base + "/" + rest;
    assert p[|base| + 1..] == rest;
    SplitAfter(a, '/', b + ['/'] + (c + ['/'] + d));
    SplitAfter(b, '/', c + ['/'] + d);
    SplitAfter(c, '/', d);
    SplitFirst(d, '/');
  }

  /** The components under the Steam directory: the user id is the second one, and reads back. */
  lemma ShortcutsPathParts(steam: string, userId: nat)
    requires userId < U32
    ensures var p := ShortcutsPath(steam, userId);
      && StartsWith(p, steam + "/")
      && Split(p[|steam| + 1..], '/') == ["userdata", NatToDecimal(userId), "config", "shortcuts.vdf"]
      && ParseUnsigned(Split(p[|steam| + 1..], '/')[1], U32) == Some(userId)
  {
    var d := NatToDecimal(userId);
    assert forall i :: 0 <= i < |d| ==> IsDigit(d[i]);
    assert '/' !in d;
    assert "config/shortcuts.vdf" == "config" + "/" + "shortcuts.vdf";
    JoinedParts(steam, "userdata", d, "config", "shortcuts.vdf");
    DecimalRoundTrip(userId, U32);
  }

  /** Different users have different shortcuts files. */
  lemma ShortcutsPathInjective(steam: string, a: nat, b: nat)
    requires a < U32 && b < U32
    requires ShortcutsPath(steam, a) == ShortcutsPath(steam, b)
    ensures a == b
  {
    ShortcutsPathParts(steam, a);
    ShortcutsPathParts(steam, b);
  }

  // ---------------------------------------------------------------------------
  // The active user (Linux)

  /** The quoted key `"ActiveUser"`. */
  const ActiveUserKey: string := ['"'] + "ActiveUser" + ['"']

  /**
   * One line of `registry.vdf`: after trimming it must start with the quoted
   * key, and its fourth '"'-separated field must be a non-zero u32.
   */
  function LineUserId(line: string): (r: Option<nat>)
    ensures r.Some? ==> 0 < r.value < U32
  {
    var t := Trim(line);
    if !StartsWith(t, ActiveUserKey) then None
    else
      var parts := Split(t, '"');
      if |parts| < 4 then None
      else
        match ParseUnsigned(parts[3], U32)
        case Some(u) => if u != 0 then Some(u) else None
        case None => None
  }

  /** What `registry.vdf` holds for a user: the key, a separator without quotes, and the quoted decimal id. */
  lemma LineUserIdShown(sep: string, userId: nat)
    requires 0 < userId < U32
    requires '"' !in sep
    ensures LineUserId(ActiveUserKey + sep + "\"" + NatToDecimal(userId) + "\"") == Some(userId)
  {
    var d := NatToDecimal(userId);
    assert forall i :: 0 <= i < |d| ==> IsDigit(d[i]);
    QuotedLineParts(sep, d);
    DecimalRoundTrip(userId, U32);
  }

  /** The trimmed line is the line itself, starts with the key, and its '"'-fields are the pieces between quotes. */
  lemma QuotedLineParts(sep: string, d: string)
    requires '"' !in sep && '"' !in d
    ensures var line := ActiveUserKey + sep + "\"" + d + "\"";
      && Trim(line) == line
      && StartsWith(line, ActiveUserKey)
      && Split(line, '"') == ["", "ActiveUser", sep, d, ""]
  {
    var line := ActiveUserKey + sep + "\"" + d + "\"";
    assert line == ['"'] + "ActiveUser" + ['"'] + sep + ['"'] + d + ['"'];
    QuoteSplit("ActiveUser", sep, d);
    TrimFramed(line);
  }

  /** Three quote-free pieces, each between quotes, split on '"' into them with empty ends. */
  lemma {:induction false} QuoteSplit(a: string, b: string, c: string)
    requires '"' !in a && '"' !in b && '"' !in c
    ensures Split(['"'] + a + ['"'] + b + ['"'] + c + ['"'], '"') == ["", a, b, c, ""]
  {
    var q := ['"'];
    assert q + a + q + b + q + c + q == [] + q + (a + q + (b + q + (c + q + [])));
    SplitAfter([], '"', a + q + (b + q + (c + q + [])));
    SplitAfter(a, '"', b + q + (c + q + []));
    SplitAfter(b, '"', c + q + []);
    SplitAfter(c, '"', []);
  }

  function NamesUser(line: string): bool {
    LineUserId(line).Some?
  }

  /** The id the `registry.vdf` scan finds in a file's lines: that of the first line naming one. */
  function RegistryUserId(lines: seq<string>): (r: Option<nat>)
    ensures r.Some? ==> 0 < r.value < U32
    ensures r.None? <==> forall j :: 0 <= j < |lines| ==> LineUserId(lines[j]).None?
  {
    match FirstWhere(lines, NamesUser)
    case None => None
    case Some(i) => LineUserId(lines[i])
  }

  /** A line naming a user, with none before it naming one, gives the answer. */
  lemma RegistryFirstLineWins(lines: seq<string>, i: nat)
    requires i < |lines| && LineUserId(lines[i]).Some?
    requires forall j :: 0 <= j < i ==> LineUserId(lines[j]).None?
    ensures RegistryUserId(lines) == LineUserId(lines[i])
  {
    FirstWhereIs(lines, NamesUser, i);
  }

  /** The test of one line: trim, the key, four fields, a non-zero u32 in the fourth. */
  method CheckLine(line: string) returns (id: Option<nat>)
    ensures id == LineUserId(line)
  {
    var trimmed := Trim(line);
    if !StartsWith(trimmed, ActiveUserKey) {
      return None;
    }
    var parts := Split(trimmed, '"');
    if |parts| < 4 {
      return None;
    }
    id := ParseUnsigned(parts[3], U32);
    if id.Some? && id.value == 0 {
      id := None;
    }
  }

  /** The line loop of `active_user_id` over `registry.vdf` (`str::lines`, each line trimmed). */
  method ScanRegistry(lines: seq<string>) returns (r: Option<nat>)
    ensures r == RegistryUserId(lines)
  {
    var i := 0;
    while i < |lines|
      invariant 0 <= i <= |lines|
      invariant forall j :: 0 <= j < i ==> !NamesUser(lines[j])
    {
      var id := CheckLine(lines[i]);
      if id.Some? {
        RegistryFirstLineWins(lines, i);
        return id;
      }
      NoneSoFar(lines, NamesUser, i);
      i := i + 1;
    }
    return None;
  }

  /** An entry of `<steam>/userdata`: its name (None when not UTF-8) and whether it is a directory. */
  datatype DirEntry = DirEntry(name: Option<string>, isDir: bool)

  /** A directory named by a non-zero u32. */
  function EntryUserId(e: DirEntry): (r: Option<nat>)
    ensures r.Some? ==> 0 < r.value < U32 && e.isDir && e.name.Some? && ParseUnsigned(e.name.value, U32) == r
  {
    if e.isDir && e.name.Some? then
      match ParseUnsigned(e.name.value, U32)
      case Some(u) => if u != 0 then Some(u) else None
      case None => None
    else None
  }

  function NamesUserDir(e: DirEntry): bool {
    EntryUserId(e).Some?
  }

  /** The first entry of the listing that names a user. */
  function UserdataUserId(entries: seq<DirEntry>): (r: Option<nat>)
    ensures r.None? <==> forall j :: 0 <= j < |entries| ==> EntryUserId(entries[j]).None?
    ensures r.Some? ==> 0 < r.value < U32
  {
    match FirstWhere(entries, NamesUserDir)
    case None => None
    case Some(i) => EntryUserId(entries[i])
  }

  /** An entry naming a user, with none before it naming one, gives the answer. */
  lemma UserdataFirstEntryWins(entries: seq<DirEntry>, i: nat)
    requires i < |entries| && EntryUserId(entries[i]).Some?
    requires forall j :: 0 <= j < i ==> EntryUserId(entries[j]).None?
    ensures UserdataUserId(entries) == EntryUserId(entries[i])
  {
    FirstWhereIs(entries, NamesUserDir, i);
  }

  /** The fallback loop of `active_user_id` over the `userdata` directory. */
  method ScanUserdata(entries: seq<DirEntry>) returns (r: Option<nat>)
    ensures r == UserdataUserId(entries)
  {
    var i := 0;
    while i < |entries|
      invariant 0 <= i <= |entries|
      invariant forall j :: 0 <= j < i ==> EntryUserId(entries[j]).None?
    {
      var id := EntryUserId(entries[i]);
      if id.Some? {
        UserdataFirstEntryWins(entries, i);
        return id;
      }
      i := i + 1;
    }
    return None;
  }

  /**
   * `active_user_id` on Linux, given what `steam_path()` returned, the lines
   * of the `registry.vdf` beside the Steam directory (None when it has no
   * parent, is missing or cannot be read) and the `userdata` listing (None
   * when missing or unreadable): the registry first, then the listing.
   */
  function ActiveUserId(steamPath: Option<string>, registry: Option<seq<string>>, userdata: Option<seq<DirEntry>>): (r: Option<nat>)
    ensures steamPath.None? ==> r.None?
    ensures r.Some? ==> 0 < r.value < U32
    ensures steamPath.Some? && registry.Some? && RegistryUserId(registry.value).Some? ==> r == RegistryUserId(registry.value)
    ensures steamPath.Some? && (registry.None? || RegistryUserId(registry.value).None?) ==>
      r == if userdata.Some? then UserdataUserId(userdata.value) else None
  {
    if steamPath.None? then None
    else
      var fromRegistry := if registry.Some? then RegistryUserId(registry.value) else None;
      if fromRegistry.Some? then fromRegistry
      else if userdata.Some? then UserdataUserId(userdata.value)
      else None
  }

  // ---------------------------------------------------------------------------
  // The process-wide caches

  /** The decision of `steam_path`: a configured path, else the cached one, else what detection finds. */
  function SteamPathChoice(configured: Option<string>, cache: Option<Option<string>>, detected: Option<string>): (p: Option<string>)
    ensures configured.Some? ==> p == configured
    ensures configured.None? && cache.Some? ==> p == cache.value
    ensures configured.None? && cache.None? ==> p == detected
  {
    if configured.Some? then configured
    else if cache.Some? then cache.value
    else detected
  }

  /** The cache after a call: set once, by the first successful detection. */
  function SteamPathCacheAfter(configured: Option<string>, cache: Option<Option<string>>, detected: Option<string>): (c: Option<Option<string>>)
    ensures cache.Some? ==> c == cache
    ensures c.Some? ==> c.value.Some? || cache.Some?
  {
    if configured.None? && cache.None? && detected.Some? then Some(detected) else cache
  }

  /**
   * Once a path has been detected, every later call without a configured
   * path returns it, whatever a new detection would find.
   */
  lemma SteamPathSticks(d: string, configured2: Option<string>, detected2: Option<string>, cache: Option<Option<string>>)
    requires cache.None?
    ensures var c := SteamPathCacheAfter(None, cache, Some(d));
      SteamPathChoice(configured2, c, detected2) == if configured2.Some? then configured2 else Some(d)
  {
  }

  /** The Linux detection: `$HOME/.steam/steam` when it exists. */
  function LinuxSteamDir(home: Option<string>, fileExists: string -> bool): (r: Option<string>)
    ensures r.Some? ==> home.Some? && r.value == JoinPath(home.value, ".steam/steam") && fileExists(r.value)
    ensures home.Some? && fileExists(JoinPath(home.value, ".steam/steam")) ==> r.Some?
  {
    if home.Some? && fileExists(JoinPath(home.value, ".steam/steam")) then Some(JoinPath(home.value, ".steam/steam"))
    else None
  }

  /** `STEAM_PATH` and `LAUNCHED_VIA_STEAM`: two set-once slots (None while unset). */
  class SteamGlobals {
    var steamPathCache: Option<Option<string>>
    var launched: Option<bool>

    constructor ()
      ensures steamPathCache.None? && launched.None?
    {
      steamPathCache := None;
      launched := None;
    }

    /** `init`: records whether `SteamGameId` is set; a second call leaves the first value. */
    method Init(steamGameIdSet: bool)
      modifies this`launched
      ensures launched == if old(launched).None? then Some(steamGameIdSet) else old(launched)
    {
      if launched.None? {
        launched := Some(steamGameIdSet);
      }
    }

    /** `launched_via_steam`: false until `init` has run. */
    function LaunchedViaSteam(): (b: bool)
      reads this
      ensures launched.None? ==> !b
      ensures launched.Some? ==> b == launched.value
    {
      launched.GetOr(false)
    }

    /** `steam_path`, given the configured path and what platform detection would find. */
    method SteamPath(configured: Option<string>, detected: Option<string>) returns (p: Option<string>)
      modifies this`steamPathCache
      ensures p == SteamPathChoice(configured, old(steamPathCache), detected)
      ensures steamPathCache == SteamPathCacheAfter(configured, old(steamPathCache), detected)
    {
      if configured.Some? {
        return configured;
      }
      if steamPathCache.Some? {
        return steamPathCache.value;
      }
      if detected.Some? {
        steamPathCache := Some(detected);
      }
      return detected;
    }
  }

  // ---------------------------------------------------------------------------
  // try_set_marker_steam_env

  /** Why `try_set_marker_steam_env` gave up, in the order it checks. */
  datatype MarkerEnvError = NoSteamPath | NoActiveUser | NoShortcutsFile | NoMarker | NoGamepadInfo

  /** The variables written once a marker is found (everything but `SteamVirtualGamepadInfo`). */
  function MarkerVars(steam: string, marker: nat): (vars: map<string, string>)
    requires marker < U32
    ensures vars.Keys == {"SteamClientLaunch", "SteamAppId", "SISR_MARKER_ID", "SteamGameId", "SteamOverlayGameId", "SteamPath"}
    ensures vars["SteamGameId"] == vars["SteamOverlayGameId"] == NatToDecimal(MarkerGameId(marker))
  {
    map["SteamClientLaunch" := "0", "SteamAppId" := "0",
        "SISR_MARKER_ID" := NatToDecimal(marker),
        "SteamGameId" := NatToDecimal(MarkerGameId(marker)),
        "SteamOverlayGameId" := NatToDecimal(MarkerGameId(marker)),
        "SteamPath" := steam]
  }

  /** `<steam>/config/virtualgamepadinfo.txt`. */
  function GamepadInfoPath(steam: string): string {
    JoinPath(JoinPath(steam, "config"), "virtualgamepadinfo.txt")
  }

  /**
   * The outcome of `try_set_marker_steam_env`: the first missing item, in
   * the order steam path, user id, shortcuts file, marker, gamepad info file;
   * each error means every earlier item was found and this one was not.
   */
  function MarkerEnvOutcome(steamPath: Option<string>, userId: Option<nat>, fileExists: string -> bool,
                            shortcutsOf: string -> Option<seq<Shortcut>>, running: string): (r: Result<(), MarkerEnvError>)
    requires userId.Some? ==> userId.value < U32
    ensures r == Err(NoSteamPath) <==> steamPath.None?
    ensures r == Err(NoActiveUser) <==> steamPath.Some? && userId.None?
    ensures r == Err(NoShortcutsFile) <==>
      steamPath.Some? && userId.Some? && !fileExists(ShortcutsPath(steamPath.value, userId.value))
    ensures r == Err(NoMarker) <==>
      steamPath.Some? && userId.Some? && fileExists(ShortcutsPath(steamPath.value, userId.value)) &&
      MarkerAppId(shortcutsOf(ShortcutsPath(steamPath.value, userId.value)), running) == 0
    ensures r == Err(NoGamepadInfo) <==>
      steamPath.Some? && userId.Some? && fileExists(ShortcutsPath(steamPath.value, userId.value)) &&
      MarkerAppId(shortcutsOf(ShortcutsPath(steamPath.value, userId.value)), running) != 0 &&
      !fileExists(GamepadInfoPath(steamPath.value))
  {
    if steamPath.None? then Err(NoSteamPath)
    else if userId.None? then Err(NoActiveUser)
    else
      match GetShortcutsPath(steamPath.value, userId.value, fileExists)
      case None => Err(NoShortcutsFile)
      case Some(sp) =>
        if MarkerAppId(shortcutsOf(sp), running) == 0 then Err(NoMarker)
        else if !fileExists(GamepadInfoPath(steamPath.value)) then Err(NoGamepadInfo)
        else Ok(())
  }

  /** The environment variables of the running process. */
  class ProcessEnv {
    var vars: map<string, string>

    constructor (initial: map<string, string>)
      ensures vars == initial
    {
      vars := initial;
    }
  }

  /**
   * `try_set_marker_steam_env`, given what `steam_path()` and
   * `active_user_id()` returned, the file-existence test, the parsed
   * shortcuts file at a path and the running executable. The variables are
   * written as soon as a marker is found, so a missing gamepad info file
   * leaves them set; `SteamVirtualGamepadInfo` is written only on success.
   */
  method TrySetMarkerSteamEnv(env: ProcessEnv, steamPath: Option<string>, userId: Option<nat>, fileExists: string -> bool,
                              shortcutsOf: string -> Option<seq<Shortcut>>, running: string)
      returns (r: Result<(), MarkerEnvError>)
    requires userId.Some? ==> userId.value < U32
    modifies env
    ensures r == MarkerEnvOutcome(steamPath, userId, fileExists, shortcutsOf, running)
    ensures r.Err? && r.error != NoGamepadInfo ==> env.vars == old(env.vars)
    ensures r == Err(NoGamepadInfo) || r.Ok? ==>
      var marker := MarkerAppId(shortcutsOf(ShortcutsPath(steamPath.value, userId.value)), running);
      env.vars == if r.Ok? then old(env.vars) + MarkerVars(steamPath.value, marker) + map["SteamVirtualGamepadInfo" := GamepadInfoPath(steamPath.value)]
                  else old(env.vars) + MarkerVars(steamPath.value, marker)
  {
    if steamPath.None? {
      return Err(NoSteamPath);
    }
    if userId.None? {
      return Err(NoActiveUser);
    }
    var steam := steamPath.value;
    var shortcutsPath := GetShortcutsPath(steam, userId.value, fileExists);
    if shortcutsPath.None? {
      return Err(NoShortcutsFile);
    }
    var marker := FindMarker(shortcutsOf(shortcutsPath.value), running);
    if marker == 0 {
      return Err(NoMarker);
    }
    env.vars := env.vars + MarkerVars(steam, marker);
    var infoPath := GamepadInfoPath(steam);
    if !fileExists(infoPath) {
      return Err(NoGamepadInfo);
    }
    env.vars := env.vars + map["SteamVirtualGamepadInfo" := infoPath];
    return Ok(());
  }

  /**
   * After a marker was found, the process environment names it, and an
   * enforcer created from it forces the bindings of the marker's app id.
   */
  lemma MarkerEnvFeedsEnforcer(vars: map<string, string>, steam: string, marker: nat)
    requires 0 < marker < U32
    ensures var env := vars + MarkerVars(steam, marker);
      && ParseUnsigned(env["SISR_MARKER_ID"], U32) == Some(marker)
      && BindingEnforcer.ParseGameId(Some(env["SteamGameId"])).Some?
      && BindingEnforcer.AppIdOf(BindingEnforcer.ParseGameId(Some(env["SteamGameId"])).value) == marker
  {
    DecimalRoundTrip(marker, U32);
    MarkerGameIdThroughEnv(marker);
  }
}
