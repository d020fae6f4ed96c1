/**
 * Configuration loading: built-in defaults, then every candidate config
 * file in search order, then the file named by `--config`, then the
 * command-line arguments, each layer overriding the keys it sets; the
 * merged layers are then extracted into a typed configuration.
 *
 * Configuration values are flattened to dotted keys (`window.fullscreen`);
 * reading and parsing a file is a parameter.
 */
module Config {
  import opened Wrappers

  // ---------------------------------------------------------------------------
  // Paths and extensions

  /** `Path::join` for a relative file name. */
  function Join(dir: string, file: string): string
  {
    dir + "/" + file
  }

  /** The last position of `c` in `s`. */
  function LastIndex(s: string, c: char): (r: Option<nat>)
    ensures r.Some? ==> r.value < |s| && s[r.value] == c
    ensures r.Some? ==> forall j :: r.value < j < |s| ==> s[j] != c
    ensures r.None? <==> forall j :: 0 <= j < |s| ==> s[j] != c
    decreases |s|
  {
    if |s| == 0 then None
    else if s[|s| - 1] == c then Some(|s| - 1)
    else LastIndex(s[..|s| - 1], c)
  }

  /** The last component of a path. */
  function FileName(p: string): string
  {
    match LastIndex(p, '/')
    case None => p
    case Some(i) => p[i + 1..]
  }

  /**
   * `Path::extension`: what follows the last '.' of the file name, unless
   * there is no '.' or the only one starts the name.
   */
  function Extension(p: string): (r: Option<string>)
    ensures r.Some? ==> '.' !in r.value && '/' !in r.value
  {
    var f := FileName(p);
    match LastIndex(f, '.')
    case None => None
    case Some(i) => if i == 0 then None else Some(f[i + 1..])
  }

  /** A file `name.ext` joined to any directory has extension `ext`. */
  lemma ExtensionOfJoined(dir: string, name: string, ext: string)
    requires |name| > 0 && '.' !in name && '/' !in name
    requires '.' !in ext && '/' !in ext
    ensures Extension(Join(dir, name + "." + ext)) == Some(ext)
  {
    var file := name + "." + ext;
    var p := Join(dir, file);
    assert p == dir + "/" + file;
    assert p[|dir| + 1..] == file;
    assert LastIndex(p, '/') == Some(|dir|) by {
      assert p[|dir|] == '/';
      forall j | |dir| < j < |p|
        ensures p[j] != '/'
      {
        assert p[j] == file[j - |dir| - 1];
      }
    }
    assert FileName(p) == file;
    assert LastIndex(file, '.') == Some(|name|) by {
      assert file[|name|] == '.';
      forall j | |name| < j < |file|
        ensures file[j] != '.'
      {
        assert file[j] == ext[j - |name| - 1];
      }
    }
    assert file[|name| + 1..] == ext;
  }

  /** The file formats figment reads. */
  datatype Format = Toml | Yaml | Json

  const TomlExt: string := "toml"
  const YamlExt: string := "yaml"
  const YmlExt: string := "yml"
  const JsonExt: string := "json"

  /** The format a file is read as: by extension, TOML for any other extension or none. */
  function FormatFor(ext: Option<string>): (f: Format)
    ensures f == Yaml <==> ext == Some(YamlExt) || ext == Some(YmlExt)
    ensures f == Json <==> ext == Some(JsonExt)
    ensures f == Toml <==> ext != Some(YamlExt) && ext != Some(YmlExt) && ext != Some(JsonExt)
  {
    match ext
    case Some(e) =>
      if e == TomlExt then Toml
      else if e == YamlExt || e == YmlExt then Yaml
      else if e == JsonExt then Json
      else Toml
    case None => Toml
  }

  // ---------------------------------------------------------------------------
  // Candidate files

  const Names: seq<string> := ["SISR", "config"]
  const Exts: seq<string> := [TomlExt, YamlExt, YmlExt, JsonExt]

  /** The `i`-th file name searched in a directory: each name with each extension, names outermost. */
  function CandidateName(i: nat): string
    requires i < 8
  {
    Names[i / 4] + "." + Exts[i % 4]
  }

  /** The candidates of one directory, if it is available. */
  function DirCandidates(dir: Option<string>): (r: seq<string>)
    ensures |r| == if dir.Some? then 8 else 0
    ensures forall i :: 0 <= i < |r| ==> r[i] == Join(dir.value, CandidateName(i))
  {
    match dir
    case None => []
    case Some(d) => seq(8, i requires 0 <= i < 8 => Join(d, CandidateName(i)))
  }

  /** The search list: the project config directory's candidates, then the executable directory's. */
  function Candidates(configDir: Option<string>, exeDir: Option<string>): (r: seq<string>)
    ensures |r| == |DirCandidates(configDir)| + |DirCandidates(exeDir)|
    ensures |r| == 0 || |r| == 8 || |r| == 16
  {
    DirCandidates(configDir) + DirCandidates(exeDir)
  }

  /** Candidate `i` of a directory is read in the format its extension names. */
  lemma CandidateFormat(dir: string, i: nat)
    requires i < 8
    ensures FormatFor(Extension(Join(dir, CandidateName(i)))) == [Toml, Yaml, Yaml, Json][i % 4]
  {
    assert '.' !in Names[i / 4] && '/' !in Names[i / 4];
    assert '.' !in Exts[i % 4] && '/' !in Exts[i % 4];
    ExtensionOfJoined(dir, Names[i / 4], Exts[i % 4]);
  }

  /** Appends one directory's eight candidates. */
  method PushDirCandidates(paths: seq<string>, dir: string) returns (out: seq<string>)
    ensures out == paths + DirCandidates(Some(dir))
  {
    out := paths;
    var n := 0;
    while n < |Names|
      invariant 0 <= n <= |Names|
      invariant |out| == |paths| + 4 * n
      invariant out[..|paths|] == paths
      invariant forall i :: 0 <= i < 4 * n ==> out[|paths| + i] == Join(dir, CandidateName(i))
    {
      var e := 0;
      while e < |Exts|
        invariant 0 <= e <= |Exts|
        invariant |out| == |paths| + 4 * n + e
        invariant out[..|paths|] == paths
        invariant forall i :: 0 <= i < 4 * n + e ==> out[|paths| + i] == Join(dir, CandidateName(i))
      {
        assert CandidateName(4 * n + e) == Names[n] + "." + Exts[e];
        out := out + [Join(dir, Names[n] + "." + Exts[e])];
        e := e + 1;
      }
      n := n + 1;
    }
    assert out == paths + DirCandidates(Some(dir));
  }

  /** `config_candidate_paths`, given the two directories when they are available. */
  method CandidatePaths(configDir: Option<string>, exeDir: Option<string>) returns (paths: seq<string>)
    ensures paths == Candidates(configDir, exeDir)
  {
    paths := [];
    if configDir.Some? {
      paths := PushDirCandidates(paths, configDir.value);
    }
    if exeDir.Some? {
      paths := PushDirCandidates(paths, exeDir.value);
    }
  }

  // ---------------------------------------------------------------------------
  // Layers and merging

  datatype Value = VBool(b: bool) | VNat(n: nat) | VStr(s: string)

  /** One provider's settings by dotted key. */
  type Layer = map<string, Value>

  /** `Figment::merge`: the later layer's keys win. */
  function Merge(a: Layer, b: Layer): (r: Layer)
    ensures r.Keys == a.Keys + b.Keys
    ensures forall k :: k in b ==> r[k] == b[k]
    ensures forall k :: k in a && k !in b ==> r[k] == a[k]
  {
    a + b
  }

  /** What reading one file gives: nothing when absent, its settings, or a parse failure. */
  datatype FileContents = Missing | Parsed(settings: Layer) | Malformed

  /** A file's layer with its read failure, if any, noted: figment only reports it on extraction. */
  datatype Loaded = Loaded(layer: Layer, failed: bool)

  /** A provider for the file at `p`, read in the format its extension names. */
  function LoadFile(p: string, read: (string, Format) -> FileContents): (r: Loaded)
    ensures read(p, FormatFor(Extension(p))).Parsed? ==> r == Loaded.Loaded(read(p, FormatFor(Extension(p))).settings, false)
    ensures read(p, FormatFor(Extension(p))).Missing? ==> r == Loaded.Loaded(map[], false)
    ensures r.failed <==> read(p, FormatFor(Extension(p))).Malformed?
  {
    match read(p, FormatFor(Extension(p)))
    case Missing => Loaded.Loaded(map[], false)
    case Parsed(s) => Loaded.Loaded(s, false)
    case Malformed => Loaded.Loaded(map[], true)
  }

  /** The layers over the defaults, in merge order: the candidates, the explicit file, the command line. */
  function Layers(candidates: seq<string>, explicit: Option<string>, cli: Layer, read: (string, Format) -> FileContents): (r: seq<Loaded>)
    ensures |r| == |candidates| + 2
    ensures forall i :: 0 <= i < |candidates| ==> r[i] == LoadFile(candidates[i], read)
    ensures r[|candidates|] == if explicit.Some? then LoadFile(explicit.value, read) else Loaded.Loaded(map[], false)
    ensures r[|candidates| + 1] == Loaded.Loaded(cli, false)
  {
    seq(|candidates|, i requires 0 <= i < |candidates| => LoadFile(candidates[i], read))
      + [if explicit.Some? then LoadFile(explicit.value, read) else Loaded.Loaded(map[], false)]
      + [Loaded.Loaded(cli, false)]
  }

  /** Merging a provider on top: its keys win, and a read failure sticks. */
  function Combine(acc: Loaded, next: Loaded): (r: Loaded)
    ensures r.layer == Merge(acc.layer, next.layer)
    ensures r.failed <==> acc.failed || next.failed
  {
    Loaded.Loaded(acc.layer + next.layer, acc.failed || next.failed)
  }

  /** The providers folded over `base`, oldest first. */
  function Fold(base: Layer, ls: seq<Loaded>): Loaded
    decreases |ls|
  {
    if |ls| == 0 then Loaded.Loaded(base, false) else Combine(Fold(base, ls[..|ls| - 1]), ls[|ls| - 1])
  }

  /** One more provider on top of a prefix. */
  lemma FoldStep(base: Layer, ls: seq<Loaded>, n: nat)
    requires n < |ls|
    ensures Fold(base, ls[..n + 1]) == Combine(Fold(base, ls[..n]), ls[n])
  {
    assert ls[..n + 1][..n] == ls[..n];
  }

  /** The fold fails exactly when some provider failed to read. */
  lemma {:induction false} FoldFailed(base: Layer, ls: seq<Loaded>)
    ensures Fold(base, ls).failed <==> exists i :: 0 <= i < |ls| && ls[i].failed
    decreases |ls|
  {
    if |ls| > 0 {
      var init := ls[..|ls| - 1];
      FoldFailed(base, init);
      assert forall i :: 0 <= i < |init| ==> init[i] == ls[i];
    }
  }

  /** A key set by some provider takes the value the last provider setting it gives. */
  lemma {:induction false} FoldLastWins(base: Layer, ls: seq<Loaded>, k: string, i: nat)
    requires i < |ls| && k in ls[i].layer
    requires forall j :: i < j < |ls| ==> k !in ls[j].layer
    ensures k in Fold(base, ls).layer && Fold(base, ls).layer[k] == ls[i].layer[k]
    decreases |ls|
  {
    if i < |ls| - 1 {
      var init := ls[..|ls| - 1];
      assert forall j :: i < j < |init| ==> init[j] == ls[j];
      FoldLastWins(base, init, k, i);
    }
  }

  /** A key no provider sets keeps its base value. */
  lemma {:induction false} FoldKeepsBase(base: Layer, ls: seq<Loaded>, k: string)
    requires k in base
    requires forall j :: 0 <= j < |ls| ==> k !in ls[j].layer
    ensures k in Fold(base, ls).layer && Fold(base, ls).layer[k] == base[k]
    decreases |ls|
  {
    if |ls| > 0 {
      var init := ls[..|ls| - 1];
      assert forall j :: 0 <= j < |init| ==> init[j] == ls[j];
      FoldKeepsBase(base, init, k);
    }
  }

  // ---------------------------------------------------------------------------
  // Defaults and extraction

  const TrayKey: string := "tray"
  const ViiperAddressKey: string := "viiper_address"
  const CreateKey: string := "window.create"
  const FullscreenKey: string := "window.fullscreen"
  const ContinuousDrawKey: string := "window.continous_draw"
  const LogLevelKey: string := "log.level"
  const CefDebugDisableKey: string := "steam.cef_debug_disable"
  const LaunchTimeoutKey: string := "steam.steam_launch_timeout_secs"
  const SteamPathKey: string := "steam.steam_path"

  const DefaultViiperAddress: string := "localhost:3242"
  const U64: nat := 0x1_0000_0000_0000_0000

  /** The extracted settings. */
  datatype Settings = Settings(
    tray: Option<bool>,
    viiperAddress: Option<string>,
    create: Option<bool>,
    fullscreen: Option<bool>,
    continuousDraw: Option<bool>,
    logLevel: Option<string>,
    cefDebugDisable: Option<bool>,
    launchTimeout: Option<nat>,
    steamPath: Option<string>)

  /** `Config::default`: the log level is DEBUG in debug builds and INFO otherwise. */
  function DefaultLayer(debugBuild: bool): (r: Layer)
    ensures r.Keys == {TrayKey, ViiperAddressKey, CreateKey, FullscreenKey, ContinuousDrawKey, LogLevelKey,
                       CefDebugDisableKey, LaunchTimeoutKey}
  {
    map[TrayKey := VBool(true),
        ViiperAddressKey := VStr(DefaultViiperAddress),
        CreateKey := VBool(false),
        FullscreenKey := VBool(true),
        ContinuousDrawKey := VBool(false),
        LogLevelKey := VStr(if debugBuild then "DEBUG" else "INFO"),
        CefDebugDisableKey := VBool(false),
        LaunchTimeoutKey := VNat(1)]
  }

  /** A typed optional field: absent is `None`, a wrong type fails. */
  datatype Field<T> = Absent | Present(v: T) | WrongType {
    predicate Ok() { !WrongType? }
    function Value(): Option<T>
    {
      match this
      case Present(v) => Some(v)
      case _ => None
    }
  }

  function BoolField(m: Layer, k: string): (r: Field<bool>)
    ensures k !in m ==> r == Absent
    ensures k in m ==> (r.Present? <==> m[k].VBool?) && (r.Present? ==> r.v == m[k].b)
  {
    if k !in m then Absent
    else match m[k]
      case VBool(b) => Present(b)
      case _ => WrongType
  }

  function StrField(m: Layer, k: string): (r: Field<string>)
    ensures k !in m ==> r == Absent
    ensures k in m ==> (r.Present? <==> m[k].VStr?) && (r.Present? ==> r.v == m[k].s)
  {
    if k !in m then Absent
    else match m[k]
      case VStr(s) => Present(s)
      case _ => WrongType
  }

  /** A `u64` field: a number at or above 2^64 fails like a wrong type. */
  function U64Field(m: Layer, k: string): (r: Field<nat>)
    ensures k !in m ==> r == Absent
    ensures k in m ==> (r.Present? <==> m[k].VNat? && m[k].n < U64) && (r.Present? ==> r.v == m[k].n)
  {
    if k !in m then Absent
    else match m[k]
      case VNat(n) => if n < U64 then Present(n) else WrongType
      case _ => WrongType
  }

  /** `extract`: every known key must have its field's type; other keys are ignored. */
  function Extract(m: Layer): (r: Option<Settings>)
    ensures r.Some? ==> r.value.tray == BoolField(m, TrayKey).Value() && r.value.fullscreen == BoolField(m, FullscreenKey).Value()
    ensures r.Some? ==> r.value.viiperAddress == StrField(m, ViiperAddressKey).Value()
    ensures r.Some? ==> r.value.launchTimeout == U64Field(m, LaunchTimeoutKey).Value()
    ensures r.Some? ==> r.value.create == BoolField(m, CreateKey).Value() && r.value.continuousDraw == BoolField(m, ContinuousDrawKey).Value()
    ensures r.Some? ==> r.value.logLevel == StrField(m, LogLevelKey).Value() && r.value.cefDebugDisable == BoolField(m, CefDebugDisableKey).Value()
    ensures r.Some? ==> r.value.steamPath == StrField(m, SteamPathKey).Value()
    ensures r.None? <==> (!BoolField(m, TrayKey).Ok() || !StrField(m, ViiperAddressKey).Ok() || !BoolField(m, CreateKey).Ok()
                          || !BoolField(m, FullscreenKey).Ok() || !BoolField(m, ContinuousDrawKey).Ok() || !StrField(m, LogLevelKey).Ok()
                          || !BoolField(m, CefDebugDisableKey).Ok() || !U64Field(m, LaunchTimeoutKey).Ok() || !StrField(m, SteamPathKey).Ok())
  {
    var tray := BoolField(m, TrayKey);
    var addr := StrField(m, ViiperAddressKey);
    var create := BoolField(m, CreateKey);
    var fs := BoolField(m, FullscreenKey);
    var cd := BoolField(m, ContinuousDrawKey);
    var lvl := StrField(m, LogLevelKey);
    var cef := BoolField(m, CefDebugDisableKey);
    var lt := U64Field(m, LaunchTimeoutKey);
    var sp := StrField(m, SteamPathKey);
    if tray.Ok() && addr.Ok() && create.Ok() && fs.Ok() && cd.Ok() && lvl.Ok() && cef.Ok() && lt.Ok() && sp.Ok() then
      Some(Settings(tray.Value(), addr.Value(), create.Value(), fs.Value(), cd.Value(), lvl.Value(), cef.Value(), lt.Value(), sp.Value()))
    else None
  }

  /** With nothing else set, the defaults come through extraction unchanged. */
  lemma DefaultsExtract(debugBuild: bool)
    ensures Extract(DefaultLayer(debugBuild)).Some?
    ensures Extract(DefaultLayer(debugBuild)).value.tray == Some(true)
    ensures Extract(DefaultLayer(debugBuild)).value.fullscreen == Some(true)
    ensures Extract(DefaultLayer(debugBuild)).value.viiperAddress == Some(DefaultViiperAddress)
    ensures Extract(DefaultLayer(debugBuild)).value.launchTimeout == Some(1)
    ensures var st := Extract(DefaultLayer(debugBuild)).value;
      st.create == Some(false) && st.continuousDraw == Some(false) && st.cefDebugDisable == Some(false)
      && st.logLevel == Some(if debugBuild then "DEBUG" else "INFO") && st.steamPath.None?
  {
    var d := DefaultLayer(debugBuild);
    assert SteamPathKey !in d;
  }

  // ---------------------------------------------------------------------------
  // Parse

  /** The outcome of `Config::parse`: the settings, or the panic on a failed extraction. */
  datatype ParseOutcome = Configured(settings: Settings) | Panicked

  /** Extraction of the folded providers: a panic when one failed to read or a key is mistyped. */
  function Outcome(folded: Loaded): (r: ParseOutcome)
    ensures folded.failed ==> r == Panicked
    ensures !folded.failed ==> (r.Configured? <==> Extract(folded.layer).Some?)
    ensures r.Configured? ==> Extract(folded.layer) == Some(r.settings)
  {
    if folded.failed then Panicked
    else match Extract(folded.layer)
      case None => Panicked
      case Some(s) => Configured(s)
  }

  /** `Config::parse` as a whole: the defaults, the providers in merge order, then extraction. */
  function ParseSpec(debugBuild: bool, candidates: seq<string>, explicit: Option<string>, cli: Layer,
                     read: (string, Format) -> FileContents): ParseOutcome
  {
    Outcome(Fold(DefaultLayer(debugBuild), Layers(candidates, explicit, cli, read)))
  }

  /** Extraction of the folded `cfg`. */
  method Finish(cfg: Loaded) returns (r: ParseOutcome)
    ensures r == Outcome(cfg)
  {
    if cfg.failed {
      return Panicked;
    }
    var extracted := Extract(cfg.layer);
    if extracted.None? {
      return Panicked;
    }
    r := Configured(extracted.value);
  }

  /** The command line has the last word on every key it sets. */
  lemma CliWins(debugBuild: bool, candidates: seq<string>, explicit: Option<string>, cli: Layer,
                read: (string, Format) -> FileContents, k: string)
    requires k in cli
    ensures var folded := Fold(DefaultLayer(debugBuild), Layers(candidates, explicit, cli, read));
            k in folded.layer && folded.layer[k] == cli[k]
  {
    var ls := Layers(candidates, explicit, cli, read);
    FoldLastWins(DefaultLayer(debugBuild), ls, k, |ls| - 1);
  }

  /** Without a command-line value, the explicit file beats every candidate. */
  lemma ExplicitBeatsCandidates(debugBuild: bool, candidates: seq<string>, p: string, cli: Layer,
                                read: (string, Format) -> FileContents, k: string)
    requires k in LoadFile(p, read).layer && k !in cli
    ensures var folded := Fold(DefaultLayer(debugBuild), Layers(candidates, Some(p), cli, read));
            k in folded.layer && folded.layer[k] == LoadFile(p, read).layer[k]
  {
    var ls := Layers(candidates, Some(p), cli, read);
    FoldLastWins(DefaultLayer(debugBuild), ls, k, |candidates|);
  }

  /** A key nothing sets keeps its default. */
  lemma DefaultsUnlessSet(debugBuild: bool, candidates: seq<string>, explicit: Option<string>, cli: Layer,
                          read: (string, Format) -> FileContents, k: string)
    requires k in DefaultLayer(debugBuild)
    requires forall l :: l in Layers(candidates, explicit, cli, read) ==> k !in l.layer
    ensures var folded := Fold(DefaultLayer(debugBuild), Layers(candidates, explicit, cli, read));
            k in folded.layer && folded.layer[k] == DefaultLayer(debugBuild)[k]
  {
    FoldKeepsBase(DefaultLayer(debugBuild), Layers(candidates, explicit, cli, read), k);
  }

  /** `Config::parse`, given the command-line layer, the search list and the file reader. */
  method Parse(debugBuild: bool, candidates: seq<string>, explicit: Option<string>, cli: Layer,
               read: (string, Format) -> FileContents) returns (r: ParseOutcome)
    ensures r == ParseSpec(debugBuild, candidates, explicit, cli, read)
  {
    ghost var ls := Layers(candidates, explicit, cli, read);
    var base := DefaultLayer(debugBuild);
    var cfg := Loaded.Loaded(base, false);
    var i := 0;
    while i < |candidates|
      invariant 0 <= i <= |candidates|
      invariant cfg == Fold(base, ls[..i])
    {
      FoldStep(base, ls, i);
      cfg := Combine(cfg, LoadFile(candidates[i], read));
      i := i + 1;
    }
    FoldStep(base, ls, i);
    cfg := Combine(cfg, if explicit.Some? then LoadFile(explicit.value, read) else Loaded.Loaded(map[], false));
    FoldStep(base, ls, i + 1);
    cfg := Combine(cfg, Loaded.Loaded(cli, false));
    assert ls[..i + 2] == ls;
    r := Finish(cfg);
  }
}
