/**
 * The VIIPER readiness gate of `App::ensure_viiper`: up to five pings on a
 * fixed retry schedule, at most one attempt to start a local server, and a
 * version check against the minimum the build requires; and `App::shutdown`,
 * which kills the server the gate started.
 *
 * The server's answers, whether the address is a loopback one, whether the
 * executable exists and whether spawning it works are inputs (`Env`); the
 * sleeps are recorded, not waited for.
 */
module Readiness {
  import opened Wrappers
  import opened Text

  // ---------------------------------------------------------------------------
  // Versions

  datatype Version = Version(major: nat, minor: nat, patch: nat)

  /** `strip_prefix('v').unwrap_or(s)`: at most one leading 'v' goes. */
  function StripV(s: string): (r: string)
    ensures |s| > 0 && s[0] == 'v' ==> r == s[1..]
    ensures (|s| == 0 || s[0] != 'v') ==> r == s
  {
    if |s| > 0 && s[0] == 'v' then s[1..] else s
  }

  /** A missing component reads as "0"; present ones are parsed as they are. */
  function Component(parts: seq<string>, k: nat): string {
    if k < |parts| then parts[k] else "0"
  }

  /**
   * The lenient version parser: trim, drop one leading 'v', keep the text
   * before the first '-', split on '.', and read major, minor and patch as
   * u64 (missing minor or patch count as 0, further components are ignored).
   */
  function ParseVersion(v: string): (r: Option<Version>)
    ensures r.Some? ==> r.value.major < U64 && r.value.minor < U64 && r.value.patch < U64
  {
    var s := StripV(Trim(v));
    var parts := Split(Split(s, '-')[0], '.');
    var major := ParseUnsigned(parts[0], U64);
    var minor := ParseUnsigned(Component(parts, 1), U64);
    var patch := ParseUnsigned(Component(parts, 2), U64);
    if major.Some? && minor.Some? && patch.Some? then Some(Version(major.value, minor.value, patch.value))
    else None
  }

  /** Rust's derived ordering on `(u64, u64, u64)`: lexicographic. */
  predicate AtLeast(a: Version, b: Version) {
    a.major > b.major || (a.major == b.major && (a.minor > b.minor || (a.minor == b.minor && a.patch >= b.patch)))
  }

  lemma AtLeastTotalOrder(a: Version, b: Version, c: Version)
    ensures AtLeast(a, a)
    ensures AtLeast(a, b) || AtLeast(b, a)
    ensures AtLeast(a, b) && AtLeast(b, a) ==> a == b
    ensures AtLeast(a, b) && AtLeast(b, c) ==> AtLeast(a, c)
  {
  }

  /** The dev-build bypass: allowed by the build and the reported version looks like a dev build. */
  predicate DevBypass(version: string, allowDev: bool) {
    allowDev && (Contains(version, "-g") || Contains(version, "-dev"))
  }

  /** Whether the gate accepts the reported version; an unparsable version on either side rejects. */
  function VersionAccepted(version: string, minVersion: string, allowDev: bool): (ok: bool)
    ensures ok <==> (DevBypass(version, allowDev) ||
      (ParseVersion(version).Some? && ParseVersion(minVersion).Some? && AtLeast(ParseVersion(version).value, ParseVersion(minVersion).value)))
  {
    if DevBypass(version, allowDev) then true
    else
      match (ParseVersion(version), ParseVersion(minVersion))
      case (Some(sv), Some(mv)) => AtLeast(sv, mv)
      case _ => false
  }

  /** A newer version than an accepted one is accepted too. */
  lemma AcceptedUpward(v1: string, v2: string, minVersion: string, allowDev: bool)
    requires VersionAccepted(v1, minVersion, allowDev) && !DevBypass(v1, allowDev)
    requires ParseVersion(v1).Some? && ParseVersion(v2).Some? && AtLeast(ParseVersion(v2).value, ParseVersion(v1).value)
    ensures VersionAccepted(v2, minVersion, allowDev)
  {
    AtLeastTotalOrder(ParseVersion(v2).value, ParseVersion(v1).value, ParseVersion(minVersion).value);
  }

  // ---------------------------------------------------------------------------
  // What the parser reads from well-formed versions

  /** `major.minor.patch` in decimal. */
  function Shown(a: nat, b: nat, c: nat): string {
    NatToDecimal(a) + "." + NatToDecimal(b) + "." + NatToDecimal(c)
  }

  lemma DigitsExclude(s: string)
    requires AllDigits(s)
    ensures '.' !in s && '-' !in s && 'v' !in s
    ensures forall i :: 0 <= i < |s| ==> !IsSpace(s[i])
  {
  }

  /** Two strings without white space, one after the other, have none either. */
  lemma NoSpaceConcat(x: string, y: string)
    requires forall i :: 0 <= i < |x| ==> !IsSpace(x[i])
    requires forall i :: 0 <= i < |y| ==> !IsSpace(y[i])
    ensures forall i :: 0 <= i < |x + y| ==> !IsSpace((x + y)[i])
  {
    forall i | 0 <= i < |x + y| ensures !IsSpace((x + y)[i]) {
      if i >= |x| {
        assert (x + y)[i] == y[i - |x|];
      }
    }
  }

  /** The dotted decimal text of three components, and what splitting it gives. */
  lemma ShownParts(a: nat, b: nat, c: nat)
    ensures forall i :: 0 <= i < |Shown(a, b, c)| ==> !IsSpace(Shown(a, b, c)[i])
    ensures '-' !in Shown(a, b, c) && Shown(a, b, c)[0] != 'v'
    ensures Split(Shown(a, b, c), '.') == [NatToDecimal(a), NatToDecimal(b), NatToDecimal(c)]
  {
    var da, db, dc := NatToDecimal(a), NatToDecimal(b), NatToDecimal(c);
    DigitsExclude(da);
    DigitsExclude(db);
    DigitsExclude(dc);
    var tail := db + "." + dc;
    assert Shown(a, b, c) == da + ['.'] + tail;
    assert tail == db + ['.'] + dc;
    SplitAfter(da, '.', tail);
    SplitAfter(db, '.', dc);
    SplitFirst(dc, '.');
    NoSpaceConcat(da, ".");
    NoSpaceConcat(da + ".", db);
    NoSpaceConcat(da + "." + db, ".");
    NoSpaceConcat(da + "." + db + ".", dc);
  }

  /** Printing three in-range components and parsing them back gives them. */
  lemma VersionRoundTrip(a: nat, b: nat, c: nat)
    requires a < U64 && b < U64 && c < U64
    ensures ParseVersion(Shown(a, b, c)) == Some(Version(a, b, c))
  {
    var s := Shown(a, b, c);
    ShownParts(a, b, c);
    TrimNoSpace(s);
    SplitFirst(s, '-');
    DecimalRoundTrip(a, U64);
    DecimalRoundTrip(b, U64);
    DecimalRoundTrip(c, U64);
  }

  /** One leading 'v' and anything after a '-' are ignored. */
  lemma VersionDecorated(a: nat, b: nat, c: nat, suffix: string)
    requires a < U64 && b < U64 && c < U64
    requires forall i :: 0 <= i < |suffix| ==> !IsSpace(suffix[i])
    ensures ParseVersion("v" + Shown(a, b, c) + "-" + suffix) == Some(Version(a, b, c))
  {
    var s := Shown(a, b, c);
    var v := "v" + s + "-" + suffix;
    ShownParts(a, b, c);
    NoSpaceConcat("v", s);
    NoSpaceConcat("v" + s, "-");
    NoSpaceConcat("v" + s + "-", suffix);
    TrimNoSpace(v);
    assert StripV(v) == s + ['-'] + suffix;
    SplitAfter(s, '-', suffix);
    DecimalRoundTrip(a, U64);
    DecimalRoundTrip(b, U64);
    DecimalRoundTrip(c, U64);
  }

  /** A version of one component reads minor and patch as 0. */
  lemma VersionMajorOnly(a: nat)
    requires a < U64
    ensures ParseVersion(NatToDecimal(a)) == Some(Version(a, 0, 0))
  {
    var da := NatToDecimal(a);
    DigitsOnlyParts(da);
    DecimalRoundTrip(a, U64);
    ZeroParses();
  }

  /** Decimal digits alone are one component, with nothing to strip. */
  lemma DigitsOnlyParts(da: string)
    requires |da| >= 1 && AllDigits(da)
    ensures Split(Split(StripV(Trim(da)), '-')[0], '.') == [da]
  {
    DigitsExclude(da);
    TrimNoSpace(da);
    assert da[0] in da;
    assert StripV(Trim(da)) == da;
    SplitFirst(da, '-');
    SplitFirst(da, '.');
  }

  /** A missing component, read as "0", parses as 0. */
  lemma ZeroParses()
    ensures ParseUnsigned("0", U64) == Some(0)
  {
    assert NatToDecimal(0) == "0";
    DecimalRoundTrip(0, U64);
  }

  /** A version without patch reads it as 0. */
  lemma VersionNoPatch(a: nat, b: nat)
    requires a < U64 && b < U64
    ensures ParseVersion(NatToDecimal(a) + "." + NatToDecimal(b)) == Some(Version(a, b, 0))
  {
    var da, db := NatToDecimal(a), NatToDecimal(b);
    DigitsExclude(da);
    DigitsExclude(db);
    var s := da + "." + db;
    NoSpaceConcat(da, ".");
    NoSpaceConcat(da + ".", db);
    TrimNoSpace(s);
    assert s == da + ['.'] + db;
    assert s[0] == da[0] && da[0] in da;
    assert StripV(Trim(s)) == s;
    assert '-' !in s;
    SplitFirst(s, '-');
    SplitAfter(da, '.', db);
    SplitFirst(db, '.');
    var parts := Split(Split(s, '-')[0], '.');
    assert parts == [da, db];
    assert Component(parts, 2) == "0";
    DecimalRoundTrip(a, U64);
    DecimalRoundTrip(b, U64);
    ZeroParses();
  }

  // ---------------------------------------------------------------------------
  // The ping loop

  /** What one ping gave: a reply naming the server and its version, or a failure. */
  datatype Ping = Pong(server: string, version: string) | PingError

  /**
   * The world the gate runs in: the answer to each ping, whether the address
   * is a loopback one, whether `viiper` exists next to the executable,
   * whether spawning it works and the pid it gets, and the build's minimum
   * version and dev-build switch.
   */
  datatype Env = Env(
    ping: nat -> Ping,
    loopback: bool,
    exeExists: bool,
    spawnOk: bool,
    pid: nat,
    minVersion: string,
    allowDev: bool)

  /** How the gate ends: ready, or one of the four fatal dialogs. */
  datatype Verdict =
    | Ready(version: string)
    | InvalidServer(server: string)
    | TooOld(version: string)
    | SpawnFailed
    | Unavailable

  /** The title of the dialog the gate shows before quitting; a ready server shows none. */
  function DialogTitle(v: Verdict): (title: Option<string>)
    ensures title.None? <==> v.Ready?
  {
    match v
    case Ready(_) => None
    case InvalidServer(_) => Some("Invalid VIIPER server")
    case TooOld(_) => Some("VIIPER too old")
    case SpawnFailed => Some("Failed to start VIIPER")
    case Unavailable => Some("VIIPER unavailable")
  }

  /** The delays, in seconds, after each failed ping. */
  const RetrySchedule: seq<nat> := [1, 1, 2, 4, 6]

  /** The spawn closure: whether it returned Ok, whether it called `Command::spawn`, and the tracked child after it. */
  datatype SpawnResult = SpawnResult(ok: bool, spawned: bool, child: Option<nat>)

  function TrySpawn(env: Env, child: Option<nat>): (r: SpawnResult)
    ensures child.Some? ==> r == SpawnResult(true, false, child)
    ensures r.spawned <==> child.None? && env.exeExists
    ensures r.ok <==> child.Some? || (env.exeExists && env.spawnOk)
    ensures r.child == if child.None? && r.ok then Some(env.pid) else child
  {
    if child.Some? then SpawnResult(true, false, child)
    else if !env.exeExists then SpawnResult(false, false, child)
    else if !env.spawnOk then SpawnResult(false, true, child)
    else SpawnResult(true, true, Some(env.pid))
  }

  /** What a run of the gate did: its verdict, the pings made, the sleeps taken, the processes spawned, and the tracked child. */
  datatype Trace = Trace(verdict: Verdict, pings: nat, sleeps: seq<nat>, spawns: nat, child: Option<nat>)

  /** Some pings, sleeps and spawns, followed by the rest of a run. */
  function Then(pings: nat, sleeps: seq<nat>, spawns: nat, rest: Trace): (t: Trace)
    ensures t.verdict == rest.verdict && t.child == rest.child
    ensures t.pings == pings + rest.pings && t.sleeps == sleeps + rest.sleeps && t.spawns == spawns + rest.spawns
  {
    Trace(rest.verdict, pings + rest.pings, sleeps + rest.sleeps, spawns + rest.spawns, rest.child)
  }

  /** The version check the gate applies to a VIIPER reply, with the build's minimum and dev-build switch. */
  function Acceptance(env: Env): string -> bool {
    v => VersionAccepted(v, env.minVersion, env.allowDev)
  }

  /** The verdict on a reply: not VIIPER, too old, or ready. */
  function Classify(accept: string -> bool, server: string, version: string): (v: Verdict)
    ensures !v.SpawnFailed? && !v.Unavailable?
    ensures v.InvalidServer? <==> server != "VIIPER"
    ensures v.Ready? <==> server == "VIIPER" && accept(version)
    ensures v.InvalidServer? ==> v.server == server
    ensures !v.InvalidServer? ==> v.version == version
  {
    if server != "VIIPER" then InvalidServer(server)
    else if accept(version) then Ready(version)
    else TooOld(version)
  }

  /**
   * The loop of `ensure_viiper` from attempt `attempt` on, with `accept`
   * deciding whether a VIIPER server's version is recent enough.
   */
  function Gate(env: Env, accept: string -> bool, attempt: nat, spawnAttempted: bool, child: Option<nat>): Trace
    requires attempt <= |RetrySchedule|
    decreases |RetrySchedule| - attempt
  {
    if attempt == |RetrySchedule| then Trace(Unavailable, 0, [], 0, child)
    else
      match env.ping(attempt)
      case Pong(server, version) =>
        Trace(Classify(accept, server, version), 1, [], 0, child)
      case PingError =>
        if env.loopback && !spawnAttempted then
          var sp := TrySpawn(env, child);
          var n := if sp.spawned then 1 else 0;
          if !sp.ok then Trace(SpawnFailed, 1, [], n, sp.child)
          else Then(1, [RetrySchedule[attempt]], n, Gate(env, accept, attempt + 1, true, sp.child))
        else Then(1, [RetrySchedule[attempt]], 0, Gate(env, accept, attempt + 1, spawnAttempted, child))
  }

  /**
   * The pings of every run of the gate: at most five, at least one, and all
   * five before giving up.
   */
  lemma {:induction false} GatePings(env: Env, accept: string -> bool, attempt: nat, spawnAttempted: bool, child: Option<nat>)
    requires attempt <= |RetrySchedule|
    ensures var t := Gate(env, accept, attempt, spawnAttempted, child);
      && t.pings <= |RetrySchedule| - attempt
      && (attempt < |RetrySchedule| ==> t.pings >= 1)
      && (t.verdict.Unavailable? ==> t.pings == |RetrySchedule| - attempt)
    decreases |RetrySchedule| - attempt
  {
    if attempt < |RetrySchedule| && env.ping(attempt).PingError? {
      if env.loopback && !spawnAttempted {
        var sp := TrySpawn(env, child);
        if sp.ok {
          GatePings(env, accept, attempt + 1, true, sp.child);
        }
      } else {
        GatePings(env, accept, attempt + 1, spawnAttempted, child);
      }
    }
  }

  /** One sleep after each failed ping: a fatal reply or spawn failure ends the run with no sleep. */
  lemma {:induction false} GateSleepCount(env: Env, accept: string -> bool, attempt: nat, spawnAttempted: bool, child: Option<nat>)
    requires attempt <= |RetrySchedule|
    ensures var t := Gate(env, accept, attempt, spawnAttempted, child);
      |t.sleeps| == (if t.verdict.Unavailable? then t.pings else t.pings - 1)
    decreases |RetrySchedule| - attempt
  {
    if attempt < |RetrySchedule| && env.ping(attempt).PingError? {
      if env.loopback && !spawnAttempted {
        var sp := TrySpawn(env, child);
        if sp.ok {
          GateSleepCount(env, accept, attempt + 1, true, sp.child);
        }
      } else {
        GateSleepCount(env, accept, attempt + 1, spawnAttempted, child);
      }
    }
  }

  /** The sleeps of every run follow the retry schedule, and a run that gives up has slept through all of it. */
  lemma {:induction false} GateSleeps(env: Env, accept: string -> bool, attempt: nat, spawnAttempted: bool, child: Option<nat>)
    requires attempt <= |RetrySchedule|
    ensures var t := Gate(env, accept, attempt, spawnAttempted, child);
      && t.sleeps <= RetrySchedule[attempt..]
      && (t.verdict.Unavailable? ==> t.sleeps == RetrySchedule[attempt..])
    decreases |RetrySchedule| - attempt
  {
    if attempt < |RetrySchedule| && env.ping(attempt).PingError? {
      assert RetrySchedule[attempt..] == [RetrySchedule[attempt]] + RetrySchedule[attempt + 1..];
      if env.loopback && !spawnAttempted {
        var sp := TrySpawn(env, child);
        if sp.ok {
          GateSleeps(env, accept, attempt + 1, true, sp.child);
        }
      } else {
        GateSleeps(env, accept, attempt + 1, spawnAttempted, child);
      }
    }
  }

  /**
   * The spawns of every run of the gate: at most one, only for a loopback
   * address with no tracked child and an existing executable; a tracked child
   * stays tracked.
   */
  lemma {:induction false} GateSpawns(env: Env, accept: string -> bool, attempt: nat, spawnAttempted: bool, child: Option<nat>)
    requires attempt <= |RetrySchedule|
    ensures var t := Gate(env, accept, attempt, spawnAttempted, child);
      && t.spawns <= (if spawnAttempted then 0 else 1)
      && (t.spawns > 0 ==> env.loopback && child.None? && env.exeExists)
      && (child.Some? ==> t.spawns == 0 && t.child == child)
    decreases |RetrySchedule| - attempt
  {
    if attempt < |RetrySchedule| && env.ping(attempt).PingError? {
      if env.loopback && !spawnAttempted {
        var sp := TrySpawn(env, child);
        if sp.ok {
          GateSpawns(env, accept, attempt + 1, true, sp.child);
        }
      } else {
        GateSpawns(env, accept, attempt + 1, spawnAttempted, child);
      }
    }
  }

  /** Every ping of a run before its last one failed. */
  lemma {:induction false} GateRetriesOnlyFailures(env: Env, accept: string -> bool, attempt: nat, spawnAttempted: bool, child: Option<nat>)
    requires attempt <= |RetrySchedule|
    ensures var t := Gate(env, accept, attempt, spawnAttempted, child);
      forall k :: attempt <= k < attempt + t.pings - 1 ==> env.ping(k).PingError?
    decreases |RetrySchedule| - attempt
  {
    if attempt < |RetrySchedule| && env.ping(attempt).PingError? {
      if env.loopback && !spawnAttempted {
        var sp := TrySpawn(env, child);
        if sp.ok {
          GateRetryStep(env, accept, attempt, spawnAttempted, child);
          GateRetriesOnlyFailures(env, accept, attempt + 1, true, sp.child);
        }
      } else {
        GateRetryStep(env, accept, attempt, spawnAttempted, child);
        GateRetriesOnlyFailures(env, accept, attempt + 1, spawnAttempted, child);
      }
    }
  }

  /** Whether a spawn has been attempted after a failed ping at one attempt. */
  function SpawnAttemptedAfter(env: Env, spawnAttempted: bool): bool {
    spawnAttempted || env.loopback
  }

  /** The child tracked after a failed ping at one attempt. */
  function ChildAfter(env: Env, spawnAttempted: bool, child: Option<nat>): Option<nat> {
    if env.loopback && !spawnAttempted then TrySpawn(env, child).child else child
  }

  /** A reply to the first ping ends the run there, with `Classify`'s verdict on it. */
  lemma GateReplyStep(env: Env, accept: string -> bool, attempt: nat, spawnAttempted: bool, child: Option<nat>)
    requires attempt < |RetrySchedule| && env.ping(attempt).Pong?
    ensures var t := Gate(env, accept, attempt, spawnAttempted, child);
      t.pings == 1 && t.verdict == Classify(accept, env.ping(attempt).server, env.ping(attempt).version)
  {
  }

  /** A failed first ping whose spawn fails ends the run there. */
  lemma GateSpawnFailStep(env: Env, accept: string -> bool, attempt: nat, spawnAttempted: bool, child: Option<nat>)
    requires attempt < |RetrySchedule| && env.ping(attempt).PingError?
    requires env.loopback && !spawnAttempted && !TrySpawn(env, child).ok
    ensures var t := Gate(env, accept, attempt, spawnAttempted, child);
      t.pings == 1 && t.verdict.SpawnFailed?
  {
  }

  /** A failed ping that does not end the run: the run's verdict and remaining pings are those from the next attempt on. */
  lemma GateFailedStep(env: Env, accept: string -> bool, attempt: nat, spawnAttempted: bool, child: Option<nat>)
    requires attempt < |RetrySchedule| && env.ping(attempt).PingError?
    requires env.loopback && !spawnAttempted ==> TrySpawn(env, child).ok
    ensures var t := Gate(env, accept, attempt, spawnAttempted, child);
      var inner := Gate(env, accept, attempt + 1, SpawnAttemptedAfter(env, spawnAttempted), ChildAfter(env, spawnAttempted, child));
      t.verdict == inner.verdict && t.pings == 1 + inner.pings
  {
  }

  /** `GateDecidedByLastPing` for a run whose last ping is the one numbered `last`. */
  lemma {:induction false} GateDecidedAt(env: Env, accept: string -> bool, attempt: nat, spawnAttempted: bool, child: Option<nat>, last: nat)
    requires attempt <= last < |RetrySchedule|
    requires last + 1 == attempt + Gate(env, accept, attempt, spawnAttempted, child).pings
    ensures var v := Gate(env, accept, attempt, spawnAttempted, child).verdict;
      && (env.ping(last).Pong? ==> v == Classify(accept, env.ping(last).server, env.ping(last).version))
      && (env.ping(last).PingError? ==> v.SpawnFailed? || v.Unavailable?)
    decreases last - attempt
  {
    if env.ping(attempt).Pong? {
      GateReplyStep(env, accept, attempt, spawnAttempted, child);
    } else if env.loopback && !spawnAttempted && !TrySpawn(env, child).ok {
      GateSpawnFailStep(env, accept, attempt, spawnAttempted, child);
    } else {
      GateFailedStep(env, accept, attempt, spawnAttempted, child);
      var sa := SpawnAttemptedAfter(env, spawnAttempted);
      var c := ChildAfter(env, spawnAttempted, child);
      if attempt < last {
        GateDecidedAt(env, accept, attempt + 1, sa, c, last);
      } else {
        GatePings(env, accept, attempt + 1, sa, c);
      }
    }
  }

  /**
   * The last ping of a run decides it: a reply there gives the verdict
   * `Classify` gives on that reply, and a failure there means the run gave up
   * or could not spawn VIIPER.
   */
  lemma GateDecidedByLastPing(env: Env, accept: string -> bool, attempt: nat, spawnAttempted: bool, child: Option<nat>)
    requires attempt < |RetrySchedule|
    ensures var t := Gate(env, accept, attempt, spawnAttempted, child);
      var p := env.ping(attempt + t.pings - 1);
      && (p.Pong? ==> t.verdict == Classify(accept, p.server, p.version))
      && (p.PingError? ==> t.verdict.SpawnFailed? || t.verdict.Unavailable?)
  {
    GatePings(env, accept, attempt, spawnAttempted, child);
    var t := Gate(env, accept, attempt, spawnAttempted, child);
    GateDecidedAt(env, accept, attempt, spawnAttempted, child, attempt + t.pings - 1);
  }

  // ---------------------------------------------------------------------------
  // The process slot and the loop on it

  /** `SPAWNED_VIIPER`: the server process the gate started, if any (by pid), and the pids killed so far. */
  class ChildSlot {
    var child: Option<nat>
    var killed: seq<nat>

    constructor ()
      ensures child.None? && killed == []
    {
      child := None;
      killed := [];
    }

    /** The spawn closure of `ensure_viiper`. */
    method Spawn(env: Env) returns (ok: bool, spawned: bool)
      modifies this`child
      ensures SpawnResult(ok, spawned, child) == TrySpawn(env, old(child))
    {
      if child.Some? {
        return true, false;
      }
      if !env.exeExists {
        return false, false;
      }
      spawned := true;
      if !env.spawnOk {
        return false, spawned;
      }
      child := Some(env.pid);
      ok := true;
    }

    /** The first half of `App::shutdown`: take the child out of the slot and kill it. */
    method KillSpawned()
      modifies this
      ensures (child, killed) == Kill(old(child), old(killed))
    {
      if child.Some? {
        killed := killed + [child.value];
        child := None;
      }
    }
  }

  /** Taking the child out of the slot and killing it. */
  function Kill(child: Option<nat>, killed: seq<nat>): (r: (Option<nat>, seq<nat>))
    ensures r.0.None?
    ensures child.Some? ==> r.1 == killed + [child.value]
    ensures child.None? ==> r.1 == killed
  {
    if child.Some? then (None, killed + [child.value]) else (None, killed)
  }

  /** A second shutdown kills nothing more: a process is killed at most once. */
  lemma KillOnce(child: Option<nat>, killed: seq<nat>)
    ensures Kill(Kill(child, killed).0, Kill(child, killed).1) == Kill(child, killed)
  {
  }

  /** A failed ping that does not end the run: one ping, the next delay, and the rest from the next attempt. */
  lemma GateRetryStep(env: Env, accept: string -> bool, attempt: nat, spawnAttempted: bool, child: Option<nat>)
    requires attempt < |RetrySchedule| && env.ping(attempt).PingError?
    requires env.loopback && !spawnAttempted ==> TrySpawn(env, child).ok
    ensures var spawnNow := env.loopback && !spawnAttempted;
      var sp := TrySpawn(env, child);
      Gate(env, accept, attempt, spawnAttempted, child) ==
        if spawnNow then Then(1, [RetrySchedule[attempt]], if sp.spawned then 1 else 0, Gate(env, accept, attempt + 1, true, sp.child))
        else Then(1, [RetrySchedule[attempt]], 0, Gate(env, accept, attempt + 1, spawnAttempted, child))
  {
  }

  /** Recording two stretches of a run one after the other is recording them together. */
  lemma ThenThen(p1: nat, s1: seq<nat>, n1: nat, p2: nat, s2: seq<nat>, n2: nat, rest: Trace)
    ensures Then(p1, s1, n1, Then(p2, s2, n2, rest)) == Then(p1 + p2, s1 + s2, n1 + n2, rest)
  {
    assert s1 + (s2 + rest.sleeps) == (s1 + s2) + rest.sleeps;
  }

  /** The checks on a reply: the server must be VIIPER and its version recent enough. */
  method CheckReply(env: Env, server: string, version: string) returns (verdict: Verdict)
    ensures verdict == Classify(Acceptance(env), server, version)
  {
    if server != "VIIPER" {
      verdict := InvalidServer(server);
    } else if !VersionAccepted(version, env.minVersion, env.allowDev) {
      verdict := TooOld(version);
    } else {
      verdict := Ready(version);
    }
  }

  /**
   * One pass of the loop of `ensure_viiper`: ping, and on a failure spawn the
   * server if this is the first failure on a loopback address. `done` says the
   * run ends here (a reply, or a failed spawn); otherwise the caller sleeps
   * the attempt's delay and tries again.
   */
  method Attempt(env: Env, slot: ChildSlot, attempt: nat, spawnAttempted: bool)
      returns (done: bool, verdict: Verdict, spawned: nat, spawnAttempted': bool)
    requires attempt < |RetrySchedule|
    modifies slot`child
    ensures var g := Gate(env, Acceptance(env), attempt, spawnAttempted, old(slot.child));
      if done then g == Trace(verdict, 1, [], spawned, slot.child)
      else g == Then(1, [RetrySchedule[attempt]], spawned, Gate(env, Acceptance(env), attempt + 1, spawnAttempted', slot.child))
  {
    ghost var accept := Acceptance(env);
    spawnAttempted' := spawnAttempted;
    spawned := 0;
    match env.ping(attempt) {
      case Pong(server, version) =>
        verdict := CheckReply(env, server, version);
        return true, verdict, 0, spawnAttempted;
      case PingError =>
        ghost var childBefore := slot.child;
        if env.loopback && !spawnAttempted {
          spawnAttempted' := true;
          var ok, didSpawn := slot.Spawn(env);
          if didSpawn {
            spawned := 1;
          }
          if !ok {
            return true, SpawnFailed, spawned, spawnAttempted';
          }
        }
        GateRetryStep(env, accept, attempt, spawnAttempted, childBefore);
        done, verdict := false, Unavailable;
    }
  }

  /** `ensure_viiper`: the retry loop, returning how it ended and what it did. */
  method EnsureViiper(env: Env, slot: ChildSlot) returns (verdict: Verdict, pings: nat, sleeps: seq<nat>, spawns: nat)
    modifies slot`child
    ensures Trace(verdict, pings, sleeps, spawns, slot.child) == Gate(env, Acceptance(env), 0, false, old(slot.child))
  {
    ghost var c0 := slot.child;
    ghost var accept := Acceptance(env);
    var spawnAttempted := false;
    pings, sleeps, spawns := 0, [], 0;
    var attempt := 0;
    while attempt < |RetrySchedule|
      invariant 0 <= attempt <= |RetrySchedule|
      invariant Then(pings, sleeps, spawns, Gate(env, accept, attempt, spawnAttempted, slot.child)) == Gate(env, accept, 0, false, c0)
    {
      var done, v, n, sa := Attempt(env, slot, attempt, spawnAttempted);
      if done {
        assert sleeps + [] == sleeps;
        return v, pings + 1, sleeps, spawns + n;
      }
      ThenThen(pings, sleeps, spawns, 1, [RetrySchedule[attempt]], n, Gate(env, accept, attempt + 1, sa, slot.child));
      pings, sleeps, spawns := pings + 1, sleeps + [RetrySchedule[attempt]], spawns + n;
      spawnAttempted := sa;
      attempt := attempt + 1;
    }
    verdict := Unavailable;
    assert sleeps + [] == sleeps;
  }

  /**
   * `App::shutdown`: kill the tracked server, then wake the SDL and the GUI
   * loops with Quit when their senders are set.
   */
  method Shutdown(slot: ChildSlot, sdlSenderSet: bool, winitSenderSet: bool) returns (sdlQuit: bool, winitQuit: bool)
    modifies slot
    ensures (slot.child, slot.killed) == Kill(old(slot.child), old(slot.killed))
    ensures sdlQuit == sdlSenderSet && winitQuit == winitSenderSet
  {
    slot.KillSpawned();
    sdlQuit := sdlSenderSet;
    winitQuit := winitSenderSet;
  }
}
