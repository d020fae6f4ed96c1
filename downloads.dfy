/**
 * The downloads page of SISR's web site: it guesses the visitor's platform
 * and architecture, scores every asset of the latest release against that
 * guess, and offers the best-scoring one (or nothing when no asset looks
 * right); a second button offers the newest pre-release.
 *
 * JavaScript values that may be `null` or `undefined` are `Option`s here;
 * the `navigator` readings, the GitHub API and the page itself are inputs.
 */
module Downloads {
  import opened Wrappers
  import opened Text
  import Search

  const UnknownValue: string := "unknown"
  const Windows: string := "windows"
  const Linux: string := "linux"
  const Darwin: string := "darwin"
  const Arm64: string := "arm64"
  const X64: string := "x64"

  // ---------------------------------------------------------------------------
  // Normalisation and detection

  /** `normalize`: a missing or empty value becomes "", anything else is lowercased. */
  function Normalize(s: Option<string>): (r: string)
    ensures s.None? ==> r == []
    ensures s.Some? ==> |r| == |s.value| && forall i :: 0 <= i < |r| ==> r[i] == LowerChar(s.value[i])
  {
    match s
    case None => []
    case Some(v) => Lower(v)
  }

  /** Normalising twice is normalising once. */
  lemma NormalizeIdempotent(s: Option<string>)
    ensures Normalize(Some(Normalize(s))) == Normalize(s)
  {
    if s.Some? {
      LowerIsLower(s.value);
    }
  }

  /** `a || b || c` on strings: the first non-empty one, else "". */
  function FirstNonEmpty(a: string, b: string, c: string): (r: string)
    ensures a != [] ==> r == a
    ensures a == [] && b != [] ==> r == b
    ensures a == [] && b == [] ==> r == c
  {
    if a != [] then a else if b != [] then b else c
  }

  /** The platform named by a normalised platform string: "win" wins, then "linux", then "mac" or "darwin". */
  function ClassifyPlatform(p: string): (r: string)
    ensures r == Windows <==> Contains(p, "win")
    ensures r == Linux <==> !Contains(p, "win") && Contains(p, "linux")
    ensures r == Darwin <==> !Contains(p, "win") && !Contains(p, "linux") && (Contains(p, "mac") || Contains(p, "darwin"))
    ensures r == UnknownValue <==> !Contains(p, "win") && !Contains(p, "linux") && !Contains(p, "mac") && !Contains(p, "darwin")
  {
    if Contains(p, "win") then Windows
    else if Contains(p, "linux") then Linux
    else if Contains(p, "mac") || Contains(p, "darwin") then Darwin
    else UnknownValue
  }

  /**
   * Since "darwin" contains "win", a platform string naming darwin is taken
   * for Windows: the darwin test never decides, and only "mac" leads to darwin.
   */
  lemma DarwinOnlyViaMac(p: string)
    ensures Contains(p, "darwin") ==> ClassifyPlatform(p) == Windows
    ensures ClassifyPlatform(p) == Darwin ==> Contains(p, "mac")
  {
    if Contains(p, "darwin") {
      ContainsSub(p, "darwin", "win", 3);
    }
  }

  /** Platform detection: the client-hint platform, else `navigator.platform`, else the user agent, classified. */
  function DetectPlatform(uaPlatform: Option<string>, navPlatform: Option<string>, ua: Option<string>): (r: string)
    ensures r in {Windows, Linux, Darwin, UnknownValue}
    ensures Normalize(uaPlatform) != [] ==> r == ClassifyPlatform(Normalize(uaPlatform))
    ensures Normalize(uaPlatform) == [] && Normalize(navPlatform) != [] ==> r == ClassifyPlatform(Normalize(navPlatform))
    ensures Normalize(uaPlatform) == [] && Normalize(navPlatform) == [] ==> r == ClassifyPlatform(Normalize(ua))
  {
    ClassifyPlatform(FirstNonEmpty(Normalize(uaPlatform), Normalize(navPlatform), Normalize(ua)))
  }

  /** What `getHighEntropyValues` reported: the architecture and the bitness. */
  datatype ArchHints = ArchHints(architecture: Option<string>, bitness: Option<string>)

  /** The architecture from client hints, or "unknown". */
  function ArchFromHints(h: ArchHints): (r: string)
    ensures r == Arm64 <==> Contains(Normalize(h.architecture), "arm")
    ensures r == X64 <==> !Contains(Normalize(h.architecture), "arm")
                          && (Contains(Normalize(h.architecture), "x86") || Contains(Normalize(h.architecture), "x64") || Normalize(h.bitness) == "64")
  {
    var a := Normalize(h.architecture);
    if Contains(a, "arm") then Arm64
    else if Contains(a, "x86") || Contains(a, "x64") || Normalize(h.bitness) == "64" then X64
    else UnknownValue
  }

  /** The user-agent heuristics used when the hints gave no answer. */
  function ArchFromUserAgent(ua: string): (r: string)
    ensures r == Arm64 <==> Contains(ua, "arm64") || Contains(ua, "aarch64")
    ensures r == X64 <==> !(Contains(ua, "arm64") || Contains(ua, "aarch64"))
                          && (Contains(ua, "x86_64") || Contains(ua, "win64") || Contains(ua, "x64") || Contains(ua, "amd64"))
  {
    if Contains(ua, "arm64") || Contains(ua, "aarch64") then Arm64
    else if Contains(ua, "x86_64") || Contains(ua, "win64") || Contains(ua, "x64") || Contains(ua, "amd64") then X64
    else UnknownValue
  }

  /**
   * Architecture detection: client hints when the browser offers them
   * (`None` when it does not, or when asking threw), then the user agent.
   */
  function DetectArch(hints: Option<ArchHints>, ua: Option<string>): (r: string)
    ensures r in {Arm64, X64, UnknownValue}
    ensures hints.Some? && ArchFromHints(hints.value) != UnknownValue ==> r == ArchFromHints(hints.value)
    ensures (hints.None? || ArchFromHints(hints.value) == UnknownValue) ==> r == ArchFromUserAgent(Normalize(ua))
  {
    var fromHints := if hints.Some? then ArchFromHints(hints.value) else UnknownValue;
    if fromHints == UnknownValue then ArchFromUserAgent(Normalize(ua)) else fromHints
  }

  // ---------------------------------------------------------------------------
  // The label on the primary button

  const YourOs: string := "your OS"

  function PlatformWord(platform: string): string {
    if platform == UnknownValue then YourOs else platform
  }

  function ArchSuffix(arch: string): string {
    if arch == UnknownValue then "" else " " + arch
  }

  /** The first character upper-cased. */
  function Capitalize(s: string): (r: string)
    ensures |r| == |s|
    ensures s != [] ==> r[0] == UpperChar(s[0]) && r[1..] == s[1..]
  {
    if s == [] then s else [UpperChar(s[0])] + s[1..]
  }

  /** Capitalising touches only the first character. */
  lemma CapitalizeHead(a: string, b: string)
    requires a != []
    ensures Capitalize(a + b) == Capitalize(a) + b
  {
    assert (a + b)[1..] == a[1..] + b;
  }

  /** `formatPlatformArch`: "your OS" for an unknown platform, no arch when unknown, trimmed and capitalised. */
  function FormatPlatformArch(platform: string, arch: string): string
  {
    var s := Trim(PlatformWord(platform) + ArchSuffix(arch));
    if s == [] then s else Capitalize(s)
  }

  /** "your OS" capitalised. */
  lemma CapitalizedYourOs()
    ensures Capitalize(YourOs) == "Your OS"
  {
    assert UpperChar(YourOs[0]) == 'Y';
  }

  /** An unknown platform reads "Your OS", followed by the architecture when one is known. */
  lemma {:induction false} FormatUnknownPlatform(arch: string)
    requires arch == UnknownValue || (arch != [] && !IsSpace(arch[|arch| - 1]))
    ensures FormatPlatformArch(UnknownValue, arch) == "Your OS" + ArchSuffix(arch)
  {
    var s := YourOs + ArchSuffix(arch);
    assert PlatformWord(UnknownValue) + ArchSuffix(arch) == s;
    assert s[0] == 'y' && !IsSpace(s[|s| - 1]);
    TrimFramed(s);
    CapitalizeHead(YourOs, ArchSuffix(arch));
    CapitalizedYourOs();
  }

  /** A known platform and architecture read "Platform arch". */
  lemma {:induction false} FormatDetected(platform: string, arch: string)
    requires platform != [] && !IsSpace(platform[0]) && platform != UnknownValue
    requires arch != [] && !IsSpace(arch[|arch| - 1]) && arch != UnknownValue
    ensures FormatPlatformArch(platform, arch) == Capitalize(platform) + " " + arch
  {
    var s := platform + (" " + arch);
    assert PlatformWord(platform) + ArchSuffix(arch) == s;
    assert s[0] == platform[0] && s[|s| - 1] == arch[|arch| - 1];
    TrimFramed(s);
    CapitalizeHead(platform, " " + arch);
  }

  /** An unknown architecture is left out of the label. */
  lemma {:induction false} FormatUnknownArch(platform: string)
    requires platform != [] && !IsSpace(platform[0]) && !IsSpace(platform[|platform| - 1]) && platform != UnknownValue
    ensures FormatPlatformArch(platform, UnknownValue) == Capitalize(platform)
  {
    assert PlatformWord(platform) + ArchSuffix(UnknownValue) == platform;
    TrimFramed(platform);
  }

  // ---------------------------------------------------------------------------
  // Asset scoring

  /** Checksums and signatures are pushed down. */
  function ChecksumPenalty(n: string): (r: int)
    ensures r == -50 <==> EndsWith(n, ".sha256") || EndsWith(n, ".sha256sum") || EndsWith(n, ".sig") || EndsWith(n, ".asc") || EndsWith(n, ".txt")
    ensures r == 0 || r == -50
  {
    if EndsWith(n, ".sha256") || EndsWith(n, ".sha256sum") || EndsWith(n, ".sig") || EndsWith(n, ".asc") || EndsWith(n, ".txt") then -50 else 0
  }

  function Bonus(c: bool, points: int): int {
    if c then points else 0
  }

  /** The bonus an asset name earns for the wanted platform; none for any other platform string. */
  function PlatformBonus(n: string, platform: string): (r: int)
    ensures platform !in {Windows, Linux, Darwin} ==> r == 0
    ensures 0 <= r <= 73
  {
    if platform == Windows then
      Bonus(Contains(n, "windows") || Contains(n, "win"), 40) + Bonus(EndsWith(n, ".msi"), 15)
        + Bonus(EndsWith(n, ".exe"), 10) + Bonus(EndsWith(n, ".zip"), 5)
    else if platform == Linux then
      Bonus(Contains(n, "linux"), 40) + Bonus(EndsWith(n, ".appimage"), 20)
        + Bonus(EndsWith(n, ".tar.gz") || EndsWith(n, ".tgz"), 8) + Bonus(EndsWith(n, ".deb") || EndsWith(n, ".rpm"), 5)
    else if platform == Darwin then
      Bonus(Contains(n, "mac") || Contains(n, "darwin") || Contains(n, "osx"), 40)
        + Bonus(EndsWith(n, ".dmg") || EndsWith(n, ".pkg") || EndsWith(n, ".zip"), 10)
    else 0
  }

  /** The bonus an asset name earns for the wanted architecture. */
  function ArchBonus(n: string, arch: string): (r: int)
    ensures arch !in {Arm64, X64} ==> r == 0
    ensures r in {0, 5, 30, 35}
  {
    if arch == Arm64 then
      Bonus(Contains(n, "arm64") || Contains(n, "aarch64"), 30) + Bonus(Contains(n, "arm"), 5)
    else if arch == X64 then
      Bonus(Contains(n, "x64") || Contains(n, "x86_64") || Contains(n, "amd64"), 30) + Bonus(Contains(n, "x86"), 5)
    else 0
  }

  /** Source archives are pushed down. */
  function SourcePenalty(n: string): (r: int)
    ensures -15 <= r <= 0
    ensures r == 0 <==> !Contains(n, "source") && !Contains(n, "src")
  {
    -(Bonus(Contains(n, "source"), 10) + Bonus(Contains(n, "src"), 5))
  }

  /** The score `scoreAsset` computes for an asset name. */
  function Score(name: Option<string>, platform: string, arch: string): (r: int)
    ensures -65 <= r <= 108
  {
    var n := Normalize(name);
    ChecksumPenalty(n) + PlatformBonus(n, platform) + ArchBonus(n, arch) + SourcePenalty(n)
  }

  /** The platform tests of `scoreAsset`, adding to `score0`. */
  method AddPlatformBonus(n: string, platform: string, score0: int) returns (score: int)
    ensures score == score0 + PlatformBonus(n, platform)
  {
    score := score0;
    if platform == Windows {
      if Contains(n, "windows") || Contains(n, "win") { score := score + 40; }
      if EndsWith(n, ".msi") { score := score + 15; }
      if EndsWith(n, ".exe") { score := score + 10; }
      if EndsWith(n, ".zip") { score := score + 5; }
    }
    if platform == Linux {
      if Contains(n, "linux") { score := score + 40; }
      if EndsWith(n, ".appimage") { score := score + 20; }
      if EndsWith(n, ".tar.gz") || EndsWith(n, ".tgz") { score := score + 8; }
      if EndsWith(n, ".deb") || EndsWith(n, ".rpm") { score := score + 5; }
    }
    if platform == Darwin {
      if Contains(n, "mac") || Contains(n, "darwin") || Contains(n, "osx") { score := score + 40; }
      if EndsWith(n, ".dmg") || EndsWith(n, ".pkg") || EndsWith(n, ".zip") { score := score + 10; }
    }
  }

  /** The architecture tests of `scoreAsset`, adding to `score0`. */
  method AddArchBonus(n: string, arch: string, score0: int) returns (score: int)
    ensures score == score0 + ArchBonus(n, arch)
  {
    score := score0;
    if arch == Arm64 {
      if Contains(n, "arm64") || Contains(n, "aarch64") { score := score + 30; }
      if Contains(n, "arm") { score := score + 5; }
    }
    if arch == X64 {
      if Contains(n, "x64") || Contains(n, "x86_64") || Contains(n, "amd64") { score := score + 30; }
      if Contains(n, "x86") { score := score + 5; }
    }
  }

  /** `scoreAsset`: the penalties and bonuses added up one test at a time. */
  method ScoreAsset(name: Option<string>, platform: string, arch: string) returns (score: int)
    ensures score == Score(name, platform, arch)
  {
    var n := Normalize(name);
    score := 0;
    if EndsWith(n, ".sha256") || EndsWith(n, ".sha256sum") || EndsWith(n, ".sig") || EndsWith(n, ".asc") || EndsWith(n, ".txt") {
      score := score - 50;
    }
    score := AddPlatformBonus(n, platform, score);
    score := AddArchBonus(n, arch, score);
    if Contains(n, "source") { score := score - 10; }
    if Contains(n, "src") { score := score - 5; }
  }

  /** Scoring ignores case: a name scores as its lowercase form does. */
  lemma {:induction false} ScoreCaseInsensitive(name: string, platform: string, arch: string)
    ensures Score(Some(name), platform, arch) == Score(Some(Lower(name)), platform, arch)
  {
    LowerIsLower(name);
  }

  /** An arm64 name also contains "arm", so it earns both arm bonuses. */
  lemma {:induction false} Arm64NamesGet35(n: string)
    requires Contains(n, "arm64")
    ensures ArchBonus(n, Arm64) == 35
  {
    ContainsSub(n, "arm64", "arm", 0);
  }

  /** An x86_64 name also contains "x86", so it earns both x64 bonuses. */
  lemma {:induction false} X86_64NamesGet35(n: string)
    requires Contains(n, "x86_64")
    ensures ArchBonus(n, X64) == 35
  {
    ContainsSub(n, "x86_64", "x86", 0);
  }

  /** A darwin name contains "win", so it earns the Windows platform bonus. */
  lemma {:induction false} DarwinNamesMatchWindows(n: string)
    requires Contains(n, "darwin")
    ensures PlatformBonus(n, Windows) >= 40
  {
    ContainsSub(n, "darwin", "win", 3);
  }

  // ---------------------------------------------------------------------------
  // Picking an asset

  /** A release asset; only its name is scored. */
  datatype Asset = Asset(name: Option<string>, downloadUrl: string)

  /** Below this score an asset does not look remotely right. */
  const MinScore: int := 5

  function Scores(assets: seq<Asset>, platform: string, arch: string): (r: seq<int>)
    ensures |r| == |assets|
    ensures forall i :: 0 <= i < |assets| ==> r[i] == Score(assets[i].name, platform, arch)
  {
    seq(|assets|, i requires 0 <= i < |assets| => Score(assets[i].name, platform, arch))
  }

  /** Position `i` holds the first maximum of `s[..n]`: strictly above everything before it, at least everything after. */
  predicate FirstMaxUpTo(s: seq<int>, i: nat, n: nat) {
    i < n <= |s|
    && (forall j :: 0 <= j < i ==> s[j] < s[i])
    && (forall j :: i < j < n ==> s[j] <= s[i])
  }

  /** One more element either takes over as the first maximum, when strictly greater, or leaves it. */
  lemma FirstMaxStep(s: seq<int>, m: nat, i: nat)
    requires i < |s| && (i == 0 || FirstMaxUpTo(s, m, i))
    ensures i == 0 || s[i] > s[m] ==> FirstMaxUpTo(s, i, i + 1)
    ensures i > 0 && s[i] <= s[m] ==> FirstMaxUpTo(s, m, i + 1)
  {
  }

  /** The first maximum of the whole sequence bounds every element. */
  lemma FirstMaxBounds(s: seq<int>, m: nat)
    requires FirstMaxUpTo(s, m, |s|)
    ensures forall j :: 0 <= j < |s| ==> s[j] <= s[m]
  {
  }

  /** Ties go to the earliest: no element before the first maximum reaches it, and none after exceeds it. */
  lemma TiesGoEarliest(s: seq<int>, m: nat, j: nat)
    requires FirstMaxUpTo(s, m, |s|) && j < |s| && s[j] >= s[m]
    ensures m <= j && s[j] == s[m]
  {
  }

  /**
   * `pickBestAsset`: nothing for a non-array (`None`) or empty list;
   * otherwise the first asset with the greatest score, unless that score is
   * below 5.
   */
  method PickBestAsset(assets: Option<seq<Asset>>, platform: string, arch: string) returns (r: Option<Asset>)
    ensures r.None? <==> assets.None? || forall i :: 0 <= i < |assets.value| ==> Score(assets.value[i].name, platform, arch) < MinScore
    ensures r.Some? ==> exists i: nat :: FirstMaxUpTo(Scores(assets.value, platform, arch), i, |assets.value|) && assets.value[i] == r.value
    ensures r.Some? ==> Score(r.value.name, platform, arch) >= MinScore
  {
    if assets.None? || |assets.value| == 0 {
      return None;
    }
    var xs := assets.value;
    ghost var scores := Scores(xs, platform, arch);
    // `best == None` stands for the source's `bestScore = -Infinity`.
    var best: Option<Asset> := None;
    var bestScore := 0;
    ghost var bestIndex: nat := 0;
    for i := 0 to |xs|
      invariant best.None? <==> i == 0
      invariant i > 0 ==> FirstMaxUpTo(scores, bestIndex, i) && best == Some(xs[bestIndex]) && bestScore == scores[bestIndex]
    {
      var s := ScoreAsset(xs[i].name, platform, arch);
      FirstMaxStep(scores, bestIndex, i);
      if best.None? || s > bestScore {
        best := Some(xs[i]);
        bestScore := s;
        bestIndex := i;
      }
    }
    if bestScore < MinScore {
      FirstMaxBounds(scores, bestIndex);
      return None;
    }
    assert FirstMaxUpTo(Scores(assets.value, platform, arch), bestIndex, |assets.value|);
    r := best;
  }

  // ---------------------------------------------------------------------------
  // The newest pre-release

  /** A release as the GitHub API lists it. */
  datatype Release = Release(tagName: string, draft: bool, prerelease: bool)

  /** An entry the pre-release button may offer: present, not a draft, a pre-release. */
  predicate OfferedPrerelease(e: Option<Release>) {
    e.Some? && !e.value.draft && e.value.prerelease
  }

  /** The first entry that is a published pre-release, in list order; nothing for a non-array (`None`). */
  function LatestPrerelease(releases: Option<seq<Option<Release>>>): (r: Option<Release>)
    ensures r.None? <==> releases.None? || forall i :: 0 <= i < |releases.value| ==> !OfferedPrerelease(releases.value[i])
    ensures r.Some? ==> exists i :: 0 <= i < |releases.value| && releases.value[i] == r
                          && OfferedPrerelease(r)
                          && forall j :: 0 <= j < i ==> !OfferedPrerelease(releases.value[j])
  {
    if releases.None? then None
    else
      match Search.FirstWhere(releases.value, OfferedPrerelease)
      case None => None
      case Some(i) => releases.value[i]
  }

  /** `pickLatestPrerelease`: drafts are skipped, the first pre-release is returned. */
  method PickLatestPrerelease(releases: Option<seq<Option<Release>>>) returns (r: Option<Release>)
    ensures r == LatestPrerelease(releases)
  {
    if releases.None? {
      return None;
    }
    var rs := releases.value;
    for i := 0 to |rs|
      invariant forall j :: 0 <= j < i ==> !OfferedPrerelease(rs[j])
    {
      if rs[i].Some? && rs[i].value.draft {
        continue;
      }
      if rs[i].Some? && rs[i].value.prerelease {
        Search.FirstWhereIs(rs, OfferedPrerelease, i);
        return rs[i];
      }
    }
    return None;
  }
}
