/**
 * Build-time shaping of release data for the download page (src/lib/github.js).
 * The network fetch is not modelled: its outcome is an input (FetchResult).
 */
module GitHub {
  import opened Wrappers

  const GitHubOwner := "josstei"
  const GitHubRepo := "prismgb-app"
  const FallbackVersion := "1.0.0"

  /** The releases page used by the fallback data. */
  const ReleasesPage := "https://github.com/" + GitHubOwner + "/" + GitHubRepo + "/releases"

  datatype PlatformKey = Windows | MacArm64 | MacX64 | Linux

  /** One entry of the platform list shown on the download page. Absent keys and
      JavaScript null are both None. */
  datatype Platform = Platform(
    name: string,
    icon: string,
    labelText: string,
    subtitle: Option<string>,
    filename: Option<string>,
    downloadUrl: Option<string>,
    size: Option<nat>)

  /** A release asset as decoded from the release API. */
  datatype Asset = Asset(name: string, browserDownloadUrl: string, size: nat)

  /** A decoded release record; fields the API may omit are Options. */
  datatype Release = Release(
    tagName: Option<string>,
    htmlUrl: Option<string>,
    publishedAt: Option<string>,
    assets: Option<seq<Asset>>)

  datatype ReleaseData = ReleaseData(
    version: string,
    releasesUrl: Option<string>,
    publishedAt: Option<string>,
    platforms: seq<Platform>)

  /** What the fetch produced: any failure (network error, non-ok status, bad JSON)
      or a decoded release. */
  datatype FetchResult = FetchFailed | Fetched(release: Release)

  /** Fields of a platform entry taken from a matching asset. */
  datatype AssetInfo = AssetInfo(filename: Option<string>, downloadUrl: Option<string>, size: Option<nat>)

  // ---------------------------------------------------------------------------
  // Asset-name patterns

  /** An end-anchored pattern  prefix [0-9.]+ suffix  that is not anchored at the start. */
  datatype AssetPattern = AssetPattern(prefix: string, suffix: string)

  /** Each pattern brackets the version in that platform's template file name. */
  function Pattern(k: PlatformKey): (r: AssetPattern)
    ensures forall version :: FileName(k, version) == r.prefix + version + r.suffix
  {
    match k
    case Windows => AssetPattern("PrismGB-Setup-", ".exe")
    case MacArm64 => AssetPattern("PrismGB-", "-mac-arm64.dmg")
    case MacX64 => AssetPattern("PrismGB-", "-mac-x64.dmg")
    case Linux => AssetPattern("PrismGB-", "-x86_64.AppImage")
  }

  predicate IsDigitOrDot(c: char)
  {
    '0' <= c <= '9' || c == '.'
  }

  predicate DigitsAndDots(s: string)
  {
    forall i | 0 <= i < |s| :: IsDigitOrDot(s[i])
  }

  predicate EndsWith(s: string, t: string)
  {
    |t| <= |s| && s[|s| - |t|..] == t
  }

  /** The pattern matches with its digits-and-dots run starting at position k of name. */
  predicate RunAt(p: AssetPattern, name: string, k: int)
  {
    && |p.prefix| <= k < |name| - |p.suffix|
    && name[k - |p.prefix|..k] == p.prefix
    && DigitsAndDots(name[k..|name| - |p.suffix|])
  }

  /** Regular-expression test of the pattern against name. */
  predicate Matches(p: AssetPattern, name: string)
    ensures Matches(p, name) ==> |p.prefix| + |p.suffix| < |name|
    ensures Matches(p, name) ==> IsDigitOrDot(name[|name| - |p.suffix| - 1])
  {
    EndsWith(name, p.suffix) && exists k | 0 <= k <= |name| :: RunAt(p, name, k)
  }

  // ---------------------------------------------------------------------------
  // Template data

  function DownloadBase(version: string): string
  {
    "https://github.com/" + GitHubOwner + "/" + GitHubRepo + "/releases/download/v" + version
  }

  function FileName(k: PlatformKey, version: string): string
  {
    match k
    case Windows => "PrismGB-Setup-" + version + ".exe"
    case MacArm64 => "PrismGB-" + version + "-mac-arm64.dmg"
    case MacX64 => "PrismGB-" + version + "-mac-x64.dmg"
    case Linux => "PrismGB-" + version + "-x86_64.AppImage"
  }

  function DownloadUrl(k: PlatformKey, version: string): string
  {
    var base := DownloadBase(version);
    match k
    case Windows => base + "/PrismGB-Setup-" + version + ".exe"
    case MacArm64 => base + "/PrismGB-" + version + "-mac-arm64.dmg"
    case MacX64 => base + "/PrismGB-" + version + "-mac-x64.dmg"
    case Linux => base + "/PrismGB-" + version + "-x86_64.AppImage"
  }

  const PlatformOrder: seq<PlatformKey> := [Windows, MacArm64, MacX64, Linux]

  /** The four platform entries for a version, download links built from the template. */
  function BuildPlatformData(version: string): (r: seq<Platform>)
    ensures |r| == 4
    ensures forall i | 0 <= i < 4 ::
      && r[i].filename == Some(FileName(PlatformOrder[i], version))
      && r[i].downloadUrl == Some(DownloadUrl(PlatformOrder[i], version))
      && r[i].size == None
  {
    [
      Platform("windows", "windows", "Windows", None,
        Some(FileName(Windows, version)), Some(DownloadUrl(Windows, version)), None),
      Platform("macos-arm64", "apple", "macOS (Apple Silicon)", Some("M1/M2/M3/M4"),
        Some(FileName(MacArm64, version)), Some(DownloadUrl(MacArm64, version)), None),
      Platform("macos-x64", "apple", "macOS (Intel)", Some("Intel Macs"),
        Some(FileName(MacX64, version)), Some(DownloadUrl(MacX64, version)), None),
      Platform("linux", "linux-download", "Linux", None,
        Some(FileName(Linux, version)), Some(DownloadUrl(Linux, version)), None)
    ]
  }

  function FallbackData(): (r: ReleaseData)
    ensures r.version == "1.0.0"
    ensures r.platforms == BuildPlatformData("1.0.0")
    ensures r.releasesUrl == Some("https://github.com/josstei/prismgb-app/releases")
    ensures r.publishedAt == None
  {
    assert ReleasesPage == "https://github.com/josstei/prismgb-app/releases";
    ReleaseData(FallbackVersion, Some(ReleasesPage), None, BuildPlatformData(FallbackVersion))
  }

  // ---------------------------------------------------------------------------
  // Asset selection

  /** The asset at index i is the first one, in list order, whose name matches p. */
  predicate FirstMatchAt(assets: seq<Asset>, p: AssetPattern, i: int)
  {
    && 0 <= i < |assets|
    && Matches(p, assets[i].name)
    && forall j | 0 <= j < i :: !Matches(p, assets[j].name)
  }

  /** Array.prototype.find with the pattern's test. */
  function FindAsset(assets: seq<Asset>, p: AssetPattern): (r: Option<Asset>)
    ensures r.Some? ==> r.value in assets && Matches(p, r.value.name)
    ensures r.None? ==> forall i | 0 <= i < |assets| :: !Matches(p, assets[i].name)
  {
    if assets == [] then None
    else if Matches(p, assets[0].name) then Some(assets[0])
    else FindAsset(assets[1..], p)
  }

  function GetAssetInfo(assets: seq<Asset>, k: PlatformKey): (r: AssetInfo)
    ensures r.filename.Some? <==> r.downloadUrl.Some?
    ensures r.size.Some? <==> r.filename.Some?
    ensures r.filename.Some? ==> Matches(Pattern(k), r.filename.value)
  {
    match FindAsset(assets, Pattern(k))
    case Some(a) => AssetInfo(Some(a.name), Some(a.browserDownloadUrl), Some(a.size))
    case None => AssetInfo(None, None, None)
  }

  /** tag_name.replace(/^v/, ''): drop at most one leading 'v'. */
  function StripTag(tag: string): (v: string)
    ensures v == tag || tag == "v" + v
    ensures |tag| > 0 && tag[0] == 'v' ==> tag == "v" + v
    ensures (|tag| == 0 || tag[0] != 'v') ==> v == tag
  {
    if |tag| > 0 && tag[0] == 'v' then tag[1..] else tag
  }

  /** The live platform list: the fixed descriptions, each with its platform's asset info. */
  function LivePlatforms(assets: seq<Asset>): (r: seq<Platform>)
    ensures |r| == 4
    ensures forall i | 0 <= i < 4 ::
      var info := GetAssetInfo(assets, PlatformOrder[i]);
      r[i].filename == info.filename && r[i].downloadUrl == info.downloadUrl && r[i].size == info.size
  {
    var w := GetAssetInfo(assets, Windows);
    var a := GetAssetInfo(assets, MacArm64);
    var x := GetAssetInfo(assets, MacX64);
    var l := GetAssetInfo(assets, Linux);
    [
      Platform("windows", "windows", "Windows", None, w.filename, w.downloadUrl, w.size),
      Platform("macos-arm64", "apple", "macOS (Apple Silicon)", Some("M1/M2/M3/M4"),
        a.filename, a.downloadUrl, a.size),
      Platform("macos-x64", "apple", "macOS (Intel)", Some("Intel Macs"),
        x.filename, x.downloadUrl, x.size),
      Platform("linux", "linux-download", "Linux", None, l.filename, l.downloadUrl, l.size)
    ]
  }

  /** getLatestRelease with the fetch replaced by its outcome. A missing tag_name makes
      the source's replace call throw, which its catch turns into the fallback. */
  function LatestRelease(fetched: FetchResult): (r: ReleaseData)
    ensures |r.platforms| == 4
    ensures fetched.FetchFailed? || fetched.release.tagName.None? ==> r == FallbackData()
  {
    match fetched
    case FetchFailed => FallbackData()
    case Fetched(release) =>
      match release.tagName
      case None => FallbackData()
      case Some(tag) =>
        var assets := if release.assets.Some? then release.assets.value else [];
        ReleaseData(StripTag(tag), release.htmlUrl, release.publishedAt, LivePlatforms(assets))
  }

  // ---------------------------------------------------------------------------
  // Properties

  /** find returns the first matching asset in list order. */
  lemma {:induction false} FindAssetFirst(assets: seq<Asset>, p: AssetPattern, i: int)
    requires FirstMatchAt(assets, p, i)
    ensures FindAsset(assets, p) == Some(assets[i])
  {
    if i > 0 {
      assert !Matches(p, assets[0].name);
      assert assets[1..][i - 1] == assets[i];
      forall j | 0 <= j < i - 1 ensures !Matches(p, assets[1..][j].name) {
        assert assets[1..][j] == assets[j + 1];
      }
      FindAssetFirst(assets[1..], p, i - 1);
    }
  }

  /** find finds nothing exactly when no asset matches. */
  lemma FindAssetNone(assets: seq<Asset>, p: AssetPattern)
    ensures FindAsset(assets, p).None? <==> forall i | 0 <= i < |assets| :: !Matches(p, assets[i].name)
  {
  }

  /** A matching asset supplies name, browser_download_url and size. */
  lemma GetAssetInfoFirstMatch(assets: seq<Asset>, k: PlatformKey, i: int)
    requires FirstMatchAt(assets, Pattern(k), i)
    ensures GetAssetInfo(assets, k)
      == AssetInfo(Some(assets[i].name), Some(assets[i].browserDownloadUrl), Some(assets[i].size))
  {
    FindAssetFirst(assets, Pattern(k), i);
  }

  /** No matching asset: filename and downloadUrl are null and size is absent. */
  lemma GetAssetInfoNoMatch(assets: seq<Asset>, k: PlatformKey)
    requires forall i | 0 <= i < |assets| :: !Matches(Pattern(k), assets[i].name)
    ensures GetAssetInfo(assets, k) == AssetInfo(None, None, None)
  {
  }

  /** Every download link is the release-download base for the version, a slash and
      the file name. */
  lemma DownloadUrlIsBasePlusFileName(k: PlatformKey, version: string)
    ensures DownloadUrl(k, version) == DownloadBase(version) + "/" + FileName(k, version)
  {
    var base := DownloadBase(version);
    match k
    case Windows =>
      assert "/PrismGB-Setup-" == "/" + "PrismGB-Setup-";
      assert base + "/PrismGB-Setup-" + version + ".exe"
        == base + "/" + ("PrismGB-Setup-" + version + ".exe");
    case MacArm64 =>
      assert "/PrismGB-" == "/" + "PrismGB-";
      assert base + "/PrismGB-" + version + "-mac-arm64.dmg"
        == base + "/" + ("PrismGB-" + version + "-mac-arm64.dmg");
    case MacX64 =>
      assert "/PrismGB-" == "/" + "PrismGB-";
      assert base + "/PrismGB-" + version + "-mac-x64.dmg"
        == base + "/" + ("PrismGB-" + version + "-mac-x64.dmg");
    case Linux =>
      assert "/PrismGB-" == "/" + "PrismGB-";
      assert base + "/PrismGB-" + version + "-x86_64.AppImage"
        == base + "/" + ("PrismGB-" + version + "-x86_64.AppImage");
  }

  /** A name built as prefix + run + suffix from a non-empty digits-and-dots run matches. */
  lemma {:induction false} PatternAccepts(p: AssetPattern, run: string)
    requires |run| > 0 && DigitsAndDots(run)
    ensures Matches(p, p.prefix + run + p.suffix)
  {
    var name := p.prefix + run + p.suffix;
    var k := |p.prefix|;
    assert name[k - |p.prefix|..k] == p.prefix;
    assert name[k..|name| - |p.suffix|] == run;
    assert name[|name| - |p.suffix|..] == p.suffix;
    assert RunAt(p, name, k);
  }

  /** A name whose last j-th character differs from the suffix's cannot match. */
  lemma SuffixClash(p: AssetPattern, head: string, tail: string, j: int)
    requires 1 <= j <= |tail| && j <= |p.suffix|
    requires tail[|tail| - j] != p.suffix[|p.suffix| - j]
    ensures !Matches(p, head + tail)
  {
  }

  /** For a non-empty version of digits and dots, a platform's template file name
      matches exactly that platform's pattern. */
  lemma TemplateMatchesOwnPatternOnly(k: PlatformKey, k': PlatformKey, version: string)
    requires |version| > 0 && DigitsAndDots(version)
    ensures Matches(Pattern(k'), FileName(k, version)) <==> k == k'
  {
    var p := Pattern(k');
    var tail := Pattern(k).suffix;
    assert FileName(k, version) == (Pattern(k).prefix + version) + tail;
    if k == k' {
      PatternAccepts(p, version);
    } else {
      // ".exe", "-mac-arm64.dmg", "-mac-x64.dmg", "-x86_64.AppImage" differ
      // at the 1st, 2nd or 7th character from the end
      var j :=
        if (k == Windows) != (k' == Windows) && k != Linux && k' != Linux then 1
        else if (k == Linux) != (k' == Linux) && k != Windows && k' != Windows then 1
        else if k == Windows || k' == Windows then 2
        else 7;
      SuffixClash(p, Pattern(k).prefix + version, tail, j);
    }
  }

  /** The live list keeps the template's names, icons, labels and subtitles in order. */
  lemma LivePlatformsAgreeWithTemplate(assets: seq<Asset>, version: string)
    ensures forall i | 0 <= i < 4 ::
      var live := LivePlatforms(assets)[i];
      var built := BuildPlatformData(version)[i];
      live.name == built.name && live.icon == built.icon
        && live.labelText == built.labelText && live.subtitle == built.subtitle
    ensures forall i | 0 <= i < 4 ::
      BuildPlatformData(version)[i].name == ["windows", "macos-arm64", "macos-x64", "linux"][i]
  {
  }

  /** A live release reports its tag with one leading 'v' removed, and a missing asset
      list behaves as an empty one. */
  lemma LatestReleaseFromRecord(release: Release, tag: string)
    requires release.tagName == Some(tag)
    ensures LatestRelease(Fetched(release)).version == StripTag(tag)
    ensures LatestRelease(Fetched(release)).releasesUrl == release.htmlUrl
    ensures LatestRelease(Fetched(release)).publishedAt == release.publishedAt
    ensures LatestRelease(Fetched(release)).platforms
      == LivePlatforms(if release.assets.Some? then release.assets.value else [])
    ensures release.assets.None? ==>
      LatestRelease(Fetched(release)) == LatestRelease(Fetched(release.(assets := Some([]))))
    ensures release.assets.None? ==> forall i | 0 <= i < 4 ::
      LatestRelease(Fetched(release)).platforms[i].filename == None
  {
  }

  /** The assets a release of the given version would carry, in template order. */
  function TemplateAssets(version: string, sizes: seq<nat>): (r: seq<Asset>)
    requires |sizes| == 4
    ensures |r| == 4
    ensures forall i | 0 <= i < 4 :: r[i].name == FileName(PlatformOrder[i], version)
  {
    seq(4, i requires 0 <= i < 4 =>
      Asset(FileName(PlatformOrder[i], version), DownloadUrl(PlatformOrder[i], version), sizes[i]))
  }

  /** Each template asset is the first match for its own platform's pattern. */
  lemma TemplateAssetSelected(version: string, sizes: seq<nat>, i: int)
    requires |version| > 0 && DigitsAndDots(version) && |sizes| == 4 && 0 <= i < 4
    ensures GetAssetInfo(TemplateAssets(version, sizes), PlatformOrder[i])
      == AssetInfo(Some(FileName(PlatformOrder[i], version)),
                   Some(DownloadUrl(PlatformOrder[i], version)), Some(sizes[i]))
  {
    var assets := TemplateAssets(version, sizes);
    var k := PlatformOrder[i];
    TemplateMatchesOwnPatternOnly(k, k, version);
    forall j | 0 <= j < i ensures !Matches(Pattern(k), assets[j].name) {
      TemplateMatchesOwnPatternOnly(PlatformOrder[j], k, version);
    }
    GetAssetInfoFirstMatch(assets, k, i);
  }

  /** Round trip: a release tagged "v" + version that carries the template assets yields
      the same file names and download links as the template data for that version. */
  lemma LiveReleaseMatchesTemplate(version: string, sizes: seq<nat>, htmlUrl: Option<string>)
    requires |version| > 0 && DigitsAndDots(version) && |sizes| == 4
    ensures
      var r := LatestRelease(Fetched(Release(Some("v" + version), htmlUrl, None, Some(TemplateAssets(version, sizes)))));
      && r.version == version
      && forall i | 0 <= i < 4 ::
        && r.platforms[i].filename == BuildPlatformData(version)[i].filename
        && r.platforms[i].downloadUrl == BuildPlatformData(version)[i].downloadUrl
        && r.platforms[i].size == Some(sizes[i])
  {
    var assets := TemplateAssets(version, sizes);
    var r := LatestRelease(Fetched(Release(Some("v" + version), htmlUrl, None, Some(assets))));
    assert ("v" + version)[1..] == version;
    assert r.platforms == LivePlatforms(assets);
    forall i | 0 <= i < 4
      ensures && r.platforms[i].filename == BuildPlatformData(version)[i].filename
              && r.platforms[i].downloadUrl == BuildPlatformData(version)[i].downloadUrl
              && r.platforms[i].size == Some(sizes[i])
    {
      TemplateAssetSelected(version, sizes, i);
    }
  }
}
