/** The connector's configuration (src/config.rs): the two optional overrides
    and their fallbacks, the decoder that recognises a browser installed as an
    MSIX package from the components of its path, and the search for the
    default browser profile folder. Filesystem facts enter as the oracle
    `pathExists`; the home directory and the parent-process path enter as
    values. */
module Configuration {
  import opened Wrappers
  import opened Paths
  import opened Search

  /** The user's configuration file: an optional profile folder and an
      optional browser binary, both overriding what the connector discovers. */
  datatype Config = Config(browserProfileDir: Option<Path>, browserBinary: Option<Path>) {

    /** The configured profile folder, or the discovered default one. */
    function BrowserProfileDir(defaultFolder: Path): (dir: Path)
      ensures browserProfileDir.Some? ==> dir == browserProfileDir.value
      ensures browserProfileDir.None? ==> dir == defaultFolder
    {
      browserProfileDir.GetOr(defaultFolder)
    }

    /** The configured browser binary exactly as stored: unlike the profile
        folder it has no fallback here. */
    function BrowserBinary(): (binary: Option<Path>)
      ensures binary.Some? <==> browserBinary.Some?
      ensures binary.Some? ==> binary.value == browserBinary.value
    {
      browserBinary
    }

    /** `profiles.ini` inside the profile folder. */
    method ProfilesIniPath(defaultFolder: Path) returns (path: Path)
      ensures |path| == |BrowserProfileDir(defaultFolder)| + 1
      ensures path[..|path| - 1] == BrowserProfileDir(defaultFolder)
      ensures path[|path| - 1] == Normal("profiles.ini")
    {
      path := BrowserProfileDir(defaultFolder);
      path := path + [Normal("profiles.ini")];
    }

    /** `installs.ini` inside the profile folder. */
    method InstallsIniPath(defaultFolder: Path) returns (path: Path)
      ensures |path| == |BrowserProfileDir(defaultFolder)| + 1
      ensures path[..|path| - 1] == BrowserProfileDir(defaultFolder)
      ensures path[|path| - 1] == Normal("installs.ini")
    {
      path := BrowserProfileDir(defaultFolder);
      path := path + [Normal("installs.ini")];
    }

    /** The configuration used when there is no usable file: nothing is
        overridden, so the profile folder is the discovered default and no
        binary is configured. */
    static function Default(): (c: Config)
      ensures forall defaultFolder: Path {:trigger c.BrowserProfileDir(defaultFolder)} ::
        c.BrowserProfileDir(defaultFolder) == defaultFolder
      ensures c.BrowserBinary().None?
    {
      Config(None, None)
    }
  }

  /** Loads the configuration. `file` is the content of the configuration
      file, or None when it cannot be opened; `parse` stands for the JSON
      decoder, None when the content does not decode. */
  function ReadConfiguration(file: Option<string>, parse: string -> Option<Config>): (c: Config)
    ensures file.None? ==> c == Config.Default()
    ensures file.Some? && parse(file.value).None? ==> c == Config.Default()
    ensures file.Some? && parse(file.value).Some? ==> c == parse(file.value).value
  {
    match file
    case None => Config.Default()
    case Some(text) =>
      match parse(text)
      case Some(config) => config
      case None => Config.Default()
  }

  // ---------------------------------------------------------------------------
  // MSIX package identity

  /** Why the parent browser is not taken to be an MSIX install. */
  datatype MsixError<E> = ParentProcFailed(cause: E) | NotMsixLayout(components: Path)

  /** Index of the first occurrence of `c` in `s` (`str::find`). */
  function FindChar(s: string, c: char): (r: Option<nat>)
    ensures r.None? <==> c !in s
    ensures r.Some? ==> r.value < |s| && s[r.value] == c && c !in s[..r.value]
  {
    if |s| == 0 then None
    else if s[0] == c then Some(0)
    else match FindChar(s[1..], c)
      case None => None
      case Some(i) => assert s[..i + 1] == [s[0]] + s[1..][..i]; Some(i + 1)
  }

  /** Index of the last occurrence of `c` in `s` (`str::rfind`). */
  function RFindChar(s: string, c: char): (r: Option<nat>)
    ensures r.None? <==> c !in s
    ensures r.Some? ==> r.value < |s| && s[r.value] == c && c !in s[r.value + 1..]
  {
    if |s| == 0 then None
    else if s[|s| - 1] == c then Some(|s| - 1)
    else match RFindChar(s[..|s| - 1], c)
      case None => None
      case Some(i) => assert s[i + 1..] == s[..|s| - 1][i + 1..] + [s[|s| - 1]]; Some(i)
  }

  /** The package family name of an MSIX package folder
      `<name>_<version>_<arch>__<publisher-id>`: the text before the first `_`
      and the text after the last `_`, joined by `_`. */
  function PackageFamily(package: string): (r: Option<string>)
    ensures r.Some? <==> '_' in package
    ensures r.Some? ==> exists first, last ::
      0 <= first <= last < |package| && package[first] == '_' && package[last] == '_' &&
      '_' !in package[..first] && '_' !in package[last + 1..] &&
      r.value == package[..first] + "_" + package[last + 1..]
    ensures r.Some? ==> multiset(r.value)['_'] == 1
  {
    match (FindChar(package, '_'), RFindChar(package, '_'))
    case (Some(first), Some(last)) =>
      var id := package[..first] + "_" + package[last + 1..];
      assert multiset(package[..first])['_'] == 0 && multiset(package[last + 1..])['_'] == 0;
      Some(id)
    case _ => None
  }

  /** The components that follow the first root directory: everything before
      it (a drive prefix, say) and the root itself are skipped. */
  function AfterRoot(p: Path): (r: Path)
    ensures RootDir !in p ==> r == []
    ensures forall k :: IsFirstRoot(p, k) ==> r == p[k + 1..]
  {
    if |p| == 0 then []
    else if p[0] == RootDir then p[1..]
    else
      assert forall k :: IsFirstRoot(p, k) ==> k > 0 && IsFirstRoot(p[1..], k - 1) by {
        forall k | IsFirstRoot(p, k) ensures k > 0 && IsFirstRoot(p[1..], k - 1) {
          assert p[..k] == [p[0]] + p[1..][..k - 1];
        }
      }
      AfterRoot(p[1..])
  }

  /** `k` is the index of the first root directory of `p`. */
  predicate IsFirstRoot(p: Path, k: int) {
    0 <= k < |p| && p[k] == RootDir && RootDir !in p[..k]
  }

  /** At most the first three elements. */
  function Take3(p: Path): (r: Path) {
    if |p| <= 3 then p else p[..3]
  }

  /** Decodes the MSIX package identity from the components of the parent
      browser's path: after the root it must read `Program Files`,
      `WindowsApps`, then a package folder that contains `_`. */
  function DecodeMsixPackage<E>(p: Path): (r: Result<string, MsixError<E>>)
    ensures r.Ok? ==> multiset(r.value)['_'] == 1
  {
    var c := Take3(AfterRoot(p));
    if |c| == 3 && c[0] == Normal("Program Files") && c[1] == Normal("WindowsApps") && c[2].Normal? then
      match PackageFamily(c[2].name)
      case Some(id) => Ok(id)
      case None => Err(NotMsixLayout(c))
    else Err(NotMsixLayout(c))
  }

  /** The package identity derived from the parent-process result. */
  function MsixPackage<E>(parent: Result<Path, E>): (r: Result<string, MsixError<E>>)
    ensures parent.Err? ==> r == Err(ParentProcFailed(parent.error))
    ensures parent.Ok? ==> r == DecodeMsixPackage(parent.value)
    ensures r.Ok? ==> parent.Ok? && multiset(r.value)['_'] == 1
  {
    match parent
    case Err(e) => Err(ParentProcFailed(e))
    case Ok(p) => DecodeMsixPackage(p)
  }

  /** The decoder accepts exactly the paths whose three components after the
      first root are `Program Files`, `WindowsApps` and a name with `_`, and
      then yields that name's package family. */
  lemma {:induction false} MsixLayoutIff<E>(p: Path, k: nat)
    requires IsFirstRoot(p, k)
    ensures DecodeMsixPackage<E>(p).Ok? <==>
      k + 3 < |p| && p[k + 1] == Normal("Program Files") && p[k + 2] == Normal("WindowsApps") &&
      p[k + 3].Normal? && '_' in p[k + 3].name
    ensures DecodeMsixPackage<E>(p).Ok? ==> Some(DecodeMsixPackage<E>(p).value) == PackageFamily(p[k + 3].name)
  {
    var rest := AfterRoot(p);
    assert rest == p[k + 1..];
    if k + 3 < |p| {
      assert Take3(rest) == [p[k + 1], p[k + 2], p[k + 3]];
    } else {
      assert |Take3(rest)| < 3;
    }
  }

  /** A path without a root directory, or with fewer than three components
      after it, is never an MSIX install. */
  lemma ShortOrRootlessIsNotMsix<E>(p: Path)
    requires RootDir !in p || |AfterRoot(p)| < 3
    ensures DecodeMsixPackage<E>(p).Err?
  {
  }

  /** Two distinct occurrences of `c` count twice. */
  lemma TwoOccurrences(s: string, c: char, i: nat, j: nat)
    requires i < j < |s| && s[i] == c && s[j] == c
    ensures multiset(s)[c] >= 2
  {
    assert s == s[..j] + s[j..];
    assert s[i] in s[..j];
    assert s[j..][0] == c;
  }

  /** `FindChar` is determined by its contract. */
  lemma FindCharIs(s: string, c: char, i: nat)
    requires i < |s| && s[i] == c && c !in s[..i]
    ensures FindChar(s, c) == Some(i)
  {
  }

  /** `RFindChar` is determined by its contract. */
  lemma RFindCharIs(s: string, c: char, i: nat)
    requires i < |s| && s[i] == c && c !in s[i + 1..]
    ensures RFindChar(s, c) == Some(i)
  {
  }

  /** A package name that already holds exactly one `_` is its own family. */
  lemma {:induction false} SingleUnderscoreIsFixed(package: string)
    requires multiset(package)['_'] == 1
    ensures PackageFamily(package) == Some(package)
  {
    var first := FindChar(package, '_').value;
    var last := RFindChar(package, '_').value;
    if first < last {
      TwoOccurrences(package, '_', first, last);
    } else if last < first {
      TwoOccurrences(package, '_', last, first);
    }
    assert package == package[..first] + "_" + package[first + 1..];
  }

  /** A folder `<name>_<middle>_<publisher>` whose name and publisher hold no
      `_` has family `<name>_<publisher>`, whatever the middle holds. */
  lemma PackageFamilyOfParts(name: string, middle: string, publisher: string)
    requires '_' !in name && '_' !in publisher
    ensures PackageFamily(name + "_" + middle + "_" + publisher) == Some(name + "_" + publisher)
  {
    var package := name + "_" + middle + "_" + publisher;
    assert package[..|name|] == name;
    assert package[|name| + |middle| + 2..] == publisher;
    assert package[|name|] == '_' && package[|name| + |middle| + 1] == '_';
    FindCharIs(package, '_', |name|);
    RFindCharIs(package, '_', |name| + |middle| + 1);
  }

  /** The family of the Firefox package folder in the example of the comment
      at src/config.rs:44. */
  lemma DocumentedPackageFamily()
    ensures PackageFamily("Mozilla.Firefox_97.0.1.0_x64__n80bbvh6b1yt2") == Some("Mozilla.Firefox_n80bbvh6b1yt2")
  {
    var name, middle, publisher := "Mozilla.Firefox", "97.0.1.0_x64_", "n80bbvh6b1yt2";
    assert name + "_" + middle + "_" + publisher == "Mozilla.Firefox_97.0.1.0_x64__n80bbvh6b1yt2";
    assert name + "_" + publisher == "Mozilla.Firefox_n80bbvh6b1yt2";
    PackageFamilyOfParts(name, middle, publisher);
  }

  /** A Store path: a drive prefix, the root, `Program Files`, `WindowsApps`,
      the package folder, then anything. */
  lemma {:induction false} StorePathDecodes<E>(drive: string, package: string, tail: Path)
    requires '_' in package
    ensures DecodeMsixPackage<E>([Prefix(drive), RootDir, Normal("Program Files"), Normal("WindowsApps"), Normal(package)] + tail)
      == Ok(PackageFamily(package).value)
  {
    var p := [Prefix(drive), RootDir, Normal("Program Files"), Normal("WindowsApps"), Normal(package)] + tail;
    var r := DecodeMsixPackage<E>(p);
    assert r.Ok? && Some(r.value) == PackageFamily(package) by {
      assert IsFirstRoot(p, 1) by { assert p[..1] == [Prefix(drive)]; }
      assert p[2] == Normal("Program Files") && p[3] == Normal("WindowsApps") && p[4] == Normal(package);
      MsixLayoutIff<E>(p, 1);
    }
  }

  /** The example in the comment at src/config.rs:44: the path of Firefox
      installed from the Store. */
  lemma DocumentedPackageExample<E>()
    ensures DecodeMsixPackage<E>([Prefix("C:"), RootDir, Normal("Program Files"), Normal("WindowsApps"),
      Normal("Mozilla.Firefox_97.0.1.0_x64__n80bbvh6b1yt2"), Normal("VFS"), Normal("ProgramFiles"),
      Normal("Firefox Package Root"), Normal("firefox.exe")]) == Ok("Mozilla.Firefox_n80bbvh6b1yt2")
  {
    var package := "Mozilla.Firefox_97.0.1.0_x64__n80bbvh6b1yt2";
    var tail := [Normal("VFS"), Normal("ProgramFiles"), Normal("Firefox Package Root"), Normal("firefox.exe")];
    assert '_' in package by { assert package[15] == '_'; }
    assert [Prefix("C:"), RootDir, Normal("Program Files"), Normal("WindowsApps"), Normal(package)] + tail
      == [Prefix("C:"), RootDir, Normal("Program Files"), Normal("WindowsApps"),
          Normal("Mozilla.Firefox_97.0.1.0_x64__n80bbvh6b1yt2"), Normal("VFS"), Normal("ProgramFiles"),
          Normal("Firefox Package Root"), Normal("firefox.exe")];
    StorePathDecodes<E>("C:", package, tail);
    DocumentedPackageFamily();
  }

  // ---------------------------------------------------------------------------
  // Default browser profile folder

  /** The browser variants, in the order their folders are tried. */
  const FirefoxDirs: seq<string> := ["firefox", "librewolf", "waterfox", "zen-browser"]

  /** Each variant with its Flatpak application id, in the order tried. */
  const FlatpakAppIds: seq<(string, string)> := [
    ("firefox", "org.mozilla.firefox"),
    ("librewolf", "io.gitlab.librewolf-community"),
    ("waterfox", "net.waterfox.waterfox"),
    ("zen-browser", "org.mozilla.firefox.zen")
  ]

  /** A folder is a browser profile folder when it holds `profiles.ini`. */
  predicate IsValidBrowserDir(pathExists: Path -> bool, dir: Path) {
    pathExists(dir + [Normal("profiles.ini")])
  }

  /** `IsValidBrowserDir` as a value, for the first-match scan. */
  function ValidDir(pathExists: Path -> bool): Path -> bool {
    dir => IsValidBrowserDir(pathExists, dir)
  }

  /** The profile folder inside a Flatpak sandbox: Firefox keeps
      `.mozilla/firefox`, the other variants `.<name>`. */
  function FlatpakProfileDir(home: Path, dirName: string, appId: string): Path {
    if dirName == "firefox" then
      home + [Normal(".var"), Normal("app"), Normal(appId), Normal(".mozilla"), Normal("firefox")]
    else
      home + [Normal(".var"), Normal("app"), Normal(appId), Normal("." + dirName)]
  }

  function FlatpakProfileDirs(home: Path, apps: seq<(string, string)>): seq<Path> {
    if |apps| == 0 then []
    else [FlatpakProfileDir(home, apps[0].0, apps[0].1)] + FlatpakProfileDirs(home, apps[1..])
  }

  /** For each variant, `.mozilla/<name>` and then `.<name>` in the home folder. */
  function StandardProfileDirs(home: Path, names: seq<string>): seq<Path> {
    if |names| == 0 then []
    else
      [home + [Normal(".mozilla"), Normal(names[0])], home + [Normal("." + names[0])]]
      + StandardProfileDirs(home, names[1..])
  }

  /** Upper case of an ASCII letter; any other character is unchanged. */
  function ToUpper(c: char): char {
    if 'a' <= c <= 'z' then (c as int - 32) as char else c
  }

  /** The name with its first character in upper case. */
  function Capitalize(name: string): (r: string)
    requires |name| > 0
    ensures |r| == |name| && r[0] == ToUpper(name[0])
    ensures forall i :: 0 < i < |name| ==> r[i] == name[i]
  {
    [ToUpper(name[0])] + name[1..]
  }

  function CapitalizedDirs(base: Path, names: seq<string>): seq<Path>
    requires forall i :: 0 <= i < |names| ==> |names[i]| > 0
  {
    if |names| == 0 then []
    else [base + [Normal(Capitalize(names[0]))]] + CapitalizedDirs(base, names[1..])
  }

  /** The folder that holds the variants' folders on macOS and Windows. On
      Windows a browser installed as an MSIX package keeps it in the
      package's private cache. */
  function ProfileBase<E>(platform: Platform, home: Path, msix: Result<string, E>): Path
    requires platform != Linux
  {
    if platform == MacOS then home + [Normal("Library"), Normal("Application Support")]
    else
      (match msix
       case Ok(package) =>
         home + [Normal("AppData"), Normal("Local"), Normal("Packages"), Normal(package), Normal("LocalCache")]
       case Err(_) => home + [Normal("AppData")])
      + [Normal("Roaming"), Normal("Mozilla")]
  }

  /** The folders tried, in order. */
  function ProfileDirCandidates<E>(platform: Platform, home: Path, msix: Result<string, E>): seq<Path> {
    if platform == Linux then
      FlatpakProfileDirs(home, FlatpakAppIds) + StandardProfileDirs(home, FirefoxDirs)
    else
      CapitalizedDirs(ProfileBase(platform, home, msix), FirefoxDirs)
  }

  /** The folder used when no candidate holds `profiles.ini`: Firefox's. */
  function FallbackProfileDir<E>(platform: Platform, home: Path, msix: Result<string, E>): Path {
    if platform == Linux then home + [Normal(".mozilla"), Normal("firefox")]
    else ProfileBase(platform, home, msix) + [Normal("Firefox")]
  }

  /** The default profile folder: the first candidate that holds
      `profiles.ini`, else the Firefox fallback. */
  function DefaultProfileFolder<E>(platform: Platform, home: Path, msix: Result<string, E>, pathExists: Path -> bool): (dir: Path)
    ensures dir == FallbackProfileDir(platform, home, msix) ||
      (dir in ProfileDirCandidates(platform, home, msix) && IsValidBrowserDir(pathExists, dir))
    ensures (forall i :: 0 <= i < |ProfileDirCandidates(platform, home, msix)| ==>
              !IsValidBrowserDir(pathExists, ProfileDirCandidates(platform, home, msix)[i]))
            ==> dir == FallbackProfileDir(platform, home, msix)
  {
    FirstMatch(ProfileDirCandidates(platform, home, msix), ValidDir(pathExists)).GetOr(FallbackProfileDir(platform, home, msix))
  }

  /** Computes the default profile folder the way the connector does: the
      build for each platform runs one of the two searches below. */
  method DefaultBrowserProfileFolder<E>(platform: Platform, home: Path, msix: Result<string, E>, pathExists: Path -> bool)
    returns (result: Path)
    ensures result == DefaultProfileFolder(platform, home, msix, pathExists)
  {
    if platform == Linux {
      result := LinuxProfileFolder(home, pathExists);
      assert ProfileDirCandidates(Linux, home, msix) == ProfileDirCandidates<()>(Linux, home, Err(()));
    } else {
      result := AppDataProfileFolder(platform, home, msix, pathExists);
    }
  }

  /** The Linux search: the Flatpak folders first, then the standard ones,
      stopping at the first that holds `profiles.ini`. */
  method LinuxProfileFolder(home: Path, pathExists: Path -> bool) returns (result: Path)
    ensures result == DefaultProfileFolder<()>(Linux, home, Err(()), pathExists)
  {
    var flatpak := FlatpakProfileFolder(home, pathExists);
    FirstMatchAppend(FlatpakProfileDirs(home, FlatpakAppIds), StandardProfileDirs(home, FirefoxDirs), ValidDir(pathExists));
    if flatpak.Some? {
      return flatpak.value;
    }
    result := StandardProfileFolder(home, pathExists);
  }

  /** The Flatpak part of the Linux search: each variant's folder inside its
      sandbox, in table order. */
  method FlatpakProfileFolder(home: Path, pathExists: Path -> bool) returns (found: Option<Path>)
    ensures found == FirstMatch(FlatpakProfileDirs(home, FlatpakAppIds), ValidDir(pathExists))
  {
    ghost var valid := ValidDir(pathExists);
    var i := 0;
    while i < |FlatpakAppIds|
      invariant 0 <= i <= |FlatpakAppIds|
      invariant FirstMatch(FlatpakProfileDirs(home, FlatpakAppIds), valid) == FirstMatch(FlatpakProfileDirs(home, FlatpakAppIds[i..]), valid)
    {
      var (dirName, appId) := FlatpakAppIds[i];
      var browserDirPath: Path;
      if dirName == "firefox" {
        browserDirPath := home + [Normal(".var"), Normal("app"), Normal(appId), Normal(".mozilla"), Normal("firefox")];
      } else {
        browserDirPath := home + [Normal(".var"), Normal("app"), Normal(appId), Normal("." + dirName)];
      }
      ghost var later := FlatpakProfileDirs(home, FlatpakAppIds[i + 1..]);
      assert FlatpakProfileDirs(home, FlatpakAppIds[i..]) == [browserDirPath] + later by {
        assert FlatpakAppIds[i..][1..] == FlatpakAppIds[i + 1..];
      }
      FirstMatchCons(browserDirPath, later, valid);
      if IsValidBrowserDir(pathExists, browserDirPath) {
        return Some(browserDirPath);
      }
      i := i + 1;
    }
    assert FlatpakAppIds[i..] == [];
    found := None;
  }

  /** One variant's step of the standard Linux list. */
  lemma StandardProfileDirsStep(home: Path, names: seq<string>, j: nat)
    requires j < |names|
    ensures StandardProfileDirs(home, names[j..]) ==
      [home + [Normal(".mozilla")] + [Normal(names[j])]]
      + ([home + [Normal("." + names[j])]] + StandardProfileDirs(home, names[j + 1..]))
  {
    assert names[j..][0] == names[j];
    assert names[j..][1..] == names[j + 1..];
    assert home + [Normal(".mozilla")] + [Normal(names[j])] == home + [Normal(".mozilla"), Normal(names[j])];
  }

  /** The standard part of the Linux search: `.mozilla/<name>`, then
      `.<name>`, per variant; Firefox's folder when none holds `profiles.ini`. */
  method StandardProfileFolder(home: Path, pathExists: Path -> bool) returns (result: Path)
    ensures result == FirstMatch(StandardProfileDirs(home, FirefoxDirs), ValidDir(pathExists))
                        .GetOr(home + [Normal(".mozilla"), Normal("firefox")])
  {
    ghost var valid := ValidDir(pathExists);
    assert FirefoxDirs[0..] == FirefoxDirs;
    result := home;
    var j := 0;
    while j < |FirefoxDirs|
      invariant 0 <= j <= |FirefoxDirs|
      invariant result == home
      invariant FirstMatch(StandardProfileDirs(home, FirefoxDirs), valid) == FirstMatch(StandardProfileDirs(home, FirefoxDirs[j..]), valid)
    {
      var dirName := FirefoxDirs[j];
      var mozillaDir := result + [Normal(".mozilla")] + [Normal(dirName)];
      var directDir := result + [Normal("." + dirName)];
      ghost var later := StandardProfileDirs(home, FirefoxDirs[j + 1..]);
      StandardProfileDirsStep(home, FirefoxDirs, j);
      FirstMatchCons(mozillaDir, [directDir] + later, valid);
      FirstMatchCons(directDir, later, valid);
      if IsValidBrowserDir(pathExists, mozillaDir) {
        return mozillaDir;
      } else if IsValidBrowserDir(pathExists, directDir) {
        return directDir;
      }
      j := j + 1;
    }
    result := result + [Normal(".mozilla")];
    result := result + [Normal("firefox")];
  }

  /** The macOS and Windows search: the base folder is built first, then
      each variant's capitalised folder inside it is tried. */
  method AppDataProfileFolder<E>(platform: Platform, home: Path, msix: Result<string, E>, pathExists: Path -> bool)
    returns (result: Path)
    requires platform != Linux
    ensures result == DefaultProfileFolder(platform, home, msix, pathExists)
  {
    var base := ProfileBaseFolder(platform, home, msix);
    result := CapitalizedProfileFolder(base, pathExists);
  }

  /** Builds the base folder component by component. */
  method ProfileBaseFolder<E>(platform: Platform, home: Path, msix: Result<string, E>) returns (result: Path)
    requires platform != Linux
    ensures result == ProfileBase(platform, home, msix)
  {
    if platform == MacOS {
      result := home;
      result := result + [Normal("Library")];
      result := result + [Normal("Application Support")];
    } else {
      match msix {
        case Ok(package) =>
          result := home;
          result := result + [Normal("AppData")];
          result := result + [Normal("Local")];
          result := result + [Normal("Packages")];
          result := result + [Normal(package)];
          result := result + [Normal("LocalCache")];
        case Err(_) =>
          result := home;
          result := result + [Normal("AppData")];
      }
      result := result + [Normal("Roaming")];
      result := result + [Normal("Mozilla")];
    }
  }

  /** One variant's step of the capitalised list. */
  lemma CapitalizedDirsStep(base: Path, names: seq<string>, j: nat)
    requires forall i :: 0 <= i < |names| ==> |names[i]| > 0
    requires j < |names|
    ensures CapitalizedDirs(base, names[j..]) == [base + [Normal(Capitalize(names[j]))]] + CapitalizedDirs(base, names[j + 1..])
  {
    assert names[j..][1..] == names[j + 1..];
  }

  /** Tries each variant's capitalised folder inside the base folder;
      Firefox's when none holds `profiles.ini`. */
  method CapitalizedProfileFolder(base: Path, pathExists: Path -> bool) returns (result: Path)
    ensures result == FirstMatch(CapitalizedDirs(base, FirefoxDirs), ValidDir(pathExists)).GetOr(base + [Normal("Firefox")])
  {
    ghost var valid := ValidDir(pathExists);
    assert FirefoxDirs[0..] == FirefoxDirs;
    result := base;
    var j := 0;
    while j < |FirefoxDirs|
      invariant 0 <= j <= |FirefoxDirs|
      invariant result == base
      invariant FirstMatch(CapitalizedDirs(base, FirefoxDirs), valid) == FirstMatch(CapitalizedDirs(base, FirefoxDirs[j..]), valid)
    {
      var capitalized := Capitalize(FirefoxDirs[j]);
      var browserDir := result + [Normal(capitalized)];
      CapitalizedDirsStep(base, FirefoxDirs, j);
      FirstMatchCons(browserDir, CapitalizedDirs(base, FirefoxDirs[j + 1..]), valid);
      if IsValidBrowserDir(pathExists, browserDir) {
        return browserDir;
      }
      j := j + 1;
    }
    result := result + [Normal("Firefox")];
  }

  /** The default folder is the candidate at the first index that holds
      `profiles.ini`. */
  lemma {:induction false} DefaultFolderIsFirstValid<E>(platform: Platform, home: Path, msix: Result<string, E>,
                                                        pathExists: Path -> bool, k: nat)
    requires k < |ProfileDirCandidates(platform, home, msix)|
    requires IsValidBrowserDir(pathExists, ProfileDirCandidates(platform, home, msix)[k])
    requires forall j :: 0 <= j < k ==> !IsValidBrowserDir(pathExists, ProfileDirCandidates(platform, home, msix)[j])
    ensures DefaultProfileFolder(platform, home, msix, pathExists) == ProfileDirCandidates(platform, home, msix)[k]
  {
    FirstMatchAt(ProfileDirCandidates(platform, home, msix), ValidDir(pathExists), k);
  }

  /** On Linux the Flatpak folders come first, in table order; then, per
      variant, `.mozilla/<name>` before `.<name>`. */
  lemma LinuxProfileDirOrder<E>(home: Path, msix: Result<string, E>)
    ensures ProfileDirCandidates(Linux, home, msix) == [
      home + [Normal(".var"), Normal("app"), Normal("org.mozilla.firefox"), Normal(".mozilla"), Normal("firefox")],
      home + [Normal(".var"), Normal("app"), Normal("io.gitlab.librewolf-community"), Normal(".librewolf")],
      home + [Normal(".var"), Normal("app"), Normal("net.waterfox.waterfox"), Normal(".waterfox")],
      home + [Normal(".var"), Normal("app"), Normal("org.mozilla.firefox.zen"), Normal(".zen-browser")],
      home + [Normal(".mozilla"), Normal("firefox")], home + [Normal(".firefox")],
      home + [Normal(".mozilla"), Normal("librewolf")], home + [Normal(".librewolf")],
      home + [Normal(".mozilla"), Normal("waterfox")], home + [Normal(".waterfox")],
      home + [Normal(".mozilla"), Normal("zen-browser")], home + [Normal(".zen-browser")]
    ]
  {
    var t := FlatpakAppIds;
    assert FlatpakProfileDirs(home, t[3..]) == [FlatpakProfileDir(home, t[3].0, t[3].1)] by {
      assert t[3..][1..] == [];
    }
    assert FlatpakProfileDirs(home, t[2..]) == [FlatpakProfileDir(home, t[2].0, t[2].1)] + FlatpakProfileDirs(home, t[3..]) by {
      assert t[2..][1..] == t[3..];
    }
    assert FlatpakProfileDirs(home, t[1..]) == [FlatpakProfileDir(home, t[1].0, t[1].1)] + FlatpakProfileDirs(home, t[2..]) by {
      assert t[1..][1..] == t[2..];
    }
    assert FlatpakProfileDirs(home, t) == [FlatpakProfileDir(home, t[0].0, t[0].1)] + FlatpakProfileDirs(home, t[1..]);
    assert "." + "librewolf" == ".librewolf" && "." + "waterfox" == ".waterfox";
    assert "." + "zen-browser" == ".zen-browser" && "." + "firefox" == ".firefox";
    var n := FirefoxDirs;
    assert StandardProfileDirs(home, n[3..]) == [home + [Normal(".mozilla"), Normal(n[3])], home + [Normal("." + n[3])]] by {
      assert n[3..][1..] == [];
    }
    assert StandardProfileDirs(home, n[2..]) == [home + [Normal(".mozilla"), Normal(n[2])], home + [Normal("." + n[2])]] + StandardProfileDirs(home, n[3..]) by {
      assert n[2..][1..] == n[3..];
    }
    assert StandardProfileDirs(home, n[1..]) == [home + [Normal(".mozilla"), Normal(n[1])], home + [Normal("." + n[1])]] + StandardProfileDirs(home, n[2..]) by {
      assert n[1..][1..] == n[2..];
    }
    assert StandardProfileDirs(home, n) == [home + [Normal(".mozilla"), Normal(n[0])], home + [Normal("." + n[0])]] + StandardProfileDirs(home, n[1..]);
  }

  /** On macOS and Windows the variants' folder names are the names with an
      upper-case first letter, tried in the same order. */
  lemma CapitalizedProfileDirs<E>(platform: Platform, home: Path, msix: Result<string, E>)
    requires platform != Linux
    ensures ProfileDirCandidates(platform, home, msix) == [
      ProfileBase(platform, home, msix) + [Normal("Firefox")],
      ProfileBase(platform, home, msix) + [Normal("Librewolf")],
      ProfileBase(platform, home, msix) + [Normal("Waterfox")],
      ProfileBase(platform, home, msix) + [Normal("Zen-browser")]
    ]
  {
    assert Capitalize("firefox") == "Firefox";
    assert Capitalize("librewolf") == "Librewolf";
    assert Capitalize("waterfox") == "Waterfox";
    assert Capitalize("zen-browser") == "Zen-browser";
    var base, n := ProfileBase(platform, home, msix), FirefoxDirs;
    assert CapitalizedDirs(base, n[3..]) == [base + [Normal(Capitalize(n[3]))]] by {
      assert n[3..][1..] == [];
    }
    assert CapitalizedDirs(base, n[2..]) == [base + [Normal(Capitalize(n[2]))]] + CapitalizedDirs(base, n[3..]) by {
      assert n[2..][1..] == n[3..];
    }
    assert CapitalizedDirs(base, n[1..]) == [base + [Normal(Capitalize(n[1]))]] + CapitalizedDirs(base, n[2..]) by {
      assert n[1..][1..] == n[2..];
    }
  }
}
