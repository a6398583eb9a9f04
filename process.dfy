/** Launching the browser on a profile (src/process.rs): finding a browser
    binary, deciding which binary or packaged application to start, the
    command-line arguments, and how the outcome of the operating-system calls
    becomes the launch result. The file system, the environment and the
    operating-system calls are parameters: `Host` for what is read, and
    `OsOutcomes` for what the calls report. */
module Process {
  import opened Wrappers
  import opened Paths
  import opened Search
  import opened Configuration
  import opened MsixArgs

  /** Why a launch failed. */
  datatype LaunchError =
    | BadExitCode
    | ForkError(message: string)
    | ProcessLaunchError(message: string)
    | MsixProcessLaunchError(message: string)
    | BinaryNotFound
    | BinaryDoesNotExist
    | ComError(message: string)

  /** Why reading an environment variable failed. */
  datatype VarError = NotPresent | NotUnicode

  /** Why the parent browser process could not be determined. Only the first
      variant is ever produced. */
  datatype ParentProcError =
    | NoCrashReporterEnvVar(cause: VarError)
    | LinuxOpenCurProcFailed(message: string)
    | LinuxFailedToParsePidString(pid: string)
    | LinuxCouldNotFindPPid
    | LinuxResolveParentExeFailed(message: string)

  /** What the connector reads from its host: the platform it was built for,
      which paths exist, `MOZ_CRASHREPORTER_RESTART_ARG_0`, and the Windows
      `ProgramFiles` and `ProgramFiles(x86)` variables (None when unset or not
      Unicode). */
  datatype Host = Host(
    platform: Platform,
    pathExists: Path -> bool,
    crashReporterRestartArg: Result<Path, VarError>,
    programFiles: Option<Path>,
    programFilesX86: Option<Path>)

  /** The executable names of the supported Firefox variants. */
  const BrowserExecutables: seq<string> := ["firefox", "librewolf", "waterfox", "zen-browser"]

  // ---------------------------------------------------------------------
  // Known binary locations
  // ---------------------------------------------------------------------

  /** `/usr/bin/<b>`, `/usr/local/bin/<b>` and `/snap/bin/<b>`. */
  function StandardBinaryPaths(browser: string): seq<Path> {
    [AbsPath(["usr", "bin", browser]), AbsPath(["usr", "local", "bin", browser]), AbsPath(["snap", "bin", browser])]
  }

  /** The binary inside an installed Flatpak application. */
  function FlatpakBinary(appId: string, executable: string): Path {
    AbsPath(["var", "lib", "flatpak", "app", appId, "current", "active", "files", "bin", executable])
  }

  /** The Flatpak binary checked for a variant; Zen Browser has none. */
  function FlatpakBinaryPaths(browser: string): (paths: seq<Path>)
    ensures |paths| <= 1
  {
    if browser == "firefox" then [FlatpakBinary("org.mozilla.firefox", "firefox")]
    else if browser == "librewolf" then [FlatpakBinary("io.gitlab.librewolf-community", "librewolf")]
    else if browser == "waterfox" then [FlatpakBinary("net.waterfox.waterfox", "waterfox")]
    else []
  }

  /** The Linux candidates for one variant, in the order they are checked. */
  function LinuxBinaryCandidatesFor(browser: string): seq<Path> {
    StandardBinaryPaths(browser) + FlatpakBinaryPaths(browser)
  }

  /** The Linux candidates for a list of variants, variant by variant. */
  function LinuxBinaryCandidates(browsers: seq<string>): seq<Path> {
    if |browsers| == 0 then []
    else LinuxBinaryCandidatesFor(browsers[0]) + LinuxBinaryCandidates(browsers[1..])
  }

  /** The macOS application bundles. */
  const MacBinaryPaths: seq<Path> := [
    AbsPath(["Applications", "Firefox.app", "Contents", "MacOS", "firefox"]),
    AbsPath(["Applications", "LibreWolf.app", "Contents", "MacOS", "librewolf"]),
    AbsPath(["Applications", "Waterfox.app", "Contents", "MacOS", "waterfox"]),
    AbsPath(["Applications", "Zen Browser.app", "Contents", "MacOS", "zen-browser"])
  ]

  /** `C:\Program Files` and `C:\Program Files (x86)`, used when the
      variables are not available. */
  const DefaultProgramFiles: Path := [Prefix("C:"), RootDir, Normal("Program Files")]
  const DefaultProgramFilesX86: Path := [Prefix("C:"), RootDir, Normal("Program Files (x86)")]

  /** The installation folders of the four variants under one base folder. */
  function WindowsInstallPaths(base: Path): seq<Path> {
    [base + [Normal("Mozilla Firefox"), Normal("firefox.exe")],
     base + [Normal("LibreWolf"), Normal("librewolf.exe")],
     base + [Normal("Waterfox"), Normal("waterfox.exe")],
     base + [Normal("Zen Browser"), Normal("zen-browser.exe")]]
  }

  /** The Windows candidates: first under `ProgramFiles`, then under
      `ProgramFiles(x86)`. */
  function WindowsBinaryPaths(programFiles: Path, programFilesX86: Path): seq<Path> {
    WindowsInstallPaths(programFiles) + WindowsInstallPaths(programFilesX86)
  }

  function WindowsCandidates(host: Host): seq<Path> {
    WindowsBinaryPaths(host.programFiles.GetOr(DefaultProgramFiles), host.programFilesX86.GetOr(DefaultProgramFilesX86))
  }

  /** The candidates as the platform selection is written: every Unix-family
      build, macOS included, takes the Linux list. */
  function BinaryCandidatesAsWritten(host: Host): (r: seq<Path>)
    ensures host.platform != MacOS ==> r == BinaryCandidates(host)
  {
    if host.platform.IsUnixFamily() then LinuxBinaryCandidates(BrowserExecutables)
    else WindowsCandidates(host)
  }

  /** The candidates each platform is meant to check: Linux its system,
      Snap and Flatpak locations, macOS its application bundles, Windows its
      installation folders. */
  function BinaryCandidates(host: Host): seq<Path> {
    match host.platform
    case Linux => LinuxBinaryCandidates(BrowserExecutables)
    case MacOS => MacBinaryPaths
    case Windows => WindowsCandidates(host)
  }

  /** The browser binary found by looking in the known locations: the first
      candidate that exists. */
  function KnownBinary(host: Host): (r: Option<Path>)
    ensures r.Some? ==> r.value in BinaryCandidates(host) && host.pathExists(r.value)
    ensures r.None? <==> forall i :: 0 <= i < |BinaryCandidates(host)| ==> !host.pathExists(BinaryCandidates(host)[i])
    ensures host.platform == MacOS ==>
      (r.Some? <==> exists i :: 0 <= i < |MacBinaryPaths| && host.pathExists(MacBinaryPaths[i]))
  {
    FirstMatch(BinaryCandidates(host), host.pathExists)
  }

  /** The binary found as the platform selection is written: the first
      existing candidate of the Unix-family list on macOS too. */
  function KnownBinaryAsWritten(host: Host): (r: Option<Path>)
    ensures r.Some? ==> r.value in BinaryCandidatesAsWritten(host) && host.pathExists(r.value)
    ensures host.platform != MacOS ==> r == KnownBinary(host)
  {
    FirstMatch(BinaryCandidatesAsWritten(host), host.pathExists)
  }

  /** Searches the known locations for the host's platform. */
  method FindBrowserBinary(host: Host) returns (found: Option<Path>)
    ensures found == KnownBinary(host)
  {
    match host.platform {
      case Linux =>
        found := FindLinuxBinary(host.pathExists);
      case MacOS =>
        found := FirstExistingPath(MacBinaryPaths, host.pathExists);
      case Windows =>
        var programFiles := host.programFiles.GetOr(DefaultProgramFiles);
        var programFilesX86 := host.programFilesX86.GetOr(DefaultProgramFilesX86);
        var browserPaths := WindowsBinaryPaths(programFiles, programFilesX86);
        found := FirstExistingPath(browserPaths, host.pathExists);
    }
  }

  /** The first path of a list that exists. */
  method FirstExistingPath(paths: seq<Path>, pathExists: Path -> bool) returns (found: Option<Path>)
    ensures found == FirstMatch(paths, pathExists)
  {
    var i := 0;
    while i < |paths|
      invariant 0 <= i <= |paths|
      invariant FirstMatch(paths, pathExists) == FirstMatch(paths[i..], pathExists)
    {
      FirstMatchStep(paths, pathExists, i);
      if pathExists(paths[i]) {
        return Some(paths[i]);
      }
      i := i + 1;
    }
    assert paths[i..] == [];
    found := None;
  }

  /** The Linux search: per variant, its three standard locations, then its
      Flatpak binary. */
  method FindLinuxBinary(pathExists: Path -> bool) returns (found: Option<Path>)
    ensures found == FirstMatch(LinuxBinaryCandidates(BrowserExecutables), pathExists)
  {
    var i := 0;
    while i < |BrowserExecutables|
      invariant 0 <= i <= |BrowserExecutables|
      invariant FirstMatch(LinuxBinaryCandidates(BrowserExecutables), pathExists)
             == FirstMatch(LinuxBinaryCandidates(BrowserExecutables[i..]), pathExists)
    {
      var browser := BrowserExecutables[i];
      ghost var later := LinuxBinaryCandidates(BrowserExecutables[i + 1..]);
      assert LinuxBinaryCandidates(BrowserExecutables[i..]) == LinuxBinaryCandidatesFor(browser) + later by {
        assert BrowserExecutables[i..][1..] == BrowserExecutables[i + 1..];
      }
      FirstMatchAppend(LinuxBinaryCandidatesFor(browser), later, pathExists);
      FirstMatchAppend(StandardBinaryPaths(browser), FlatpakBinaryPaths(browser), pathExists);
      var standardPaths := [AbsPath(["usr", "bin", browser]), AbsPath(["usr", "local", "bin", browser]), AbsPath(["snap", "bin", browser])];
      var j := 0;
      while j < |standardPaths|
        invariant 0 <= j <= |standardPaths|
        invariant FirstMatch(standardPaths, pathExists) == FirstMatch(standardPaths[j..], pathExists)
      {
        FirstMatchStep(standardPaths, pathExists, j);
        if pathExists(standardPaths[j]) {
          return Some(standardPaths[j]);
        }
        j := j + 1;
      }
      assert standardPaths[j..] == [];
      if browser == "firefox" {
        var flatpakPath := FlatpakBinary("org.mozilla.firefox", "firefox");
        FirstMatchCons(flatpakPath, [], pathExists);
        if pathExists(flatpakPath) {
          return Some(flatpakPath);
        }
      } else if browser == "librewolf" {
        var flatpakPath := FlatpakBinary("io.gitlab.librewolf-community", "librewolf");
        FirstMatchCons(flatpakPath, [], pathExists);
        if pathExists(flatpakPath) {
          return Some(flatpakPath);
        }
      } else if browser == "waterfox" {
        var flatpakPath := FlatpakBinary("net.waterfox.waterfox", "waterfox");
        FirstMatchCons(flatpakPath, [], pathExists);
        if pathExists(flatpakPath) {
          return Some(flatpakPath);
        }
      }
      i := i + 1;
    }
    assert BrowserExecutables[i..] == [];
    found := None;
  }

  // ---------------------------------------------------------------------
  // The parent browser process
  // ---------------------------------------------------------------------

  /** The crash reporter's restart path as a result: the path, or the
      reason the variable could not be read. */
  function CrashReporterResult(host: Host): Result<Path, ParentProcError> {
    match host.crashReporterRestartArg
    case Ok(path) => Ok(path)
    case Err(e) => Err(NoCrashReporterEnvVar(e))
  }

  /** The crash reporter names a restart path that exists. */
  predicate RestartPathExists(host: Host) {
    host.crashReporterRestartArg.Ok? && host.pathExists(host.crashReporterRestartArg.value)
  }

  /** The parent browser, given what the search of the known locations
      yields: the restart path when it exists, else the binary found, else
      the crash reporter's result as it was. */
  function ParentProcFrom(host: Host, known: Option<Path>): Result<Path, ParentProcError> {
    var crashReporterResult := CrashReporterResult(host);
    if crashReporterResult.Ok? && host.pathExists(crashReporterResult.value) then crashReporterResult
    else
      match known
      case Some(browserPath) => Ok(browserPath)
      case None => crashReporterResult
  }

  /** The browser that started the connector: the crash reporter's restart
      path when it exists, else a binary from the known locations, else the
      crash reporter's result as it was (a path that does not exist, or the
      reason the variable could not be read). */
  function ParentProc(host: Host): (r: Result<Path, ParentProcError>)
    ensures RestartPathExists(host) ==> r == Ok(host.crashReporterRestartArg.value)
    ensures !RestartPathExists(host) && KnownBinary(host).Some? ==> r == Ok(KnownBinary(host).value)
    ensures !RestartPathExists(host) && KnownBinary(host).None? ==>
      r == (match host.crashReporterRestartArg
            case Ok(p) => Ok(p)
            case Err(e) => Err(NoCrashReporterEnvVar(e)))
    ensures r.Ok? ==> host.pathExists(r.value) || (host.crashReporterRestartArg == Ok(r.value) && KnownBinary(host).None?)
    ensures r.Err? <==> host.crashReporterRestartArg.Err? && KnownBinary(host).None?
  {
    ParentProcFrom(host, KnownBinary(host))
  }

  // ---------------------------------------------------------------------
  // Arguments and the launch decision
  // ---------------------------------------------------------------------

  /** `-P <profile>`, followed by `--new-tab <url>` when a URL is given. */
  function BrowserArgs(profileName: string, url: Option<string>): (args: seq<string>)
    ensures |args| == if url.Some? then 4 else 2
    ensures args[0] == "-P" && args[1] == profileName
    ensures url.Some? ==> args[2] == "--new-tab" && args[3] == url.value
  {
    var args := ["-P", profileName];
    if url.Some? then args + ["--new-tab", url.value] else args
  }

  /** Builds the argument list by pushing onto it. */
  method BuildBrowserArgs(profileName: string, url: Option<string>) returns (args: seq<string>)
    ensures args == BrowserArgs(profileName, url)
  {
    args := ["-P", profileName];
    if url.Some? {
      args := args + ["--new-tab"];
      args := args + [url.value];
    }
  }

  /** What the connector decides to start. */
  datatype LaunchPlan =
    | Activate(appUserModelId: string, arguments: string)
    | Exec(binary: Path, args: seq<string>)

  /** The binary chosen before its existence is checked: the configured one,
      else the parent process, else a binary from the known locations. */
  function ChosenBinary(host: Host, config: Config): (r: Option<Path>)
    ensures config.BrowserBinary().Some? ==> r == config.BrowserBinary()
    ensures config.BrowserBinary().None? && ParentProc(host).Ok? ==> r == Some(ParentProc(host).value)
    ensures r.None? <==> config.BrowserBinary().None? && ParentProc(host).Err?
  {
    ChosenBinaryFrom(config, ParentProc(host), KnownBinary(host))
  }

  /** The binary chosen, given the parent browser and what the search of the
      known locations yields. */
  function ChosenBinaryFrom(config: Config, parent: Result<Path, ParentProcError>, known: Option<Path>): Option<Path> {
    match config.BrowserBinary()
    case Some(v) => Some(v)
    case None =>
      match parent
      case Ok(v) => Some(v)
      case Err(_) => known
  }

  /** The package of a Microsoft Store installation, looked for on Windows
      only. */
  function StorePackage(host: Host): (r: Option<string>)
    ensures r.Some? ==> host.platform == Windows
    ensures host.platform == Windows ==>
      (r.Some? <==> MsixPackage(ParentProc(host)).Ok?) &&
      (r.Some? ==> r.value == MsixPackage(ParentProc(host)).value)
  {
    StorePackageFrom(host.platform, ParentProc(host))
  }

  /** The Store package, given the parent browser: on Windows the package
      its path decodes to, if any. */
  function StorePackageFrom(platform: Platform, parent: Result<Path, ParentProcError>): Option<string> {
    if platform == Windows then
      match MsixPackage(parent)
      case Ok(package) => Some(package)
      case Err(_) => None
    else None
  }

  /** What `fork_browser_proc` starts for a profile: a Store installation is
      activated through its application id with the encoded arguments;
      otherwise the chosen binary is run, or a binary from the known
      locations when the chosen one does not exist. */
  function PlanLaunch(host: Host, config: Config, profileName: string, url: Option<string>): (r: Result<LaunchPlan, LaunchError>)
    ensures r.Ok? && r.value.Exec? ==> host.pathExists(r.value.binary) && r.value.args == BrowserArgs(profileName, url)
    ensures r.Ok? && r.value.Activate? ==> StorePackage(host).Some?
    ensures r.Err? ==> r.error == BinaryNotFound || r.error == BinaryDoesNotExist
  {
    PlanLaunchFrom(host, config, profileName, url, KnownBinary(host))
  }

  /** The launch decision, given what the search of the known locations
      yields (both searches in `fork_browser_proc` see the same file
      system, so they yield the same binary). */
  function PlanLaunchFrom(host: Host, config: Config, profileName: string, url: Option<string>, known: Option<Path>)
    : Result<LaunchPlan, LaunchError>
  {
    var parent := ParentProcFrom(host, known);
    match StorePackageFrom(host.platform, parent)
    case Some(package) =>
      Ok(Activate(package + "!App", EncodeArgs(BrowserArgs(profileName, url))))
    case None =>
      match ChosenBinaryFrom(config, parent, known)
      case None => Err(BinaryNotFound)
      case Some(parentProc) =>
        if !host.pathExists(parentProc) then
          match known
          case Some(altBinary) =>
            if !host.pathExists(altBinary) then Err(BinaryDoesNotExist)
            else Ok(Exec(altBinary, BrowserArgs(profileName, url)))
          case None => Err(BinaryDoesNotExist)
        else Ok(Exec(parentProc, BrowserArgs(profileName, url)))
  }

  // ---------------------------------------------------------------------
  // Operating-system outcomes
  // ---------------------------------------------------------------------

  /** What `fork` did and what the parent's `waitpid` saw. `waitedExit` is
      false when the child did not terminate by `exit` (a signal) or
      `waitpid` failed. */
  datatype ForkOutcome =
    | ForkFailed(message: string)
    | Forked(setsidOk: bool, waitedExit: bool)

  /** What the operating-system calls of one launch report: creating the
      activation manager, activating the application, forking, and spawning
      the browser (Pass, or Fail with the error's message). */
  datatype OsOutcomes = OsOutcomes(
    comInstance: Outcome<string>,
    activation: Outcome<string>,
    fork: ForkOutcome,
    spawn: Outcome<string>)

  /** The forked child's exit status: 2 when `setsid` failed, else 0 when the
      browser was spawned and 1 when it was not. */
  function ChildExitCode(setsidOk: bool, spawn: Outcome<string>): (code: int)
    ensures code == 0 <==> setsidOk && spawn.Pass?
    ensures code == 2 <==> !setsidOk
    ensures 0 <= code <= 2
  {
    if !setsidOk then 2
    else if spawn.Pass? then 0
    else 1
  }

  /** Runs a binary: on Unix in a forked child that starts a new session and
      spawns the browser, the parent waiting for the child; on Windows by
      spawning the browser directly. */
  function LaunchBrowserProcess(platform: Platform, fork: ForkOutcome, spawn: Outcome<string>): (r: Outcome<LaunchError>)
    ensures platform.IsUnixFamily() ==>
      (r.Pass? <==> fork.Forked? && fork.setsidOk && fork.waitedExit && spawn.Pass?)
    ensures platform.IsUnixFamily() && r.Fail? ==>
      r.error == (if fork.ForkFailed? then ForkError(fork.message) else BadExitCode)
    ensures !platform.IsUnixFamily() ==>
      r == (if spawn.Pass? then Pass else Fail(ProcessLaunchError(spawn.error)))
  {
    if platform.IsUnixFamily() then
      match fork
      case ForkFailed(message) => Fail(ForkError(message))
      case Forked(setsidOk, waitedExit) =>
        if waitedExit && ChildExitCode(setsidOk, spawn) == 0 then Pass else Fail(BadExitCode)
    else
      match spawn
      case Pass => Pass
      case Fail(message) => Fail(ProcessLaunchError(message))
  }

  /** Carries out a plan: an activation reports the activation manager's and
      the activation's failures; an executable is launched. */
  function RunPlan(platform: Platform, plan: LaunchPlan, os: OsOutcomes): (r: Outcome<LaunchError>)
    ensures plan.Activate? ==>
      (r.Pass? <==> os.comInstance.Pass? && os.activation.Pass?)
    ensures plan.Activate? && os.comInstance.Fail? ==> r == Fail(ComError(os.comInstance.error))
    ensures plan.Activate? && os.comInstance.Pass? && os.activation.Fail? ==>
      r == Fail(MsixProcessLaunchError(os.activation.error))
    ensures plan.Exec? ==> r == LaunchBrowserProcess(platform, os.fork, os.spawn)
  {
    match plan
    case Activate(_, _) =>
      if os.comInstance.Fail? then Fail(ComError(os.comInstance.error))
      else if os.activation.Fail? then Fail(MsixProcessLaunchError(os.activation.error))
      else Pass
    case Exec(_, _) => LaunchBrowserProcess(platform, os.fork, os.spawn)
  }

  /** Starts the browser on a profile. It succeeds exactly when a plan
      exists and every operating-system step the plan needs succeeds; a
      failure is the planning error, or the error of the step that failed. */
  function ForkBrowserProc(host: Host, config: Config, profileName: string, url: Option<string>, os: OsOutcomes)
    : (r: Outcome<LaunchError>)
    ensures var plan := PlanLaunch(host, config, profileName, url);
      r.Pass? <==>
        (plan.Ok? &&
         if plan.value.Activate? then os.comInstance.Pass? && os.activation.Pass?
         else if host.platform.IsUnixFamily() then os.fork.Forked? && os.fork.setsidOk && os.fork.waitedExit && os.spawn.Pass?
         else os.spawn.Pass?)
    ensures var plan := PlanLaunch(host, config, profileName, url);
      plan.Err? ==> r == Fail(plan.error) && (plan.error == BinaryNotFound || plan.error == BinaryDoesNotExist)
    ensures var plan := PlanLaunch(host, config, profileName, url);
      plan.Ok? && plan.value.Activate? && r.Fail? ==> r.error.ComError? || r.error.MsixProcessLaunchError?
    ensures var plan := PlanLaunch(host, config, profileName, url);
      plan.Ok? && plan.value.Exec? && host.platform.IsUnixFamily() && r.Fail? ==>
        r.error.ForkError? || r.error == BadExitCode
    ensures var plan := PlanLaunch(host, config, profileName, url);
      plan.Ok? && plan.value.Exec? && !host.platform.IsUnixFamily() && r.Fail? ==> r.error.ProcessLaunchError?
  {
    match PlanLaunch(host, config, profileName, url)
    case Err(e) => Fail(e)
    case Ok(plan) => RunPlan(host.platform, plan, os)
  }

  // ---------------------------------------------------------------------
  // Properties
  // ---------------------------------------------------------------------

  /** A Store installation is always activated through its package, whatever
      binary the configuration names, and the activation receives exactly the
      profile and URL arguments. */
  lemma StoreInstallIgnoresConfiguredBinary(host: Host, c1: Config, c2: Config, profileName: string, url: Option<string>)
    requires StorePackage(host).Some?
    ensures PlanLaunch(host, c1, profileName, url) == PlanLaunch(host, c2, profileName, url)
    ensures PlanLaunch(host, c1, profileName, url)
         == Ok(Activate(StorePackage(host).value + "!App", EncodeArgs(BrowserArgs(profileName, url))))
    ensures DecodeArgs(PlanLaunch(host, c1, profileName, url).value.arguments) == Some(BrowserArgs(profileName, url))
  {
    EncodeArgsRoundTrip(BrowserArgs(profileName, url));
  }

  /** `BinaryNotFound` is reported exactly when no binary is configured, the
      crash reporter's variable cannot be read and no known location holds a
      binary. */
  lemma BinaryNotFoundIff(host: Host, config: Config, profileName: string, url: Option<string>)
    ensures PlanLaunch(host, config, profileName, url) == Err(BinaryNotFound)
        <==> StorePackage(host).None? && config.browserBinary.None?
             && host.crashReporterRestartArg.Err? && KnownBinary(host).None?
  {
  }

  /** `BinaryDoesNotExist` is reported exactly when the chosen binary is
      missing and no known location holds one; in particular the check on
      the alternative binary can never fail. */
  lemma BinaryDoesNotExistIff(host: Host, config: Config, profileName: string, url: Option<string>)
    ensures PlanLaunch(host, config, profileName, url) == Err(BinaryDoesNotExist)
        <==> StorePackage(host).None? && ChosenBinary(host, config).Some?
             && !host.pathExists(ChosenBinary(host, config).value) && KnownBinary(host).None?
  {
  }

  /** Outside a Store installation the binary run is the chosen one when it
      exists and otherwise the first known one. */
  lemma ExecutedBinary(host: Host, config: Config, profileName: string, url: Option<string>)
    requires StorePackage(host).None?
    requires PlanLaunch(host, config, profileName, url).Ok?
    ensures PlanLaunch(host, config, profileName, url).value.Exec?
    ensures var b := PlanLaunch(host, config, profileName, url).value.binary;
      if host.pathExists(ChosenBinary(host, config).value) then b == ChosenBinary(host, config).value
      else KnownBinary(host) == Some(b)
  {
  }

  /** A configured binary that exists is run. */
  lemma ConfiguredBinaryWins(host: Host, config: Config, profileName: string, url: Option<string>)
    requires StorePackage(host).None?
    requires config.browserBinary.Some? && host.pathExists(config.browserBinary.value)
    ensures PlanLaunch(host, config, profileName, url) == Ok(Exec(config.browserBinary.value, BrowserArgs(profileName, url)))
  {
  }

  /** A crash-reporter restart path that exists is run when no binary is
      configured. */
  lemma ParentBrowserRuns(host: Host, config: Config, profileName: string, url: Option<string>)
    requires StorePackage(host).None? && config.browserBinary.None?
    requires host.crashReporterRestartArg.Ok? && host.pathExists(host.crashReporterRestartArg.value)
    ensures PlanLaunch(host, config, profileName, url) == Ok(Exec(host.crashReporterRestartArg.value, BrowserArgs(profileName, url)))
  {
  }

  /** Paths under `/usr`, `/snap` or `/var`. */
  predicate UnderSystemDir(c: Path) {
    |c| >= 2 && (c[1] == Normal("usr") || c[1] == Normal("snap") || c[1] == Normal("var"))
  }

  /** The candidates of one variant lie under system folders. */
  lemma VariantCandidatesUnderSystemDirs(browser: string)
    ensures forall c :: c in LinuxBinaryCandidatesFor(browser) ==> UnderSystemDir(c)
  {
    var standard := StandardBinaryPaths(browser);
    assert UnderSystemDir(standard[0]) && UnderSystemDir(standard[1]) && UnderSystemDir(standard[2]);
    var flatpak := FlatpakBinaryPaths(browser);
    assert forall c :: c in flatpak ==> UnderSystemDir(c);
  }

  /** Every Linux candidate lies under `/usr`, `/snap` or `/var`. */
  lemma {:induction false} LinuxCandidatesUnderSystemDirs(browsers: seq<string>)
    ensures forall c :: c in LinuxBinaryCandidates(browsers) ==> UnderSystemDir(c)
  {
    if |browsers| > 0 {
      VariantCandidatesUnderSystemDirs(browsers[0]);
      LinuxCandidatesUnderSystemDirs(browsers[1..]);
    }
  }

  /** The order of the Linux search: per variant, `/usr/bin`, `/usr/local/bin`,
      `/snap/bin`, then its Flatpak binary (none for Zen Browser). */
  lemma LinuxBinaryOrder()
    ensures LinuxBinaryCandidates(BrowserExecutables) ==
      [AbsPath(["usr", "bin", "firefox"]), AbsPath(["usr", "local", "bin", "firefox"]), AbsPath(["snap", "bin", "firefox"]),
       FlatpakBinary("org.mozilla.firefox", "firefox")] +
      [AbsPath(["usr", "bin", "librewolf"]), AbsPath(["usr", "local", "bin", "librewolf"]), AbsPath(["snap", "bin", "librewolf"]),
       FlatpakBinary("io.gitlab.librewolf-community", "librewolf")] +
      [AbsPath(["usr", "bin", "waterfox"]), AbsPath(["usr", "local", "bin", "waterfox"]), AbsPath(["snap", "bin", "waterfox"]),
       FlatpakBinary("net.waterfox.waterfox", "waterfox")] +
      [AbsPath(["usr", "bin", "zen-browser"]), AbsPath(["usr", "local", "bin", "zen-browser"]), AbsPath(["snap", "bin", "zen-browser"])]
  {
    var b := BrowserExecutables;
    assert b[1..][1..] == b[2..];
    assert b[2..][1..] == b[3..];
    assert b[3..][1..] == [];
  }

  /** The Firefox bundle on macOS, and a file system holding only it. */
  const MacFirefox: Path := AbsPath(["Applications", "Firefox.app", "Contents", "MacOS", "firefox"])

  function OnlyMacFirefox(): Path -> bool {
    p => p == MacFirefox
  }

  /** As the platform selection is written, a Mac whose only browser is
      `/Applications/Firefox.app` has no known binary; the intended search
      finds it. */
  lemma MacBinaryTableUnreachable(host: Host)
    requires host.platform == MacOS && host.pathExists == OnlyMacFirefox()
    ensures KnownBinaryAsWritten(host).None?
    ensures KnownBinary(host) == Some(MacFirefox)
  {
    LinuxCandidatesUnderSystemDirs(BrowserExecutables);
    var asWritten := BinaryCandidatesAsWritten(host);
    forall i | 0 <= i < |asWritten|
      ensures !host.pathExists(asWritten[i])
    {
      assert asWritten[i] in LinuxBinaryCandidates(BrowserExecutables);
      assert UnderSystemDir(asWritten[i]);
      assert MacFirefox[1] == Normal("Applications");
    }
    assert MacBinaryPaths[0] == MacFirefox;
    FirstMatchCons(MacFirefox, MacBinaryPaths[1..], host.pathExists);
    assert MacBinaryPaths == [MacFirefox] + MacBinaryPaths[1..];
  }

  /** As the platform selection is written, the same Mac, with no restart
      variable and no configured binary, cannot launch a browser at all: the
      launch reports `BinaryNotFound`. The intended search runs the bundle. */
  lemma MacLaunchAsWritten(host: Host, config: Config, profileName: string, url: Option<string>)
    requires host.platform == MacOS && host.pathExists == OnlyMacFirefox()
    requires host.crashReporterRestartArg.Err? && config.browserBinary.None?
    ensures PlanLaunchFrom(host, config, profileName, url, KnownBinaryAsWritten(host)) == Err(BinaryNotFound)
    ensures PlanLaunch(host, config, profileName, url) == Ok(Exec(MacFirefox, BrowserArgs(profileName, url)))
  {
    MacBinaryTableUnreachable(host);
  }
}
