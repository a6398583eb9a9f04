# Firefox Profile Switcher connector — verified model of its decisions

The connector is the native helper of the Firefox Profile Switcher
extension. This project models the decisions it makes once the file system,
the environment and the operating system have answered:

- **Configuration** (`configuration.dfy`, from `src/config.rs`): the
  configuration accessors and their fallbacks, loading the configuration
  file, the decoder that recognises a Microsoft Store (MSIX) installation
  from the components of the browser's path, and the search for the default
  profile folder on Linux (Flatpak, then standard folders), macOS and
  Windows.
- **Launching** (`process.dfy` and `msix_args.dfy`, from `src/process.rs`):
  - the search for a browser binary in the known locations;
  - the parent-process lookup through `MOZ_CRASHREPORTER_RESTART_ARG_0`;
  - the precedence between the configured binary, the parent process and
    the known locations, and the retry when the chosen binary is missing;
  - the `-P <profile> [--new-tab <url>]` arguments;
  - the quoting of those arguments for the Windows activation service;
  - how fork, `setsid`, the child's exit code and `waitpid` become the
    launch result.
- **Initialisation** (`initialize.dfy`, from `src/cmd/initialize.rs`):
  - which profile the extension runs in: the one the request names, else
    the first profile whose `storage/default` listing holds a name starting
    with `moz-extension+++<extension id>`;
  - the reply;
  - the state update, with the in-place rewrite of the `default` flags on
    the first run.

Shared pieces: `wrappers.dfy` holds Option, Result and Outcome. `paths.dfy`
holds paths as sequences of `std::path::Component` values, and the three
platforms. `search.dfy` holds the first-match scan that every discovery step
uses, with its lemmas.

The file system is the oracle `pathExists: Path -> bool`. Environment
variables, the home folder, the configuration file's content, a profile's
storage listing and the outcome of each operating-system call are
parameters. Where the code loops and returns early, the model is a method
with a loop, proved equal to a specification function. The profile list is
an `array` rewritten in place, and the application state is a class.

When `MOZ_CRASHREPORTER_RESTART_ARG_0` names a path that does not exist and
no known location holds a browser, the parent-process lookup returns that
path as a success, not an error (src/process.rs:302-303); the model does the
same.

On macOS the search of the known locations is modelled as intended, through
the `/Applications` bundles, and the launch decision uses that search. The
search as compiled, through the Linux locations, is modelled beside it
(`Process.KnownBinaryAsWritten`, `Process.PlanLaunchFrom`) and is recorded
under "## Findings".

## Model

| member | source | states |
|---|---|---|
| Search.FirstMatch | src/process.rs:115-121 | a scan's result is an element of the list that passes the test, and there is none exactly when no element passes |
| Search.FirstMatchAt | src/process.rs:92-98 | the scan returns the element at the first index that passes |
| Search.FirstMatchAppend | src/config.rs:103-134 | scanning two lists in turn reaches the second only when the first has no match |
| Configuration.Config.BrowserProfileDir | src/config.rs:17-20 | the configured profile folder when set, else the default folder |
| Configuration.Config.BrowserBinary | src/config.rs:21-23 | the configured binary exactly as stored, with no fallback |
| Configuration.Config.ProfilesIniPath | src/config.rs:25-29 | the profile folder with exactly one more component, `profiles.ini` |
| Configuration.Config.InstallsIniPath | src/config.rs:30-34 | the profile folder with exactly one more component, `installs.ini` |
| Configuration.Config.Default | src/config.rs:205-212 | the default configuration yields the default profile folder for every default, and no binary |
| Configuration.ReadConfiguration | src/config.rs:214-223 | a file that cannot be opened or parsed gives the default configuration; otherwise the parsed one |
| Configuration.FindChar | src/config.rs:59 | the index of the first occurrence of a character, None when absent |
| Configuration.RFindChar | src/config.rs:59 | the index of the last occurrence of a character, None when absent |
| Configuration.PackageFamily | src/config.rs:59-60 | defined exactly for names holding `_`; it is the text before the first `_`, a `_`, and the text after the last `_`, with exactly one `_` |
| Configuration.AfterRoot | src/config.rs:45-48 | the components after the first `RootDir`, nothing when there is none |
| Configuration.DecodeMsixPackage | src/config.rs:45-66 | a decoded package identity holds exactly one `_` |
| Configuration.MsixPackage | src/config.rs:39-68 | a failed parent-process lookup is an error; a successful one gives exactly the decoding of its path |
| Configuration.MsixLayoutIff | src/config.rs:52-66 | decoding succeeds exactly when the three components after the root are `Program Files`, `WindowsApps` and a name with `_`, and then gives that name's family |
| Configuration.ShortOrRootlessIsNotMsix | src/config.rs:45-66 | a path without a root, or with fewer than three components after it, is not an MSIX install |
| Configuration.SingleUnderscoreIsFixed | src/config.rs:59-60 | a name with exactly one `_` decodes to itself |
| Configuration.PackageFamilyOfParts | src/config.rs:59-60 | `<name>_<middle>_<publisher>` with no `_` in name or publisher decodes to `<name>_<publisher>` |
| Configuration.DocumentedPackageFamily | src/config.rs:44 | `Mozilla.Firefox_97.0.1.0_x64__n80bbvh6b1yt2` gives `Mozilla.Firefox_n80bbvh6b1yt2` |
| Configuration.StorePathDecodes | src/config.rs:44-60 | any path `<drive>\Program Files\WindowsApps\<package>\...` with `_` in the package decodes to the package's family |
| Configuration.DocumentedPackageExample | src/config.rs:44 | the documented Store path of Firefox decodes to `Mozilla.Firefox_n80bbvh6b1yt2` |
| Configuration.Capitalize | src/config.rs:146 | only the first character changes, to its upper case; the length is kept |
| Configuration.IsValidBrowserDir | src/config.rs:78-81 | a folder is a profile folder when it holds `profiles.ini` |
| Configuration.DefaultProfileFolder | src/config.rs:91-199 | the default folder is a candidate holding `profiles.ini` or the Firefox fallback, and the fallback when no candidate holds one |
| Configuration.DefaultBrowserProfileFolder | src/config.rs:91-199 | the platform's search computes the default profile folder |
| Configuration.LinuxProfileFolder | src/config.rs:98-138 | the Linux search (Flatpak folders, then standard ones, then `.mozilla/firefox`) computes the default folder |
| Configuration.FlatpakProfileFolder | src/config.rs:103-116 | the loop returns the first Flatpak folder holding `profiles.ini` |
| Configuration.StandardProfileFolder | src/config.rs:118-138 | the loop returns the first standard folder holding `profiles.ini`, else `.mozilla/firefox` |
| Configuration.AppDataProfileFolder | src/config.rs:139-191 | the macOS and Windows search computes the default folder |
| Configuration.ProfileBaseFolder | src/config.rs:139-177 | the pushes build `Library/Application Support`, or `AppData[/Local/Packages/<package>/LocalCache]/Roaming/Mozilla` |
| Configuration.CapitalizedProfileFolder | src/config.rs:179-191 | the loop returns the first capitalised variant folder holding `profiles.ini`, else `Firefox` |
| Configuration.DefaultFolderIsFirstValid | src/config.rs:103-134 | the default folder is the candidate at the first index holding `profiles.ini` |
| Configuration.LinuxProfileDirOrder | src/config.rs:103-138 | the twelve Linux candidates in their exact order |
| Configuration.CapitalizedProfileDirs | src/config.rs:181-182 | on macOS and Windows the folders tried are `Firefox`, `Librewolf`, `Waterfox`, `Zen-browser` |
| MsixArgs.Escape | src/process.rs:147 | an argument without `"` is unchanged |
| MsixArgs.EncodeArgs | src/process.rs:143-149 | a non-empty argument list gives a command line starting with `"` |
| MsixArgs.EncodeArgsCons | src/process.rs:147-149 | the command line is the first argument quoted, a space, and the rest's command line |
| MsixArgs.ReadQuotedEscape | src/process.rs:147 | collapsing `"""` in an escaped argument up to its closing quote gives the argument back |
| MsixArgs.DecodeQuotedEncode | src/process.rs:143-149 | decoding a non-empty encoded list gives the list back |
| MsixArgs.EncodeArgsRoundTrip | src/process.rs:143-149 | the quoting is reversible: every argument comes back unchanged and in order |
| MsixArgs.QuotedProfileNameExample | src/process.rs:147-149 | `["-P", "A\"B"]` is sent as `"-P" "A"""B"` |
| Process.KnownBinary | src/process.rs:42-126 | the result is an existing candidate; None exactly when no candidate exists; on macOS it finds one exactly when an application bundle exists |
| Process.FindBrowserBinary | src/process.rs:42-126 | the platform's search computes the first existing candidate |
| Process.FirstExistingPath | src/process.rs:115-121 | the loop returns the first path that exists |
| Process.FindLinuxBinary | src/process.rs:46-82 | the nested loops return the first existing Linux candidate |
| Process.LinuxBinaryOrder | src/process.rs:39-81 | per variant, in the order firefox, librewolf, waterfox, zen-browser: `/usr/bin`, `/usr/local/bin`, `/snap/bin`, then the Flatpak binary (none for zen-browser) |
| Process.LinuxCandidatesUnderSystemDirs | src/process.rs:46-81 | every Linux candidate lies under `/usr`, `/snap` or `/var` |
| Process.MacBinaryTableUnreachable | src/process.rs:43-99 | as written, a Mac with only `/Applications/Firefox.app` has no known binary; the intended search finds it |
| Process.MacLaunchAsWritten | src/process.rs:43-99 | as written, that Mac with no restart variable and no configured binary fails to launch with `BinaryNotFound`; the intended search runs the bundle |
| Process.KnownBinaryAsWritten | src/process.rs:41-126 | as compiled, the found binary is an existing candidate of the Unix-family list on macOS; off macOS it is the intended result |
| Process.BinaryCandidatesAsWritten | src/process.rs:42-122 | as compiled, macOS takes the Unix-family list; on Linux and Windows the list is the intended one |
| Process.BinaryCandidates | src/process.rs:42-122 | the candidates of each platform: Linux its system, Snap and Flatpak locations, macOS its four bundles, Windows its eight installation paths |
| Process.ParentProc | src/process.rs:285-305 | an existing restart path wins; then a known binary; otherwise the restart result unchanged, an error exactly when the variable is unreadable and no binary is known |
| Process.BrowserArgs | src/process.rs:248-258 | exactly `-P <name>`, plus `--new-tab <url>` when a URL is given |
| Process.BuildBrowserArgs | src/process.rs:248-258 | the pushes build the argument list |
| Process.ParentProcFrom | src/process.rs:285-305 | the parent-process chain with the search result given, so that both the intended and the compiled search can be plugged in |
| Process.ChosenBinaryFrom | src/process.rs:170-179 | the binary precedence with the parent result and the search result given |
| Process.StorePackageFrom | src/process.rs:131-132 | the Store-package lookup with the parent result given |
| Process.PlanLaunchFrom | src/process.rs:128-206 | the launch decision with the search result given; with the compiled search it is the as-compiled decision of "## Findings" |
| Process.ChosenBinary | src/process.rs:170-179 | the configured binary wins, whether or not it exists; then the parent process; none exactly when neither is available and no binary is known |
| Process.StorePackage | src/process.rs:131-132 | a Store package is looked for on Windows only; there it exists exactly when the parent browser's path decodes as an MSIX package, and it is that package |
| Process.PlanLaunch | src/process.rs:128-206 | a binary that is run exists and gets the profile arguments; only a Store package is activated; the only failures are `BinaryNotFound` and `BinaryDoesNotExist` |
| Process.StoreInstallIgnoresConfiguredBinary | src/process.rs:132-165 | a Store install is activated as `<package>!App` whatever the configuration says, and its command line decodes to the profile arguments |
| Process.BinaryNotFoundIff | src/process.rs:170-179 | `BinaryNotFound` exactly when no binary is configured, the restart variable is unreadable and no binary is known |
| Process.BinaryDoesNotExistIff | src/process.rs:181-196 | `BinaryDoesNotExist` exactly when the chosen binary is missing and no binary is known, so the check at lines 186-187 never fails |
| Process.ExecutedBinary | src/process.rs:181-205 | the binary run is the chosen one when it exists, else the first known one |
| Process.ConfiguredBinaryWins | src/process.rs:170-171 | an existing configured binary is run |
| Process.ParentBrowserRuns | src/process.rs:287-295 | with no configured binary, an existing restart path is run |
| Process.ChildExitCode | src/process.rs:219-233 | the child exits with 0 exactly when `setsid` and the spawn succeed, and with 2 exactly when `setsid` fails |
| Process.LaunchBrowserProcess | src/process.rs:209-246 | on Unix success needs fork, `setsid`, spawn and a normal exit, a failed fork is `ForkError` and anything else `BadExitCode`; on Windows a failed spawn is `ProcessLaunchError` |
| Process.RunPlan | src/process.rs:133-205 | an activation succeeds exactly when the activation manager is created and the activation succeeds; a creation failure is `ComError`, a failed activation `MsixProcessLaunchError`; running a binary has the outcome of `LaunchBrowserProcess` |
| Process.ForkBrowserProc | src/process.rs:128-246 | a launch succeeds exactly when a plan exists and every operating-system step it needs succeeds; a failure is `BinaryNotFound` or `BinaryDoesNotExist` from planning, `ComError` or `MsixProcessLaunchError` for an activation, `ForkError` or `BadExitCode` for a Unix launch, `ProcessLaunchError` for a Windows launch |
| Initialize.DetectedProfile | src/cmd/initialize.rs:30-56 | the detected profile is in the list with a readable storage holding the extension; None exactly when no profile has it |
| Initialize.ResolvedProfileId | src/cmd/initialize.rs:20-56 | the named profile wins; otherwise the id of a profile holding the extension; none exactly when neither exists |
| Initialize.InitializeResponse | src/cmd/initialize.rs:17-59 | an error with `Unable to detect current profile.` exactly when no profile is resolved; `cached` exactly when the request named it |
| Initialize.ParsedVersion | src/cmd/initialize.rs:70 | a reported version is recorded as its parse; none when none was reported |
| Initialize.FirstIndexOfId | src/cmd/initialize.rs:76 | the first index holding the id, None exactly when no entry has it |
| Initialize.SetDefaultProfile | src/cmd/initialize.rs:76-88 | only `default` flags change; the first entry with the id becomes default; other ids lose the flag; an absent id changes nothing |
| Initialize.SetFirstRunDefault | src/cmd/initialize.rs:76-89 | the in-place loops rewrite the array into the first-run list and report whether the id was found |
| Initialize.FinishInit | src/cmd/initialize.rs:61-100 | the state records profile, extension and version and ends the first run; the list is rewritten on the first run only; `profiles.ini` is written exactly when rewritten; the event carries the id and the resulting list |
| Initialize.FindExtensionProfile | src/cmd/initialize.rs:30-56 | the loop returns the first profile whose readable storage holds the extension |
| Initialize.ProcessCmdInitialize | src/cmd/initialize.rs:17-59 | the reply is the specified one; with no profile, state and list are unchanged and nothing is sent; otherwise initialisation finishes with the resolved id |
| Initialize.ExtensionStorageIsPrefixTest | src/cmd/initialize.rs:10-15 | the four prefixes agree, so the test is one prefix test on `moz-extension+++<id>` |
| Initialize.IsExtensionStorage | src/cmd/initialize.rs:43-47 | a storage entry belongs to the extension when its name starts with one of the prefixes followed by the extension's id |
| Initialize.ExtensionStorageAnySuffix | src/cmd/initialize.rs:46 | the test is a prefix test: anything may follow the extension's id |
| Initialize.DetectedProfileIsFirst | src/cmd/initialize.rs:30-55 | the detected profile is the first, in list order, holding the extension |
| Initialize.UnreadableProfileSkipped | src/cmd/initialize.rs:35-37 | a profile whose storage cannot be read does not change the detected profile |
| Initialize.SetDefaultExactlyOne | src/cmd/initialize.rs:76-84 | with distinct ids and the id present, exactly one profile is default afterwards, the one with the id |
| Initialize.SetDefaultAbsentId | src/cmd/initialize.rs:88 | an id missing from the list leaves every entry unchanged |
| Initialize.NotFirstRunKeepsProfiles | src/cmd/initialize.rs:72 | outside the first run the list is unchanged |
| Initialize.InitializedStateRecords | src/cmd/initialize.rs:68-73 | the new state names the profile and the extension, records the parse of a reported version (none when none was reported), ends the first run and keeps the configuration |

## Left out

- Process creation (`fork`, `setsid`, `waitpid`, `Command::spawn`, the Windows creation flags) is not modelled. Only their outcomes enter, as `ForkOutcome` and an `Outcome` per call.
- COM activation (`CoCreateInstance`, `ActivateApplication`) is not modelled. Only its success or failure message enters.
- Environment variables and the file system are read through parameters:
  - `PathBuf::exists` is the oracle `pathExists`;
  - `read_dir` of a profile's `storage/default` is a listing function (None when it cannot be read);
  - `env::var` values are given already split into path components.
- Building a path with `format!` and parsing it with `PathBuf::from` is modelled as appending components. The parsing of separators and prefixes is not modelled.
- The `Lazy` caches (`PARENT_PROC`, `MSIX_PACKAGE`, `DEFAULT_BROWSER_PROFILE_FOLDER`) are modelled as values computed from one fixed host. A file system that changes between the calls of `find_browser_binary` is not modelled.
- `directories::UserDirs` is not modelled: the home folder is a parameter, and the panic when it is unavailable is not modelled.
- `serde_json` and `semver::Version::parse` are parameters (None on failure). Versions keep only major, minor and patch.
- `write_profiles` is modelled as the returned `profilesWritten` flag. `write_native_event` is modelled as the returned event.
- `native_notify_updated_options` and all logging are left out.
- `ProfileEntry::full_path` (src/profiles.rs) is not part of this model: the storage listing is keyed by the profile entry.
- `from_profile_entry` (src/native_resp.rs) is not part of this model: the event carries the entries themselves.
- Conversions that can fail on non-UTF-8 text (`to_str`, `to_string_lossy`) are not modelled: names are strings. In particular the case where the MSIX package name is not valid UTF-8 is not modelled.
- Configuration.Capitalize: upper-cases ASCII letters only, where Rust's `to_uppercase` is Unicode. This makes no difference for the four fixed folder names.
- Process.FindBrowserBinary, Process.ParentProc, Process.ChosenBinary, Process.PlanLaunch and Process.ForkBrowserProc use the intended macOS search through the `/Applications` bundles, not the compiled one through the Linux locations; the compiled launch decision is `PlanLaunchFrom` with `KnownBinaryAsWritten` (see "## Findings").
- The `Linux*` variants of the parent-process error are declared but never produced, as in the code.
- The other fields of the application state (the configuration folder and the rest) are not modelled, because the initialize command does not touch them.

## Findings

| source | as written | input that shows it | evidently intended | confidence | as-written member | corrected member |
|---|---|---|---|---|---|---|
| src/process.rs:43-99 | `find_browser_binary` tests `target_family = "unix"` before `target_os = "macos"`. macOS is a Unix-family target, so a macOS build searches the Linux locations and never the `/Applications` bundles. | a Mac where only `/Applications/Firefox.app/Contents/MacOS/firefox` exists, `MOZ_CRASHREPORTER_RESTART_ARG_0` is unset and no binary is configured: the search finds no binary and the launch fails with `BinaryNotFound` | macOS searches its four application bundles | high, not executed | Process.MacLaunchAsWritten | Process.KnownBinary |
