/** The `initialize` command (src/cmd/initialize.rs): the extension announces
    itself, the connector determines which profile the extension runs in,
    records it in the application state, on the first run makes that profile
    the default one, and sends the extension the profile list. Reading a
    profile's storage folder, parsing versions, writing `profiles.ini` and
    sending events are parameters and results of the model. */
module Initialize {
  import opened Wrappers
  import opened Paths
  import opened Search
  import opened Configuration

  /** One profile of `profiles.ini`. */
  datatype ProfileEntry = ProfileEntry(id: string, name: string, path: Path, isDefault: bool)

  /** A parsed semantic version (pre-release and build parts left out). */
  datatype Version = Version(major: nat, minor: nat, patch: nat)

  /** The `initialize` request. */
  datatype InitializeMessage = InitializeMessage(
    extensionId: string,
    extensionVersion: Option<string>,
    profileId: Option<string>)

  datatype ResponseData = Initialized(cached: bool)

  /** The reply to a request. */
  datatype NativeResponse = Success(data: ResponseData) | Error(message: string)

  /** The event that tells the extension the current profile and the list. */
  datatype ProfileListEvent = ProfileList(currentProfileId: string, profiles: seq<ProfileEntry>)

  /** The storage-folder prefixes of Firefox, LibreWolf, Waterfox and Zen
      Browser, in that order. */
  const ExtensionStoragePrefixes: seq<string> :=
    ["moz-extension+++", "moz-extension+++", "moz-extension+++", "moz-extension+++"]

  const UnableToDetectProfile: string := "Unable to detect current profile."

  /** The part of the application state this command reads and writes. */
  datatype StateView = StateView(
    config: Config,
    curProfileId: Option<string>,
    internalExtensionId: Option<string>,
    extensionVersion: Option<Version>,
    firstRun: bool)

  /** The connector's state, kept across messages. */
  class AppState {
    var config: Config
    var curProfileId: Option<string>
    var internalExtensionId: Option<string>
    var extensionVersion: Option<Version>
    var firstRun: bool

    function View(): StateView
      reads this
    {
      StateView(config, curProfileId, internalExtensionId, extensionVersion, firstRun)
    }
  }

  // ---------------------------------------------------------------------
  // Detecting the profile
  // ---------------------------------------------------------------------

  /** A `storage/default` entry that belongs to the extension: its name starts
      with one of the prefixes followed by the extension's id. */
  predicate IsExtensionStorage(fileName: string, extensionId: string) {
    exists i :: 0 <= i < |ExtensionStoragePrefixes| && ExtensionStoragePrefixes[i] + extensionId <= fileName
  }

  /** A profile's storage listing (None when the folder cannot be read)
      shows the extension installed. */
  predicate ExtensionInstalled(listing: Option<seq<string>>, extensionId: string) {
    listing.Some? && exists k :: 0 <= k < |listing.value| && IsExtensionStorage(listing.value[k], extensionId)
  }

  function InstalledIn(storage: ProfileEntry -> Option<seq<string>>, extensionId: string): ProfileEntry -> bool {
    p => ExtensionInstalled(storage(p), extensionId)
  }

  /** The first profile, in list order, where the extension is installed. */
  function DetectedProfile(profiles: seq<ProfileEntry>, storage: ProfileEntry -> Option<seq<string>>, extensionId: string)
    : (r: Option<ProfileEntry>)
    ensures r.Some? ==> r.value in profiles && storage(r.value).Some? && ExtensionInstalled(storage(r.value), extensionId)
    ensures r.None? <==> forall i :: 0 <= i < |profiles| ==> !ExtensionInstalled(storage(profiles[i]), extensionId)
  {
    FirstMatch(profiles, InstalledIn(storage, extensionId))
  }

  /** The profile the request is about: the one it names, else the detected
      one. */
  function ResolvedProfileId(msg: InitializeMessage, profiles: seq<ProfileEntry>, storage: ProfileEntry -> Option<seq<string>>)
    : (r: Option<string>)
    ensures msg.profileId.Some? ==> r == msg.profileId
    ensures msg.profileId.None? && r.Some? ==>
      exists i :: 0 <= i < |profiles| && profiles[i].id == r.value && ExtensionInstalled(storage(profiles[i]), msg.extensionId)
    ensures r.None? <==> msg.profileId.None? && DetectedProfile(profiles, storage, msg.extensionId).None?
  {
    if msg.profileId.Some? then msg.profileId
    else
      match DetectedProfile(profiles, storage, msg.extensionId)
      case Some(p) => Some(p.id)
      case None => None
  }

  /** The reply: cached when the request named the profile, not cached when
      it was detected, an error when it could not be. */
  function InitializeResponse(msg: InitializeMessage, profiles: seq<ProfileEntry>, storage: ProfileEntry -> Option<seq<string>>)
    : (r: NativeResponse)
    ensures r.Error? <==> ResolvedProfileId(msg, profiles, storage).None?
    ensures r.Error? ==> r.message == UnableToDetectProfile
    ensures r.Success? ==> r.data.cached == msg.profileId.Some?
  {
    if msg.profileId.Some? then Success(Initialized(true))
    else if DetectedProfile(profiles, storage, msg.extensionId).Some? then Success(Initialized(false))
    else Error(UnableToDetectProfile)
  }

  // ---------------------------------------------------------------------
  // Finishing the initialisation
  // ---------------------------------------------------------------------

  /** The version the extension reported, when present and parsable. */
  function ParsedVersion(version: Option<string>, parse: string -> Option<Version>): (r: Option<Version>)
    ensures version.Some? ==> r == parse(version.value)
    ensures version.None? ==> r.None?
  {
    match version
    case None => None
    case Some(v) => parse(v)
  }

  /** The state after the extension has been identified. */
  function InitializedState(s: StateView, profileId: string, internalExtId: string,
                            extVersion: Option<string>, parse: string -> Option<Version>): StateView
  {
    s.(curProfileId := Some(profileId),
       internalExtensionId := Some(internalExtId),
       extensionVersion := ParsedVersion(extVersion, parse),
       firstRun := false)
  }

  /** The index of the first profile with the given id. */
  function FirstIndexOfId(entries: seq<ProfileEntry>, id: string): (r: Option<nat>)
    ensures r.Some? ==> r.value < |entries| && entries[r.value].id == id
    ensures r.Some? ==> forall j :: 0 <= j < r.value ==> entries[j].id != id
    ensures r.None? <==> forall j :: 0 <= j < |entries| ==> entries[j].id != id
  {
    if |entries| == 0 then None
    else if entries[0].id == id then Some(0)
    else
      match FirstIndexOfId(entries[1..], id)
      case None => None
      case Some(k) => Some(k + 1)
  }

  /** The list after the first-run profile is made the default one: the
      first entry with the id becomes default, every entry with another id
      stops being one, and entries repeating the id keep their flag. The
      list stays as it is when no entry has the id. */
  function SetDefaultProfile(entries: seq<ProfileEntry>, id: string): (r: seq<ProfileEntry>)
    ensures |r| == |entries|
    ensures forall i :: 0 <= i < |r| ==> r[i] == entries[i].(isDefault := r[i].isDefault)
    ensures forall i :: 0 <= i < |r| && entries[i].id != id ==> r[i].isDefault == (FirstIndexOfId(entries, id).None? && entries[i].isDefault)
    ensures FirstIndexOfId(entries, id).Some? ==> r[FirstIndexOfId(entries, id).value].isDefault
    ensures forall i :: 0 <= i < |r| && entries[i].id == id && Some(i) != FirstIndexOfId(entries, id) ==>
      r[i].isDefault == entries[i].isDefault
  {
    match FirstIndexOfId(entries, id)
    case None => entries
    case Some(k) =>
      seq(|entries|, i requires 0 <= i < |entries| =>
        if i == k then entries[i].(isDefault := true)
        else if entries[i].id != id then entries[i].(isDefault := false)
        else entries[i])
  }

  /** The list after `finish_init`: rewritten on the first run only. */
  function InitializedProfiles(firstRun: bool, entries: seq<ProfileEntry>, id: string): seq<ProfileEntry> {
    if firstRun then SetDefaultProfile(entries, id) else entries
  }

  /** Records the identified profile and extension, on the first run makes
      the profile the default one (and writes `profiles.ini`), and gives the
      profile-list event for the extension. */
  method FinishInit(state: AppState, profiles: array<ProfileEntry>, profileId: string, internalExtId: string,
                    extVersion: Option<string>, parse: string -> Option<Version>)
    returns (event: ProfileListEvent, profilesWritten: bool)
    modifies state, profiles
    ensures state.View() == InitializedState(old(state.View()), profileId, internalExtId, extVersion, parse)
    ensures profiles[..] == InitializedProfiles(old(state.firstRun), old(profiles[..]), profileId)
    ensures profilesWritten <==> old(state.firstRun) && FirstIndexOfId(old(profiles[..]), profileId).Some?
    ensures event == ProfileList(profileId, profiles[..])
  {
    state.curProfileId := Some(profileId);
    state.internalExtensionId := Some(internalExtId);
    state.extensionVersion := match extVersion { case None => None case Some(v) => parse(v) };
    profilesWritten := false;

    if state.firstRun {
      state.firstRun := false;
      profilesWritten := SetFirstRunDefault(profiles, profileId);
    }

    event := ProfileList(profileId, profiles[..]);
  }

  /** The in-place rewrite of the `default` flags. */
  method SetFirstRunDefault(profiles: array<ProfileEntry>, profileId: string) returns (found: bool)
    modifies profiles
    ensures profiles[..] == SetDefaultProfile(old(profiles[..]), profileId)
    ensures found <==> FirstIndexOfId(old(profiles[..]), profileId).Some?
  {
    ghost var entries := profiles[..];
    var k := 0;
    while k < profiles.Length && profiles[k].id != profileId
      invariant 0 <= k <= profiles.Length
      invariant forall j :: 0 <= j < k ==> profiles[j].id != profileId
    {
      k := k + 1;
    }
    if k == profiles.Length {
      return false;
    }
    ghost var target := SetDefaultProfile(entries, profileId);
    assert FirstIndexOfId(entries, profileId) == Some(k);
    profiles[k] := profiles[k].(isDefault := true);
    var i := 0;
    while i < profiles.Length
      invariant 0 <= i <= profiles.Length
      invariant forall j :: 0 <= j < i ==> profiles[j] == target[j]
      invariant forall j :: i <= j < profiles.Length ==> profiles[j] == if j == k then target[k] else entries[j]
    {
      if profiles[i].id != profileId {
        profiles[i] := profiles[i].(isDefault := false);
      }
      i := i + 1;
    }
    assert profiles[..] == target;
    found := true;
  }

  /** Handles the `initialize` request: takes the profile the request names,
      or the first profile whose storage holds the extension. */
  method ProcessCmdInitialize(state: AppState, profiles: array<ProfileEntry>, msg: InitializeMessage,
                              storage: ProfileEntry -> Option<seq<string>>, parse: string -> Option<Version>)
    returns (response: NativeResponse, event: Option<ProfileListEvent>, profilesWritten: bool)
    modifies state, profiles
    ensures response == InitializeResponse(msg, old(profiles[..]), storage)
    ensures ResolvedProfileId(msg, old(profiles[..]), storage).None? ==>
      state.View() == old(state.View()) && profiles[..] == old(profiles[..]) && event.None? && !profilesWritten
    ensures ResolvedProfileId(msg, old(profiles[..]), storage).Some? ==>
      var id := ResolvedProfileId(msg, old(profiles[..]), storage).value;
      state.View() == InitializedState(old(state.View()), id, msg.extensionId, msg.extensionVersion, parse) &&
      profiles[..] == InitializedProfiles(old(state.firstRun), old(profiles[..]), id) &&
      event == Some(ProfileList(id, profiles[..])) &&
      (profilesWritten <==> old(state.firstRun) && FirstIndexOfId(old(profiles[..]), id).Some?)
  {
    if msg.profileId.Some? {
      var ev;
      ev, profilesWritten := FinishInit(state, profiles, msg.profileId.value, msg.extensionId, msg.extensionVersion, parse);
      return Success(Initialized(true)), Some(ev), profilesWritten;
    }
    var detected := FindExtensionProfile(profiles, storage, msg.extensionId);
    if detected.Some? {
      var ev;
      ev, profilesWritten := FinishInit(state, profiles, detected.value.id, msg.extensionId, msg.extensionVersion, parse);
      return Success(Initialized(false)), Some(ev), profilesWritten;
    }
    return Error(UnableToDetectProfile), None, false;
  }

  /** Scans the profiles in order for the first whose storage holds the
      extension, skipping profiles whose storage cannot be read. */
  method FindExtensionProfile(profiles: array<ProfileEntry>, storage: ProfileEntry -> Option<seq<string>>, extensionId: string)
    returns (detected: Option<ProfileEntry>)
    ensures detected == DetectedProfile(profiles[..], storage, extensionId)
  {
    ghost var installed := InstalledIn(storage, extensionId);
    var i := 0;
    while i < profiles.Length
      invariant 0 <= i <= profiles.Length
      invariant FirstMatch(profiles[..], installed) == FirstMatch(profiles[i..], installed)
    {
      var profile := profiles[i];
      FirstMatchStep(profiles[..], installed, i);
      var listing := storage(profile);
      if listing.None? {
        i := i + 1;
        continue;
      }
      var extInstalled := ExtensionInstalled(listing, extensionId);
      if extInstalled {
        return Some(profile);
      }
      i := i + 1;
    }
    assert profiles[i..] == [];
    return None;
  }

  // ---------------------------------------------------------------------
  // Properties
  // ---------------------------------------------------------------------

  /** The four prefixes agree, so the test is one prefix test. */
  lemma ExtensionStorageIsPrefixTest(fileName: string, extensionId: string)
    ensures IsExtensionStorage(fileName, extensionId) <==> "moz-extension+++" + extensionId <= fileName
  {
    if "moz-extension+++" + extensionId <= fileName {
      assert ExtensionStoragePrefixes[0] + extensionId <= fileName;
    }
  }

  /** The test is on a prefix: the storage folder's name may carry anything
      after the extension's id. */
  lemma ExtensionStorageAnySuffix(extensionId: string, suffix: string)
    ensures IsExtensionStorage("moz-extension+++" + extensionId + suffix, extensionId)
  {
    ExtensionStorageIsPrefixTest("moz-extension+++" + extensionId + suffix, extensionId);
    var name := "moz-extension+++" + extensionId + suffix;
    assert name[..|"moz-extension+++" + extensionId|] == "moz-extension+++" + extensionId;
  }

  /** The detected profile is the first one, in list order, where the
      extension is installed. */
  lemma {:induction false} DetectedProfileIsFirst(profiles: seq<ProfileEntry>, storage: ProfileEntry -> Option<seq<string>>,
                                                 extensionId: string, k: nat)
    requires k < |profiles| && ExtensionInstalled(storage(profiles[k]), extensionId)
    requires forall j :: 0 <= j < k ==> !ExtensionInstalled(storage(profiles[j]), extensionId)
    ensures DetectedProfile(profiles, storage, extensionId) == Some(profiles[k])
  {
    FirstMatchAt(profiles, InstalledIn(storage, extensionId), k);
  }

  /** A profile whose storage cannot be read is skipped: removing it does not
      change the detected profile. */
  lemma {:induction false} UnreadableProfileSkipped(before: seq<ProfileEntry>, p: ProfileEntry, after: seq<ProfileEntry>,
                                                   storage: ProfileEntry -> Option<seq<string>>, extensionId: string)
    requires storage(p).None?
    ensures DetectedProfile(before + [p] + after, storage, extensionId) == DetectedProfile(before + after, storage, extensionId)
  {
    var installed := InstalledIn(storage, extensionId);
    assert before + [p] + after == before + ([p] + after);
    FirstMatchAppend(before, [p] + after, installed);
    FirstMatchCons(p, after, installed);
    FirstMatchAppend(before, after, installed);
  }

  /** With distinct ids and the id present, exactly one profile is default
      afterwards, the one with the id. */
  lemma SetDefaultExactlyOne(entries: seq<ProfileEntry>, id: string, k: nat)
    requires forall i, j :: 0 <= i < j < |entries| ==> entries[i].id != entries[j].id
    requires k < |entries| && entries[k].id == id
    ensures forall i :: 0 <= i < |entries| ==> (SetDefaultProfile(entries, id)[i].isDefault <==> i == k)
    ensures (set i | 0 <= i < |entries| && SetDefaultProfile(entries, id)[i].isDefault) == {k}
  {
    var r := SetDefaultProfile(entries, id);
    assert FirstIndexOfId(entries, id) == Some(k);
    forall i | 0 <= i < |entries|
      ensures r[i].isDefault <==> i == k
    {
      if i != k {
        assert entries[i].id != id;
      }
    }
  }

  /** An id missing from the list leaves every entry as it was. */
  lemma SetDefaultAbsentId(entries: seq<ProfileEntry>, id: string)
    requires forall i :: 0 <= i < |entries| ==> entries[i].id != id
    ensures SetDefaultProfile(entries, id) == entries
  {
  }

  /** Outside the first run the list is left as it is. */
  lemma NotFirstRunKeepsProfiles(entries: seq<ProfileEntry>, id: string)
    ensures InitializedProfiles(false, entries, id) == entries
  {
  }

  /** The state after identification names the profile and the extension,
      ends the first run, and keeps the configuration. */
  lemma InitializedStateRecords(s: StateView, profileId: string, internalExtId: string,
                                extVersion: Option<string>, parse: string -> Option<Version>)
    ensures var t := InitializedState(s, profileId, internalExtId, extVersion, parse);
      t.curProfileId == Some(profileId) && t.internalExtensionId == Some(internalExtId) &&
      !t.firstRun && t.config == s.config &&
      (extVersion.Some? ==> t.extensionVersion == parse(extVersion.value)) &&
      (extVersion.None? ==> t.extensionVersion.None?)
  {
  }
}
