/** The registry strategy of the plugin: three record builders that read their
    fields from the registry one by one and give up at the first failing read,
    the field maps they emit, and the gather pass that runs the enabled builders
    in order and stops at the first one that fails. */
module WinOsInfo {
  import opened GoRuntime
  import opened WinRegistry
  import opened Telegraf

  const VERSION_KEY: string := @"SOFTWARE\Microsoft\Windows NT\CurrentVersion"
  const INSTALL_KEY: string := @"SOFTWARE\Microsoft\Windows\CurrentVersion\WindowsUpdate\Auto Update\Results\Install"
  const DOWNLOAD_KEY: string := @"SOFTWARE\Microsoft\Windows\CurrentVersion\WindowsUpdate\Auto Update\Results\Download"
  const DETECT_KEY: string := @"SOFTWARE\Microsoft\Windows\CurrentVersion\WindowsUpdate\Auto Update\Results\Detect"
  const TIMEZONE_KEY: string := @"SYSTEM\CurrentControlSet\Control\TimeZoneInformation"
  const AUTO_UPDATE_KEY: string := @"SOFTWARE\Microsoft\Windows\CurrentVersion\WindowsUpdate\Auto Update"

  const VERSION_MEASUREMENT: string := "win_os_version"
  /** Both update records are emitted under this one name. */
  const UPDATE_MEASUREMENT: string := "win_os_update_settings"

  // ---------------------------------------------------------------- WinOsVersion

  datatype WinOsVersion = WinOsVersion(ProductName: string, CurrentBuildNumber: string, CurrentVersion: string)
  {
    /** The field map `AddFields` emits: one entry per struct field, under the field's name. */
    function Fields(): Fields
    {
      map["ProductName" := FStr(ProductName), "CurrentBuildNumber" := FStr(CurrentBuildNumber),
          "CurrentVersion" := FStr(CurrentVersion)]
    }

    method AddFields(acc: Accumulator, measurement: string, tags: Tags)
      modifies acc
      ensures acc.metrics == old(acc.metrics) + [Metric(measurement, Fields(), tags)]
    {
      var fields: Fields := map[];
      fields := fields["ProductName" := FStr(ProductName)];
      fields := fields["CurrentBuildNumber" := FStr(CurrentBuildNumber)];
      fields := fields["CurrentVersion" := FStr(CurrentVersion)];
      acc.AddFields(measurement, fields, tags);
    }
  }

  /** Reads a version record back from its field map, if the map has that shape. */
  function VersionFromFields(f: Fields): Option<WinOsVersion> {
    if "ProductName" in f && f["ProductName"].FStr? && "CurrentBuildNumber" in f
      && f["CurrentBuildNumber"].FStr? && "CurrentVersion" in f && f["CurrentVersion"].FStr?
    then Some(WinOsVersion(f["ProductName"].s, f["CurrentBuildNumber"].s, f["CurrentVersion"].s))
    else None
  }

  /** Each field of the emitted map holds the struct field of the same name. */
  lemma VersionFieldsRoundTrip(w: WinOsVersion)
    ensures VersionFromFields(w.Fields()) == Some(w)
  {
  }

  /** `GetWinOsVersion`: opens the CurrentVersion key, then reads ProductName,
      CurrentBuildNumber and CurrentVersion, returning at the first failure with
      the fields read so far. */
  function GetWinOsVersion(st: Store): (r: Returned<WinOsVersion>)
  {
    var win := WinOsVersion("", "", "");
    var k := OpenKey(st, LOCAL_MACHINE, VERSION_KEY, QUERY_VALUE);
    if k.Err? then Returned(win, Some(k.error))
    else
      var pn := GetStringValue(st, k.value, "ProductName");
      var win := win.(ProductName := pn.ValueOr(""));
      if pn.Err? then Returned(win, Some(pn.error))
      else
        var bn := GetStringValue(st, k.value, "CurrentBuildNumber");
        var win := win.(CurrentBuildNumber := bn.ValueOr(""));
        if bn.Err? then Returned(win, Some(bn.error))
        else
          var cv := GetStringValue(st, k.value, "CurrentVersion");
          var win := win.(CurrentVersion := cv.ValueOr(""));
          if cv.Err? then Returned(win, Some(cv.error))
          else Returned(win, None)
  }

  /** The four steps of `GetWinOsVersion`, in order, each as the error it reports. */
  function VersionSteps(st: Store): seq<Option<Error>> {
    var k := Opened(LOCAL_MACHINE, VERSION_KEY);
    [OpenKey(st, LOCAL_MACHINE, VERSION_KEY, QUERY_VALUE).ErrOf(),
     GetStringValue(st, k, "ProductName").ErrOf(),
     GetStringValue(st, k, "CurrentBuildNumber").ErrOf(),
     GetStringValue(st, k, "CurrentVersion").ErrOf()]
  }

  /** Fail-fast: the error returned is the first failing step's; a field holds
      its stored string exactly when every step up to and including its read
      succeeded, and is empty otherwise (fields read earlier keep their values). */
  lemma VersionFailFast(st: Store)
    ensures GetWinOsVersion(st).err == FirstError(VersionSteps(st))
    ensures var r := GetWinOsVersion(st).value; var s := VersionSteps(st);
      && (if FirstError(s[..2]).None? then StoredString(st, LOCAL_MACHINE, VERSION_KEY, "ProductName") == Some(r.ProductName) else r.ProductName == "")
      && (if FirstError(s[..3]).None? then StoredString(st, LOCAL_MACHINE, VERSION_KEY, "CurrentBuildNumber") == Some(r.CurrentBuildNumber) else r.CurrentBuildNumber == "")
      && (if FirstError(s).None? then StoredString(st, LOCAL_MACHINE, VERSION_KEY, "CurrentVersion") == Some(r.CurrentVersion) else r.CurrentVersion == "")
  {
    var s := VersionSteps(st);
    assert s[..2] == [s[0], s[1]] && s[..3] == [s[0], s[1], s[2]];
    assert FirstError(s) == FirstError([s[0], s[1], s[2], s[3]]);
    StringReadIsStored(st, LOCAL_MACHINE, VERSION_KEY, "ProductName");
    StringReadIsStored(st, LOCAL_MACHINE, VERSION_KEY, "CurrentBuildNumber");
    StringReadIsStored(st, LOCAL_MACHINE, VERSION_KEY, "CurrentVersion");
  }

  /** With the key readable and all three strings stored, the record holds them
      and no error is returned. */
  lemma VersionOfStore(st: Store, product: string, build: string, version: string)
    requires (LOCAL_MACHINE, VERSION_KEY, QUERY_VALUE) !in st.openFailures
    requires StoredString(st, LOCAL_MACHINE, VERSION_KEY, "ProductName") == Some(product)
    requires StoredString(st, LOCAL_MACHINE, VERSION_KEY, "CurrentBuildNumber") == Some(build)
    requires StoredString(st, LOCAL_MACHINE, VERSION_KEY, "CurrentVersion") == Some(version)
    ensures GetWinOsVersion(st) == Returned(WinOsVersion(product, build, version), None)
  {
  }

  // ---------------------------------------------------------------- WinOsUpdateStatus

  datatype WinOsUpdateStatus = WinOsUpdateStatus(
    LastSuccessDetectDate: string, LastSuccessDownloadDate: string,
    LastSuccessInstallDate: string, TimeZoneKeyName: string)
  {
    function Fields(): Fields
    {
      map["LastSuccessDetectDate" := FStr(LastSuccessDetectDate),
          "LastSuccessDownloadDate" := FStr(LastSuccessDownloadDate),
          "LastSuccessInstallDate" := FStr(LastSuccessInstallDate),
          "TimeZoneKeyName" := FStr(TimeZoneKeyName)]
    }

    method AddFields(acc: Accumulator, measurement: string, tags: Tags)
      modifies acc
      ensures acc.metrics == old(acc.metrics) + [Metric(measurement, Fields(), tags)]
    {
      var fields: Fields := map[];
      fields := fields["LastSuccessDetectDate" := FStr(LastSuccessDetectDate)];
      fields := fields["LastSuccessDownloadDate" := FStr(LastSuccessDownloadDate)];
      fields := fields["LastSuccessInstallDate" := FStr(LastSuccessInstallDate)];
      fields := fields["TimeZoneKeyName" := FStr(TimeZoneKeyName)];
      acc.AddFields(measurement, fields, tags);
    }
  }

  function StatusFromFields(f: Fields): Option<WinOsUpdateStatus> {
    if "LastSuccessDetectDate" in f && f["LastSuccessDetectDate"].FStr?
      && "LastSuccessDownloadDate" in f && f["LastSuccessDownloadDate"].FStr?
      && "LastSuccessInstallDate" in f && f["LastSuccessInstallDate"].FStr?
      && "TimeZoneKeyName" in f && f["TimeZoneKeyName"].FStr?
    then Some(WinOsUpdateStatus(f["LastSuccessDetectDate"].s, f["LastSuccessDownloadDate"].s,
                                f["LastSuccessInstallDate"].s, f["TimeZoneKeyName"].s))
    else None
  }

  lemma StatusFieldsRoundTrip(w: WinOsUpdateStatus)
    ensures StatusFromFields(w.Fields()) == Some(w)
  {
  }

  /** `GetRegKeyString`: opens `root\regkey` and reads the string `value`;
      the stored string with no error, or the empty string with the error. */
  function GetRegKeyString(st: Store, root: RootKey, regkey: string, access: nat, value: string): Returned<string>
  {
    var k := OpenKey(st, root, regkey, access);
    if k.Err? then Returned("", Some(k.error))
    else
      var ret := GetStringValue(st, k.value, value);
      if ret.Err? then Returned("", Some(ret.error))
      else Returned(ret.value, None)
  }

  /** The stored string with no error when the key opens and holds a string
      under that name; otherwise the empty string, with the open error when the
      key does not open and the read error when it does. */
  lemma RegKeyStringOfStore(st: Store, root: RootKey, regkey: string, access: nat, value: string)
    ensures var r := GetRegKeyString(st, root, regkey, access, value);
      && (r.err.None? <==> (root, regkey, access) !in st.openFailures && StoredString(st, root, regkey, value).Some?)
      && (r.err.None? ==> r.value == StoredString(st, root, regkey, value).value)
      && (r.err.Some? ==> r.value == "")
      && ((root, regkey, access) in st.openFailures ==> r.err == Some(st.openFailures[(root, regkey, access)]))
      && ((root, regkey, access) !in st.openFailures && r.err.Some? ==>
            r.err == Some(GetStringValue(st, Opened(root, regkey), value).error))
  {
  }

  function LastSuccessTime(st: Store, key: string): Returned<string> {
    GetRegKeyString(st, LOCAL_MACHINE, key, QUERY_VALUE, "LastSuccessTime")
  }

  function TimeZoneKeyName(st: Store): Returned<string> {
    GetRegKeyString(st, LOCAL_MACHINE, TIMEZONE_KEY, QUERY_VALUE, "TimeZoneKeyName")
  }

  /** `GetWinOsUpdateStatus`: the install, download and detect dates, then the
      time zone, each through `GetRegKeyString`, returning at the first failure. */
  function GetWinOsUpdateStatus(st: Store): (r: Returned<WinOsUpdateStatus>)
  {
    var win := WinOsUpdateStatus("", "", "", "");
    var install := LastSuccessTime(st, INSTALL_KEY);
    var win := win.(LastSuccessInstallDate := install.value);
    if install.err.Some? then Returned(win, install.err)
    else
      var download := LastSuccessTime(st, DOWNLOAD_KEY);
      var win := win.(LastSuccessDownloadDate := download.value);
      if download.err.Some? then Returned(win, download.err)
      else
        var detect := LastSuccessTime(st, DETECT_KEY);
        var win := win.(LastSuccessDetectDate := detect.value);
        if detect.err.Some? then Returned(win, detect.err)
        else
          var tz := TimeZoneKeyName(st);
          var win := win.(TimeZoneKeyName := tz.value);
          if tz.err.Some? then Returned(win, tz.err)
          else Returned(win, None)
  }

  /** The four reads of `GetWinOsUpdateStatus`, in the order it makes them. */
  function StatusSteps(st: Store): seq<Option<Error>> {
    [LastSuccessTime(st, INSTALL_KEY).err, LastSuccessTime(st, DOWNLOAD_KEY).err,
     LastSuccessTime(st, DETECT_KEY).err, TimeZoneKeyName(st).err]
  }

  /** Fail-fast in the order install, download, detect, time zone: the error is
      the first failing read's, each field holds its stored string when every
      read up to its own succeeded, and is empty otherwise. */
  lemma StatusFailFast(st: Store)
    ensures GetWinOsUpdateStatus(st).err == FirstError(StatusSteps(st))
    ensures var r := GetWinOsUpdateStatus(st).value; var s := StatusSteps(st);
      && (if FirstError(s[..1]).None? then StoredString(st, LOCAL_MACHINE, INSTALL_KEY, "LastSuccessTime") == Some(r.LastSuccessInstallDate) else r.LastSuccessInstallDate == "")
      && (if FirstError(s[..2]).None? then StoredString(st, LOCAL_MACHINE, DOWNLOAD_KEY, "LastSuccessTime") == Some(r.LastSuccessDownloadDate) else r.LastSuccessDownloadDate == "")
      && (if FirstError(s[..3]).None? then StoredString(st, LOCAL_MACHINE, DETECT_KEY, "LastSuccessTime") == Some(r.LastSuccessDetectDate) else r.LastSuccessDetectDate == "")
      && (if FirstError(s).None? then StoredString(st, LOCAL_MACHINE, TIMEZONE_KEY, "TimeZoneKeyName") == Some(r.TimeZoneKeyName) else r.TimeZoneKeyName == "")
  {
    var s := StatusSteps(st);
    assert s[..1] == [s[0]] && s[..2] == [s[0], s[1]] && s[..3] == [s[0], s[1], s[2]];
    assert FirstError(s) == FirstError([s[0], s[1], s[2], s[3]]);
    RegKeyStringOfStore(st, LOCAL_MACHINE, INSTALL_KEY, QUERY_VALUE, "LastSuccessTime");
    RegKeyStringOfStore(st, LOCAL_MACHINE, DOWNLOAD_KEY, QUERY_VALUE, "LastSuccessTime");
    RegKeyStringOfStore(st, LOCAL_MACHINE, DETECT_KEY, QUERY_VALUE, "LastSuccessTime");
    RegKeyStringOfStore(st, LOCAL_MACHINE, TIMEZONE_KEY, QUERY_VALUE, "TimeZoneKeyName");
  }

  // ---------------------------------------------------------------- WinOsUpdateSettings

  datatype WinOsUpdateSettings = WinOsUpdateSettings(
    AUOptions: uint64, IncludeRecommendedUpdates: uint64, ElevateNonAdmins: uint64,
    NextDetectionTime: string)
  {
    function Fields(): Fields
    {
      map["AUOptions" := FUint(AUOptions), "IncludeRecommendedUpdates" := FUint(IncludeRecommendedUpdates),
          "ElevateNonAdmins" := FUint(ElevateNonAdmins), "NextDetectionTime" := FStr(NextDetectionTime)]
    }

    method AddFields(acc: Accumulator, measurement: string, tags: Tags)
      modifies acc
      ensures acc.metrics == old(acc.metrics) + [Metric(measurement, Fields(), tags)]
    {
      var fields: Fields := map[];
      fields := fields["AUOptions" := FUint(AUOptions)];
      fields := fields["IncludeRecommendedUpdates" := FUint(IncludeRecommendedUpdates)];
      fields := fields["ElevateNonAdmins" := FUint(ElevateNonAdmins)];
      fields := fields["NextDetectionTime" := FStr(NextDetectionTime)];
      acc.AddFields(measurement, fields, tags);
    }
  }

  function SettingsFromFields(f: Fields): Option<WinOsUpdateSettings> {
    if "AUOptions" in f && f["AUOptions"].FUint?
      && "IncludeRecommendedUpdates" in f && f["IncludeRecommendedUpdates"].FUint?
      && "ElevateNonAdmins" in f && f["ElevateNonAdmins"].FUint?
      && "NextDetectionTime" in f && f["NextDetectionTime"].FStr?
    then Some(WinOsUpdateSettings(f["AUOptions"].u, f["IncludeRecommendedUpdates"].u,
                                  f["ElevateNonAdmins"].u, f["NextDetectionTime"].s))
    else None
  }

  lemma SettingsFieldsRoundTrip(w: WinOsUpdateSettings)
    ensures SettingsFromFields(w.Fields()) == Some(w)
  {
  }

  /** The handle `GetWinOsUpdateSettings` reads through: the Auto Update key, or
      the zero handle when opening it failed (the failure is only logged). */
  function AutoUpdateKey(st: Store): Key {
    var k := OpenKey(st, LOCAL_MACHINE, AUTO_UPDATE_KEY, QUERY_VALUE);
    if k.Ok? then k.value else ZeroKey
  }

  /** `GetWinOsUpdateSettings`: reads AUOptions, IncludeRecommendedUpdates and
      ElevateNonAdmins as integers and NextDetectionTime as a string, returning at
      the first failing read; a failed open is not itself reported. */
  function GetWinOsUpdateSettings(st: Store): (r: Returned<WinOsUpdateSettings>)
  {
    var win := WinOsUpdateSettings(0, 0, 0, "");
    var k := AutoUpdateKey(st);
    var au := GetIntegerValue(st, k, "AUOptions");
    var win := win.(AUOptions := au.ValueOr(0));
    if au.Err? then Returned(win, Some(au.error))
    else
      var inc := GetIntegerValue(st, k, "IncludeRecommendedUpdates");
      var win := win.(IncludeRecommendedUpdates := inc.ValueOr(0));
      if inc.Err? then Returned(win, Some(inc.error))
      else
        var elev := GetIntegerValue(st, k, "ElevateNonAdmins");
        var win := win.(ElevateNonAdmins := elev.ValueOr(0));
        if elev.Err? then Returned(win, Some(elev.error))
        else
          var next := GetStringValue(st, k, "NextDetectionTime");
          var win := win.(NextDetectionTime := next.ValueOr(""));
          if next.Err? then Returned(win, Some(next.error))
          else Returned(win, None)
  }

  /** The four reads of `GetWinOsUpdateSettings` through the Auto Update key. */
  function SettingsSteps(st: Store): seq<Option<Error>> {
    var k := Opened(LOCAL_MACHINE, AUTO_UPDATE_KEY);
    [GetIntegerValue(st, k, "AUOptions").ErrOf(),
     GetIntegerValue(st, k, "IncludeRecommendedUpdates").ErrOf(),
     GetIntegerValue(st, k, "ElevateNonAdmins").ErrOf(),
     GetStringValue(st, k, "NextDetectionTime").ErrOf()]
  }

  /** When the key opens, the error is the first failing read's, in the order
      AUOptions, IncludeRecommendedUpdates, ElevateNonAdmins, NextDetectionTime. */
  lemma SettingsFailFast(st: Store)
    requires (LOCAL_MACHINE, AUTO_UPDATE_KEY, QUERY_VALUE) !in st.openFailures
    ensures GetWinOsUpdateSettings(st).err == FirstError(SettingsSteps(st))
    ensures var r := GetWinOsUpdateSettings(st); var s := SettingsSteps(st);
      FirstError(s).None? ==>
        && r.value.AUOptions == Lookup(st, Opened(LOCAL_MACHINE, AUTO_UPDATE_KEY), "AUOptions").value.n
        && r.value.IncludeRecommendedUpdates == Lookup(st, Opened(LOCAL_MACHINE, AUTO_UPDATE_KEY), "IncludeRecommendedUpdates").value.n
        && r.value.ElevateNonAdmins == Lookup(st, Opened(LOCAL_MACHINE, AUTO_UPDATE_KEY), "ElevateNonAdmins").value.n
        && r.value.NextDetectionTime == StoredString(st, LOCAL_MACHINE, AUTO_UPDATE_KEY, "NextDetectionTime").value
  {
    var s := SettingsSteps(st);
    assert FirstError(s) == FirstError([s[0], s[1], s[2], s[3]]);
  }

  /** A key that cannot be opened is not what is reported: the first read
      through the zero handle fails instead, and the record stays all zero. */
  lemma SettingsOpenFailureNotReturned(st: Store)
    requires (LOCAL_MACHINE, AUTO_UPDATE_KEY, QUERY_VALUE) in st.openFailures
    ensures GetWinOsUpdateSettings(st) == Returned(WinOsUpdateSettings(0, 0, 0, ""), Some(Errno(ERROR_INVALID_HANDLE)))
  {
  }

  // ---------------------------------------------------------------- WinOsInfo

  /** The three categories of record, in the order `Gather` visits them. */
  datatype Category = VersionCategory | StatusCategory | SettingsCategory

  /** What the three builders return on one registry state. */
  datatype Built = Built(
    version: Returned<WinOsVersion>, status: Returned<WinOsUpdateStatus>, settings: Returned<WinOsUpdateSettings>)

  function Builders(st: Store): Built {
    Built(GetWinOsVersion(st), GetWinOsUpdateStatus(st), GetWinOsUpdateSettings(st))
  }

  /** A category's builder result, with its record turned into its field map. */
  function Build(c: Category, b: Built): Returned<Fields> {
    match c
    case VersionCategory => Returned(b.version.value.Fields(), b.version.err)
    case StatusCategory => Returned(b.status.value.Fields(), b.status.err)
    case SettingsCategory => Returned(b.settings.value.Fields(), b.settings.err)
  }

  function Measurement(c: Category): string {
    if c == VersionCategory then VERSION_MEASUREMENT else UPDATE_MEASUREMENT
  }

  /** What one gather pass adds to the accumulator, and the error it returns. */
  datatype Gathered = Gathered(emitted: seq<Metric>, err: Option<Error>)

  /** The registry gather policy over a list of categories: take each in turn
      and emit its record under an empty tag map, stopping at the first failure. */
  function EmitUntilFailure(cs: seq<Category>, b: Built): Gathered {
    if cs == [] then Gathered([], None)
    else
      var r := Build(cs[0], b);
      if r.err.Some? then Gathered([], r.err)
      else
        var rest := EmitUntilFailure(cs[1..], b);
        Gathered([Metric(Measurement(cs[0]), r.value, map[])] + rest.emitted, rest.err)
  }

  /** The number of categories at the front of `cs` whose builder succeeds. */
  function SucceedingPrefix(cs: seq<Category>, b: Built): (k: nat)
    ensures k <= |cs|
    ensures forall i :: 0 <= i < k ==> Build(cs[i], b).err.None?
    ensures k < |cs| ==> Build(cs[k], b).err.Some?
  {
    if cs == [] || Build(cs[0], b).err.Some? then 0
    else 1 + SucceedingPrefix(cs[1..], b)
  }

  /** Stops at the first failing category: the records of the categories before
      it are emitted, in order, each under its own measurement name with an
      empty tag map; nothing of the failing one or any later one is; and the
      error returned is that category's. */
  lemma {:induction false} EmitStopsAtFirstFailure(cs: seq<Category>, b: Built)
    ensures var g := EmitUntilFailure(cs, b); var k := SucceedingPrefix(cs, b);
      && |g.emitted| == k
      && (forall i :: 0 <= i < k ==> g.emitted[i] == Metric(Measurement(cs[i]), Build(cs[i], b).value, map[]))
      && g.err == (if k < |cs| then Build(cs[k], b).err else None)
  {
    if cs != [] && Build(cs[0], b).err.None? {
      EmitStopsAtFirstFailure(cs[1..], b);
      var g := EmitUntilFailure(cs, b);
      var rest := EmitUntilFailure(cs[1..], b);
      assert forall i :: 1 <= i < |g.emitted| ==> g.emitted[i] == rest.emitted[i - 1];
    }
  }

  /** The error of a pass is the first error among the categories, in order. */
  lemma {:induction false} EmitErrorIsFirstError(cs: seq<Category>, b: Built)
    ensures EmitUntilFailure(cs, b).err == FirstError(seq(|cs|, i requires 0 <= i < |cs| => Build(cs[i], b).err))
  {
    if cs != [] {
      EmitErrorIsFirstError(cs[1..], b);
      var errs := seq(|cs|, i requires 0 <= i < |cs| => Build(cs[i], b).err);
      assert errs[1..] == seq(|cs[1..]|, i requires 0 <= i < |cs[1..]| => Build(cs[1..][i], b).err);
    }
  }

  datatype WinOsInfo = WinOsInfo(OsVersion: bool, UpdateStatus: bool, UpdateSettings: bool)
  {
    /** The enabled categories, in the order version, status, settings. */
    function Enabled(): (cs: seq<Category>)
      ensures VersionCategory in cs <==> OsVersion
      ensures StatusCategory in cs <==> UpdateStatus
      ensures SettingsCategory in cs <==> UpdateSettings
    {
      (if OsVersion then [VersionCategory] else [])
      + (if UpdateStatus then [StatusCategory] else [])
      + (if UpdateSettings then [SettingsCategory] else [])
    }

    /** `Gather`: runs the enabled builders in order, adds each record to the
        accumulator, and returns the first builder error, adding nothing more. */
    method Gather(acc: Accumulator, st: Store) returns (err: Option<Error>)
      modifies acc
      ensures acc.metrics == old(acc.metrics) + GatherPass(this, Builders(st)).emitted
      ensures err == GatherPass(this, Builders(st)).err
    {
      ghost var b := Builders(st);
      var tags: Tags := map[];
      ghost var g := Gathered([], None);
      if OsVersion {
        var version := GetWinOsVersion(st);
        g := Visit(true, VersionCategory, b, g);
        if version.err.Some? {
          NothingAfterFailure(this, b, g);
          return version.err;
        }
        version.value.AddFields(acc, VERSION_MEASUREMENT, tags);
      }
      assert acc.metrics == old(acc.metrics) + g.emitted;
      if UpdateStatus {
        var status := GetWinOsUpdateStatus(st);
        g := Visit(true, StatusCategory, b, g);
        if status.err.Some? {
          NothingAfterFailure(WinOsInfo(false, UpdateStatus, UpdateSettings), b, g);
          return status.err;
        }
        status.value.AddFields(acc, UPDATE_MEASUREMENT, tags);
      }
      assert acc.metrics == old(acc.metrics) + g.emitted;
      if UpdateSettings {
        var settings := GetWinOsUpdateSettings(st);
        g := Visit(true, SettingsCategory, b, g);
        if settings.err.Some? {
          return settings.err;
        }
        settings.value.AddFields(acc, UPDATE_MEASUREMENT, tags);
      }
      return None;
    }
  }

  /** The three `if` blocks of `Gather`, one per category, in source order. */
  function GatherPass(w: WinOsInfo, b: Built): Gathered {
    Visit(w.UpdateSettings, SettingsCategory, b,
      Visit(w.UpdateStatus, StatusCategory, b,
        Visit(w.OsVersion, VersionCategory, b, Gathered([], None))))
  }

  /** One `if` block of `Gather`: a category that is disabled, or that comes
      after a failure, changes nothing; otherwise its builder either fails, and
      its error becomes the result, or its record is emitted. */
  function Visit(enabled: bool, c: Category, b: Built, g: Gathered): Gathered {
    if !enabled || g.err.Some? then g
    else
      var r := Build(c, b);
      if r.err.Some? then Gathered(g.emitted, r.err)
      else Gathered(g.emitted + [Metric(Measurement(c), r.value, map[])], None)
  }

  /** Once a block has failed, the blocks after it change nothing. */
  lemma NothingAfterFailure(w: WinOsInfo, b: Built, g: Gathered)
    requires g.err.Some?
    ensures Visit(w.UpdateSettings, SettingsCategory, b, Visit(w.UpdateStatus, StatusCategory, b, g)) == g
  {
  }

  /** One step of the gather policy: the first category either fails, and
      ends the pass with its error, or emits its record ahead of the rest. */
  lemma EmitStep(cs: seq<Category>, b: Built)
    requires cs != []
    ensures var r := Build(cs[0], b); var rest := EmitUntilFailure(cs[1..], b);
      EmitUntilFailure(cs, b) ==
        if r.err.Some? then Gathered([], r.err)
        else Gathered([Metric(Measurement(cs[0]), r.value, map[])] + rest.emitted, rest.err)
  {
  }

  /** The enabled categories after the version one, in order. */
  function LaterEnabled(w: WinOsInfo): (cs: seq<Category>)
    ensures w.Enabled() == (if w.OsVersion then [VersionCategory] else []) + cs
  {
    (if w.UpdateStatus then [StatusCategory] else []) + (if w.UpdateSettings then [SettingsCategory] else [])
  }

  /** The status and settings blocks, entered without an earlier failure,
      follow the stop-at-first-failure policy over the categories they enable. */
  lemma LaterInOrder(w: WinOsInfo, b: Built, g: Gathered)
    requires g.err.None?
    ensures var e := EmitUntilFailure(LaterEnabled(w), b);
      Visit(w.UpdateSettings, SettingsCategory, b, Visit(w.UpdateStatus, StatusCategory, b, g))
      == Gathered(g.emitted + e.emitted, e.err)
  {
    var cs := LaterEnabled(w);
    var last := if w.UpdateSettings then [SettingsCategory] else [];
    if w.UpdateStatus {
      EmitStep(cs, b);
      assert cs[1..] == last;
    }
    if w.UpdateSettings { EmitStep(last, b); }
  }

  /** The three blocks of `Gather` in order visit exactly the enabled categories
      with the stop-at-first-failure policy. */
  lemma GatherInOrder(w: WinOsInfo, b: Built)
    ensures GatherPass(w, b) == EmitUntilFailure(w.Enabled(), b)
  {
    var cs := w.Enabled();
    var g := Visit(w.OsVersion, VersionCategory, b, Gathered([], None));
    if g.err.Some? {
      NothingAfterFailure(w, b, g);
      EmitStep(cs, b);
    } else {
      LaterInOrder(w, b, g);
      if w.OsVersion {
        EmitStep(cs, b);
        assert cs[1..] == LaterEnabled(w);
      } else {
        assert cs == LaterEnabled(w);
      }
    }
  }

  /** A pass with every category enabled, on a registry where every builder
      succeeds, emits three records, in order, under "win_os_version" and twice
      under "win_os_update_settings", all with empty tags, and returns nil. */
  lemma GatherAllSucceed(b: Built)
    requires b.version.err.None? && b.status.err.None? && b.settings.err.None?
    ensures var g := EmitUntilFailure(WinOsInfo(true, true, true).Enabled(), b);
      && g.err.None?
      && g.emitted == [
        Metric("win_os_version", b.version.value.Fields(), map[]),
        Metric("win_os_update_settings", b.status.value.Fields(), map[]),
        Metric("win_os_update_settings", b.settings.value.Fields(), map[])]
  {
    var cs := [VersionCategory, StatusCategory, SettingsCategory];
    assert WinOsInfo(true, true, true).Enabled() == cs;
    EmitStopsAtFirstFailure(cs, b);
  }

  /** A failing version read stops the pass before anything is emitted. */
  lemma GatherVersionFailureEmitsNothing(w: WinOsInfo, b: Built)
    requires w.OsVersion && b.version.err.Some?
    ensures EmitUntilFailure(w.Enabled(), b) == Gathered([], b.version.err)
  {
    assert w.Enabled()[0] == VersionCategory;
  }

  /** The concrete case: a registry holding ProductName "Windows 10 Pro",
      CurrentBuildNumber "19045" and CurrentVersion "6.3" yields one version record. */
  lemma GatherVersionExample()
    ensures var st := Store(map[], map[
        (LOCAL_MACHINE, VERSION_KEY, "ProductName") := Ok(Sz("Windows 10 Pro")),
        (LOCAL_MACHINE, VERSION_KEY, "CurrentBuildNumber") := Ok(Sz("19045")),
        (LOCAL_MACHINE, VERSION_KEY, "CurrentVersion") := Ok(Sz("6.3"))]);
      EmitUntilFailure(WinOsInfo(true, false, false).Enabled(), Builders(st))
      == Gathered([Metric("win_os_version",
           map["ProductName" := FStr("Windows 10 Pro"), "CurrentBuildNumber" := FStr("19045"),
               "CurrentVersion" := FStr("6.3")], map[])], None)
  {
    var st := Store(map[], map[
        (LOCAL_MACHINE, VERSION_KEY, "ProductName") := Ok(Sz("Windows 10 Pro")),
        (LOCAL_MACHINE, VERSION_KEY, "CurrentBuildNumber") := Ok(Sz("19045")),
        (LOCAL_MACHINE, VERSION_KEY, "CurrentVersion") := Ok(Sz("6.3"))]);
    VersionOfStore(st, "Windows 10 Pro", "19045", "6.3");
    assert WinOsInfo(true, false, false).Enabled() == [VersionCategory];
  }
}
