/** The PowerShell strategy of the plugin: each record is built from the text
    that a PowerShell one-liner prints. The version text is split on '.' and
    parsed as three numbers, the update dates are taken as printed, and the
    update settings are parsed line by line as `Name : Value` pairs typed from
    a fixed table. The gather pass ignores every builder error and emits
    whatever record came back; only a run-time panic of a parser stops it. */
module WinOsInfoPs {
  import opened GoRuntime
  import opened GoStrings
  import opened GoStrconv
  import opened Telegraf

  // ---------------------------------------------------------------- PowerShell

  /** A process to start: the executable and its argument list. */
  datatype Command = Command(path: string, args: seq<string>)

  /** What a finished process leaves behind: its two output streams, and the
      error `cmd.Run` reports (nil when it ran and exited with status 0). */
  datatype ProcessResult = ProcessResult(stdout: string, stderr: string, exit: Option<Error>)

  /** The operating system, as far as the plugin can observe it: what running a
      command produces. */
  type Host = Command -> ProcessResult

  /** The flags every PowerShell invocation starts with. */
  const PS_FLAGS: seq<string> := ["-NonInteractive", "-NoProfile"]

  const VERSION_SCRIPT: string := "(gwmi win32_operatingsystem).version"
  const CAPTION_SCRIPT: string := "(gwmi win32_operatingsystem).caption"
  const UPDATE_DATE_SCRIPT: string := "(New-Object -ComObject Microsoft.Update.AutoUpdate).Results.LastInstallationSuccessDate"
  const SEARCH_DATE_SCRIPT: string := "(New-Object -ComObject Microsoft.Update.AutoUpdate).Results.LastLastSearchDate"
  const SETTINGS_SCRIPT: string := "(New-Object -ComObject Microsoft.Update.AutoUpdate).Settings"

  /** `PowerShell`: the path of the PowerShell executable. */
  datatype PowerShell = PowerShell(psPath: string)
  {
    /** The command `Execute` starts: the PowerShell executable, the two fixed
        flags, then the caller's arguments in the caller's order. */
    function CommandFor(args: seq<string>): (c: Command)
      ensures c.path == psPath
      ensures |c.args| == |args| + 2
      ensures c.args[0] == "-NonInteractive" && c.args[1] == "-NoProfile"
      ensures c.args[2..] == args
    {
      Command(psPath, PS_FLAGS + args)
    }

    /** `Execute`: runs PowerShell on `args`; standard output with a nil error
        when the process succeeds, otherwise standard error with the process's error. */
    function Execute(os: Host, args: seq<string>): (r: Returned<string>)
      ensures r.err.None? <==> os(CommandFor(args)).exit.None?
      ensures r.err.None? ==> r.value == os(CommandFor(args)).stdout
      ensures r.err.Some? ==> r.value == os(CommandFor(args)).stderr && r.err == os(CommandFor(args)).exit
    {
      var p := os(CommandFor(args));
      if p.exit.Some? then Returned(p.stderr, p.exit) else Returned(p.stdout, None)
    }
  }

  // ---------------------------------------------------------------- WinOsVersion

  datatype WinOsVersion = WinOsVersion(major: uint64, minor: uint64, build: uint64, caption: string)
  {
    /** The field map `AddFields` emits. */
    function Fields(): Fields
    {
      map["Major" := FUint(major), "Minor" := FUint(minor), "Build" := FUint(build), "Caption" := FStr(caption)]
    }

    method AddFields(acc: Accumulator, measurement: string, tags: Tags)
      modifies acc
      ensures acc.metrics == old(acc.metrics) + [Metric(measurement, Fields(), tags)]
    {
      var fields: Fields := map[];
      fields := fields["Major" := FUint(major)];
      fields := fields["Minor" := FUint(minor)];
      fields := fields["Build" := FUint(build)];
      fields := fields["Caption" := FStr(caption)];
      acc.AddFields(measurement, fields, tags);
    }
  }

  /** Reads a version record back from its field map, if the map has that shape. */
  function VersionFromFields(f: Fields): Option<WinOsVersion> {
    if "Major" in f && f["Major"].FUint? && "Minor" in f && f["Minor"].FUint?
      && "Build" in f && f["Build"].FUint? && "Caption" in f && f["Caption"].FStr?
    then Some(WinOsVersion(f["Major"].u, f["Minor"].u, f["Build"].u, f["Caption"].s))
    else None
  }

  /** Each field of the emitted map holds the struct field it is named after. */
  lemma VersionFieldsRoundTrip(w: WinOsVersion)
    ensures VersionFromFields(w.Fields()) == Some(w)
  {
  }

  /** Every piece of `s`, trimmed. */
  function TrimAll(s: seq<string>): (r: seq<string>)
    ensures |r| == |s|
    ensures forall i :: 0 <= i < |s| ==> r[i] == TrimSpace(s[i])
  {
    seq(|s|, i requires 0 <= i < |s| => TrimSpace(s[i]))
  }

  /** Whether `ParseUint` accepts a piece. */
  predicate Parses(s: string) { ParseUint(s).1.None? }

  /** What `GetWinOsVersion` computes from the trimmed pieces of the version
      text and the caption command's result: pieces 0, 1 and 2 parsed in turn,
      returning at the first parse error with the value the failed parse
      produced already stored; a panic when a piece it needs does not exist;
      then the caption, untrimmed together with the error when the caption
      command fails, trimmed otherwise. */
  function VersionFromPieces(p: seq<string>, caption: Returned<string>): Outcome<WinOsVersion>
    requires |p| >= 1
  {
    var (major, e0) := ParseUint(p[0]);
    var win := WinOsVersion(major, 0, 0, "");
    if e0.Some? then Return(win, e0)
    else if |p| < 2 then Panic("index out of range [1] with length 1")
    else
      var (minor, e1) := ParseUint(p[1]);
      var win := win.(minor := minor);
      if e1.Some? then Return(win, e1)
      else if |p| < 3 then Panic("index out of range [2] with length 2")
      else
        var (build, e2) := ParseUint(p[2]);
        var win := win.(build := build);
        if e2.Some? then Return(win, e2)
        else
          var win := win.(caption := caption.value);
          if caption.err.Some? then Return(win, caption.err)
          else Return(win.(caption := TrimSpace(win.caption)), None)
  }

  /** The version text split on '.', every piece trimmed. */
  function VersionPieces(version: string): (p: seq<string>)
    ensures |p| >= 1
  {
    TrimAll(Split(version, '.'))
  }

  /** What `GetWinOsVersion` returns for the version command's text and the
      caption command's result. */
  function VersionOf(version: string, caption: Returned<string>): Outcome<WinOsVersion> {
    VersionFromPieces(VersionPieces(version), caption)
  }

  /** The loop of `GetWinOsVersion` that trims every element of the piece list in place. */
  method TrimEach(a: array<string>)
    modifies a
    ensures a[..] == TrimAll(old(a[..]))
  {
    for i := 0 to a.Length
      invariant forall j :: 0 <= j < i ==> a[j] == TrimSpace(old(a[j]))
      invariant forall j :: i <= j < a.Length ==> a[j] == old(a[j])
    {
      a[i] := TrimSpace(a[i]);
    }
  }

  /** `GetWinOsVersion`: runs the version command (its error is dropped and its
      text used either way), trims every piece of the text in place, then parses
      and runs the caption command as `VersionOf` describes. */
  method GetWinOsVersion(os: Host, ps: PowerShell) returns (r: Outcome<WinOsVersion>)
    ensures r == VersionOf(ps.Execute(os, [VERSION_SCRIPT]).value, ps.Execute(os, [CAPTION_SCRIPT]))
  {
    var version := ps.Execute(os, [VERSION_SCRIPT]).value;
    var pieces := Split(version, '.');
    var versionList := new string[|pieces|](i requires 0 <= i < |pieces| => pieces[i]);
    assert versionList[..] == pieces;
    TrimEach(versionList);
    r := ParseVersionList(versionList, os, ps);
  }

  /** The part of `GetWinOsVersion` after the trimming loop: the three parses
      of the piece list and the caption command, returning at the first error. */
  method ParseVersionList(versionList: array<string>, os: Host, ps: PowerShell) returns (r: Outcome<WinOsVersion>)
    requires versionList.Length >= 1
    ensures r == VersionFromPieces(versionList[..], ps.Execute(os, [CAPTION_SCRIPT]))
  {
    var win := WinOsVersion(0, 0, 0, "");
    var (major, err) := ParseUint(versionList[0]);
    win := win.(major := major);
    if err.Some? {
      return Return(win, err);
    }
    if versionList.Length < 2 {
      return Panic("index out of range [1] with length 1");
    }
    var (minor, err1) := ParseUint(versionList[1]);
    win := win.(minor := minor);
    if err1.Some? {
      return Return(win, err1);
    }
    if versionList.Length < 3 {
      return Panic("index out of range [2] with length 2");
    }
    var (build, err2) := ParseUint(versionList[2]);
    win := win.(build := build);
    if err2.Some? {
      return Return(win, err2);
    }
    var caption := ps.Execute(os, [CAPTION_SCRIPT]);
    win := win.(caption := caption.value);
    if caption.err.Some? {
      return Return(win, caption.err);
    }
    win := win.(caption := TrimSpace(win.caption));
    return Return(win, None);
  }

  // ---------------------------------------------------------------- WinOsVersion: properties

  /** The parser panics exactly when the text has too few pieces for the first
      index whose piece is missing, and every piece before it parsed. */
  lemma VersionPanics(p: seq<string>, caption: Returned<string>)
    requires |p| >= 1
    ensures VersionFromPieces(p, caption).Panic? <==>
      (|p| == 1 && Parses(p[0])) || (|p| == 2 && Parses(p[0]) && Parses(p[1]))
  {
  }

  /** A version text without any '.' whose number parses has a single piece:
      the parser panics looking for the minor number. */
  lemma VersionWithoutDotPanics(version: string, caption: Returned<string>)
    requires '.' !in version && Parses(TrimSpace(version))
    ensures VersionOf(version, caption) == Panic("index out of range [1] with length 1")
  {
    SplitWithoutSep(version, '.');
  }

  /** Success: no error and no panic exactly when there are at least three
      pieces, the first three parse, and the caption command succeeds; the
      record then holds the three numbers and the trimmed caption text. */
  lemma VersionSucceeds(p: seq<string>, caption: Returned<string>)
    requires |p| >= 1
    ensures var r := VersionFromPieces(p, caption);
      && (r.Return? && r.err.None? <==>
            |p| >= 3 && Parses(p[0]) && Parses(p[1]) && Parses(p[2]) && caption.err.None?)
      && (r.Return? && r.err.None? ==>
            r.value == WinOsVersion(Value(p[0]), Value(p[1]), Value(p[2]), TrimSpace(caption.value)))
  {
  }

  /** The steps of the version parser that can fail, in order: the parse of
      each of the first three pieces that exists, then the caption command. */
  function VersionSteps(p: seq<string>, caption: Returned<string>): seq<Option<Error>> {
    (if |p| >= 1 then [ParseUint(p[0]).1] else [])
    + (if |p| >= 2 then [ParseUint(p[1]).1] else [])
    + (if |p| >= 3 then [ParseUint(p[2]).1, caption.err] else [])
  }

  /** Fail-fast: when the parser returns, its error is the first failing step's;
      whatever was parsed before the failure stays in the record, the failed
      parse leaves its own value there (0, or the largest uint64 on overflow),
      and the later fields stay zero. */
  lemma VersionFailFast(p: seq<string>, caption: Returned<string>)
    requires |p| >= 1 && VersionFromPieces(p, caption).Return?
    ensures var r := VersionFromPieces(p, caption);
      && r.err == FirstError(VersionSteps(p, caption))
      && r.value.major == ParseUint(p[0]).0
      && r.value.minor == (if Parses(p[0]) then ParseUint(p[1]).0 else 0)
      && r.value.build == (if Parses(p[0]) && Parses(p[1]) then ParseUint(p[2]).0 else 0)
      && r.value.caption == (if Parses(p[0]) && Parses(p[1]) && Parses(p[2])
                             then (if caption.err.None? then TrimSpace(caption.value) else caption.value)
                             else "")
  {
    var s := VersionSteps(p, caption);
    var e0 := ParseUint(p[0]).1;
    if Parses(p[0]) && Parses(p[1]) {
      var e1, e2 := ParseUint(p[1]).1, ParseUint(p[2]).1;
      assert s == [e0] + ([e1] + ([e2] + [caption.err]));
      FirstErrorCons(e0, [e1] + ([e2] + [caption.err]));
      FirstErrorCons(e1, [e2] + [caption.err]);
      FirstErrorCons(e2, [caption.err]);
      FirstErrorCons(caption.err, []);
    } else if Parses(p[0]) {
      var e1 := ParseUint(p[1]).1;
      assert s == [e0] + ([e1] + s[2..]);
      FirstErrorCons(e0, [e1] + s[2..]);
      FirstErrorCons(e1, s[2..]);
    } else {
      assert s == [e0] + s[1..];
      FirstErrorCons(e0, s[1..]);
    }
  }

  // ---------------------------------------------------------------- WinOsResults

  datatype WinOsResults = WinOsResults(LastUpdateDate: string, LastSearchDate: string)
  {
    function Fields(): Fields
    {
      map["LastUpdateDate" := FStr(LastUpdateDate), "LastSearchDate" := FStr(LastSearchDate)]
    }

    method AddFields(acc: Accumulator, measurement: string, tags: Tags)
      modifies acc
      ensures acc.metrics == old(acc.metrics) + [Metric(measurement, Fields(), tags)]
    {
      var fields: Fields := map[];
      fields := fields["LastUpdateDate" := FStr(LastUpdateDate)];
      fields := fields["LastSearchDate" := FStr(LastSearchDate)];
      acc.AddFields(measurement, fields, tags);
    }
  }

  function ResultsFromFields(f: Fields): Option<WinOsResults> {
    if "LastUpdateDate" in f && f["LastUpdateDate"].FStr? && "LastSearchDate" in f && f["LastSearchDate"].FStr?
    then Some(WinOsResults(f["LastUpdateDate"].s, f["LastSearchDate"].s))
    else None
  }

  lemma ResultsFieldsRoundTrip(w: WinOsResults)
    ensures ResultsFromFields(w.Fields()) == Some(w)
  {
  }

  /** `GetWinOsResults`: the last installation date, then the last search date,
      each the text a PowerShell command prints, returning at the first command
      that fails; both texts are trimmed only once both commands succeeded. */
  function GetWinOsResults(os: Host, ps: PowerShell): Returned<WinOsResults> {
    var res := WinOsResults("", "");
    var update := ps.Execute(os, [UPDATE_DATE_SCRIPT]);
    var res := res.(LastUpdateDate := update.value);
    if update.err.Some? then Returned(res, update.err)
    else
      var search := ps.Execute(os, [SEARCH_DATE_SCRIPT]);
      var res := res.(LastSearchDate := search.value);
      if search.err.Some? then Returned(res, search.err)
      else Returned(res.(LastUpdateDate := TrimSpace(res.LastUpdateDate),
                         LastSearchDate := TrimSpace(res.LastSearchDate)), None)
  }

  /** Fail-fast over the two commands: the error is the first failing
      command's; a failing first command leaves its standard error as the
      update date and the search date empty; a failing second command leaves
      the first command's output untrimmed beside its own standard error; and
      only when both succeed are the two outputs trimmed. */
  lemma ResultsFailFast(os: Host, ps: PowerShell)
    ensures var u := os(ps.CommandFor([UPDATE_DATE_SCRIPT]));
      var s := os(ps.CommandFor([SEARCH_DATE_SCRIPT]));
      var r := GetWinOsResults(os, ps);
      && r.err == FirstError([u.exit, s.exit])
      && (u.exit.Some? ==> r.value == WinOsResults(u.stderr, ""))
      && (u.exit.None? && s.exit.Some? ==> r.value == WinOsResults(u.stdout, s.stderr))
      && (r.err.None? ==> r.value == WinOsResults(TrimSpace(u.stdout), TrimSpace(s.stdout)))
      && (r.err.None? ==> Trimmed(r.value.LastUpdateDate) && Trimmed(r.value.LastSearchDate))
  {
    TrimSpaceSlice(os(ps.CommandFor([UPDATE_DATE_SCRIPT])).stdout);
    TrimSpaceSlice(os(ps.CommandFor([SEARCH_DATE_SCRIPT])).stdout);
  }

  // ---------------------------------------------------------------- WinOsSettings

  /** The settings read as Go `int`s through `strconv.Atoi`. */
  const INT_SETTINGS: seq<string> :=
    ["NotificationLevel", "ScheduledInstallationDay", "ScheduledInstallationTime", "IncludeRecommendedUpdates"]
  /** The settings read as `bool`s through `strconv.ParseBool`. */
  const BOOL_SETTINGS: seq<string> :=
    ["ReadOnly", "Required", "NonAdministratorElevated", "FeatureUpdatesEnabled"]

  /** The `switch` of `GetWinOsSettings`: the value a setting's trimmed text
      is stored as, by the setting's name; conversion errors are dropped. */
  function Coerce(name: string, text: string): FieldValue {
    if Matches(name, INT_SETTINGS) then FInt(Atoi(text).0)
    else if Matches(name, BOOL_SETTINGS) then FBool(ParseBool(text).0)
    else FStr(text)
  }

  /** The name a settings line stores under: its text before the first ':', trimmed. */
  function LineKey(line: string): string {
    TrimSpace(Split(line, ':')[0])
  }

  /** One line of the settings text: the name and typed value it stores, or
      None for a line without ':' (indexing its missing second piece panics). */
  function ParseLine(line: string): (r: Option<(string, FieldValue)>)
    ensures r.None? <==> ':' !in line
    ensures r.Some? ==> r.value.0 == LineKey(line)
  {
    var pair := Split(line, ':');
    SplitHasSecondPiece(line, ':');
    if |pair| < 2 then None
    else
      var name := TrimSpace(pair[0]);
      Some((name, Coerce(name, TrimSpace(pair[1]))))
  }

  /** `f` applied to every element of `xs`, in order. */
  function MapSeq<T, U>(f: T -> U, xs: seq<T>): (ys: seq<U>)
    ensures |ys| == |xs|
  {
    if xs == [] then [] else MapSeq(f, xs[..|xs| - 1]) + [f(xs[|xs| - 1])]
  }

  lemma MapSeqSnoc<T, U>(f: T -> U, xs: seq<T>)
    requires |xs| > 0
    ensures MapSeq(f, xs) == MapSeq(f, xs[..|xs| - 1]) + [f(xs[|xs| - 1])]
  {
  }

  /** Element `i` of the mapped sequence is `f` of element `i`. */
  lemma {:induction false} MapSeqIndex<T, U>(f: T -> U, xs: seq<T>)
    ensures forall i :: 0 <= i < |xs| ==> MapSeq(f, xs)[i] == f(xs[i])
  {
    if xs != [] {
      var front := xs[..|xs| - 1];
      MapSeqIndex(f, front);
      forall i | 0 <= i < |xs| ensures MapSeq(f, xs)[i] == f(xs[i]) {
        if i < |xs| - 1 { assert xs[i] == front[i]; }
      }
    }
  }

  /** What one line contributes: its name and typed value, or None for a line that panics. */
  type Entry = Option<(string, FieldValue)>

  predicate SomePanics(es: seq<Entry>) {
    exists i :: 0 <= i < |es| && es[i].None?
  }

  lemma SomePanicsSnoc(es: seq<Entry>, e: Entry)
    ensures SomePanics(es + [e]) <==> SomePanics(es) || e.None?
  {
    if SomePanics(es) {
      var i :| 0 <= i < |es| && es[i].None?;
      assert (es + [e])[i] == es[i];
    }
    if e.None? {
      assert (es + [e])[|es|] == e;
    }
  }

  /** The map the entries build in order, a later entry overwriting an earlier
      one of the same name; None once some entry panics. */
  function StoreEntries(es: seq<Entry>): Option<Fields> {
    if |es| == 0 then Some(map[])
    else
      var m := StoreEntries(es[..|es| - 1]);
      var e := es[|es| - 1];
      if m.None? || e.None? then None
      else Some(m.value[e.value.0 := e.value.1])
  }

  lemma StoreEntriesSnoc(es: seq<Entry>, e: Entry)
    ensures StoreEntries(es + [e]) ==
      if StoreEntries(es).None? || e.None? then None
      else Some(StoreEntries(es).value[e.value.0 := e.value.1])
  {
    assert (es + [e])[..|es|] == es;
  }

  /** The fold fails exactly when some entry panics. */
  lemma {:induction false} StoreEntriesPanics(es: seq<Entry>)
    ensures StoreEntries(es).None? <==> SomePanics(es)
  {
    if |es| > 0 {
      var front, e := es[..|es| - 1], es[|es| - 1];
      assert es == front + [e];
      StoreEntriesPanics(front);
      StoreEntriesSnoc(front, e);
      SomePanicsSnoc(front, e);
    }
  }

  /** The settings map built from the lines in order, a later line overwriting
      an earlier one of the same name; None when some line has no ':'. */
  function ParseLines(lines: seq<string>): Option<Fields> {
    StoreEntries(MapSeq(ParseLine, lines))
  }

  /** Parsing the lines panics exactly when some line has no ':'. */
  lemma ParseLinesPanics(lines: seq<string>)
    ensures ParseLines(lines).None? <==> exists i :: 0 <= i < |lines| && ':' !in lines[i]
  {
    var es := MapSeq(ParseLine, lines);
    StoreEntriesPanics(es);
    MapSeqIndex(ParseLine, lines);
    if SomePanics(es) {
      var i :| 0 <= i < |es| && es[i].None?;
      assert ':' !in lines[i];
    }
    if exists i :: 0 <= i < |lines| && ':' !in lines[i] {
      var i :| 0 <= i < |lines| && ':' !in lines[i];
      assert es[i].None?;
    }
  }

  /** A line that panics makes every longer listing panic. */
  lemma ParseLinesPanicPersists(lines: seq<string>, k: nat)
    requires k <= |lines| && ParseLines(lines[..k]).None?
    ensures ParseLines(lines).None?
  {
    ParseLinesPanics(lines[..k]);
    var i :| 0 <= i < k && ':' !in lines[..k][i];
    assert lines[i] == lines[..k][i];
    ParseLinesPanics(lines);
  }

  /** What `GetWinOsSettings` makes of the settings command's text: trimmed,
      split into lines on "\n", each line parsed. */
  function SettingsOf(text: string): Option<Fields> {
    ParseLines(Split(TrimSpace(text), '\n'))
  }

  datatype WinOsSettings = WinOsSettings(settings: Fields)
  {
    /** `AddFields` passes the settings map on as the field map. */
    method AddFields(acc: Accumulator, measurement: string, tags: Tags)
      modifies acc
      ensures acc.metrics == old(acc.metrics) + [Metric(measurement, settings, tags)]
    {
      acc.AddFields(measurement, settings, tags);
    }
  }

  /** The outcome of `GetWinOsSettings` on the settings command's text: the
      parsed map with a nil error, or the panic of a line without ':'. */
  function SettingsOutcome(text: string): Outcome<WinOsSettings> {
    match SettingsOf(text)
    case None => Panic("index out of range [1] with length 1")
    case Some(m) => Return(WinOsSettings(m), None)
  }

  /** The body of the line loop of `GetWinOsSettings`: splits the line on
      ':', trims the name and the value in place, and types the value by the
      name (the `switch`, which is `Coerce`); None where indexing the missing
      value would panic. */
  method ParseSettingLine(line: string) returns (r: Option<(string, FieldValue)>)
    ensures r == ParseLine(line)
  {
    var pieces := Split(line, ':');
    var pair := new string[|pieces|](j requires 0 <= j < |pieces| => pieces[j]);
    pair[0] := TrimSpace(pair[0]);
    if pair.Length < 2 {
      return None;
    }
    pair[1] := TrimSpace(pair[1]);
    var name := pair[0];
    return Some((name, Coerce(name, pair[1])));
  }

  /** `GetWinOsSettings`: runs the settings command (its error is dropped and
      its text used either way), trims the text, splits it into lines, and
      stores each line's typed value under its name, in order. */
  method GetWinOsSettings(os: Host, ps: PowerShell) returns (r: Outcome<WinOsSettings>)
    ensures r == SettingsOutcome(ps.Execute(os, [SETTINGS_SCRIPT]).value)
  {
    var setText := ps.Execute(os, [SETTINGS_SCRIPT]).value;
    setText := TrimSpace(setText);
    var setLines := Split(setText, '\n');
    var settings := StoreSettingLines(setLines);
    if settings.None? {
      return Panic("index out of range [1] with length 1");
    }
    return Return(WinOsSettings(settings.value), None);
  }

  /** The line loop of `GetWinOsSettings`: each line's typed value stored
      under its name, in order; None where a line without ':' panics. */
  method StoreSettingLines(setLines: seq<string>) returns (r: Option<Fields>)
    ensures r == ParseLines(setLines)
  {
    var settings: Fields := map[];
    for i := 0 to |setLines|
      invariant ParseLines(setLines[..i]) == Some(settings)
    {
      var pair := ParseSettingLine(setLines[i]);
      assert setLines[..i + 1][..i] == setLines[..i];
      MapSeqSnoc(ParseLine, setLines[..i + 1]);
      StoreEntriesSnoc(MapSeq(ParseLine, setLines[..i]), pair);
      if pair.None? {
        ParseLinesPanicPersists(setLines, i + 1);
        return None;
      }
      settings := settings[pair.value.0 := pair.value.1];
    }
    assert setLines[..|setLines|] == setLines;
    return Some(settings);
  }

  // ---------------------------------------------------------------- WinOsSettings: properties

  /** An empty or all-white-space settings text trims to the single empty
      line, which has no ':': the parser panics. */
  lemma EmptySettingsPanic(text: string)
    requires AllSpace(text)
    ensures SettingsOf(text).None?
  {
    var t := TrimSpace(text);
    TrimLeftSuffix(text);
    assert t == [];
    assert Split(t, '\n') == [""];
    ParseLinesPanics([""]);
    assert ':' !in [""][0];
  }

  /** The typing table: the four int settings hold `Atoi`'s value (the
      64-bit clamp of a signed decimal; 0 when `Atoi` reports a syntax error;
      the clamp in the direction of the sign when the digits overflow before
      any other character); the four bool settings are true exactly on
      `ParseBool`'s true literals, and false on anything else; every other
      setting keeps its text. */
  lemma CoerceTable(name: string, text: string)
    ensures name in INT_SETTINGS ==> Coerce(name, text).FInt?
    ensures name in INT_SETTINGS && IsInteger(text) ==> Coerce(name, text).i == Clamp(SignedValue(text))
    ensures name in INT_SETTINGS && (|Unsigned(text)| == 0 || !IsDigit(Unsigned(text)[0])) ==>
      Coerce(name, text) == FInt(0)
    ensures name in INT_SETTINGS && (Unsigned(text) == "" || ScanDecimal(Unsigned(text)) == SyntaxStop) ==>
      Coerce(name, text) == FInt(0)
    ensures name in INT_SETTINGS && Unsigned(text) != "" && ScanDecimal(Unsigned(text)) == RangeStop ==>
      Coerce(name, text) == FInt(if IsNegative(text) then MIN_INT64 else MAX_INT64)
    ensures name in BOOL_SETTINGS ==> Coerce(name, text).FBool?
    ensures name in BOOL_SETTINGS ==> (Coerce(name, text).b <==> text in TRUE_LITERALS)
    ensures name !in INT_SETTINGS && name !in BOOL_SETTINGS ==> Coerce(name, text) == FStr(text)
  {
    MatchesIsIn(name, INT_SETTINGS);
    MatchesIsIn(name, BOOL_SETTINGS);
    if IsInteger(text) { AtoiOfInteger(text); }
    if |Unsigned(text)| == 0 || !IsDigit(Unsigned(text)[0]) { AtoiOfNonNumeric(text); }
    AtoiFailures(text);
    ParseBoolLiterals(text);
  }

  /** Names outside the typing table keep their text: "AUOptions", and
      "NonAdministratorsElevated", which differs from the table's
      "NonAdministratorElevated" by one letter. */
  lemma UnlistedNamesStayText(text: string)
    ensures Coerce("AUOptions", text) == FStr(text)
    ensures Coerce("NonAdministratorsElevated", text) == FStr(text)
  {
    MatchesIsIn("AUOptions", INT_SETTINGS);
    MatchesIsIn("AUOptions", BOOL_SETTINGS);
    MatchesIsIn("NonAdministratorsElevated", INT_SETTINGS);
    MatchesIsIn("NonAdministratorsElevated", BOOL_SETTINGS);
  }

  /** The typed values read back what Go prints: an int setting holding
      `Itoa(n)` is `n`, a bool setting holding `FormatBool(b)` is `b`. */
  lemma CoerceOfFormatted(name: string, n: int64, b: bool)
    ensures name in INT_SETTINGS ==> Coerce(name, Itoa(n)) == FInt(n)
    ensures name in BOOL_SETTINGS ==> Coerce(name, FormatBool(b)) == FBool(b)
  {
    MatchesIsIn(name, INT_SETTINGS);
    MatchesIsIn(name, BOOL_SETTINGS);
    AtoiItoa(n);
    ParseBoolFormatBool(b);
  }

  /** A `name:value` line with a single ':' stores the value's trimmed text,
      typed by the trimmed name, under the trimmed name. */
  lemma ParseLineOfPair(name: string, value: string)
    requires ':' !in name && ':' !in value
    ensures ParseLine(name + ":" + value) == Some((TrimSpace(name), Coerce(TrimSpace(name), TrimSpace(value))))
  {
    SplitAtSep(name, value, ':');
    SplitWithoutSep(name, ':');
    SplitWithoutSep(value, ':');
  }

  /** A value is cut off at the second ':': only the text between the first
      and the second colon is stored. */
  lemma ValueCutAtSecondColon(name: string, value: string, rest: string)
    requires ':' !in name && ':' !in value
    ensures ParseLine(name + ":" + value + ":" + rest)
      == Some((TrimSpace(name), Coerce(TrimSpace(name), TrimSpace(value))))
  {
    SplitTwoSeparators(name, value, rest, ':');
  }

  /** The names an entry list stores. */
  lemma {:induction false} StoreKeys(es: seq<Entry>)
    requires StoreEntries(es).Some?
    ensures forall i :: 0 <= i < |es| ==> es[i].Some?
    ensures StoreEntries(es).value.Keys == set i | 0 <= i < |es| && es[i].Some? :: es[i].value.0
  {
    if |es| > 0 {
      var front, e := es[..|es| - 1], es[|es| - 1];
      assert es == front + [e];
      StoreEntriesSnoc(front, e);
      StoreKeys(front);
      var ks := set i | 0 <= i < |es| && es[i].Some? :: es[i].value.0;
      var fs := set i | 0 <= i < |front| && front[i].Some? :: front[i].value.0;
      forall k | k in ks ensures k in fs + {e.value.0} {
        var i :| 0 <= i < |es| && es[i].Some? && k == es[i].value.0;
        if i < |front| { assert front[i] == es[i]; }
      }
      forall k | k in fs ensures k in ks {
        var i :| 0 <= i < |front| && front[i].Some? && k == front[i].value.0;
        assert es[i] == front[i];
      }
      assert es[|es| - 1] == e;
    }
  }

  /** The value an entry list stores under a name is that of its last entry with the name. */
  lemma {:induction false} StoreLastWins(es: seq<Entry>, j: nat)
    requires StoreEntries(es).Some? && j < |es| && es[j].Some?
    requires forall k :: j < k < |es| && es[k].Some? ==> es[k].value.0 != es[j].value.0
    ensures es[j].value.0 in StoreEntries(es).value
    ensures StoreEntries(es).value[es[j].value.0] == es[j].value.1
  {
    var front, e := es[..|es| - 1], es[|es| - 1];
    assert es == front + [e];
    StoreEntriesSnoc(front, e);
    if j < |es| - 1 {
      assert front[j] == es[j];
      assert forall k :: j < k < |front| ==> front[k] == es[k];
      StoreLastWins(front, j);
    }
  }

  /** The map holds exactly the names of the lines. */
  lemma SettingsKeys(lines: seq<string>)
    requires forall i :: 0 <= i < |lines| ==> ':' in lines[i]
    ensures ParseLines(lines).Some?
    ensures ParseLines(lines).value.Keys == set i | 0 <= i < |lines| :: LineKey(lines[i])
  {
    ParseLinesPanics(lines);
    var es := MapSeq(ParseLine, lines);
    MapSeqIndex(ParseLine, lines);
    StoreKeys(es);
    var stored := set i | 0 <= i < |es| && es[i].Some? :: es[i].value.0;
    var named := set i | 0 <= i < |lines| :: LineKey(lines[i]);
    forall k | k in stored ensures k in named {
      var i :| 0 <= i < |es| && es[i].Some? && k == es[i].value.0;
      assert LineKey(lines[i]) == k;
    }
    forall k | k in named ensures k in stored {
      var i :| 0 <= i < |lines| && k == LineKey(lines[i]);
      assert es[i].Some? && es[i].value.0 == k;
    }
  }

  /** A repeated name keeps the value of its last line. */
  lemma LastLineWins(lines: seq<string>, j: nat)
    requires forall i :: 0 <= i < |lines| ==> ':' in lines[i]
    requires j < |lines|
    requires forall k :: j < k < |lines| ==> LineKey(lines[k]) != LineKey(lines[j])
    ensures ParseLines(lines).Some?
    ensures LineKey(lines[j]) in ParseLines(lines).value
    ensures ParseLines(lines).value[LineKey(lines[j])] == ParseLine(lines[j]).value.1
  {
    ParseLinesPanics(lines);
    var es := MapSeq(ParseLine, lines);
    MapSeqIndex(ParseLine, lines);
    assert es[j] == ParseLine(lines[j]);
    forall k | j < k < |es| && es[k].Some? ensures es[k].value.0 != es[j].value.0 {
      assert es[k] == ParseLine(lines[k]);
    }
    StoreLastWins(es, j);
  }

  // ---------------------------------------------------------------- WinOsSettings: round trip

  /** One setting as PowerShell lists it: a name and the text of its value. */
  datatype Setting = Setting(name: string, text: string)

  /** A setting the line format can carry: a non-empty name, neither part
      padded with white space, and neither holding ':' or a line break. */
  predicate WellFormed(e: Setting) {
    |e.name| > 0 && Trimmed(e.name) && Trimmed(e.text)
    && ':' !in e.name && ':' !in e.text && '\n' !in e.name && '\n' !in e.text
  }

  function SettingLine(e: Setting): string {
    e.name + ":" + e.text
  }

  function SettingLines(es: seq<Setting>): (lines: seq<string>)
    ensures |lines| == |es|
  {
    seq(|es|, i requires 0 <= i < |es| => SettingLine(es[i]))
  }

  /** A settings listing: one `name:text` line per setting. */
  function Render(es: seq<Setting>): string
    requires |es| >= 1
  {
    Join(SettingLines(es), '\n')
  }

  /** The map a listing should produce: every setting's text typed by its
      name, a later setting overwriting an earlier one of the same name. */
  function Expected(es: seq<Setting>): Fields {
    if |es| == 0 then map[]
    else
      var e := es[|es| - 1];
      Expected(es[..|es| - 1])[e.name := Coerce(e.name, e.text)]
  }

  lemma ParseLineOfSetting(e: Setting)
    requires WellFormed(e)
    ensures ParseLine(SettingLine(e)) == Some((e.name, Coerce(e.name, e.text)))
  {
    assert SettingLine(e) == e.name + [':'] + e.text;
    SplitAtSep(e.name, e.text, ':');
    SplitWithoutSep(e.name, ':');
    SplitWithoutSep(e.text, ':');
    TrimSpaceOfTrimmed(e.name);
    TrimSpaceOfTrimmed(e.text);
  }

  lemma {:induction false} ParseRenderedLines(es: seq<Setting>)
    requires forall i :: 0 <= i < |es| ==> WellFormed(es[i])
    ensures ParseLines(SettingLines(es)) == Some(Expected(es))
  {
    if |es| > 0 {
      var front, e := es[..|es| - 1], es[|es| - 1];
      ParseRenderedLines(front);
      var lines := SettingLines(es);
      assert lines[..|es| - 1] == SettingLines(front);
      assert lines[|es| - 1] == SettingLine(e);
      MapSeqSnoc(ParseLine, lines);
      ParseLineOfSetting(e);
      StoreEntriesSnoc(MapSeq(ParseLine, SettingLines(front)), ParseLine(SettingLine(e)));
      assert Expected(es) == Expected(front)[e.name := Coerce(e.name, e.text)];
    }
  }

  lemma RenderIsTrimmed(es: seq<Setting>)
    requires |es| >= 1
    requires forall i :: 0 <= i < |es| ==> WellFormed(es[i])
    ensures Trimmed(Render(es))
  {
    var lines := SettingLines(es);
    var first, last := es[0], es[|es| - 1];
    JoinStartsWithFirst(lines, '\n');
    JoinEndsWithLast(lines, '\n');
    assert lines[0][0] == first.name[0];
    var l := lines[|lines| - 1];
    assert l[|l| - 1] == if last.text == [] then ':' else last.text[|last.text| - 1];
  }

  lemma RenderSplitsIntoLines(es: seq<Setting>)
    requires |es| >= 1
    requires forall i :: 0 <= i < |es| ==> WellFormed(es[i])
    ensures Split(Render(es), '\n') == SettingLines(es)
  {
    var lines := SettingLines(es);
    forall i | 0 <= i < |lines| ensures '\n' !in lines[i] {
      assert lines[i] == es[i].name + [':'] + es[i].text;
    }
    SplitJoin(lines, '\n');
  }

  /** Parsing a listing of well-formed settings gives back each setting's text
      typed by its name, the last of a repeated name winning. */
  lemma RenderRoundTrip(es: seq<Setting>)
    requires |es| >= 1
    requires forall i :: 0 <= i < |es| ==> WellFormed(es[i])
    ensures SettingsOf(Render(es)) == Some(Expected(es))
  {
    RenderIsTrimmed(es);
    TrimSpaceOfTrimmed(Render(es));
    RenderSplitsIntoLines(es);
    ParseRenderedLines(es);
  }

  // ---------------------------------------------------------------- WinOsInfo

  const VERSION_MEASUREMENT: string := "win_os_version"
  const RESULTS_MEASUREMENT: string := "win_os_results"
  const SETTINGS_MEASUREMENT: string := "win_os_settings"

  /** The three categories of record, in the order `Gather` visits them. */
  datatype Category = VersionCategory | ResultsCategory | SettingsCategory

  /** What the three builders come back with on one host. */
  datatype Collected = Collected(
    version: Outcome<WinOsVersion>, results: Returned<WinOsResults>, settings: Outcome<WinOsSettings>)

  function Collect(os: Host, ps: PowerShell): Collected {
    Collected(
      VersionOf(ps.Execute(os, [VERSION_SCRIPT]).value, ps.Execute(os, [CAPTION_SCRIPT])),
      GetWinOsResults(os, ps),
      SettingsOutcome(ps.Execute(os, [SETTINGS_SCRIPT]).value))
  }

  /** The version record as the field map it emits, whatever error the
      parser returned; None when the parser panicked. */
  function VersionRecord(o: Outcome<WinOsVersion>): Option<Fields> {
    if o.Panic? then None else Some(o.value.Fields())
  }

  function ResultsRecord(o: Returned<WinOsResults>): Option<Fields> {
    Some(o.value.Fields())
  }

  function SettingsRecord(o: Outcome<WinOsSettings>): Option<Fields> {
    if o.Panic? then None else Some(o.value.settings)
  }

  /** A category's record as the field map it emits, whatever error its builder
      returned; None when the builder panicked. */
  function Build(c: Category, col: Collected): Option<Fields> {
    match c
    case VersionCategory => VersionRecord(col.version)
    case ResultsCategory => ResultsRecord(col.results)
    case SettingsCategory => SettingsRecord(col.settings)
  }

  function Measurement(c: Category): string {
    match c
    case VersionCategory => VERSION_MEASUREMENT
    case ResultsCategory => RESULTS_MEASUREMENT
    case SettingsCategory => SETTINGS_MEASUREMENT
  }

  /** What one gather pass adds to the accumulator, and whether it ended in a panic. */
  datatype Gathered = Gathered(emitted: seq<Metric>, panicked: bool)

  /** The PowerShell gather policy over a list of categories: take each in
      turn and emit its record under an empty tag map, errors or not; a panic
      ends the pass. */
  function EmitIgnoringErrors(cs: seq<Category>, col: Collected): Gathered {
    if cs == [] then Gathered([], false)
    else
      match Build(cs[0], col)
      case None => Gathered([], true)
      case Some(f) =>
        var rest := EmitIgnoringErrors(cs[1..], col);
        Gathered([Metric(Measurement(cs[0]), f, map[])] + rest.emitted, rest.panicked)
  }

  /** The number of categories at the front of `cs` whose builder does not panic. */
  function ReturningPrefix(cs: seq<Category>, col: Collected): (k: nat)
    ensures k <= |cs|
    ensures forall i :: 0 <= i < k ==> Build(cs[i], col).Some?
    ensures k < |cs| ==> Build(cs[k], col).None?
  {
    if cs == [] || Build(cs[0], col).None? then 0
    else 1 + ReturningPrefix(cs[1..], col)
  }

  /** Stops only at the first panicking category: the records of the
      categories before it are emitted in order, each under its own
      measurement name with an empty tag map, whether or not their builders
      reported an error; nothing of the panicking one or any later one is. */
  lemma {:induction false} EmitStopsAtFirstPanic(cs: seq<Category>, col: Collected)
    ensures var g := EmitIgnoringErrors(cs, col); var k := ReturningPrefix(cs, col);
      && |g.emitted| == k
      && (forall i :: 0 <= i < k ==> g.emitted[i] == Metric(Measurement(cs[i]), Build(cs[i], col).value, map[]))
      && (g.panicked <==> k < |cs|)
  {
    if cs != [] && Build(cs[0], col).Some? {
      EmitStopsAtFirstPanic(cs[1..], col);
      var g := EmitIgnoringErrors(cs, col);
      var rest := EmitIgnoringErrors(cs[1..], col);
      assert forall i :: 1 <= i < |g.emitted| ==> g.emitted[i] == rest.emitted[i - 1];
    }
  }

  datatype WinOsInfo = WinOsInfo(OsVersion: bool, Results: bool, Settings: bool)
  {
    /** The enabled categories, in the order version, results, settings. */
    function Enabled(): (cs: seq<Category>)
      ensures VersionCategory in cs <==> OsVersion
      ensures ResultsCategory in cs <==> Results
      ensures SettingsCategory in cs <==> Settings
    {
      (if OsVersion then [VersionCategory] else [])
      + (if Results then [ResultsCategory] else [])
      + (if Settings then [SettingsCategory] else [])
    }

    /** `Gather`: runs the enabled builders in order, drops their errors, adds
        each record to the accumulator, and returns nil; a panicking builder
        stops the pass with the records added so far left in the accumulator. */
    method Gather(acc: Accumulator, os: Host, ps: PowerShell) returns (r: Outcome<()>)
      modifies acc
      ensures acc.metrics == old(acc.metrics) + GatherPass(this, Collect(os, ps)).emitted
      ensures r.Panic? <==> GatherPass(this, Collect(os, ps)).panicked
      ensures r.Return? ==> r.err.None?
    {
      ghost var col := Collect(os, ps);
      GatherShift(this, col, acc.metrics);
      var panic := VersionBlock(acc, os, ps, col);
      if panic.Some? {
        NothingAfterPanic(this, col, Gathered(acc.metrics, true));
        return Panic(panic.value);
      }
      ResultsBlock(acc, os, ps, col);
      panic := SettingsBlock(acc, os, ps, col);
      if panic.Some? {
        return Panic(panic.value);
      }
      return Return((), None);
    }

    /** The `if w.OsVersion` block of `Gather`, on an accumulator the earlier
        blocks left without a panic. */
    method VersionBlock(acc: Accumulator, os: Host, ps: PowerShell, ghost col: Collected) returns (panic: Option<string>)
      requires col.version == VersionOf(ps.Execute(os, [VERSION_SCRIPT]).value, ps.Execute(os, [CAPTION_SCRIPT]))
      modifies acc
      ensures Gathered(acc.metrics, panic.Some?) == Visit(OsVersion, VersionCategory, col, Gathered(old(acc.metrics), false))
    {
      panic := None;
      if OsVersion {
        var version := GetWinOsVersion(os, ps);
        panic := AddVersion(acc, version);
      }
    }

    /** The `if w.Results` block of `Gather`: it never panics. */
    method ResultsBlock(acc: Accumulator, os: Host, ps: PowerShell, ghost col: Collected)
      requires col.results == GetWinOsResults(os, ps)
      modifies acc
      ensures Gathered(acc.metrics, false) == Visit(Results, ResultsCategory, col, Gathered(old(acc.metrics), false))
    {
      if Results {
        var results := GetWinOsResults(os, ps);
        AddResults(acc, results);
      }
    }

    /** The `if w.Settings` block of `Gather`. */
    method SettingsBlock(acc: Accumulator, os: Host, ps: PowerShell, ghost col: Collected) returns (panic: Option<string>)
      requires col.settings == SettingsOutcome(ps.Execute(os, [SETTINGS_SCRIPT]).value)
      modifies acc
      ensures Gathered(acc.metrics, panic.Some?) == Visit(Settings, SettingsCategory, col, Gathered(old(acc.metrics), false))
    {
      panic := None;
      if Settings {
        var settings := GetWinOsSettings(os, ps);
        panic := AddSettings(acc, settings);
      }
    }
  }

  /** The `AddFields` line of the `if w.OsVersion` block: the version record
      is added, error or not, under an empty tag map; a panicked parser never
      reaches it, and its reason is passed on. */
  method AddVersion(acc: Accumulator, version: Outcome<WinOsVersion>) returns (panic: Option<string>)
    modifies acc
    ensures Gathered(acc.metrics, panic.Some?) == Append(Gathered(old(acc.metrics), false), Emit(VersionCategory, VersionRecord(version)))
  {
    var tags: Tags := map[];
    if version.Panic? {
      return Some(version.reason);
    }
    version.value.AddFields(acc, VERSION_MEASUREMENT, tags);
    return None;
  }

  /** The `AddFields` line of the `if w.Results` block: the results record is
      added, error or not, under an empty tag map. */
  method AddResults(acc: Accumulator, results: Returned<WinOsResults>)
    modifies acc
    ensures Gathered(acc.metrics, false) == Append(Gathered(old(acc.metrics), false), Emit(ResultsCategory, ResultsRecord(results)))
  {
    var tags: Tags := map[];
    results.value.AddFields(acc, RESULTS_MEASUREMENT, tags);
  }

  /** The `AddFields` line of the `if w.Settings` block: the settings map is
      added, error or not, under an empty tag map; a panicked parser never
      reaches it, and its reason is passed on. */
  method AddSettings(acc: Accumulator, settings: Outcome<WinOsSettings>) returns (panic: Option<string>)
    modifies acc
    ensures Gathered(acc.metrics, panic.Some?) == Append(Gathered(old(acc.metrics), false), Emit(SettingsCategory, SettingsRecord(settings)))
  {
    var tags: Tags := map[];
    if settings.Panic? {
      return Some(settings.reason);
    }
    settings.value.AddFields(acc, SETTINGS_MEASUREMENT, tags);
    return None;
  }

  /** The three `if` blocks of `Gather`, one per category, in source order. */
  function GatherPass(w: WinOsInfo, col: Collected): Gathered {
    Visit(w.Settings, SettingsCategory, col,
      Visit(w.Results, ResultsCategory, col,
        Visit(w.OsVersion, VersionCategory, col, Gathered([], false))))
  }

  /** What one enabled block of `Gather` contributes on its own, given its
      record: the record under the category's measurement name with an empty
      tag map, or a panic. */
  function Emit(c: Category, record: Option<Fields>): Gathered {
    match record
    case None => Gathered([], true)
    case Some(f) => Gathered([Metric(Measurement(c), f, map[])], false)
  }

  function Step(c: Category, col: Collected): Gathered {
    Emit(c, Build(c, col))
  }

  /** `s` run after `g`: its records appended, its panic flag kept. */
  function Append(g: Gathered, s: Gathered): Gathered {
    Gathered(g.emitted + s.emitted, s.panicked)
  }

  /** One `if` block of `Gather`: a category that is disabled, or that comes
      after a panic, changes nothing; otherwise its step is appended. */
  function Visit(enabled: bool, c: Category, col: Collected, g: Gathered): Gathered {
    if !enabled || g.panicked then g else Append(g, Step(c, col))
  }

  /** A block appends to whatever the accumulator held before it. */
  lemma VisitShift(enabled: bool, c: Category, col: Collected, pre: seq<Metric>, g: Gathered)
    ensures var v := Visit(enabled, c, col, g);
      Visit(enabled, c, col, Gathered(pre + g.emitted, g.panicked)) == Gathered(pre + v.emitted, v.panicked)
  {
    if enabled && !g.panicked {
      var s := Step(c, col);
      assert Visit(enabled, c, col, Gathered(pre + g.emitted, g.panicked)) == Gathered(pre + g.emitted + s.emitted, s.panicked);
      assert pre + g.emitted + s.emitted == pre + (g.emitted + s.emitted);
    }
  }

  /** The three blocks run on an accumulator that already holds `start`
      append to it what a pass from empty emits. */
  lemma GatherShift(w: WinOsInfo, col: Collected, start: seq<Metric>)
    ensures var g := Visit(w.Settings, SettingsCategory, col,
        Visit(w.Results, ResultsCategory, col, Visit(w.OsVersion, VersionCategory, col, Gathered(start, false))));
      g == Gathered(start + GatherPass(w, col).emitted, GatherPass(w, col).panicked)
  {
    var g0 := Gathered([], false);
    var g1 := Visit(w.OsVersion, VersionCategory, col, g0);
    var g2 := Visit(w.Results, ResultsCategory, col, g1);
    assert Gathered(start, false) == Gathered(start + g0.emitted, g0.panicked);
    VisitShift(w.OsVersion, VersionCategory, col, start, g0);
    VisitShift(w.Results, ResultsCategory, col, start, g1);
    VisitShift(w.Settings, SettingsCategory, col, start, g2);
  }

  /** Once a block has panicked, the blocks after it change nothing. */
  lemma NothingAfterPanic(w: WinOsInfo, col: Collected, g: Gathered)
    requires g.panicked
    ensures Visit(w.Settings, SettingsCategory, col, Visit(w.Results, ResultsCategory, col, g)) == g
  {
  }

  /** One step of the gather policy: the first category either panics, and
      ends the pass, or emits its record ahead of the rest. */
  lemma EmitStep(cs: seq<Category>, col: Collected)
    requires cs != []
    ensures var rest := EmitIgnoringErrors(cs[1..], col);
      EmitIgnoringErrors(cs, col) ==
        match Build(cs[0], col)
        case None => Gathered([], true)
        case Some(f) => Gathered([Metric(Measurement(cs[0]), f, map[])] + rest.emitted, rest.panicked)
  {
  }

  /** The enabled categories after the version one, in order. */
  function LaterEnabled(w: WinOsInfo): (cs: seq<Category>)
    ensures w.Enabled() == (if w.OsVersion then [VersionCategory] else []) + cs
  {
    (if w.Results then [ResultsCategory] else []) + (if w.Settings then [SettingsCategory] else [])
  }

  /** The results and settings blocks, entered without an earlier panic,
      follow the gather policy over the categories they enable. */
  lemma LaterInOrder(w: WinOsInfo, col: Collected, g: Gathered)
    requires !g.panicked
    ensures var e := EmitIgnoringErrors(LaterEnabled(w), col);
      Visit(w.Settings, SettingsCategory, col, Visit(w.Results, ResultsCategory, col, g))
      == Gathered(g.emitted + e.emitted, e.panicked)
  {
    var cs := LaterEnabled(w);
    var last := if w.Settings then [SettingsCategory] else [];
    if w.Results {
      EmitStep(cs, col);
      assert cs[1..] == last;
    }
    if w.Settings { EmitStep(last, col); }
  }

  /** The three blocks of `Gather` in order visit exactly the enabled
      categories with the emit-regardless-of-errors policy. */
  lemma GatherInOrder(w: WinOsInfo, col: Collected)
    ensures GatherPass(w, col) == EmitIgnoringErrors(w.Enabled(), col)
  {
    var cs := w.Enabled();
    var g := Visit(w.OsVersion, VersionCategory, col, Gathered([], false));
    if g.panicked {
      NothingAfterPanic(w, col, g);
      EmitStep(cs, col);
    } else {
      LaterInOrder(w, col, g);
      if w.OsVersion {
        EmitStep(cs, col);
        assert cs[1..] == LaterEnabled(w);
      } else {
        assert cs == LaterEnabled(w);
      }
    }
  }

  /** A pass with every category enabled on a host where no builder panics
      emits three records, in order, under "win_os_version", "win_os_results"
      and "win_os_settings", all with empty tags, whatever errors the builders
      reported; the update settings are passed on as the settings map. */
  lemma GatherAllReturn(col: Collected)
    requires col.version.Return? && col.settings.Return?
    ensures var g := EmitIgnoringErrors(WinOsInfo(true, true, true).Enabled(), col);
      && !g.panicked
      && g.emitted == [
        Metric("win_os_version", col.version.value.Fields(), map[]),
        Metric("win_os_results", col.results.value.Fields(), map[]),
        Metric("win_os_settings", col.settings.value.settings, map[])]
  {
    var cs := [VersionCategory, ResultsCategory, SettingsCategory];
    assert WinOsInfo(true, true, true).Enabled() == cs;
    EmitStopsAtFirstPanic(cs, col);
  }

  /** A version record whose parse failed is still emitted, holding whatever
      the parser had stored before the failure. */
  lemma VersionErrorStillEmitted(w: WinOsInfo, col: Collected)
    requires w.OsVersion && col.version.Return? && col.version.err.Some?
    ensures var g := EmitIgnoringErrors(w.Enabled(), col);
      |g.emitted| >= 1 && g.emitted[0] == Metric(VERSION_MEASUREMENT, col.version.value.Fields(), map[])
  {
    assert w.Enabled()[0] == VersionCategory;
  }

  /** A panicking version parser stops the pass before anything is emitted. */
  lemma VersionPanicEmitsNothing(w: WinOsInfo, col: Collected)
    requires w.OsVersion && col.version.Panic?
    ensures EmitIgnoringErrors(w.Enabled(), col) == Gathered([], true)
  {
    assert w.Enabled()[0] == VersionCategory;
  }

  /** The results record never stops the pass: the two dates are emitted
      even when a date command fails. */
  lemma ResultsNeverPanic(col: Collected)
    ensures Build(ResultsCategory, col) == Some(col.results.value.Fields())
  {
  }
}
