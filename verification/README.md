# win_os_info in Dafny

A model of `win_os_info`, an input plugin for the Telegraf metrics agent. It
reports facts about a Windows host: the OS version, the last Windows Update
dates and the Windows Update settings. The repository has two alternative
implementations of the same plugin, and each is its own Dafny module:

- **Registry strategy** (`win_os_info.go`, module `WinOsInfo`). Three builders
  read their fields from the registry one value at a time. Each gives up at the
  first failing read, with the fields read so far. `Gather` runs the enabled
  builders in the order version, update status, update settings. Each record
  goes to the accumulator with an empty tag map. The first builder error is
  returned and nothing after it is emitted. Both update records are emitted
  under the one name `win_os_update_settings`.
- **PowerShell strategy** (`win_os_info_ps.go`, module `WinOsInfoPs`). Each
  builder runs a PowerShell one-liner and parses its output:
  - The version text is split on `.`, trimmed and parsed as three unsigned
    numbers, followed by the caption command.
  - The two update dates are taken as printed.
  - The settings are parsed line by line as `name:value`. The value is typed by
    a fixed table: four names through `Atoi`, four through `ParseBool`, the rest
    as text.

  `Gather` drops every builder error and emits whatever record came back, under
  `win_os_version`, `win_os_results` and `win_os_settings`. Only a run-time
  panic stops it. A panic is an index out of range: a version with fewer than
  three pieces, or a settings line without `:`.

Supporting modules:

- `GoRuntime`: Go's `(value, error)` return convention, the run-time panic
  (`Outcome`), machine integers, and the first error of a fail-fast chain.
- `GoStrings`: `strings.TrimSpace` and `strings.Split`.
- `GoStrconv`: `strconv.ParseUint`, `Atoi` and `ParseBool`, exactly as Go
  computes them for base 10. This includes the values Go returns alongside an
  error: 0 on a syntax error, the clamped value on a range error.
- `Telegraf`: the accumulator, as a class whose list of metrics only grows.
- `WinRegistry`: the registry as an abstract store. It records which keys fail
  to open, with what error, and what each value read yields.

The outside world is a parameter:
- the registry is a `Store`;
- the operating system is a `Host`, a function from a command to its standard
  output, standard error and exit error.

Both plugins' `Gather` methods are proved against a specification function of
the pass (`GatherPass`). That function is proved equal to a policy over the list
of enabled categories: stop at the first error (registry) or ignore errors
(PowerShell). The policy's effect is then proved: which records are emitted, in
what order, and with which error.

Facts of the code that a reader might not expect, which the model keeps:

- **`AUOptions` in the PowerShell settings.** `AUOptions` is not in the type
  table (win_os_info_ps.go:138-152), so `AUOptions: 4` is stored as the text
  `"4"` (`UnlistedNamesStayText`).
- **`NonAdministratorsElevated`.** The bool table spells the name
  `NonAdministratorElevated` (win_os_info_ps.go:146), while the sample
  configuration comment spells it `NonAdministratorsElevated`
  (win_os_info_ps.go:186). A line `NonAdministratorsElevated : True` is stored
  as the text `"True"` (`UnlistedNamesStayText`).
- **Multi-line version text.** The version text is split on `.` only, so
  `"4.0\n19045\n0"` yields major 4, minor 0 and a syntax error: the second
  piece is `0\n19045\n0`, which `ParseUint` rejects (`VersionFailFast`).
- **The search-date script.** It asks for `.Results.LastLastSearchDate`. The
  model keeps that script text as written.

## Model

| member | source | states |
|---|---|---|
| WinRegistry.OpenKey | win_os_info.go:34-35 | opening a key succeeds exactly when the store lists no failure for that root, path and access; on failure the error is the listed one |
| WinRegistry.GetStringValue | win_os_info.go:40-43 | a string read succeeds exactly when the value exists, is readable and is a string, and yields it |
| WinRegistry.GetIntegerValue | win_os_info.go:154-158 | an integer read succeeds exactly when the value exists, is readable and is an integer, and yields it |
| WinRegistry.StringReadIsStored | win_os_info.go:40-51 | a string read through an opened key succeeds exactly when a string is stored under that name, and returns that string |
| GoRuntime.FirstError | win_os_info.go:34-53 | the error of a fail-fast chain is nil exactly when every step succeeded; otherwise it is the error of a failing step with no failing step before it |
| GoRuntime.MatchesIsIn | win_os_info_ps.go:138-149 | a `switch` case list is taken exactly when the value is one of its labels |
| Telegraf.Accumulator.AddFields | win_os_info.go:64 | adding a record appends exactly that record and keeps the earlier ones |
| WinOsInfo.WinOsVersion.AddFields | win_os_info.go:56-65 | the version record is added once, under the given measurement and tags, with its field map |
| WinOsInfo.VersionFieldsRoundTrip | win_os_info.go:56-65 | the version field map holds each struct field under its own name; the record can be read back from it |
| WinOsInfo.VersionFailFast | win_os_info.go:28-54 | the returned error is the first failing step's (open, ProductName, CurrentBuildNumber, CurrentVersion); a field holds its stored string exactly when every step up to its read succeeded, and is empty otherwise |
| WinOsInfo.VersionOfStore | win_os_info.go:28-54 | with the key openable and the three strings stored, the record holds them and the error is nil |
| WinOsInfo.WinOsUpdateStatus.AddFields | win_os_info.go:124-134 | the status record is added once with its four-field map |
| WinOsInfo.StatusFieldsRoundTrip | win_os_info.go:124-134 | the status field map holds each struct field under its own name |
| WinOsInfo.RegKeyStringOfStore | win_os_info.go:76-91 | `GetRegKeyString` succeeds exactly when the key opens and holds a string under the name, returning that string; on failure it returns "" with the open error when the key does not open, and with `GetStringValue`'s error when it opens but the read fails |
| WinOsInfo.StatusFailFast | win_os_info.go:93-122 | the error is the first failing read's, in the order install, download, detect, time zone; each date holds its stored string when every read up to its own succeeded, and is empty otherwise |
| WinOsInfo.WinOsUpdateSettings.AddFields | win_os_info.go:178-188 | the settings record is added once with its four-field map |
| WinOsInfo.SettingsFieldsRoundTrip | win_os_info.go:178-188 | the settings field map holds the three integers and the string under their own names |
| WinOsInfo.SettingsFailFast | win_os_info.go:144-176 | with the Auto Update key openable, the error is the first failing read's in source order; on success the record holds the stored integers and string |
| WinOsInfo.SettingsOpenFailureNotReturned | win_os_info.go:150-158 | a failed open is only logged: the first read goes through the zero handle and fails, and the record stays all zero |
| WinOsInfo.EmitStopsAtFirstFailure | win_os_info.go:235-262 | the stop-at-first-failure policy emits the records of the categories before the first failing one, in order, each under its measurement name with empty tags, and nothing after; it returns that category's error |
| WinOsInfo.EmitErrorIsFirstError | win_os_info.go:235-262 | the error of a pass is the first builder error among the enabled categories, in order |
| WinOsInfo.WinOsInfo.Enabled | win_os_info.go:191-195 | a category is visited exactly when its configuration flag is set |
| WinOsInfo.WinOsInfo.Gather | win_os_info.go:235-262 | the accumulator gains exactly the records of the pass, after what it held, and the returned error is the pass's |
| WinOsInfo.NothingAfterFailure | win_os_info.go:237-259 | once a block has failed, the later blocks change nothing |
| WinOsInfo.LaterInOrder | win_os_info.go:245-259 | the status and settings blocks follow the stop-at-first-failure policy over the categories they enable |
| WinOsInfo.GatherInOrder | win_os_info.go:235-262 | the three `if` blocks, run in order, equal the stop-at-first-failure policy over the enabled categories |
| WinOsInfo.GatherAllSucceed | win_os_info.go:235-262 | with everything enabled and no builder failing, three records are emitted in order: `win_os_version`, then `win_os_update_settings` twice, with empty tags and no error |
| WinOsInfo.GatherVersionFailureEmitsNothing | win_os_info.go:237-243 | a failing version read ends the pass with its error before anything is emitted |
| WinOsInfo.GatherVersionExample | win_os_info.go:237-243 | a registry holding the three version strings yields exactly one `win_os_version` record holding them |
| WinOsInfoPs.PowerShell.CommandFor | win_os_info_ps.go:26-28 | PowerShell is started with `-NonInteractive`, `-NoProfile`, then the caller's arguments in order |
| WinOsInfoPs.PowerShell.Execute | win_os_info_ps.go:26-38 | standard output with a nil error when the process succeeds; otherwise standard error with the process's error |
| WinOsInfoPs.WinOsVersion.AddFields | win_os_info_ps.go:78-88 | the version record is added once with Major, Minor, Build and Caption |
| WinOsInfoPs.VersionFieldsRoundTrip | win_os_info_ps.go:78-88 | the version field map holds each struct field under its name |
| WinOsInfoPs.TrimAll | win_os_info_ps.go:57-59 | every piece is trimmed and the number of pieces is kept |
| WinOsInfoPs.TrimEach | win_os_info_ps.go:57-59 | the in-place loop leaves every element of the array trimmed |
| WinOsInfoPs.GetWinOsVersion | win_os_info_ps.go:50-76 | the method returns exactly what the version parser gives on the version command's text (its error dropped) and the caption command's result |
| WinOsInfoPs.ParseVersionList | win_os_info_ps.go:61-75 | the three parses and the caption step over the trimmed piece array return exactly what the version parser specifies |
| WinOsInfoPs.VersionPanics | win_os_info_ps.go:61-69 | the parser panics exactly when a piece it needs is missing while every piece before it parsed |
| WinOsInfoPs.VersionWithoutDotPanics | win_os_info_ps.go:54-64 | a version text without `.` whose number parses panics at index 1 |
| WinOsInfoPs.VersionSucceeds | win_os_info_ps.go:61-75 | no error and no panic exactly when three pieces exist, all parse and the caption command succeeds; the record then holds the three values and the trimmed caption |
| WinOsInfoPs.VersionFailFast | win_os_info_ps.go:61-75 | when the parser returns, the error is the first failing step's; a failed parse leaves its own value (0, or the largest uint64 on overflow), later fields stay zero, and the caption is untrimmed when its command fails |
| WinOsInfoPs.WinOsResults.AddFields | win_os_info_ps.go:115-123 | the results record is added once with its two dates |
| WinOsInfoPs.ResultsFieldsRoundTrip | win_os_info_ps.go:115-123 | the results field map holds both dates under their names |
| WinOsInfoPs.ResultsFailFast | win_os_info_ps.go:97-113 | the error is the first failing command's; a failing command leaves its standard error as the date; both dates are trimmed only when both commands succeed |
| WinOsInfoPs.ParseLine | win_os_info_ps.go:135-152 | a line panics exactly when it has no `:`; otherwise it stores under the trimmed text before the first `:` (the value is stated by `ParseLineOfPair` and `ValueCutAtSecondColon`) |
| WinOsInfoPs.ParseSettingLine | win_os_info_ps.go:135-152 | the loop body computes the same name and typed value as the line parser, or the panic |
| WinOsInfoPs.StoreSettingLines | win_os_info_ps.go:133-153 | the line loop stores every line in order, or panics at the first line without `:` |
| WinOsInfoPs.GetWinOsSettings | win_os_info_ps.go:129-155 | the method returns exactly the settings parse of the trimmed command output (its error dropped), with a nil error, or the panic |
| WinOsInfoPs.WinOsSettings.AddFields | win_os_info_ps.go:157-161 | the settings map is added as it is, once |
| WinOsInfoPs.ParseLinesPanics | win_os_info_ps.go:134-137 | parsing the lines panics exactly when some line has no `:` |
| WinOsInfoPs.ParseLinesPanicPersists | win_os_info_ps.go:134-137 | once a prefix of the lines panics, the whole list does |
| WinOsInfoPs.EmptySettingsPanic | win_os_info_ps.go:130-137 | empty or all-blank output trims to one empty line, and the parser panics |
| WinOsInfoPs.CoerceTable | win_os_info_ps.go:138-152 | the four int settings hold `Atoi`'s value: the 64-bit clamp of a signed decimal, 0 when `Atoi` reports a syntax error (no digits, or another character before any overflow), and the clamp in the sign's direction when the digits overflow first; the four bool settings are true exactly on `ParseBool`'s true literals; every other name keeps its text |
| WinOsInfoPs.UnlistedNamesStayText | win_os_info_ps.go:138-152 | "AUOptions" and "NonAdministratorsElevated" are not in the type table, so their values are stored as text |
| WinOsInfoPs.ParseLineOfPair | win_os_info_ps.go:135-152 | a `name:value` line with one `:` stores, under the trimmed name, the trimmed value typed by that name |
| WinOsInfoPs.CoerceOfFormatted | win_os_info_ps.go:143-149 | a typed setting reads back the integer or boolean Go prints |
| WinOsInfoPs.ValueCutAtSecondColon | win_os_info_ps.go:135-137 | only the text between the first and the second `:` is kept as the value |
| WinOsInfoPs.StoreKeys | win_os_info_ps.go:134-153 | a fold that does not panic stores exactly the names of its entries |
| WinOsInfoPs.StoreLastWins | win_os_info_ps.go:144-151 | a name holds the value of its last entry |
| WinOsInfoPs.SettingsKeys | win_os_info_ps.go:133-153 | lines that all hold `:` parse without panicking, and the map's keys are exactly the lines' names |
| WinOsInfoPs.LastLineWins | win_os_info_ps.go:133-153 | a name repeated on several lines keeps the value of its last line |
| WinOsInfoPs.ParseRenderedLines | win_os_info_ps.go:133-153 | `name:text` lines of well-formed settings parse to the expected typed map |
| WinOsInfoPs.RenderIsTrimmed | win_os_info_ps.go:131 | a rendered listing has no surrounding white space, so trimming leaves it alone |
| WinOsInfoPs.RenderSplitsIntoLines | win_os_info_ps.go:132 | a rendered listing splits on `\n` back into its lines |
| WinOsInfoPs.RenderRoundTrip | win_os_info_ps.go:129-155 | parsing a listing of well-formed settings gives every name its typed value, the last occurrence winning |
| WinOsInfoPs.EmitStopsAtFirstPanic | win_os_info_ps.go:206-221 | the ignore-errors policy emits, in order, the record of every category before the first panicking one, whatever errors were reported, and nothing after |
| WinOsInfoPs.WinOsInfo.Enabled | win_os_info_ps.go:164-168 | a category is visited exactly when its configuration flag is set |
| WinOsInfoPs.WinOsInfo.Gather | win_os_info_ps.go:206-221 | the accumulator gains exactly the records of the pass, after what it held; the method panics exactly when the pass does, and otherwise returns nil |
| WinOsInfoPs.WinOsInfo.VersionBlock | win_os_info_ps.go:208-211 | the version block appends its step to the accumulator, or passes the panic on |
| WinOsInfoPs.WinOsInfo.ResultsBlock | win_os_info_ps.go:212-215 | the results block appends the results record and never panics |
| WinOsInfoPs.WinOsInfo.SettingsBlock | win_os_info_ps.go:216-219 | the settings block appends the settings map, or passes the panic on |
| WinOsInfoPs.AddVersion | win_os_info_ps.go:209-210 | the version record is added with empty tags whatever error came with it; a panic adds nothing |
| WinOsInfoPs.AddResults | win_os_info_ps.go:213-214 | the results record is added with empty tags whatever error came with it |
| WinOsInfoPs.AddSettings | win_os_info_ps.go:217-218 | the settings map is added with empty tags; a panic adds nothing |
| WinOsInfoPs.GatherShift | win_os_info_ps.go:206-221 | running the blocks on a non-empty accumulator appends what a pass from empty emits |
| WinOsInfoPs.NothingAfterPanic | win_os_info_ps.go:208-219 | once a block has panicked, the later blocks change nothing |
| WinOsInfoPs.LaterInOrder | win_os_info_ps.go:212-219 | the results and settings blocks follow the ignore-errors policy over the categories they enable |
| WinOsInfoPs.GatherInOrder | win_os_info_ps.go:206-221 | the three `if` blocks, run in order, equal the ignore-errors policy over the enabled categories |
| WinOsInfoPs.GatherAllReturn | win_os_info_ps.go:206-221 | with everything enabled and no panic, three records are emitted in order (`win_os_version`, `win_os_results`, `win_os_settings`) with empty tags, whatever errors were reported |
| WinOsInfoPs.VersionErrorStillEmitted | win_os_info_ps.go:208-211 | a version parse error does not stop the record: it is emitted first, with what was parsed |
| WinOsInfoPs.VersionPanicEmitsNothing | win_os_info_ps.go:208-211 | a panicking version parser ends the pass before anything is emitted |
| WinOsInfoPs.ResultsNeverPanic | win_os_info_ps.go:212-215 | the results record is always emitted |
| GoStrings.TrimSpaceSlice | win_os_info_ps.go:58 | the result is a slice of the input with only white space cut from both ends, and has no white space at either end |
| GoStrings.TrimSpaceOfTrimmed | win_os_info_ps.go:131 | trimming text without surrounding white space leaves it unchanged |
| GoStrings.SplitWithoutSep | win_os_info_ps.go:55 | text without the separator is one piece |
| GoStrings.SplitAtSep | win_os_info_ps.go:132 | splitting distributes over a separator |
| GoStrings.SplitHasSecondPiece | win_os_info_ps.go:135-137 | there is a second piece exactly when the text holds the separator |
| GoStrings.SplitJoin | win_os_info_ps.go:132 | splitting undoes joining when no piece holds the separator |
| GoStrings.JoinSplit | win_os_info_ps.go:132 | joining the pieces of a split with the separator gives back the text |
| GoStrings.SplitPiecesHaveNoSep | win_os_info_ps.go:135 | no piece of a split holds the separator |
| GoStrings.SplitTwoSeparators | win_os_info_ps.go:135-137 | the first two pieces of `a:b:c` are `a` and `b` when neither holds `:` |
| GoStrconv.ScanDecimal | win_os_info_ps.go:61 | the digit loop ends with a value exactly when every character is a digit and the number fits in 64 bits, and the value is the number |
| GoStrconv.ParseUint | win_os_info_ps.go:61-69 | no error exactly on a non-empty run of digits that fits in 64 bits, yielding its value; otherwise a NumError with 0 (syntax) or the largest uint64 (range) |
| GoStrconv.ParseUintFormatUint | win_os_info_ps.go:61-69 | `ParseUint` reads back every 64-bit number's decimal form |
| GoStrconv.AtoiOfInteger | win_os_info_ps.go:143 | on a signed decimal, `Atoi` gives the value clamped to 64 bits and fails exactly when the clamp changed it |
| GoStrconv.AtoiOfNonNumeric | win_os_info_ps.go:143 | text that does not start with a digit after an optional sign gives 0 and a syntax error |
| GoStrconv.AtoiFailures | win_os_info_ps.go:143 | text with no digits after the sign, or a non-digit before any overflow, gives 0 and a syntax error; digits that overflow first give the clamp in the sign's direction and a range error |
| GoStrconv.AtoiItoa | win_os_info_ps.go:143 | `Atoi` reads back every 64-bit integer's decimal form |
| GoStrconv.ParseBoolLiterals | win_os_info_ps.go:148 | `ParseBool` succeeds exactly on the twelve literals and is true exactly on the six true ones |
| GoStrconv.ParseBoolFormatBool | win_os_info_ps.go:148 | `ParseBool` reads back `FormatBool`'s output |

## Left out

- **I/O.**
  - The registry API and process execution are parameters: a `Store` and a `Host`.
  - How a process's output reaches its buffers is not modelled.
  - No call of the plugin changes the store or the host, so each builder's reads
    are modelled as happening against one fixed state.
- **Logging.** Every `log.Printf`/`log.Println` call is left out, as is the
  `registryKeyString` table, which only feeds log messages.
- **`NewPowerShell` and the package-level `powershell` variable.** Finding
  `powershell.exe` on the path, and `log.Fatal` when it is missing, happen at
  load time. The model takes the resulting `PowerShell` value as a parameter.
- **Plugin plumbing.** `SampleConfig`, `Description`, the configuration text,
  `init` and the `inputs.Add` registration are left out.
- **One shared tag map.** Each `Gather` creates a single empty tag map and hands
  it to every `AddFields`. The model passes an empty map each time. Nothing
  writes to the map, so the records are the same.
- **Method factoring.** The model splits some Go functions into helper methods:
  the trimming loop (`TrimEach`), the parse steps (`ParseVersionList`), the
  settings loop and its body (`StoreSettingLines`, `ParseSettingLine`), the
  three `if` blocks of the PowerShell `Gather`, and their `AddFields` steps.
  They run the same statements in the same order.
- **Invalid handle error.** A read through the zero handle left by a failed
  `OpenKey` is modelled as Windows error 6 (`ERROR_INVALID_HANDLE`). The
  registry library is not part of this model.
- **Panic messages.** A panic is modelled by its index-out-of-range reason.
  The Go runtime's exact message text and the stack unwinding are not modelled.
- **`Atoi`.** It is modelled by the route `ParseInt` takes. Go's fast path for
  short strings gives the same results.
- **Go `int`.** It is 64 bits wide, as on the 64-bit Windows targets.
- **Strings.** They are sequences of characters rather than UTF-8 bytes. Every
  separator and white-space character the plugin matches on is handled the
  same either way.
- **The two files.** They declare the same Go identifiers, so they cannot be
  built together. They are modelled as two independent modules.
- **PowerShell version examples.** No lemma computes the version parser on a
  concrete literal output. The general lemmas (`VersionPanics`,
  `VersionSucceeds`, `VersionFailFast`) state its behaviour for every input.
