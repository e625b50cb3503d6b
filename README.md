# NetworkTroubleshootV1 diagnostic engine, modelled in Dafny

This project models the diagnostic engine of the `NetworkTroubleshootV1` pipeline task
(`Tasks/NetworkTroubleshootV1/index.js`) and proves properties of it. The engine:

- reads already-parsed task inputs;
- splits the tool list;
- runs each diagnostic through a platform-specific command chosen by a PATH lookup;
- wraps every run in the bounded `attempt` loop;
- classifies each process outcome;
- writes one log file per tool, optionally redacted by the two-pass sanitizer;
- builds `report.json` and `summary.txt`;
- on request, archives the output directory with PowerShell/`zip` and falls back to `tar`.

Modules, one per part of the engine:

| file | module | models |
|---|---|---|
| `wrappers.dfy` | `Wrappers` | `Option` |
| `text.dfy` | `Text` | character classes of the regular expressions, JavaScript white space and `trim`, `split(/\r?\n/)`, `join`, `endsWith`, `String(n)` |
| `json.dfy` | `Json` | JSON values; the serializers are parameters |
| `sanitizer.dfy` | `Sanitizer` | `sanitize`: the token pass, then the `Authorization:` pass, each as the scan a global `replace` performs |
| `runner.dfy` | `Runner` | `runTool`: the timeout in milliseconds and the classification of the outcome |
| `retry.dfy` | `Retry` | `attempt`: the counted loop that keeps the last error |
| `probes.dfy` | `Probes` | `findExecutable` and the dispatch chain that picks a command per tool name |
| `archive.dfy` | `Archive` | `zipDirectory`: the native step, the `tar` fallback and the `.tar.gz` name |
| `report.dfy` | `Report` | `writeFile`, log names and contents, report entries, summary lines |
| `engine.dfy` | `Engine` | `run` as methods over a progress record, each proved equal to a specification function |
| `engine.dfy` | `RunFacts` | what those specification functions guarantee |

The outside world enters as values of a `Host` record:

- `onPath: string -> bool` answers `which`/`where`;
- `exec: (nat, Invocation) -> ExecResult` gives the outcome of the n-th process spawned;
- `clock: nat -> string` gives the n-th `new Date().toISOString()` reading;
- `stringify` is `JSON.stringify(x)` and `pretty` is `JSON.stringify(x, null, 2)`;
- the platform, working directory and pipeline variables.

A run returns every `execFile` invocation in order (the `which`/`where` lookups are not in this list: they are answered by the `onPath` oracle). It also returns the written files as a map from path to content, the report entries, the summary lines, the copy destination and the task result.

The model follows the code where it departs from the task's documented behaviour:

- `report.json` is never redacted. `writeFile` redacts only string data, and the report is an object (index.js:213, 21).
- The custom script file is written raw, without going through `writeFile` (index.js:158).
- The summary header has five lines: target, run time, platform, a blank line and `Results:` (index.js:216).
- A negative `retries` makes no attempt at all, and the probe records the error `undefined` (index.js:101, 111, 176).
- Only one native archive step runs before `tar`: PowerShell on win32, `zip` elsewhere (index.js:58-73).
- An `Authorization:` value can survive redaction. When word characters are glued to the header name, the token pass masks the name first and the header pass no longer finds it (`Sanitizer.TokenPassRunsFirst`).

## Model

| member | source | states |
|---|---|---|
| `Wrappers.Option.GetOr` | Tasks/NetworkTroubleshootV1/index.js:125 | `x \|\| default` on a lookup: the found value, or else the default |
| `Text.AsciiLower` | Tasks/NetworkTroubleshootV1/index.js:120 | lower-casing keeps letters letters, leaves non-letters alone, and gives a lower-case letter |
| `Text.LowerPointwise` | Tasks/NetworkTroubleshootV1/index.js:120 | `toLowerCase` keeps the length and works character by character |
| `Text.Lower` | Tasks/NetworkTroubleshootV1/index.js:120 | `toLowerCase`. Its contract is carried by `LowerPointwise` |
| `Text.TrimStartSpec` | Tasks/NetworkTroubleshootV1/index.js:91 | leading trim drops only white space and keeps a suffix that does not start with white space |
| `Text.TrimEndSpec` | Tasks/NetworkTroubleshootV1/index.js:91 | trailing trim drops only white space and keeps a prefix that does not end with white space |
| `Text.TrimSpec` | Tasks/NetworkTroubleshootV1/index.js:91 | a trimmed name is empty or starts and ends with a non-space character |
| `Text.Trim` | Tasks/NetworkTroubleshootV1/index.js:91 | `trim`. Its contract is carried by `TrimStartSpec`, `TrimEndSpec` and `TrimSpec` |
| `Text.SplitLines` | Tasks/NetworkTroubleshootV1/index.js:91 | a split always yields at least one piece; the pieces are characterised by `Engine.SplitAfterLine`, `Engine.SplitAfterCrLf` and `Engine.SplitSingleLine` |
| `Text.SplitLinesNoBreak` | Tasks/NetworkTroubleshootV1/index.js:91 | no piece of `split(/\r?\n/)` contains a line feed |
| `Text.NatToString` | Tasks/NetworkTroubleshootV1/index.js:33 | a decimal rendering is non-empty, all digits, and has no leading zero unless the number is 0 |
| `Text.IntToString` | Tasks/NetworkTroubleshootV1/index.js:33 | `String(n)` is never empty |
| `Text.JoinWith` | Tasks/NetworkTroubleshootV1/index.js:221 | `join`. Stated about by `Engine.ParseToolsRoundTrip` (its inverse on tool names) |
| `Text.EndsWith` | Tasks/NetworkTroubleshootV1/index.js:75 | `endsWith`, case-sensitive. Stated about by `Archive.TarPathOfZip`, `Archive.TarPathOfOther` and `Archive.UpperZipKept` |
| `Sanitizer.LeadRun` | Tasks/NetworkTroubleshootV1/index.js:16 | the length of the maximal run of token characters at the front: every character before it is a token character and the next one is not |
| `Sanitizer.AuthMatch` | Tasks/NetworkTroubleshootV1/index.js:17 | a match at the front exists iff the text starts with the header in any case, then spaces, then a non-break character; the kept prefix is the longest possible (greedy `\s*` with backtracking); the value is non-empty and runs to the next CR/LF or the end |
| `Sanitizer.SpaceEnd` | Tasks/NetworkTroubleshootV1/index.js:17 | the greedy `\s*`: every character skipped is white space and the next one is not |
| `Sanitizer.LineEnd` | Tasks/NetworkTroubleshootV1/index.js:17 | `[^\r\n]+` stops at the first CR/LF or the end |
| `Sanitizer.LastValueStart` | Tasks/NetworkTroubleshootV1/index.js:17 | the backtracking of `\s*`: the last position that is not a line break, or none |
| `Sanitizer.TokensNoLongRun` | Tasks/NetworkTroubleshootV1/index.js:16 | after the token pass no run of 20 or more `[A-Za-z0-9_-]` remains |
| `Sanitizer.TokensKeepClean` | Tasks/NetworkTroubleshootV1/index.js:16 | text without such a run is left unchanged by the token pass |
| `Sanitizer.TokensIdempotent` | Tasks/NetworkTroubleshootV1/index.js:16 | the token pass applied twice equals the pass applied once |
| `Sanitizer.TokensLeadRun` | Tasks/NetworkTroubleshootV1/index.js:16 | a leading run of 20 or more is replaced by the marker, which starts with `<`; a shorter leading run is kept |
| `Sanitizer.AuthNoLongRun` | Tasks/NetworkTroubleshootV1/index.js:17 | the header pass never creates a long run: its `<`/`>`-bracketed marker joins no neighbour |
| `Sanitizer.AuthLeadRun` | Tasks/NetworkTroubleshootV1/index.js:17 | the header pass keeps the leading run of token characters |
| `Sanitizer.SanitizeNoLongRun` | Tasks/NetworkTroubleshootV1/index.js:13-17 | the sanitized text holds no run of 20 or more token characters, and this holds for the empty input too |
| `Sanitizer.HeaderValueMasked` | Tasks/NetworkTroubleshootV1/index.js:17 | an `Authorization:` header in any case keeps its original spelling and the white space after it; its value up to the next CR/LF becomes the marker; scanning goes on after the line break |
| `Sanitizer.HeaderLineMasked` | Tasks/NetworkTroubleshootV1/index.js:13-17 | for a header in any case mix, white space, a value without line breaks that does not start with white space, and a rest that is empty or starts at a CR/LF: `sanitize` keeps the header as written and the white space, replaces the whole value by the marker whatever its length, and sanitizes the rest on its own. The white space may include line breaks, so a value on a later line is masked |
| `Sanitizer.TokensSplit` | Tasks/NetworkTroubleshootV1/index.js:16 | the token pass never reaches across a non-word character: a text split before one is masked piece by piece |
| `Sanitizer.TokensKeepBreak` | Tasks/NetworkTroubleshootV1/index.js:16 | the token pass keeps a leading line break, and the empty text |
| `Sanitizer.NoHeaderKept` | Tasks/NetworkTroubleshootV1/index.js:17 | text with no `Authorization:` at any position is left unchanged by the header pass |
| `Sanitizer.MaskAuthSkips` | Tasks/NetworkTroubleshootV1/index.js:17 | the global header replacement copies any prefix in which no header starts (even one that runs into the following text) and continues on the remaining text by itself: `MaskAuth(a + b) == a + MaskAuth(b)` |
| `Sanitizer.NoHeaderBeforeLf` | Tasks/NetworkTroubleshootV1/index.js:17 | a line feed cuts off any header that could start in the text before it, so no header starts before or at the line feed |
| `Sanitizer.HeaderAfterLinesMasked` | Tasks/NetworkTroubleshootV1/index.js:13-17 | a header line after earlier lines, which hold no long token and no header, then a line feed: `sanitize` keeps the earlier lines and the line feed, keeps the header as written, replaces its value by the marker, and sanitizes the rest on its own (so `line1\nAuthorization: Bearer x` has its value masked) |
| `Sanitizer.BreaksOnlyKept` | Tasks/NetworkTroubleshootV1/index.js:17 | text holding only line breaks after its first characters is left unchanged by the header pass |
| `Sanitizer.AuthIdempotent` | Tasks/NetworkTroubleshootV1/index.js:17 | the header pass applied twice equals the pass applied once |
| `Sanitizer.SanitizeIdempotent` | Tasks/NetworkTroubleshootV1/index.js:13-17 | sanitizing sanitized text changes nothing |
| `Sanitizer.Sanitize` | Tasks/NetworkTroubleshootV1/index.js:13-18 | `sanitize`: falsy text is returned as it is, otherwise the token pass and then the header pass. Its contract is carried by `SanitizeNoLongRun`, `SanitizeIdempotent`, `HeaderLineMasked`, `HeaderAfterLinesMasked` and `TokenPassRunsFirst` |
| `Sanitizer.MaskTokens` | Tasks/NetworkTroubleshootV1/index.js:16 | the first replacement, as a left-to-right scan that masks every maximal run of 20 or more. Its contract is carried by `TokensNoLongRun`, `TokensKeepClean`, `TokensIdempotent`, `TokensLeadRun` and `TokensSplit` |
| `Sanitizer.MaskAuth` | Tasks/NetworkTroubleshootV1/index.js:17 | the second replacement, as a scan that masks each value `AuthMatch` finds and resumes after it. Its contract is carried by `HeaderValueMasked`, `MaskAuthSkips`, `NoHeaderKept`, `AuthIdempotent` and `AuthNoLongRun`. Together, `MaskAuthSkips` and `HeaderValueMasked` cover a header at any position after a header-free prefix |
| `Sanitizer.TokenPassRunsFirst` | Tasks/NetworkTroubleshootV1/index.js:16-17 | the token pass runs first. When word characters before the header make the run reach 20, the header name itself is masked and the header pass no longer sees it: `sanitize(p + "Authorization: " + v)` is `"<<REDACTED>>: " + v`, and a value shorter than the header survives |
| `Sanitizer.MarkerLineKept` | Tasks/NetworkTroubleshootV1/index.js:17 | a text made of the marker, `: ` and fewer than 14 further characters holds no header, so the header pass leaves it unchanged |
| `Runner.TimeoutMs` | Tasks/NetworkTroubleshootV1/index.js:26 | the process timeout is the given seconds times 1000, or 30 s when the given value is 0 (`\|\| 30`) |
| `Runner.RunTool` | Tasks/NetworkTroubleshootV1/index.js:25-37 | `runTool` always returns a value. It returns the streams iff the process exited. A killed or SIGTERM-ended process gives `Timed out after <n>s` without a code. Any other failure keeps the error's code, with the message, or `String(err)` when the message is empty |
| `Runner.TimeoutMessageShape` | Tasks/NetworkTroubleshootV1/index.js:33 | the timeout message is `Timed out after `, the number and `s` |
| `Runner.TimeoutMessageInjective` | Tasks/NetworkTroubleshootV1/index.js:33 | different timeouts give different timeout messages |
| `Runner.TimeoutMessage` | Tasks/NetworkTroubleshootV1/index.js:33 | the timeout message. Its contract is carried by `TimeoutMessageShape` and `TimeoutMessageInjective` |
| `Runner.NatToStringInjective` | Tasks/NetworkTroubleshootV1/index.js:33 | different naturals render differently |
| `Runner.IntToStringInjective` | Tasks/NetworkTroubleshootV1/index.js:33 | different integers render differently under `String(n)` |
| `Runner.ToJson` | Tasks/NetworkTroubleshootV1/index.js:30-35 | the outcome object: `{stdout, stderr}`, or `error` first, followed by `code` exactly when there is one, holding that code (`null` included) |
| `Runner.CodeJson` | Tasks/NetworkTroubleshootV1/index.js:35 | the `code` field renders as `null` exactly when `err.code` is `null`; a status stays a number and a name a string |
| `Runner.ToJsonInjective` | Tasks/NetworkTroubleshootV1/index.js:30-35 | different outcomes serialize to different objects |
| `Retry.Attempt` | Tasks/NetworkTroubleshootV1/index.js:99-112 | the counted loop computes exactly the outcome and the number of calls of the specification `AttemptSpec` |
| `Retry.AttemptFromDone` | Tasks/NetworkTroubleshootV1/index.js:101-111 | the loop from call `i` on makes at most `retries + 1` calls in all; every call before the last threw; a return comes from the last call; a throw rethrows the last error, or the carried one when no call was made |
| `Retry.AttemptOutcome` | Tasks/NetworkTroubleshootV1/index.js:99-112 | `attempt` makes at most `retries + 1` calls in sequence. It returns the first result that did not throw, or else rethrows the last error after using the whole budget. With no call at all it throws `undefined` |
| `Retry.AttemptOfTotal` | Tasks/NetworkTroubleshootV1/index.js:99-112 | a function that never throws is called exactly once; when `retries` is negative it is never called and `undefined` is thrown |
| `Retry.AttemptSpec` | Tasks/NetworkTroubleshootV1/index.js:99-112 | the outcome and number of calls of `attempt`, which `Retry.Attempt` is proved to compute. Its contract is carried by `AttemptOutcome` and `AttemptOfTotal` |
| `Probes.FirstOnPath` | Tasks/NetworkTroubleshootV1/index.js:39-54 | the result is a candidate the lookup accepts, and every earlier candidate was rejected; it is `null` iff no candidate is accepted |
| `Probes.FindExecutable` | Tasks/NetworkTroubleshootV1/index.js:39-54 | the loop with early return computes `FirstOnPath` |
| `Probes.JoinPathInjective` | Tasks/NetworkTroubleshootV1/index.js:117 | different names in one directory give different paths |
| `Probes.DispatchSpawnsIffKnown` | Tasks/NetworkTroubleshootV1/index.js:120-166 | a tool spawns nothing iff its lower-cased name is unknown, or it is `script` with no script. An unknown name gives `Unknown tool: ` + the name as written. An empty script gives `No custom script provided`. Only a `script` with a body writes a script file |
| `Probes.DispatchIgnoresCase` | Tasks/NetworkTroubleshootV1/index.js:120-153 | names that lower-case alike select the same probe |
| `Probes.InterfaceNamesAgree` | Tasks/NetworkTroubleshootV1/index.js:145-152 | `ifconfig` and `ipconfig` are the same probe on every platform |
| `Probes.WindowsCommands` | Tasks/NetworkTroubleshootV1/index.js:120-152 | on win32: `ping <target>`, `nslookup`, `tracert`, PowerShell for the HEAD request, `netstat -an`, `ipconfig /all` |
| `Probes.UnixDefaults` | Tasks/NetworkTroubleshootV1/index.js:120-152 | off win32 with nothing on the PATH: `ping -c 4`, `dig`, `traceroute`, `curl -I` without `--max-time`, `netstat -an`, `ifconfig` |
| `Probes.UnixSelection` | Tasks/NetworkTroubleshootV1/index.js:124-152 | off win32, each fallback applies exactly when the preferred command is missing: `nslookup`, `tracepath`, `netstat`, `ip addr`. `curl` gets `--max-time` only when found |
| `Probes.ScriptProbe` | Tasks/NetworkTroubleshootV1/index.js:153-163 | a non-empty script is written to `custom-script.ps1` and run by PowerShell with `-ExecutionPolicy Bypass` on win32; elsewhere it is written to `custom-script.sh` and run directly |
| `Probes.KindOf` | Tasks/NetworkTroubleshootV1/index.js:120-165 | which branch of the chain a lower-cased name takes, with `ifconfig` and `ipconfig` on one branch. Stated about by `DispatchSpawnsIffKnown` and `InterfaceNamesAgree` |
| `Probes.ProbeFor` | Tasks/NetworkTroubleshootV1/index.js:120-166 | the body of each branch. Its command table is stated by `WindowsCommands`, `UnixDefaults`, `UnixSelection` and `ScriptProbe` |
| `Probes.Dispatch` | Tasks/NetworkTroubleshootV1/index.js:120-166 | the dispatch on `tool.toLowerCase()`. Its contract is carried by `DispatchSpawnsIffKnown`, `DispatchIgnoresCase`, `InterfaceNamesAgree` and `ScriptProbe` |
| `Archive.ZipSpec` | Tasks/NetworkTroubleshootV1/index.js:56-77 | archiving spawns PowerShell on win32, or `zip` elsewhere, first. `tar` is spawned iff that step failed. Archiving fails iff `tar` fails, and then with `tar`'s error |
| `Archive.ZipDirectory` | Tasks/NetworkTroubleshootV1/index.js:56-77 | the step-by-step fallback computes `ZipSpec` |
| `Archive.TarPathSuffix` | Tasks/NetworkTroubleshootV1/index.js:75 | the fallback archive name always ends in `.tar.gz` |
| `Archive.TarPathOfZip` | Tasks/NetworkTroubleshootV1/index.js:75 | a trailing `.zip` is replaced by `.tar.gz` |
| `Archive.TarPathOfOther` | Tasks/NetworkTroubleshootV1/index.js:75 | any other name gets `.tar.gz` appended |
| `Archive.UpperZipKept` | Tasks/NetworkTroubleshootV1/index.js:75 | the suffix test is case-sensitive: `X.ZIP` becomes `X.ZIP.tar.gz` |
| `Archive.TarPathInjective` | Tasks/NetworkTroubleshootV1/index.js:75 | two names with the same tar path are equal, unless exactly one of them ends in `.zip` |
| `Archive.TarPath` | Tasks/NetworkTroubleshootV1/index.js:75 | the `.tar.gz` name. Its contract is carried by `TarPathSuffix`, `TarPathOfZip`, `TarPathOfOther`, `UpperZipKept` and `TarPathInjective` |
| `Report.FileContent` | Tasks/NetworkTroubleshootV1/index.js:20-23 | `writeFile` redacts iff sanitizing is on and the data is a string. Other strings are written as they are, and non-string data is pretty-printed without redaction |
| `Report.WrittenTextRedacted` | Tasks/NetworkTroubleshootV1/index.js:20-23 | text written with sanitizing on holds no long token run |
| `Report.Contents` | Tasks/NetworkTroubleshootV1/index.js:22 | the directory holds exactly the written paths, each with the content of its write |
| `Report.SafeName` | Tasks/NetworkTroubleshootV1/index.js:117 | the log stem keeps the tool's length, keeps ASCII letters and digits, and turns every other character into `_` |
| `Report.LogNameShape` | Tasks/NetworkTroubleshootV1/index.js:117 | a log name is the tool's length plus 4, ends in `.log`, and holds only letters, digits and `_` before that |
| `Report.SafeNameKeepsSafe` | Tasks/NetworkTroubleshootV1/index.js:117 | a name is kept iff it holds only letters, digits and `_`; the mapping is idempotent |
| `Report.LogNameClash` | Tasks/NetworkTroubleshootV1/index.js:117 | tools differing only in non-alphanumeric characters share one log file |
| `Report.LogName` | Tasks/NetworkTroubleshootV1/index.js:117 | the per-tool log file name. Its contract is carried by `LogNameShape`, `SafeNameKeepsSafe` and `LogNameClash` |
| `Report.LogText` | Tasks/NetworkTroubleshootV1/index.js:173 | the log is stdout if non-empty, else stderr if non-empty, else the JSON of the outcome |
| `Report.ErrorMessage` | Tasks/NetworkTroubleshootV1/index.js:176 | a caught error is recorded by its message when it has one, else as `String(err)`; `undefined` becomes `"undefined"` |
| `Report.CaughtLog` | Tasks/NetworkTroubleshootV1/index.js:177 | the caught error's log: its message when non-empty, else `[object Object]` (`String` of the result object). Stated about, in the run, by `RunFacts.ToolStepOutcome` |
| `Report.EntryJson` | Tasks/NetworkTroubleshootV1/index.js:115-180 | one `report.results` element: `tool`, `startedAt`, then `result` or `info`, then `finishedAt`. Used by `EntriesJson` and `RunFacts.RunReportAndSummary` |
| `Report.ReportJson` | Tasks/NetworkTroubleshootV1/index.js:96 | the report object: `runAt`, `target`, `platform` and `results`. Stated about by `RunFacts.RunReportAndSummary` |
| `Report.EntriesJson` | Tasks/NetworkTroubleshootV1/index.js:96 | `report.results` serializes entry by entry, in order |
| `Report.SummaryLines` | Tasks/NetworkTroubleshootV1/index.js:216-219 | the summary has 5 header lines plus one line per entry, the i-th line describing the i-th entry |
| `Report.SummaryLinesHeader` | Tasks/NetworkTroubleshootV1/index.js:216 | the first five summary lines are the target, the run time, the platform, a blank line and `Results:` |
| `Report.BuildSummary` | Tasks/NetworkTroubleshootV1/index.js:216-219 | the push loop computes `SummaryLines` |
| `Report.SummaryLineMeaning` | Tasks/NetworkTroubleshootV1/index.js:218 | each line is `- <tool>: ` and then `ERROR: <error>` when the entry's result has a non-empty error, else `OK`; an `info` entry always prints `OK` |
| `Report.SummaryOkCases` | Tasks/NetworkTroubleshootV1/index.js:218 | a captured outcome prints `OK`; a failed one prints `ERROR` iff its message is non-empty |
| `Report.SummaryLine` | Tasks/NetworkTroubleshootV1/index.js:218 | one summary line. Its contract is carried by `SummaryLineMeaning` and `SummaryOkCases` |
| `Engine.EffectiveTimeout` | Tasks/NetworkTroubleshootV1/index.js:88 | the timeout is never 0: it is the parsed value, or 30 when the value is missing, not a number, or 0 |
| `Engine.KeepTrimmed` | Tasks/NetworkTroubleshootV1/index.js:91 | trimming and dropping empty names never adds names |
| `Engine.ParseToolsNames` | Tasks/NetworkTroubleshootV1/index.js:91 | every parsed tool name is non-empty, has no line feed, and neither starts nor ends with white space |
| `Engine.KeepTrimmedNames` | Tasks/NetworkTroubleshootV1/index.js:91 | trimming pieces without line feeds yields only tool names |
| `Engine.TrimName` | Tasks/NetworkTroubleshootV1/index.js:91 | a trimmed piece is empty or a tool name |
| `Engine.SplitAfterLine` | Tasks/NetworkTroubleshootV1/index.js:91 | a line feed not preceded by CR splits off exactly the text before it |
| `Engine.SplitAfterCrLf` | Tasks/NetworkTroubleshootV1/index.js:91 | a `\r\n` separates like a line feed, and its CR is dropped: the text before it is one piece |
| `Engine.SplitSingleLine` | Tasks/NetworkTroubleshootV1/index.js:91 | text without a line feed is a single piece |
| `Engine.ParseToolsRoundTrip` | Tasks/NetworkTroubleshootV1/index.js:91 | a list of tool names joined with `\n`, or with `\r\n`, parses back to the same list, in order |
| `Engine.ParseTools` | Tasks/NetworkTroubleshootV1/index.js:91 | the tool-list parse. Its contract is carried by `ParseToolsNames` and `ParseToolsRoundTrip` |
| `Engine.EffectiveRetries` | Tasks/NetworkTroubleshootV1/index.js:89 | `parseInt(...) \|\| 0`: the parsed number, and 0 when the input is missing or not a number. Its consequences for spawning are stated by `RunFacts.ProbeAllSpawns` and `RunFacts.RunSpawns` |
| `Engine.Repeat` | Tasks/NetworkTroubleshootV1/index.js:101-106 | the spawns of `n` attempts are `n` copies of one invocation |
| `Engine.Stamp` | Tasks/NetworkTroubleshootV1/index.js:229 | the timestamp keeps its length, with every `:` and `.` turned into `-` |
| `Engine.ProbeTool` | Tasks/NetworkTroubleshootV1/index.js:114-181 | one iteration of the tool loop computes `ToolStep`: the script file, the spawns, the entry and the log write |
| `Engine.ProbeTools` | Tasks/NetworkTroubleshootV1/index.js:114-181 | the tool loop computes `ProbeAll` |
| `Engine.AddTrace` | Tasks/NetworkTroubleshootV1/index.js:183-210 | the trace step computes `TraceStep` |
| `Engine.ArchiveStep` | Tasks/NetworkTroubleshootV1/index.js:223-243 | copying and archiving compute `ArchiveOutputs`, including the task result |
| `Engine.FinishRun` | Tasks/NetworkTroubleshootV1/index.js:212-243 | the report, summary and archive steps compute `Finish` |
| `Engine.Run` | Tasks/NetworkTroubleshootV1/index.js:79-245 | `run` computes `RunSpec` |
| `Engine.ToolStep` | Tasks/NetworkTroubleshootV1/index.js:114-181 | one iteration of the tool loop, which `Engine.ProbeTool` computes. Its contract is carried by `RunFacts.ToolStepOutcome` |
| `Engine.ProbeAll` | Tasks/NetworkTroubleshootV1/index.js:114-181 | the tool loop, which `Engine.ProbeTools` computes. Its contract is carried by `RunFacts.ProbeAllEntries`, `RunFacts.ProbeAllSpawns` and `RunFacts.ProbeAllRedacted` |
| `Engine.TraceEntry` | Tasks/NetworkTroubleshootV1/index.js:185-209 | the `network-trace` entry. Stated about by `RunFacts.RunTraceEntry` and `RunFacts.TraceLine` |
| `Engine.TraceStep` | Tasks/NetworkTroubleshootV1/index.js:183-210 | the trace block, which `Engine.AddTrace` computes. Stated about by `RunFacts.TraceEntryAt` and `RunFacts.TraceStepEntries` |
| `Engine.ArchiveOutputs` | Tasks/NetworkTroubleshootV1/index.js:223-243 | copying, archiving and the task result, which `Engine.ArchiveStep` computes. Stated about by `RunFacts.FinishStatus` and `RunFacts.FinishSpawns` |
| `Engine.Finish` | Tasks/NetworkTroubleshootV1/index.js:212-243 | everything after the entries, which `Engine.FinishRun` computes. Stated about by `RunFacts.FinishEntries`, `RunFacts.FinishFiles`, `RunFacts.FinishSpawns` and `RunFacts.FinishStatus` |
| `Engine.RunSpec` | Tasks/NetworkTroubleshootV1/index.js:79-245 | `run`, which `Engine.Run` computes. Its contract is carried by `RunFacts.RunEntries`, `RunFacts.RunSpawns`, `RunFacts.RunTraceEntry`, `RunFacts.RunRedacts` and `RunFacts.RunReportAndSummary` |
| `RunFacts.Launches` | Tasks/NetworkTroubleshootV1/index.js:114-166 | there are at most as many probe spawns as tools |
| `RunFacts.ToolStepOutcome` | Tasks/NetworkTroubleshootV1/index.js:114-181 | each tool appends one entry named as written and takes two clock readings. An immediate outcome spawns nothing. A recognised probe spawns exactly once and records `runTool`'s outcome. A negative `retries` spawns nothing and records `"undefined"`. The log receives `LogText` of the outcome |
| `RunFacts.ToolStepShape` | Tasks/NetworkTroubleshootV1/index.js:114-181 | one iteration appends exactly one `result` entry for the tool and keeps the earlier ones |
| `RunFacts.EntriesStep` | Tasks/NetworkTroubleshootV1/index.js:114-181 | one more iteration keeps the entries in tool order |
| `RunFacts.ProbeAllEntries` | Tasks/NetworkTroubleshootV1/index.js:114-181 | the loop appends one `result` entry per tool, in the tools' order, and keeps the earlier entries |
| `RunFacts.ProbeAllLength` | Tasks/NetworkTroubleshootV1/index.js:114-181 | the loop adds exactly one entry, and takes two clock readings, per tool |
| `RunFacts.ProbeAllSpawns` | Tasks/NetworkTroubleshootV1/index.js:99-166 | every recognised probe spawns exactly once, because `runTool` never throws, and spawns happen in the tools' order; with a negative `retries` nothing is spawned |
| `RunFacts.ImmediateSpawnsNothing` | Tasks/NetworkTroubleshootV1/index.js:153-166 | an unknown tool, or `script` with no script, starts no process |
| `RunFacts.TraceEntryAt` | Tasks/NetworkTroubleshootV1/index.js:183-210 | the trace step appends the trace entry and keeps the others |
| `RunFacts.TracedLast` | Tasks/NetworkTroubleshootV1/index.js:183-210 | with a capture requested, the last entry is the trace entry |
| `RunFacts.TraceStepEntries` | Tasks/NetworkTroubleshootV1/index.js:183-210 | the trace step adds one entry iff a capture is requested and keeps the tool entries |
| `RunFacts.ProbedEntries` | Tasks/NetworkTroubleshootV1/index.js:114-210 | the entries are one per parsed tool in order, plus one iff `captureNetworkTrace` |
| `RunFacts.ProbedTrace` | Tasks/NetworkTroubleshootV1/index.js:183-210 | the trace entry comes right after the tool entries |
| `RunFacts.FinishEntries` | Tasks/NetworkTroubleshootV1/index.js:212-219 | the final steps keep the entries and build the summary from them |
| `RunFacts.RunEntries` | Tasks/NetworkTroubleshootV1/index.js:91-219 | `report.results` has one `result` entry per parsed tool, in order, plus a final entry iff `captureNetworkTrace`. The summary describes those entries. `runAt` is the first clock reading |
| `RunFacts.FinishLastEntry` | Tasks/NetworkTroubleshootV1/index.js:216-219 | the last summary line describes the last entry |
| `RunFacts.TraceLine` | Tasks/NetworkTroubleshootV1/index.js:218 | the trace entry's summary line is always `- network-trace: OK` |
| `RunFacts.RunTraceEntry` | Tasks/NetworkTroubleshootV1/index.js:183-219 | with a capture requested, the last entry is `network-trace` with an `info` note on the platform's capture tool (netsh or tcpdump) and whether it was found. Its summary line is `OK`, because the note is not under `result` |
| `RunFacts.FinishSpawns` | Tasks/NetworkTroubleshootV1/index.js:223-239 | archiving adds one or two spawns after the probes' own; without archiving nothing is added |
| `RunFacts.ProbedSpawns` | Tasks/NetworkTroubleshootV1/index.js:114-210 | the probe loop's spawns are one per recognised probe, in order, or none when `retries` is negative |
| `RunFacts.RunSpawns` | Tasks/NetworkTroubleshootV1/index.js:79-245 | a run spawns each recognised probe once, in order, then one or two archive steps iff archiving |
| `RunFacts.FinishStatus` | Tasks/NetworkTroubleshootV1/index.js:223-243 | the task fails iff archiving is on and both the native step and `tar` fail. It then reports `Task failed: ` with `tar`'s error, and otherwise `Network troubleshooting completed`. The outputs are copied iff archiving or saving is requested |
| `RunFacts.ScriptWrittenToScriptFile` | Tasks/NetworkTroubleshootV1/index.js:157-158 | the script is written to the output directory's `custom-script` file |
| `RunFacts.ProbeAllRedacted` | Tasks/NetworkTroubleshootV1/index.js:153-181 | with sanitizing on, every file the loop writes besides the script goes through redaction |
| `RunFacts.FinishFiles` | Tasks/NetworkTroubleshootV1/index.js:212-221 | the final steps add exactly `report.json` (the report object) and `summary.txt` (the joined lines) and keep every other file |
| `RunFacts.RunRedacts` | Tasks/NetworkTroubleshootV1/index.js:13-221 | with sanitizing on, every written file except `report.json` and the custom script holds no token run of 20 or more |
| `RunFacts.ProbedRedacted` | Tasks/NetworkTroubleshootV1/index.js:114-210 | with sanitizing on, the probe loop writes only redacted text, apart from the script |
| `RunFacts.WrittenRedacted` | Tasks/NetworkTroubleshootV1/index.js:212-221 | the summary is redacted; the report is not |
| `RunFacts.ContentsRedacted` | Tasks/NetworkTroubleshootV1/index.js:20-23 | redacted writes give files without long token runs |
| `RunFacts.RunReportAndSummary` | Tasks/NetworkTroubleshootV1/index.js:212-221 | `report.json` is the pretty-printed report even with sanitizing on. `summary.txt` is the joined summary, redacted iff sanitizing is on |

## Left out

- Process execution: `execFile`, the `which`/`where` lookups and PowerShell, `zip` and `tar` are not run. Their outcomes come from the `exec` and `onPath` parameters. The output of `which`/`where` is summed up as found or not found.
- The wall-clock timeout and killing the child are not modelled. The timeout is recorded in each `Invocation`, and the outcome reports whether the child was killed and by which signal.
- File-system effects are not modelled. `existsSync`, `mkdirSync`, `chmodSync`, `tl.mkdirP` and `tl.cp` either are absent or appear only as the copy destination. Writes are recorded as a path-to-content map and never fail, so a write error that would land in a `catch` is not modelled.
- The host API is not modelled: `getInput` (including the error for a missing `target`), `getBoolInput`, `getVariable`, `tl.debug` (lines 103, 232, 238) and `setResult`. Inputs arrive already parsed. `parseInt` is given as an optional integer, with `None` for `NaN`.
- `new Date().toISOString()` is a clock parameter that returns opaque strings. The ISO format is not modelled.
- `JSON.stringify` is modelled as two serializer parameters, one compact and one pretty-printed. The model fixes which object is serialized, not its text.
- `path.join` is concatenation with the platform separator. Normalisation is not modelled.
- JavaScript strings are UTF-16 code units, while Dafny's `char` is a Unicode scalar value.
- `toLowerCase` and the `i` flag are modelled as ASCII case folding. That is exact when comparing against the ASCII tool names and the ASCII header.
- The two regular expressions are modelled as explicit scans, not by a general regex engine.
- Sanitizer.HeaderAfterLinesMasked: the earlier lines must hold no token of 20 or more characters. When they do, the token pass rewrites them first, and no lemma states which text the header pass then sees before the header; `MaskAuthSkips` still applies to whatever header-free text that is.
- The unused `zlib` and `pipeline` imports are left out.
- The no-op block at lines 169-171 is left out.
- `async`/`await` plumbing is left out: everything runs strictly in sequence.
- Trace-step errors (lines 205-207) are left out. `traceEntry.error` cannot be set, because `findExecutable` catches its own errors and nothing else in that block throws.
- The outer `catch` (line 242-243) is modelled only for the archive failure. That is the only error the modelled steps can raise there.
- Number width: timeouts, retries and exit statuses are unbounded integers. In the source `(timeoutSeconds || 30) * 1000` is a double product, and `String(n)` switches to exponent form from 1e21 (`1e+21`), which `Text.IntToString` does not model.
- `Runner.TimeoutMs`: the `|| 30` also covers a `NaN` argument. The model's timeout is an integer, and `run` never passes 0 anyway (`Engine.EffectiveTimeout`).
