/**
 * What `run` (Tasks/NetworkTroubleshootV1/index.js) writes and records: `writeFile`, the
 * per-tool log name and content, the entries of `report.results`, the trace-info entry
 * and the lines of the human-readable summary.
 */
module Report {
  import opened Text
  import opened Runner
  import opened Retry
  import opened Sanitizer
  import Json

  /** `JSON.stringify(v)` or `JSON.stringify(v, null, 2)`: only their results matter. */
  type Serializer = Json.Value -> string

  /** What `writeFile` is given: a string, or an object to be serialised. */
  datatype Payload = Text(s: string) | Data(v: Json.Value)

  /** `writeFile(filePath, data, sanitizeOutputs)`: the text that lands in the file. A
      string is redacted exactly when redaction is on; an object is serialised with
      indentation and is never redacted. */
  function FileContent(data: Payload, sanitizeOutputs: bool, pretty: Serializer): (r: string)
    ensures data.Text? && sanitizeOutputs ==> r == Sanitize(data.s)
    ensures data.Text? && !sanitizeOutputs ==> r == data.s
    ensures data.Data? ==> r == pretty(data.v)
  {
    match data
    case Text(s) => if sanitizeOutputs then Sanitize(s) else s
    case Data(v) => pretty(v)
  }

  /** With redaction on, a string written through `writeFile` holds no run of 20 or
      more token characters; an object's serialisation is written as it is. */
  lemma WrittenTextRedacted(data: Payload, sanitizeOutputs: bool, pretty: Serializer)
    requires data.Text? && sanitizeOutputs
    ensures NoLongRun(FileContent(data, sanitizeOutputs, pretty))
  {
    SanitizeNoLongRun(data.s);
  }

  /** One write into the output directory, as the call that made it was given it:
      `writeFile(path, data, sanitizeOutputs)`, or the raw `fs.writeFileSync` of the
      custom script, which is a string written without redaction. */
  datatype Write = Write(data: Payload, sanitizeOutputs: bool)

  /** The text a write leaves in its file. */
  function Content(w: Write, pretty: Serializer): string {
    FileContent(w.data, w.sanitizeOutputs, pretty)
  }

  /** The directory's files, from the last write to each path. */
  function Contents(writes: map<string, Write>, pretty: Serializer): (files: map<string, string>)
    ensures files.Keys == writes.Keys
    ensures forall path | path in writes :: files[path] == Content(writes[path], pretty)
  {
    map path | path in writes :: Content(writes[path], pretty)
  }

  /** `tool.replace(/[^a-z0-9]/gi, '_')`: each character outside the ASCII letters and
      digits becomes `_`. */
  function SafeName(tool: string): (r: string)
    ensures |r| == |tool|
    ensures forall i | 0 <= i < |tool| :: r[i] == if IsAsciiAlnum(tool[i]) then tool[i] else '_'
  {
    if tool == [] then [] else [if IsAsciiAlnum(tool[0]) then tool[0] else '_'] + SafeName(tool[1..])
  }

  /** The per-tool log file name. */
  function LogName(tool: string): string {
    SafeName(tool) + ".log"
  }

  /** A log name is the tool's length plus `.log`, and holds only letters, digits and `_`
      before the extension. */
  lemma LogNameShape(tool: string)
    ensures |LogName(tool)| == |tool| + 4
    ensures EndsWith(LogName(tool), ".log")
    ensures forall i | 0 <= i < |tool| :: IsAsciiAlnum(LogName(tool)[i]) || LogName(tool)[i] == '_'
  {
    var n := LogName(tool);
    assert n[|n| - 4..] == ".log";
  }

  /** Names that are already safe are kept, and making a name safe twice changes nothing. */
  lemma SafeNameKeepsSafe(tool: string)
    ensures SafeName(tool) == tool <==> forall i | 0 <= i < |tool| :: IsAsciiAlnum(tool[i]) || tool[i] == '_'
    ensures SafeName(SafeName(tool)) == SafeName(tool)
  {
    var r := SafeName(tool);
    if forall i | 0 <= i < |tool| :: IsAsciiAlnum(tool[i]) || tool[i] == '_' {
      assert forall i | 0 <= i < |tool| :: r[i] == tool[i];
    }
  }

  /** Two tools whose names differ only in the replaced characters share a log file. */
  lemma LogNameClash(a: string, b: string)
    requires |a| == |b|
    requires forall i | 0 <= i < |a| :: (a[i] == b[i]) || (!IsAsciiAlnum(a[i]) && !IsAsciiAlnum(b[i]))
    ensures LogName(a) == LogName(b)
  {
    assert SafeName(a) == SafeName(b);
  }

  /** `toolOut.stdout || toolOut.stderr || JSON.stringify(toolOut)`. */
  function LogText(out: ToolOut, stringify: Serializer): (r: string)
    ensures out.Captured? && out.stdout != [] ==> r == out.stdout
    ensures out.Captured? && out.stdout == [] && out.stderr != [] ==> r == out.stderr
    ensures out.Captured? && out.stdout == [] && out.stderr == [] ==> r == stringify(ToJson(out))
    ensures out.Failed? ==> r == stringify(ToJson(out))
  {
    if out.Captured? && out.stdout != [] then out.stdout
    else if out.Captured? && out.stderr != [] then out.stderr
    else stringify(ToJson(out))
  }

  /** `String(err)` of a thrown value. */
  function ThrownText(e: Thrown): string {
    match e
    case Undefined => "undefined"
    case Error(_, text) => text
  }

  /** `err && err.message ? err.message : String(err)`. */
  function ErrorMessage(e: Thrown): (r: string)
    ensures e == Undefined ==> r == "undefined"
    ensures e.Error? && e.message != [] ==> r == e.message
    ensures e.Error? && e.message == [] ==> r == e.text
  {
    if e.Error? && e.message != [] then e.message else ThrownText(e)
  }

  /** `entry.result.error || String(entry.result)`, the log of a probe that threw. */
  function CaughtLog(error: string): string {
    if error != [] then error else "[object Object]"
  }

  /** What the trace step found: the platform, and whether its capture tool is on the
      PATH. */
  datatype TraceNote = TraceNote(windows: bool, found: bool)

  /** What an entry records: a probe's outcome, or the trace's `info`. */
  datatype EntryBody = Result(out: ToolOut) | Info(note: TraceNote)

  /** One element of `report.results`. */
  datatype Entry = Entry(tool: string, startedAt: string, body: EntryBody, finishedAt: string)

  const TraceTool := "network-trace"

  /** The capture tool looked for on each platform. */
  function TraceProbeName(windows: bool): string {
    if windows then "netsh" else "tcpdump"
  }

  /** The trace entry's `info` text. */
  function TraceInfo(n: TraceNote): string {
    if n.windows then
      if n.found then "netsh available but capturing requires elevated permissions; not started automatically"
      else "netsh not available on agent"
    else
      if n.found then "tcpdump available but capture not started: requires explicit opt-in; future work"
      else "tcpdump not available on agent"
  }

  function EntryJson(e: Entry): Json.Value {
    Json.Object(
      [("tool", Json.Str(e.tool)), ("startedAt", Json.Str(e.startedAt))]
      + (match e.body
         case Result(out) => [("result", ToJson(out))]
         case Info(note) => [("info", Json.Str(TraceInfo(note)))])
      + [("finishedAt", Json.Str(e.finishedAt))])
  }

  /** The `report` object written to `report.json`. */
  function ReportJson(runAt: string, target: string, platform: string, results: seq<Entry>): Json.Value {
    Json.Object([("runAt", Json.Str(runAt)), ("target", Json.Str(target)), ("platform", Json.Str(platform)),
                 ("results", Json.Array(EntriesJson(results)))])
  }

  /** `report.results`, entry by entry. */
  function EntriesJson(results: seq<Entry>): (items: seq<Json.Value>)
    ensures |items| == |results|
    ensures forall i | 0 <= i < |results| :: items[i] == EntryJson(results[i])
    decreases |results|
  {
    if results == [] then [] else EntriesJson(results[..|results| - 1]) + [EntryJson(results[|results| - 1])]
  }

  /** The five lines that open the summary. */
  function SummaryHeader(target: string, runAt: string, platform: string): seq<string> {
    ["Network Troubleshoot summary for target: " + target, "Run at: " + runAt, "Platform: " + platform, "", "Results:"]
  }

  /** Whether the summary reports an entry as an error: it has a `result` whose `error`
      is a non-empty string. */
  predicate ReportsError(e: Entry) {
    e.body.Result? && e.body.out.Failed? && e.body.out.error != []
  }

  /** `- ${r.tool}: ${r.result && r.result.error ? 'ERROR: ' + r.result.error : 'OK'}`. */
  function SummaryLine(e: Entry): string {
    "- " + e.tool + ": " + (if ReportsError(e) then "ERROR: " + e.body.out.error else "OK")
  }

  /** The summary of a list of entries: the header, then one line per entry, in order. */
  function SummaryLines(target: string, runAt: string, platform: string, results: seq<Entry>): (lines: seq<string>)
    ensures |lines| == 5 + |results|
    ensures forall i | 0 <= i < |results| :: lines[5 + i] == SummaryLine(results[i])
    decreases |results|
  {
    if results == [] then SummaryHeader(target, runAt, platform)
    else SummaryLines(target, runAt, platform, results[..|results| - 1]) + [SummaryLine(results[|results| - 1])]
  }

  /** The summary opens with its header, whatever the entries. */
  lemma {:induction false} SummaryLinesHeader(target: string, runAt: string, platform: string, results: seq<Entry>)
    ensures SummaryLines(target, runAt, platform, results)[..5] == SummaryHeader(target, runAt, platform)
    decreases |results|
  {
    if results != [] {
      SummaryLinesHeader(target, runAt, platform, results[..|results| - 1]);
    }
  }

  /** The loop that pushes one line per entry onto the header. */
  method BuildSummary(target: string, runAt: string, platform: string, results: seq<Entry>)
    returns (summary: seq<string>)
    ensures summary == SummaryLines(target, runAt, platform, results)
  {
    summary := SummaryHeader(target, runAt, platform);
    for i := 0 to |results|
      invariant summary == SummaryLines(target, runAt, platform, results[..i])
    {
      assert results[..i + 1][..i] == results[..i];
      summary := summary + [SummaryLine(results[i])];
    }
    assert results[..|results|] == results;
  }

  /** A line says `ERROR: <message>` after the tool's name exactly for an entry whose
      outcome failed with a non-empty message, and `OK` otherwise; the trace entry, whose
      `info` is not a `result`, is always `OK`. */
  lemma SummaryLineMeaning(e: Entry)
    ensures var prefix := "- " + e.tool + ": ";
      && SummaryLine(e)[..|prefix|] == prefix
      && (ReportsError(e) ==> SummaryLine(e)[|prefix|..] == "ERROR: " + e.body.out.error)
      && (!ReportsError(e) ==> SummaryLine(e)[|prefix|..] == "OK")
      && (e.body.Info? ==> SummaryLine(e) == prefix + "OK")
  {
  }

  /** A captured run, whatever its streams hold, reads `OK`, and so does a failure whose
      message is empty. */
  lemma SummaryOkCases(e: Entry)
    requires e.body.Result?
    ensures e.body.out.Captured? ==> !ReportsError(e)
    ensures e.body.out.Failed? ==> (ReportsError(e) <==> e.body.out.error != [])
  {
  }
}
