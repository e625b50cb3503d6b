/**
 * `run` (Tasks/NetworkTroubleshootV1/index.js): parse the inputs, run each listed probe
 * through `attempt`, log and record each outcome, optionally add the trace-info entry,
 * write the report and the summary, and copy and archive the outputs.
 *
 * Everything outside the program is a parameter: the host's platform and directories,
 * the PATH lookup, the outcome of each spawn (by its position among all spawns), the
 * clock (by the position of each reading) and the two JSON serialisers. Files are the
 * map from path to content that the run leaves behind.
 */
module Engine {
  import opened Text
  import opened Wrappers
  import opened Runner
  import opened Retry
  import opened Probes
  import opened Archive
  import opened Report
  import opened Sanitizer
  import Json

  /** The task's inputs as the host library returns them; the two numbers are what
      `parseInt` makes of the input or of its default text, `None` standing for NaN. */
  datatype Inputs = Inputs(
    target: string,
    tools: string,
    captureNetworkTrace: bool,
    customScript: string,
    sanitizeOutputs: bool,
    archiveArtifacts: bool,
    saveArtifacts: bool,
    artifactName: string,
    timeoutSeconds: Option<int>,
    retries: Option<int>)

  /** The agent: platform, directories (empty when the variable is unset) and oracles. */
  datatype Host = Host(
    platform: string,
    onPath: PathOracle,
    exec: ExecOracle,
    clock: nat -> string,
    stringify: Serializer,
    pretty: Serializer,
    agentTemp: string,
    cwd: string,
    staging: string)

  /** `parseInt(...) || 30`: NaN and 0 fall back to 30. */
  function EffectiveTimeout(parsed: Option<int>): (t: int)
    ensures t != 0
    ensures parsed.Some? && parsed.value != 0 ==> t == parsed.value
    ensures parsed.None? || parsed.value == 0 ==> t == DefaultTimeoutSeconds
  {
    match parsed
    case Some(n) => if n == 0 then DefaultTimeoutSeconds else n
    case None => DefaultTimeoutSeconds
  }

  /** `parseInt(...) || 0`: NaN becomes 0, negative counts are kept. */
  function EffectiveRetries(parsed: Option<int>): int {
    parsed.GetOr(0)
  }

  const DefaultArtifactName := "network-troubleshoot"

  /** The settings the probes run with, defaults applied. */
  datatype Config = Config(
    target: string,
    customScript: string,
    sanitizeOutputs: bool,
    timeoutSeconds: int,
    retries: int,
    artifactName: string,
    outDir: string)

  /** `path.join(Agent.TempDirectory || process.cwd(), 'network-troubleshoot')`. */
  function OutDir(h: Host): string {
    JoinPath(h.platform, if h.agentTemp != [] then h.agentTemp else h.cwd, "network-troubleshoot")
  }

  function ConfigOf(inputs: Inputs, h: Host): Config {
    Config(inputs.target, inputs.customScript, inputs.sanitizeOutputs,
           EffectiveTimeout(inputs.timeoutSeconds), EffectiveRetries(inputs.retries),
           if inputs.artifactName != [] then inputs.artifactName else DefaultArtifactName,
           OutDir(h))
  }

  /** Trims every line and keeps the non-empty ones, in order. */
  function KeepTrimmed(lines: seq<string>): (r: seq<string>)
    ensures |r| <= |lines|
  {
    if lines == [] then []
    else
      var t := Trim(lines[0]);
      (if t == [] then [] else [t]) + KeepTrimmed(lines[1..])
  }

  /** `toolsRaw.split(/\r?\n/).map(s => s.trim()).filter(Boolean)`. */
  function ParseTools(raw: string): seq<string> {
    KeepTrimmed(SplitLines(raw))
  }

  /** A name as it can come out of the parse: non-empty, without line feeds, and not
      starting or ending with white space. */
  predicate IsToolName(t: string) {
    t != [] && '\n' !in t && !IsSpace(t[0]) && !IsSpace(t[|t| - 1])
  }

  /** The parse produces only tool names. */
  lemma ParseToolsNames(raw: string)
    ensures forall i | 0 <= i < |ParseTools(raw)| :: IsToolName(ParseTools(raw)[i])
  {
    SplitLinesNoBreak(raw);
    KeepTrimmedNames(SplitLines(raw));
  }

  lemma {:induction false} KeepTrimmedNames(lines: seq<string>)
    requires forall i | 0 <= i < |lines| :: '\n' !in lines[i]
    ensures forall i | 0 <= i < |KeepTrimmed(lines)| :: IsToolName(KeepTrimmed(lines)[i])
  {
    if lines != [] {
      KeepTrimmedNames(lines[1..]);
      TrimName(lines[0]);
      var t := Trim(lines[0]);
      var rest := KeepTrimmed(lines[1..]);
      assert KeepTrimmed(lines) == (if t == [] then [] else [t]) + rest;
    }
  }

  /** Trimming a line without line feeds gives a tool name or nothing. */
  lemma TrimName(s: string)
    requires '\n' !in s
    ensures Trim(s) == [] || IsToolName(Trim(s))
  {
    var a := TrimStart(s);
    TrimStartSpec(s);
    var b := TrimEnd(a);
    TrimEndSpec(a);
    TrimSpec(s);
    assert b == Trim(s);
    forall i | 0 <= i < |b|
      ensures b[i] != '\n'
    {
      assert b[i] == a[i] == s[|s| - |a| + i];
    }
  }

  /** A trimmed name is its own trim. */
  lemma TrimTrimmed(t: string)
    requires t == [] || (!IsSpace(t[0]) && !IsSpace(t[|t| - 1]))
    ensures Trim(t) == t
  {
  }

  /** Splitting a line feed off after a line that does not end in `\r`. */
  lemma {:induction false} SplitAfterLine(a: string, rest: string)
    requires '\n' !in a
    requires a == [] || a[|a| - 1] != '\r'
    ensures SplitLines(a + "\n" + rest) == [a] + SplitLines(rest)
    decreases |a|
  {
    if a == [] {
      assert a + "\n" + rest == "\n" + rest;
      assert ("\n" + rest)[1..] == rest;
    } else {
      var s := a + "\n" + rest;
      assert s[0] == a[0] && s[1..] == a[1..] + "\n" + rest;
      if |a| >= 2 {
        assert s[0] != '\n';
        assert a[0] == '\r' ==> a[1] != '\n';
      } else {
        assert a[0] != '\r';
      }
      SplitAfterLine(a[1..], rest);
      assert [a[0]] + a[1..] == a;
    }
  }

  /** Splitting a `\r\n` off after a line: the carriage return belongs to the separator
      and is dropped, whatever the line ends with. */
  lemma {:induction false} SplitAfterCrLf(a: string, rest: string)
    requires '\n' !in a
    ensures SplitLines(a + "\r\n" + rest) == [a] + SplitLines(rest)
    decreases |a|
  {
    if a == [] {
      assert a + "\r\n" + rest == "\r\n" + rest;
      assert ("\r\n" + rest)[2..] == rest;
    } else {
      var s := a + "\r\n" + rest;
      assert s[0] == a[0] && s[1..] == a[1..] + "\r\n" + rest;
      assert s[0] != '\n';
      assert s[1] != '\n' by {
        if |a| >= 2 { assert s[1] == a[1]; } else { assert s[1] == '\r'; }
      }
      SplitAfterCrLf(a[1..], rest);
      assert [a[0]] + a[1..] == a;
    }
  }

  /** The last line, with no line feed in it. */
  lemma {:induction false} SplitSingleLine(a: string)
    requires '\n' !in a
    ensures SplitLines(a) == [a]
    decreases |a|
  {
    if a != [] {
      assert a[0] != '\n';
      assert |a| >= 2 && a[0] == '\r' ==> a[1] != '\n';
      SplitSingleLine(a[1..]);
      assert [a[0]] + a[1..] == a;
    }
  }

  /** Tool names written one per line, with Unix or Windows line ends, are read back as
      written. */
  lemma {:induction false} ParseToolsRoundTrip(tools: seq<string>, sep: string)
    requires sep == "\n" || sep == "\r\n"
    requires forall i | 0 <= i < |tools| :: IsToolName(tools[i])
    ensures ParseTools(JoinWith(tools, sep)) == tools
    decreases |tools|
  {
    if |tools| == 1 {
      SplitSingleLine(tools[0]);
      TrimTrimmed(tools[0]);
      assert KeepTrimmed([tools[0]]) == [tools[0]] + KeepTrimmed([]);
    } else if |tools| > 1 {
      var t := tools[0];
      if sep == "\n" {
        BreakIsSpace('\r');
        SplitAfterLine(t, JoinWith(tools[1..], sep));
      } else {
        SplitAfterCrLf(t, JoinWith(tools[1..], sep));
      }
      ParseToolsRoundTrip(tools[1..], sep);
      TrimTrimmed(t);
      var lines := SplitLines(JoinWith(tools, sep));
      assert lines == [t] + SplitLines(JoinWith(tools[1..], sep));
      assert lines[1..] == SplitLines(JoinWith(tools[1..], sep));
      assert KeepTrimmed(lines) == [t] + KeepTrimmed(lines[1..]);
      assert [t] + tools[1..] == tools;
    }
  }

  /** What the run has built so far: the report entries, the files, the spawns in order,
      and how often the clock was read. */
  datatype Progress = Progress(results: seq<Entry>, files: map<string, Write>, spawned: seq<Invocation>, tick: nat)

  /** The clock is read once for `runAt` before any probe. */
  const Start := Progress([], map[], [], 1)

  /** The spawn a probe makes, if any, with the `execFile` options of `runTool`. */
  function Launch(probe: Probe, timeoutSeconds: int): Option<Invocation> {
    match probe
    case Spawn(cmd, args) => Some(ToolInvocation(cmd, args, timeoutSeconds))
    case SpawnScript(_, _, cmd, args) => Some(ToolInvocation(cmd, args, timeoutSeconds))
    case Immediate(_) => None
  }

  /** The `fn` passed to `attempt`: its `i`-th call runs `inv` as spawn number `base + i`
      and never throws. */
  function Attempts(h: Host, inv: Invocation, timeoutSeconds: int, base: nat): nat -> Try<ToolOut> {
    (i: nat) => Returned(RunTool(h.exec(base + i, inv), timeoutSeconds))
  }

  function Repeat(inv: Invocation, n: nat): (r: seq<Invocation>)
    ensures |r| == n && forall i | 0 <= i < n :: r[i] == inv
  {
    seq(n, _ => inv)
  }

  /** What a probe yields, and how many spawns it makes. */
  function Outcome(c: Config, h: Host, probe: Probe, base: nat): (Try<ToolOut>, nat) {
    match Launch(probe, c.timeoutSeconds)
    case None => (Returned(probe.out), 0)
    case Some(inv) => AttemptSpec(c.retries, Attempts(h, inv, c.timeoutSeconds, base))
  }

  function ProbeOf(c: Config, h: Host, tool: string): Probe {
    Dispatch(tool, h.platform, h.onPath, c.target, c.timeoutSeconds, c.customScript, c.outDir)
  }

  function LogPath(c: Config, h: Host, tool: string): string {
    JoinPath(h.platform, c.outDir, LogName(tool))
  }

  /** The recorded outcome of a probe: what `attempt` returned, or the caught error. */
  function Recorded(r: Try<ToolOut>): ToolOut {
    match r
    case Returned(out) => out
    case Threw(e) => Failed(ErrorMessage(e), NoCode)
  }

  /** What the probe's log file receives before `writeFile` redacts it. */
  function LogOf(r: Try<ToolOut>, stringify: Serializer): string {
    match r
    case Returned(out) => LogText(out, stringify)
    case Threw(e) => CaughtLog(ErrorMessage(e))
  }

  /** One iteration of the loop over the tools. */
  function ToolStep(c: Config, h: Host, p: Progress, tool: string): Progress {
    var probe := ProbeOf(c, h, tool);
    var files := if probe.SpawnScript? then p.files[probe.scriptFile := Write(Text(probe.scriptBody), false)] else p.files;
    var (r, calls) := Outcome(c, h, probe, |p.spawned|);
    var spawned := p.spawned + (if calls == 0 then [] else Repeat(Launch(probe, c.timeoutSeconds).value, calls));
    var entry := Entry(tool, h.clock(p.tick), Result(Recorded(r)), h.clock(p.tick + 1));
    Progress(p.results + [entry],
             files[LogPath(c, h, tool) := Write(Text(LogOf(r, h.stringify)), c.sanitizeOutputs)],
             spawned, p.tick + 2)
  }

  /** The loop over `tools`, from `p` on. */
  function ProbeAll(c: Config, h: Host, p: Progress, tools: seq<string>): Progress
    decreases |tools|
  {
    if tools == [] then p else ToolStep(c, h, ProbeAll(c, h, p, tools[..|tools| - 1]), tools[|tools| - 1])
  }

  /** The body of the loop over the tools, as the source runs it. */
  method ProbeTool(c: Config, h: Host, p: Progress, tool: string) returns (q: Progress)
    ensures q == ToolStep(c, h, p, tool)
  {
    var startedAt := h.clock(p.tick);
    var probe := ProbeOf(c, h, tool);
    var files := p.files;
    var spawned := p.spawned;
    var outcome: Try<ToolOut>;
    match probe {
      case Immediate(out) =>
        outcome := Returned(out);
      case Spawn(cmd, args) =>
        var inv := ToolInvocation(cmd, args, c.timeoutSeconds);
        var calls;
        outcome, calls := Attempt(c.retries, Attempts(h, inv, c.timeoutSeconds, |spawned|));
        if calls > 0 {
          spawned := spawned + Repeat(inv, calls);
        }
      case SpawnScript(file, body, cmd, args) =>
        files := files[file := Write(Text(body), false)];
        var inv := ToolInvocation(cmd, args, c.timeoutSeconds);
        var calls;
        outcome, calls := Attempt(c.retries, Attempts(h, inv, c.timeoutSeconds, |spawned|));
        if calls > 0 {
          spawned := spawned + Repeat(inv, calls);
        }
    }
    var out := Recorded(outcome);
    files := files[LogPath(c, h, tool) := Write(Text(LogOf(outcome, h.stringify)), c.sanitizeOutputs)];
    q := Progress(p.results + [Entry(tool, startedAt, Result(out), h.clock(p.tick + 1))], files, spawned, p.tick + 2);
  }

  /** The `network-trace` entry, its clock readings starting at `tick`. */
  function TraceEntry(h: Host, tick: nat): Entry {
    var win := IsWindows(h.platform);
    var found := FirstOnPath([TraceProbeName(win)], h.onPath).Some?;
    Entry(TraceTool, h.clock(tick), Info(TraceNote(win, found)), h.clock(tick + 1))
  }

  /** The trace entry added after the probes when a capture is requested. */
  function TraceStep(h: Host, p: Progress): Progress {
    p.(results := p.results + [TraceEntry(h, p.tick)], tick := p.tick + 2)
  }

  /** The trace step, when a capture is requested. */
  function Traced(capture: bool, h: Host, p: Progress): Progress {
    if capture then TraceStep(h, p) else p
  }

  /** `s.replace(/[:\.]/g, '-')`. */
  function Stamp(s: string): (r: string)
    ensures |r| == |s|
    ensures forall i | 0 <= i < |s| :: r[i] == if s[i] == ':' || s[i] == '.' then '-' else s[i]
  {
    if s == [] then [] else [if s[0] == ':' || s[0] == '.' then '-' else s[0]] + Stamp(s[1..])
  }

  /** `Build.ArtifactStagingDirectory || Agent.TempDirectory || outDir`. */
  function ArtifactPath(h: Host, outDir: string): string {
    if h.staging != [] then h.staging else if h.agentTemp != [] then h.agentTemp else outDir
  }

  function ReportPath(c: Config, h: Host): string { JoinPath(h.platform, c.outDir, "report.json") }
  function SummaryPath(c: Config, h: Host): string { JoinPath(h.platform, c.outDir, "summary.txt") }

  /** `tl.setResult(...)`. */
  datatype TaskResult = Succeeded(message: string) | TaskFailed(message: string)

  const CompletedMessage := "Network troubleshooting completed"
  const FailurePrefix := "Task failed: "

  /** What a run leaves behind: the report's `runAt` and entries, the files written into
      the output directory, every spawn in order, the summary lines, the directory the
      outputs are copied to, and the task result. */
  datatype RunOutcome = RunOutcome(
    runAt: string,
    results: seq<Entry>,
    files: map<string, string>,
    spawned: seq<Invocation>,
    summary: seq<string>,
    copiedTo: Option<string>,
    status: TaskResult)

  /** The entries and files once every probe, and the trace entry when asked for, ran. */
  function Probed(inputs: Inputs, h: Host): Progress {
    Traced(inputs.captureNetworkTrace, h, ProbeAll(ConfigOf(inputs, h), h, Start, ParseTools(inputs.tools)))
  }

  /** The writes once the report and the summary are written. */
  function WrittenFiles(inputs: Inputs, h: Host, runAt: string, p: Progress): map<string, Write> {
    var summary := SummaryLines(inputs.target, runAt, h.platform, p.results);
    p.files[ReportPath(ConfigOf(inputs, h), h) := Write(Data(ReportJson(runAt, inputs.target, h.platform, p.results)), inputs.sanitizeOutputs)]
           [SummaryPath(ConfigOf(inputs, h), h) := Write(Text(JoinWith(summary, "\n")), inputs.sanitizeOutputs)]
  }

  /** The end of the run: the archiving spawns, where the outputs are copied to, and the
      task result. */
  datatype Archived = Archived(spawned: seq<Invocation>, copiedTo: Option<string>, status: TaskResult)

  /** Where the outputs are copied to. */
  function Destination(inputs: Inputs, h: Host): string {
    var c := ConfigOf(inputs, h);
    JoinPath(h.platform, ArtifactPath(h, c.outDir), c.artifactName)
  }

  /** The timestamped archive name, from the clock reading after the entries. */
  function ZipFile(inputs: Inputs, h: Host, tick: nat): string {
    var c := ConfigOf(inputs, h);
    JoinPath(h.platform, ArtifactPath(h, c.outDir), c.artifactName + "-" + Stamp(h.clock(tick)) + ".zip")
  }

  /** Copying and archiving, and the task result they decide. */
  function ArchiveOutputs(inputs: Inputs, h: Host, p: Progress): Archived {
    var dest := Destination(inputs, h);
    if inputs.archiveArtifacts then
      var (tried, failure) := ZipSpec(h.platform, dest, ZipFile(inputs, h, p.tick), h.exec, |p.spawned|);
      Archived(tried, Some(dest),
               if failure.Some? then TaskFailed(FailurePrefix + ErrorMessage(failure.value)) else Succeeded(CompletedMessage))
    else
      Archived([], if inputs.saveArtifacts then Some(dest) else None, Succeeded(CompletedMessage))
  }

  /** What `run` does once the entries are complete. */
  function Finish(inputs: Inputs, h: Host, runAt: string, p: Progress): RunOutcome {
    var a := ArchiveOutputs(inputs, h, p);
    RunOutcome(runAt, p.results, Contents(WrittenFiles(inputs, h, runAt, p), h.pretty), p.spawned + a.spawned,
               SummaryLines(inputs.target, runAt, h.platform, p.results), a.copiedTo, a.status)
  }

  /** `run`. */
  function RunSpec(inputs: Inputs, h: Host): RunOutcome {
    Finish(inputs, h, h.clock(0), Probed(inputs, h))
  }

  /** The trace entry, looking the capture tool up with `findExecutable`. */
  method AddTrace(h: Host, p: Progress) returns (q: Progress)
    ensures q == TraceStep(h, p)
  {
    var startedAt := h.clock(p.tick);
    var win := IsWindows(h.platform);
    var found := FindExecutable([TraceProbeName(win)], h.onPath);
    var entry := Entry(TraceTool, startedAt, Info(TraceNote(win, found.Some?)), h.clock(p.tick + 1));
    q := Progress(p.results + [entry], p.files, p.spawned, p.tick + 2);
  }

  /** Copying and archiving, step by step. */
  method ArchiveStep(inputs: Inputs, h: Host, p: Progress) returns (a: Archived)
    ensures a == ArchiveOutputs(inputs, h, p)
  {
    var dest := Destination(inputs, h);
    a := Archived([], None, Succeeded(CompletedMessage));
    if inputs.archiveArtifacts {
      var tried, failure := ZipDirectory(h.platform, dest, ZipFile(inputs, h, p.tick), h.exec, |p.spawned|);
      a := Archived(tried, Some(dest), a.status);
      if failure.Some? {
        a := a.(status := TaskFailed(FailurePrefix + ErrorMessage(failure.value)));
      }
    } else if inputs.saveArtifacts {
      a := a.(copiedTo := Some(dest));
    }
  }

  /** The report, the summary and the archive, step by step. */
  method FinishRun(inputs: Inputs, h: Host, runAt: string, p: Progress) returns (o: RunOutcome)
    ensures o == Finish(inputs, h, runAt, p)
  {
    var c := ConfigOf(inputs, h);
    var files := p.files[ReportPath(c, h) :=
      Write(Data(ReportJson(runAt, inputs.target, h.platform, p.results)), c.sanitizeOutputs)];
    var summary := BuildSummary(inputs.target, runAt, h.platform, p.results);
    files := files[SummaryPath(c, h) := Write(Text(JoinWith(summary, "\n")), c.sanitizeOutputs)];
    var a := ArchiveStep(inputs, h, p);
    o := RunOutcome(runAt, p.results, Contents(files, h.pretty), p.spawned + a.spawned, summary, a.copiedTo, a.status);
  }

  /** The loop over the tools, step by step. */
  method ProbeTools(c: Config, h: Host, tools: seq<string>) returns (p: Progress)
    ensures p == ProbeAll(c, h, Start, tools)
  {
    p := Start;
    for i := 0 to |tools|
      invariant p == ProbeAll(c, h, Start, tools[..i])
    {
      assert tools[..i + 1][..i] == tools[..i];
      p := ProbeTool(c, h, p, tools[i]);
    }
    assert tools[..|tools|] == tools;
  }

  /** `run`, step by step. */
  method Run(inputs: Inputs, h: Host) returns (o: RunOutcome)
    ensures o == RunSpec(inputs, h)
  {
    var runAt := h.clock(0);
    var p := ProbeTools(ConfigOf(inputs, h), h, ParseTools(inputs.tools));
    if inputs.captureNetworkTrace {
      p := AddTrace(h, p);
    }
    assert p == Probed(inputs, h);
    o := FinishRun(inputs, h, runAt, p);
  }
}

/** What a run of the task guarantees. */
module RunFacts {
  import opened Text
  import opened Wrappers
  import opened Runner
  import opened Retry
  import opened Probes
  import opened Archive
  import opened Report
  import opened Sanitizer
  import opened Engine

  /** The spawn a probe makes, as a list of zero or one invocation. */
  function LaunchList(probe: Probe, timeoutSeconds: int): seq<Invocation> {
    match Launch(probe, timeoutSeconds)
    case None => []
    case Some(inv) => [inv]
  }

  /** The spawns of the probes of `tools`, one per recognised probe, in order. */
  function Launches(c: Config, h: Host, tools: seq<string>): (r: seq<Invocation>)
    ensures |r| <= |tools|
    decreases |tools|
  {
    if tools == [] then []
    else Launches(c, h, tools[..|tools| - 1]) + LaunchList(ProbeOf(c, h, tools[|tools| - 1]), c.timeoutSeconds)
  }

  /** One probe: unless `retries` is negative, a recognised probe spawns its command once
      and records what `runTool` made of the spawn's outcome; a negative `retries`
      spawns nothing and records the error `undefined`. A probe decided without spawning
      records that decision. The log file receives what the outcome's text is, redacted
      when redaction is on. */
  lemma ToolStepOutcome(c: Config, h: Host, p: Progress, tool: string)
    ensures var probe := ProbeOf(c, h, tool);
      var q := ToolStep(c, h, p, tool);
      var launch := Launch(probe, c.timeoutSeconds);
      && |q.results| == |p.results| + 1 && q.results[..|p.results|] == p.results
      && q.results[|p.results|].tool == tool
      && q.results[|p.results|].body.Result?
      && q.tick == p.tick + 2
      && (launch.None? ==>
            && q.spawned == p.spawned
            && q.results[|p.results|].body.out == probe.out
            && q.files[LogPath(c, h, tool)] == Write(Text(LogText(probe.out, h.stringify)), c.sanitizeOutputs))
      && (launch.Some? && c.retries >= 0 ==>
            && q.spawned == p.spawned + [launch.value]
            && q.results[|p.results|].body.out == RunTool(h.exec(|p.spawned|, launch.value), c.timeoutSeconds)
            && q.files[LogPath(c, h, tool)]
               == Write(Text(LogText(q.results[|p.results|].body.out, h.stringify)), c.sanitizeOutputs))
      && (launch.Some? && c.retries < 0 ==>
            && q.spawned == p.spawned
            && q.results[|p.results|].body.out == Failed("undefined", NoCode)
            && q.files[LogPath(c, h, tool)] == Write(Text("undefined"), c.sanitizeOutputs))
  {
    var probe := ProbeOf(c, h, tool);
    var launch := Launch(probe, c.timeoutSeconds);
    if launch.Some? {
      AttemptOfTotal(c.retries, Attempts(h, launch.value, c.timeoutSeconds, |p.spawned|));
    }
  }

  /** One probe adds one entry, with a `result`, for its tool and reads the clock twice. */
  lemma ToolStepShape(c: Config, h: Host, p: Progress, tool: string)
    ensures var q := ToolStep(c, h, p, tool);
      && |q.results| == |p.results| + 1 && q.results[..|p.results|] == p.results
      && q.results[|p.results|].tool == tool
      && q.results[|p.results|].body.Result?
      && q.tick == p.tick + 2
  {
    ToolStepOutcome(c, h, p, tool);
  }

  /** `q` extends the entries of `p` by one entry, with a `result`, per tool of `tools`,
      in order, and has read the clock twice per tool. */
  predicate EntriesFor(p: Progress, q: Progress, tools: seq<string>) {
    && |q.results| == |p.results| + |tools|
    && q.results[..|p.results|] == p.results
    && (forall i | 0 <= i < |tools| :: q.results[|p.results| + i].tool == tools[i])
    && (forall i | |p.results| <= i < |q.results| :: q.results[i].body.Result?)
    && q.tick == p.tick + 2 * |tools|
  }

  /** The inductive step of `ProbeAllEntries`, on the values alone. */
  lemma EntriesStep(p: Progress, m: Progress, q: Progress, tools: seq<string>)
    requires tools != []
    requires EntriesFor(p, m, tools[..|tools| - 1])
    requires |q.results| == |m.results| + 1 && q.results[..|m.results|] == m.results
    requires q.results[|m.results|].tool == tools[|tools| - 1]
    requires q.results[|m.results|].body.Result?
    requires q.tick == m.tick + 2
    ensures EntriesFor(p, q, tools)
  {
    var init := tools[..|tools| - 1];
    forall i | 0 <= i < |tools|
      ensures q.results[|p.results| + i].tool == tools[i]
    {
      if i < |tools| - 1 {
        assert q.results[|p.results| + i] == m.results[|p.results| + i];
        assert init[i] == tools[i];
      }
    }
    forall i | |p.results| <= i < |q.results|
      ensures q.results[i].body.Result?
    {
      if i < |m.results| {
        assert q.results[i] == m.results[i];
      }
    }
    assert q.results[..|p.results|] == m.results[..|p.results|];
  }

  /** The loop over the tools: one entry per tool, in order, each with a `result`. */
  lemma {:induction false} ProbeAllEntries(c: Config, h: Host, p: Progress, tools: seq<string>)
    ensures EntriesFor(p, ProbeAll(c, h, p, tools), tools)
    decreases |tools|
  {
    if tools != [] {
      var init := tools[..|tools| - 1];
      ProbeAllEntries(c, h, p, init);
      var m := ProbeAll(c, h, p, init);
      ToolStepShape(c, h, m, tools[|tools| - 1]);
      EntriesStep(p, m, ProbeAll(c, h, p, tools), tools);
    }
  }

  /** The loop adds one entry per tool and reads the clock twice per tool. */
  lemma ProbeAllLength(c: Config, h: Host, p: Progress, tools: seq<string>)
    ensures |ProbeAll(c, h, p, tools).results| == |p.results| + |tools|
    ensures ProbeAll(c, h, p, tools).tick == p.tick + 2 * |tools|
  {
    ProbeAllEntries(c, h, p, tools);
  }

  /** The spawns of the loop over the tools: exactly one per recognised probe, in the
      order of the tools, unless `retries` is negative, when there are none. */
  lemma {:induction false} ProbeAllSpawns(c: Config, h: Host, p: Progress, tools: seq<string>)
    ensures c.retries >= 0 ==> ProbeAll(c, h, p, tools).spawned == p.spawned + Launches(c, h, tools)
    ensures c.retries < 0 ==> ProbeAll(c, h, p, tools).spawned == p.spawned
    decreases |tools|
  {
    if tools != [] {
      var init := tools[..|tools| - 1];
      ProbeAllSpawns(c, h, p, init);
      var m := ProbeAll(c, h, p, init);
      var last := tools[|tools| - 1];
      ToolStepOutcome(c, h, m, last);
      if c.retries >= 0 {
        assert LaunchList(ProbeOf(c, h, last), c.timeoutSeconds)
               == (if Launch(ProbeOf(c, h, last), c.timeoutSeconds).None? then []
                   else [Launch(ProbeOf(c, h, last), c.timeoutSeconds).value]);
        assert p.spawned + Launches(c, h, init) + LaunchList(ProbeOf(c, h, last), c.timeoutSeconds)
               == p.spawned + Launches(c, h, tools);
      }
    }
  }

  /** An unknown tool and the script without a body spawn nothing. */
  lemma ImmediateSpawnsNothing(c: Config, h: Host, tool: string)
    requires KindOf(Lower(tool)) == Unknown || (KindOf(Lower(tool)) == Script && c.customScript == [])
    ensures LaunchList(ProbeOf(c, h, tool), c.timeoutSeconds) == []
    ensures ProbeOf(c, h, tool).Immediate?
  {
    DispatchSpawnsIffKnown(tool, h.platform, h.onPath, c.target, c.timeoutSeconds, c.customScript, c.outDir);
  }

  /** `run` is its loop over the tools followed by its last steps. */
  lemma RunIsFinish(inputs: Inputs, h: Host)
    ensures RunSpec(inputs, h) == Finish(inputs, h, h.clock(0), Probed(inputs, h))
  {
  }

  /** After `n` probes, the trace step appends the trace entry as entry `n`. */
  lemma TraceEntryAt(h: Host, m: Progress, n: nat)
    requires |m.results| == n && m.tick == 1 + 2 * n
    ensures |TraceStep(h, m).results| == n + 1
    ensures TraceStep(h, m).results[..n] == m.results
    ensures TraceStep(h, m).results[n] == TraceEntry(h, 1 + 2 * n)
  {
  }

  /** The trace step, once requested, appends the trace entry as entry `n`. */
  lemma TracedLast(h: Host, m: Progress, n: nat)
    requires |m.results| == n && m.tick == 1 + 2 * n
    ensures |Traced(true, h, m).results| == n + 1 && Traced(true, h, m).results[n] == TraceEntry(h, 1 + 2 * n)
  {
    TraceEntryAt(h, m, n);
  }

  /** The entries after the optional trace step, from those of the loop. */
  lemma TraceStepEntries(capture: bool, h: Host, m: Progress, tools: seq<string>)
    requires |m.results| == |tools| && m.tick == 1 + 2 * |tools|
    requires forall i | 0 <= i < |tools| :: m.results[i].tool == tools[i] && m.results[i].body.Result?
    ensures var p := Traced(capture, h, m);
      && |p.results| == |tools| + (if capture then 1 else 0)
      && (forall i | 0 <= i < |tools| :: p.results[i].tool == tools[i] && p.results[i].body.Result?)
      && (capture ==> p.results[|tools|] == TraceEntry(h, 1 + 2 * |tools|))
  {
    if capture {
      TraceEntryAt(h, m, |tools|);
      var p := TraceStep(h, m);
      forall i | 0 <= i < |tools|
        ensures p.results[i] == m.results[i]
      {
        assert p.results[i] == p.results[..|tools|][i];
      }
    }
  }

  /** The entries once the loop and the trace step are done: one per tool, in order,
      then one more when a capture was requested. */
  lemma ProbedEntries(inputs: Inputs, h: Host)
    ensures var p := Probed(inputs, h);
      var tools := ParseTools(inputs.tools);
      && |p.results| == |tools| + (if inputs.captureNetworkTrace then 1 else 0)
      && (forall i | 0 <= i < |tools| :: p.results[i].tool == tools[i] && p.results[i].body.Result?)
  {
    var tools := ParseTools(inputs.tools);
    var m := ProbeAll(ConfigOf(inputs, h), h, Start, tools);
    ProbeAllEntries(ConfigOf(inputs, h), h, Start, tools);
    TraceStepEntries(inputs.captureNetworkTrace, h, m, tools);
  }

  /** The trace entry follows the tools' entries. */
  lemma ProbedTrace(inputs: Inputs, h: Host)
    requires inputs.captureNetworkTrace
    ensures var p := Probed(inputs, h);
      var n := |ParseTools(inputs.tools)|;
      |p.results| == n + 1 && p.results[n] == TraceEntry(h, 1 + 2 * n)
  {
    var tools := ParseTools(inputs.tools);
    var m := ProbeAll(ConfigOf(inputs, h), h, Start, tools);
    ProbeAllLength(ConfigOf(inputs, h), h, Start, tools);
    TracedLast(h, m, |tools|);
  }

  /** The last steps keep the entries and build the summary from them. */
  lemma FinishEntries(inputs: Inputs, h: Host, runAt: string, p: Progress)
    ensures var o := Finish(inputs, h, runAt, p);
      && o.results == p.results && o.runAt == runAt
      && o.summary == SummaryLines(inputs.target, runAt, h.platform, p.results)
  {
  }

  /** `report.results` holds one entry per listed tool, in order, each with a `result`,
      followed by one more entry exactly when a capture was requested; the summary has
      one line per entry after its header. */
  lemma RunEntries(inputs: Inputs, h: Host)
    ensures var o := RunSpec(inputs, h);
      var tools := ParseTools(inputs.tools);
      && |o.results| == |tools| + (if inputs.captureNetworkTrace then 1 else 0)
      && (forall i | 0 <= i < |tools| :: o.results[i].tool == tools[i] && o.results[i].body.Result?)
      && o.summary == SummaryLines(inputs.target, o.runAt, h.platform, o.results)
      && o.runAt == h.clock(0)
  {
    RunIsFinish(inputs, h);
    ProbedEntries(inputs, h);
    FinishEntries(inputs, h, h.clock(0), Probed(inputs, h));
  }

  /** Whatever entry ends the results also ends the summary, as its own line. */
  lemma FinishLastEntry(inputs: Inputs, h: Host, runAt: string, p: Progress)
    requires |p.results| >= 1
    ensures var o := Finish(inputs, h, runAt, p);
      && o.results == p.results && |o.summary| >= 1
      && o.summary[|o.summary| - 1] == SummaryLine(p.results[|p.results| - 1])
  {
    var lines := SummaryLines(inputs.target, runAt, h.platform, p.results);
    FinishEntries(inputs, h, runAt, p);
    var k := |p.results| - 1;
    assert lines[5 + k] == SummaryLine(p.results[k]);
  }

  /** The trace entry's summary line. */
  lemma TraceLine(h: Host, tick: nat)
    ensures SummaryLine(TraceEntry(h, tick)) == "- " + TraceTool + ": OK"
  {
    SummaryLineMeaning(TraceEntry(h, tick));
  }

  /** With a capture requested, the last entry is `network-trace`, whose `info` says
      whether the platform's capture tool is on the PATH, and its summary line is `OK`. */
  lemma RunTraceEntry(inputs: Inputs, h: Host)
    requires inputs.captureNetworkTrace
    ensures var o := RunSpec(inputs, h);
      var win := IsWindows(h.platform);
      && |o.results| >= 1 && |o.summary| >= 1
      && o.results[|o.results| - 1] == TraceEntry(h, 1 + 2 * |ParseTools(inputs.tools)|)
      && o.results[|o.results| - 1].tool == TraceTool
      && o.results[|o.results| - 1].body == Info(TraceNote(win, FirstOnPath([TraceProbeName(win)], h.onPath).Some?))
      && o.summary[|o.summary| - 1] == "- " + TraceTool + ": OK"
  {
    var n := |ParseTools(inputs.tools)|;
    RunIsFinish(inputs, h);
    ProbedTrace(inputs, h);
    FinishLastEntry(inputs, h, h.clock(0), Probed(inputs, h));
    TraceLine(h, 1 + 2 * n);
  }

  /** The last steps add only the archiving spawns: the native step, then `tar` when
      the native step was rejected. */
  lemma FinishSpawns(inputs: Inputs, h: Host, runAt: string, p: Progress)
    ensures var o := Finish(inputs, h, runAt, p);
      && |p.spawned| <= |o.spawned| && o.spawned[..|p.spawned|] == p.spawned
      && (!inputs.archiveArtifacts ==> o.spawned == p.spawned)
      && (inputs.archiveArtifacts ==> |p.spawned| < |o.spawned| <= |p.spawned| + 2)
  {
    var o := Finish(inputs, h, runAt, p);
    assert o.spawned == p.spawned + ArchiveOutputs(inputs, h, p).spawned;
  }

  /** The spawns of the loop: one per recognised probe, none when `retries` is negative. */
  lemma ProbedSpawns(inputs: Inputs, h: Host)
    ensures var c := ConfigOf(inputs, h);
      Probed(inputs, h).spawned == if c.retries >= 0 then Launches(c, h, ParseTools(inputs.tools)) else []
  {
    var c := ConfigOf(inputs, h);
    var tools := ParseTools(inputs.tools);
    ProbeAllSpawns(c, h, Start, tools);
    assert Probed(inputs, h).spawned == ProbeAll(c, h, Start, tools).spawned;
  }

  /** Every spawn of a run, in order: one per recognised probe (none when `retries` is
      negative), then the archiving steps when archiving is on. */
  lemma RunSpawns(inputs: Inputs, h: Host)
    ensures var o := RunSpec(inputs, h);
      var c := ConfigOf(inputs, h);
      var probes := if c.retries >= 0 then Launches(c, h, ParseTools(inputs.tools)) else [];
      && |probes| <= |o.spawned| && o.spawned[..|probes|] == probes
      && (!inputs.archiveArtifacts ==> o.spawned == probes)
      && (inputs.archiveArtifacts ==> |probes| < |o.spawned| <= |probes| + 2)
  {
    RunIsFinish(inputs, h);
    ProbedSpawns(inputs, h);
    FinishSpawns(inputs, h, h.clock(0), Probed(inputs, h));
  }

  /** The task fails only when archiving is on and both the native archiver and `tar`
      were rejected, with the message of `tar`'s error; the outputs are copied exactly
      when they are archived or saved. */
  lemma FinishStatus(inputs: Inputs, h: Host, runAt: string, p: Progress)
    ensures var o := Finish(inputs, h, runAt, p);
      var dest := Destination(inputs, h);
      var zipFile := ZipFile(inputs, h, p.tick);
      var native := h.exec(|p.spawned|, NativeStep(h.platform, dest, zipFile));
      var tar := h.exec(|p.spawned| + 1, TarStep(dest, zipFile));
      && (o.status.TaskFailed? <==> inputs.archiveArtifacts && native.Rejected? && tar.Rejected?)
      && (o.status.TaskFailed? ==> o.status.message == FailurePrefix + ErrorMessage(Error(tar.message, tar.text)))
      && (o.status.Succeeded? ==> o.status.message == CompletedMessage)
      && (o.copiedTo.Some? <==> inputs.archiveArtifacts || inputs.saveArtifacts)
      && (o.copiedTo.Some? ==> o.copiedTo.value == dest)
  {
  }

  /** Every write other than those at `exempt` hands a string to `writeFile` with
      redaction on. */
  predicate Redacted(files: map<string, Write>, exempt: set<string>) {
    forall path | path in files && path !in exempt :: files[path] == Write(files[path].data, true) && files[path].data.Text?
  }

  lemma ScriptWrittenToScriptFile(c: Config, h: Host, tool: string)
    ensures ProbeOf(c, h, tool).SpawnScript? ==> ProbeOf(c, h, tool).scriptFile == ScriptFile(h.platform, c.outDir)
  {
  }

  /** With redaction on, every log a probe writes is a redacted string. */
  lemma {:induction false} ProbeAllRedacted(c: Config, h: Host, p: Progress, tools: seq<string>)
    requires c.sanitizeOutputs
    requires Redacted(p.files, {ScriptFile(h.platform, c.outDir)})
    ensures Redacted(ProbeAll(c, h, p, tools).files, {ScriptFile(h.platform, c.outDir)})
    decreases |tools|
  {
    if tools != [] {
      ProbeAllRedacted(c, h, p, tools[..|tools| - 1]);
      ScriptWrittenToScriptFile(c, h, tools[|tools| - 1]);
    }
  }

  /** The last steps write `report.json` from the report object and `summary.txt` from
      the summary lines, both through `writeFile`, and leave the other writes as they
      were. */
  lemma FinishFiles(inputs: Inputs, h: Host, runAt: string, p: Progress)
    ensures var w := WrittenFiles(inputs, h, runAt, p);
      var c := ConfigOf(inputs, h);
      var summary := SummaryLines(inputs.target, runAt, h.platform, p.results);
      && ReportPath(c, h) in w && SummaryPath(c, h) in w
      && w[ReportPath(c, h)] == Write(Data(ReportJson(runAt, inputs.target, h.platform, p.results)), inputs.sanitizeOutputs)
      && w[SummaryPath(c, h)] == Write(Text(JoinWith(summary, "\n")), inputs.sanitizeOutputs)
      && (forall path | path in p.files && path != ReportPath(c, h) && path != SummaryPath(c, h) ::
            path in w && w[path] == p.files[path])
      && (forall path | path in w :: path in p.files || path == ReportPath(c, h) || path == SummaryPath(c, h))
  {
    var c := ConfigOf(inputs, h);
    if ReportPath(c, h) == SummaryPath(c, h) {
      JoinPathInjective(h.platform, c.outDir, "report.json", "summary.txt");
    }
  }

  /** The writes a whole run makes, before their text is computed. */
  lemma RunIsWrites(inputs: Inputs, h: Host)
    ensures RunSpec(inputs, h).files == Contents(WrittenFiles(inputs, h, h.clock(0), Probed(inputs, h)), h.pretty)
  {
    RunIsFinish(inputs, h);
  }

  /** With redaction on, every file the run writes holds no run of 20 or more token
      characters, except `report.json`, which is serialised from the report object
      without redaction, and the custom script, which is written as given. */
  lemma RunRedacts(inputs: Inputs, h: Host)
    requires inputs.sanitizeOutputs
    ensures var o := RunSpec(inputs, h);
      var c := ConfigOf(inputs, h);
      forall path | path in o.files && path != ReportPath(c, h) && path != ScriptFile(h.platform, c.outDir)
        :: NoLongRun(o.files[path])
  {
    var c := ConfigOf(inputs, h);
    var exempt := {ScriptFile(h.platform, c.outDir), ReportPath(c, h)};
    ProbedRedacted(inputs, h);
    WrittenRedacted(inputs, h, h.clock(0), Probed(inputs, h));
    RunIsWrites(inputs, h);
    ContentsRedacted(WrittenFiles(inputs, h, h.clock(0), Probed(inputs, h)), exempt, h.pretty);
  }

  /** With redaction on, the probes and the trace write only redacted strings, apart
      from the custom script. */
  lemma ProbedRedacted(inputs: Inputs, h: Host)
    requires inputs.sanitizeOutputs
    ensures Redacted(Probed(inputs, h).files, {ScriptFile(h.platform, ConfigOf(inputs, h).outDir)})
  {
    var c := ConfigOf(inputs, h);
    var tools := ParseTools(inputs.tools);
    ProbeAllRedacted(c, h, Start, tools);
    assert Probed(inputs, h).files == ProbeAll(c, h, Start, tools).files;
  }

  /** The summary is written redacted, and the report is the one more exempt write. */
  lemma WrittenRedacted(inputs: Inputs, h: Host, runAt: string, p: Progress)
    requires inputs.sanitizeOutputs
    requires Redacted(p.files, {ScriptFile(h.platform, ConfigOf(inputs, h).outDir)})
    ensures var c := ConfigOf(inputs, h);
      Redacted(WrittenFiles(inputs, h, runAt, p), {ScriptFile(h.platform, c.outDir), ReportPath(c, h)})
  {
    FinishFiles(inputs, h, runAt, p);
  }

  /** A redacted write leaves no long run in the file's content. */
  lemma ContentsRedacted(w: map<string, Write>, exempt: set<string>, pretty: Json.Value -> string)
    requires Redacted(w, exempt)
    ensures var files := Contents(w, pretty);
      forall path | path in files && path !in exempt :: NoLongRun(files[path])
  {
    var files := Contents(w, pretty);
    forall path | path in files && path !in exempt
      ensures NoLongRun(files[path])
    {
      WrittenTextRedacted(w[path].data, true, pretty);
    }
  }

  /** `report.json` is the indented serialisation of the report object, redaction or
      not, and `summary.txt` the summary lines joined by line feeds, redacted when
      redaction is on. */
  lemma RunReportAndSummary(inputs: Inputs, h: Host)
    ensures var o := RunSpec(inputs, h);
      var c := ConfigOf(inputs, h);
      && ReportPath(c, h) in o.files && SummaryPath(c, h) in o.files
      && o.files[ReportPath(c, h)] == h.pretty(ReportJson(o.runAt, inputs.target, h.platform, o.results))
      && o.files[SummaryPath(c, h)] == FileContent(Text(JoinWith(o.summary, "\n")), inputs.sanitizeOutputs, h.pretty)
  {
    RunIsWrites(inputs, h);
    FinishFiles(inputs, h, h.clock(0), Probed(inputs, h));
    RunIsFinish(inputs, h);
    FinishEntries(inputs, h, h.clock(0), Probed(inputs, h));
  }
}
