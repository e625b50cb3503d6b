/**
 * Executable discovery (`findExecutable`) and the per-tool dispatch chain of `run`
 * (Tasks/NetworkTroubleshootV1/index.js): which command, with which arguments, a
 * diagnostic name stands for on a platform, given which executables are on the PATH.
 */
module Probes {
  import opened Text
  import opened Wrappers
  import opened Runner

  /** `which n` / `where n` succeeds with non-blank output; a failing lookup is `false`. */
  type PathOracle = string -> bool

  predicate IsWindows(platform: string) { platform == "win32" }

  /** The first candidate the PATH lookup accepts, or `None` for `null`. */
  function FirstOnPath(names: seq<string>, onPath: PathOracle): (r: Option<string>)
    ensures r.Some? ==> exists i | 0 <= i < |names| ::
              names[i] == r.value && onPath(names[i]) && forall j | 0 <= j < i :: !onPath(names[j])
    ensures r.None? <==> forall i | 0 <= i < |names| :: !onPath(names[i])
  {
    if names == [] then None
    else if onPath(names[0]) then Some(names[0])
    else
      var r := FirstOnPath(names[1..], onPath);
      assert forall i | 1 <= i < |names| :: names[i] == names[1..][i - 1];
      r
  }

  /** `findExecutable(names)`: a loop over the candidates returning the first one found. */
  method FindExecutable(names: seq<string>, onPath: PathOracle) returns (r: Option<string>)
    ensures r == FirstOnPath(names, onPath)
  {
    for k := 0 to |names|
      invariant FirstOnPath(names, onPath) == FirstOnPath(names[k..], onPath)
    {
      assert names[k..][1..] == names[k + 1..];
      if onPath(names[k]) {
        return Some(names[k]);
      }
    }
    return None;
  }

  /** `findExecutable(names) || fallback`. */
  function FoundOr(names: seq<string>, onPath: PathOracle, fallback: string): string {
    FirstOnPath(names, onPath).GetOr(fallback)
  }

  /** What a diagnostic name starts: an external command (after writing `scriptBody` to
      `scriptFile` for the custom script), or an outcome decided without spawning. */
  datatype Probe =
    | Spawn(cmd: string, args: seq<string>)
    | SpawnScript(scriptFile: string, scriptBody: string, cmd: string, args: seq<string>)
    | Immediate(out: ToolOut)

  /** `path.join(dir, name)` for a name without separators; normalisation is not modelled. */
  function JoinPath(platform: string, dir: string, name: string): string {
    dir + (if IsWindows(platform) then "\\" else "/") + name
  }

  /** Different names in one directory are different paths. */
  lemma JoinPathInjective(platform: string, dir: string, a: string, b: string)
    requires JoinPath(platform, dir, a) == JoinPath(platform, dir, b)
    ensures a == b
  {
    var n := |dir| + 1;
    assert a == JoinPath(platform, dir, a)[n..];
    assert b == JoinPath(platform, dir, b)[n..];
  }

  /** The PowerShell one-liner the `https` probe runs on Windows. */
  function WebRequestCommand(target: string, timeoutSeconds: int): string {
    "try { (Invoke-WebRequest -Uri \"https://" + target + "\" -UseBasicParsing -Method Head -TimeoutSec "
      + IntToString(timeoutSeconds) + ").StatusCode } catch { $_.Exception.Message }"
  }

  function ScriptFile(platform: string, outDir: string): string {
    JoinPath(platform, outDir, "custom-script." + (if IsWindows(platform) then "ps1" else "sh"))
  }

  /** The diagnostics the chain recognises; `Interfaces` answers to both `ifconfig`
      and `ipconfig`. */
  datatype Kind = Ping | Dns | Traceroute | Https | Netstat | Interfaces | Script | Unknown

  /** Which branch of the chain a lower-cased name takes. */
  function KindOf(name: string): Kind {
    if name == "ping" then Ping
    else if name == "dns" then Dns
    else if name == "traceroute" then Traceroute
    else if name == "https" then Https
    else if name == "netstat" then Netstat
    else if name == "ifconfig" || name == "ipconfig" then Interfaces
    else if name == "script" then Script
    else Unknown
  }

  const NoScriptMessage := "No custom script provided"
  const UnknownPrefix := "Unknown tool: "

  /** `ping`: four echo requests, except on Windows, whose `ping` sends four anyway. */
  function PingProbe(win: bool, target: string): Probe {
    Spawn("ping", if win then [target] else ["-c", "4", target])
  }

  /** `dns`: `nslookup` on Windows, otherwise `dig`, or else `nslookup`. */
  function DnsProbe(win: bool, onPath: PathOracle, target: string): Probe {
    Spawn(if win then FoundOr(["nslookup"], onPath, "nslookup") else FoundOr(["dig", "nslookup"], onPath, "dig"),
          [target])
  }

  /** `traceroute`: `tracert` on Windows, otherwise `traceroute`, or else `tracepath`. */
  function TracerouteProbe(win: bool, onPath: PathOracle, target: string): Probe {
    Spawn(if win then "tracert" else FoundOr(["traceroute", "tracepath"], onPath, "traceroute"), [target])
  }

  /** `https`: a HEAD request, through PowerShell on Windows and `curl` elsewhere. */
  function HttpsProbe(win: bool, onPath: PathOracle, target: string, timeoutSeconds: int): Probe {
    if win then Spawn("powershell", ["-NoProfile", "-Command", WebRequestCommand(target, timeoutSeconds)])
    else
      var curl := FirstOnPath(["curl"], onPath);
      Spawn(curl.GetOr("curl"),
            if curl.Some? then ["-I", "--max-time", IntToString(timeoutSeconds), "https://" + target]
            else ["-I", "https://" + target])
  }

  /** `netstat`: `netstat` on Windows, otherwise `ss`, or else `netstat`. */
  function NetstatProbe(win: bool, onPath: PathOracle): Probe {
    Spawn(if win then "netstat" else FoundOr(["ss", "netstat"], onPath, "netstat"), ["-an"])
  }

  /** `ifconfig` and `ipconfig`: `ipconfig /all` on Windows, otherwise `ifconfig`, or
      else `ip addr`. */
  function InterfacesProbe(win: bool, onPath: PathOracle): Probe {
    if win then Spawn("ipconfig", ["/all"])
    else
      var cmd := FoundOr(["ifconfig", "ip"], onPath, "ifconfig");
      Spawn(cmd, if cmd == "ip" then ["addr"] else [])
  }

  /** `script`: the custom script, written into the output directory and run by
      PowerShell on Windows and directly elsewhere; nothing to run when it is empty. */
  function CustomScriptProbe(platform: string, customScript: string, outDir: string): Probe {
    if customScript == [] then Immediate(Failed(NoScriptMessage, NoCode))
    else
      var file := ScriptFile(platform, outDir);
      SpawnScript(file, customScript,
                  if IsWindows(platform) then "powershell" else file,
                  if IsWindows(platform) then ["-NoProfile", "-ExecutionPolicy", "Bypass", "-File", file] else [])
  }

  /** The body of one branch of the chain; `tool` is the name as written. */
  function ProbeFor(kind: Kind, tool: string, platform: string, onPath: PathOracle, target: string,
                    timeoutSeconds: int, customScript: string, outDir: string): Probe
  {
    var win := IsWindows(platform);
    match kind
    case Ping => PingProbe(win, target)
    case Dns => DnsProbe(win, onPath, target)
    case Traceroute => TracerouteProbe(win, onPath, target)
    case Https => HttpsProbe(win, onPath, target, timeoutSeconds)
    case Netstat => NetstatProbe(win, onPath)
    case Interfaces => InterfacesProbe(win, onPath)
    case Script => CustomScriptProbe(platform, customScript, outDir)
    case Unknown => Immediate(Failed(UnknownPrefix + tool, NoCode))
  }

  /** The dispatch chain on `tool.toLowerCase()`. */
  function Dispatch(tool: string, platform: string, onPath: PathOracle, target: string,
                    timeoutSeconds: int, customScript: string, outDir: string): Probe
  {
    ProbeFor(KindOf(Lower(tool)), tool, platform, onPath, target, timeoutSeconds, customScript, outDir)
  }

  /** A probe starts a command exactly when its name is known, case-insensitively, and it
      is not the custom script without a script. An unknown name fails with an error that
      quotes the name as written; the script without a body fails with its own message. */
  lemma DispatchSpawnsIffKnown(tool: string, platform: string, onPath: PathOracle, target: string,
                               timeoutSeconds: int, customScript: string, outDir: string)
    ensures var k := KindOf(Lower(tool));
      var p := Dispatch(tool, platform, onPath, target, timeoutSeconds, customScript, outDir);
      && (p.Immediate? <==> k == Unknown || (k == Script && customScript == []))
      && (k == Unknown ==> p == Immediate(Failed(UnknownPrefix + tool, NoCode)))
      && (k == Script && customScript == [] ==> p == Immediate(Failed(NoScriptMessage, NoCode)))
      && (p.SpawnScript? <==> k == Script && customScript != [])
  {
  }

  /** Names that differ only in ASCII case select the same probe, unless unknown. */
  lemma DispatchIgnoresCase(a: string, b: string, platform: string, onPath: PathOracle, target: string,
                            timeoutSeconds: int, customScript: string, outDir: string)
    requires Lower(a) == Lower(b) && KindOf(Lower(a)) != Unknown
    ensures Dispatch(a, platform, onPath, target, timeoutSeconds, customScript, outDir)
            == Dispatch(b, platform, onPath, target, timeoutSeconds, customScript, outDir)
  {
  }

  /** `ifconfig` and `ipconfig` are one probe. */
  lemma InterfaceNamesAgree(a: string, b: string, platform: string, onPath: PathOracle, target: string,
                            timeoutSeconds: int, customScript: string, outDir: string)
    requires Lower(a) == "ifconfig" && Lower(b) == "ipconfig"
    ensures Dispatch(a, platform, onPath, target, timeoutSeconds, customScript, outDir)
            == Dispatch(b, platform, onPath, target, timeoutSeconds, customScript, outDir)
  {
  }

  /** On Windows the commands are fixed: `ping target`, `nslookup target` (whether or not
      it is found), `tracert target`, a PowerShell HEAD request, `netstat -an` and
      `ipconfig /all`. */
  lemma WindowsCommands(tool: string, platform: string, onPath: PathOracle, target: string,
                        timeoutSeconds: int, customScript: string, outDir: string)
    requires IsWindows(platform)
    ensures var p := ProbeFor(KindOf(Lower(tool)), tool, platform, onPath, target, timeoutSeconds, customScript, outDir);
      && (KindOf(Lower(tool)) == Ping ==> p == Spawn("ping", [target]))
      && (KindOf(Lower(tool)) == Dns ==> p == Spawn("nslookup", [target]))
      && (KindOf(Lower(tool)) == Traceroute ==> p == Spawn("tracert", [target]))
      && (KindOf(Lower(tool)) == Https ==>
            p == Spawn("powershell", ["-NoProfile", "-Command", WebRequestCommand(target, timeoutSeconds)]))
      && (KindOf(Lower(tool)) == Netstat ==> p == Spawn("netstat", ["-an"]))
      && (KindOf(Lower(tool)) == Interfaces ==> p == Spawn("ipconfig", ["/all"]))
  {
  }

  /** Elsewhere, when the PATH lookup finds nothing, every probe falls back to its first
      choice: `ping -c 4`, `dig`, `traceroute`, `curl -I` without `--max-time`, `netstat -an`
      and a bare `ifconfig`. */
  lemma UnixDefaults(tool: string, platform: string, onPath: PathOracle, target: string,
                     timeoutSeconds: int, customScript: string, outDir: string)
    requires !IsWindows(platform)
    requires forall n :: !onPath(n)
    ensures var p := ProbeFor(KindOf(Lower(tool)), tool, platform, onPath, target, timeoutSeconds, customScript, outDir);
      && (KindOf(Lower(tool)) == Ping ==> p == Spawn("ping", ["-c", "4", target]))
      && (KindOf(Lower(tool)) == Dns ==> p == Spawn("dig", [target]))
      && (KindOf(Lower(tool)) == Traceroute ==> p == Spawn("traceroute", [target]))
      && (KindOf(Lower(tool)) == Https ==> p == Spawn("curl", ["-I", "https://" + target]))
      && (KindOf(Lower(tool)) == Netstat ==> p == Spawn("netstat", ["-an"]))
      && (KindOf(Lower(tool)) == Interfaces ==> p == Spawn("ifconfig", []))
  {
  }

  /** Elsewhere, a candidate is chosen only when it is found and every preferred one is
      not: `nslookup` only without `dig`, `tracepath` only without `traceroute`, `ss`
      whenever found, and `ip` (with `addr`) only without `ifconfig`; `curl` gets
      `--max-time` exactly when found. */
  lemma UnixSelection(tool: string, platform: string, onPath: PathOracle, target: string,
                      timeoutSeconds: int, customScript: string, outDir: string)
    requires !IsWindows(platform)
    ensures var p := ProbeFor(KindOf(Lower(tool)), tool, platform, onPath, target, timeoutSeconds, customScript, outDir);
      && (KindOf(Lower(tool)) == Dns ==>
            p == Spawn(if !onPath("dig") && onPath("nslookup") then "nslookup" else "dig", [target]))
      && (KindOf(Lower(tool)) == Traceroute ==>
            p == Spawn(if !onPath("traceroute") && onPath("tracepath") then "tracepath" else "traceroute", [target]))
      && (KindOf(Lower(tool)) == Netstat ==> p == Spawn(if onPath("ss") then "ss" else "netstat", ["-an"]))
      && (KindOf(Lower(tool)) == Interfaces ==>
            p == if !onPath("ifconfig") && onPath("ip") then Spawn("ip", ["addr"]) else Spawn("ifconfig", []))
      && (KindOf(Lower(tool)) == Https ==>
            p == Spawn("curl", if onPath("curl") then ["-I", "--max-time", IntToString(timeoutSeconds), "https://" + target]
                               else ["-I", "https://" + target]))
  {
    assert ["dig", "nslookup"][1..] == ["nslookup"];
    assert ["traceroute", "tracepath"][1..] == ["tracepath"];
    assert ["ss", "netstat"][1..] == ["netstat"];
    assert ["ifconfig", "ip"][1..] == ["ip"];
  }

  /** The custom script is written into the output directory with the platform's
      extension and run directly, or through PowerShell on Windows. */
  lemma ScriptProbe(tool: string, platform: string, onPath: PathOracle, target: string,
                    timeoutSeconds: int, customScript: string, outDir: string)
    requires KindOf(Lower(tool)) == Script && customScript != []
    ensures var file := JoinPath(platform, outDir, if IsWindows(platform) then "custom-script.ps1" else "custom-script.sh");
      Dispatch(tool, platform, onPath, target, timeoutSeconds, customScript, outDir)
      == if IsWindows(platform)
         then SpawnScript(file, customScript, "powershell", ["-NoProfile", "-ExecutionPolicy", "Bypass", "-File", file])
         else SpawnScript(file, customScript, file, [])
  {
    assert "custom-script." + "ps1" == "custom-script.ps1";
    assert "custom-script." + "sh" == "custom-script.sh";
  }
}
