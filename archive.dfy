/**
 * `zipDirectory(sourceDir, outPath)` (Tasks/NetworkTroubleshootV1/index.js): the platform's
 * native archiver first, then `tar` as the only fallback. Which archivers exist and how
 * they fare is what the `exec` oracle answers for each spawn.
 */
module Archive {
  import opened Text
  import opened Wrappers
  import opened Runner
  import opened Retry
  import opened Probes

  /** The outcome of every spawn the task makes, by its position among all spawns. */
  type ExecOracle = (nat, Invocation) -> ExecResult

  const ArchiveTimeoutMs: int := 120000

  /** The first strategy: PowerShell `Compress-Archive` on Windows, `zip -r` elsewhere. */
  function NativeStep(platform: string, sourceDir: string, outPath: string): Invocation {
    if IsWindows(platform) then
      Invocation("powershell",
                 ["-NoProfile", "-Command",
                  "Compress-Archive -Path '" + sourceDir + "\\*' -DestinationPath '" + outPath + "' -Force"],
                 None, Some(ArchiveTimeoutMs))
    else
      Invocation("zip", ["-r", outPath, "."], Some(sourceDir), Some(ArchiveTimeoutMs))
  }

  /** The `.tar.gz` name: a trailing `.zip` (exactly in that case) is replaced, any other
      name gets the suffix appended. */
  function TarPath(outPath: string): string {
    if EndsWith(outPath, ".zip") then outPath[..|outPath| - 4] + ".tar.gz" else outPath + ".tar.gz"
  }

  /** The fallback: `tar -czf <tarPath> -C <sourceDir> .`, with no timeout. */
  function TarStep(sourceDir: string, outPath: string): Invocation {
    Invocation("tar", ["-czf", TarPath(outPath), "-C", sourceDir, "."], None, None)
  }

  /** The error a rejected `execFile` throws. */
  function ThrownBy(e: ExecResult): Thrown
    requires e.Rejected?
  {
    Error(e.message, e.text)
  }

  /** What `zipDirectory` does: it spawns the native step and, only when that is
      rejected, `tar`; it throws only the error of a rejected `tar`. The result is the
      spawns made, in order, and the error thrown, if any; `base` is the number of spawns
      made before. */
  function ZipSpec(platform: string, sourceDir: string, outPath: string, exec: ExecOracle, base: nat)
    : (r: (seq<Invocation>, Option<Thrown>))
    ensures var (spawned, failure) := r;
      && 1 <= |spawned| <= 2
      && spawned[0] == NativeStep(platform, sourceDir, outPath)
      && (|spawned| == 2 <==> exec(base, spawned[0]).Rejected?)
      && (|spawned| == 2 ==> spawned[1] == TarStep(sourceDir, outPath))
      && (failure.Some? <==> |spawned| == 2 && exec(base + 1, spawned[1]).Rejected?)
      && (failure.Some? ==> failure.value == ThrownBy(exec(base + 1, spawned[1])))
  {
    var native := NativeStep(platform, sourceDir, outPath);
    var tar := TarStep(sourceDir, outPath);
    if exec(base, native).Exited? then ([native], None)
    else if exec(base + 1, tar).Exited? then ([native, tar], None)
    else ([native, tar], Some(ThrownBy(exec(base + 1, tar))))
  }

  /** `zipDirectory(sourceDir, outPath)`, step by step. */
  method ZipDirectory(platform: string, sourceDir: string, outPath: string, exec: ExecOracle, base: nat)
    returns (spawned: seq<Invocation>, failure: Option<Thrown>)
    ensures (spawned, failure) == ZipSpec(platform, sourceDir, outPath, exec, base)
  {
    var native := NativeStep(platform, sourceDir, outPath);
    spawned := [native];
    if exec(base, native).Exited? {
      return spawned, None;
    }
    var tar := TarStep(sourceDir, outPath);
    spawned := spawned + [tar];
    assert spawned == [native, tar];
    var res := exec(base + 1, tar);
    if res.Rejected? {
      return spawned, Some(ThrownBy(res));
    }
    return spawned, None;
  }

  /** Every fallback archive is a `.tar.gz`. */
  lemma TarPathSuffix(outPath: string)
    ensures EndsWith(TarPath(outPath), ".tar.gz")
  {
    var t := TarPath(outPath);
    assert t[|t| - 7..] == ".tar.gz";
  }

  /** A `.zip` name loses exactly that suffix. */
  lemma TarPathOfZip(stem: string)
    ensures TarPath(stem + ".zip") == stem + ".tar.gz"
  {
    var p := stem + ".zip";
    assert p[|p| - 4..] == ".zip";
    assert p[..|p| - 4] == stem;
  }

  /** Any other name, `X.ZIP` included, is kept whole. */
  lemma TarPathOfOther(outPath: string)
    requires !EndsWith(outPath, ".zip")
    ensures TarPath(outPath) == outPath + ".tar.gz"
  {
  }

  /** The replacement is case-sensitive: an upper-case `.ZIP` is not removed. */
  lemma UpperZipKept(stem: string)
    ensures TarPath(stem + ".ZIP") == stem + ".ZIP.tar.gz"
  {
    var p := stem + ".ZIP";
    assert p[|p| - 4..] == ".ZIP";
    assert p + ".tar.gz" == stem + ".ZIP.tar.gz";
  }

  /** Two names share a fallback name only when they are equal or exactly one of them
      ends in `.zip`, as `x.zip` and `x` do. */
  lemma TarPathInjective(a: string, b: string)
    requires TarPath(a) == TarPath(b)
    ensures a == b || (EndsWith(a, ".zip") != EndsWith(b, ".zip"))
  {
    if EndsWith(a, ".zip") && EndsWith(b, ".zip") {
      assert a == a[..|a| - 4] + ".zip";
      assert b == b[..|b| - 4] + ".zip";
      assert a[..|a| - 4] == TarPath(a)[..|TarPath(a)| - 7];
      assert b[..|b| - 4] == TarPath(b)[..|TarPath(b)| - 7];
    } else if !EndsWith(a, ".zip") && !EndsWith(b, ".zip") {
      assert a == TarPath(a)[..|TarPath(a)| - 7];
      assert b == TarPath(b)[..|TarPath(b)| - 7];
    }
  }
}
