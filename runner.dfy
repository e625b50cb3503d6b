/**
 * `runTool` (Tasks/NetworkTroubleshootV1/index.js): one invocation of an external command
 * through `execFile`, whose settled promise is classified into captured output or an
 * error record. Spawning is not modelled: what `execFile` settles with is an input.
 */
module Runner {
  import opened Text
  import opened Wrappers
  import Json

  /** `err.code` of a rejected `execFile`: absent, `null` (a child ended by a signal), an
      exit status, or a system error name. */
  datatype ErrCode = NoCode | NullCode | Status(n: int) | Named(name: string)

  /** How an `execFile` call settles: fulfilled with the captured streams, or rejected
      with an error whose `killed`, `signal`, `message`, `String(err)` and `code` matter. */
  datatype ExecResult =
    | Exited(stdout: string, stderr: string)
    | Rejected(killed: bool, signal: string, message: string, text: string, code: ErrCode)

  /** One call of `execFile(cmd, args, options)`; only `cwd` and `timeout` are ever set. */
  datatype Invocation = Invocation(cmd: string, args: seq<string>, cwd: Option<string>, timeoutMs: Option<int>)

  /** The object `runTool` resolves with: `{stdout, stderr}` or `{error, code}`, where a
      timeout carries no `code`. */
  datatype ToolOut = Captured(stdout: string, stderr: string) | Failed(error: string, code: ErrCode)

  const DefaultTimeoutSeconds: int := 30

  /** `(timeoutSeconds || 30) * 1000`. */
  function TimeoutMs(timeoutSeconds: int): (ms: int)
    ensures timeoutSeconds != 0 ==> ms == timeoutSeconds * 1000
    ensures timeoutSeconds == 0 ==> ms == DefaultTimeoutSeconds * 1000
  {
    (if timeoutSeconds == 0 then DefaultTimeoutSeconds else timeoutSeconds) * 1000
  }

  /** The `execFile` call `runTool(cmd, args, {}, timeoutSeconds)` makes. */
  function ToolInvocation(cmd: string, args: seq<string>, timeoutSeconds: int): Invocation {
    Invocation(cmd, args, None, Some(TimeoutMs(timeoutSeconds)))
  }

  const TimedOutPrefix := "Timed out after "

  /** `Timed out after ${timeoutSeconds}s`. */
  function TimeoutMessage(timeoutSeconds: int): string {
    TimedOutPrefix + IntToString(timeoutSeconds) + "s"
  }

  /** The timeout test: the child was killed or ended by SIGTERM. */
  predicate IsTimeout(e: ExecResult)
    requires e.Rejected?
  {
    e.killed || e.signal == "SIGTERM"
  }

  /** `runTool`: resolves for every settlement of `execFile`, so it never throws. */
  function RunTool(result: ExecResult, timeoutSeconds: int): (out: ToolOut)
    ensures out.Captured? <==> result.Exited?
    ensures result.Exited? ==> out.stdout == result.stdout && out.stderr == result.stderr
    ensures result.Rejected? && IsTimeout(result) ==>
              out.error == TimeoutMessage(timeoutSeconds) && out.code == NoCode
    ensures result.Rejected? && !IsTimeout(result) ==>
              out.code == result.code
              && (result.message != [] ==> out.error == result.message)
              && (result.message == [] ==> out.error == result.text)
  {
    match result
    case Exited(o, e) => Captured(o, e)
    case Rejected(killed, signal, message, text, code) =>
      if killed || signal == "SIGTERM" then Failed(TimeoutMessage(timeoutSeconds), NoCode)
      else Failed(if message != [] then message else text, code)
  }

  /** A timeout message names the timeout, so it can be told apart from the error
      messages of other failures, and its length grows with the number of digits. */
  lemma TimeoutMessageShape(timeoutSeconds: int)
    ensures var m := TimeoutMessage(timeoutSeconds);
      && m[..|TimedOutPrefix|] == TimedOutPrefix
      && m[|m| - 1] == 's'
      && |m| == |TimedOutPrefix| + |IntToString(timeoutSeconds)| + 1
  {
  }

  /** Distinct timeouts give distinct messages. */
  lemma {:induction false} NatToStringInjective(a: nat, b: nat)
    requires NatToString(a) == NatToString(b)
    ensures a == b
    decreases a
  {
    if a < 10 && b < 10 {
      DigitsDiffer(a, b);
    } else if a < 10 {
      NatToStringLong(b);
    } else if b < 10 {
      NatToStringLong(a);
    } else {
      var sa, sb := NatToString(a / 10), NatToString(b / 10);
      assert sa + [DigitChar(a % 10)] == sb + [DigitChar(b % 10)];
      NatToStringLong(a);
      NatToStringLong(b);
      assert |sa| == |sb|;
      assert sa == (sa + [DigitChar(a % 10)])[..|sa|];
      assert sb == (sb + [DigitChar(b % 10)])[..|sb|];
      NatToStringInjective(a / 10, b / 10);
      DigitsDiffer(a % 10, b % 10);
    }
  }

  lemma DigitsDiffer(a: nat, b: nat)
    requires a < 10 && b < 10 && DigitChar(a) == DigitChar(b)
    ensures a == b
  {
  }

  lemma NatToStringLong(n: nat)
    requires n >= 10
    ensures |NatToString(n)| >= 2
  {
  }

  lemma IntToStringInjective(a: int, b: int)
    requires IntToString(a) == IntToString(b)
    ensures a == b
  {
    if a < 0 && b < 0 {
      assert NatToString(-a) == IntToString(a)[1..];
      assert NatToString(-b) == IntToString(b)[1..];
      NatToStringInjective(-a, -b);
    } else if a >= 0 && b >= 0 {
      NatToStringInjective(a, b);
    }
  }

  /** The timeout message determines the timeout it reports. */
  lemma TimeoutMessageInjective(a: int, b: int)
    requires TimeoutMessage(a) == TimeoutMessage(b)
    ensures a == b
  {
    var ma, mb := TimeoutMessage(a), TimeoutMessage(b);
    assert IntToString(a) == ma[|TimedOutPrefix|..|ma| - 1];
    assert IntToString(b) == mb[|TimedOutPrefix|..|mb| - 1];
    IntToStringInjective(a, b);
  }

  /** The `code` field as JSON: `null` stays `null`. */
  function CodeJson(code: ErrCode): (v: Json.Value)
    requires !code.NoCode?
    ensures v.Null? <==> code.NullCode?
  {
    match code
    case NullCode => Json.Null
    case Status(n) => Json.Number(n)
    case Named(name) => Json.Str(name)
  }

  /** The object `runTool` resolves with, as JSON sees it: an absent `code` is no field. */
  function ToJson(out: ToolOut): (v: Json.Value)
    ensures v.Object? && |v.fields| >= 1
    ensures out.Captured? ==> v.fields == [("stdout", Json.Str(out.stdout)), ("stderr", Json.Str(out.stderr))]
    ensures out.Failed? ==>
              && v.fields[0] == ("error", Json.Str(out.error))
              && (|v.fields| == 2 <==> !out.code.NoCode?)
              && (|v.fields| == 2 ==> v.fields[1] == ("code", CodeJson(out.code)))
              && |v.fields| <= 2
  {
    match out
    case Captured(o, e) => Json.Object([("stdout", Json.Str(o)), ("stderr", Json.Str(e))])
    case Failed(error, NoCode) => Json.Object([("error", Json.Str(error))])
    case Failed(error, code) => Json.Object([("error", Json.Str(error)), ("code", CodeJson(code))])
  }

  /** No two outcomes have the same JSON object. */
  lemma ToJsonInjective(a: ToolOut, b: ToolOut)
    requires ToJson(a) == ToJson(b)
    ensures a == b
  {
    if a.Failed? && b.Failed? && !a.code.NoCode? && !b.code.NoCode? {
      assert CodeJson(a.code) == CodeJson(b.code);
    }
  }
}
