/**
 * The retry helper `attempt(name, fn)` nested in `run` (Tasks/NetworkTroubleshootV1/index.js).
 * It calls `fn` at most `retries + 1` times, one call after the other, returns the first
 * value a call returns, and throws the error of the last call when every call throws.
 * With `retries < 0` the loop body never runs and `undefined` is thrown.
 */
module Retry {

  /** A thrown JavaScript value: `undefined`, or an error with its `message` and its
      rendering by `String(err)`. */
  datatype Thrown = Undefined | Error(message: string, text: string)

  /** What one call of a fallible operation does. */
  datatype Try<+T> = Returned(value: T) | Threw(error: Thrown)

  /** The number of calls the loop allows. */
  function Budget(retries: int): nat {
    if retries < 0 then 0 else retries + 1
  }

  /** The loop of `attempt` from call number `i` on, `last` being the error of the
      previous call: the outcome and the number of calls made in all. */
  function AttemptFrom<T>(retries: int, fn: nat -> Try<T>, i: nat, last: Thrown): (Try<T>, nat)
    decreases retries + 1 - i
  {
    if i > retries then (Threw(last), i)
    else
      match fn(i)
      case Returned(v) => (Returned(v), i + 1)
      case Threw(e) => AttemptFrom(retries, fn, i + 1, e)
  }

  /** `attempt(name, fn)`, where `fn(i)` is what the call with index `i` does. */
  function AttemptSpec<T>(retries: int, fn: nat -> Try<T>): (Try<T>, nat) {
    AttemptFrom(retries, fn, 0, Undefined)
  }

  /** `attempt` as the source writes it: a counted loop that keeps the last error. */
  method Attempt<T>(retries: int, fn: nat -> Try<T>) returns (r: Try<T>, calls: nat)
    ensures (r, calls) == AttemptSpec(retries, fn)
  {
    var lastErr: Thrown := Undefined;
    var i: nat := 0;
    while i <= retries
      invariant i <= Budget(retries)
      invariant AttemptFrom(retries, fn, i, lastErr) == AttemptSpec(retries, fn)
      decreases retries + 1 - i
    {
      var res := fn(i);
      if res.Returned? {
        return res, i + 1;
      }
      lastErr := res.error;
      i := i + 1;
    }
    return Threw(lastErr), i;
  }

  /** What the loop from call `i` on does: either some call `k` returns and the calls
      from `i` to `k - 1` all threw, or all remaining calls throw and the outcome is the
      error of the last one (or `last` when none remains). */
  lemma {:induction false} AttemptFromDone<T>(retries: int, fn: nat -> Try<T>, i: nat, last: Thrown)
    requires i <= Budget(retries)
    ensures var (r, calls) := AttemptFrom(retries, fn, i, last);
      && i <= calls <= Budget(retries)
      && (forall j | i <= j < calls - 1 :: fn(j).Threw?)
      && (r.Returned? ==> calls > i && fn(calls - 1) == r)
      && (r.Threw? ==> calls == Budget(retries) && (calls > i ==> fn(calls - 1) == r)
                       && (calls == i ==> r == Threw(last)))
    decreases retries + 1 - i
  {
    if i <= retries && fn(i).Threw? {
      AttemptFromDone(retries, fn, i + 1, fn(i).error);
    }
  }

  /** `attempt` makes at most `retries + 1` calls (none when `retries < 0`). It returns
      the value of the first call that does not throw, all earlier calls having thrown;
      otherwise every allowed call threw and it rethrows the last error, or `undefined`
      when no call was allowed. */
  lemma AttemptOutcome<T>(retries: int, fn: nat -> Try<T>)
    ensures var (r, calls) := AttemptSpec(retries, fn);
      && calls <= Budget(retries)
      && (r.Returned? ==> calls >= 1 && fn(calls - 1) == r
                          && forall j | 0 <= j < calls - 1 :: fn(j).Threw?)
      && (r.Threw? ==> calls == Budget(retries) && (forall j | 0 <= j < calls :: fn(j).Threw?)
                       && (calls == 0 ==> r == Threw(Undefined))
                       && (calls > 0 ==> r == fn(calls - 1)))
  {
    AttemptFromDone(retries, fn, 0, Undefined);
  }

  /** When no call throws, `attempt` makes exactly one call and returns its value, unless
      `retries < 0`, in which case it makes none and throws `undefined`. */
  lemma AttemptOfTotal<T>(retries: int, fn: nat -> Try<T>)
    requires forall i :: fn(i).Returned?
    ensures AttemptSpec(retries, fn)
            == if retries < 0 then (Threw(Undefined), 0) else (fn(0), 1)
  {
  }
}
