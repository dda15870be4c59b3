/**
 * The bounded retry policy of app/utils/web3_client.py (`async_retry`): the wrapped function
 * is called at most `maxRetries` times, the first success is returned, the wrapper sleeps
 * `delay` between failed attempts and re-raises the last exception.
 *
 * The wrapped function is given as a script: `attempt(k)` is what its k-th call (from 0)
 * returns or raises, together with the effects that call had on the outside world.
 */
module RetryPolicy {
  import opened Exceptions

  /** One call of the wrapped function: its outcome and the effects it had, in order. */
  datatype Attempt<+T, +E> = Attempt(outcome: Result<T>, effects: seq<E>)

  /**
   * One call of the wrapper: its result, how many times it called the wrapped function,
   * how many times it slept, the total time slept, and every effect of every call in order.
   */
  datatype RetryRun<+T, +E> = RetryRun(result: Result<T>, calls: nat, sleeps: nat, slept: nat, log: seq<E>)

  /** The effects of the first n calls, in call order. */
  function CallLog<T, E>(attempt: nat -> Attempt<T, E>, n: nat): seq<E>
  {
    if n == 0 then [] else CallLog(attempt, n - 1) + attempt(n - 1).effects
  }

  /** The first of the first n calls that returns, if any. */
  function FirstSuccess<T, E>(attempt: nat -> Attempt<T, E>, n: nat): (k: Option<nat>)
    ensures k.Some? ==> k.value < n && attempt(k.value).outcome.Ok?
    ensures forall j: nat :: j < n && (k.None? || j < k.value) ==> attempt(j).outcome.Err?
  {
    if n == 0 then None
    else match FirstSuccess(attempt, n - 1)
      case Some(j) => Some(j)
      case None => if attempt(n - 1).outcome.Ok? then Some(n - 1) else None
  }

  /** What one call of the wrapper does, as a value. */
  function Retry<T, E>(maxRetries: nat, delay: nat, attempt: nat -> Attempt<T, E>): (run: RetryRun<T, E>)
    ensures run.calls <= maxRetries
    ensures run.sleeps == (if run.calls == 0 then 0 else run.calls - 1)
    ensures run.slept == run.sleeps * delay
    ensures run.log == CallLog(attempt, run.calls)
    ensures run.result.Ok? <==> exists k: nat :: k < maxRetries && attempt(k).outcome.Ok?
    ensures run.result.Ok? ==>
      && run.calls >= 1
      && run.result == attempt(run.calls - 1).outcome
      && forall j: nat :: j < run.calls - 1 ==> attempt(j).outcome.Err?
    ensures run.result.Err? && maxRetries > 0 ==>
      run.calls == maxRetries && run.result == attempt(maxRetries - 1).outcome
    ensures maxRetries == 0 ==> run.result == Err(NoneRaised) && run.calls == 0
  {
    match FirstSuccess(attempt, maxRetries)
    case Some(k) => RetryRun(attempt(k).outcome, k + 1, k, k * delay, CallLog(attempt, k + 1))
    case None =>
      if maxRetries == 0 then RetryRun(Err(NoneRaised), 0, 0, 0, [])
      else RetryRun(attempt(maxRetries - 1).outcome, maxRetries, maxRetries - 1,
                    (maxRetries - 1) * delay, CallLog(attempt, maxRetries))
  }

  /** The wrapper itself: the loop over `range(max_retries)`. */
  method AsyncRetry<T, E>(maxRetries: nat, delay: nat, attempt: nat -> Attempt<T, E>) returns (run: RetryRun<T, E>)
    ensures run == Retry(maxRetries, delay, attempt)
  {
    var lastException: Option<Exception> := None;
    var sleeps, slept, log := 0, 0, [];
    var i := 0;
    while i < maxRetries
      invariant i <= maxRetries
      invariant FirstSuccess(attempt, i).None?
      invariant i == 0 ==> lastException.None?
      invariant i > 0 ==> lastException == Some(attempt(i - 1).outcome.error)
      invariant sleeps == (if i == maxRetries && i > 0 then i - 1 else i)
      invariant slept == sleeps * delay
      invariant log == CallLog(attempt, i)
    {
      var a := attempt(i);
      log := log + a.effects;
      match a.outcome {
        case Ok(v) =>
          return RetryRun(Ok(v), i + 1, sleeps, slept, log);
        case Err(e) =>
          lastException := Some(e);
          if i < maxRetries - 1 {
            sleeps, slept := sleeps + 1, slept + delay;
          }
      }
      i := i + 1;
    }
    match lastException {
      case None => run := RetryRun(Err(NoneRaised), i, sleeps, slept, log);
      case Some(e) => run := RetryRun(Err(e), i, sleeps, slept, log);
    }
  }

  /** How many entries of the log satisfy p. */
  function Count<E>(log: seq<E>, p: E -> bool): (n: nat)
    ensures n <= |log|
  {
    if log == [] then 0 else (if p(log[0]) then 1 else 0) + Count(log[1..], p)
  }

  lemma {:induction false} CountAppend<E>(a: seq<E>, b: seq<E>, p: E -> bool)
    ensures Count(a + b, p) == Count(a, p) + Count(b, p)
  {
    if a == [] {
      assert a + b == b;
    } else {
      assert (a + b)[1..] == a[1..] + b;
      CountAppend(a[1..], b, p);
    }
  }

  /** If every call has at most one effect of a kind, n calls have at most n of them. */
  lemma {:induction false} CallLogCountAtMost<T, E>(attempt: nat -> Attempt<T, E>, n: nat, p: E -> bool)
    requires forall k: nat :: k < n ==> Count(attempt(k).effects, p) <= 1
    ensures Count(CallLog(attempt, n), p) <= n
  {
    if n > 0 {
      CallLogCountAtMost(attempt, n - 1, p);
      CountAppend(CallLog(attempt, n - 1), attempt(n - 1).effects, p);
    }
  }

  /** If every call has exactly one effect of a kind, n calls have exactly n of them. */
  lemma {:induction false} CallLogCountExactly<T, E>(attempt: nat -> Attempt<T, E>, n: nat, p: E -> bool)
    requires forall k: nat :: k < n ==> Count(attempt(k).effects, p) == 1
    ensures Count(CallLog(attempt, n), p) == n
  {
    if n > 0 {
      CallLogCountExactly(attempt, n - 1, p);
      CountAppend(CallLog(attempt, n - 1), attempt(n - 1).effects, p);
    }
  }

  /** A call that has no effects adds nothing to the log. */
  lemma {:induction false} CallLogSilent<T, E>(attempt: nat -> Attempt<T, E>, n: nat)
    requires forall k: nat :: k < n ==> attempt(k).effects == []
    ensures CallLog(attempt, n) == []
  {
    if n > 0 {
      CallLogSilent(attempt, n - 1);
    }
  }
}
