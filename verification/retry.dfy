/**
 * The `tenacity` retry decorator as used by the scanners: at most three attempts,
 * an optional predicate on the exception, and `reraise=True` (the last exception
 * propagates unchanged). Waiting between attempts is not modelled. The
 * exception type is a parameter, because the LLM backends retry on an SDK
 * exception that is not one of the modelled errors.
 */
module Retry {
  import opened Wrappers
  import opened Errors

  const MaxAttempts: nat := 3

  /** `retry_if_exception_type(ClientError)`. */
  predicate OnClientError(e: Error) {
    e.ClientError?
  }

  /** No `retry=` argument: every exception is retried. */
  predicate OnAnyError(e: Error) {
    true
  }

  /**
   * Run `attempt(0)`, `attempt(1)`, ... until one succeeds, one fails with an error
   * `retryOn` rejects, or three attempts have been made. Returns the outcome of
   * the last attempt and the number of attempts made.
   */
  function WithRetry<T, E>(attempt: nat -> Result<T, E>, retryOn: E -> bool): (r: (Result<T, E>, nat))
    ensures 1 <= r.1 <= MaxAttempts
    ensures r.0 == attempt(r.1 - 1)
    ensures forall i :: 0 <= i < r.1 - 1 ==> attempt(i).Err? && retryOn(attempt(i).error)
    ensures r.1 < MaxAttempts && r.0.Err? ==> !retryOn(r.0.error)
  {
    From(attempt, retryOn, 0)
  }

  function From<T, E>(attempt: nat -> Result<T, E>, retryOn: E -> bool, i: nat): (r: (Result<T, E>, nat))
    requires i < MaxAttempts
    ensures i + 1 <= r.1 <= MaxAttempts
    ensures r.0 == attempt(r.1 - 1)
    ensures forall j :: i <= j < r.1 - 1 ==> attempt(j).Err? && retryOn(attempt(j).error)
    ensures r.1 < MaxAttempts && r.0.Err? ==> !retryOn(r.0.error)
    decreases MaxAttempts - i
  {
    var out := attempt(i);
    if out.Err? && retryOn(out.error) && i + 1 < MaxAttempts then From(attempt, retryOn, i + 1)
    else (out, i + 1)
  }

  /** The retry of `run` applied to the attempt's input, `inputs(i)` being what attempt `i` receives. */
  function WithRetryOf<X, T, E>(run: X -> Result<T, E>, inputs: nat -> X, retryOn: E -> bool): (r: (Result<T, E>, nat))
    ensures 1 <= r.1 <= MaxAttempts
    ensures r.0 == run(inputs(r.1 - 1))
    ensures forall i :: 0 <= i < r.1 - 1 ==> run(inputs(i)).Err? && retryOn(run(inputs(i)).error)
    ensures r.1 < MaxAttempts && r.0.Err? ==> !retryOn(r.0.error)
  {
    var attempt := (i: nat) => run(inputs(i));
    var r := WithRetry(attempt, retryOn);
    assert forall i :: 0 <= i < r.1 - 1 ==> attempt(i) == run(inputs(i));
    r
  }

  /** How many attempts `WithRetryOf` makes when every exception is retried: it stops at the first success. */
  function AttemptsUntilOk<X, T, E>(run: X -> Result<T, E>, inputs: nat -> X): (n: nat)
    ensures 1 <= n <= MaxAttempts
    ensures n < MaxAttempts ==> run(inputs(n - 1)).Ok?
    ensures forall i :: 0 <= i < n - 1 ==> run(inputs(i)).Err?
  {
    WithRetryOf(run, inputs, (e: E) => true).1
  }

  /**
   * The retried call of a scanner: attempt `i` runs `run(arg, ...)` over what
   * `oracle` yields for request `req` on that attempt.
   */
  function WithRetryOver<A, Q, X, T, E>(run: (A, X) -> Result<T, E>, arg: A, oracle: (Q, nat) -> X, req: Q, retryOn: E -> bool): (r: (Result<T, E>, nat))
    ensures 1 <= r.1 <= MaxAttempts
    ensures r.0 == run(arg, oracle(req, r.1 - 1))
    ensures forall i :: 0 <= i < r.1 - 1 ==> run(arg, oracle(req, i)).Err? && retryOn(run(arg, oracle(req, i)).error)
    ensures r.1 < MaxAttempts && r.0.Err? ==> !retryOn(r.0.error)
  {
    var attempt := (i: nat) => run(arg, oracle(req, i));
    var r := WithRetry(attempt, retryOn);
    assert forall i :: 0 <= i < r.1 - 1 ==> attempt(i) == run(arg, oracle(req, i));
    r
  }

  /** An error the predicate rejects ends the call on the first attempt. */
  lemma NoRetryOnRejectedError<T, E>(attempt: nat -> Result<T, E>, retryOn: E -> bool)
    requires attempt(0).Err? && !retryOn(attempt(0).error)
    ensures WithRetry(attempt, retryOn) == (attempt(0), 1)
  {
  }

  /** A call whose attempts always fail with a retried error makes exactly three attempts. */
  lemma PersistentFailureExhausts<T, E>(attempt: nat -> Result<T, E>, retryOn: E -> bool)
    requires forall i :: attempt(i).Err? && retryOn(attempt(i).error)
    ensures WithRetry(attempt, retryOn) == (attempt(2), 3)
  {
  }
}
