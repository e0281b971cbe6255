/** RetryGenerate: a bounded retry loop with a growing pause. */
module Retrying {
  import opened Credentials

  /** What one attempt returns; a failure without a status is a network error. */
  datatype Attempt<T> = Success(value: T) | Failure(status: Option<int>, message: string)

  const BAD_GATEWAY := 502

  /** WrapEinoError */
  function Wrapped<T>(a: Attempt<T>): Attempt<T> {
    if a.Failure? && a.status.None? then Attempt.Failure(Some(BAD_GATEWAY), a.message) else a
  }

  /** isRetryable, of a failure as wrapped */
  predicate Retryable<T>(a: Attempt<T>) {
    a.Failure? && (a.status.None? || a.status.value == 429 || 500 <= a.status.value < 600)
  }

  /** The attempt that ends the loop: the first that succeeds or fails for good, else the last allowed. */
  predicate Ends<T>(fn: nat -> Attempt<T>, i: nat, maxRetries: nat) {
    && i <= maxRetries
    && (forall j: nat :: j < i ==> Retryable(Wrapped(fn(j))))
    && (!Retryable(Wrapped(fn(i))) || i == maxRetries)
  }

  /** A failure worth another call: of the network, of the quota, or of the server. */
  predicate Temporary<T>(a: Attempt<T>) {
    a.Failure? &&
    match a.status
    case None => true
    case Some(status) => status == 429 || (500 <= status && status <= 599)
  }

  function Retries(configured: int): nat {
    if configured <= 0 then 3 else configured
  }

  function Delay(seconds: int): Time {
    if seconds <= 0 then SECOND else seconds * SECOND
  }

  /** `fn(i)` is what the i-th call would return; `calls` counts the calls made, `slept` the time paused. */
  method RetryGenerate<T>(maxConfigured: int, delaySeconds: int, fn: nat -> Attempt<T>)
    returns (r: Attempt<T>, calls: nat, slept: Time)
    ensures calls >= 1 && Ends(fn, calls - 1, Retries(maxConfigured)) && r == Wrapped(fn(calls - 1))
    ensures 2 * slept == Delay(delaySeconds) * (calls - 1) * calls
    ensures var allowed := if maxConfigured <= 0 then 3 else maxConfigured;
            && calls <= allowed + 1
            && (forall j: nat :: j < calls - 1 ==> Temporary(fn(j)))
            && (calls <= allowed ==> !Temporary(fn(calls - 1)))
    ensures r.Success? <==> fn(calls - 1).Success?
    ensures r.Success? ==> r == fn(calls - 1)
    ensures r.Failure? ==>
              r.message == fn(calls - 1).message
              && r.status == if fn(calls - 1).status.None? then Some(502) else fn(calls - 1).status
    ensures 2 * slept == (if delaySeconds <= 0 then 1 else delaySeconds) * SECOND * (calls - 1) * calls
  {
    var maxRetries := Retries(maxConfigured);
    var delay := Delay(delaySeconds);
    slept := 0;
    var i := 0;
    while true
      invariant 0 <= i <= maxRetries
      invariant forall j: nat :: j < i ==> Retryable(Wrapped(fn(j)))
      invariant 2 * slept == delay * i * (i + 1)
      decreases maxRetries - i
    {
      r := Wrapped(fn(i));
      if !Retryable(r) || i == maxRetries {
        return r, i + 1, slept;
      }
      PauseStep(delay, i);
      slept := slept + delay * (i + 1);
      i := i + 1;
    }
  }

  lemma PauseStep(delay: Time, i: nat)
    ensures delay * i * (i + 1) + 2 * (delay * (i + 1)) == delay * (i + 1) * (i + 2)
  {
  }
}
