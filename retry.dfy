/** `generateWithRetry`, the retry policy wrapped around every Gemini call
    in the quote-pricing and quote-extraction routes: at most three
    attempts, a retry only after a rate-limit or 503 error, exponential
    back-off between attempts, and any other error rethrown at once.

    The remote call is an oracle: `call(k)` is what the k-th attempt
    (counting from 1) answers or throws. Sleeping is not performed; the
    waits the route would perform are returned, without their random
    jitter of up to one second. */
module Retry {
  import opened Common

  const MaxRetries: nat := 3

  /** Base of the back-off in `api/quote-pricing/route.ts`. */
  const PricingBaseDelay: nat := 4000

  /** Base of the back-off in `api/process-quote/route.ts`. */
  const ExtractionBaseDelay: nat := 2000

  /** What a failed call throws: the fields the policy inspects.
      `serialized` stands for `JSON.stringify(error)`. */
  datatype ApiError = ApiError(status: Option<int>, code: Option<int>, message: string, serialized: string)

  datatype CallOutcome<T> = Answered(value: T) | Failed(error: ApiError)

  datatype RetryOutcome<T> = Returned(value: T) | Thrown(error: ApiError)

  /** `error?.message || JSON.stringify(error)` */
  function ErrorText(e: ApiError): string
  {
    if e.message != "" then e.message else e.serialized
  }

  predicate IsRateLimit(e: ApiError)
  {
    || e.status == Some(429)
    || e.code == Some(429)
    || Contains(ErrorText(e), "429")
    || Contains(ErrorText(e), "Quota exceeded")
    || Contains(ErrorText(e), "RESOURCE_EXHAUSTED")
  }

  /** The errors after which another attempt is made. */
  predicate IsRetryable(e: ApiError)
  {
    IsRateLimit(e) || e.status == Some(503)
  }

  /** Which errors are retried: a 429 in the status or the code, a 503
      status, or a rate-limit marker in the message, where an empty message
      falls back to the serialised error. */
  lemma RetryableErrors(e: ApiError)
    ensures e.status == Some(429) || e.code == Some(429) || e.status == Some(503) ==> IsRetryable(e)
    ensures e.message != "" && Contains(e.message, "RESOURCE_EXHAUSTED") ==> IsRetryable(e)
    ensures e.message == "" && Contains(e.serialized, "Quota exceeded") ==> IsRetryable(e)
  {
  }

  /** An error whose text holds none of the digit '4' and the capitals 'Q'
      and 'R', and whose status and code are neither 429 nor 503, is thrown
      at once. */
  lemma OrdinaryErrorNotRetried(e: ApiError)
    requires e.status != Some(429) && e.status != Some(503) && e.code != Some(429)
    requires '4' !in ErrorText(e) && 'Q' !in ErrorText(e) && 'R' !in ErrorText(e)
    ensures !IsRetryable(e)
  {
    var text := ErrorText(e);
    assert "429"[0] == '4';
    assert "Quota exceeded"[0] == 'Q';
    assert "RESOURCE_EXHAUSTED"[0] == 'R';
    MissingCharNotContained(text, "429", '4');
    MissingCharNotContained(text, "Quota exceeded", 'Q');
    MissingCharNotContained(text, "RESOURCE_EXHAUSTED", 'R');
  }

  /** A bad request is not retried, whatever its serialised form. */
  lemma BadRequestNotRetried(e: ApiError)
    requires e.status == Some(400) && e.code.None? && e.message == "Invalid argument"
    ensures !IsRetryable(e)
  {
    var text := ErrorText(e);
    assert text == "Invalid argument";
    forall i | 0 <= i < |text|
      ensures text[i] != '4' && text[i] != 'Q' && text[i] != 'R'
    {
    }
    OrdinaryErrorNotRetried(e);
  }

  function Pow2(n: nat): nat
  {
    if n == 0 then 1 else 2 * Pow2(n - 1)
  }

  /** `Math.pow(2, attempt) * base`, the wait after failed attempt
      `attempt`, without jitter. */
  function BackoffDelay(attempt: nat, base: nat): nat
  {
    Pow2(attempt) * base
  }

  method GenerateWithRetry<T>(call: nat -> CallOutcome<T>, baseDelay: nat)
    returns (outcome: RetryOutcome<T>, calls: nat, delays: seq<nat>)
    // between one and three calls are made
    ensures 1 <= calls <= MaxRetries
    // every call before the last one failed with a retryable error
    ensures forall k :: 1 <= k < calls ==> call(k).Failed? && IsRetryable(call(k).error)
    // the first successful answer is returned unchanged
    ensures outcome.Returned? <==> call(calls).Answered?
    ensures outcome.Returned? ==> outcome.value == call(calls).value
    // a failure rethrows the last call's error ...
    ensures outcome.Thrown? ==> outcome.error == call(calls).error
    // ... after fewer than three calls only when that error is not retryable
    ensures outcome.Thrown? && calls < MaxRetries ==> !IsRetryable(call(calls).error)
    // one wait after each failed attempt but the last, growing exponentially
    ensures |delays| == calls - 1
    ensures forall k :: 0 <= k < |delays| ==> delays[k] == BackoffDelay(k + 1, baseDelay)
  {
    var lastError: Option<ApiError> := None;
    delays := [];
    calls := 0;
    var attempt: nat := 1;
    while attempt <= MaxRetries
      invariant 1 <= attempt <= MaxRetries
      invariant calls == attempt - 1
      invariant forall k :: 1 <= k < attempt ==> call(k).Failed? && IsRetryable(call(k).error)
      invariant |delays| == attempt - 1
      invariant forall k :: 0 <= k < |delays| ==> delays[k] == BackoffDelay(k + 1, baseDelay)
      decreases MaxRetries - attempt
    {
      calls := attempt;
      match call(attempt)
      case Answered(v) =>
        outcome := Returned(v);
        return;
      case Failed(e) =>
        lastError := Some(e);
        if IsRetryable(e) {
          if attempt == MaxRetries {
            break;
          }
          delays := delays + [BackoffDelay(attempt, baseDelay)];
          attempt := attempt + 1;
        } else {
          outcome := Thrown(e);
          return;
        }
    }
    outcome := Thrown(lastError.value);
  }

  /** The waits of a run that uses up all three attempts: 2^1 and 2^2 times
      the base, in that order. */
  lemma {:induction false} FullBackoffSchedule(delays: seq<nat>, base: nat)
    requires |delays| == MaxRetries - 1
    requires forall k :: 0 <= k < |delays| ==> delays[k] == BackoffDelay(k + 1, base)
    ensures delays == [2 * base, 4 * base]
  {
    assert Pow2(1) == 2 by { assert Pow2(0) == 1; }
    assert Pow2(2) == 4;
  }
}
