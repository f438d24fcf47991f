/** The bounded retry loop both media services run around a provider call:
    at most three tries, a sleep of 2 s after the first failure and 4 s after
    the second, none after the last. Each try is classified by the caller as
    a success, an error that is retried, or an error that ends the loop at
    once. Sleeping is recorded, not performed. */
module Retry {

  /** Tries per call (`range(3)`). */
  const MaxTries: nat := 3

  /** The sleeps between tries, in order: `2 ** (attempt + 1)` for the
      first two attempts. */
  const Backoffs: seq<nat> := [2, 4]

  /** How one try ended. */
  datatype Try = Succeeded | Retryable(message: string) | Fatal(message: string)

  /** How the loop ended: at the try that succeeded, at the try that raised
      an error that is not retried, or after every try failed, carrying the
      last error. */
  datatype Ending = Won(at: nat) | Aborted(at: nat, message: string) | Exhausted(lastError: string)

  /** The ending, how many tries were entered and the sleeps taken. */
  datatype RetryRun = RetryRun(ending: Ending, tries: nat, sleeps: seq<nat>)

  /** The sleep after failed attempt `attempt`: none after the last one. */
  function SleepAfter(attempt: nat): (s: seq<nat>)
    requires attempt < MaxTries
    ensures attempt < 2 ==> s == [Backoffs[attempt]]
    ensures attempt == MaxTries - 1 ==> s == []
  {
    if attempt < 2 then [Pow2(attempt + 1)] else []
  }

  function Pow2(n: nat): (p: nat)
    ensures p >= 1
  {
    if n == 0 then 1 else 2 * Pow2(n - 1)
  }

  /** The loop from `attempt` on, `last` being the latest error seen. */
  function RetryFrom(classify: nat -> Try, attempt: nat, last: string, sleeps: seq<nat>): (r: RetryRun)
    requires attempt <= MaxTries && sleeps == Backoffs[..if attempt < MaxTries then attempt else MaxTries - 1]
    ensures attempt <= r.tries <= MaxTries && 1 <= r.tries
    ensures r.sleeps == Backoffs[..r.tries - 1]
    ensures forall j :: attempt <= j < r.tries - 1 ==> classify(j).Retryable?
    ensures r.ending.Won? ==> r.ending.at == r.tries - 1 && classify(r.ending.at).Succeeded?
    ensures r.ending.Aborted? ==> r.ending.at == r.tries - 1 && classify(r.ending.at) == Fatal(r.ending.message)
    ensures r.ending.Exhausted? ==>
      (r.tries == MaxTries
       && if attempt < MaxTries then classify(MaxTries - 1).Retryable? && r.ending.lastError == classify(MaxTries - 1).message
          else r.ending.lastError == last)
    decreases MaxTries - attempt
  {
    if attempt == MaxTries then RetryRun(Exhausted(last), MaxTries, sleeps)
    else
      match classify(attempt)
      case Succeeded => RetryRun(Won(attempt), attempt + 1, sleeps)
      case Fatal(m) => RetryRun(Aborted(attempt, m), attempt + 1, sleeps)
      case Retryable(m) =>
        assert attempt < 2 ==> Backoffs[..attempt + 1] == Backoffs[..attempt] + [Backoffs[attempt]];
        RetryFrom(classify, attempt + 1, m, sleeps + SleepAfter(attempt))
  }

  /** The whole loop. */
  function RunRetry(classify: nat -> Try): (r: RetryRun)
    ensures 1 <= r.tries <= MaxTries
    ensures forall j :: 0 <= j < r.tries - 1 ==> classify(j).Retryable?
    ensures r.ending.Won? ==>
      (r.ending.at == r.tries - 1 && classify(r.ending.at).Succeeded? && r.sleeps == Backoffs[..r.ending.at])
    ensures r.ending.Aborted? ==>
      (r.ending.at == r.tries - 1 && classify(r.ending.at) == Fatal(r.ending.message)
       && r.sleeps == Backoffs[..r.ending.at])
    ensures r.ending.Exhausted? ==>
      (r.tries == MaxTries && r.sleeps == Backoffs
       && classify(MaxTries - 1).Retryable? && r.ending.lastError == classify(MaxTries - 1).message)
  {
    RetryFrom(classify, 0, "", [])
  }

  /** The loop gives up exactly when every try fails with a retried error,
      and otherwise ends at the first try that does not. */
  lemma ExhaustedIff(classify: nat -> Try)
    ensures RunRetry(classify).ending.Exhausted?
      <==> forall j :: 0 <= j < MaxTries ==> classify(j).Retryable?
    ensures forall k :: 0 <= k < MaxTries && FirstNotRetried(classify, k) ==> RunRetry(classify).tries == k + 1
  {
    var r := RunRetry(classify);
    if !r.ending.Exhausted? {
      assert !classify(r.tries - 1).Retryable?;
    }
  }

  /** Try `k` is the first one whose error is not retried. */
  predicate FirstNotRetried(classify: nat -> Try, k: nat) {
    !classify(k).Retryable? && forall j :: 0 <= j < k ==> classify(j).Retryable?
  }
}
