/** The retry policy shared by the notification send and the debug send
    (server.js, lines 213-224 and 292-302): one attempt, then up to two
    more, each preceded by a two-second pause, while the error looks like a
    timeout; otherwise the last error is rethrown. */
module Retry {
  import opened Js
  import opened Text

  /** A thrown value as the catch blocks read it: its `code`, its `message`
      (empty when it has none) and `String(err)`. */
  datatype MailError = MailError(code: Option<string>, message: string, text: string)

  /** How one attempt ended: the send went through, an error was thrown, or
      the 30-second timer won the race against the send. */
  datatype Attempt = Delivered | Failed(error: MailError) | TimedOut

  const MaxRetries: nat := 2
  const MaxAttempts: nat := MaxRetries + 1
  const BackoffMillis: nat := 2000
  const SendTimeoutMillis: nat := 30000
  const SendTimeoutMessage := "Email sending timeout after 30 seconds"

  /** `new Error(message)`: no code, and `String(err)` prefixes "Error: ". */
  function NewError(message: string): (e: MailError)
    ensures e.code.None? && e.message == message
  {
    MailError(None, message, "Error: " + message)
  }

  /** The error an unsuccessful attempt ends with; a send still pending
      after `SendTimeoutMillis` ends with the timer's error. */
  function ErrorOf(a: Attempt): MailError
    requires !a.Delivered?
  {
    match a
    case Failed(e) => e
    case TimedOut => NewError(SendTimeoutMessage)
  }

  /** `err?.code === 'ETIMEDOUT' || err?.message?.includes('timeout')`. */
  predicate TimeoutLike(e: MailError)
  {
    e.code == Some("ETIMEDOUT") || Contains(e.message, "timeout")
  }

  /** The attempt failed with an error the policy retries (budget permitting). */
  predicate Retryable(a: Attempt)
  {
    !a.Delivered? && TimeoutLike(ErrorOf(a))
  }

  /** Outcome of attempt `k` (0-based). An attempt that the given outcomes
      do not cover is one whose send never answers, so the timer ends it. */
  function At(planned: seq<Attempt>, k: nat): Attempt
  {
    if k < |planned| then planned[k] else TimedOut
  }

  /** The value of the retry counter on the last attempt when the counter
      starts at `retryCount`: the first attempt from there that is not
      retryable, or the last one the budget allows. */
  function StopFrom(planned: seq<Attempt>, retryCount: nat): (n: nat)
    requires retryCount <= MaxRetries
    ensures retryCount <= n <= MaxRetries
    ensures forall k :: retryCount <= k < n ==> Retryable(At(planned, k))
    ensures n < MaxRetries ==> !Retryable(At(planned, n))
    decreases MaxRetries - retryCount
  {
    if retryCount == MaxRetries || !Retryable(At(planned, retryCount)) then retryCount
    else StopFrom(planned, retryCount + 1)
  }

  /** How a retrying helper finished: it returned `true`, or it threw. */
  datatype Finish = Returned | Threw(error: MailError)

  function FinishOf(a: Attempt): (f: Finish)
    ensures f.Returned? <==> a.Delivered?
    ensures f.Threw? ==> f.error == ErrorOf(a)
  {
    if a.Delivered? then Returned else Threw(ErrorOf(a))
  }

  /** What one call of a retrying helper did: how it finished, how many
      attempts it made and how many two-second pauses it took. */
  datatype RetryRun = RetryRun(finish: Finish, attempts: nat, backoffs: nat)

  /** The policy in closed form: every attempt before the last was
      retryable, the last one is not or exhausts the budget, there is one
      pause of `BackoffMillis` before every attempt but the first, and the
      helper finishes as the last attempt did. Pauses are counted, not
      timed. */
  function Run(planned: seq<Attempt>): (r: RetryRun)
    ensures 1 <= r.attempts <= MaxAttempts && r.backoffs == r.attempts - 1
    ensures r.finish == FinishOf(At(planned, r.attempts - 1))
    ensures forall k :: 0 <= k < r.attempts - 1 ==> Retryable(At(planned, k))
    ensures r.attempts < MaxAttempts ==> !Retryable(At(planned, r.attempts - 1))
  {
    var n := StopFrom(planned, 0);
    RetryRun(FinishOf(At(planned, n)), n + 1, n)
  }

  /** One more retryable attempt extends the run of retryable attempts. */
  lemma RetryableExtend(planned: seq<Attempt>, n: nat)
    requires forall k :: 0 <= k < n ==> Retryable(At(planned, k))
    requires Retryable(At(planned, n))
    ensures forall k :: 0 <= k < n + 1 ==> Retryable(At(planned, k))
  {
  }

  /** The closed form is determined by where the attempts stop. */
  lemma RunStopsAt(planned: seq<Attempt>, n: nat)
    requires n <= MaxRetries
    requires forall k :: 0 <= k < n ==> Retryable(At(planned, k))
    requires n == MaxRetries || !Retryable(At(planned, n))
    ensures Run(planned) == RetryRun(FinishOf(At(planned, n)), n + 1, n)
  {
  }

  /** The timer's own error is retried. */
  lemma TimerErrorIsRetried()
    ensures Retryable(TimedOut)
  {
    assert MatchesAt(SendTimeoutMessage, "timeout", 14);
  }

  /** An error whose code is not ETIMEDOUT and whose message lacks "timeout"
      ends the helper on the attempt that raised it, whatever comes after. */
  lemma OtherErrorsEndTheRun(planned: seq<Attempt>, k: nat, e: MailError)
    requires k <= MaxRetries && At(planned, k) == Failed(e) && !TimeoutLike(e)
    requires forall i :: 0 <= i < k ==> Retryable(At(planned, i))
    ensures Run(planned) == RetryRun(Threw(e), k + 1, k)
  {
    RunStopsAt(planned, k);
  }

  /** A send that goes through on attempt `k + 1`, after `k` timeouts, makes
      the helper return after exactly `k` pauses, with no further attempt. */
  lemma DeliveredAfterTimeouts(planned: seq<Attempt>, k: nat)
    requires k <= MaxRetries && At(planned, k).Delivered?
    requires forall i :: 0 <= i < k ==> Retryable(At(planned, i))
    ensures Run(planned) == RetryRun(Returned, k + 1, k)
  {
    RunStopsAt(planned, k);
  }

  /** When every attempt times out the helper makes three attempts and
      rethrows the third error. */
  lemma AllTimeoutsExhaust(planned: seq<Attempt>)
    requires forall i :: 0 <= i < MaxAttempts ==> Retryable(At(planned, i))
    ensures Run(planned) == RetryRun(FinishOf(At(planned, MaxRetries)), MaxAttempts, MaxRetries)
    ensures Run(planned).finish.Threw?
  {
    assert Retryable(At(planned, MaxRetries));
    RunStopsAt(planned, MaxRetries);
  }

  /** The helper returns exactly when some attempt within the budget goes
      through after only retryable failures. */
  lemma ReturnsIffDelivered(planned: seq<Attempt>)
    ensures Run(planned).finish.Returned? <==>
      exists k :: 0 <= k < MaxAttempts && At(planned, k).Delivered? &&
        forall i :: 0 <= i < k ==> Retryable(At(planned, i))
  {
    var r := Run(planned);
    if r.finish.Returned? {
      assert At(planned, r.attempts - 1).Delivered?;
    } else if k :| 0 <= k < MaxAttempts && At(planned, k).Delivered? &&
                  forall i :: 0 <= i < k ==> Retryable(At(planned, i)) {
      DeliveredAfterTimeouts(planned, k);
    }
  }

  /** Outcomes after the last attempt are never consulted. */
  lemma LaterOutcomesUnused(p: seq<Attempt>, q: seq<Attempt>)
    requires forall k :: 0 <= k < Run(p).attempts ==> At(p, k) == At(q, k)
    ensures Run(q) == Run(p)
  {
    var n := Run(p).attempts - 1;
    RunStopsAt(q, n);
  }

  /** Two timeouts followed by a delivery: three attempts, success. */
  lemma TwoTimeoutsThenDelivered()
    ensures Run([TimedOut, TimedOut, Delivered]) == RetryRun(Returned, 3, 2)
  {
    TimerErrorIsRetried();
    DeliveredAfterTimeouts([TimedOut, TimedOut, Delivered], 2);
  }

  /** Three timeouts: three attempts, then the timer's error is rethrown. */
  lemma ThreeTimeouts()
    ensures Run([TimedOut, TimedOut, TimedOut]) == RetryRun(Threw(NewError(SendTimeoutMessage)), 3, 2)
  {
    TimerErrorIsRetried();
    AllTimeoutsExhaust([TimedOut, TimedOut, TimedOut]);
  }
}
