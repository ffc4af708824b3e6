/** The feed query's settings: which URL is fetched and how failed fetches are retried. */
module RssFeed {
  import opened Wrappers

  /** The built-in feed. */
  const DefaultFeedUrl: string := "https://feeds.buzzsprout.com/2008321.rss"

  /** Retries requested after the first failed fetch. */
  const MaxRetries: nat := 3

  /** Longest wait between two attempts, in milliseconds. */
  const MaxRetryDelay: nat := 30000

  /** `feedUrl || RSS_FEED_URL`: an absent or empty URL means the built-in feed. */
  function FeedUrl(feedUrl: Option<string>): (url: string)
    ensures url != ""
    ensures feedUrl.Some? && feedUrl.value != "" ==> url == feedUrl.value
    ensures feedUrl.None? || feedUrl.value == "" ==> url == DefaultFeedUrl
  {
    match feedUrl
    case Some(u) => if u != "" then u else DefaultFeedUrl
    case None => DefaultFeedUrl
  }

  function Pow2(n: nat): (r: nat)
    ensures r >= 1
  {
    if n == 0 then 1 else 2 * Pow2(n - 1)
  }

  lemma {:induction false} Pow2Monotone(m: nat, n: nat)
    requires m <= n
    ensures Pow2(m) <= Pow2(n)
    decreases n
  {
    if m < n {
      Pow2Monotone(m, n - 1);
    }
  }

  /** `Math.min(1000 * 2 ** attemptIndex, 30000)`, in milliseconds. */
  function RetryDelay(attemptIndex: nat): (ms: nat)
    ensures ms <= MaxRetryDelay
    ensures ms == MaxRetryDelay || ms == 1000 * Pow2(attemptIndex)
    ensures ms <= 1000 * Pow2(attemptIndex)
  {
    var backoff := 1000 * Pow2(attemptIndex);
    if backoff < MaxRetryDelay then backoff else MaxRetryDelay
  }

  /** A later attempt never waits less. */
  lemma RetryDelayMonotone(a: nat, b: nat)
    requires a <= b
    ensures RetryDelay(a) <= RetryDelay(b)
  {
    Pow2Monotone(a, b);
  }

  /** The first retry waits one second, the fifth sixteen. */
  lemma RetryDelayFirstAttempts()
    ensures RetryDelay(0) == 1000 && RetryDelay(1) == 2000 && RetryDelay(2) == 4000
    ensures RetryDelay(3) == 8000 && RetryDelay(4) == 16000
  {
    assert Pow2(4) == 16;
  }

  /** From the sixth attempt on the delay is capped. */
  lemma RetryDelayCapped(a: nat)
    requires a >= 5
    ensures RetryDelay(a) == MaxRetryDelay
  {
    assert Pow2(5) == 32;
    Pow2Monotone(5, a);
  }

  /**
   * The fetches made from attempt `attempt` (counted from 0) on, where `fails(k)` says whether
   * attempt `k` fails. A failure with `k` failures before it is retried when `k < retry`,
   * after waiting `RetryDelay(k)`.
   */
  function AttemptsFrom(fails: nat -> bool, attempt: nat): (n: nat)
    ensures n >= 1
    decreases if attempt <= MaxRetries then MaxRetries - attempt else 0
  {
    if fails(attempt) && attempt < MaxRetries then 1 + AttemptsFrom(fails, attempt + 1) else 1
  }

  /** The milliseconds spent waiting between the attempts made from `attempt` on. */
  function WaitFrom(fails: nat -> bool, attempt: nat): (ms: nat)
    decreases if attempt <= MaxRetries then MaxRetries - attempt else 0
  {
    if fails(attempt) && attempt < MaxRetries then RetryDelay(attempt) + WaitFrom(fails, attempt + 1) else 0
  }

  /** `retry: 3`: a fetch is tried at most four times, whatever fails. */
  lemma {:induction false} AttemptsBound(fails: nat -> bool, attempt: nat)
    requires attempt <= MaxRetries
    ensures AttemptsFrom(fails, attempt) <= MaxRetries + 1 - attempt
    decreases MaxRetries - attempt
  {
    if fails(attempt) && attempt < MaxRetries {
      AttemptsBound(fails, attempt + 1);
    }
  }

  /** The first attempt that succeeds, within the retry budget, is the last one made. */
  lemma {:induction false} AttemptsUntilSuccess(fails: nat -> bool, attempt: nat, success: nat)
    requires attempt <= success <= MaxRetries && !fails(success)
    requires forall k :: attempt <= k < success ==> fails(k)
    ensures AttemptsFrom(fails, attempt) == success - attempt + 1
    decreases success - attempt
  {
    if attempt < success {
      AttemptsUntilSuccess(fails, attempt + 1, success);
    }
  }

  /** When every fetch fails there are four attempts and 1 + 2 + 4 seconds of waiting. */
  lemma AllFailing(fails: nat -> bool)
    requires forall k :: 0 <= k <= MaxRetries ==> fails(k)
    ensures AttemptsFrom(fails, 0) == MaxRetries + 1
    ensures WaitFrom(fails, 0) == 7000
  {
    assert fails(0) && fails(1) && fails(2);
    assert RetryDelay(0) == 1000 && RetryDelay(1) == 2000 && RetryDelay(2) == 4000 by {
      RetryDelayFirstAttempts();
    }
  }
}
