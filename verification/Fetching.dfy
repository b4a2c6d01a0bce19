/** The retry loop of `doFetch` and its back-off. Durations are in nanoseconds. */
module Fetching {
  import opened Wrappers

  datatype Error = StatusCode(code: int) | FetchError(text: string)

  datatype Response = Response(status: int, body: string, error: Option<Error>)

  // The retry policies by their numbers; other numbers retry without sleeping, as RefreshIP does.
  const RETRY_JOB := 0
  const DISCARD_JOB := 1
  const STOP_SCRAPING := 3

  const MILLISECOND := 1_000_000
  const FIRST_DELAY := 100 * MILLISECOND
  const DEFAULT_MAX_RETRY_DELAY := 2000 * MILLISECOND
  const MAX_RETRIES := 5

  /** The parts of a job that the loop looks at. `check` is the job's own response check, if any. */
  datatype Job = Job(policy: int, maxRetries: int, maxRetryDelay: int, check: Option<Response -> bool>)

  function Accepts(job: Job, r: Response): bool
  {
    match job.check
    case None => 200 <= r.status < 300
    case Some(check) => check(r)
  }

  function MaxRetryDelay(job: Job): int
  {
    if job.maxRetryDelay == 0 then DEFAULT_MAX_RETRY_DELAY else job.maxRetryDelay
  }

  function MaxRetries(job: Job): int
  {
    if job.maxRetries > MAX_RETRIES then MAX_RETRIES else job.maxRetries
  }

  /** The number of attempts the job may take: one for the policies that do not retry. */
  function Attempts(job: Job): (n: nat)
    ensures 1 <= n <= 1 + MAX_RETRIES
  {
    if job.policy == DISCARD_JOB || job.policy == STOP_SCRAPING || job.maxRetries <= 0 then 1
    else 1 + MaxRetries(job)
  }

  /** Attempt `k` ends the fetch: it is the first accepted one, or the last one allowed. */
  predicate Ends(job: Job, fetch: nat -> Response, k: nat)
  {
    && k < Attempts(job)
    && (Accepts(job, fetch(k)) || k + 1 == Attempts(job))
    && forall i: nat | i < k :: !Accepts(job, fetch(i))
  }

  /** The index of the attempt that ends the fetch. */
  function EndingAttempt(job: Job, fetch: nat -> Response, from: nat): (k: nat)
    requires from < Attempts(job)
    requires forall i: nat | i < from :: !Accepts(job, fetch(i))
    ensures Ends(job, fetch, k)
    decreases Attempts(job) - from
  {
    if Accepts(job, fetch(from)) || from + 1 == Attempts(job) then from else EndingAttempt(job, fetch, from + 1)
  }

  lemma EndingAttemptIsUnique(job: Job, fetch: nat -> Response, j: nat, k: nat)
    requires Ends(job, fetch, j) && Ends(job, fetch, k)
    ensures j == k
  {
  }

  /** A rejected response without an error gets one. */
  function Finished(job: Job, r: Response): Response
  {
    if !Accepts(job, r) && r.error == None then r.(error := Some(StatusCode(r.status))) else r
  }

  /** What `doFetch` returns when its k-th attempt yields `fetch(k)`. */
  function FetchResult(job: Job, fetch: nat -> Response): Response
  {
    Finished(job, fetch(EndingAttempt(job, fetch, 0)))
  }

  /** The delay before the retry with number `k`, and with it all sleeps of a retried job. */
  function Delay(max: int, k: nat): int
  {
    if k == 0 then FIRST_DELAY
    else if Delay(max, k - 1) > max then max
    else 2 * Delay(max, k - 1)
  }

  function Delays(max: int, k: nat): (d: seq<int>)
    ensures |d| == k && forall i | 0 <= i < k :: d[i] == Delay(max, i)
  {
    seq(k, i requires i >= 0 => Delay(max, i))
  }

  // What the loop promises, without the words it is written in.

  /** The job's own check passes the response, or, without one, its status is a success. */
  predicate Passes(job: Job, r: Response)
  {
    if job.check.Some? then job.check.value(r) else r.status / 100 == 2
  }

  /** How often the job may be tried again: never under the policies 1, which discards, and 3, which stops
      the scraping; otherwise as often as it asks for, up to five times. */
  function RetriesAllowed(job: Job): nat
  {
    if job.policy in {1, 3} || job.maxRetries < 0 then 0
    else if job.maxRetries < 5 then job.maxRetries
    else 5
  }

  /** The responses before the last attempt were all rejected, and the last attempt was accepted or was the
      last one allowed. Its response is returned, with an error if it was rejected without one. */
  ghost predicate IsFetch(job: Job, fetch: nat -> Response, ans: Response, attempts: nat)
  {
    && 1 <= attempts <= 1 + RetriesAllowed(job)
    && (forall i: nat | i < attempts - 1 :: !Passes(job, fetch(i)))
    && var last := fetch(attempts - 1);
       if Passes(job, last) then ans == last
       else
         && attempts == 1 + RetriesAllowed(job)
         && ans == Response(last.status, last.body,
                            if last.error.Some? then last.error else Some(StatusCode(last.status)))
  }

  /** The sleeps of a fetch: none but under policy 0, which sleeps before every retry. The default for the
      longest one is two seconds. */
  predicate AreSleeps(job: Job, attempts: nat, sleeps: seq<int>)
  {
    if job.policy == 0 then
      && |sleeps| + 1 == attempts
      && forall i | 0 <= i < |sleeps| ::
           sleeps[i] == Delay(if job.maxRetryDelay == 0 then 2_000_000_000 else job.maxRetryDelay, i)
    else sleeps == []
  }

  lemma WordsAgree(job: Job, r: Response)
    ensures Passes(job, r) <==> Accepts(job, r)
    ensures Attempts(job) == 1 + RetriesAllowed(job)
  {
  }

  /** The loop. Beside the response it gives the number of attempts, the sleeps, and whether scraping
      was cancelled. */
  method DoFetch(job: Job, fetch: nat -> Response)
    returns (ans: Response, attempts: nat, sleeps: seq<int>, cancelled: bool)
    ensures IsFetch(job, fetch, ans, attempts) && AreSleeps(job, attempts, sleeps)
    ensures cancelled <==> job.policy == 3 && !Passes(job, fetch(0))
    ensures ans == FetchResult(job, fetch)
  {
    var maxRetries := MaxRetries(job);
    var delay := FIRST_DELAY;
    var retry := 0;
    attempts, sleeps, cancelled := 0, [], false;
    while true
      invariant 0 <= retry == attempts < Attempts(job)
      invariant forall i: nat | i < attempts :: !Accepts(job, fetch(i))
      invariant delay == if job.policy == RETRY_JOB then Delay(MaxRetryDelay(job), retry) else FIRST_DELAY
      invariant sleeps == if job.policy == RETRY_JOB then Delays(MaxRetryDelay(job), retry) else []
      invariant !cancelled
      decreases Attempts(job) - retry
    {
      ans := fetch(attempts);
      attempts := attempts + 1;
      var ok := Accepts(job, ans);
      if ok { break; }
      if job.policy == DISCARD_JOB { break; }
      if job.policy == STOP_SCRAPING {
        cancelled := true;
        break;
      }
      if retry >= maxRetries { break; }
      retry := retry + 1;
      if job.policy == RETRY_JOB {
        sleeps := sleeps + [delay];
        if delay > MaxRetryDelay(job) {
          delay := MaxRetryDelay(job);
        } else {
          delay := delay * 2;
        }
      }
    }
    EndingAttemptIsUnique(job, fetch, attempts - 1, EndingAttempt(job, fetch, 0));
    EndIsFetch(job, fetch);
    WordsAgree(job, fetch(0));
    if !Accepts(job, ans) && ans.error == None { ans := ans.(error := Some(StatusCode(ans.status))); }
  }

  lemma EndIsFetch(job: Job, fetch: nat -> Response)
    ensures IsFetch(job, fetch, FetchResult(job, fetch), EndingAttempt(job, fetch, 0) + 1)
  {
    var k := EndingAttempt(job, fetch, 0);
    forall i: nat ensures Passes(job, fetch(i)) <==> Accepts(job, fetch(i)) { WordsAgree(job, fetch(i)); }
    WordsAgree(job, fetch(k));
  }

  /** What a caller of `doFetch` can rely on, whatever the responses. The retries are really made: a job of
      any other policy than 1 and 3 gives up only after as many as it asks for, though at most five. The
      first accepted response among the attempts allowed is the one returned, and it is returned as it is.
      The result has no error exactly when the response was accepted and the fetcher reported none. */
  lemma FetchMeetsItsSpecification(job: Job, fetch: nat -> Response, ans: Response, n: nat)
    requires IsFetch(job, fetch, ans, n)
    ensures var clamp := if job.maxRetries < 0 then 0 else if job.maxRetries > 5 then 5 else job.maxRetries;
            && n <= 1 + clamp
            && (job.policy == 1 || job.policy == 3 ==> n == 1)
            && (job.policy != 1 && job.policy != 3 ==>
                  && ((forall k: nat | k <= clamp :: !Passes(job, fetch(k))) ==> n == 1 + clamp)
                  && forall k: nat | k <= clamp && Passes(job, fetch(k))
                                     && forall i: nat | i < k :: !Passes(job, fetch(i)) ::
                       n == k + 1 && ans == fetch(k))
            && (ans.error == None <==> Passes(job, fetch(n - 1)) && fetch(n - 1).error == None)
            && (job.check == None && ans.error == None ==> 200 <= ans.status < 300)
  {
  }

  // The back-off.

  function Pow2(k: nat): nat { if k == 0 then 1 else 2 * Pow2(k - 1) }

  lemma {:induction false} DoublesWithinTheMaximum(max: int, k: nat)
    requires k == 0 || FIRST_DELAY * Pow2(k - 1) <= max
    ensures Delay(max, k) == FIRST_DELAY * Pow2(k)
  {
    if k > 0 {
      if k > 1 { assert Pow2(k - 1) == 2 * Pow2(k - 2); }
      DoublesWithinTheMaximum(max, k - 1);
    }
  }

  /** The first delay above the maximum is the `j`-th; from there the maximum and its double alternate. */
  lemma {:induction false} AlternatesBeyondTheMaximum(max: int, j: nat, i: nat)
    requires max > 0 && FIRST_DELAY * Pow2(j) > max && (j == 0 || FIRST_DELAY * Pow2(j - 1) <= max)
    ensures Delay(max, j + 1 + 2 * i) == max && Delay(max, j + 2 + 2 * i) == 2 * max
  {
    if i == 0 {
      DoublesWithinTheMaximum(max, j);
      assert Delay(max, j + 1) == max;
      assert Delay(max, j + 2) == 2 * Delay(max, j + 1);
    } else {
      AlternatesBeyondTheMaximum(max, j, i - 1);
      assert j + 2 + 2 * (i - 1) == j + 2 * i;
      assert Delay(max, j + 1 + 2 * i) == max;
      assert Delay(max, j + 2 + 2 * i) == 2 * Delay(max, j + 1 + 2 * i);
    }
  }

  /** Some delay exceeds any maximum. */
  lemma {:induction false} SomeDelayExceeds(max: int, from: nat) returns (j: nat)
    requires from == 0 || FIRST_DELAY * Pow2(from - 1) <= max
    ensures FIRST_DELAY * Pow2(j) > max && (j == 0 || FIRST_DELAY * Pow2(j - 1) <= max)
    decreases max - FIRST_DELAY * Pow2(from)
  {
    if FIRST_DELAY * Pow2(from) > max {
      j := from;
    } else {
      assert Pow2(from + 1) == 2 * Pow2(from) && Pow2(from) > 0 by { Pow2Positive(from); }
      j := SomeDelayExceeds(max, from + 1);
    }
  }

  lemma {:induction false} Pow2Positive(k: nat)
    ensures Pow2(k) > 0
  {
    if k > 0 { Pow2Positive(k - 1); }
  }

  /** The delay `k` of a sequence that starts with 100 milliseconds and whose first delay above the maximum
      is the `j`-th. */
  function DelayFrom(max: int, j: nat, k: nat): int
  {
    if k <= j then 100_000_000 * Pow2(k) else if (k - j) % 2 == 1 then max else 2 * max
  }

  /** All delays are those of a sequence that turns at the `j`-th. */
  ghost predicate AlternateFrom(max: int, j: nat)
  {
    forall k: nat :: Delay(max, k) == DelayFrom(max, j, k)
  }

  lemma DelayIs(max: int, j: nat, k: nat)
    requires max > 0 && DelaysTurnAt(max, j)
    ensures Delay(max, k) == DelayFrom(max, j, k)
  {
    if k <= j {
      DoublesUpTo(max, j, k);
    } else if (k - j) % 2 == 1 {
      var i := (k - j) / 2;
      AlternatesBeyondTheMaximum(max, j, i);
      assert k == j + 1 + 2 * i;
    } else {
      var i := (k - j) / 2 - 1;
      AlternatesBeyondTheMaximum(max, j, i);
      assert k == j + 2 + 2 * i;
    }
  }

  lemma {:induction false} NegativeDelay(max: int, k: nat)
    requires max <= 0 && k > 0
    ensures Delay(max, k) == max * Pow2(k - 1) <= 0
  {
    Pow2Positive(k - 1);
    if k > 1 {
      NegativeDelay(max, k - 1);
      Pow2Positive(k - 2);
      assert max * Pow2(k - 2) <= max;
      assert max * (2 * Pow2(k - 2)) == 2 * (max * Pow2(k - 2));
    }
  }

  /** The whole sequence of delays. For a positive maximum they double up to and including the first one
      above the maximum, and then the maximum and its double take turns. Otherwise the first delay is
      followed by multiples of the maximum, and a sleep for a negative time returns at once. */
  lemma DelaysInClosedForm(max: int)
    ensures max > 0 ==> exists j: nat :: DelaysTurnAt(max, j) && AlternateFrom(max, j)
    ensures max <= 0 ==>
              Delay(max, 0) == 100_000_000 && forall k: nat | k > 0 :: Delay(max, k) == max * Pow2(k - 1) <= 0
  {
    if max > 0 {
      var j := SomeDelayExceeds(max, 0);
      forall k: nat ensures Delay(max, k) == DelayFrom(max, j, k) { DelayIs(max, j, k); }
      assert DelaysTurnAt(max, j) && AlternateFrom(max, j);
    } else {
      forall k: nat | k > 0 ensures Delay(max, k) == max * Pow2(k - 1) <= 0 { NegativeDelay(max, k); }
    }
  }

  predicate DelaysTurnAt(max: int, j: nat)
  {
    100_000_000 * Pow2(j) > max && (j == 0 || 100_000_000 * Pow2(j - 1) <= max)
  }

  lemma {:induction false} Pow2Monotone(i: nat, j: nat)
    requires i <= j
    ensures Pow2(i) <= Pow2(j)
  {
    if i < j { Pow2Monotone(i, j - 1); }
  }

  lemma DoublesUpTo(max: int, j: nat, k: nat)
    requires DelaysTurnAt(max, j) && k <= j
    ensures Delay(max, k) == FIRST_DELAY * Pow2(k)
  {
    if k > 0 { Pow2Monotone(k - 1, j - 1); }
    DoublesWithinTheMaximum(max, k);
  }

  /** No sleep exceeds the larger of the first delay and twice the maximum, nor plain doubling. */
  lemma {:induction false} DelayBounds(max: int, k: nat)
    ensures Delay(max, k) <= if 100_000_000 > 2 * max then 100_000_000 else 2 * max
    ensures Delay(max, k) <= 100_000_000 * Pow2(k)
    ensures max > 0 ==> Delay(max, k) > 0
  {
    Pow2Positive(k);
    if k > 0 {
      Pow2Positive(k - 1);
      DelayBounds(max, k - 1);
    }
  }

  /** How long the sleeps take together. */
  function TimeAsleep(sleeps: seq<int>): nat
  {
    if sleeps == [] then 0
    else
      var last := sleeps[|sleeps| - 1];
      TimeAsleep(sleeps[..|sleeps| - 1]) + if last > 0 then last else 0
  }

  lemma LastSleep(max: int, k: nat)
    requires k > 0
    ensures var last := Delay(max, k - 1);
            TimeAsleep(Delays(max, k)) == TimeAsleep(Delays(max, k - 1)) + if last > 0 then last else 0
  {
    assert Delays(max, k)[..k - 1] == Delays(max, k - 1);
  }

  lemma OneDoublingMore(asleep: nat, last: int, p: nat)
    requires p > 0 && asleep <= FIRST_DELAY * (p - 1) && last <= FIRST_DELAY * p
    ensures asleep + (if last > 0 then last else 0) <= FIRST_DELAY * (2 * p - 1)
  {
  }

  /** `k` retries sleep no longer than 100 * (2^k - 1) milliseconds together, whatever the maximum. */
  lemma {:induction false} TotalSleep(max: int, k: nat)
    ensures TimeAsleep(Delays(max, k)) <= 100_000_000 * (Pow2(k) - 1)
  {
    if k > 0 {
      TotalSleep(max, k - 1);
      DelayBounds(max, k - 1);
      Pow2Positive(k - 1);
      LastSleep(max, k);
      OneDoublingMore(TimeAsleep(Delays(max, k - 1)), Delay(max, k - 1), Pow2(k - 1));
    }
  }

  /** Under the cap on retries a fetch sleeps at most 3100 milliseconds. */
  lemma CappedTotalSleep(job: Job, attempts: nat, sleeps: seq<int>)
    requires 1 <= attempts <= 1 + RetriesAllowed(job) && AreSleeps(job, attempts, sleeps)
    ensures TimeAsleep(sleeps) <= 3_100_000_000
  {
    if job.policy == 0 {
      var max := if job.maxRetryDelay == 0 then 2_000_000_000 else job.maxRetryDelay;
      assert sleeps == Delays(max, attempts - 1);
      TotalSleep(max, attempts - 1);
      Pow2Monotone(attempts - 1, 5);
      assert Pow2(5) == 32;
    }
  }

  /** The documented cap: no sleep is longer than the maximum delay. It holds of `k` sleeps if and only if
      doubling alone does not get past the maximum before the last of them. */
  lemma SleepsStayWithinTheMaximum(max: int, k: nat)
    ensures (forall i: nat | i < k :: Delay(max, i) <= max) <==> k == 0 || 100_000_000 * Pow2(k - 1) <= max
  {
    if k > 0 {
      if FIRST_DELAY * Pow2(k - 1) <= max {
        forall i: nat | i < k ensures Delay(max, i) <= max {
          Pow2Monotone(i, k - 1);
          if i > 0 { Pow2Monotone(i - 1, k - 1); }
          DoublesWithinTheMaximum(max, i);
        }
      } else if max <= 0 {
        assert Delay(max, 0) > max;
      } else {
        var j := SomeDelayExceeds(max, 0);
        if j > k - 1 { Pow2Monotone(k - 1, j - 1); }
        DoublesUpTo(max, j, j);
        assert Delay(max, j) > max;
      }
    }
  }

  /** With the default maximum the cap holds for every fetch. */
  lemma DefaultMaximumIsKept(job: Job, attempts: nat, sleeps: seq<int>, i: nat)
    requires 1 <= attempts <= 1 + RetriesAllowed(job) && AreSleeps(job, attempts, sleeps)
    requires job.maxRetryDelay == 0 && i < |sleeps|
    ensures sleeps[i] <= 2_000_000_000
  {
    Pow2Monotone(attempts - 2, 4);
    assert Pow2(4) == 16;
    SleepsStayWithinTheMaximum(2_000_000_000, attempts - 1);
  }
}
