/**
 * What the retry state machine of `get` promises, proved about its
 * specification functions in module GitHub (which the methods of
 * GitHub.Client are proved to follow).
 */
module ClientProperties {
  import opened Wrappers
  import opened StrConv
  import opened GitHub

  // ----- preemptive waiting -----

  /** Back-offs chosen by the attempts are rate-limit sleeps of at least one second. */
  lemma {:induction false} PausesAreBackoffs<T>(reply: nat -> Exchange<T>, attempt: nat)
    requires attempt <= MaxRetries
    ensures forall k :: 0 <= k < |Run(reply, attempt).pauses| ==>
      !Run(reply, attempt).pauses[k].PreemptiveWait? && Run(reply, attempt).pauses[k].seconds >= 1
    decreases MaxRetries - attempt
  {
    if attempt < MaxRetries && Handle(reply(attempt)).Backoff? && MaxRetries - attempt - 1 != 0 {
      PausesAreBackoffs(reply, attempt + 1);
    }
  }

  /**
   * `get` waits before its first attempt exactly when the tracked remaining
   * count is 0 and the reset time plus the buffer is still ahead; the wait
   * is that long, comes first, and is the only preemptive wait of the call.
   */
  lemma WaitsOnlyWhenExhausted<T>(st: RateLimit, call: Call<T>)
    ensures var o := GetSpec(st, call);
      && ((|o.sleeps| > 0 && o.sleeps[0].PreemptiveWait?)
          <==> (st.remaining == 0 && st.reset - call.now + RateLimitResetBuffer > 0))
      && (|o.sleeps| > 0 && o.sleeps[0].PreemptiveWait? ==>
            o.sleeps[0].seconds == st.reset - call.now + RateLimitResetBuffer)
      && forall k :: 0 < k < |o.sleeps| ==> !o.sleeps[k].PreemptiveWait?
  {
    PausesAreBackoffs(call.reply, 0);
    var o := GetSpec(st, call);
    var pre := PreemptiveSleeps(st, call.now);
    var run := Run(call.reply, 0);
    assert o.sleeps == pre + run.pauses;
    if |pre| == 0 && |run.pauses| > 0 {
      assert o.sleeps[0] == run.pauses[0];
    }
    forall k | 0 < k < |o.sleeps|
      ensures !o.sleeps[k].PreemptiveWait?
    {
      assert o.sleeps[k] == run.pauses[k - |pre|];
    }
  }

  /** A client fresh from NewClient never waits preemptively on its first `get`. */
  lemma NewClientNeverWaits<T>(call: Call<T>)
    ensures forall k :: 0 <= k < |GetSpec(InitialRateLimit, call).sleeps| ==>
      !GetSpec(InitialRateLimit, call).sleeps[k].PreemptiveWait?
  {
    WaitsOnlyWhenExhausted(InitialRateLimit, call);
  }

  // ----- the retry state machine -----

  /** The back-offs of the attempts from `attempt` on are those the attempts chose, in attempt order. */
  lemma {:induction false} PausesInOrder<T>(reply: nat -> Exchange<T>, attempt: nat)
    requires attempt < MaxRetries
    ensures forall k :: 0 <= k < |Run(reply, attempt).pauses| ==>
      Run(reply, attempt).pauses[k] == Handle(reply(attempt + k)).pause
    decreases MaxRetries - attempt
  {
    if Handle(reply(attempt)).Backoff? && MaxRetries - attempt - 1 != 0 {
      PausesInOrder(reply, attempt + 1);
      var o := Run(reply, attempt);
      var rest := Run(reply, attempt + 1);
      assert o.pauses == [Handle(reply(attempt)).pause] + rest.pauses;
      forall k | 0 < k < |o.pauses|
        ensures o.pauses[k] == Handle(reply(attempt + k)).pause
      {
        assert o.pauses[k] == rest.pauses[k - 1];
      }
    }
  }

  /**
   * The exact shape of a call: every attempt before the last backed off, the
   * last attempt decides the result (its own result when it finished, the
   * exhausted-retries error of its kind when it backed off, which can only
   * happen on attempt MaxRetries), and the sleeps are the back-offs in order.
   */
  lemma {:induction false} LastAttemptDecides<T>(reply: nat -> Exchange<T>, attempt: nat)
    requires attempt < MaxRetries
    ensures var o := Run(reply, attempt);
      var last := attempt + o.count - 1;
      && 1 <= o.count && last < MaxRetries
      && (forall k :: attempt <= k < last ==> Handle(reply(k)).Backoff?)
      && (Handle(reply(last)).Finish? ==>
            o.result == Handle(reply(last)).result
            && o.rateHeaders == Handle(reply(last)).rateHeaders
            && |o.pauses| == o.count - 1)
      && (Handle(reply(last)).Backoff? ==>
            last == MaxRetries - 1
            && o.result == Failure(Exhausted(Handle(reply(last)).pause))
            && o.rateHeaders == None
            && |o.pauses| == o.count)
      && (forall k :: 0 <= k < |o.pauses| ==> o.pauses[k] == Handle(reply(attempt + k)).pause)
    decreases MaxRetries - attempt
  {
    PausesInOrder(reply, attempt);
    if Handle(reply(attempt)).Backoff? && MaxRetries - attempt - 1 != 0 {
      LastAttemptDecides(reply, attempt + 1);
    }
  }

  /** The final "exceeded max retries" return of `get` is unreachable. */
  lemma NeverExceedsMaxRetries<T>(reply: nat -> Exchange<T>)
    ensures Run(reply, 0).result != Failure(ExceededMaxRetries)
  {
    LastAttemptDecides(reply, 0);
    var o := Run(reply, 0);
    var last := o.count - 1;
    if Handle(reply(last)).Backoff? {
      assert Handle(reply(last)).pause.SecondaryBackoff? || Handle(reply(last)).pause.PrimaryBackoff?;
    } else {
      assert Handle(reply(last)).result != Failure(ExceededMaxRetries);
    }
  }

  /**
   * A transport error, a status other than 200, 403 and 429, and a 403 whose
   * X-RateLimit-Remaining is not exactly the text "0" all end `get` after one
   * attempt, with no back-off and no change to the rate-limit state.
   */
  lemma ImmediateFailure<T>(st: RateLimit, call: Call<T>)
    requires
      || call.reply(0).TransportFailure?
      || (call.reply(0).Response? && call.reply(0).status !in {StatusOK, StatusForbidden, StatusTooManyRequests})
      || (call.reply(0).Response? && call.reply(0).status == StatusForbidden
          && call.reply(0).headers.rateLimitRemaining != "0")
    ensures var o := GetSpec(st, call);
      && o.attempts == 1
      && o.sleeps == PreemptiveSleeps(st, call.now)
      && o.state == st
      && o.result == Failure(if call.reply(0).TransportFailure? then Transport
                             else UnexpectedStatus(call.reply(0).status))
  {
  }

  /**
   * The check for a primary rate limit compares text: a 403 whose
   * X-RateLimit-Remaining reads "00" fails at once as an unexpected status,
   * although the header parses to 0.
   */
  lemma ZeroTestIsTextual<T>(st: RateLimit, call: Call<T>)
    requires call.reply(0).Response? && call.reply(0).status == StatusForbidden
    requires call.reply(0).headers.rateLimitRemaining == "00"
    ensures ParseInt64("00") == Some(0)
    ensures GetSpec(st, call).attempts == 1
    ensures GetSpec(st, call).result == Failure(UnexpectedStatus(StatusForbidden))
  {
  }

  /** A 200 response with a decodable body on the first attempt returns that body. */
  lemma OkReturnsBody<T>(st: RateLimit, call: Call<T>)
    requires call.reply(0).Response? && call.reply(0).status == StatusOK && call.reply(0).body.Some?
    ensures var o := GetSpec(st, call);
      && o.result == Success(call.reply(0).body.value)
      && o.attempts == 1
      && o.state == RateLimitAfter(st, call.reply(0).headers)
  {
  }

  /**
   * When the first two attempts hit a rate limit, the third attempt decides:
   * a 429 returns the secondary error, a 403 with remaining "0" the primary
   * one, after three attempts and three back-offs.
   */
  lemma ThirdAttemptVerdict<T>(call: Call<T>)
    requires Handle(call.reply(0)).Backoff? && Handle(call.reply(1)).Backoff?
    requires call.reply(2).Response?
    requires call.reply(2).status == StatusTooManyRequests
          || (call.reply(2).status == StatusForbidden && call.reply(2).headers.rateLimitRemaining == "0")
    ensures var o := Run(call.reply, 0);
      && o.count == 3
      && |o.pauses| == 3
      && o.result == Failure(if call.reply(2).status == StatusTooManyRequests
                             then SecondaryRateLimited else PrimaryRateLimited)
  {
  }

  /**
   * The rate-limit state changes only when `get` ends on a 200 response,
   * and then as updateRateLimit says; 429 and 403 leave it untouched.
   */
  lemma StateChangesOnlyOn200<T>(st: RateLimit, call: Call<T>)
    ensures var o := GetSpec(st, call);
      var last := call.reply(o.attempts - 1);
      && o.attempts >= 1
      && (if last.Response? && last.status == StatusOK
          then o.state == RateLimitAfter(st, last.headers)
          else o.state == st)
  {
    LastAttemptDecides(call.reply, 0);
  }

  /** Every call either succeeds on a 200 or returns one of the error kinds of `get`. */
  lemma SuccessOnlyFrom200<T>(call: Call<T>)
    ensures var o := Run(call.reply, 0);
      o.result.Success? ==> (var last := call.reply(o.count - 1);
        last.Response? && last.status == StatusOK && last.body == Some(o.result.value))
  {
    LastAttemptDecides(call.reply, 0);
  }

  // ----- Retry-After as a time.Duration -----

  /**
   * As written, a Retry-After of 9300000000 seconds is a valid int64 and
   * positive, but time.Duration(secs) * time.Second wraps to a negative
   * duration, so the client does not wait at all before retrying.
   */
  lemma RetryAfterOverflows()
    ensures ParseInt64("9300000000") == Some(9300000000)
    ensures SecondarySleepNanosAsWritten("9300000000") < 0
    ensures SecondarySleep("9300000000") == 9300000000
  {
  }

  /**
   * Below the overflow, the duration as written is exactly the intended
   * number of seconds, which is what the model sleeps.
   */
  lemma RetryAfterExactBelowOverflow(retryAfter: string)
    requires SecondarySleep(retryAfter) * NanosPerSecond <= MaxInt64
    ensures SecondarySleepNanosAsWritten(retryAfter) == SecondarySleep(retryAfter) * NanosPerSecond
  {
  }
}
