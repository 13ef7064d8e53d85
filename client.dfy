/**
 * The rate-limited GitHub REST client (internal/github/client.go).
 *
 * The network is replaced by a `Call`: the clock reading when `get` starts
 * and the server's answer to each attempt. Sleeping is replaced by a trace
 * of the durations chosen, in whole seconds.
 */
module GitHub {
  import opened Wrappers
  import opened StrConv
  import opened Records

  const MaxRetries: nat := 3
  /** defaultFallbackSleep, in seconds. */
  const DefaultFallbackSleep: int := 60
  /** rateLimitResetBuffer, in seconds. */
  const RateLimitResetBuffer: int := 5
  const PerPage: nat := 100

  const StatusOK: int := 200
  const StatusForbidden: int := 403
  const StatusTooManyRequests: int := 429

  /** The zero time.Time (January 1, year 1, UTC) as seconds since the Unix epoch. */
  const ZeroTimeUnix: int := -62135596800

  const NanosPerSecond: int := 1_000_000_000

  /** The three response headers the client reads; "" when absent, as Header.Get returns. */
  datatype Headers = Headers(rateLimitRemaining: string, rateLimitReset: string, retryAfter: string)

  /**
   * What one attempt sees: a transport error (from building or sending the
   * request), or a response. `body` is None when the JSON body does not
   * decode; `at` is the clock reading when the response is handled.
   */
  datatype Exchange<T> =
    | TransportFailure
    | Response(status: int, headers: Headers, body: Option<T>, at: int)

  /** The world one call of `get` runs in: the clock on entry and the answer to attempt k. */
  datatype Call<T> = Call(now: int, reply: nat -> Exchange<T>)

  datatype GetError =
    | Transport
    | DecodeFailure
    | UnexpectedStatus(status: int)
    | SecondaryRateLimited
    | PrimaryRateLimited
    | ExceededMaxRetries

  datatype Sleep =
    | PreemptiveWait(seconds: int)
    | SecondaryBackoff(seconds: int)
    | PrimaryBackoff(seconds: int)

  /** The client's two mutable fields, rateLimitRemaining and rateLimitReset (Unix seconds). */
  datatype RateLimit = RateLimit(remaining: int, reset: int)

  /** The state NewClient creates: remaining unknown (-1), reset the zero time. */
  const InitialRateLimit: RateLimit := RateLimit(-1, ZeroTimeUnix)

  /** updateRateLimit: each field is replaced only by a header that is present and parses. */
  function RateLimitAfter(st: RateLimit, h: Headers): (st': RateLimit)
    ensures st'.remaining == (match ParseInt64(h.rateLimitRemaining)
                              case Some(n) => n
                              case None => st.remaining)
    ensures st'.reset == (match ParseInt64(h.rateLimitReset)
                          case Some(n) => n
                          case None => st.reset)
  {
    var remaining :=
      if h.rateLimitRemaining != "" && ParseInt64(h.rateLimitRemaining).Some?
      then ParseInt64(h.rateLimitRemaining).value else st.remaining;
    var reset :=
      if h.rateLimitReset != "" && ParseInt64(h.rateLimitReset).Some?
      then ParseInt64(h.rateLimitReset).value else st.reset;
    RateLimit(remaining, reset)
  }

  /**
   * The duration sleepSecondaryRateLimit chooses: Retry-After seconds when the
   * header parses to a positive number, the fallback otherwise.
   */
  function SecondarySleep(retryAfter: string): (d: int)
    ensures d >= 1
    ensures d == DefaultFallbackSleep || ParseInt64(retryAfter) == Some(d)
    ensures (ParseInt64(retryAfter).Some? && ParseInt64(retryAfter).value > 0) ==> ParseInt64(retryAfter) == Some(d)
  {
    if retryAfter != "" && ParseInt64(retryAfter).Some? && ParseInt64(retryAfter).value > 0
    then ParseInt64(retryAfter).value
    else DefaultFallbackSleep
  }

  /**
   * The same choice as a time.Duration, as the source computes it:
   * time.Duration(secs) * time.Second in int64 nanoseconds, which wraps.
   */
  function SecondarySleepNanosAsWritten(retryAfter: string): (d: int)
    ensures MinInt64 <= d <= MaxInt64
  {
    if retryAfter != "" && ParseInt64(retryAfter).Some? && ParseInt64(retryAfter).value > 0
    then WrapInt64(ParseInt64(retryAfter).value * NanosPerSecond)
    else DefaultFallbackSleep * NanosPerSecond
  }

  /** Two's-complement wrap-around of an int64 product. */
  function WrapInt64(x: int): (r: int)
    ensures MinInt64 <= r <= MaxInt64
    ensures (x - r) % 0x1_0000_0000_0000_0000 == 0
  {
    var m := x % 0x1_0000_0000_0000_0000;
    if m > MaxInt64 then m - 0x1_0000_0000_0000_0000 else m
  }

  /**
   * The duration sleepPrimaryRateLimit chooses at clock `now`: until the reset
   * time plus the buffer when the reset header parses and that is positive,
   * the fallback otherwise.
   */
  function PrimarySleep(resetHeader: string, now: int): (d: int)
    ensures d > 0
    ensures d == DefaultFallbackSleep || (ParseInt64(resetHeader).Some? && d == ParseInt64(resetHeader).value - now + RateLimitResetBuffer)
    ensures (ParseInt64(resetHeader).Some? && ParseInt64(resetHeader).value - now + RateLimitResetBuffer > 0)
      ==> d == ParseInt64(resetHeader).value - now + RateLimitResetBuffer
  {
    if resetHeader != "" && ParseInt64(resetHeader).Some?
       && ParseInt64(resetHeader).value - now + RateLimitResetBuffer > 0
    then ParseInt64(resetHeader).value - now + RateLimitResetBuffer
    else DefaultFallbackSleep
  }

  /** The wait `get` performs before its first attempt, as a trace of zero or one sleep. */
  function PreemptiveSleeps(st: RateLimit, now: int): seq<Sleep>
  {
    if st.remaining == 0 && st.reset - now + RateLimitResetBuffer > 0
    then [PreemptiveWait(st.reset - now + RateLimitResetBuffer)]
    else []
  }

  /** How one attempt ends: `get` returns, or it sleeps and may try again. */
  datatype Step<T> =
    | Finish(result: Result<T, GetError>, rateHeaders: Option<Headers>)
    | Backoff(pause: Sleep)

  /** The switch on the status code in `get`, for one exchange. */
  function Handle<T>(e: Exchange<T>): (s: Step<T>)
    ensures s.Backoff? <==>
      e.Response? && (e.status == StatusTooManyRequests
                      || (e.status == StatusForbidden && e.headers.rateLimitRemaining == "0"))
    ensures s.Finish? && s.result.Success? ==> e.Response? && e.status == StatusOK && e.body == Some(s.result.value)
  {
    match e
    case TransportFailure => Finish(Failure(Transport), None)
    case Response(status, headers, body, at) =>
      if status == StatusOK then
        Finish(if body.Some? then Success(body.value) else Failure(DecodeFailure), Some(headers))
      else if status == StatusTooManyRequests then
        Backoff(SecondaryBackoff(SecondarySleep(headers.retryAfter)))
      else if status == StatusForbidden then
        if headers.rateLimitRemaining != "0" then Finish(Failure(UnexpectedStatus(status)), None)
        else Backoff(PrimaryBackoff(PrimarySleep(headers.rateLimitReset, at)))
      else
        Finish(Failure(UnexpectedStatus(status)), None)
  }

  /** The error `get` returns when a back-off happens on its last attempt. */
  function Exhausted(pause: Sleep): GetError
  {
    match pause
    case SecondaryBackoff(_) => SecondaryRateLimited
    case PrimaryBackoff(_) => PrimaryRateLimited
    case PreemptiveWait(_) => ExceededMaxRetries
  }

  /**
   * The attempts `get` makes from attempt number `attempt` on: the result,
   * how many attempts were made, the back-offs slept, and the headers of
   * the 200 response that ended the call, if one did.
   */
  datatype Attempts<T> = Attempts(result: Result<T, GetError>, count: nat, pauses: seq<Sleep>, rateHeaders: Option<Headers>)

  function Run<T>(reply: nat -> Exchange<T>, attempt: nat): (o: Attempts<T>)
    requires attempt <= MaxRetries
    ensures attempt < MaxRetries ==> 1 <= o.count <= MaxRetries - attempt
    ensures |o.pauses| <= o.count
    decreases MaxRetries - attempt
  {
    if attempt == MaxRetries then Attempts(Failure(ExceededMaxRetries), 0, [], None)
    else
      match Handle(reply(attempt))
      case Finish(r, h) => Attempts(r, 1, [], h)
      case Backoff(p) =>
        if MaxRetries - attempt - 1 == 0 then Attempts(Failure(Exhausted(p)), 1, [p], None)
        else
          var rest := Run(reply, attempt + 1);
          Attempts(rest.result, rest.count + 1, [p] + rest.pauses, rest.rateHeaders)
  }

  /** A back-off on an attempt before the last one is the first pause of the attempts from there on. */
  lemma AppendPause<T>(sleeps: seq<Sleep>, p: Sleep, reply: nat -> Exchange<T>, attempt: nat)
    requires attempt < MaxRetries - 1 && Handle(reply(attempt)) == Backoff(p)
    ensures sleeps + Run(reply, attempt).pauses == (sleeps + [p]) + Run(reply, attempt + 1).pauses
  {
    assert Run(reply, attempt).pauses == [p] + Run(reply, attempt + 1).pauses;
  }

  /** What one call of `get` returns, how many attempts it made, what it slept and the new state. */
  datatype GetOutcome<T> = GetOutcome(result: Result<T, GetError>, attempts: nat, sleeps: seq<Sleep>, state: RateLimit)

  function GetSpec<T>(st: RateLimit, call: Call<T>): (o: GetOutcome<T>)
    ensures 1 <= o.attempts <= MaxRetries
  {
    var run := Run(call.reply, 0);
    GetOutcome(
      run.result,
      run.count,
      PreemptiveSleeps(st, call.now) + run.pauses,
      if run.rateHeaders.Some? then RateLimitAfter(st, run.rateHeaders.value) else st)
  }

  /** The result of a call, which does not depend on the rate-limit state. */
  function FetchResult<T>(call: Call<T>): Result<T, GetError>
  {
    Run(call.reply, 0).result
  }

  /** The logins of one page of seats, in order. */
  function Logins(seats: seq<CopilotSeat>): (logins: seq<string>)
    ensures |logins| == |seats|
  {
    if |seats| == 0 then [] else Logins(seats[..|seats| - 1]) + [seats[|seats| - 1].assignee.login]
  }

  lemma {:induction false} LoginsAt(seats: seq<CopilotSeat>, j: nat)
    requires j < |seats|
    ensures Logins(seats)[j] == seats[j].assignee.login
  {
    if j < |seats| - 1 {
      LoginsAt(seats[..|seats| - 1], j);
    }
  }

  /** The loop of ListCopilotSeats that appends the login of each seat of a page. */
  method AppendLogins(logins: seq<string>, seats: seq<CopilotSeat>) returns (out: seq<string>)
    ensures out == logins + Logins(seats)
  {
    out := logins;
    var j := 0;
    while j < |seats|
      invariant j <= |seats|
      invariant out == logins + Logins(seats[..j])
    {
      assert seats[..j + 1][..j] == seats[..j];
      out := out + [seats[j].assignee.login];
      j := j + 1;
    }
    assert seats[..|seats|] == seats;
  }

  /** What `get` returns for each page request, in page order. */
  function Fetched(pages: seq<Call<SeatsResponse>>): (results: seq<Result<SeatsResponse, GetError>>)
    ensures |results| == |pages|
  {
    if |pages| == 0 then [] else Fetched(pages[..|pages| - 1]) + [FetchResult(pages[|pages| - 1])]
  }

  lemma {:induction false} FetchedAt(pages: seq<Call<SeatsResponse>>, k: nat)
    requires k < |pages|
    ensures Fetched(pages)[k] == FetchResult(pages[k])
    decreases |pages|
  {
    if k < |pages| - 1 {
      FetchedAt(pages[..|pages| - 1], k);
    }
  }

  /** A page result ends the listing: the request failed, or the page is short. */
  predicate PageEnds(r: Result<SeatsResponse, GetError>)
  {
    r.Failure? || |r.value.seats| < PerPage
  }

  /** The last page result ends the listing, so the loop over pages stops within the pages given. */
  predicate Terminates(results: seq<Result<SeatsResponse, GetError>>)
  {
    |results| > 0 && PageEnds(results[|results| - 1])
  }

  datatype SeatsError = SeatsPageError(page: nat, cause: GetError)

  datatype UsageError = UsageFetchError(user: string, cause: GetError)

  /** Logins gathered before a page prefixed to the outcome of the pages from there on. */
  function Prefixed(logins: seq<string>, rest: Result<seq<string>, SeatsError>): Result<seq<string>, SeatsError>
  {
    match rest
    case Success(more) => Success(logins + more)
    case Failure(e) => Failure(e)
  }

  lemma PrefixedTwice(a: seq<string>, b: seq<string>, rest: Result<seq<string>, SeatsError>)
    ensures Prefixed(a, Prefixed(b, rest)) == Prefixed(a + b, rest)
  {
    if rest.Success? {
      assert a + (b + rest.value) == (a + b) + rest.value;
    }
  }

  /**
   * What ListCopilotSeats returns from page i + 1 on, where results[i] is what
   * `get` returns for page i + 1: it is read off the page results alone.
   */
  function Listed(results: seq<Result<SeatsResponse, GetError>>, i: nat): (r: Result<seq<string>, SeatsError>)
    requires Terminates(results) && i < |results|
    ensures r.Failure? ==> i < r.error.page <= |results|
    decreases |results| - i
  {
    match results[i]
    case Failure(e) => Failure(SeatsPageError(i + 1, e))
    case Success(resp) =>
      if |resp.seats| < PerPage then Success(Logins(resp.seats))
      else Prefixed(Logins(resp.seats), Listed(results, i + 1))
  }

  /** The page numbers ListCopilotSeats requests from page i + 1 on, in request order. */
  function Requested(results: seq<Result<SeatsResponse, GetError>>, i: nat): (pages: seq<nat>)
    requires Terminates(results) && i < |results|
    ensures 1 <= |pages| <= |results| - i
    decreases |results| - i
  {
    if PageEnds(results[i]) then [i + 1] else [i + 1] + Requested(results, i + 1)
  }

  /** The rate-limit state of the client and the sleeps so far. */
  datatype Progress = Progress(state: RateLimit, sleeps: seq<Sleep>)

  /**
   * The rate-limit state and the sleeps, in order, after `get` has been
   * called on the first n page worlds in turn, from state st.
   */
  function ProgressAfter(st: RateLimit, pages: seq<Call<SeatsResponse>>, n: nat): Progress
    requires n <= |pages|
    decreases n, 0
  {
    if n == 0 then Progress(st, []) else CallProgress(st, pages, n - 1)
  }

  /** The progress once `get` is called on page world k after the first k. */
  function CallProgress(st: RateLimit, pages: seq<Call<SeatsResponse>>, k: nat): Progress
    requires k < |pages|
    decreases k, 1
  {
    var before := ProgressAfter(st, pages, k);
    var o := GetSpec(before.state, pages[k]);
    Progress(o.state, before.sleeps + o.sleeps)
  }

  /** The page numbers 1 .. n, in order. */
  function PageNumbers(n: nat): (ns: seq<nat>)
    ensures |ns| == n
  {
    if n == 0 then [] else PageNumbers(n - 1) + [n]
  }

  /** The first n page results are all full pages, so none of them ends the listing. */
  predicate FullBefore(results: seq<Result<SeatsResponse, GetError>>, n: nat)
  {
    n <= |results| && forall k :: 0 <= k < n ==> !PageEnds(results[k])
  }

  /** The logins of the first n page results, which are full pages, in order. */
  function LoginsBefore(results: seq<Result<SeatsResponse, GetError>>, n: nat): seq<string>
    requires FullBefore(results, n)
  {
    if n == 0 then [] else LoginsBefore(results, n - 1) + Logins(results[n - 1].value.seats)
  }

  /** After n full pages, the listing is what those pages gathered prefixed to the listing from page n + 1 on. */
  lemma {:induction false} ListedFrom(results: seq<Result<SeatsResponse, GetError>>, n: nat)
    requires Terminates(results) && FullBefore(results, n) && n < |results|
    ensures Listed(results, 0) == Prefixed(LoginsBefore(results, n), Listed(results, n))
  {
    if n == 0 {
      if Listed(results, 0).Success? {
        assert [] + Listed(results, 0).value == Listed(results, 0).value;
      }
    } else {
      ListedFrom(results, n - 1);
      PrefixedTwice(LoginsBefore(results, n - 1), Logins(results[n - 1].value.seats), Listed(results, n));
    }
  }

  /** After n full pages, the requests so far are pages 1 .. n. */
  lemma {:induction false} RequestedFrom(results: seq<Result<SeatsResponse, GetError>>, n: nat)
    requires Terminates(results) && FullBefore(results, n) && n < |results|
    ensures Requested(results, 0) == PageNumbers(n) + Requested(results, n)
  {
    if n == 0 {
      assert Requested(results, 0) == [] + Requested(results, 0);
    } else {
      RequestedFrom(results, n - 1);
      assert PageNumbers(n - 1) + ([n] + Requested(results, n)) == PageNumbers(n) + Requested(results, n);
    }
  }

  /**
   * When page n + 1 is the first to end the listing, pages 1 .. n + 1 were
   * requested, and the listing is that page's error or the logins of all
   * n + 1 pages.
   */
  lemma ListingEndsAt(results: seq<Result<SeatsResponse, GetError>>, n: nat)
    requires Terminates(results) && FullBefore(results, n) && n < |results| && PageEnds(results[n])
    ensures Requested(results, 0) == PageNumbers(n + 1)
    ensures Listed(results, 0) == match results[n]
      case Failure(e) => Failure(SeatsPageError(n + 1, e))
      case Success(resp) => Success(LoginsBefore(results, n) + Logins(resp.seats))
  {
    ListedFrom(results, n);
    RequestedFrom(results, n);
  }

  class Client {
    const token: string
    var rateLimitRemaining: int
    var rateLimitReset: int

    function State(): RateLimit
      reads this
    {
      RateLimit(rateLimitRemaining, rateLimitReset)
    }

    /** NewClient. */
    constructor (token: string)
      ensures this.token == token
      ensures State() == InitialRateLimit
    {
      this.token := token;
      rateLimitRemaining := -1;
      rateLimitReset := ZeroTimeUnix;
    }

    method UpdateRateLimit(h: Headers)
      modifies this
      ensures State() == RateLimitAfter(old(State()), h)
    {
      if h.rateLimitRemaining != "" {
        var n := ParseInt64(h.rateLimitRemaining);
        if n.Some? {
          rateLimitRemaining := n.value;
        }
      }
      if h.rateLimitReset != "" {
        var unix := ParseInt64(h.rateLimitReset);
        if unix.Some? {
          rateLimitReset := unix.value;
        }
      }
    }

    /** get: one preemptive wait at most, then up to MaxRetries attempts. */
    method Get<T(==)>(call: Call<T>) returns (r: Result<T, GetError>, attempts: nat, sleeps: seq<Sleep>)
      modifies this
      ensures var o := GetSpec(old(State()), call);
        r == o.result && attempts == o.attempts && sleeps == o.sleeps && State() == o.state
    {
      ghost var st0 := State();
      sleeps := [];
      if rateLimitRemaining == 0 {
        var d := rateLimitReset - call.now + RateLimitResetBuffer;
        if d > 0 {
          sleeps := [PreemptiveWait(d)];
        }
      }
      ghost var whole := Run(call.reply, 0);
      var attempt: nat := 0;
      while attempt < MaxRetries
        invariant attempt <= MaxRetries
        invariant State() == st0
        invariant var rest := Run(call.reply, attempt);
          && whole.result == rest.result
          && whole.count == attempt + rest.count
          && PreemptiveSleeps(st0, call.now) + whole.pauses == sleeps + rest.pauses
          && whole.rateHeaders == rest.rateHeaders
      {
        var e := call.reply(attempt);
        match e {
          case TransportFailure =>
            r, attempts := Failure(Transport), attempt + 1;
            return;
          case Response(status, headers, body, at) =>
            if status == StatusOK {
              UpdateRateLimit(headers);
              r := if body.Some? then Success(body.value) else Failure(DecodeFailure);
              attempts := attempt + 1;
              return;
            } else if status == StatusTooManyRequests {
              var retriesRemaining := MaxRetries - attempt - 1;
              var waited := SecondarySleep(headers.retryAfter);
              ghost var before := sleeps;
              sleeps := sleeps + [SecondaryBackoff(waited)];
              if retriesRemaining == 0 {
                r, attempts := Failure(SecondaryRateLimited), attempt + 1;
                return;
              }
              AppendPause(before, SecondaryBackoff(waited), call.reply, attempt);
            } else if status == StatusForbidden {
              if headers.rateLimitRemaining != "0" {
                r, attempts := Failure(UnexpectedStatus(status)), attempt + 1;
                return;
              }
              var retriesRemaining := MaxRetries - attempt - 1;
              var waited := PrimarySleep(headers.rateLimitReset, at);
              ghost var before := sleeps;
              sleeps := sleeps + [PrimaryBackoff(waited)];
              if retriesRemaining == 0 {
                r, attempts := Failure(PrimaryRateLimited), attempt + 1;
                return;
              }
              AppendPause(before, PrimaryBackoff(waited), call.reply, attempt);
            } else {
              r, attempts := Failure(UnexpectedStatus(status)), attempt + 1;
              return;
            }
        }
        attempt := attempt + 1;
      }
      r, attempts := Failure(ExceededMaxRetries), attempt;
    }

    /** One request of the pagination loop: `get` on the world of page n + 1. */
    method FetchPage(ghost st0: RateLimit, pages: seq<Call<SeatsResponse>>, n: nat)
      returns (resp: Result<SeatsResponse, GetError>, slept: seq<Sleep>)
      requires n < |pages|
      requires State() == ProgressAfter(st0, pages, n).state
      modifies this
      ensures resp == Fetched(pages)[n]
      ensures ProgressAfter(st0, pages, n + 1) == Progress(State(), ProgressAfter(st0, pages, n).sleeps + slept)
    {
      var attempts;
      resp, attempts, slept := Get(pages[n]);
      FetchedAt(pages, n);
    }

    /** ListCopilotSeats: request pages 1, 2, ... until a page has fewer than PerPage seats. */
    method ListCopilotSeats(enterprise: string, pages: seq<Call<SeatsResponse>>)
      returns (r: Result<seq<string>, SeatsError>, requested: seq<nat>, sleeps: seq<Sleep>)
      requires Terminates(Fetched(pages))
      modifies this
      ensures r == Listed(Fetched(pages), 0)
      ensures requested == Requested(Fetched(pages), 0)
      ensures ProgressAfter(old(State()), pages, |requested|) == Progress(State(), sleeps)
    {
      ghost var results := Fetched(pages);
      ghost var st0 := State();
      var logins: seq<string> := [];
      var page: nat := 1;
      requested, sleeps := [], [];
      while true
        invariant 1 <= page <= |pages|
        invariant FullBefore(results, page - 1)
        invariant logins == LoginsBefore(results, page - 1)
        invariant requested == PageNumbers(page - 1)
        invariant ProgressAfter(st0, pages, page - 1) == Progress(State(), sleeps)
        decreases |pages| - page
      {
        var resp, slept := FetchPage(st0, pages, page - 1);
        requested, sleeps := requested + [page], sleeps + slept;
        if resp.Failure? {
          ListingEndsAt(results, page - 1);
          r := Failure(SeatsPageError(page, resp.error));
          return;
        }
        var seats := resp.value.seats;
        if |seats| < PerPage {
          ListingEndsAt(results, page - 1);
          logins := AppendLogins(logins, seats);
          break;
        }
        logins := AppendLogins(logins, seats);
        page := page + 1;
      }
      r := Success(logins);
    }

    /** GetUserPremiumUsage: one `get`, its error wrapped with the user. */
    method GetUserPremiumUsage(enterprise: string, user: string, call: Call<UsageResponse>)
      returns (r: Result<UsageResponse, UsageError>)
      modifies this
      ensures var o := GetSpec(old(State()), call);
        State() == o.state
        && r == (match o.result
                 case Success(u) => Success(u)
                 case Failure(e) => Failure(UsageFetchError(user, e)))
    {
      var resp, _, _ := Get(call);
      match resp {
        case Success(u) => r := Success(u);
        case Failure(e) => r := Failure(UsageFetchError(user, e));
      }
    }
  }
}
