# copilot-premium-usage-exporter, modelled in Dafny

This project models the core of the exporter that publishes GitHub Copilot
premium-request usage as Prometheus gauges, and proves properties of the model:

- **The rate-limited GitHub REST client** (`internal/github/client.go`) is the
  class `GitHub.Client`. Its two mutable fields are `rateLimitRemaining` and
  `rateLimitReset`. Its methods are:
  - the constructor (`NewClient`);
  - `UpdateRateLimit`;
  - `Get`, the retry state machine: a preemptive wait when the tracked remaining
    count is 0, then at most three attempts that classify each response as a
    200, a 429 (secondary limit), a 403 with `X-RateLimit-Remaining: 0`
    (primary limit), another 403 or any other status;
  - `ListCopilotSeats`, which pages through the seats 100 at a time and stops at
    the first short page;
  - `GetUserPremiumUsage`.

  Each method is proved against a specification function: `GetSpec` for one
  `get`, and `Listed`, `Requested` and `ProgressAfter` for the listing. The
  properties are then proved about those functions:
  - `ClientProperties` covers the retry state machine;
  - `Pagination` covers the listing.
- **One collection cycle** (`collect` in `cmd/main.go`) is the method
  `Exporter.Collect`:
  1. list the seat holders;
  2. fetch each holder's usage, skipping a holder whose fetch fails;
  3. build one `MetricEntry` (`metricEntry`) per usage item, labelled
     {user, sku, model, enterprise};
  4. publish the entries into three gauge vectors (request amount, gross cost,
     discount), each reset and then set in entry order.

  A gauge vector is the class `Exporter.GaugeVec`, whose state is a map from
  label sets to values.
- **The record shapes** of the API (`internal/github/model.go`) are the
  datatypes of module `Records`. The part of Go's `strconv` that reads the
  rate-limit headers is module `StrConv`.

The network is replaced by a `Call`, a value of two parts:
- the clock reading, in whole seconds, when `get` starts;
- a function giving the server's answer to attempt k. That answer is a
  transport failure, or a response with:
  - a status;
  - the three headers as raw strings, where "" means absent (as `Header.Get`
    returns it);
  - the decoded body, or None when it does not decode;
  - the clock reading when the response is handled.

Sleeping is replaced by a trace of the chosen durations, in seconds. A listing
is given the sequence of worlds its page requests meet. A collection cycle is
given, in addition, the world of each holder's usage request, by position in
the login list.

## Model

| member | source | states |
|---|---|---|
| StrConv.ParseInt64 | internal/github/client.go:39-44 | strconv.ParseInt(s, 10, 64) (and Atoi on 64-bit): an accepted value lies in the int64 range |
| StrConv.ParseInt64Accepts | internal/github/client.go:44 | ParseInt accepts only an optional sign followed by one or more decimal digits, and accepts every such string of at most 18 digits |
| GitHub.Client.constructor | internal/github/client.go:28-35 | NewClient keeps the token and starts with remaining -1 and the zero reset time |
| GitHub.RateLimitAfter | internal/github/client.go:37-48 | updateRateLimit: each field takes its header's value exactly when that header parses; otherwise it keeps its old value (an absent header never parses) |
| GitHub.Client.UpdateRateLimit | internal/github/client.go:37-48 | the method changes the two fields exactly as RateLimitAfter says and changes nothing else |
| GitHub.SecondarySleep | internal/github/client.go:59-71 | the 429 sleep is Retry-After seconds when it parses to a positive number, otherwise the 60 s fallback; it is always at least 1 s |
| GitHub.SecondarySleepNanosAsWritten | internal/github/client.go:62-66 | the same duration as the source computes it, as a wrapped int64 nanosecond count |
| GitHub.WrapInt64 | internal/github/client.go:64 | two's-complement wrap-around: the result is in the int64 range and congruent to the input modulo 2^64 |
| GitHub.PrimarySleep | internal/github/client.go:77-90 | the 403 sleep is exactly reset - now + 5 s when the reset header parses and that is positive; any other duration it returns is the 60 s fallback; it is always positive |
| GitHub.Handle | internal/github/client.go:115-156 | the status switch backs off exactly on a 429 or on a 403 whose remaining header is the text "0"; an attempt that finishes with success was a 200 whose body decoded, and the result is that body |
| GitHub.Run | internal/github/client.go:103-158 | the retry loop from attempt `attempt` on makes at least one and at most MaxRetries - attempt attempts, and sleeps at most once per attempt |
| GitHub.GetSpec | internal/github/client.go:92-159 | one get makes between 1 and maxRetries = 3 attempts |
| GitHub.Client.Get | internal/github/client.go:92-159 | get returns the result, attempt count, sleeps and new rate-limit state that GetSpec gives for the old state and the call |
| ClientProperties.WaitsOnlyWhenExhausted | internal/github/client.go:93-101 | get waits before its first attempt iff remaining == 0 and reset - now + 5 > 0; the wait is exactly that long, comes first and is the only preemptive wait |
| ClientProperties.NewClientNeverWaits | internal/github/client.go:93-101 | from the state NewClient creates, get never waits preemptively |
| ClientProperties.PausesAreBackoffs | internal/github/client.go:121-150 | every sleep between attempts is a rate-limit back-off of at least one second |
| ClientProperties.PausesInOrder | internal/github/client.go:121-150 | the back-offs are slept in attempt order, each the one its attempt chose |
| ClientProperties.LastAttemptDecides | internal/github/client.go:103-157 | every attempt before the last backed off; the last attempt's own result is returned, or, when it backed off (possible only on attempt 3), the exhausted error of its kind; the back-offs are slept in attempt order |
| ClientProperties.NeverExceedsMaxRetries | internal/github/client.go:158 | the final "exceeded max retries" return is unreachable |
| ClientProperties.ImmediateFailure | internal/github/client.go:110-155 | a transport error, a status other than 200/403/429, or a 403 whose remaining header is not exactly "0" ends get after one attempt, with no back-off, no state change and the matching error |
| ClientProperties.ZeroTestIsTextual | internal/github/client.go:134-139 | a 403 whose remaining header is "00" parses to 0 but still fails at once as an unexpected status |
| ClientProperties.OkReturnsBody | internal/github/client.go:116-119 | a 200 with a decodable body on the first attempt returns that body and updates the state from its headers |
| ClientProperties.ThirdAttemptVerdict | internal/github/client.go:121-150 | after two back-offs, a 429 on attempt 3 gives the secondary error and a 403 with remaining "0" gives the primary error, after three attempts and three back-offs |
| ClientProperties.StateChangesOnlyOn200 | internal/github/client.go:115-119 | the rate-limit state changes only when get ends on a 200, and then as updateRateLimit says; 429 and 403 leave it untouched |
| ClientProperties.SuccessOnlyFrom200 | internal/github/client.go:115-119 | get succeeds only when its last attempt was a 200 whose body decoded, and returns that body |
| ClientProperties.RetryAfterOverflows | internal/github/client.go:62-66 | a Retry-After of 9300000000 is a valid positive int64, yet the duration as written wraps to a negative value |
| ClientProperties.RetryAfterExactBelowOverflow | internal/github/client.go:62-66 | whenever the product fits in int64, the duration as written is exactly the intended number of seconds |
| GitHub.LoginsAt | internal/github/client.go:175-177 | the logins of a page are its seats' assignee logins, position by position |
| GitHub.AppendLogins | internal/github/client.go:175-177 | the inner loop appends the page's logins, in seat order, after the logins gathered so far |
| GitHub.Listed | internal/github/client.go:161-186 | the outcome of the listing from page i + 1 on; when it fails, the page it names is one of the pages from i + 1 on |
| GitHub.Requested | internal/github/client.go:161-186 | the listing requests at least one page and no more pages than it is given |
| GitHub.ListedFrom | internal/github/client.go:166-183 | after n full pages, the listing's outcome is the logins of those pages put before the outcome of the listing from page n + 1 on |
| GitHub.RequestedFrom | internal/github/client.go:166-183 | after n full pages, the requests are pages 1 .. n followed by the requests from page n + 1 on |
| GitHub.ListingEndsAt | internal/github/client.go:171-181 | when page n + 1 is the first that fails or is short, pages 1 .. n + 1 were requested, and the listing is that page's error, or else the logins of all n + 1 pages |
| GitHub.Client.FetchPage | internal/github/client.go:170-173 | one page request returns what get returns in that page's world, and advances the rate-limit state and the sleeps by that call |
| GitHub.Client.ListCopilotSeats | internal/github/client.go:161-186 | the method returns Listed and requests the pages Requested gives, and its final state and sleeps are those of get called on those pages in turn |
| GitHub.Client.GetUserPremiumUsage | internal/github/client.go:188-198 | one get: the body on success, otherwise get's error wrapped with the user; the state advances as GetSpec says |
| Pagination.RequestsInOrder | internal/github/client.go:163-182 | the pages are requested as 1, 2, ... in order, one request each |
| Pagination.LastRequestedEnds | internal/github/client.go:171-181 | the last page requested failed or had fewer than 100 seats |
| Pagination.EarlierPagesFull | internal/github/client.go:179-182 | every page requested before the last succeeded with at least 100 seats, so the listing stops at the first page that ends it |
| Pagination.ListingErrorNamesPage | internal/github/client.go:171-173 | the listing fails iff its last requested page failed, and then reports that page's number and get's error |
| Pagination.ListingLogins | internal/github/client.go:175-185 | a successful listing returns the logins of all requested pages, concatenated in page order |
| Pagination.ThreePages | internal/github/client.go:161-186 | pages of 100, 100 and 37 seats mean requests for pages 1, 2, 3 and 237 logins |
| Pagination.EmptyFirstPage | internal/github/client.go:161-186 | an empty first page means one request and no logins |
| Exporter.Entries | cmd/main.go:84-105 | the entries collect builds hold exactly as many entries as the fetched users have usage items in total |
| Exporter.EntriesAt | cmd/main.go:84-105 | entries come in login order, then item order; item i of a fetched login is an entry labelled {user: login, sku, model, enterprise} carrying its three values |
| Exporter.EntryOrigin | cmd/main.go:84-105 | every entry is the entry of one usage item of a fetched login, at the index EntriesAt gives that item; with EntriesAt, exactly one entry per item, in login order then item order |
| Exporter.EntriesMembership | cmd/main.go:84-105 | an entry is collected iff it is the entry of some usage item of some login whose fetch succeeded, so a failed fetch skips only that user |
| Exporter.FetchUsage | cmd/main.go:86-90 | one usage request succeeds exactly when get succeeds in that login's world, returns its body, and advances the rate-limit state by that call |
| Exporter.AppendUserEntries | cmd/main.go:92-104 | the inner loop appends one entry per usage item, in item order |
| Exporter.CollectEntries | cmd/main.go:84-105 | the loop builds exactly the entries Entries describes, and threads the rate-limit state through the usage calls in login order |
| Exporter.GaugeVec.Reset | cmd/main.go:110-112 | Reset deletes every series |
| Exporter.GaugeVec.Set | cmd/main.go:115-117 | With(labels).Set(v) creates or overwrites that one series and leaves the rest alone |
| Exporter.Gauges.Publish | cmd/main.go:107-118 | after publication, each of the three vectors is the map Series builds from the entries alone, whatever it held before, so publishing the same entries twice gives the same state |
| Exporter.Series | cmd/main.go:110-118 | reset-then-set publication of the entries into an empty vector holds at most one series per entry |
| Exporter.SeriesKeys | cmd/main.go:110-118 | a vector holds a series for exactly the label sets of the entries |
| Exporter.SeriesLastWins | cmd/main.go:114-118 | when entries share a label set, the last such entry's value is the one published |
| Exporter.Collect | cmd/main.go:76-121 | collect returns the listing error with all three vectors unchanged when listing fails; otherwise it returns no error, publishes exactly the entries of the fetched users, and leaves the rate-limit state of the listing followed by the usage calls |

## Left out

- HTTP is left out: building and sending requests, headers sent, URL formatting, and draining and closing bodies. A request that cannot be built and a failed send are both the one `TransportFailure`.
- JSON decoding is a body that is present or absent (`DecodeFailure`). The error texts of `fmt.Errorf` are error datatypes that carry the same data (page number, user, status).
- Logging, the fiber server, the `/metrics` handler, the `sync.RWMutex` around publication, and the endless `worker` loop are left out. Publication is one atomic sequence of method calls on the gauge vectors.
- The wall clock and `time.Sleep` are left out. Durations are whole seconds of unbounded size, not int64 nanoseconds.
- Configuration loading (internal/config/config.go) and the prometheus registration of the gauges (internal/metrics.go) are left out.
- Float values are opaque bit patterns; nothing computes with them.
- `strconv.Atoi` on `X-RateLimit-Remaining` is modelled as `ParseInt64`, which is what Atoi is on a 64-bit platform.
- GitHub.Client.ListCopilotSeats: it requires that the page worlds contain a page that fails or is short. Against a server that returns full pages forever, the source loops forever, and the model does not cover that.
- GitHub.Client.Get: its `sleeps` result is a record of the durations slept, which the source only logs and passes to `time.Sleep`.
- GitHub.Client.Get: a 429 sleep longer than about 292 years is modelled as the intended number of seconds, not as the wrapped duration the source sleeps (see Findings).
- GitHub.PrimarySleep: when reset - now + 5 s exceeds the int64 nanosecond range (a reset about 292 years ahead), the source's `time.Until(...) + rateLimitResetBuffer` (internal/github/client.go:82) saturates and then wraps negative, so the source sleeps the 60 s fallback. The model returns reset - now + 5 s instead.
- GitHub.Client.Get: for the same far-future reset, the source's preemptive check `time.Until(c.rateLimitReset) + rateLimitResetBuffer > 0` (internal/github/client.go:94) wraps negative and skips the wait. The model's `PreemptiveSleeps`, and the WaitsOnlyWhenExhausted and PrimarySleep rows that build on it, wait reset - now + 5 s.

## Findings

| source | as written | input that shows it | evidently intended | confidence | as-written member | corrected member |
|---|---|---|---|---|---|---|
| internal/github/client.go:63-66 | `time.Duration(secs) * time.Second` is an int64 nanosecond product that wraps when secs > 9223372036 | a 429 with `Retry-After: 9300000000` | sleep Retry-After seconds (or cap it), never a negative duration | not executed | ClientProperties.RetryAfterOverflows | GitHub.SecondarySleep |
