# web_rake requester and parser, modelled in Dafny

web_rake is a small Python scraping library. This project models its two
cores and proves properties about them.

The first core is the `Requester` class (`src/requester.py`). It is an HTTP
session that:

- checks robots.txt once per call, and caches the rules per origin
  (`scheme://netloc`);
- spaces attempts by a rate limit;
- can rotate its User-Agent through a fixed pool of three browser strings;
- retries a failed GET up to `retry_count` times, sleeping
  `retry_delay * 2^attempt` after each failed attempt but the last, and
  re-raises the last attempt's error.

The second core is in `src/parser.py`:

- `JSONParser.extract_value` follows a path of keys and indices into decoded
  JSON.
- `create_parser` picks a parser from a content-type name, ignoring case.

## How the model is built

- `Requester` is the class `Requesting.Requester`.
  - Its configuration is a set of `const` fields.
  - The state the Python methods mutate is ordinary fields: `sessionHeaders`
    (the session headers, where the User-Agent lives), `lastRequestTime` and
    `robotsCache`.
  - The session headers are the case-insensitive dictionary of `requests`
    (`Http.Headers`): each entry is keyed by its lower-cased name, so
    `user-agent` and `User-Agent` are one header. The caller's `headers`
    dictionary is given as its items in insertion order, the order
    `headers.update` sets them in.
  - `Http.WellFormed` says each entry sits under the lower-cased form of its
    own name, as in a `CaseInsensitiveDict`. The constructor requires it of the
    headers a fresh session starts with, and every header operation keeps it.
  - `Valid()` keeps the pool non-empty, `lastRequestTime` no later than the
    clock and the session headers well-formed.
  - The `__init__` defaults are the constants `DefaultTimeout` (30),
    `DefaultRetryCount` (3), `DefaultRetryDelay` (2), `DefaultVerifySsl`
    (true), `DefaultUserAgentRotation` (false), `DefaultRateLimit` (0) and
    `DefaultRespectRobotsTxt` (true). They are the default values of the
    constructor's parameters, and `headers` and `cookies` default to empty.
- The outside world is the class `Http.World`. It holds an integer clock and
  one sequence per kind of side effect:
  - the rate-limit waits and the backoff sleeps;
  - the robots.txt reads;
  - the requests sent, with the clock reading at which each was sent.
- Whatever the network would answer is passed in:
  - `outcomes[i]` is what attempt `i` brings back;
  - `robotsRead` is what reading robots.txt yields, with `None` when the read
    raises, and `robotsLatency` how long the read takes;
  - `canFetch` stands for `RobotFileParser.can_fetch`.
- `random.choice` is a nondeterministic pick from the pool.
- The retry loop, the rate limiter, the robots check and path extraction are
  proved against pure reference definitions, which lemmas characterise:
  - `Retrying.Retry` (the retry policy);
  - `Retrying.BackoffSchedule` (the sleeps);
  - `Retrying.Timeline` (when each attempt of a call starts, how long the
    limiter sleeps before it, and the clock once its reply is in);
  - `RateLimit.Wait` (the limiter);
  - `Robots.CheckRobots` (one robots check);
  - `Parsing.Walk` (path extraction).
- `RotateUserAgent`, `Attempt` and `BackoffSleep` have no reference
  definition: their contracts state the new state directly, in terms of
  `Http.SetHeader`, `RateLimit.Wait`, the pool and the schedule.
- The retry loop is `RunAttempts`, whose body is one `Step` per pass: attempt
  `NextAttempt`, then `raise_for_status`, then the backoff. `RetryLoop` adds
  the spacing facts that follow from `Timeline`.
- `raise_for_status` rejects status codes 400 to 599, and a rejected status is
  retried like a transport failure.

## Model

| member | source | states |
|---|---|---|
| Http.RaiseForStatus | src/requester.py:122-125 | an attempt succeeds exactly when a response came back with a status outside 400..599; otherwise the error is the status error or the transport failure |
| Http.MergeOptions | src/requester.py:109-115 | the request options are `timeout` and `verify` plus the caller's keyword arguments, which override the two defaults |
| Http.World.SleepWait | src/requester.py:64 | a rate-limit sleep advances the clock by its duration and is recorded |
| Http.World.SleepBackoff | src/requester.py:132 | a backoff sleep advances the clock by its duration and is recorded |
| Http.HeaderValue | src/requester.py:88 | a name that is found has the value stored under its lower-cased form |
| Http.HeaderPresent | src/requester.py:88 | in a well-formed dictionary, a name has a value exactly when some entry carries that name in any case |
| Http.OneEntryPerName | src/requester.py:88 | in a well-formed dictionary, every entry whose name equals the one asked for up to case holds the value the lookup returns |
| Http.SetHeader | src/requester.py:56 | setting a header adds at most the one lower-cased key |
| Http.SetHeaderValues | src/requester.py:56 | after setting a header, every name equal to it up to case has the new value and all other names keep theirs; a well-formed dictionary stays well-formed |
| Http.UpdateHeaders | src/requester.py:45 | after `update`, a header's value is that of the last item naming it in any case, or the old value when no item names it; a well-formed dictionary stays well-formed |
| Http.LastValueFront | src/requester.py:45 | of the items set in order, a later item naming a header overrides the first one |
| Http.Origin | src/requester.py:75 | the robots cache key is the scheme, then `://`, then the netloc |
| Http.RobotsUrl | src/requester.py:76 | robots.txt is read from the origin followed by `/robots.txt` |
| Http.OriginSeparatesSites | src/requester.py:75-76 | two URLs share a cache entry, and a robots.txt URL, exactly when they share scheme and netloc |
| Http.SchemeEndsAtColon | src/requester.py:75 | an origin spells the scheme and then a colon |
| Http.World.FetchRobots | src/requester.py:79-82 | a robots.txt read is recorded with its URL and advances the clock by its latency |
| Http.World.Send | src/requester.py:122 | a request is recorded with the clock reading at which it was sent |
| Retrying.Pow2 | src/requester.py:130 | `2^n` is at least 1 |
| Retrying.BackoffIsPower | src/requester.py:130 | the sleep after failed attempt i, doubling from `retry_delay`, is `retry_delay * 2^i` |
| Retrying.BackoffSchedule | src/requester.py:128-132 | the schedule has one sleep for each failed attempt that another attempt follows |
| Retrying.BackoffScheduleAt | src/requester.py:128-132 | the sleep after failed attempt i is `retry_delay * 2^i` |
| Retrying.BackoffDoubles | src/requester.py:130 | each backoff sleep is twice the previous one |
| Retrying.BackoffTotal | src/requester.py:128-132 | n backoffs plus one `retry_delay` come to `retry_delay * 2^n`, so the loop sleeps `retry_delay * (2^n - 1)` in all |
| Retrying.Retry | src/requester.py:116-135 | whatever the outcomes, the loop makes at least one and at most `retry_count + 1` attempts |
| Retrying.RetrySkipsFailures | src/requester.py:125-132 | failed attempts before attempt k do not change how the loop ends |
| Retrying.RetryShape | src/requester.py:116-135 | every attempt but the last fails; an Ok result is the last attempt's response; an error result means `retry_count + 1` attempts and the last attempt's error re-raised |
| Retrying.RetryAt | src/requester.py:122-135 | an attempt the run reaches ends it with its response if it succeeds, ends it with its error if it is the last permitted one, and is otherwise followed by another attempt |
| Retrying.RetryFirstSuccess | src/requester.py:122-124 | the first successful attempt k ends the loop with its response after k + 1 attempts |
| Retrying.RetryAllFail | src/requester.py:133-135 | if every attempt fails, exactly `retry_count + 1` are made and the last error is re-raised |
| Retrying.AlwaysServerErrorScenario | src/requester.py:116-135 | retry_count 2 with every reply 500: three attempts, the 500 re-raised, backoffs 1 then 2 |
| Retrying.FailTwiceThenOkScenario | src/requester.py:122-124 | a transport failure, then an error status, then 200 "ok": the response of attempt index 2 is returned |
| Retrying.Ready | src/requester.py:116-132 | the first attempt of a call is ready when the call starts; a later one no earlier than the previous reply |
| Retrying.Timeline | src/requester.py:116-132 | one start per attempt, and the clock after the last attempt is its start plus its reply's latency |
| Retrying.TimelineNext | src/requester.py:116-132 | one more attempt is ready when the backoff before it ends, no earlier than the previous start, and starts after exactly the limiter's wait |
| Retrying.TimelineStart | src/requester.py:59-65 | attempt k starts at the clock it is ready at plus the limiter's wait measured from the previous start |
| Retrying.TimelineSpaced | src/requester.py:59-65 | the starts of one call are `rate_limit` apart, and the first is `rate_limit` after the previous call's last start |
| Retrying.TimelineWaits | src/requester.py:61-64 | the limiter sleeps at most once per attempt, each sleep positive and at most `rate_limit`, and never when it is off |
| RateLimit.Wait | src/requester.py:61-64 | the sleep brings the gap up to exactly `rate_limit` when it is shorter, and is zero when the limiter is off or the gap is already long enough |
| RateLimit.SpacedAppend | src/requester.py:65 | a start at least `rate_limit` after the last one keeps all starts spaced |
| RateLimit.SpacedDistance | src/requester.py:59-65 | attempt starts k places apart are at least k times `rate_limit` apart |
| Robots.CheckRobots | src/requester.py:67-89 | off means allowed with the cache unchanged; robots.txt is read exactly when the origin is not cached; a failed read allows and caches nothing; a successful read adds exactly that origin; entries are never evicted or replaced; cached rules decide |
| Robots.CachedOriginIsNotReread | src/requester.py:78-89 | after a successful read, a later check on the same origin reads nothing and uses the cached rules |
| Robots.FailedReadIsRetried | src/requester.py:81-86 | after a failed read, the next check on the same origin reads robots.txt again |
| Robots.CheckAll | src/requester.py:78-83 | over any series of checks the cache only grows, only by origins asked about, and not at all when the policy is off |
| Requesting.InitialHeaders | src/requester.py:25 | no headers or empty headers fall back to the default User-Agent; other headers are kept as given |
| Requesting.SessionUserAgent | src/requester.py:88 | the User-Agent given to robots.txt is the session's, looked up whatever the case of its name, or `*` when it has none |
| Requesting.LowerCaseUserAgent | src/requester.py:88 | a caller's `user-agent` header replaces the session default and is the agent robots.txt is asked about |
| Requesting.DefaultSessionUserAgent | src/requester.py:25 | with no headers given, the session's User-Agent is the default one, whatever the session started with |
| Requesting.DefaultPolicy | src/requester.py:12-21 | with the default arguments a call makes at most four attempts, backs off 2, 4 and 8 time units, and never sleeps for the rate limit |
| Requesting.RotationReplacesUserAgent | src/requester.py:56 | rotation overwrites the existing User-Agent entry, whatever its case, and adds no header |
| Requesting.Requester.constructor | src/requester.py:12-51 | the stored configuration, with the source's defaults for omitted arguments; the three-string pool; the session headers, well-formed, updated case-insensitively with the headers in order; an empty robots cache and `last_request_time` 0 |
| Requesting.Requester.RotateUserAgent | src/requester.py:53-56 | with rotation on, the User-Agent, whatever the case of its name, becomes a member of the pool and no other header changes; with rotation off, nothing changes |
| Requesting.Requester.RespectRateLimit | src/requester.py:59-65 | sleeps the `Wait` amount, recorded as a wait only when it is positive; `last_request_time` becomes the current clock even with `rate_limit` 0, so the new start is at least `rate_limit` after the previous one |
| Requesting.Requester.CheckRobotsTxt | src/requester.py:67-89 | the verdict and new cache are those of `CheckRobots` for the session's User-Agent; robots.txt is recorded as read exactly when the check reads it, and only that read takes time |
| Requesting.Requester.Attempt | src/requester.py:117-122 | one attempt sends exactly one request; it starts as soon as the limiter allows, after a wait of `RateLimit.Wait` recorded only when positive, at `last_request_time`, and the clock then advances by the reply's latency; the start is no earlier than `rate_limit` after the previous one, with no wait when the limiter is off; the request carries the caller's URL, params, options and cookies and the session headers as they now are, which are the call's headers except for a pool User-Agent when rotation is on |
| Requesting.Requester.NextAttempt | src/requester.py:117-122 | attempt n extends the requests, send times, waits and clock of the call as entry n of `Timeline` says, and its request conforms like the earlier ones |
| Requesting.Requester.BackoffSleep | src/requester.py:128-132 | after failed attempt i the loop sleeps `retry_delay * 2^i`, advancing the clock by that much; it is the next entry of the backoff schedule |
| Requesting.Requester.Step | src/requester.py:116-135 | one pass of the loop stops exactly when the run of `Retry` ends, with its result; otherwise it has backed off and the next attempt is ready when `Timeline` says |
| Requesting.Requester.RunAttempts | src/requester.py:116-135 | the result and the number of requests are those of `Retry`; the backoffs are the first `attempts - 1` entries of the schedule; the start times, the rate-limit waits and the final clock are those of `Timeline`; every request conforms; the session ends with the last request's headers, which differ from the old ones at most in the User-Agent |
| Requesting.Requester.RetryLoop | src/requester.py:116-135 | everything `RunAttempts` states, and also: consecutive attempt starts are at least `rate_limit` apart, the first also from the previous call's last one, and there is no wait with the limiter off |
| Requesting.Requester.Get | src/requester.py:91-135 | robots.txt is checked once, before any attempt; if refused, `PermissionError` with no request, wait, backoff or rotation, and only the robots.txt read takes time; if allowed, the retry policy gives the result, attempts and backoffs, and `Timeline`, counted from the end of the check, gives the start times, the waits and the final clock; every request carries the merged options; attempt starts are at least `rate_limit` apart, also from the previous call's last attempt; no wait with the limiter off; the session headers change at most in the User-Agent, to that of the last request |
| Parsing.StepInto | src/parser.py:101-106 | a present dictionary key descends; a list descends exactly for indices `-len <= k < len`; an index below `-len` raises `IndexError`; everything else gives `None` |
| Parsing.Walk | src/parser.py:98-108 | an empty path returns the input unchanged |
| Parsing.ExtractValue | src/parser.py:98-108 | the loop over the path computes `Walk` |
| Parsing.WalkAppend | src/parser.py:100-108 | following `p + q` is following `p` and then `q` from its result |
| Parsing.NullAbsorbs | src/parser.py:100-106 | any path applied to null gives `None` |
| Parsing.NoIndexErrorWithoutNegativeIndex | src/parser.py:103-104 | a path without negative indices never raises |
| Parsing.IndexErrorComesFromPath | src/parser.py:103-104 | a raised `IndexError` names an index of the path that lies below minus the list length |
| Parsing.WalkNest | src/parser.py:101-102 | extracting the keys of nested objects gives back what was nested |
| Parsing.NegativeIndexFromEnd | src/parser.py:103-104 | index k and index `k - len` reach the same list element |
| Parsing.PastTheEndIsNone | src/parser.py:103-106 | an index at or past the end of a list gives `None`, whatever follows it in the path |
| Parsing.NullIsAbsent | src/parser.py:101-106 | a key holding null and a missing key both extract as `None` |
| Ascii.Lower | src/parser.py:158 | lower-casing maps each ASCII capital to its small letter and keeps every other character |
| Ascii.LowerIsLower | src/parser.py:158 | the result has no capitals, and lower-casing twice is lower-casing once |
| Ascii.LowerOfLower | src/parser.py:158 | a string without capitals is its own lower case |
| Parsing.CreateParser | src/parser.py:149-167 | known names (`html`, `html.parser`, `lxml`, `html5lib`, `json`, `xml`, in any case) give their parser, an HTML parser keeping the lower-cased name; anything else gives the error `Unsupported content type: <lower-cased name>` |
| Parsing.CreateParserIgnoresCase | src/parser.py:158 | the choice does not depend on letter case |
| Parsing.CreateParserFromName | src/parser.py:158-165 | a parser that was created is created again from its own name |
| Parsing.UpperCaseJson | src/parser.py:162-163 | "JSON" selects the JSON parser |
| Parsing.UpperCaseLxml | src/parser.py:160-161 | "LXML" selects the HTML parser with backend `lxml` |
| Parsing.UnsupportedYaml | src/parser.py:166-167 | "yaml" is refused, and the message names it |

## Left out

- Real HTTP through `requests.session`. An attempt is an outcome handed to the model, with `raise_for_status` reduced to the 400..599 test. Exceptions that are not `RequestException` are not modelled; the source does not retry them.
- The robots.txt grammar and matching of `RobotFileParser.read` and `can_fetch`. They are an oracle for the read and an uninterpreted `canFetch` function.
- `urlparse`. A URL is given already split into scheme, netloc, path and query.
- Floating-point time. `time.time()` is an integer clock and `time.sleep` advances it. The first attempt measures its gap from `last_request_time` 0, as the source does. `World`'s start value plays the role of the epoch reading, so a start below `rate_limit` makes the first attempt wait.
- Floating-point and negative `timeout`, `retry_delay` and `rate_limit`. They are natural numbers here.
- A negative `retry_count`. The source's loop then makes no attempt and `get` returns `None`. `retry_count` is a natural number here.
- `random.choice`. It is a nondeterministic pick from the pool, so no distribution is modelled.
- `logging`. Its calls have no effect on behaviour.
- The headers a fresh `requests` session starts with. They are the constructor parameter `sessionDefaults`, which must be well-formed, as every `CaseInsensitiveDict` is.
- How `requests` merges a `headers` keyword argument of `get` into the session headers. Such an argument stays among the request's options.
- The cookie jar. Cookies are a map sent with every request; cookie updates from responses are not modelled.
- Requesting.Requester.Get: the outcome oracle must cover `retry_count + 1` attempts (`retryCount < |outcomes|`). This sizes the oracle; it does not restrict callers.
- `json.loads`. `ExtractValue` starts from decoded JSON. Parsing a string argument first, and the `JSONDecodeError` that can raise, are not modelled.
- JSON floats. Numbers are integers.
- Non-JSON Python objects passed directly to `extract_value`. Dictionary keys are strings, and path elements are a string key or an integer index. A boolean used as an index is not modelled.
- `HTMLParser.parse`, `extract_text`, `extract_attribute` and `XMLParser`. The model keeps only which parser `create_parser` builds (the BeautifulSoup and ElementTree work lives in foreign libraries), including the import check of `XMLParser.__init__`.
- Ascii.Lower: only ASCII letters are lower-cased, both for content types and for header names. Python's `str.lower` also folds non-ASCII letters.
- src/scraper.py, examples/weather_scraper.py, test.py and main.py. They are composition and entry-point glue with no logic of their own.
- A `post` operation. `Requester` defines only `get`.
- Concurrency. The source is single-threaded.
