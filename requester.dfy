/**
 * `Requester`: an HTTP session with robots.txt compliance, a rate limiter,
 * User-Agent rotation and a retry loop with exponential backoff.
 */
module Requesting {
  import opened Wrappers
  import opened Http
  import opened Retrying
  import opened RateLimit
  import opened Robots
  import opened Ascii

  /** The User-Agent used when the caller gives no headers. */
  const DefaultUserAgent: string := "Mozilla/5.0 (Windows NT 10.0; Win64; x64) AppleWebKit/537.36"

  /** The fixed pool of browser signatures `__init__` stores for rotation. */
  const UserAgentPool: seq<string> := [
    "Mozilla/5.0 (Windows NT 10.0; Win64; x64) AppleWebKit/537.36 (KHTML, like Gecko) Chrome/91.0.4472.124 Safari/537.36",
    "Mozilla/5.0 (Macintosh; Intel Mac OS X 10_15_7) AppleWebKit/605.1.15 (KHTML, like Gecko) Version/14.1.1 Safari/605.1.15",
    "Mozilla/5.0 (X11; Linux x86_64) AppleWebKit/537.36 (KHTML, like Gecko) Chrome/92.0.4515.107 Safari/537.36"
  ]

  // the defaults of the `__init__` parameters
  const DefaultTimeout: nat := 30
  const DefaultRetryCount: nat := 3
  const DefaultRetryDelay: nat := 2
  const DefaultVerifySsl: bool := true
  const DefaultUserAgentRotation: bool := false
  const DefaultRateLimit: nat := 0
  const DefaultRespectRobotsTxt: bool := true

  /**
   * What the defaults amount to: at most four attempts, backoffs of 2, 4 and
   * 8 time units between them, and no rate-limit sleep at all.
   */
  lemma DefaultPolicy(outcomes: seq<Outcome>, now0: nat, last0: nat, n: nat)
    requires DefaultRetryCount < |outcomes|
    requires last0 <= now0 && n <= |outcomes|
    ensures Retry(outcomes, DefaultRetryCount, 0).attempts <= 4
    ensures BackoffSchedule(DefaultRetryDelay, DefaultRetryCount) == [2, 4, 8]
    ensures Timeline(now0, last0, DefaultRateLimit, DefaultRetryDelay, outcomes, n).waits == []
  {
    assert BackoffSchedule(DefaultRetryDelay, 1) == [2];
    assert BackoffSchedule(DefaultRetryDelay, 2) == [2, 4];
    TimelineWaits(now0, last0, DefaultRateLimit, DefaultRetryDelay, outcomes, n);
  }

  /**
   * `headers or {...}`: the caller's header dictionary, as its items in order;
   * none, or an empty one, falls back to the default User-Agent.
   */
  function InitialHeaders(headers: seq<(string, string)>): (h: seq<(string, string)>)
    ensures h != []
    ensures headers != [] ==> h == headers
    ensures headers == [] ==> h == [(UserAgentHeader, DefaultUserAgent)]
  {
    if headers == [] then [(UserAgentHeader, DefaultUserAgent)] else headers
  }

  /** `session.headers.get('User-Agent', '*')`, a lookup that ignores the case of the name. */
  function SessionUserAgent(headers: Headers): (ua: string)
    ensures HeaderValue(headers, UserAgentHeader).Some? ==> ua == HeaderValue(headers, UserAgentHeader).value
    ensures HeaderValue(headers, UserAgentHeader).None? ==> ua == "*"
  {
    match HeaderValue(headers, UserAgentHeader)
    case Some(ua) => ua
    case None => "*"
  }

  /**
   * A caller's `user-agent` header, in whatever case, is the session's
   * User-Agent: it replaces the session default and is what robots.txt is
   * asked about.
   */
  lemma LowerCaseUserAgent(sessionDefaults: Headers, agent: string)
    ensures SessionUserAgent(UpdateHeaders(sessionDefaults, InitialHeaders([("user-agent", agent)]))) == agent
  {
    assert Lower("user-agent") == Lower(UserAgentHeader);
  }

  /** With no headers given, the session's User-Agent is the default one, whatever the session started with. */
  lemma DefaultSessionUserAgent(sessionDefaults: Headers)
    ensures SessionUserAgent(UpdateHeaders(sessionDefaults, InitialHeaders([]))) == DefaultUserAgent
  {
  }

  /** Rotation overwrites the one User-Agent entry, whatever its case, and adds no header. */
  lemma RotationReplacesUserAgent(headers: Headers, agent: string)
    requires HeaderValue(headers, UserAgentHeader).Some?
    ensures SetHeader(headers, UserAgentHeader, agent).Keys == headers.Keys
    ensures SessionUserAgent(SetHeader(headers, UserAgentHeader, agent)) == agent
  {
  }

  /**
   * What every request `get` sends looks like: the caller's URL and params, the
   * merged options, the session cookies, and the session headers as they were
   * before the call, except that with rotation on the User-Agent is one of the pool.
   */
  ghost predicate Conforms(request: Request, url: Url, params: Option<map<string, string>>,
                           options: map<string, Arg>, cookies: map<string, string>,
                           rotation: bool, pool: seq<string>, before: Headers)
  {
    && request.url == url
    && request.params == params
    && request.options == options
    && request.cookies == cookies
    && if rotation then
         SessionUserAgent(request.headers) in pool &&
         request.headers == SetHeader(before, UserAgentHeader, SessionUserAgent(request.headers))
       else request.headers == before
  }

  /** Every request in `requests` conforms. */
  ghost predicate AllConform(requests: seq<Request>, url: Url, params: Option<map<string, string>>,
                             options: map<string, Arg>, cookies: map<string, string>,
                             rotation: bool, pool: seq<string>, before: Headers)
  {
    forall i :: 0 <= i < |requests| ==> Conforms(requests[i], url, params, options, cookies, rotation, pool, before)
  }

  lemma AllConformAppend(requests: seq<Request>, request: Request, url: Url, params: Option<map<string, string>>,
                         options: map<string, Arg>, cookies: map<string, string>,
                         rotation: bool, pool: seq<string>, before: Headers)
    requires AllConform(requests, url, params, options, cookies, rotation, pool, before)
    requires Conforms(request, url, params, options, cookies, rotation, pool, before)
    ensures AllConform(requests + [request], url, params, options, cookies, rotation, pool, before)
  {
    var s := requests + [request];
    forall i | 0 <= i < |s| ensures Conforms(s[i], url, params, options, cookies, rotation, pool, before) {
      if i < |requests| {
        assert s[i] == requests[i];
      }
    }
  }

  /** The session headers differ from `before` at most in the User-Agent. */
  ghost predicate SameButUserAgent(headers: Headers, before: Headers)
  {
    headers == before || headers == SetHeader(before, UserAgentHeader, SessionUserAgent(headers))
  }

  class Requester {
    // configuration, fixed at construction
    /** `self.headers`, the items of the header dictionary in order. */
    const headers: seq<(string, string)>
    const cookies: map<string, string>
    const timeout: nat
    const retryCount: nat
    const retryDelay: nat
    const verifySsl: bool
    const userAgentRotation: bool
    const rateLimit: nat
    const respectRobotsTxt: bool
    /** `user_agents`, the pool rotation draws from. */
    const userAgents: seq<string>

    /** The clock and the record of side effects this requester runs against. */
    const world: World
    /** `RobotFileParser.can_fetch`. */
    const canFetch: CanFetch

    // state the methods update
    var sessionHeaders: Headers
    var lastRequestTime: nat
    var robotsCache: Cache

    /**
     * The pool is never empty, and `lastRequestTime`, the start of the latest
     * attempt (0 before the first), is not in the future.
     */
    ghost predicate Valid()
      reads this, world
    {
      && userAgents != []
      && lastRequestTime <= world.now
      && WellFormed(sessionHeaders)
    }

    /** `Requester.__init__`; `sessionDefaults` are the headers a fresh `requests` session starts with. */
    constructor (world: World, sessionDefaults: Headers, canFetch: CanFetch,
                 headers: seq<(string, string)> := [], cookies: map<string, string> := map[],
                 timeout: nat := DefaultTimeout, retryCount: nat := DefaultRetryCount,
                 retryDelay: nat := DefaultRetryDelay, verifySsl: bool := DefaultVerifySsl,
                 userAgentRotation: bool := DefaultUserAgentRotation, rateLimit: nat := DefaultRateLimit,
                 respectRobotsTxt: bool := DefaultRespectRobotsTxt)
      requires WellFormed(sessionDefaults)
      ensures Valid()
      ensures this.world == world && this.canFetch == canFetch
      ensures this.headers == InitialHeaders(headers) && this.cookies == cookies
      ensures this.timeout == timeout && this.retryCount == retryCount && this.retryDelay == retryDelay
      ensures this.verifySsl == verifySsl && this.userAgentRotation == userAgentRotation
      ensures this.rateLimit == rateLimit && this.respectRobotsTxt == respectRobotsTxt
      ensures userAgents == UserAgentPool
      ensures sessionHeaders == UpdateHeaders(sessionDefaults, InitialHeaders(headers))
      ensures lastRequestTime == 0 && robotsCache == map[]
    {
      this.headers := InitialHeaders(headers);
      this.cookies := cookies;
      this.timeout := timeout;
      this.retryCount := retryCount;
      this.retryDelay := retryDelay;
      this.verifySsl := verifySsl;
      this.userAgentRotation := userAgentRotation;
      this.rateLimit := rateLimit;
      this.respectRobotsTxt := respectRobotsTxt;
      userAgents := UserAgentPool;
      this.world := world;
      this.canFetch := canFetch;
      lastRequestTime := 0;
      sessionHeaders := UpdateHeaders(sessionDefaults, InitialHeaders(headers));
      robotsCache := map[];
    }

    /** `_rotate_user_agent`: with rotation on, overwrite the User-Agent with a member of the pool. */
    method RotateUserAgent()
      requires Valid()
      modifies this`sessionHeaders
      ensures Valid()
      ensures !userAgentRotation ==> sessionHeaders == old(sessionHeaders)
      ensures userAgentRotation ==>
        && SessionUserAgent(sessionHeaders) in userAgents
        && sessionHeaders == SetHeader(old(sessionHeaders), UserAgentHeader, SessionUserAgent(sessionHeaders))
    {
      if userAgentRotation {
        assert userAgents[0] in userAgents;
        var ua :| ua in userAgents;
        SetHeaderValues(sessionHeaders, UserAgentHeader, ua);
        sessionHeaders := SetHeader(sessionHeaders, UserAgentHeader, ua);
      }
    }

    /**
     * `_respect_rate_limit`: sleep until `rateLimit` has passed since the last
     * attempt started, then record now as the start of this one.
     */
    method RespectRateLimit()
      requires Valid()
      modifies this`lastRequestTime, world`now, world`waits
      ensures Valid()
      ensures var w := Wait(rateLimit, old(world.now) - old(lastRequestTime));
        && world.now == old(world.now) + w
        && world.waits == old(world.waits) + (if w > 0 then [w] else [])
      ensures lastRequestTime == world.now
      // the start of this attempt is at least rateLimit after the previous one
      ensures lastRequestTime >= old(lastRequestTime) + rateLimit
    {
      if rateLimit > 0 {
        var elapsed := world.now - lastRequestTime;
        if elapsed < rateLimit {
          world.SleepWait(rateLimit - elapsed);
        }
      }
      lastRequestTime := world.now;
    }

    /**
     * `_check_robots_txt`: the verdict of `CheckRobots` for the session's
     * current User-Agent; `read` is what reading robots.txt would yield and
     * `readLatency` how long the read takes.
     */
    method CheckRobotsTxt(url: Url, read: Option<Rules>, readLatency: nat) returns (allowed: bool)
      requires Valid()
      modifies this`robotsCache, world`now, world`robotsReads
      ensures Valid()
      ensures var c := CheckRobots(respectRobotsTxt, old(robotsCache), url,
                                   SessionUserAgent(sessionHeaders), read, canFetch);
        && allowed == c.allowed
        && robotsCache == c.cache
        && world.robotsReads == old(world.robotsReads) + (if c.fetched then [RobotsUrl(url)] else [])
        && world.now == old(world.now) + (if c.fetched then readLatency else 0)
    {
      if !respectRobotsTxt {
        return true;
      }
      var origin := Origin(url);
      if origin !in robotsCache {
        world.FetchRobots(RobotsUrl(url), readLatency);
        match read {
          case None =>
            return true;
          case Some(rules) =>
            robotsCache := robotsCache[origin := rules];
        }
      }
      allowed := canFetch(robotsCache[origin], SessionUserAgent(sessionHeaders), url);
    }

    /**
     * The body of one attempt of `get` up to `raise_for_status`: rotate the
     * User-Agent, wait for the rate limiter and send `request`, which goes out
     * at `start`. `headers0` are the session headers as the call to `get`
     * found them.
     */
    method Attempt(ghost headers0: Headers, url: Url, params: Option<map<string, string>>,
                   options: map<string, Arg>, outcome: Outcome)
      returns (request: Request, ghost start: nat)
      requires Valid()
      requires SameButUserAgent(sessionHeaders, headers0)
      requires !userAgentRotation ==> sessionHeaders == headers0
      modifies this`sessionHeaders, this`lastRequestTime,
               world`now, world`waits, world`requests, world`sendTimes
      ensures Valid()
      ensures world.requests == old(world.requests) + [request]
      ensures world.sendTimes == old(world.sendTimes) + [start]
      // the attempt starts as soon as the limiter allows, and its reply takes the outcome's latency
      ensures var w := Wait(rateLimit, old(world.now) - old(lastRequestTime));
        && start == old(world.now) + w
        && world.waits == old(world.waits) + (if w > 0 then [w] else [])
        && world.now == start + outcome.latency
      ensures start == lastRequestTime && start >= old(lastRequestTime) + rateLimit
      ensures rateLimit == 0 ==> world.waits == old(world.waits)
      ensures Conforms(request, url, params, options, cookies, userAgentRotation, userAgents, headers0)
      ensures request.headers == sessionHeaders
      ensures SameButUserAgent(sessionHeaders, headers0)
      ensures !userAgentRotation ==> sessionHeaders == headers0
    {
      RotateUserAgent();
      RespectRateLimit();
      start := lastRequestTime;
      request := Request(url, params, sessionHeaders, cookies, options);
      world.Send(request, outcome);
    }

    /**
     * Attempt n of the retry loop, with the record of attempts 0 .. n-1 before
     * it: `sent` are their requests and `p` their timing, in a call that began
     * at clock `now0` after a previous attempt at `last0`, and `requests0`,
     * `sendTimes0` and `waits0` are what the world had recorded before the
     * call. The attempt extends each record by one entry, and goes as
     * `Timeline` says when the attempts before it did.
     */
    method NextAttempt(ghost headers0: Headers, url: Url, params: Option<map<string, string>>,
                       options: map<string, Arg>, outcomes: seq<Outcome>, n: nat,
                       ghost now0: nat, ghost last0: nat,
                       ghost requests0: seq<Request>, ghost sendTimes0: seq<nat>, ghost waits0: seq<nat>,
                       ghost sent: seq<Request>, ghost p: Timing)
      returns (request: Request, ghost start: nat, ghost next: Timing)
      requires Valid()
      requires SameButUserAgent(sessionHeaders, headers0)
      requires !userAgentRotation ==> sessionHeaders == headers0
      requires AllConform(sent, url, params, options, cookies, userAgentRotation, userAgents, headers0)
      requires last0 <= now0 && n < |outcomes|
      requires p == Timeline(now0, last0, rateLimit, retryDelay, outcomes, n)
      requires world.requests == requests0 + sent && |sent| == n
      requires world.sendTimes == sendTimes0 + p.starts
      requires world.waits == waits0 + p.waits
      requires world.now == Ready(p, now0, retryDelay, n)
      requires lastRequestTime == ([last0] + p.starts)[n]
      modifies this`sessionHeaders, this`lastRequestTime,
               world`now, world`waits, world`requests, world`sendTimes
      ensures Valid()
      ensures next == Timeline(now0, last0, rateLimit, retryDelay, outcomes, n + 1)
      ensures next.starts == p.starts + [start]
      ensures world.requests == requests0 + (sent + [request])
      ensures world.sendTimes == sendTimes0 + next.starts
      ensures world.waits == waits0 + next.waits && world.now == next.clock
      ensures lastRequestTime == ([last0] + next.starts)[n + 1]
      ensures AllConform(sent + [request], url, params, options, cookies, userAgentRotation, userAgents, headers0)
      ensures sessionHeaders == (sent + [request])[n].headers
      ensures SameButUserAgent(sessionHeaders, headers0)
      ensures !userAgentRotation ==> sessionHeaders == headers0
    {
      TimelineNext(now0, last0, rateLimit, retryDelay, outcomes, n);
      next := Timeline(now0, last0, rateLimit, retryDelay, outcomes, n + 1);
      assert lastRequestTime == if n == 0 then last0 else p.starts[n - 1];
      request, start := Attempt(headers0, url, params, options, outcomes[n]);
      AllConformAppend(sent, request, url, params, options, cookies, userAgentRotation, userAgents, headers0);
      assert requests0 + sent + [request] == requests0 + (sent + [request]);
      assert sendTimes0 + p.starts + [start] == sendTimes0 + next.starts;
      assert ([last0] + next.starts)[n + 1] == start;
    }

    /**
     * The exponential backoff after failed attempt `attempt`: sleep
     * `retryDelay * 2^attempt`, which extends the backoffs of this call, listed
     * after `before`, by the next entry of the schedule.
     */
    method BackoffSleep(attempt: nat, ghost before: seq<nat>)
      requires Valid()
      requires world.backoffs == before + BackoffSchedule(retryDelay, attempt)
      modifies world`now, world`backoffs
      ensures Valid()
      ensures world.now == old(world.now) + Backoff(retryDelay, attempt)
      ensures world.backoffs == old(world.backoffs) + [Backoff(retryDelay, attempt)]
      ensures world.backoffs == before + BackoffSchedule(retryDelay, attempt + 1)
    {
      world.SleepBackoff(Backoff(retryDelay, attempt));
    }

    /**
     * One pass of the retry loop: attempt n, then `raise_for_status` on its
     * reply, and the backoff when the attempt failed and another is due.
     * `done` says the loop stops here, with the result the retry policy gives.
     */
    method Step(ghost headers0: Headers, url: Url, params: Option<map<string, string>>,
                options: map<string, Arg>, outcomes: seq<Outcome>, n: nat, ghost run: Run,
                ghost now0: nat, ghost last0: nat, ghost requests0: seq<Request>,
                ghost sendTimes0: seq<nat>, ghost waits0: seq<nat>, ghost backoffs0: seq<nat>,
                ghost sent: seq<Request>, ghost p: Timing)
      returns (done: bool, r: Result<Response, GetError>, request: Request, ghost next: Timing)
      requires Valid()
      requires SameButUserAgent(sessionHeaders, headers0)
      requires !userAgentRotation ==> sessionHeaders == headers0
      requires AllConform(sent, url, params, options, cookies, userAgentRotation, userAgents, headers0)
      requires retryCount < |outcomes| && run == Retry(outcomes, retryCount, 0) && n < run.attempts
      requires last0 <= now0
      requires p == Timeline(now0, last0, rateLimit, retryDelay, outcomes, n)
      requires world.requests == requests0 + sent && |sent| == n
      requires world.sendTimes == sendTimes0 + p.starts
      requires world.waits == waits0 + p.waits
      requires world.now == Ready(p, now0, retryDelay, n)
      requires lastRequestTime == ([last0] + p.starts)[n]
      requires world.backoffs == backoffs0 + BackoffSchedule(retryDelay, n)
      modifies this`sessionHeaders, this`lastRequestTime,
               world`now, world`waits, world`backoffs, world`requests, world`sendTimes
      ensures Valid()
      ensures next == Timeline(now0, last0, rateLimit, retryDelay, outcomes, n + 1)
      ensures world.requests == requests0 + (sent + [request])
      ensures world.sendTimes == sendTimes0 + next.starts
      ensures world.waits == waits0 + next.waits
      ensures lastRequestTime == ([last0] + next.starts)[n + 1]
      ensures AllConform(sent + [request], url, params, options, cookies, userAgentRotation, userAgents, headers0)
      ensures sessionHeaders == (sent + [request])[n].headers
      ensures SameButUserAgent(sessionHeaders, headers0)
      ensures !userAgentRotation ==> sessionHeaders == headers0
      // the loop stops exactly when the retry policy says the run is over
      ensures done ==> && r == run.result && n + 1 == run.attempts
                       && world.now == next.clock
                       && world.backoffs == backoffs0 + BackoffSchedule(retryDelay, n)
      ensures !done ==> && n + 1 < run.attempts
                        && world.now == Ready(next, now0, retryDelay, n + 1)
                        && world.backoffs == backoffs0 + BackoffSchedule(retryDelay, n + 1)
    {
      ghost var start;
      request, start, next := NextAttempt(headers0, url, params, options, outcomes, n, now0, last0,
                                          requests0, sendTimes0, waits0, sent, p);
      var reply := RaiseForStatus(outcomes[n]);
      RetryAt(outcomes, retryCount, run, n);
      if reply.Ok? {
        return true, Ok(reply.value), request, next;
      }
      if n == retryCount {
        return true, Err(Raised(reply.error)), request, next;
      }
      BackoffSleep(n, backoffs0);
      done, r := false, Err(Raised(reply.error));
    }

    /**
     * The `for attempt in range(retryCount + 1)` loop of `get` itself, as
     * `Retry` and `Timeline` describe it.
     */
    method RunAttempts(url: Url, params: Option<map<string, string>>, options: map<string, Arg>,
                     outcomes: seq<Outcome>)
      returns (r: Result<Response, GetError>, ghost sent: seq<Request>, ghost times: seq<nat>)
      requires Valid()
      requires retryCount < |outcomes|
      modifies this`sessionHeaders, this`lastRequestTime,
               world`now, world`waits, world`backoffs, world`requests, world`sendTimes
      ensures Valid()
      ensures var run := Retry(outcomes, retryCount, 0);
        && r == run.result
        && |sent| == run.attempts
        && world.backoffs == old(world.backoffs) + BackoffSchedule(retryDelay, run.attempts - 1)
      ensures world.requests == old(world.requests) + sent
      ensures world.sendTimes == old(world.sendTimes) + times && |times| == |sent|
      // each attempt starts as soon as the limiter allows; the waits and the clock are those of the timeline
      ensures var t := Timeline(old(world.now), old(lastRequestTime), rateLimit, retryDelay, outcomes, |times|);
        times == t.starts && world.waits == old(world.waits) + t.waits && world.now == t.clock
      ensures lastRequestTime == ([old(lastRequestTime)] + times)[|times|]
      ensures AllConform(sent, url, params, options, cookies, userAgentRotation, userAgents, old(sessionHeaders))
      // the session keeps the User-Agent of the last request sent, and no other header changes
      ensures sessionHeaders == sent[|sent| - 1].headers
      ensures SameButUserAgent(sessionHeaders, old(sessionHeaders))
      ensures !userAgentRotation ==> sessionHeaders == old(sessionHeaders)
    {
      sent, times := [], [];
      ghost var headers0 := sessionHeaders;
      ghost var now0, last0 := world.now, lastRequestTime;
      ghost var requests0, sendTimes0, waits0, backoffs0 := world.requests, world.sendTimes, world.waits, world.backoffs;
      ghost var run := Retry(outcomes, retryCount, 0);
      ghost var tl := Timeline(now0, last0, rateLimit, retryDelay, outcomes, 0);
      var attempt: nat := 0;
      while true
        invariant attempt < run.attempts
        invariant Valid()
        invariant world.requests == requests0 + sent && |sent| == attempt
        invariant world.sendTimes == sendTimes0 + times && |times| == attempt
        invariant tl == Timeline(now0, last0, rateLimit, retryDelay, outcomes, attempt)
        invariant times == tl.starts && world.waits == waits0 + tl.waits
        invariant world.now == Ready(tl, now0, retryDelay, attempt)
        invariant lastRequestTime == ([last0] + times)[|times|]
        invariant world.backoffs == backoffs0 + BackoffSchedule(retryDelay, attempt)
        invariant sent != [] ==> sessionHeaders == sent[|sent| - 1].headers
        invariant AllConform(sent, url, params, options, cookies, userAgentRotation, userAgents, headers0)
        invariant SameButUserAgent(sessionHeaders, headers0)
        invariant !userAgentRotation ==> sessionHeaders == headers0
        decreases retryCount - attempt
      {
        var done, request;
        done, r, request, tl := Step(headers0, url, params, options, outcomes, attempt, run, now0, last0,
                                     requests0, sendTimes0, waits0, backoffs0, sent, tl);
        sent, times := sent + [request], tl.starts;
        if done {
          break;
        }
        attempt := attempt + 1;
      }
    }

    /**
     * The `for attempt in range(retryCount + 1)` loop of `get`, entered once
     * robots.txt has allowed the URL. `outcomes[i]` is what attempt i brings
     * back; `sent` are the requests the loop sends and `times` when it sends them.
     */
    method RetryLoop(url: Url, params: Option<map<string, string>>, options: map<string, Arg>,
                     outcomes: seq<Outcome>)
      returns (r: Result<Response, GetError>, ghost sent: seq<Request>, ghost times: seq<nat>)
      requires Valid()
      requires retryCount < |outcomes|
      modifies this`sessionHeaders, this`lastRequestTime,
               world`now, world`waits, world`backoffs, world`requests, world`sendTimes
      ensures Valid()
      ensures var run := Retry(outcomes, retryCount, 0);
        && r == run.result
        && |sent| == run.attempts
        && world.backoffs == old(world.backoffs) + BackoffSchedule(retryDelay, run.attempts - 1)
      ensures world.requests == old(world.requests) + sent
      ensures world.sendTimes == old(world.sendTimes) + times && |times| == |sent|
      // each attempt starts as soon as the limiter allows; the waits and the clock are those of the timeline
      ensures var t := Timeline(old(world.now), old(lastRequestTime), rateLimit, retryDelay, outcomes, |times|);
        times == t.starts && world.waits == old(world.waits) + t.waits && world.now == t.clock
      // the attempts start at least rateLimit after each other and after the previous call's last one
      ensures Spaced([old(lastRequestTime)] + times, rateLimit)
      ensures lastRequestTime == ([old(lastRequestTime)] + times)[|times|]
      // no rate-limit wait with the limiter off
      ensures rateLimit == 0 ==> world.waits == old(world.waits)
      ensures AllConform(sent, url, params, options, cookies, userAgentRotation, userAgents, old(sessionHeaders))
      // the session keeps the User-Agent of the last request sent, and no other header changes
      ensures sessionHeaders == sent[|sent| - 1].headers
      ensures SameButUserAgent(sessionHeaders, old(sessionHeaders))
      ensures !userAgentRotation ==> sessionHeaders == old(sessionHeaders)
    {
      ghost var now0, last0 := world.now, lastRequestTime;
      r, sent, times := RunAttempts(url, params, options, outcomes);
      TimelineSpaced(now0, last0, rateLimit, retryDelay, outcomes, |times|);
      TimelineWaits(now0, last0, rateLimit, retryDelay, outcomes, |times|);
    }

    /**
     * `get`: check robots.txt once, before any attempt, then run the retry
     * loop. `robotsRead` is what reading robots.txt would yield, `robotsLatency`
     * how long that read takes, and `outcomes[i]` what attempt i brings back; `sent` are the requests the
     * call sends and `times` when it sends them.
     */
    method Get(url: Url, params: Option<map<string, string>>, kwargs: map<string, Arg>,
               robotsRead: Option<Rules>, robotsLatency: nat, outcomes: seq<Outcome>)
      returns (r: Result<Response, GetError>, ghost sent: seq<Request>, ghost times: seq<nat>, ghost ready: nat)
      requires Valid()
      requires retryCount < |outcomes|
      modifies this, world
      ensures Valid()
      ensures var check := CheckRobots(respectRobotsTxt, old(robotsCache), url,
                                       SessionUserAgent(old(sessionHeaders)), robotsRead, canFetch);
        && robotsCache == check.cache
        // robots.txt is read at most once per call, and only by the check
        && world.robotsReads == old(world.robotsReads) + (if check.fetched then [RobotsUrl(url)] else [])
        // refused by robots.txt: PermissionError, and no attempt, wait, backoff or rotation at all;
        // the only time that passes is the robots.txt read
        && (!check.allowed ==>
              && r == Err(PermissionDenied) && sent == [] && times == []
              && world.waits == old(world.waits) && world.backoffs == old(world.backoffs)
              && sessionHeaders == old(sessionHeaders)
              && world.now == old(world.now) + (if check.fetched then robotsLatency else 0))
        // otherwise the retry policy decides the result, the attempts and the backoffs
        && (check.allowed ==>
              var run := Retry(outcomes, retryCount, 0);
              && r == run.result
              && |sent| == run.attempts
              && world.backoffs == old(world.backoffs) + BackoffSchedule(retryDelay, run.attempts - 1)
              // each attempt starts as soon as the limiter allows, counting from the end of the check
              && ready == old(world.now) + (if check.fetched then robotsLatency else 0)
              && var t := Timeline(ready, old(lastRequestTime), rateLimit, retryDelay, outcomes, |sent|);
                 times == t.starts && world.waits == old(world.waits) + t.waits && world.now == t.clock)
      ensures world.requests == old(world.requests) + sent
      ensures world.sendTimes == old(world.sendTimes) + times
      // the attempts start at least rateLimit after each other and after the previous call's last one
      ensures Spaced([old(lastRequestTime)] + times, rateLimit)
      ensures lastRequestTime == ([old(lastRequestTime)] + times)[|times|]
      ensures rateLimit == 0 ==> world.waits == old(world.waits)
      ensures AllConform(sent, url, params, MergeOptions(timeout, verifySsl, kwargs),
                         cookies, userAgentRotation, userAgents, old(sessionHeaders))
      ensures sent != [] ==> sessionHeaders == sent[|sent| - 1].headers
      ensures SameButUserAgent(sessionHeaders, old(sessionHeaders))
      ensures !userAgentRotation ==> sessionHeaders == old(sessionHeaders)
    {
      ghost var check := CheckRobots(respectRobotsTxt, robotsCache, url,
                                     SessionUserAgent(sessionHeaders), robotsRead, canFetch);
      var allowed := CheckRobotsTxt(url, robotsRead, robotsLatency);
      ready := world.now;
      if !allowed {
        return Err(PermissionDenied), [], [], ready;
      }
      var options := MergeOptions(timeout, verifySsl, kwargs);
      r, sent, times := RetryLoop(url, params, options, outcomes);
    }
  }
}
