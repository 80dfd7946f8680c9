/**
 * The world the requester talks to, made explicit: URLs as urlparse splits them,
 * HTTP replies handed out by an oracle, an abstract clock and a record of every
 * observable side effect (sleeps, robots.txt reads, requests sent).
 */
module Http {
  import opened Wrappers
  import opened Ascii

  const UserAgentHeader: string := "User-Agent"

  /** One header entry: the name as it was last set, and its value. */
  datatype Header = Header(name: string, value: string)

  /**
   * The case-insensitive header dictionary of a `requests` session: every
   * entry is keyed by its lower-cased name, so names that differ only in case
   * are one header.
   */
  type Headers = map<string, Header>

  /** Every entry sits under the lower-cased form of its own name, as in a `CaseInsensitiveDict`. */
  ghost predicate WellFormed(h: Headers)
  {
    forall k {:trigger h[k].name} :: k in h ==> k == Lower(h[k].name)
  }

  /** `headers.get(name)`: the value of the header with this name up to case. */
  function HeaderValue(h: Headers, name: string): (v: Option<string>)
    ensures v.Some? ==> Lower(name) in h && v.value == h[Lower(name)].value
  {
    if Lower(name) in h then Some(h[Lower(name)].value) else None
  }

  /** `headers[name] = value`: replaces the header of that name, whatever its case. */
  function SetHeader(h: Headers, name: string, value: string): (r: Headers)
    ensures r.Keys == h.Keys + {Lower(name)}
  {
    h[Lower(name) := Header(name, value)]
  }

  /**
   * After `headers[name] = value`, every name equal to `name` up to case has
   * that value and every other name keeps its own; a well-formed dictionary
   * stays well-formed.
   */
  lemma SetHeaderValues(h: Headers, name: string, value: string)
    ensures var r := SetHeader(h, name, value);
      && (WellFormed(h) ==> WellFormed(r))
      && forall n {:trigger HeaderValue(r, n)} ::
           HeaderValue(r, n) == if Lower(n) == Lower(name) then Some(value) else HeaderValue(h, n)
  {
  }

  /** In a well-formed dictionary, a name has a value exactly when an entry carries that name in some case. */
  lemma HeaderPresent(h: Headers, name: string)
    requires WellFormed(h)
    ensures HeaderValue(h, name).Some? <==> exists k :: k in h && Lower(h[k].name) == Lower(name)
  {
  }

  /**
   * In a well-formed dictionary a name has one entry: every entry whose name
   * equals `name` up to case is the one `HeaderValue` finds.
   */
  lemma OneEntryPerName(h: Headers, name: string)
    requires WellFormed(h)
    ensures forall k :: k in h && Lower(h[k].name) == Lower(name) ==> HeaderValue(h, name) == Some(h[k].value)
  {
  }

  /** The value of the last of `items` whose name equals `name` up to case. */
  function LastValue(items: seq<(string, string)>, name: string): Option<string>
  {
    if items == [] then None
    else if Lower(items[|items| - 1].0) == Lower(name) then Some(items[|items| - 1].1)
    else LastValue(items[..|items| - 1], name)
  }

  /**
   * `headers.update(d)`: sets the items of the dictionary `d` one by one, in
   * its order; so the last item naming a header decides its value.
   */
  function UpdateHeaders(h: Headers, items: seq<(string, string)>): (r: Headers)
    ensures WellFormed(h) ==> WellFormed(r)
    ensures forall n {:trigger HeaderValue(r, n)} ::
      HeaderValue(r, n) == if LastValue(items, n).Some? then LastValue(items, n) else HeaderValue(h, n)
    decreases |items|
  {
    if items == [] then h
    else
      SetHeaderValues(h, items[0].0, items[0].1);
      var r := UpdateHeaders(SetHeader(h, items[0].0, items[0].1), items[1..]);
      forall n ensures LastValue(items, n) ==
        if LastValue(items[1..], n).Some? then LastValue(items[1..], n)
        else if Lower(items[0].0) == Lower(n) then Some(items[0].1) else None
      {
        LastValueFront(items, n);
      }
      r
  }

  /** `LastValue` seen from the front: a later item overrides the first one. */
  lemma {:induction false} LastValueFront(items: seq<(string, string)>, name: string)
    requires items != []
    ensures LastValue(items, name) ==
      if LastValue(items[1..], name).Some? then LastValue(items[1..], name)
      else if Lower(items[0].0) == Lower(name) then Some(items[0].1) else None
    decreases |items|
  {
    if |items| > 1 && Lower(items[|items| - 1].0) != Lower(name) {
      var init := items[..|items| - 1];
      LastValueFront(init, name);
      assert init[1..] == items[1..][..|items[1..]| - 1];
    }
  }

  /** A URL as urlparse splits it; only scheme and netloc matter to the core. */
  datatype Url = Url(scheme: string, netloc: string, path: string, query: string)

  /** The robots cache key: `scheme://netloc`. */
  function Origin(u: Url): (o: string)
    ensures |o| == |u.scheme| + 3 + |u.netloc|
    ensures o[..|u.scheme|] == u.scheme && o[|u.scheme|..|u.scheme| + 3] == "://" && o[|u.scheme| + 3..] == u.netloc
  {
    u.scheme + "://" + u.netloc
  }

  /** Where the robots rules of the URL's origin are read from. */
  function RobotsUrl(u: Url): (r: string)
    ensures |r| == |Origin(u)| + 11
    ensures r[..|Origin(u)|] == Origin(u) && r[|Origin(u)|..] == "/robots.txt"
  {
    Origin(u) + "/robots.txt"
  }

  /**
   * Origins keep sites apart: when no scheme contains a colon, as none can,
   * two URLs share an origin exactly when they share scheme and netloc.
   */
  lemma {:induction false} OriginSeparatesSites(u: Url, v: Url)
    requires ':' !in u.scheme && ':' !in v.scheme
    ensures Origin(u) == Origin(v) <==> u.scheme == v.scheme && u.netloc == v.netloc
    ensures RobotsUrl(u) == RobotsUrl(v) <==> Origin(u) == Origin(v)
  {
    var o, p := Origin(u), Origin(v);
    if o == p {
      SchemeEndsAtColon(u);
      SchemeEndsAtColon(v);
      if |u.scheme| != |v.scheme| {
        assert false;
      }
      assert u.scheme == o[..|u.scheme|] == p[..|v.scheme|] == v.scheme;
      assert u.netloc == o[|u.scheme| + 3..] == p[|v.scheme| + 3..] == v.netloc;
    }
    if RobotsUrl(u) == RobotsUrl(v) {
      assert o == RobotsUrl(u)[..|o|] && p == RobotsUrl(v)[..|p|];
    }
  }

  /** An origin spells the scheme and then the colon of `://`. */
  lemma SchemeEndsAtColon(u: Url)
    ensures |Origin(u)| > |u.scheme| && Origin(u)[|u.scheme|] == ':'
    ensures forall i :: 0 <= i < |u.scheme| ==> Origin(u)[i] == u.scheme[i]
  {
  }

  datatype Response = Response(status: int, headers: map<string, string>, text: string)

  /** What one network attempt brings back, and how long it took. */
  datatype Outcome =
    | Received(latency: nat, response: Response)
    | Unreachable(latency: nat, reason: string)

  /** The exceptions an attempt can raise: a transport failure or an error status. */
  datatype RequestError = ConnectionFailure(reason: string) | HttpStatusError(status: int)

  /** Statuses `raise_for_status` rejects: client errors 4xx and server errors 5xx. */
  predicate IsErrorStatus(status: int)
  {
    400 <= status < 600
  }

  /** An attempt after `raise_for_status`: a usable response or the exception raised. */
  function RaiseForStatus(outcome: Outcome): (r: Result<Response, RequestError>)
    ensures r.Ok? <==> outcome.Received? && !IsErrorStatus(outcome.response.status)
    ensures r.Ok? ==> r.value == outcome.response
    ensures r.Err? ==> r.error == if outcome.Received? then HttpStatusError(outcome.response.status)
                                  else ConnectionFailure(outcome.reason)
  {
    match outcome
    case Unreachable(_, reason) => Err(ConnectionFailure(reason))
    case Received(_, response) =>
      if IsErrorStatus(response.status) then Err(HttpStatusError(response.status)) else Ok(response)
  }

  /** A keyword argument passed through to the HTTP call. */
  datatype Arg = Num(n: int) | Flag(b: bool) | Text(s: string)

  /**
   * The keyword arguments of one request: the configured `timeout` and `verify`,
   * overridden by whatever the caller passed.
   */
  function MergeOptions(timeout: nat, verifySsl: bool, kwargs: map<string, Arg>): (m: map<string, Arg>)
    ensures m.Keys == {"timeout", "verify"} + kwargs.Keys
    ensures forall k :: k in kwargs ==> m[k] == kwargs[k]
    ensures "timeout" !in kwargs ==> m["timeout"] == Num(timeout)
    ensures "verify" !in kwargs ==> m["verify"] == Flag(verifySsl)
  {
    map["timeout" := Num(timeout), "verify" := Flag(verifySsl)] + kwargs
  }

  /** One request as it leaves the session. */
  datatype Request = Request(
    url: Url,
    params: Option<map<string, string>>,
    headers: Headers,
    cookies: map<string, string>,
    options: map<string, Arg>)

  /**
   * The clock and what the requester did to the outside world, one sequence
   * per kind of side effect: `time.time()` reads `now`, each `time.sleep`
   * advances it and is recorded as a rate-limit wait or a backoff, and every
   * robots.txt read and every HTTP request sent is recorded in order.
   */
  class World {
    var now: nat
    var waits: seq<nat>
    var backoffs: seq<nat>
    var robotsReads: seq<string>
    var requests: seq<Request>
    /** The clock reading at which each request in `requests` was sent. */
    var sendTimes: seq<nat>

    constructor (start: nat)
      ensures now == start
      ensures waits == [] && backoffs == [] && robotsReads == [] && requests == [] && sendTimes == []
    {
      now := start;
      waits, backoffs, robotsReads, requests, sendTimes := [], [], [], [], [];
    }

    /** `time.sleep(duration)` in the rate limiter. */
    method SleepWait(duration: nat)
      modifies this`now, this`waits
      ensures now == old(now) + duration
      ensures waits == old(waits) + [duration]
    {
      now := now + duration;
      waits := waits + [duration];
    }

    /** `time.sleep(duration)` between two attempts. */
    method SleepBackoff(duration: nat)
      modifies this`now, this`backoffs
      ensures now == old(now) + duration
      ensures backoffs == old(backoffs) + [duration]
    {
      now := now + duration;
      backoffs := backoffs + [duration];
    }

    /** `RobotFileParser.read()` of the given URL, a network fetch that takes `latency`. */
    method FetchRobots(robotsUrl: string, latency: nat)
      modifies this`now, this`robotsReads
      ensures now == old(now) + latency
      ensures robotsReads == old(robotsReads) + [robotsUrl]
    {
      robotsReads := robotsReads + [robotsUrl];
      now := now + latency;
    }

    /** One HTTP attempt: sent now, answered with `outcome` after its latency. */
    method Send(request: Request, outcome: Outcome)
      modifies this`now, this`requests, this`sendTimes
      ensures now == old(now) + outcome.latency
      ensures requests == old(requests) + [request]
      ensures sendTimes == old(sendTimes) + [old(now)]
    {
      requests := requests + [request];
      sendTimes := sendTimes + [now];
      now := now + outcome.latency;
    }
  }
}
