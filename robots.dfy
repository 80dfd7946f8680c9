/** The robots.txt policy of `_check_robots_txt` as a pure decision over the cache. */
module Robots {
  import opened Wrappers
  import opened Http

  /** The rules a successful `RobotFileParser.read()` produced; their grammar is not modelled. */
  datatype Rules = Rules(text: string)

  /** `robots_cache`: origin (`scheme://netloc`) to the rules read from it. */
  type Cache = map<string, Rules>

  /** `RobotFileParser.can_fetch(user_agent, url)` over a set of rules. */
  type CanFetch = (Rules, string, Url) -> bool

  /** The verdict of one check, the cache after it, and whether robots.txt was read. */
  datatype Check = Check(allowed: bool, cache: Cache, fetched: bool)

  /** Entries are never evicted or replaced. */
  ghost predicate Extends(before: Cache, after: Cache)
  {
    forall origin :: origin in before ==> origin in after && after[origin] == before[origin]
  }

  /**
   * One robots check for `url` on behalf of `userAgent`; `read` is what reading
   * the origin's robots.txt yields (None when the read raises).
   */
  function CheckRobots(respect: bool, cache: Cache, url: Url, userAgent: string,
                       read: Option<Rules>, canFetch: CanFetch): (c: Check)
    // with the policy switched off everything is allowed and nothing is touched
    ensures !respect ==> c == Check(true, cache, false)
    // robots.txt is read exactly when the origin is not cached yet
    ensures c.fetched <==> respect && Origin(url) !in cache
    // a read that fails allows the request and caches nothing
    ensures c.fetched && read.None? ==> c.allowed && c.cache == cache
    // the only change to the cache is the one origin whose read succeeded
    ensures c.cache == if c.fetched && read.Some? then cache[Origin(url) := read.value] else cache
    ensures Extends(cache, c.cache)
    // whenever rules for the origin are known, they decide
    ensures respect && Origin(url) in c.cache ==> c.allowed == canFetch(c.cache[Origin(url)], userAgent, url)
  {
    if !respect then Check(true, cache, false)
    else
      var origin := Origin(url);
      if origin !in cache then
        match read
        case None => Check(true, cache, true)
        case Some(rules) => Check(canFetch(rules, userAgent, url), cache[origin := rules], true)
      else
        Check(canFetch(cache[origin], userAgent, url), cache, false)
  }

  /** After a successful read, later checks on the same origin reuse the rules and read nothing. */
  lemma CachedOriginIsNotReread(cache: Cache, first: Url, later: Url, ua1: string, ua2: string,
                                rules: Rules, read2: Option<Rules>, canFetch: CanFetch)
    requires Origin(first) == Origin(later) && Origin(first) !in cache
    ensures var c1 := CheckRobots(true, cache, first, ua1, Some(rules), canFetch);
      var c2 := CheckRobots(true, c1.cache, later, ua2, read2, canFetch);
      c1.fetched && !c2.fetched && c2.cache == c1.cache && c2.allowed == canFetch(rules, ua2, later)
  {
  }

  /** After a failed read, the next check on the same origin reads robots.txt again. */
  lemma FailedReadIsRetried(cache: Cache, first: Url, later: Url, ua1: string, ua2: string,
                            read2: Option<Rules>, canFetch: CanFetch)
    requires Origin(first) == Origin(later) && Origin(first) !in cache
    ensures var c1 := CheckRobots(true, cache, first, ua1, None, canFetch);
      var c2 := CheckRobots(true, c1.cache, later, ua2, read2, canFetch);
      c1.allowed && c1.fetched && c2.fetched
  {
  }

  /** One call of `_check_robots_txt`: the URL, the session's User-Agent, the read's result. */
  datatype Query = Query(url: Url, userAgent: string, read: Option<Rules>)

  function Origins(queries: seq<Query>): set<string>
  {
    set q | q in queries :: Origin(q.url)
  }

  /**
   * The cache after a series of checks over a requester's lifetime: it only
   * grows, and only by origins that were asked about.
   */
  function CheckAll(respect: bool, cache: Cache, queries: seq<Query>, canFetch: CanFetch): (final: Cache)
    ensures Extends(cache, final)
    ensures final.Keys <= cache.Keys + Origins(queries)
    ensures !respect ==> final == cache
    decreases |queries|
  {
    if queries == [] then cache
    else
      var q := queries[0];
      var c := CheckRobots(respect, cache, q.url, q.userAgent, q.read, canFetch);
      assert Origins(queries) == {Origin(q.url)} + Origins(queries[1..]);
      CheckAll(respect, c.cache, queries[1..], canFetch)
  }
}
