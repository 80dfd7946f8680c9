/**
 * The retry policy of `Requester.get` as a reference definition: which attempt
 * ends the loop, what it returns, and how long the backoff sleeps are.
 */
module Retrying {
  import opened Wrappers
  import opened Http
  import opened RateLimit

  /** What `get` raises: the robots refusal, or the last attempt's exception re-raised. */
  datatype GetError = PermissionDenied | Raised(cause: RequestError)

  /** How a run of the retry loop ends, and how many attempts it made. */
  datatype Run = Run(result: Result<Response, GetError>, attempts: nat)

  function Pow2(n: nat): (p: nat)
    ensures p >= 1
  {
    if n == 0 then 1 else 2 * Pow2(n - 1)
  }

  /** The sleep after failed attempt i, doubling from `retryDelay`. */
  function Backoff(retryDelay: nat, i: nat): nat
  {
    if i == 0 then retryDelay else 2 * Backoff(retryDelay, i - 1)
  }

  /** The sleep after failed attempt i is `retryDelay * 2^i`. */
  lemma {:induction false} BackoffIsPower(retryDelay: nat, i: nat)
    ensures Backoff(retryDelay, i) == retryDelay * Pow2(i)
  {
    if i > 0 {
      BackoffIsPower(retryDelay, i - 1);
      assert retryDelay * Pow2(i) == 2 * (retryDelay * Pow2(i - 1));
    }
  }

  /** The sleeps that follow the failed attempts 0 .. n-1: `retryDelay * 2^i` each. */
  function BackoffSchedule(retryDelay: nat, n: nat): (s: seq<nat>)
    ensures |s| == n
  {
    if n == 0 then [] else BackoffSchedule(retryDelay, n - 1) + [Backoff(retryDelay, n - 1)]
  }

  /** The sleep after failed attempt i is `retryDelay * 2^i`. */
  lemma {:induction false} BackoffScheduleAt(retryDelay: nat, n: nat, i: nat)
    requires i < n
    ensures BackoffSchedule(retryDelay, n)[i] == retryDelay * Pow2(i)
  {
    if i < n - 1 {
      BackoffScheduleAt(retryDelay, n - 1, i);
    } else {
      BackoffIsPower(retryDelay, i);
    }
  }

  /** Each backoff sleep is twice the one before it. */
  lemma BackoffDoubles(retryDelay: nat, n: nat, i: nat)
    requires 0 < i < n
    ensures BackoffSchedule(retryDelay, n)[i] == 2 * BackoffSchedule(retryDelay, n)[i - 1]
  {
    var s := BackoffSchedule(retryDelay, n);
    BackoffScheduleAt(retryDelay, n, i);
    BackoffScheduleAt(retryDelay, n, i - 1);
    assert s[i] == retryDelay * (2 * Pow2(i - 1));
    assert retryDelay * (2 * Pow2(i - 1)) == 2 * (retryDelay * Pow2(i - 1));
  }

  function Sum(s: seq<nat>): nat
  {
    if s == [] then 0 else Sum(s[..|s| - 1]) + s[|s| - 1]
  }

  lemma SumSnoc(s: seq<nat>, x: nat)
    ensures Sum(s + [x]) == Sum(s) + x
  {
    assert (s + [x])[..|s|] == s;
  }

  /** After n backoffs the loop has slept `retryDelay * (2^n - 1)` in all. */
  lemma {:induction false} BackoffTotal(retryDelay: nat, n: nat)
    ensures Sum(BackoffSchedule(retryDelay, n)) + retryDelay == retryDelay * Pow2(n)
  {
    if n > 0 {
      var p := Pow2(n - 1);
      var prev := BackoffSchedule(retryDelay, n - 1);
      BackoffTotal(retryDelay, n - 1);
      BackoffIsPower(retryDelay, n - 1);
      assert BackoffSchedule(retryDelay, n) == prev + [retryDelay * p];
      SumSnoc(prev, retryDelay * p);
      Twice(retryDelay, p);
    }
  }

  lemma Twice(d: nat, p: nat)
    ensures d * (2 * p) == d * p + d * p
  {
  }

  /**
   * The loop from attempt `attempt` on: a successful attempt returns its
   * response; a failed one is retried while `attempt < retryCount` and
   * re-raised otherwise.
   */
  function Retry(outcomes: seq<Outcome>, retryCount: nat, attempt: nat): (run: Run)
    requires attempt <= retryCount < |outcomes|
    ensures attempt < run.attempts <= retryCount + 1
    decreases retryCount - attempt
  {
    match RaiseForStatus(outcomes[attempt])
    case Ok(response) => Run(Ok(response), attempt + 1)
    case Err(e) =>
      if attempt < retryCount then Retry(outcomes, retryCount, attempt + 1)
      else Run(Err(Raised(e)), attempt + 1)
  }

  predicate Fails(o: Outcome)
  {
    RaiseForStatus(o).Err?
  }

  /** Attempts that failed before `attempt` do not change where the loop ends. */
  lemma {:induction false} RetrySkipsFailures(outcomes: seq<Outcome>, retryCount: nat, attempt: nat)
    requires attempt <= retryCount < |outcomes|
    requires forall j :: 0 <= j < attempt ==> Fails(outcomes[j])
    ensures Retry(outcomes, retryCount, 0) == Retry(outcomes, retryCount, attempt)
  {
    if attempt > 0 {
      RetrySkipsFailures(outcomes, retryCount, attempt - 1);
    }
  }

  /**
   * What a run from `attempt` is, stated without the recursion: every attempt
   * before the last one made failed; the run ends with the first success and
   * returns its response, or, after the last permitted attempt fails, re-raises
   * that attempt's error.
   */
  lemma {:induction false} RetryShape(outcomes: seq<Outcome>, retryCount: nat, attempt: nat)
    requires attempt <= retryCount < |outcomes|
    ensures var run := Retry(outcomes, retryCount, attempt);
      && (forall j :: attempt <= j < run.attempts - 1 ==> Fails(outcomes[j]))
      && (run.result.Ok? <==> !Fails(outcomes[run.attempts - 1]))
      && (run.result.Ok? ==> run.result.value == RaiseForStatus(outcomes[run.attempts - 1]).value)
      && (run.result.Err? ==>
            run.attempts == retryCount + 1 &&
            run.result.error == Raised(RaiseForStatus(outcomes[retryCount]).error))
    decreases retryCount - attempt
  {
    if Fails(outcomes[attempt]) && attempt < retryCount {
      RetryShape(outcomes, retryCount, attempt + 1);
    }
  }

  /**
   * Where attempt k, one the run reaches, leaves the loop: a success ends the
   * run with its response; a failure of the last permitted attempt ends it
   * with that error; any other failure is followed by another attempt.
   */
  lemma RetryAt(outcomes: seq<Outcome>, retryCount: nat, run: Run, k: nat)
    requires retryCount < |outcomes| && run == Retry(outcomes, retryCount, 0)
    requires k < run.attempts
    ensures !Fails(outcomes[k]) ==> run == Run(Ok(RaiseForStatus(outcomes[k]).value), k + 1)
    ensures Fails(outcomes[k]) && k == retryCount ==>
      run == Run(Err(Raised(RaiseForStatus(outcomes[k]).error)), k + 1)
    ensures Fails(outcomes[k]) && k < retryCount ==> k + 1 < run.attempts
  {
    RetryShape(outcomes, retryCount, 0);
  }

  /**
   * When the first attempts of one call happen: the start of each (the clock
   * once the rate limiter let it through), the limiter's sleeps, and the clock
   * once the last of them has its reply.
   */
  datatype Timing = Timing(starts: seq<nat>, waits: seq<nat>, clock: nat)

  /** The clock at which attempt n is ready, once the backoff after attempt n-1 is over. */
  function Ready(t: Timing, now0: nat, retryDelay: nat, n: nat): (r: nat)
    ensures n == 0 ==> r == now0
    ensures n > 0 ==> r >= t.clock
  {
    if n == 0 then now0 else t.clock + Backoff(retryDelay, n - 1)
  }

  /**
   * The timing of the first n attempts of a call that starts at clock `now0`
   * with the previous attempt started at `last0`: each waits just as long as
   * the limiter demands, takes its outcome's latency, and is followed by its
   * backoff.
   */
  function Timeline(now0: nat, last0: nat, rateLimit: nat, retryDelay: nat,
                    outcomes: seq<Outcome>, n: nat): (t: Timing)
    requires last0 <= now0 && n <= |outcomes|
    ensures |t.starts| == n
    ensures n == 0 ==> t.clock == now0
    ensures n > 0 ==> t.clock == t.starts[n - 1] + outcomes[n - 1].latency
  {
    if n == 0 then Timing([], [], now0)
    else
      var p := Timeline(now0, last0, rateLimit, retryDelay, outcomes, n - 1);
      var ready := Ready(p, now0, retryDelay, n - 1);
      var last := if n == 1 then last0 else p.starts[n - 2];
      var w := Wait(rateLimit, ready - last);
      Timing(p.starts + [ready + w], p.waits + (if w > 0 then [w] else []), ready + w + outcomes[n - 1].latency)
  }

  /** One more attempt: it is ready when the backoff before it ends and waits as the limiter demands. */
  lemma TimelineNext(now0: nat, last0: nat, rateLimit: nat, retryDelay: nat, outcomes: seq<Outcome>, n: nat)
    requires last0 <= now0 && n < |outcomes|
    ensures var p := Timeline(now0, last0, rateLimit, retryDelay, outcomes, n);
      var ready := Ready(p, now0, retryDelay, n);
      var last := if n == 0 then last0 else p.starts[n - 1];
      last <= ready &&
      var w := Wait(rateLimit, ready - last);
      Timeline(now0, last0, rateLimit, retryDelay, outcomes, n + 1)
        == Timing(p.starts + [ready + w], p.waits + (if w > 0 then [w] else []), ready + w + outcomes[n].latency)
  {
  }

  /**
   * Attempt k starts as soon as the limiter allows: at the clock it is ready,
   * plus the limiter's wait measured from the previous start.
   */
  lemma {:induction false} TimelineStart(now0: nat, last0: nat, rateLimit: nat, retryDelay: nat,
                                         outcomes: seq<Outcome>, n: nat, k: nat)
    requires last0 <= now0 && n <= |outcomes| && k < n
    ensures var t := Timeline(now0, last0, rateLimit, retryDelay, outcomes, n);
      var prev := if k == 0 then last0 else t.starts[k - 1];
      var ready := if k == 0 then now0 else t.starts[k - 1] + outcomes[k - 1].latency + Backoff(retryDelay, k - 1);
      prev <= ready && t.starts[k] == ready + Wait(rateLimit, ready - prev)
  {
    if k < n - 1 {
      TimelineStart(now0, last0, rateLimit, retryDelay, outcomes, n - 1, k);
    }
  }

  /** The limiter spaces the starts of one call, and the first from the previous call's last one. */
  lemma {:induction false} TimelineSpaced(now0: nat, last0: nat, rateLimit: nat, retryDelay: nat,
                                          outcomes: seq<Outcome>, n: nat)
    requires last0 <= now0 && n <= |outcomes|
    ensures Spaced([last0] + Timeline(now0, last0, rateLimit, retryDelay, outcomes, n).starts, rateLimit)
  {
    if n > 0 {
      var p := Timeline(now0, last0, rateLimit, retryDelay, outcomes, n - 1);
      var t := Timeline(now0, last0, rateLimit, retryDelay, outcomes, n);
      TimelineSpaced(now0, last0, rateLimit, retryDelay, outcomes, n - 1);
      SpacedAppend([last0] + p.starts, rateLimit, t.starts[n - 1]);
      assert [last0] + t.starts == [last0] + p.starts + [t.starts[n - 1]];
    }
  }

  /**
   * The limiter sleeps at most once per attempt, never longer than `rateLimit`,
   * and not at all when it is off.
   */
  lemma {:induction false} TimelineWaits(now0: nat, last0: nat, rateLimit: nat, retryDelay: nat,
                                         outcomes: seq<Outcome>, n: nat)
    requires last0 <= now0 && n <= |outcomes|
    ensures var t := Timeline(now0, last0, rateLimit, retryDelay, outcomes, n);
      && |t.waits| <= n
      && (forall i :: 0 <= i < |t.waits| ==> 0 < t.waits[i] <= rateLimit)
      && (rateLimit == 0 ==> t.waits == [])
  {
    if n > 0 {
      var p := Timeline(now0, last0, rateLimit, retryDelay, outcomes, n - 1);
      var t := Timeline(now0, last0, rateLimit, retryDelay, outcomes, n);
      TimelineWaits(now0, last0, rateLimit, retryDelay, outcomes, n - 1);
      var ready := Ready(p, now0, retryDelay, n - 1);
      var last := if n == 1 then last0 else p.starts[n - 2];
      var w := Wait(rateLimit, ready - last);
      assert t.waits == p.waits + (if w > 0 then [w] else []);
      assert w > 0 ==> w <= rateLimit;
    }
  }

  /** The first successful attempt ends `get` with its response; no attempt follows it. */
  lemma RetryFirstSuccess(outcomes: seq<Outcome>, retryCount: nat, k: nat)
    requires k <= retryCount < |outcomes|
    requires forall j :: 0 <= j < k ==> Fails(outcomes[j])
    requires !Fails(outcomes[k])
    ensures Retry(outcomes, retryCount, 0) == Run(Ok(RaiseForStatus(outcomes[k]).value), k + 1)
  {
    RetrySkipsFailures(outcomes, retryCount, k);
  }

  /** If every attempt fails, `get` makes exactly `retryCount + 1` and re-raises the last error. */
  lemma RetryAllFail(outcomes: seq<Outcome>, retryCount: nat)
    requires retryCount < |outcomes|
    requires forall j :: 0 <= j <= retryCount ==> Fails(outcomes[j])
    ensures RaiseForStatus(outcomes[retryCount]).Err?
    ensures Retry(outcomes, retryCount, 0)
         == Run(Err(Raised(RaiseForStatus(outcomes[retryCount]).error)), retryCount + 1)
  {
    RetrySkipsFailures(outcomes, retryCount, retryCount);
  }

  /** retry_count = 2, retry_delay = 1, every attempt answers 500: three attempts, sleeps 1 then 2. */
  lemma AlwaysServerErrorScenario(r: Response)
    requires r.status == 500
    ensures var outcomes := [Received(0, r), Received(0, r), Received(0, r)];
      Retry(outcomes, 2, 0) == Run(Err(Raised(HttpStatusError(500))), 3)
    ensures BackoffSchedule(1, 2) == [1, 2]
  {
    var outcomes := [Received(0, r), Received(0, r), Received(0, r)];
    RetryAllFail(outcomes, 2);
  }

  /** retry_count = 3, two failures then 200 "ok": success on attempt index 2 with body "ok". */
  lemma FailTwiceThenOkScenario(bad: Response, ok: Response)
    requires IsErrorStatus(bad.status) && ok.status == 200 && ok.text == "ok"
    ensures var outcomes := [Unreachable(0, "timeout"), Received(0, bad), Received(0, ok), Received(0, ok)];
      var run := Retry(outcomes, 3, 0);
      run == Run(Ok(ok), 3) && run.result.value.text == "ok"
  {
    var outcomes := [Unreachable(0, "timeout"), Received(0, bad), Received(0, ok), Received(0, ok)];
    RetryFirstSuccess(outcomes, 3, 2);
  }
}
