/** `RetryMiddleware`: calls the next stage up to `maxAttempts` times, sleeping
    after every 429 Too Many Requests for the delay its `Retry-After` field asks
    for, and gives up with `rateLimited` when every attempt was rate limited.

    Sleeping is not performed: each delay slept is recorded in order instead. */
module Retry {
  import opened Wrappers
  import opened Http
  import opened Errors
  import opened Middleware

  /** The attempt ceiling used when none is given. */
  const DefaultMaxAttempts: nat := 3
  /** Seconds slept after a 429 whose `Retry-After` is absent or unparseable. */
  const DefaultRetryDelay: real := 1.0
  const RetryAfterField: string := "Retry-After"

  /** A negative ceiling traps in the source; see the README. */
  datatype RetryMiddleware = RetryMiddleware(maxAttempts: nat)

  /** The next stage as the retry loop sees it: the outcome of the attempt
      with the given 0-based index, for the arguments forwarded to it. */
  type Attempts = (HttpRequest, Option<HttpBody>, Url, nat) -> Outcome

  /** Parsing of a `Retry-After` value as a number of seconds (`TimeInterval.init`). */
  type DelayParser = string -> Option<real>

  /** One run of the loop: the outcome handed back, the calls made to the next
      stage in order, and the delays slept in order. */
  datatype RetryRun = RetryRun(outcome: Outcome, calls: seq<Forwarded>, sleeps: seq<real>)

  predicate IsRateLimited(o: Outcome) {
    o.Responded? && o.response.status == TooManyRequests
  }

  /** The delay a 429 asks for. */
  function RetryDelay(response: HttpResponse, parseDelay: DelayParser): (d: real)
    ensures RetryAfterField in response.headers && parseDelay(response.headers[RetryAfterField]).Some?
      ==> d == parseDelay(response.headers[RetryAfterField]).value
    ensures RetryAfterField !in response.headers || parseDelay(response.headers[RetryAfterField]).None?
      ==> d == DefaultRetryDelay
  {
    if RetryAfterField in response.headers then
      match parseDelay(response.headers[RetryAfterField])
      case Some(seconds) => seconds
      case None => DefaultRetryDelay
    else
      DefaultRetryDelay
  }

  /** The loop from attempt `attempt` on, `lastRetryAfter` being the delay of
      the latest 429 so far. */
  function Loop(
    mw: RetryMiddleware, parseDelay: DelayParser,
    request: HttpRequest, body: Option<HttpBody>, baseURL: Url, next: Attempts,
    attempt: nat, lastRetryAfter: Option<real>
  ): (r: RetryRun)
    requires attempt <= mw.maxAttempts
    ensures |r.calls| <= mw.maxAttempts - attempt
    ensures |r.sleeps| <= |r.calls|
    ensures forall c | c in r.calls :: c == Forwarded(request, body, baseURL)
    ensures r.outcome.Responded? ==> r.outcome.response.status != TooManyRequests
    decreases mw.maxAttempts - attempt
  {
    if attempt == mw.maxAttempts then
      RetryRun(Threw(Kaiten(RateLimited(lastRetryAfter))), [], [])
    else
      var call := Forwarded(request, body, baseURL);
      var outcome := next(request, body, baseURL, attempt);
      if !IsRateLimited(outcome) then
        RetryRun(outcome, [call], [])
      else
        var delay := RetryDelay(outcome.response, parseDelay);
        var rest := Loop(mw, parseDelay, request, body, baseURL, next, attempt + 1, Some(delay));
        RetryRun(rest.outcome, [call] + rest.calls, [delay] + rest.sleeps)
  }

  /** `intercept`: never more than `maxAttempts` calls, each forwarding the
      request, body and base URL it was given, and never a 429 handed back as
      a response. */
  function Intercept(
    mw: RetryMiddleware, parseDelay: DelayParser,
    request: HttpRequest, body: Option<HttpBody>, baseURL: Url, next: Attempts
  ): (r: RetryRun)
    ensures |r.calls| <= mw.maxAttempts
    ensures |r.sleeps| <= |r.calls|
    ensures forall c | c in r.calls :: c == Forwarded(request, body, baseURL)
    ensures r.outcome.Responded? ==> r.outcome.response.status != TooManyRequests
  {
    Loop(mw, parseDelay, request, body, baseURL, next, 0, None)
  }

  /** The `n` attempts from `attempt` on were all 429s, and `sleeps` holds the
      delay each of them asked for, in order. */
  ghost predicate SleptFor(
    sleeps: seq<real>, parseDelay: DelayParser,
    request: HttpRequest, body: Option<HttpBody>, baseURL: Url, next: Attempts, attempt: nat, n: nat
  ) {
    && |sleeps| == n
    && forall j :: 0 <= j < n ==>
         && IsRateLimited(next(request, body, baseURL, attempt + j))
         && sleeps[j] == RetryDelay(next(request, body, baseURL, attempt + j).response, parseDelay)
  }

  lemma {:induction false} LoopStopsAtFirstNonRateLimited(
    mw: RetryMiddleware, parseDelay: DelayParser,
    request: HttpRequest, body: Option<HttpBody>, baseURL: Url, next: Attempts,
    attempt: nat, lastRetryAfter: Option<real>, k: nat
  )
    requires attempt <= k < mw.maxAttempts
    requires forall j :: attempt <= j < k ==> IsRateLimited(next(request, body, baseURL, j))
    requires !IsRateLimited(next(request, body, baseURL, k))
    ensures var r := Loop(mw, parseDelay, request, body, baseURL, next, attempt, lastRetryAfter);
      && r.outcome == next(request, body, baseURL, k)
      && |r.calls| == k - attempt + 1
      && SleptFor(r.sleeps, parseDelay, request, body, baseURL, next, attempt, k - attempt)
    decreases k - attempt
  {
    var r := Loop(mw, parseDelay, request, body, baseURL, next, attempt, lastRetryAfter);
    if attempt < k {
      var outcome := next(request, body, baseURL, attempt);
      assert IsRateLimited(outcome);
      var delay := RetryDelay(outcome.response, parseDelay);
      LoopStopsAtFirstNonRateLimited(mw, parseDelay, request, body, baseURL, next, attempt + 1, Some(delay), k);
      var rest := Loop(mw, parseDelay, request, body, baseURL, next, attempt + 1, Some(delay));
      assert r.sleeps == [delay] + rest.sleeps;
      forall j | 0 <= j < k - attempt
        ensures r.sleeps[j] == RetryDelay(next(request, body, baseURL, attempt + j).response, parseDelay)
      {
        if j > 0 {
          assert r.sleeps[j] == rest.sleeps[j - 1];
          assert attempt + j == (attempt + 1) + (j - 1);
        }
      }
    }
  }

  lemma {:induction false} LoopExhausts(
    mw: RetryMiddleware, parseDelay: DelayParser,
    request: HttpRequest, body: Option<HttpBody>, baseURL: Url, next: Attempts,
    attempt: nat, lastRetryAfter: Option<real>
  )
    requires attempt <= mw.maxAttempts
    requires forall j :: attempt <= j < mw.maxAttempts ==> IsRateLimited(next(request, body, baseURL, j))
    ensures var r := Loop(mw, parseDelay, request, body, baseURL, next, attempt, lastRetryAfter);
      && |r.calls| == mw.maxAttempts - attempt
      && SleptFor(r.sleeps, parseDelay, request, body, baseURL, next, attempt, mw.maxAttempts - attempt)
      && r.outcome == Threw(Kaiten(RateLimited(
           if attempt == mw.maxAttempts then lastRetryAfter
           else Some(r.sleeps[mw.maxAttempts - attempt - 1]))))
    decreases mw.maxAttempts - attempt
  {
    var r := Loop(mw, parseDelay, request, body, baseURL, next, attempt, lastRetryAfter);
    if attempt < mw.maxAttempts {
      var outcome := next(request, body, baseURL, attempt);
      assert IsRateLimited(outcome);
      var delay := RetryDelay(outcome.response, parseDelay);
      LoopExhausts(mw, parseDelay, request, body, baseURL, next, attempt + 1, Some(delay));
      var rest := Loop(mw, parseDelay, request, body, baseURL, next, attempt + 1, Some(delay));
      assert r.sleeps == [delay] + rest.sleeps;
      forall j | 0 <= j < mw.maxAttempts - attempt
        ensures r.sleeps[j] == RetryDelay(next(request, body, baseURL, attempt + j).response, parseDelay)
      {
        if j > 0 {
          assert r.sleeps[j] == rest.sleeps[j - 1];
          assert attempt + j == (attempt + 1) + (j - 1);
        }
      }
    }
  }

  /** A loop stops at the first attempt that is not rate limited (a response of
      another status or a thrown error): it hands that outcome back unchanged,
      after `k + 1` calls, having slept once for each earlier 429 for the delay
      that 429 asked for. */
  lemma StopsAtFirstNonRateLimited(
    mw: RetryMiddleware, parseDelay: DelayParser,
    request: HttpRequest, body: Option<HttpBody>, baseURL: Url, next: Attempts, k: nat
  )
    requires k < mw.maxAttempts
    requires forall j :: 0 <= j < k ==> IsRateLimited(next(request, body, baseURL, j))
    requires !IsRateLimited(next(request, body, baseURL, k))
    ensures var r := Intercept(mw, parseDelay, request, body, baseURL, next);
      && r.outcome == next(request, body, baseURL, k)
      && |r.calls| == k + 1
      && SleptFor(r.sleeps, parseDelay, request, body, baseURL, next, 0, k)
  {
    LoopStopsAtFirstNonRateLimited(mw, parseDelay, request, body, baseURL, next, 0, None, k);
  }

  /** When every attempt is a 429 the loop makes exactly `maxAttempts` calls,
      sleeps after each of them (the last included), and throws `rateLimited`
      carrying the last delay, or no delay when `maxAttempts` is 0. */
  lemma ExhaustsAfterMaxAttempts(
    mw: RetryMiddleware, parseDelay: DelayParser,
    request: HttpRequest, body: Option<HttpBody>, baseURL: Url, next: Attempts
  )
    requires forall j :: 0 <= j < mw.maxAttempts ==> IsRateLimited(next(request, body, baseURL, j))
    ensures var r := Intercept(mw, parseDelay, request, body, baseURL, next);
      && |r.calls| == mw.maxAttempts
      && SleptFor(r.sleeps, parseDelay, request, body, baseURL, next, 0, mw.maxAttempts)
      && r.outcome == Threw(Kaiten(RateLimited(
           if mw.maxAttempts == 0 then None
           else Some(r.sleeps[mw.maxAttempts - 1]))))
  {
    LoopExhausts(mw, parseDelay, request, body, baseURL, next, 0, None);
  }

  /** A first response that is not a 429 is returned with its body after exactly
      one call and no sleep. */
  lemma FirstResponseReturnedAsIs(
    mw: RetryMiddleware, parseDelay: DelayParser,
    request: HttpRequest, body: Option<HttpBody>, baseURL: Url, next: Attempts
  )
    requires mw.maxAttempts > 0
    requires next(request, body, baseURL, 0).Responded?
    requires next(request, body, baseURL, 0).response.status != TooManyRequests
    ensures var r := Intercept(mw, parseDelay, request, body, baseURL, next);
      && r.outcome == next(request, body, baseURL, 0)
      && r.calls == [Forwarded(request, body, baseURL)]
      && r.sleeps == []
  {
  }

  /** An error thrown by the next stage ends the loop at once, unchanged. */
  lemma ThrownErrorPropagates(
    mw: RetryMiddleware, parseDelay: DelayParser,
    request: HttpRequest, body: Option<HttpBody>, baseURL: Url, next: Attempts, k: nat
  )
    requires k < mw.maxAttempts
    requires forall j :: 0 <= j < k ==> IsRateLimited(next(request, body, baseURL, j))
    requires next(request, body, baseURL, k).Threw?
    ensures var r := Intercept(mw, parseDelay, request, body, baseURL, next);
      r.outcome == next(request, body, baseURL, k) && |r.calls| == k + 1
  {
    StopsAtFirstNonRateLimited(mw, parseDelay, request, body, baseURL, next, k);
  }

  /** With no attempts allowed nothing is called and `rateLimited(nil)` is thrown. */
  lemma ZeroAttemptsCallsNothing(
    parseDelay: DelayParser, request: HttpRequest, body: Option<HttpBody>, baseURL: Url, next: Attempts
  )
    ensures var r := Intercept(RetryMiddleware(0), parseDelay, request, body, baseURL, next);
      && r.calls == [] && r.sleeps == []
      && r.outcome == Threw(Kaiten(RateLimited(None)))
  {
  }
}
