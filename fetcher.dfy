/**
 * Credential resolution, credential validation, and the single-page cost
 * fetcher with its retry loop (fetchOrganizationCosts).
 *
 * The network is an oracle: `net(k)` is what the k-th request of one call
 * yields. `jitter(n)` is the random jitter the backoff of retry number n
 * draws, and `draw` the random values of the mock page. Waits are recorded
 * as a trace of milliseconds instead of being slept.
 */
module CostFetcher {
  import opened ApiTypes
  import opened Text
  import opened Backoff
  import opened MockData

  const KeyRequired: string := "API key is required"
  const RateLimitExceeded: string := "Rate limit exceeded after maximum retries"
  const ParseFailure: string := "Failed to fetch cost data"
  const StatusPrefix: string := "Request failed with status: "

  // ---------------------------------------------------------------------
  // Credentials
  // ---------------------------------------------------------------------

  /**
   * `apiKey?.trim() || ENV_API_KEY`: the trimmed key, or the configured
   * fallback (`envKey`, "" when none is configured) when the trimmed key is blank.
   */
  function ResolveKey(apiKey: string, envKey: string): (key: string)
    ensures key == "" <==> Trim(apiKey) == "" && envKey == ""
  {
    var trimmed := Trim(apiKey);
    if trimmed != "" then trimmed else envKey
  }

  /** What the `GET /models` request yields: a status (ok or not), or a thrown error. */
  datatype ValidationReply = Responded(ok: bool) | NetworkFailure

  /** validateApiKey: true only for a usable key whose request came back with an OK status. */
  function ValidateApiKey(apiKey: string, envKey: string, reply: ValidationReply): (valid: bool)
    ensures valid ==> ResolveKey(apiKey, envKey) != "" && reply == Responded(true)
    ensures ResolveKey(apiKey, envKey) != "" && reply == Responded(true) ==> valid
  {
    if ResolveKey(apiKey, envKey) == "" then false
    else
      match reply
      case Responded(ok) => ok
      case NetworkFailure => false
  }

  /** A blank key with no configured fallback is rejected whatever the network would say. */
  lemma BlankKeyIsRejectedOffline(apiKey: string, reply: ValidationReply)
    requires forall i :: 0 <= i < |apiKey| ==> IsSpace(apiKey[i])
    ensures !ValidateApiKey(apiKey, "", reply)
  {
  }

  // ---------------------------------------------------------------------
  // The request
  // ---------------------------------------------------------------------

  /** The query of one costs request; optional parameters are absent when not sent. */
  datatype CostsRequest = CostsRequest(
    start_time: int,
    end_time: int,
    project_ids: Option<string>,
    models: Option<string>,
    page: Option<string>)

  /** The query fetchOrganizationCosts builds: filters only when non-empty, the page token only when truthy. */
  function BuildRequest(startTime: int, endTime: int, projectIds: seq<string>, models: seq<string>,
                        pageToken: Option<string>): (r: CostsRequest)
    ensures r.start_time == startTime && r.end_time == endTime
    ensures r.project_ids.Some? <==> |projectIds| > 0
    ensures r.project_ids.Some? ==> r.project_ids.value == Join(projectIds, ",")
    ensures r.models.Some? <==> |models| > 0
    ensures r.models.Some? ==> r.models.value == Join(models, ",")
    ensures r.page.Some? <==> Truthy(pageToken)
    ensures r.page.Some? ==> r.page == pageToken
  {
    CostsRequest(
      startTime, endTime,
      if |projectIds| > 0 then Some(Join(projectIds, ",")) else None,
      if |models| > 0 then Some(Join(models, ",")) else None,
      if Truthy(pageToken) then pageToken else None)
  }

  // ---------------------------------------------------------------------
  // Responses and the retry classification
  // ---------------------------------------------------------------------

  /** The JSON body of a failed response: unparsable, or parsed with an optional `message`. */
  datatype ErrorBody = Unparsable | Json(message: Option<string>)

  /** What one request attempt yields. */
  datatype HttpResponse =
    | RateLimited(retryAfter: Option<int>)   // status 429; the retry-after header, when truthy, parsed as seconds
    | Failed(status: nat, body: ErrorBody)   // any other status outside the OK range
    | Succeeded(page: CostsResponse)         // an OK status and its parsed page
    | Rejected(message: string)              // fetch or body parsing threw an error with this message

  /** The message of the error thrown for a failed response (src line 154-155). */
  function ErrorMessage(status: nat, body: ErrorBody): (m: string)
    ensures body.Unparsable? ==> m == ParseFailure && !Retryable(m)
    ensures body.Json? && Truthy(body.message) ==> m == body.message.value
    ensures body.Json? && !Truthy(body.message) ==> m == StatusPrefix + NatToString(status) && Retryable(m)
  {
    match body
    case Unparsable =>
      ParseFailureIsFinal();
      ParseFailure
    case Json(message) =>
      if Truthy(message) then message.value
      else
        StatusMessageIsRetryable(status);
        StatusPrefix + NatToString(status)
  }

  /** The catch block's test: a rate-limit message, or anything that is not a "Failed to fetch". */
  predicate Retryable(message: string): (r: bool)
    ensures !Contains(message, "Failed to fetch") ==> r
    ensures Contains(message, "Failed to fetch") ==> (r <==> Contains(message, "Rate limit"))
  {
    Contains(message, "Rate limit") || !Contains(message, "Failed to fetch")
  }

  /** "Failed to fetch cost data" is not retried. */
  lemma ParseFailureIsFinal()
    ensures !Retryable(ParseFailure)
  {
    ContainsAt(ParseFailure, "Failed to fetch", 0);
    NotContainsFirstChar(ParseFailure, "Rate limit");
  }

  /** "Request failed with status: N" holds no 'F', so it is always retryable. */
  lemma StatusMessageIsRetryable(status: nat)
    ensures Retryable(StatusPrefix + NatToString(status))
  {
    var m := StatusPrefix + NatToString(status);
    assert 'F' !in StatusPrefix;
    assert 'F' !in m by {
      forall i | 0 <= i < |m| ensures m[i] != 'F' {
        if i >= |StatusPrefix| {
          assert m[i] == NatToString(status)[i - |StatusPrefix|];
        } else {
          assert m[i] == StatusPrefix[i];
        }
      }
    }
    NotContainsFirstChar(m, "Failed to fetch");
  }

  /** What the loop does with one response at a given retry count. */
  datatype Step =
    | Return(page: CostsResponse)   // the page is returned
    | Retry(waitMs: real)           // retries is incremented, then this many milliseconds are waited
    | GiveUp                        // the mock page is returned

  /** The catch block, entered with `retries` and the thrown message. */
  function Caught(message: string, retries: nat, jitter: nat -> Jitter): (s: Step)
    ensures s.Retry? <==> retries < MaxRetries && Retryable(message)
    ensures s.Retry? ==> s.waitMs == GetBackoffDelay(retries + 1, jitter(retries + 1))
    ensures !s.Return?
  {
    if retries < MaxRetries && Retryable(message) then
      Retry(GetBackoffDelay(retries + 1, jitter(retries + 1)))
    else GiveUp
  }

  /**
   * One iteration of the loop at `retries`. A 429 increments the counter
   * first; past the budget it throws, and the catch sees retries = 4.
   */
  function StepAt(response: HttpResponse, retries: nat, jitter: nat -> Jitter): (s: Step)
    ensures s.Retry? ==> retries < MaxRetries
    ensures s.Return? <==> response.Succeeded?
    ensures response.Succeeded? ==> s == Return(response.page)
    ensures response.RateLimited? ==> (s.Retry? <==> retries < MaxRetries)
    ensures response.RateLimited? && !s.Retry? ==> s == GiveUp
    ensures response.Failed? ==> s == Caught(ErrorMessage(response.status, response.body), retries, jitter)
    ensures response.Rejected? ==> s == Caught(response.message, retries, jitter)
  {
    match response
    case RateLimited(retryAfter) =>
      // Past the budget the thrown rate-limit error reaches the catch with
      // retries = 4, where it is not retried (see RateLimitErrorIsNotRetried).
      if retries + 1 > MaxRetries then GiveUp
      else if retryAfter.Some? then Retry((retryAfter.value * 1000) as real)
      else Retry(GetBackoffDelay(retries + 1, jitter(retries + 1)))
    case Failed(status, body) => Caught(ErrorMessage(status, body), retries, jitter)
    case Succeeded(page) => Return(page)
    case Rejected(message) => Caught(message, retries, jitter)
  }

  /** The retry count at which the loop stops: the first non-retrying step from `retries` on. */
  function FirstStop(net: nat -> HttpResponse, jitter: nat -> Jitter, retries: nat): (k: nat)
    requires retries <= MaxRetries
    ensures retries <= k <= MaxRetries
    ensures !StepAt(net(k), k, jitter).Retry?
    ensures forall i :: retries <= i < k ==> StepAt(net(i), i, jitter).Retry?
    decreases MaxRetries - retries
  {
    if StepAt(net(retries), retries, jitter).Retry? then FirstStop(net, jitter, retries + 1) else retries
  }

  /** The result of one fetchOrganizationCosts call. */
  datatype FetchOutcome =
    | Fetched(page: CostsResponse)    // the endpoint's page
    | FellBack(page: CostsResponse)   // the mock page that replaces a failure
    | Threw(message: string)          // an exception escapes to the caller

  /** A completed call: its outcome, the waits it made, and how many requests it sent. */
  datatype FetchRun = FetchRun(outcome: FetchOutcome, waits: seq<real>, attempts: nat)

  /** The waits of the first `n` iterations. */
  function WaitsBefore(net: nat -> HttpResponse, jitter: nat -> Jitter, n: nat): (waits: seq<real>)
    requires n <= MaxRetries
    requires forall i :: 0 <= i < n ==> StepAt(net(i), i, jitter).Retry?
    ensures |waits| == n
    ensures forall i :: 0 <= i < n ==> waits[i] == StepAt(net(i), i, jitter).waitMs
  {
    if n == 0 then [] else WaitsBefore(net, jitter, n - 1) + [StepAt(net(n - 1), n - 1, jitter).waitMs]
  }

  /**
   * One loop iteration: a retrying step at `retries` moves on to the next
   * count with the same stopping point and one more wait; any other step is
   * where the loop stops.
   */
  lemma StepAdvances(net: nat -> HttpResponse, jitter: nat -> Jitter, retries: nat)
    requires retries <= MaxRetries
    requires forall i :: 0 <= i < retries ==> StepAt(net(i), i, jitter).Retry?
    ensures StepAt(net(retries), retries, jitter).Retry? ==>
      && retries < MaxRetries
      && FirstStop(net, jitter, retries) == FirstStop(net, jitter, retries + 1)
      && WaitsBefore(net, jitter, retries + 1) ==
           WaitsBefore(net, jitter, retries) + [StepAt(net(retries), retries, jitter).waitMs]
    ensures !StepAt(net(retries), retries, jitter).Retry? ==> FirstStop(net, jitter, retries) == retries
  {
  }

  /** What the retry loop of fetchOrganizationCosts ends with, for a usable key. */
  function RetrySpec(startTime: int, endTime: int, net: nat -> HttpResponse, jitter: nat -> Jitter,
                     draw: nat -> CostDraw): FetchRun
  {
    var k := FirstStop(net, jitter, 0);
    var outcome := match StepAt(net(k), k, jitter)
      case Return(page) => Fetched(page)
      case _ => FellBack(MockCostPage(startTime, endTime, draw));
    FetchRun(outcome, WaitsBefore(net, jitter, k), k + 1)
  }

  /** What fetchOrganizationCosts does, as a function of its inputs and oracles. */
  function FetchSpec(apiKey: string, envKey: string, startTime: int, endTime: int,
                     net: nat -> HttpResponse, jitter: nat -> Jitter, draw: nat -> CostDraw): FetchRun
  {
    if ResolveKey(apiKey, envKey) == "" then FetchRun(Threw(KeyRequired), [], 0)
    else RetrySpec(startTime, endTime, net, jitter, draw)
  }

  // ---------------------------------------------------------------------
  // fetchOrganizationCosts
  // ---------------------------------------------------------------------

  /**
   * fetchOrganizationCosts: without a usable key it throws "API key is
   * required"; otherwise it builds the request and runs the retry loop.
   */
  method FetchOrganizationCosts(apiKey: string, envKey: string, startTime: int, endTime: int,
                                projectIds: seq<string>, models: seq<string>, pageToken: Option<string>,
                                net: nat -> HttpResponse, jitter: nat -> Jitter, draw: nat -> CostDraw)
    returns (outcome: FetchOutcome, waits: seq<real>, attempts: nat, request: Option<CostsRequest>)
    ensures FetchRun(outcome, waits, attempts) == FetchSpec(apiKey, envKey, startTime, endTime, net, jitter, draw)
    ensures request.Some? <==> ResolveKey(apiKey, envKey) != ""
    ensures request.Some? ==> request.value == BuildRequest(startTime, endTime, projectIds, models, pageToken)
  {
    var keyToUse := ResolveKey(apiKey, envKey);
    if keyToUse == "" {
      return Threw(KeyRequired), [], 0, None;
    }
    request := Some(BuildRequest(startTime, endTime, projectIds, models, pageToken));
    outcome, waits, attempts := SendWithRetries(startTime, endTime, net, jitter, draw);
  }

  /**
   * The retry loop of fetchOrganizationCosts: it sends the request, retries
   * a 429 (after the retry-after seconds, or the backoff) and a retryable
   * error (after the backoff) while the budget lasts, and otherwise falls
   * back to the mock page.
   */
  method SendWithRetries(startTime: int, endTime: int, net: nat -> HttpResponse, jitter: nat -> Jitter,
                         draw: nat -> CostDraw)
    returns (outcome: FetchOutcome, waits: seq<real>, attempts: nat)
    ensures FetchRun(outcome, waits, attempts) == RetrySpec(startTime, endTime, net, jitter, draw)
  {
    ghost var stop := FirstStop(net, jitter, 0);
    var retries: nat := 0;
    waits := [];
    while retries <= MaxRetries
      invariant retries <= stop
      invariant FirstStop(net, jitter, retries) == stop
      invariant waits == WaitsBefore(net, jitter, retries)
    {
      var response := net(retries);
      ghost var step := StepAt(response, retries, jitter);
      StepAdvances(net, jitter, retries);
      var thrown: string;
      if response.RateLimited? {
        retries := retries + 1;
        if retries > MaxRetries {
          thrown := RateLimitExceeded;
        } else {
          var waitTime := if response.retryAfter.Some? then (response.retryAfter.value * 1000) as real
                          else GetBackoffDelay(retries, jitter(retries));
          assert step == Retry(waitTime);
          waits := waits + [waitTime];
          continue;
        }
      } else if response.Failed? {
        thrown := ErrorMessage(response.status, response.body);
      } else if response.Rejected? {
        thrown := response.message;
      } else {
        return Fetched(response.page), waits, retries + 1;
      }
      // The catch block.
      if retries < MaxRetries && Retryable(thrown) {
        assert step == Retry(GetBackoffDelay(retries + 1, jitter(retries + 1)));
        retries := retries + 1;
        waits := waits + [GetBackoffDelay(retries, jitter(retries))];
      } else {
        assert step == GiveUp;
        var page := GenerateMockCostData(startTime, endTime, draw);
        attempts := if response.RateLimited? then retries else retries + 1;
        return FellBack(page), waits, attempts;
      }
    }
    // Unreachable: every iteration at retries = 3 returns.
    assert false;
  }

  // ---------------------------------------------------------------------
  // Properties
  // ---------------------------------------------------------------------

  /**
   * With a usable key a call sends between one and four requests, waits once
   * between consecutive requests (so at most three times), and never throws:
   * it returns the fetched page or the mock page. Without a key it throws
   * "API key is required" and sends nothing.
   */
  lemma FetchBounds(apiKey: string, envKey: string, startTime: int, endTime: int,
                    net: nat -> HttpResponse, jitter: nat -> Jitter, draw: nat -> CostDraw)
    ensures var run := FetchSpec(apiKey, envKey, startTime, endTime, net, jitter, draw);
      if ResolveKey(apiKey, envKey) == "" then
        run.outcome == Threw(KeyRequired) && run.attempts == 0 && run.waits == []
      else
        && 1 <= run.attempts <= MaxRetries + 1
        && |run.waits| == run.attempts - 1
        && !run.outcome.Threw?
        && (run.outcome.FellBack? ==> run.outcome.page == MockCostPage(startTime, endTime, draw))
  {
  }

  /**
   * The wait of a retrying step: a 429 with a retry-after of s seconds waits
   * s * 1000 ms; every other retry waits the backoff of retry number
   * retries + 1, which is 2^(retries+1) seconds plus jitter.
   */
  lemma RetryWait(response: HttpResponse, retries: nat, jitter: nat -> Jitter)
    requires StepAt(response, retries, jitter).Retry?
    ensures var w := StepAt(response, retries, jitter).waitMs;
      && (response.RateLimited? && response.retryAfter.Some? ==> w == (response.retryAfter.value * 1000) as real)
      && (!(response.RateLimited? && response.retryAfter.Some?) ==>
            w == GetBackoffDelay(retries + 1, jitter(retries + 1)) == ExponentialDelay(retries + 1) + jitter(retries + 1))
  {
    BackoffWithinRetryBudget(retries + 1, jitter(retries + 1));
  }

  /** The i-th wait of a call is the wait of its i-th response's retrying step. */
  lemma WaitsFollowResponses(apiKey: string, envKey: string, startTime: int, endTime: int,
                             net: nat -> HttpResponse, jitter: nat -> Jitter, draw: nat -> CostDraw, i: nat)
    requires i < |FetchSpec(apiKey, envKey, startTime, endTime, net, jitter, draw).waits|
    ensures StepAt(net(i), i, jitter).Retry?
    ensures FetchSpec(apiKey, envKey, startTime, endTime, net, jitter, draw).waits[i] ==
              StepAt(net(i), i, jitter).waitMs
  {
    var k := FirstStop(net, jitter, 0);
  }

  /** A failed response whose body does not parse reports "Failed to fetch cost data" and is never retried. */
  lemma UnparsableFailureFallsBack(status: nat, retries: nat, jitter: nat -> Jitter)
    ensures StepAt(Failed(status, Unparsable), retries, jitter) == GiveUp
  {
  }

  /**
   * A failed response whose body parses but carries no message reports
   * "Request failed with status: N", which is retried while the budget lasts.
   */
  lemma MessagelessFailureIsRetried(status: nat, retries: nat, jitter: nat -> Jitter)
    requires retries < MaxRetries
    ensures ErrorMessage(status, Json(None)) == StatusPrefix + NatToString(status)
    ensures StepAt(Failed(status, Json(None)), retries, jitter) ==
              Retry(GetBackoffDelay(retries + 1, jitter(retries + 1)))
  {
  }

  /**
   * The error thrown once the 429 budget is spent is classified retryable,
   * yet the catch block sees retries = 4 and falls back instead.
   */
  lemma RateLimitErrorIsNotRetried(jitter: nat -> Jitter)
    ensures Retryable(RateLimitExceeded)
    ensures Caught(RateLimitExceeded, MaxRetries + 1, jitter) == GiveUp
  {
    ContainsAt(RateLimitExceeded, "Rate limit", 0);
  }

  /** A 429 on the fourth request is not retried: the call falls back to the mock page. */
  lemma FourthRateLimitFallsBack(retryAfter: Option<int>, jitter: nat -> Jitter)
    ensures StepAt(RateLimited(retryAfter), MaxRetries, jitter) == GiveUp
  {
  }

  /** Three 429s without retry-after, then a page: the loop stops at retries = 3. */
  lemma ThreeRateLimitsStop(net: nat -> HttpResponse, jitter: nat -> Jitter, page: CostsResponse)
    requires net(0) == RateLimited(None) && net(1) == RateLimited(None) && net(2) == RateLimited(None)
    requires net(3) == Succeeded(page)
    ensures FirstStop(net, jitter, 0) == 3
    ensures StepAt(net(3), 3, jitter) == Return(page)
  {
    assert FirstStop(net, jitter, 3) == 3;
    assert FirstStop(net, jitter, 2) == 3;
    assert FirstStop(net, jitter, 1) == 3;
  }

  /** Three 429s without retry-after: the three waits are the backoffs of retries 1, 2 and 3. */
  lemma ThreeRateLimitsWaits(net: nat -> HttpResponse, jitter: nat -> Jitter)
    requires net(0) == RateLimited(None) && net(1) == RateLimited(None) && net(2) == RateLimited(None)
    ensures forall i :: 0 <= i < 3 ==> StepAt(net(i), i, jitter).Retry?
    ensures WaitsBefore(net, jitter, 3) ==
              [GetBackoffDelay(1, jitter(1)), GetBackoffDelay(2, jitter(2)), GetBackoffDelay(3, jitter(3))]
  {
    var w1, w2, w3 := GetBackoffDelay(1, jitter(1)), GetBackoffDelay(2, jitter(2)), GetBackoffDelay(3, jitter(3));
    assert StepAt(net(0), 0, jitter) == Retry(w1);
    assert StepAt(net(1), 1, jitter) == Retry(w2);
    assert StepAt(net(2), 2, jitter) == Retry(w3);
    assert WaitsBefore(net, jitter, 1) == [w1];
    assert WaitsBefore(net, jitter, 2) == [w1, w2];
  }

  /** Three 429s without retry-after, then a page: the page is returned after three backoff waits. */
  lemma ThreeRateLimitsThenSuccess(apiKey: string, envKey: string, startTime: int, endTime: int,
                                   page: CostsResponse, net: nat -> HttpResponse, jitter: nat -> Jitter,
                                   draw: nat -> CostDraw)
    requires ResolveKey(apiKey, envKey) != ""
    requires net(0) == RateLimited(None) && net(1) == RateLimited(None) && net(2) == RateLimited(None)
    requires net(3) == Succeeded(page)
    ensures var run := FetchSpec(apiKey, envKey, startTime, endTime, net, jitter, draw);
      && run.outcome == Fetched(page)
      && run.attempts == 4
      && run.waits == [GetBackoffDelay(1, jitter(1)), GetBackoffDelay(2, jitter(2)), GetBackoffDelay(3, jitter(3))]
  {
    ThreeRateLimitsStop(net, jitter, page);
    ThreeRateLimitsWaits(net, jitter);
  }

  /** Four 429s in a row exhaust the budget: the mock page is returned after three waits. */
  lemma FourRateLimitsFallBack(apiKey: string, envKey: string, startTime: int, endTime: int,
                               net: nat -> HttpResponse, jitter: nat -> Jitter, draw: nat -> CostDraw)
    requires ResolveKey(apiKey, envKey) != ""
    requires forall i :: 0 <= i <= MaxRetries ==> net(i).RateLimited? && net(i).retryAfter.None?
    ensures var run := FetchSpec(apiKey, envKey, startTime, endTime, net, jitter, draw);
      && run.outcome == FellBack(MockCostPage(startTime, endTime, draw))
      && run.attempts == 4
      && |run.waits| == 3
  {
    assert net(0).RateLimited? && net(1).RateLimited? && net(2).RateLimited? && net(3).RateLimited?;
    assert FirstStop(net, jitter, 3) == 3;
    assert FirstStop(net, jitter, 0) == 3;
  }
}
