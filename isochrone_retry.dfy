/**
 * `_generate_isochrone` of `isochrone.py`: one TravelTime request with a
 * bounded retry on HTTP 429. The POST is an oracle answering the request on
 * each attempt; sleeps are recorded as durations in seconds.
 */
module IsochroneRetry {

  import opened Wrappers
  import opened LocationIO
  import opened Arrival
  import opened IsochroneShape

  /** One entry of the "results" array of a time-map answer. */
  datatype SearchResult = SearchResult(shapes: seq<ShapePart>)

  /**
   * A decoded JSON answer: `null`, an object whose "results" key may be
   * absent, or any other JSON value (a list, a string, a number, a boolean).
   */
  datatype Payload = Null | Object(results: Option<seq<SearchResult>>) | NotObject

  datatype Response = Response(status: int, body: Payload)

  /** What `requests.post` does on one attempt: answer, or raise a transport error. */
  datatype PostReply = Responded(response: Response) | TransportFailed

  /** The one arrival search sent for a location. */
  datatype IsoRequest = IsoRequest(id: string, lat: real, lng: real, arrival: ArrivalTime, travelSeconds: int, travel: TravelType)

  /**
   * The exceptions that leave `_generate_isochrone` and `generate_isochrones`:
   * an `HTTPError` from `raise_for_status`, a re-raised transport error, the
   * `UnboundLocalError` of reading `r` before any response was bound, the
   * `ValueError` for missing API keys and the `AttributeError` of calling
   * `.get` on a `null` payload or on a payload that is not an object.
   */
  datatype IsoFault = HttpError(status: int) | TransportError | UnboundResponse | MissingApiKeys | NullPayload | NoGetMethod

  /** `raise_for_status` raises for 4xx and 5xx statuses. */
  predicate IsHttpError(status: int) {
    400 <= status < 600
  }

  /** Whether the reply on one attempt makes the `try` block raise. */
  predicate Fails(reply: PostReply) {
    reply.TransportFailed? || IsHttpError(reply.response.status)
  }

  const TooManyRequests: int := 429

  /** The initial `time.sleep(5)`. */
  const InitialSleep: int := 5

  /** `10 * (i + 2)`: the wait after a 429 on attempt `i`. */
  function RetryWait(i: int): int {
    10 * (i + 2)
  }

  /** The outcome, the number of POST attempts and the sleeps, in order. */
  datatype RetryRun = RetryRun(outcome: Result<Payload, IsoFault>, attempts: nat, sleeps: seq<int>)

  /**
   * The `for i in range(max_retries)` loop from attempt `i` on, with `last`
   * the response bound to `r` so far. A transport error leaves `r` as it
   * was, so after a 429 it is seen again as a 429 and retried.
   */
  function RetryLoop(post: nat -> PostReply, maxRetries: int, i: nat, last: Option<Response>, sleeps: seq<int>): (run: RetryRun)
    ensures run.attempts >= i && |run.sleeps| >= |sleeps| && run.sleeps[..|sleeps|] == sleeps
    decreases maxRetries - i
  {
    if i >= maxRetries then
      // The loop ends without `break`: `r.json()` of the last response, if any.
      match last
      case None => RetryRun(Err(UnboundResponse), i, sleeps)
      case Some(r) => RetryRun(Ok(r.body), i, sleeps)
    else
      var reply := post(i);
      var r := if reply.Responded? then Some(reply.response) else last;
      if !Fails(reply) then RetryRun(Ok(reply.response.body), i + 1, sleeps)
      else if r.None? then RetryRun(Err(UnboundResponse), i + 1, sleeps)
      else if r.value.status == TooManyRequests && i < maxRetries then
        RetryLoop(post, maxRetries, i + 1, r, sleeps + [RetryWait(i)])
      else if reply.TransportFailed? then RetryRun(Err(TransportError), i + 1, sleeps)
      else RetryRun(Err(HttpError(reply.response.status)), i + 1, sleeps)
  }

  /** `_generate_isochrone` for one request with `max_retries`. */
  function Retry(post: nat -> PostReply, maxRetries: int): RetryRun {
    RetryLoop(post, maxRetries, 0, None, [InitialSleep])
  }

  /** The loop with explicit `r`, `break` and `raise`, as written. */
  method GenerateIsochrone(post: nat -> PostReply, maxRetries: int) returns (outcome: Result<Payload, IsoFault>, attempts: nat, sleeps: seq<int>)
    ensures RetryRun(outcome, attempts, sleeps) == Retry(post, maxRetries)
  {
    sleeps := [InitialSleep];
    var r: Option<Response> := None;
    var i: nat := 0;
    attempts := 0;
    while i < maxRetries
      invariant attempts == i
      invariant Retry(post, maxRetries) == RetryLoop(post, maxRetries, i, r, sleeps)
      decreases maxRetries - i
    {
      var reply := post(i);
      attempts := attempts + 1;
      if reply.Responded? {
        r := Some(reply.response);
      }
      if !Fails(reply) {
        return Ok(reply.response.body), attempts, sleeps;
      }
      if r.None? {
        return Err(UnboundResponse), attempts, sleeps;
      }
      if r.value.status == TooManyRequests && i < maxRetries {
        sleeps := sleeps + [RetryWait(i)];
      } else if reply.TransportFailed? {
        return Err(TransportError), attempts, sleeps;
      } else {
        return Err(HttpError(reply.response.status)), attempts, sleeps;
      }
      i := i + 1;
    }
    match r
    case None => outcome := Err(UnboundResponse);
    case Some(resp) => outcome := Ok(resp.body);
  }

  /** The sleeps so far: the initial 5 s, then `10 * (k + 2)` after the 429 on attempt `k`. */
  predicate SleepLog(sleeps: seq<int>, retries: nat) {
    |sleeps| == retries + 1 && sleeps[0] == InitialSleep &&
    forall k :: 0 <= k < retries ==> sleeps[k + 1] == RetryWait(k)
  }

  /** Every attempt before `i` answered 429, or failed in transport after a 429. */
  predicate RetriedUpTo(post: nat -> PostReply, i: nat) {
    forall k :: 0 <= k < i ==> Fails(post(k)) && (post(k).Responded? ==> post(k).response.status == TooManyRequests)
  }

  lemma {:induction false} RetryLoopShape(post: nat -> PostReply, maxRetries: int, i: nat, last: Option<Response>, sleeps: seq<int>)
    requires SleepLog(sleeps, i) && RetriedUpTo(post, i)
    requires i > 0 ==> last.Some? && last.value.status == TooManyRequests
    requires i == 0 ==> last.None?
    ensures var run := RetryLoop(post, maxRetries, i, last, sleeps);
            run.attempts <= (if maxRetries < i then i else maxRetries) &&
            (run.attempts == |run.sleeps| - 1 || run.attempts == |run.sleeps|) &&
            SleepLog(run.sleeps, |run.sleeps| - 1) &&
            RetriedUpTo(post, |run.sleeps| - 1) &&
            (run.attempts == |run.sleeps| - 1 ==> run.attempts == i || run.attempts == maxRetries)
    decreases maxRetries - i
  {
    if i < maxRetries {
      var reply := post(i);
      var r := if reply.Responded? then Some(reply.response) else last;
      if Fails(reply) && r.Some? && r.value.status == TooManyRequests {
        var s' := sleeps + [RetryWait(i)];
        assert s'[..|sleeps|] == sleeps;
        RetryLoopShape(post, maxRetries, i + 1, r, s');
      }
    }
  }

  /**
   * The answer of a run that ends on an attempt of its own: a success is the
   * body of that attempt, and a raised HTTP error is not a 429.
   */
  lemma {:induction false} RetryLoopOutcome(post: nat -> PostReply, maxRetries: int, i: nat, last: Option<Response>, sleeps: seq<int>)
    requires |sleeps| == i + 1
    requires i > 0 ==> last.Some? && last.value.status == TooManyRequests
    ensures var run := RetryLoop(post, maxRetries, i, last, sleeps);
            (run.outcome.Ok? && run.attempts == |run.sleeps| ==> !Fails(post(run.attempts - 1)) && run.outcome.value == post(run.attempts - 1).response.body) &&
            (run.outcome.Err? && run.outcome.error.HttpError? ==> run.attempts == |run.sleeps| && run.outcome.error.status != TooManyRequests)
    decreases maxRetries - i
  {
    if i < maxRetries {
      var reply := post(i);
      var r := if reply.Responded? then Some(reply.response) else last;
      if Fails(reply) && r.Some? && r.value.status == TooManyRequests {
        RetryLoopOutcome(post, maxRetries, i + 1, r, sleeps + [RetryWait(i)]);
      }
    }
  }

  /**
   * At most `max_retries` POSTs; one 5 s sleep before the first and a
   * `10 * (k + 2)` s sleep after each retried attempt `k` (20 s after the
   * first); every attempt but the last was a 429; a success is the answer
   * of the last attempt; an HTTP error that was raised is not a 429 and
   * ends the run at once, without a sleep.
   */
  lemma RetryBounds(post: nat -> PostReply, maxRetries: int)
    ensures var run := Retry(post, maxRetries);
            run.attempts <= (if maxRetries < 0 then 0 else maxRetries) &&
            run.sleeps[0] == InitialSleep &&
            (forall k :: 0 <= k < |run.sleeps| - 1 ==> run.sleeps[k + 1] == RetryWait(k)) &&
            (|run.sleeps| > 1 ==> run.sleeps[1] == 20) &&
            RetriedUpTo(post, |run.sleeps| - 1) &&
            (run.attempts == |run.sleeps| || run.attempts == |run.sleeps| - 1) &&
            (run.outcome.Ok? && run.attempts == |run.sleeps| ==> !Fails(post(run.attempts - 1)) && run.outcome.value == post(run.attempts - 1).response.body) &&
            (run.outcome.Err? && run.outcome.error.HttpError? ==> run.attempts == |run.sleeps| && run.outcome.error.status != TooManyRequests)
  {
    RetryLoopShape(post, maxRetries, 0, None, [InitialSleep]);
    RetryLoopOutcome(post, maxRetries, 0, None, [InitialSleep]);
  }

  /** The sleeps after `n` retried attempts. */
  function Waits(n: nat): (w: seq<int>)
    ensures SleepLog(w, n)
  {
    [InitialSleep] + seq(n, k requires 0 <= k < n => RetryWait(k))
  }

  /** A run of 429 answers on attempts `i .. n - 1` is retried attempt after attempt. */
  lemma {:induction false} ChainOfTooManyRequests(post: nat -> PostReply, maxRetries: int, i: nat, n: nat, last: Option<Response>)
    requires i <= n <= maxRetries
    requires forall k :: i <= k < n ==> post(k).Responded? && post(k).response.status == TooManyRequests
    ensures RetryLoop(post, maxRetries, i, last, Waits(i)) ==
            RetryLoop(post, maxRetries, n, if n == i then last else Some(post(n - 1).response), Waits(n))
    decreases n - i
  {
    if i < n {
      assert Waits(i) + [RetryWait(i)] == Waits(i + 1);
      ChainOfTooManyRequests(post, maxRetries, i + 1, n, Some(post(i).response));
    }
  }

  /** The loop stops at the first success, after all earlier attempts answered 429. */
  lemma StopsAtFirstSuccess(post: nat -> PostReply, maxRetries: int, j: nat)
    requires j < maxRetries && !Fails(post(j))
    requires forall k :: 0 <= k < j ==> post(k).Responded? && post(k).response.status == TooManyRequests
    ensures Retry(post, maxRetries) == RetryRun(Ok(post(j).response.body), j + 1, Waits(j))
  {
    ChainOfTooManyRequests(post, maxRetries, 0, j, None);
  }

  /**
   * When every attempt answers 429 nothing is raised: `i < max_retries`
   * always holds inside the loop, so the last 429 answer is returned.
   */
  lemma AllTooManyRequestsReturnsLast(post: nat -> PostReply, maxRetries: nat)
    requires maxRetries > 0
    requires forall k :: 0 <= k < maxRetries ==> post(k).Responded? && post(k).response.status == TooManyRequests
    ensures Retry(post, maxRetries) == RetryRun(Ok(post(maxRetries - 1).response.body), maxRetries, Waits(maxRetries))
  {
    ChainOfTooManyRequests(post, maxRetries, 0, maxRetries, None);
  }

  /** With the default of four retries, a 429 followed by a success takes two POSTs and sleeps 5 s then 20 s. */
  lemma TooManyRequestsThenSuccess(post: nat -> PostReply)
    requires post(0).Responded? && post(0).response.status == TooManyRequests
    requires post(1).Responded? && post(1).response.status == 200
    ensures Retry(post, 4) == RetryRun(Ok(post(1).response.body), 2, [5, 20])
  {
    StopsAtFirstSuccess(post, 4, 1);
    assert Waits(1) == [5, 20];
  }

  /** A non-429 HTTP error on the first attempt is raised at once: one POST, no sleep after it. */
  lemma OtherHttpErrorRaisesAtOnce(post: nat -> PostReply, maxRetries: int)
    requires maxRetries > 0 && post(0).Responded?
    requires IsHttpError(post(0).response.status) && post(0).response.status != TooManyRequests
    ensures Retry(post, maxRetries) == RetryRun(Err(HttpError(post(0).response.status)), 1, [InitialSleep])
  {
  }

  /** Once a response is bound to `r` it stays bound. */
  lemma {:induction false} BoundStaysBound(post: nat -> PostReply, maxRetries: int, i: nat, last: Option<Response>, sleeps: seq<int>)
    requires last.Some?
    ensures RetryLoop(post, maxRetries, i, last, sleeps).outcome != Err(UnboundResponse)
    decreases maxRetries - i
  {
    if i < maxRetries {
      var reply := post(i);
      var r := if reply.Responded? then Some(reply.response) else last;
      if Fails(reply) && r.value.status == TooManyRequests {
        BoundStaysBound(post, maxRetries, i + 1, r, sleeps + [RetryWait(i)]);
      }
    }
  }

  /**
   * `r` is read unbound exactly when the loop never runs (`max_retries <= 0`)
   * or the very first POST fails in transport.
   */
  lemma UnboundExactly(post: nat -> PostReply, maxRetries: int)
    ensures Retry(post, maxRetries).outcome == Err(UnboundResponse) <==> maxRetries <= 0 || post(0).TransportFailed?
  {
    if maxRetries > 0 && post(0).Responded? {
      var reply := post(0);
      if Fails(reply) && reply.response.status == TooManyRequests {
        BoundStaysBound(post, maxRetries, 1, Some(reply.response), [InitialSleep] + [RetryWait(0)]);
      }
    }
  }
}
