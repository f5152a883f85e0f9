/** The browser's HTTP client: which failures are worth retrying, the
    exponential backoff between attempts, the bounded attempt loop, and the
    four verb wrappers that prefix the configured base URL. */
module ApiClient {
  import opened Common

  /** A thrown JavaScript error: a plain `Error` (its `name` and `message`) or
      an `ApiError` built from a non-ok response (its `status`). */
  datatype JsError = Plain(name: string, message: string) | ApiError(message: string, status: Option<int>)

  /** What one `fetch` produced: a response (its status, its body, and the
      `message` and `error` fields of a JSON error body, absent when the body
      is not JSON or lacks them), or a rejection such as a network failure or
      the 10-second abort. */
  datatype Attempt =
    | Response(status: int, body: string, errorMessage: Option<string>, errorError: Option<string>)
    | Rejected(error: JsError)

  predicate IsOk(status: int)
  {
    200 <= status <= 299
  }

  /** Network errors, timeouts and server errors are retryable; nothing else is. */
  predicate IsRetryableError(e: JsError)
    ensures e.Plain? && e.name == "AbortError" ==> IsRetryableError(e)
    ensures e.Plain? && e.name == "TypeError" ==> (IsRetryableError(e) <==> Contains(e.message, "fetch"))
    ensures e.Plain? && e.name != "AbortError" && e.name != "TypeError" ==> !IsRetryableError(e)
    ensures e.ApiError? ==> (IsRetryableError(e) <==> e.status.Some? && e.status.value >= 500)
  {
    match e
    case Plain(name, message) => name == "AbortError" || (name == "TypeError" && Contains(message, "fetch"))
    case ApiError(_, status) => status.Some? && status.value != 0 && status.value >= 500
  }

  /** Backoff before retry number `attempt + 1`: 1 s doubling per attempt, capped at 10 s. */
  function RetryDelay(attempt: nat): (ms: int)
    ensures 1000 <= ms <= 10000
    ensures attempt <= 3 ==> ms == 1000 * Pow2(attempt)
    ensures attempt >= 4 ==> ms == 10000
  {
    if attempt >= 4 then
      Pow2Monotone(4, attempt);
      Min(1000 * Pow2(attempt), 10000)
    else
      Min(1000 * Pow2(attempt), 10000)
  }

  /** A later retry never waits less than an earlier one. */
  lemma RetryDelayMonotone(a: nat, b: nat)
    requires a <= b
    ensures RetryDelay(a) <= RetryDelay(b)
  {
    Pow2Monotone(a, b);
  }

  /** The error a non-ok response turns into: the body's `message`, else its
      `error`, else "Request failed with status N". */
  function ResponseError(a: Attempt): (e: JsError)
    requires a.Response?
    ensures e.ApiError? && e.status == Some(a.status)
    ensures PresentString(a.errorMessage) ==> e.message == a.errorMessage.value
    ensures !PresentString(a.errorMessage) && PresentString(a.errorError) ==> e.message == a.errorError.value
    ensures !PresentString(a.errorMessage) && !PresentString(a.errorError) ==>
              e.message == "Request failed with status " + IntToString(a.status)
  {
    var fallback := "Request failed with status " + IntToString(a.status);
    var message :=
      if PresentString(a.errorMessage) then a.errorMessage.value
      else if PresentString(a.errorError) then a.errorError.value
      else fallback;
    ApiError(message, Some(a.status))
  }

  /** A client error that is thrown at once: 4xx other than 429. */
  predicate IsFinalClientError(status: int)
  {
    400 <= status < 500 && status != 429
  }

  /** An attempt after which the loop goes on to another one (when attempts remain):
      a retryable rejection, or a non-ok response that is not a final client error. */
  predicate Continues(a: Attempt)
  {
    match a
    case Response(status, _, _, _) => !IsOk(status) && !IsFinalClientError(status)
    case Rejected(e) => IsRetryableError(e)
  }

  /** What the call settles to if it stops at attempt `a`. */
  function Settle(a: Attempt): (r: Result<string, JsError>)
    ensures r.Success? <==> a.Response? && IsOk(a.status)
    ensures a.Rejected? ==> r == Failure(a.error)
  {
    match a
    case Response(status, body, _, _) => if IsOk(status) then Success(body) else Failure(ResponseError(a))
    case Rejected(e) => Failure(e)
  }

  /** One pass through the loop body's `try`/`catch`: what the attempt settles
      to, and whether the loop ends here (`isLast`: this is attempt `maxRetries`). */
  method Examine(outcome: Attempt, isLast: bool) returns (stop: bool, settled: Result<string, JsError>)
    ensures settled == Settle(outcome)
    ensures stop <==> !Continues(outcome) || (isLast && outcome.Rejected?)
  {
    // what the body of the `try` throws, if anything
    var thrown: Option<JsError> := None;
    if outcome.Response? {
      if IsOk(outcome.status) {
        return true, Success(outcome.body);
      }
      var apiError := ResponseError(outcome);
      if IsFinalClientError(outcome.status) {
        thrown := Some(apiError);
      } else {
        return false, Failure(apiError);
      }
    } else {
      thrown := Some(outcome.error);
    }
    stop := isLast || !IsRetryableError(thrown.value);
    settled := Failure(thrown.value);
  }

  /** The attempt loop. `attempts[i]` is what fetch number `i` produces; the
      method returns the outcome, how many fetches it made, and the backoff
      waits it performed, in order. */
  method FetchWithRetry(attempts: seq<Attempt>, maxRetries: nat) returns (r: Result<string, JsError>, fetches: nat, waits: seq<int>)
    requires |attempts| > maxRetries
    ensures 1 <= fetches <= maxRetries + 1
    // the outcome is that of the last fetch made ...
    ensures r == Settle(attempts[fetches - 1])
    // ... every earlier fetch ended in something worth retrying ...
    ensures forall i :: 0 <= i < fetches - 1 ==> Continues(attempts[i])
    // ... and the loop stops before its budget only on success or an error it must not retry
    ensures fetches <= maxRetries ==> !Continues(attempts[fetches - 1])
    // a backoff wait separates consecutive fetches, and none follows the last
    ensures |waits| == fetches - 1
    ensures forall i :: 0 <= i < |waits| ==> waits[i] == RetryDelay(i)
  {
    var lastError: JsError := Plain("Error", "");
    var attempt := 0;
    waits := [];
    while attempt <= maxRetries
      invariant 0 <= attempt <= maxRetries + 1
      invariant forall i :: 0 <= i < attempt ==> Continues(attempts[i])
      invariant |waits| == (if attempt == maxRetries + 1 then maxRetries else attempt)
      invariant forall i :: 0 <= i < |waits| ==> waits[i] == RetryDelay(i)
      invariant attempt > 0 ==> Settle(attempts[attempt - 1]) == Failure(lastError)
      decreases maxRetries + 1 - attempt
    {
      var stop, settled := Examine(attempts[attempt], attempt == maxRetries);
      if stop {
        return settled, attempt + 1, waits;
      }
      assert Continues(attempts[attempt]) && settled.Failure?;
      assert forall i :: 0 <= i < attempt + 1 ==> Continues(attempts[i]) by {
        forall i | 0 <= i < attempt + 1
          ensures Continues(attempts[i])
        {
          if i == attempt {
            assert Continues(attempts[attempt]);
          }
        }
      }
      lastError := settled.error;
      // wait before retrying, except after the last attempt
      if attempt < maxRetries {
        ghost var before := waits;
        waits := waits + [RetryDelay(attempt)];
        assert forall i :: 0 <= i < |waits| ==> waits[i] == RetryDelay(i) by {
          forall i | 0 <= i < |waits|
            ensures waits[i] == RetryDelay(i)
          {
            if i < |before| { assert waits[i] == before[i]; }
          }
        }
      }
      attempt := attempt + 1;
    }
    assert attempt == maxRetries + 1 && |waits| == maxRetries;
    return Failure(lastError), attempt, waits;
  }

  /** A request as handed to fetch: full URL, HTTP method, and the JSON body if any. */
  datatype Request<T> = Request(url: string, verb: string, body: Option<T>)

  /** The client and its base URL (fixed at construction). */
  datatype Client = Client(baseUrl: string)
  {
    function Get<T>(endpoint: string): Request<T>
    {
      Request(baseUrl + endpoint, "GET", None)
    }

    function Post<T>(endpoint: string, data: T): Request<T>
    {
      Request(baseUrl + endpoint, "POST", Some(data))
    }

    function Delete<T>(endpoint: string): Request<T>
    {
      Request(baseUrl + endpoint, "DELETE", None)
    }

    function Patch<T>(endpoint: string, data: T): Request<T>
    {
      Request(baseUrl + endpoint, "PATCH", Some(data))
    }
  }

  /** The four verbs address the same URL, the base URL followed by the
      endpoint; only POST and PATCH carry a body, and it is the given data. */
  lemma VerbsShareAddress<T>(c: Client, endpoint: string, data: T)
    ensures c.Get<T>(endpoint).url == c.Post(endpoint, data).url == c.Delete<T>(endpoint).url == c.Patch(endpoint, data).url
    ensures StartsWith(c.Get<T>(endpoint).url, c.baseUrl) && c.Get<T>(endpoint).url[|c.baseUrl|..] == endpoint
    ensures c.Get<T>(endpoint).body.None? && c.Delete<T>(endpoint).body.None?
    ensures c.Post(endpoint, data).body == Some(data) && c.Patch(endpoint, data).body == Some(data)
    ensures c.Get<T>(endpoint).verb == "GET" && c.Post(endpoint, data).verb == "POST"
    ensures c.Delete<T>(endpoint).verb == "DELETE" && c.Patch(endpoint, data).verb == "PATCH"
  {
  }
}
