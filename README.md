# Retryable API client — a Dafny model

This project models the core of `Retryable.Net`, an HTTP client base class. The class retries a request and re-authorizes when its cached bearer token is rejected. It also models the stand-alone authorization handler that obtains such a token.

- `http.dfy` (module `Http`) holds the values exchanged with the transport:
  - a response (status code and body);
  - a request (a GET, or a POST of serialized content);
  - `Option` for a reference that may be null;
  - `Completion` for a call that ends normally or throws.
- `retry.dfy` (module `Retry`) models `RetryableApiClient`.
  - The class `RetryableApiClient` keeps the fields the code changes: the cached token, the count of authorization POSTs made so far, and a trace of its effects on the outside world (authorization POSTs, requests, delays).
  - `Try` is a method with a `while` loop, proved to follow the pure function `Loop`.
  - `Loop` iterates `Iterate`, one pass of the loop body.
  - The lemmas state what the retry loop promises about `Loop`. `Reference` is an independent, token-free account of which response a call returns, and `LoopAgreesWithReference` proves the loop agrees with it.
- `authorization_handler.dfy` (module `Authorization`) models `AuthorizationHandler`. Its state is the shared client's default `Authorization` header, plus a log of the POSTs it sent.

The transport is represented by oracles:
- `authServer(n)` is how the client's n-th authorization POST ends.
- `transport(request, n)` is how the client's n-th request ends, counting over the client's whole life. Every attempt sends exactly one request. So the closure that `GetAsync` or `PostAsync` hands to `Try` maps attempt `k` of the call to request number `Sends(trace) + k`, where `Sends(trace)` is the number of requests sent before the call.
- `server(n)` is how the handler's n-th POST ends.

### Behaviour of the code that the model keeps

- The budget check is `attempt > _maxAttempts` (`RetryableApiClient.cs` line 64). So a call makes up to `maxAttempts + 1` requests, and none at all when `maxAttempts` is negative.
  - `ExhaustsAfterMaxAttemptsPlusOne` states the count.
  - `FourUnauthorizedRequestsWithoutDelay` shows four requests for `maxAttempts = 3`.
- When `Authorize` yields a null token, that null is cached and the request is still made. The call does not fail.
- `Try` takes no cancellation.
- An exception thrown by the authorization POST escapes the loop, because line 71 is outside the `try`. The model represents this as the result `AuthorizationThrew`.
- The cached token is never attached to the requests the closure sends.

## Model

| member | source | states |
|---|---|---|
| Retry.Loop | Retryable.Net/Retryable.Net/RetryableApiClient.cs:58-94 | the loop never makes more requests than the budget `maxAttempts + 1 - attempt` allows, and it gives up only once the whole budget is spent |
| Retry.RetryableApiClient.Try | Retryable.Net/Retryable.Net/RetryableApiClient.cs:58-94 | the loop leaves the result, the cached token, the authorization count and the trace exactly as `Loop` says, and it keeps the client's trace accounted for |
| Retry.RetryableApiClient.Step | Retryable.Net/Retryable.Net/RetryableApiClient.cs:62-93 | one pass either ends the call with the loop's final outcome, or advances the attempt by one with that outcome still ahead |
| Retry.RetryableApiClient.Pass | Retryable.Net/Retryable.Net/RetryableApiClient.cs:69-92 | the loop body changes the token, the authorization count and the trace as one iteration does, and reports whether it ended the loop |
| Retry.RetryableApiClient.Authorize | Retryable.Net/Retryable.Net/RetryableApiClient.cs:96-104 | one POST of the configured credentials to the configured URI; the token extractor is applied to the response; an exception propagates |
| Retry.RetryableApiClient.Delay | Retryable.Net/Retryable.Net/RetryableApiClient.cs:91-91 | a wait of the configured `exceptionRetryDelayMs` is recorded |
| Retry.RetryableApiClient.constructor | Retryable.Net/Retryable.Net/RetryableApiClient.cs:24-39 | the configuration is kept; `maxAttempts` defaults to 5 and the delay to 200 ms; no token is cached at first |
| Retry.RetryableApiClient.GetAsync | Retryable.Net/Retryable.Net/RetryableApiClient.cs:41-44 | a GET is retried by the loop. Every attempt sends the same GET, as the client's next request, and the client's request count grows by the requests the call made, so a later call does not replay an earlier one's outcomes |
| Retry.RetryableApiClient.PostAsync | Retryable.Net/Retryable.Net/RetryableApiClient.cs:46-55 | a POST of the content is retried by the loop. Every attempt sends the same POST, as the client's next request |
| Retry.Authorized | Retryable.Net/Retryable.Net/RetryableApiClient.cs:69-72 | with a token cached, nothing happens; otherwise it throws iff the authorization POST throws; when it does not throw, the attempt is unchanged and the authorization count grows by the POSTs it made |
| Retry.Attempt | Retryable.Net/Retryable.Net/RetryableApiClient.cs:74-92 | the iteration stops iff the response is not a 401, and then returns that response with the token and count unchanged; otherwise the attempt advances by one, a fault keeps the token and a 401 clears it |
| Retry.Iterate | Retryable.Net/Retryable.Net/RetryableApiClient.cs:69-92 | an iteration never gives up on the budget itself, and one that does not end the loop advances the attempt by exactly one |
| Retry.IterationAdvances | Retryable.Net/Retryable.Net/RetryableApiClient.cs:74-92 | an iteration that does not end the loop makes exactly one request and advances the attempt by one; one that ends it makes at most one request and does not give up |
| Retry.IterationCountsAuthPosts | Retryable.Net/Retryable.Net/RetryableApiClient.cs:69-72 | the authorization count of an iteration grows by exactly the number of authorization POSTs it made |
| Retry.IterationEventsAllowed | Retryable.Net/Retryable.Net/RetryableApiClient.cs:69-92 | an iteration only POSTs the configured credentials, sends requests, and waits the configured delay |
| Retry.IterationEndsWith | Retryable.Net/Retryable.Net/RetryableApiClient.cs:69-85 | an iteration that ends the loop ends with the POST that threw, or with the request whose response it returns |
| Retry.RunCountsAuthPosts | Retryable.Net/Retryable.Net/RetryableApiClient.cs:69-72 | over a whole call, the authorization count grows by exactly the number of authorization POSTs |
| Retry.RunEventsAllowed | Retryable.Net/Retryable.Net/RetryableApiClient.cs:58-104 | a whole call only POSTs the configured credentials to the configured URI, sends requests, and waits the configured delay |
| Retry.RunEndsWith | Retryable.Net/Retryable.Net/RetryableApiClient.cs:69-85 | a thrown authorization ends the call at once; a returned response is the last request's |
| Retry.AuthorizesOnlyWithoutToken | Retryable.Net/Retryable.Net/RetryableApiClient.cs:69-72 | `Authorize` is called iff no token is cached and it comes first; its result is cached even when null, and the request is still made |
| Retry.NoDelayInAuthEvents | Retryable.Net/Retryable.Net/RetryableApiClient.cs:69-72 | authorization never waits |
| Retry.UnauthorizedClearsTokenWithoutDelay | Retryable.Net/Retryable.Net/RetryableApiClient.cs:79-82 | a 401 clears the token and moves to the next attempt without any wait |
| Retry.FaultKeepsTokenAndDelaysOnce | Retryable.Net/Retryable.Net/RetryableApiClient.cs:87-92 | a thrown request moves to the next attempt after exactly one wait of the configured delay, keeping the token |
| Retry.DecisiveResponseReturnedUnchanged | Retryable.Net/Retryable.Net/RetryableApiClient.cs:83-84 | any status other than 401 is returned as it came, after one request and no wait |
| Retry.NegativeBudgetThrowsAtOnce | Retryable.Net/Retryable.Net/RetryableApiClient.cs:60-67 | with a negative `maxAttempts`, the call gives up before any POST or request and changes nothing |
| Retry.CachedTokenReused | Retryable.Net/Retryable.Net/RetryableApiClient.cs:69-85 | with a cached token, a decisive first response is returned after a single request and no authorization |
| Retry.FaultsKeepCachedToken | Retryable.Net/Retryable.Net/RetryableApiClient.cs:62-92 | while only faults come back, the cached token survives every attempt, nothing is POSTed, and the waits total the delay times the budget |
| Retry.FaultsSkipAuthorization | Retryable.Net/Retryable.Net/RetryableApiClient.cs:62-92 | while only faults come back with a token cached, the call gives up with the token and authorization count untouched and no POST |
| Retry.IterationDelay | Retryable.Net/Retryable.Net/RetryableApiClient.cs:87-92 | an iteration waits the configured delay if its request threw, and otherwise not at all |
| Retry.DelayIsFaultWaits | Retryable.Net/Retryable.Net/RetryableApiClient.cs:79-92 | the waits of a call add up to one delay per request that threw |
| Retry.DelayPerFault | Retryable.Net/Retryable.Net/RetryableApiClient.cs:79-92 | total wait = configured delay × number of requests that threw; 401s add nothing |
| Retry.Reference | Retryable.Net/Retryable.Net/RetryableApiClient.cs:58-94 | independent account of a call: the first non-401 response within the budget, or giving up after the whole budget was spent on 401s and faults |
| Retry.LoopAgreesWithReference | Retryable.Net/Retryable.Net/RetryableApiClient.cs:58-94 | when authorization never throws, the loop returns what the reference says, after the same number of requests |
| Retry.IterationDecides | Retryable.Net/Retryable.Net/RetryableApiClient.cs:77-85 | when authorization never throws, an iteration ends the loop iff its response is not a 401, and then returns that response |
| Retry.ExhaustsAfterMaxAttemptsPlusOne | Retryable.Net/Retryable.Net/RetryableApiClient.cs:60-67 | when every response is a 401 or a fault, exactly `maxAttempts + 1` requests are made (none for a negative `maxAttempts`) before giving up |
| Retry.ReturnsFirstDecisiveResponse | Retryable.Net/Retryable.Net/RetryableApiClient.cs:77-85 | the first non-401 response within the budget is returned, after exactly as many requests as its position |
| Retry.FourUnauthorizedRequestsWithoutDelay | Retryable.Net/Retryable.Net/RetryableApiClient.cs:79-82 | `maxAttempts` 3 with only 401s: four requests, no wait, then giving up |
| Retry.FaultThenSuccess | Retryable.Net/Retryable.Net/RetryableApiClient.cs:87-92 | a fault then a 200: the 200 is returned after two requests and one 50 ms wait |
| Retry.AccountedAfterRun | Retryable.Net/Retryable.Net/RetryableApiClient.cs:58-104 | a call keeps the client invariant: the authorization count equals the POSTs in the trace, and the trace holds only allowed events |
| Authorization.TokenFromResponse | Retryable.Net/Retryable.Net/AuthorizationHandler.cs:36-41 | a token is returned iff the status is a success status (200-299), and it is the response body |
| Authorization.TokenOnlyForSuccess | Retryable.Net/Retryable.Net/AuthorizationHandler.cs:36-41 | 200 and 299 give the body; 199, 300, 401 and 500 give none |
| Authorization.AuthorizationHandler.constructor | Retryable.Net/Retryable.Net/AuthorizationHandler.cs:16-22 | the URI, the credentials and the client are kept, and nothing has been POSTed yet |
| Authorization.AuthorizationHandler.Authorize | Retryable.Net/Retryable.Net/AuthorizationHandler.cs:24-43 | cancelled: null, with no POST and the header untouched; otherwise the header is cleared, one POST without it goes out, and the result is the success body or null, or the exception |

## Left out

- HTTP I/O, connection handling and `HttpClient` itself are left out. Each transport call is an oracle that returns a response or throws.
- JSON serialization is left out. The credentials are recorded as the fields they come from, and POST content is taken as already serialized.
- `async`/`await`, tasks and concurrency are left out. A call runs to completion before the next one starts, so concurrent callers sharing one client, and their races on the cached token, are not modelled.
- `Task.Delay` is recorded in the trace as a wait of the given length; wall-clock time is not modelled.
- Retry.Loop: the attempt counter is unbounded. In the code it is a 32-bit `int`, and `++attempt` (lines 81 and 90) wraps. With `maxAttempts == int.MaxValue` (2147483647), the counter wraps to `int.MinValue` after attempt 2147483647, so the check at line 64 never holds and the code never gives up. The model gives up after 2^31 requests.
- Retry.ExhaustsAfterMaxAttemptsPlusOne: for the same reason, it does not describe the code when `maxAttempts == int.MaxValue`. There the code keeps retrying 401s and faults forever.
- Retry.FaultKeepsTokenAndDelaysOnce: with `exceptionRetryDelayMs == -1` (`Timeout.Infinite`), `Task.Delay` never completes, so the first fault hangs the call. With a delay below -1, `Task.Delay` throws `ArgumentOutOfRangeException` inside the `catch`, and that exception escapes `Try`. In both cases the model records the wait and moves on to the next attempt.
- Retry.DelayPerFault: for the same negative delays, the code does not reach the total the lemma states; `Retry.IterationDelay`, `Retry.DelayIsFaultWaits`, `Retry.FaultsKeepCachedToken` and `Retry.RetryableApiClient.Try` follow the model in the same way.
- Retry.RetryableApiClient.Authorize: an exception thrown by the token extractor is not modelled; the extractor is a total function.
- `IAuthorizationHandler.cs` is not part of this model. It is an interface with no behaviour, and `RetryableApiClient` does not use it.
- Disposal of the `StringContent` objects (`using`) is not modelled.
  - In `Authorize` (lines 99-103), the POST is awaited inside the `using`, so disposal comes after the POST has completed.
  - In `PostAsync` (lines 48-54), the closure returns the POST's task without awaiting it, so the content is disposed as soon as the closure returns. This may happen before the transport has read the content.
  - The `ObjectDisposedException` that could follow would reach the `catch` of `Try` as a fault. The transport oracle may return a fault on any attempt, but the model does not tie such faults to disposal.
- The unused `_token` field of `AuthorizationHandler` (line 11) is not modelled.
- Retry.RetryableApiClient.PostAsync: the generic content `T` becomes its serialized string. Serialization is deterministic, so every attempt sends the same content.
- Retry.RetryableApiClient.GetAsync: the outcome of a request depends only on the request and on how many requests the client has sent before it. It does not depend on the token, because the code never attaches the token to the request.
