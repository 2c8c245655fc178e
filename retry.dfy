/**
 The retry and re-authorization loop of `RetryableApiClient`.

 `Try` runs a request closure until it yields a response whose status is not
 401, re-authorizing whenever no bearer token is cached, clearing the token
 on a 401 and waiting a fixed delay after a thrown fault. Its budget check is
 `attempt > maxAttempts`, so up to `maxAttempts + 1` requests are made.

 The loop is modelled twice: as the method `RetryableApiClient.Try`, which
 updates the client's fields step by step, and as the pure function `Loop`,
 which the method is proved to follow and about which the lemmas below
 speak. Effects on the outside world (authorization POSTs, requests, delays)
 are recorded in an event trace.
 */
module Retry {
  import opened Http

  const DefaultMaxRetries: int := 5
  const DefaultRetryMs: int := 200

  /** An effect on the outside world. */
  datatype Event =
    | AuthPost(uri: string, username: string, password: string)  // `Authorize` POSTs the credentials
    | Sent                                                         // one call of the request closure
    | Delayed(ms: int)                                             // one `Task.Delay`

  /** How one call of `Try` ends: with the response, by throwing
      `RetriesExceededException`, or with the exception that the
      authorization POST threw (it is not caught by the loop). */
  datatype TryResult = Returned(response: HttpResponse) | RetriesExceeded | AuthorizationThrew

  /** The client's constant configuration (lines 17-22). `authServer(n)` is
      how the n-th authorization POST of this client ends. */
  datatype Config = Config(
    maxAttempts: int,
    retryDelayMs: int,
    authenticationUri: string,
    username: string,
    password: string,
    authServer: nat -> Completion<HttpResponse>,
    tokenExtractor: HttpResponse -> Option<string>)
  {
    /** The event an authorization POST of this client is recorded as. */
    function AuthPostEvent(): Event
    {
      AuthPost(authenticationUri, username, password)
    }
  }

  /** What the loop reads at the top of an iteration: the local attempt
      counter, the cached token and the number of authorization calls made
      so far by the client. */
  datatype State = State(attempt: nat, token: Option<string>, authCalls: nat)

  /** The outcome of one loop iteration, with the events it caused. */
  datatype Iteration =
    | Continue(next: State, events: seq<Event>)
    | Stop(result: TryResult, token: Option<string>, authCalls: nat, events: seq<Event>)

  /** The outcome of a whole call of `Try`. */
  datatype Run = Run(result: TryResult, token: Option<string>, authCalls: nat, events: seq<Event>)

  /** The number of requests in a trace. */
  function Sends(events: seq<Event>): nat
  {
    multiset(events)[Sent]
  }

  /** The total time spent waiting in a trace, in milliseconds. */
  function TotalDelay(events: seq<Event>): int
  {
    if events == [] then 0
    else (if events[0].Delayed? then events[0].ms else 0) + TotalDelay(events[1..])
  }

  lemma {:induction false} TotalDelayAppend(a: seq<Event>, b: seq<Event>)
    ensures TotalDelay(a + b) == TotalDelay(a) + TotalDelay(b)
  {
    if a == [] {
      assert a + b == b;
    } else {
      assert (a + b)[1..] == a[1..] + b;
      TotalDelayAppend(a[1..], b);
    }
  }

  lemma MulAdd(d: int, a: int, b: int)
    ensures d * (a + b) == d * a + d * b
  {
  }

  /** How many requests are still allowed from attempt `attempt` on. */
  function Budget(maxAttempts: int, attempt: nat): nat
  {
    if attempt > maxAttempts then 0 else maxAttempts + 1 - attempt
  }

  /** The number of faults among the `n` request outcomes from attempt `from` on. */
  function FaultsIn(makeRequest: nat -> Completion<HttpResponse>, from: nat, n: nat): nat
    decreases n
  {
    if n == 0 then 0
    else (if makeRequest(from).Exceptional? then 1 else 0) + FaultsIn(makeRequest, from + 1, n - 1)
  }

  /** A response that ends the loop: anything but 401. */
  predicate Decisive(outcome: Completion<HttpResponse>)
  {
    outcome.Normal? && outcome.value.status != Unauthorized
  }

  /** The authorization POST never throws. */
  ghost predicate AuthNeverThrows(cfg: Config)
  {
    forall n: nat :: cfg.authServer(n).Normal?
  }

  /** Lines 69-72: when no token is cached, `Authorize` is called and its
      result is stored, even when it is null; an exception it throws escapes. */
  function Authorized(cfg: Config, s: State): (r: Completion<State>)
    ensures s.token.Some? ==> r == Normal(s)
    ensures r.Exceptional? <==> s.token.None? && cfg.authServer(s.authCalls).Exceptional?
    ensures r.Normal? ==> r.value.attempt == s.attempt && r.value.authCalls == s.authCalls + |AuthEvents(cfg, s)|
  {
    if s.token.Some? then Normal(s)
    else match cfg.authServer(s.authCalls)
      case Exceptional => Exceptional
      case Normal(response) => Normal(State(s.attempt, cfg.tokenExtractor(response), s.authCalls + 1))
  }

  /** The events of lines 69-72. */
  function AuthEvents(cfg: Config, s: State): seq<Event>
  {
    if s.token.None? then [cfg.AuthPostEvent()] else []
  }

  /** Lines 74-92: one request and the classification of its outcome. */
  function Attempt(cfg: Config, makeRequest: nat -> Completion<HttpResponse>, s: State, before: seq<Event>): (it: Iteration)
    ensures it.Stop? <==> Decisive(makeRequest(s.attempt))
    ensures it.Stop? ==> it.result == Returned(makeRequest(s.attempt).value) && it.token == s.token && it.authCalls == s.authCalls
    ensures it.Continue? ==> it.next.attempt == s.attempt + 1 && it.next.authCalls == s.authCalls
    ensures it.Continue? && makeRequest(s.attempt).Exceptional? ==> it.next.token == s.token
    ensures it.Continue? && makeRequest(s.attempt).Normal? ==> it.next.token == None
  {
    match makeRequest(s.attempt)
    case Exceptional =>
      Continue(State(s.attempt + 1, s.token, s.authCalls), before + [Sent, Delayed(cfg.retryDelayMs)])
    case Normal(response) =>
      if response.status == Unauthorized then
        Continue(State(s.attempt + 1, None, s.authCalls), before + [Sent])
      else
        Stop(Returned(response), s.token, s.authCalls, before + [Sent])
  }

  /** Lines 69-92: one iteration of the loop once the budget check passed. */
  function Iterate(cfg: Config, makeRequest: nat -> Completion<HttpResponse>, s: State): (it: Iteration)
    ensures it.Stop? ==> it.result != RetriesExceeded
    ensures it.Continue? ==> it.next.attempt == s.attempt + 1
  {
    match Authorized(cfg, s)
    case Exceptional => Stop(AuthorizationThrew, s.token, s.authCalls + 1, [cfg.AuthPostEvent()])
    case Normal(t) => Attempt(cfg, makeRequest, t, AuthEvents(cfg, s))
  }

  /** Lines 58-94: the loop from state `s` on. The budget bounds the number
      of requests, and is used up exactly when the loop gives up. */
  function Loop(cfg: Config, makeRequest: nat -> Completion<HttpResponse>, s: State): (r: Run)
    ensures Sends(r.events) <= Budget(cfg.maxAttempts, s.attempt)
    ensures r.result == RetriesExceeded ==> Sends(r.events) == Budget(cfg.maxAttempts, s.attempt)
    decreases cfg.maxAttempts + 1 - s.attempt
  {
    if s.attempt > cfg.maxAttempts then
      Run(RetriesExceeded, s.token, s.authCalls, [])
    else
      match Iterate(cfg, makeRequest, s)
      case Stop(result, token, authCalls, events) =>
        IterationAdvances(cfg, makeRequest, s);
        Run(result, token, authCalls, events)
      case Continue(next, events) =>
        IterationAdvances(cfg, makeRequest, s);
        var rest := Loop(cfg, makeRequest, next);
        Run(rest.result, rest.token, rest.authCalls, events + rest.events)
  }

  /** The authorization counter of a run counts the authorization POSTs it made. */
  lemma {:induction false} RunCountsAuthPosts(cfg: Config, makeRequest: nat -> Completion<HttpResponse>, s: State)
    ensures var r := Loop(cfg, makeRequest, s);
      r.authCalls == s.authCalls + multiset(r.events)[cfg.AuthPostEvent()]
    decreases cfg.maxAttempts + 1 - s.attempt
  {
    if s.attempt <= cfg.maxAttempts {
      IterationCountsAuthPosts(cfg, makeRequest, s);
      var it := Iterate(cfg, makeRequest, s);
      if it.Continue? {
        LoopContinues(cfg, makeRequest, s);
        RunCountsAuthPosts(cfg, makeRequest, it.next);
        CountAppend(cfg.AuthPostEvent(), it.events, Loop(cfg, makeRequest, it.next).events);
      } else {
        LoopStops(cfg, makeRequest, s);
      }
    }
  }

  /** Every POST of a run goes to the configured endpoint with the configured
      credentials, and every wait is the configured delay. */
  lemma {:induction false} RunEventsAllowed(cfg: Config, makeRequest: nat -> Completion<HttpResponse>, s: State)
    ensures forall e | e in Loop(cfg, makeRequest, s).events :: Allowed(cfg, e)
    decreases cfg.maxAttempts + 1 - s.attempt
  {
    if s.attempt <= cfg.maxAttempts {
      IterationEventsAllowed(cfg, makeRequest, s);
      var it := Iterate(cfg, makeRequest, s);
      if it.Continue? {
        LoopContinues(cfg, makeRequest, s);
        RunEventsAllowed(cfg, makeRequest, it.next);
        AllowedAppend(cfg, it.events, Loop(cfg, makeRequest, it.next).events);
      } else {
        LoopStops(cfg, makeRequest, s);
      }
    }
  }

  /** A thrown authorization ends the loop at once, and a response is
      returned right after the request that got it. */
  lemma {:induction false} RunEndsWith(cfg: Config, makeRequest: nat -> Completion<HttpResponse>, s: State)
    ensures var r := Loop(cfg, makeRequest, s);
      && (r.result == AuthorizationThrew ==> r.events != [] && r.events[|r.events| - 1] == cfg.AuthPostEvent())
      && (r.result.Returned? ==> r.events != [] && r.events[|r.events| - 1] == Sent)
    decreases cfg.maxAttempts + 1 - s.attempt
  {
    if s.attempt <= cfg.maxAttempts {
      var it := Iterate(cfg, makeRequest, s);
      if it.Continue? {
        LoopContinues(cfg, makeRequest, s);
        var rest := Loop(cfg, makeRequest, it.next);
        RunEndsWith(cfg, makeRequest, it.next);
        if rest.events != [] {
          LastAppend(it.events, rest.events);
        }
      } else {
        LoopStops(cfg, makeRequest, s);
        IterationEndsWith(cfg, makeRequest, s);
      }
    }
  }

  lemma CountAppend(e: Event, a: seq<Event>, b: seq<Event>)
    ensures multiset(a + b)[e] == multiset(a)[e] + multiset(b)[e]
  {
    assert multiset(a + b) == multiset(a) + multiset(b);
  }

  lemma AllowedAppend(cfg: Config, a: seq<Event>, b: seq<Event>)
    requires forall e | e in a :: Allowed(cfg, e)
    requires forall e | e in b :: Allowed(cfg, e)
    ensures forall e | e in a + b :: Allowed(cfg, e)
  {
    assert forall e | e in a + b :: e in a || e in b;
  }

  lemma LastAppend(a: seq<Event>, b: seq<Event>)
    requires b != []
    ensures (a + b)[|a + b| - 1] == b[|b| - 1]
  {
  }

  // ---------------------------------------------------------------------------
  // One iteration

  /** An event a run of this client can cause. */
  predicate Allowed(cfg: Config, e: Event)
  {
    e == cfg.AuthPostEvent() || e == Sent || e == Delayed(cfg.retryDelayMs)
  }

  /** Every iteration that does not end the loop makes exactly one request
      and advances the attempt counter by exactly one, which is why the loop
      terminates; an iteration that ends it makes at most one request and
      does not give up on the budget. */
  lemma IterationAdvances(cfg: Config, makeRequest: nat -> Completion<HttpResponse>, s: State)
    ensures var it := Iterate(cfg, makeRequest, s);
      && (it.Continue? ==> it.next.attempt == s.attempt + 1 && Sends(it.events) == 1)
      && (it.Stop? ==> Sends(it.events) <= 1 && it.result != RetriesExceeded)
  {
    var a := AuthEvents(cfg, s);
    assert multiset(a)[Sent] == 0;
    match Authorized(cfg, s)
    case Exceptional =>
    case Normal(t) =>
      match makeRequest(t.attempt)
      case Exceptional =>
        assert Sends(a + [Sent, Delayed(cfg.retryDelayMs)]) == 1;
      case Normal(response) =>
        assert Sends(a + [Sent]) == 1;
  }

  /** The authorization counter advances with each authorization POST of an
      iteration. */
  lemma IterationCountsAuthPosts(cfg: Config, makeRequest: nat -> Completion<HttpResponse>, s: State)
    ensures var it := Iterate(cfg, makeRequest, s);
      && (it.Continue? ==> it.next.authCalls == s.authCalls + multiset(it.events)[cfg.AuthPostEvent()])
      && (it.Stop? ==> it.authCalls == s.authCalls + multiset(it.events)[cfg.AuthPostEvent()])
  {
    var a := AuthEvents(cfg, s);
    match Authorized(cfg, s)
    case Exceptional =>
    case Normal(t) =>
      assert t.authCalls == s.authCalls + multiset(a)[cfg.AuthPostEvent()];
      match makeRequest(s.attempt)
      case Exceptional =>
        CountAppend(cfg.AuthPostEvent(), a, [Sent, Delayed(cfg.retryDelayMs)]);
      case Normal(_) =>
        CountAppend(cfg.AuthPostEvent(), a, [Sent]);
  }

  /** An iteration causes only events the client can cause. */
  lemma IterationEventsAllowed(cfg: Config, makeRequest: nat -> Completion<HttpResponse>, s: State)
    ensures forall e | e in Iterate(cfg, makeRequest, s).events :: Allowed(cfg, e)
  {
  }

  /** An iteration that ends the loop ends with the POST that threw or with
      the request whose response it returns. */
  lemma IterationEndsWith(cfg: Config, makeRequest: nat -> Completion<HttpResponse>, s: State)
    ensures var it := Iterate(cfg, makeRequest, s);
      && (it.Stop? ==> it.events != [])
      && (it.Stop? && it.result == AuthorizationThrew ==> it.events[|it.events| - 1] == cfg.AuthPostEvent())
      && (it.Stop? && it.result.Returned? ==> it.events[|it.events| - 1] == Sent)
  {
  }

  /** `Authorize` is called exactly when no token is cached; it comes before
      the request, its result is cached even when null, and the request is
      still made. */
  lemma AuthorizesOnlyWithoutToken(cfg: Config, makeRequest: nat -> Completion<HttpResponse>, s: State)
    ensures var it := Iterate(cfg, makeRequest, s);
      (cfg.AuthPostEvent() in it.events <==> s.token.None?)
    ensures s.token.Some? ==> Authorized(cfg, s) == Normal(s)
    ensures s.token.None? ==> Iterate(cfg, makeRequest, s).events[0] == cfg.AuthPostEvent()
    ensures s.token.None? && cfg.authServer(s.authCalls).Normal? ==>
      && Authorized(cfg, s).Normal?
      && Authorized(cfg, s).value.token == cfg.tokenExtractor(cfg.authServer(s.authCalls).value)
      && Sent in Iterate(cfg, makeRequest, s).events
  {
  }

  lemma NoDelayInAuthEvents(cfg: Config, s: State)
    ensures TotalDelay(AuthEvents(cfg, s)) == 0
  {
    if s.token.None? {
      assert [cfg.AuthPostEvent()][1..] == [];
    }
  }

  /** A 401 clears the token and moves on to the next attempt without waiting. */
  lemma UnauthorizedClearsTokenWithoutDelay(cfg: Config, makeRequest: nat -> Completion<HttpResponse>, s: State)
    requires makeRequest(s.attempt).Normal? && makeRequest(s.attempt).value.status == Unauthorized
    requires Authorized(cfg, s).Normal?
    ensures var it := Iterate(cfg, makeRequest, s);
      && it.Continue?
      && it.next.attempt == s.attempt + 1
      && it.next.token == None
      && TotalDelay(it.events) == 0
      && (forall e | e in it.events :: !e.Delayed?)
  {
    var it := Iterate(cfg, makeRequest, s);
    assert it.events == AuthEvents(cfg, s) + [Sent];
    TotalDelayAppend(AuthEvents(cfg, s), [Sent]);
  }

  /** A thrown fault moves on to the next attempt after exactly one wait of
      the configured delay, keeping the token the request was made with. */
  lemma FaultKeepsTokenAndDelaysOnce(cfg: Config, makeRequest: nat -> Completion<HttpResponse>, s: State)
    requires makeRequest(s.attempt).Exceptional?
    requires Authorized(cfg, s).Normal?
    ensures var it := Iterate(cfg, makeRequest, s);
      && it.Continue?
      && it.next.attempt == s.attempt + 1
      && it.next.token == Authorized(cfg, s).value.token
      && (s.token.Some? ==> it.next.token == s.token)
      && TotalDelay(it.events) == cfg.retryDelayMs
      && multiset(it.events)[Delayed(cfg.retryDelayMs)] == 1
  {
    var it := Iterate(cfg, makeRequest, s);
    assert it.events == AuthEvents(cfg, s) + [Sent, Delayed(cfg.retryDelayMs)];
    TotalDelayAppend(AuthEvents(cfg, s), [Sent, Delayed(cfg.retryDelayMs)]);
    NoDelayInAuthEvents(cfg, s);
    assert [Sent, Delayed(cfg.retryDelayMs)][1..] == [Delayed(cfg.retryDelayMs)];
    assert [Delayed(cfg.retryDelayMs)][1..] == [];
  }

  /** Any status but 401, 4xx and 5xx included, is returned as it came. */
  lemma DecisiveResponseReturnedUnchanged(cfg: Config, makeRequest: nat -> Completion<HttpResponse>, s: State)
    requires s.attempt <= cfg.maxAttempts
    requires Decisive(makeRequest(s.attempt))
    requires Authorized(cfg, s).Normal?
    ensures var run := Loop(cfg, makeRequest, s);
      && run.result == Returned(makeRequest(s.attempt).value)
      && run.token == Authorized(cfg, s).value.token
      && Sends(run.events) == 1
      && TotalDelay(run.events) == 0
  {
    var run := Loop(cfg, makeRequest, s);
    assert run.events == AuthEvents(cfg, s) + [Sent];
    TotalDelayAppend(AuthEvents(cfg, s), [Sent]);
  }

  // ---------------------------------------------------------------------------
  // Whole calls

  /** A negative `maxAttempts` throws before any authorization or request. */
  lemma NegativeBudgetThrowsAtOnce(cfg: Config, makeRequest: nat -> Completion<HttpResponse>, token: Option<string>, authCalls: nat)
    requires cfg.maxAttempts < 0
    ensures Loop(cfg, makeRequest, State(0, token, authCalls)) == Run(RetriesExceeded, token, authCalls, [])
  {
  }

  /** A cached token is reused: a call whose first response is not 401 makes
      no authorization call and leaves the token as it was. */
  lemma CachedTokenReused(cfg: Config, makeRequest: nat -> Completion<HttpResponse>, token: string, authCalls: nat)
    requires cfg.maxAttempts >= 0
    requires Decisive(makeRequest(0))
    ensures var run := Loop(cfg, makeRequest, State(0, Some(token), authCalls));
      && run == Run(Returned(makeRequest(0).value), Some(token), authCalls, [Sent])
      && cfg.AuthPostEvent() !in run.events
  {
  }

  /** While only faults come back, a cached token is kept through every
      attempt: no authorization call is made, and the call gives up after
      the whole budget with one delay per attempt. */
  lemma FaultsKeepCachedToken(cfg: Config, makeRequest: nat -> Completion<HttpResponse>, s: State)
    requires s.token.Some?
    requires forall k: nat :: s.attempt <= k <= cfg.maxAttempts ==> makeRequest(k).Exceptional?
    ensures var run := Loop(cfg, makeRequest, s);
      && run.result == RetriesExceeded
      && run.token == s.token
      && run.authCalls == s.authCalls
      && cfg.AuthPostEvent() !in run.events
      && TotalDelay(run.events) == cfg.retryDelayMs * Budget(cfg.maxAttempts, s.attempt)
  {
    FaultsSkipAuthorization(cfg, makeRequest, s);
    DelayPerFault(cfg, makeRequest, s);
    AllFaults(makeRequest, s.attempt, Budget(cfg.maxAttempts, s.attempt));
  }

  /** The part of `FaultsKeepCachedToken` that is proved by induction. */
  lemma {:induction false} FaultsSkipAuthorization(cfg: Config, makeRequest: nat -> Completion<HttpResponse>, s: State)
    requires s.token.Some?
    requires forall k: nat :: s.attempt <= k <= cfg.maxAttempts ==> makeRequest(k).Exceptional?
    ensures var run := Loop(cfg, makeRequest, s);
      && run.result == RetriesExceeded
      && run.token == s.token
      && run.authCalls == s.authCalls
      && cfg.AuthPostEvent() !in run.events
    decreases cfg.maxAttempts + 1 - s.attempt
  {
    if s.attempt <= cfg.maxAttempts {
      var step := [Sent, Delayed(cfg.retryDelayMs)];
      var next := State(s.attempt + 1, s.token, s.authCalls);
      assert Iterate(cfg, makeRequest, s) == Continue(next, step);
      LoopContinues(cfg, makeRequest, s);
      FaultsSkipAuthorization(cfg, makeRequest, next);
    }
  }

  /** `n` outcomes that all threw are `n` faults. */
  lemma {:induction false} AllFaults(makeRequest: nat -> Completion<HttpResponse>, from: nat, n: nat)
    requires forall k: nat :: from <= k < from + n ==> makeRequest(k).Exceptional?
    ensures FaultsIn(makeRequest, from, n) == n
    decreases n
  {
    if n > 0 {
      AllFaults(makeRequest, from + 1, n - 1);
    }
  }

  /** The waits that faults among the `n` request outcomes from attempt
      `from` on call for, at `delayMs` each. */
  function FaultWaits(makeRequest: nat -> Completion<HttpResponse>, from: nat, n: nat, delayMs: int): int
    decreases n
  {
    if n == 0 then 0
    else (if makeRequest(from).Exceptional? then delayMs else 0) + FaultWaits(makeRequest, from + 1, n - 1, delayMs)
  }

  lemma {:induction false} FaultWaitsIsProduct(makeRequest: nat -> Completion<HttpResponse>, from: nat, n: nat, delayMs: int)
    ensures FaultWaits(makeRequest, from, n, delayMs) == delayMs * FaultsIn(makeRequest, from, n)
    decreases n
  {
    if n > 0 {
      FaultWaitsIsProduct(makeRequest, from + 1, n - 1, delayMs);
      MulAdd(delayMs, if makeRequest(from).Exceptional? then 1 else 0, FaultsIn(makeRequest, from + 1, n - 1));
    }
  }

  /** The delay of one iteration: one configured wait if its request threw,
      none otherwise. */
  lemma IterationDelay(cfg: Config, makeRequest: nat -> Completion<HttpResponse>, s: State)
    ensures var it := Iterate(cfg, makeRequest, s);
      TotalDelay(it.events) == FaultWaits(makeRequest, s.attempt, Sends(it.events), cfg.retryDelayMs)
  {
    var it := Iterate(cfg, makeRequest, s);
    match Authorized(cfg, s)
    case Exceptional =>
      assert it.events == [cfg.AuthPostEvent()];
      assert TotalDelay(it.events) == 0 by {
        assert it.events[1..] == [];
      }
      assert Sends(it.events) == 0;
    case Normal(t) =>
      assert it == Attempt(cfg, makeRequest, t, AuthEvents(cfg, s));
      NoDelayInAuthEvents(cfg, s);
      assert multiset(AuthEvents(cfg, s))[Sent] == 0;
      AttemptDelay(cfg, makeRequest, t, AuthEvents(cfg, s));
  }

  /** The delay of a request and its outcome, after waitless events `before`. */
  lemma AttemptDelay(cfg: Config, makeRequest: nat -> Completion<HttpResponse>, t: State, before: seq<Event>)
    requires TotalDelay(before) == 0 && multiset(before)[Sent] == 0
    ensures var it := Attempt(cfg, makeRequest, t, before);
      TotalDelay(it.events) == FaultWaits(makeRequest, t.attempt, Sends(it.events), cfg.retryDelayMs)
  {
    var it := Attempt(cfg, makeRequest, t, before);
    var d := cfg.retryDelayMs;
    match makeRequest(t.attempt)
    case Exceptional =>
      var step := [Sent, Delayed(d)];
      assert it.events == before + step;
      assert TotalDelay(step) == d by {
        assert step[1..] == [Delayed(d)];
        assert step[1..][1..] == [];
      }
      TotalDelayAppend(before, step);
      assert Sends(it.events) == 1;
      assert FaultWaits(makeRequest, t.attempt, 1, d) == d;
    case Normal(response) =>
      assert it.events == before + [Sent];
      assert TotalDelay([Sent]) == 0 by {
        assert [Sent][1..] == [];
      }
      TotalDelayAppend(before, [Sent]);
      assert Sends(it.events) == 1;
      assert FaultWaits(makeRequest, t.attempt, 1, d) == 0;
  }

  /** Unfolds the loop once, for an iteration that does not end it. */
  lemma LoopContinues(cfg: Config, makeRequest: nat -> Completion<HttpResponse>, s: State)
    requires s.attempt <= cfg.maxAttempts
    requires Iterate(cfg, makeRequest, s).Continue?
    ensures var it := Iterate(cfg, makeRequest, s);
      var rest := Loop(cfg, makeRequest, it.next);
      && it.next.attempt == s.attempt + 1
      && Loop(cfg, makeRequest, s) == Run(rest.result, rest.token, rest.authCalls, it.events + rest.events)
  {
    IterationAdvances(cfg, makeRequest, s);
  }

  /** Unfolds the loop once, for an iteration that ends it. */
  lemma LoopStops(cfg: Config, makeRequest: nat -> Completion<HttpResponse>, s: State)
    requires s.attempt <= cfg.maxAttempts
    requires Iterate(cfg, makeRequest, s).Stop?
    ensures var it := Iterate(cfg, makeRequest, s);
      Loop(cfg, makeRequest, s) == Run(it.result, it.token, it.authCalls, it.events)
  {
  }

  /** The loop's outcome from state `s`, with the events `before` already
      recorded, is `run` with the events `total` recorded in all. */
  ghost predicate Heading(cfg: Config, makeRequest: nat -> Completion<HttpResponse>, s: State,
                          before: seq<Event>, run: Run, total: seq<Event>)
  {
    var rest := Loop(cfg, makeRequest, s);
    && rest.result == run.result
    && rest.token == run.token
    && rest.authCalls == run.authCalls
    && before + rest.events == total
  }

  /** Moving on from one iteration to the next leaves the outcome of the
      loop as it was. */
  lemma Resume(cfg: Config, makeRequest: nat -> Completion<HttpResponse>, s: State, next: State,
               before: seq<Event>, after: seq<Event>, run: Run, total: seq<Event>)
    requires s.attempt <= cfg.maxAttempts
    requires Iterate(cfg, makeRequest, s).Continue? && Iterate(cfg, makeRequest, s).next == next
    requires after == before + Iterate(cfg, makeRequest, s).events
    requires Heading(cfg, makeRequest, s, before, run, total)
    ensures next.attempt == s.attempt + 1
    ensures Heading(cfg, makeRequest, next, after, run, total)
  {
    LoopContinues(cfg, makeRequest, s);
    AppendAssociates(before, Iterate(cfg, makeRequest, s).events, Loop(cfg, makeRequest, next).events);
  }

  /** The loop ends with the iteration that ends it. */
  lemma Finish(cfg: Config, makeRequest: nat -> Completion<HttpResponse>, s: State,
               before: seq<Event>, run: Run, total: seq<Event>)
    requires s.attempt <= cfg.maxAttempts
    requires Iterate(cfg, makeRequest, s).Stop?
    requires Heading(cfg, makeRequest, s, before, run, total)
    ensures var it := Iterate(cfg, makeRequest, s);
      && it.result == run.result
      && it.token == run.token
      && it.authCalls == run.authCalls
      && before + it.events == total
  {
  }

  /** The loop gives up once the budget is spent. */
  lemma GiveUp(cfg: Config, makeRequest: nat -> Completion<HttpResponse>, s: State,
               before: seq<Event>, run: Run, total: seq<Event>)
    requires s.attempt > cfg.maxAttempts
    requires Heading(cfg, makeRequest, s, before, run, total)
    ensures run.result == RetriesExceeded && run.token == s.token && run.authCalls == s.authCalls
    ensures before == total
  {
    assert before + [] == before;
  }

  lemma AppendAssociates(a: seq<Event>, b: seq<Event>, c: seq<Event>)
    ensures (a + b) + c == a + (b + c)
  {
  }

  lemma {:induction false} DelayIsFaultWaits(cfg: Config, makeRequest: nat -> Completion<HttpResponse>, s: State)
    ensures var run := Loop(cfg, makeRequest, s);
      TotalDelay(run.events) == FaultWaits(makeRequest, s.attempt, Sends(run.events), cfg.retryDelayMs)
    decreases cfg.maxAttempts + 1 - s.attempt
  {
    if s.attempt <= cfg.maxAttempts {
      var it := Iterate(cfg, makeRequest, s);
      if it.Continue? {
        IterationAdvances(cfg, makeRequest, s);
        DelayIsFaultWaits(cfg, makeRequest, it.next);
        DelayStep(cfg, makeRequest, s);
      } else {
        IterationDelay(cfg, makeRequest, s);
        LoopStops(cfg, makeRequest, s);
      }
    }
  }

  /** The inductive step of `DelayIsFaultWaits`. */
  lemma DelayStep(cfg: Config, makeRequest: nat -> Completion<HttpResponse>, s: State)
    requires s.attempt <= cfg.maxAttempts
    requires Iterate(cfg, makeRequest, s).Continue?
    requires var rest := Loop(cfg, makeRequest, Iterate(cfg, makeRequest, s).next);
      TotalDelay(rest.events) == FaultWaits(makeRequest, s.attempt + 1, Sends(rest.events), cfg.retryDelayMs)
    ensures var run := Loop(cfg, makeRequest, s);
      TotalDelay(run.events) == FaultWaits(makeRequest, s.attempt, Sends(run.events), cfg.retryDelayMs)
  {
    var it := Iterate(cfg, makeRequest, s);
    IterationDelay(cfg, makeRequest, s);
    IterationAdvances(cfg, makeRequest, s);
    DelayCombine(makeRequest, s.attempt, cfg.retryDelayMs, it.events, Loop(cfg, makeRequest, it.next).events);
  }

  /** Waits add up across one request's events and those after it. */
  lemma DelayCombine(makeRequest: nat -> Completion<HttpResponse>, from: nat, delayMs: int,
                     first: seq<Event>, rest: seq<Event>)
    requires Sends(first) == 1
    requires TotalDelay(first) == FaultWaits(makeRequest, from, 1, delayMs)
    requires TotalDelay(rest) == FaultWaits(makeRequest, from + 1, Sends(rest), delayMs)
    ensures TotalDelay(first + rest) == FaultWaits(makeRequest, from, Sends(first + rest), delayMs)
  {
    assert multiset(first + rest) == multiset(first) + multiset(rest);
    TotalDelayAppend(first, rest);
  }

  /** The total delay of a call is the configured delay times the number of
      requests that threw; a 401 adds no delay. */
  lemma DelayPerFault(cfg: Config, makeRequest: nat -> Completion<HttpResponse>, s: State)
    ensures var run := Loop(cfg, makeRequest, s);
      TotalDelay(run.events) == cfg.retryDelayMs * FaultsIn(makeRequest, s.attempt, Sends(run.events))
  {
    var run := Loop(cfg, makeRequest, s);
    DelayIsFaultWaits(cfg, makeRequest, s);
    FaultWaitsIsProduct(makeRequest, s.attempt, Sends(run.events), cfg.retryDelayMs);
  }

  // ---------------------------------------------------------------------------
  // An independent account of which response a call returns

  /** What a call of `Try` comes to when authorization never throws: the
      first response that is not a 401 within the budget, or giving up once
      the budget is spent; `sends` is the number of requests made. Tokens
      play no part in it. */
  datatype Summary = Summary(result: TryResult, sends: nat)

  function Reference(makeRequest: nat -> Completion<HttpResponse>, maxAttempts: int, attempt: nat): (r: Summary)
    ensures r.result != AuthorizationThrew
    ensures r.sends <= Budget(maxAttempts, attempt)
    // a returned response is the first one within the budget that is not a 401
    ensures r.result.Returned? ==>
      && 1 <= r.sends
      && attempt + r.sends - 1 <= maxAttempts
      && makeRequest(attempt + r.sends - 1) == Normal(r.result.response)
      && Decisive(makeRequest(attempt + r.sends - 1))
      && forall j: nat :: attempt <= j < attempt + r.sends - 1 ==> !Decisive(makeRequest(j))
    // giving up means the whole budget was spent on 401s and faults
    ensures r.result == RetriesExceeded ==>
      && r.sends == Budget(maxAttempts, attempt)
      && forall j: nat :: attempt <= j <= maxAttempts ==> !Decisive(makeRequest(j))
    decreases maxAttempts + 1 - attempt
  {
    if attempt > maxAttempts then Summary(RetriesExceeded, 0)
    else if Decisive(makeRequest(attempt)) then Summary(Returned(makeRequest(attempt).value), 1)
    else
      var rest := Reference(makeRequest, maxAttempts, attempt + 1);
      Summary(rest.result, rest.sends + 1)
  }

  /** With an authorization POST that never throws, the loop returns what the
      reference says after as many requests. */
  lemma {:induction false} LoopAgreesWithReference(cfg: Config, makeRequest: nat -> Completion<HttpResponse>, s: State)
    requires AuthNeverThrows(cfg)
    ensures var run := Loop(cfg, makeRequest, s);
      && run.result == Reference(makeRequest, cfg.maxAttempts, s.attempt).result
      && Sends(run.events) == Reference(makeRequest, cfg.maxAttempts, s.attempt).sends
    decreases cfg.maxAttempts + 1 - s.attempt
  {
    if s.attempt <= cfg.maxAttempts {
      var it := Iterate(cfg, makeRequest, s);
      IterationAdvances(cfg, makeRequest, s);
      IterationDecides(cfg, makeRequest, s);
      ReferenceStep(makeRequest, cfg.maxAttempts, s.attempt);
      if it.Continue? {
        LoopContinues(cfg, makeRequest, s);
        LoopAgreesWithReference(cfg, makeRequest, it.next);
        CountAppend(Sent, it.events, Loop(cfg, makeRequest, it.next).events);
      } else {
        LoopStops(cfg, makeRequest, s);
      }
    }
  }

  /** When authorization does not throw, an iteration ends the loop exactly
      when its response is decisive, and then returns that response. */
  lemma IterationDecides(cfg: Config, makeRequest: nat -> Completion<HttpResponse>, s: State)
    requires AuthNeverThrows(cfg)
    ensures var it := Iterate(cfg, makeRequest, s);
      && (it.Stop? <==> Decisive(makeRequest(s.attempt)))
      && (it.Stop? ==> it.result == Returned(makeRequest(s.attempt).value))
  {
    assert cfg.authServer(s.authCalls).Normal?;
  }

  /** One step of the reference. */
  lemma ReferenceStep(makeRequest: nat -> Completion<HttpResponse>, maxAttempts: int, attempt: nat)
    requires attempt <= maxAttempts
    ensures var r := Reference(makeRequest, maxAttempts, attempt);
      var rest := Reference(makeRequest, maxAttempts, attempt + 1);
      && (Decisive(makeRequest(attempt)) ==> r == Summary(Returned(makeRequest(attempt).value), 1))
      && (!Decisive(makeRequest(attempt)) ==> r == Summary(rest.result, rest.sends + 1))
  {
  }

  /** When every request within the budget gets a 401 or throws, the request
      closure is called exactly `maxAttempts + 1` times (none when
      `maxAttempts` is negative) and `RetriesExceededException` is thrown. */
  lemma ExhaustsAfterMaxAttemptsPlusOne(cfg: Config, makeRequest: nat -> Completion<HttpResponse>, token: Option<string>, authCalls: nat)
    requires AuthNeverThrows(cfg)
    requires forall k: nat :: k <= cfg.maxAttempts ==> !Decisive(makeRequest(k))
    ensures var run := Loop(cfg, makeRequest, State(0, token, authCalls));
      && run.result == RetriesExceeded
      && Sends(run.events) == if cfg.maxAttempts < 0 then 0 else cfg.maxAttempts + 1
  {
    LoopAgreesWithReference(cfg, makeRequest, State(0, token, authCalls));
  }

  /** The first response within the budget that is not a 401 is returned as
      it came, after exactly as many requests as its position, and no
      further request is made. */
  lemma ReturnsFirstDecisiveResponse(cfg: Config, makeRequest: nat -> Completion<HttpResponse>, token: Option<string>, authCalls: nat, k: nat)
    requires AuthNeverThrows(cfg)
    requires k <= cfg.maxAttempts
    requires Decisive(makeRequest(k))
    requires forall j: nat :: j < k ==> !Decisive(makeRequest(j))
    ensures var run := Loop(cfg, makeRequest, State(0, token, authCalls));
      && run.result == Returned(makeRequest(k).value)
      && Sends(run.events) == k + 1
  {
    LoopAgreesWithReference(cfg, makeRequest, State(0, token, authCalls));
    var ref := Reference(makeRequest, cfg.maxAttempts, 0);
    assert ref.result.Returned? by {
      assert Decisive(makeRequest(k));
    }
    var p := ref.sends - 1;
    assert p == k by {
      assert Decisive(makeRequest(p));
      assert k < p ==> !Decisive(makeRequest(k));
    }
  }

  // ---------------------------------------------------------------------------
  // Two runs of the loop as the code has it

  /** Every response a 401 and `maxAttempts` 3: the call gives up after four
      requests without ever waiting. */
  lemma {:induction false} FourUnauthorizedRequestsWithoutDelay(cfg: Config, makeRequest: nat -> Completion<HttpResponse>, token: Option<string>, authCalls: nat)
    requires AuthNeverThrows(cfg)
    requires cfg.maxAttempts == 3 && cfg.retryDelayMs == 50
    requires forall k: nat :: makeRequest(k).Normal? && makeRequest(k).value.status == Unauthorized
    ensures var run := Loop(cfg, makeRequest, State(0, token, authCalls));
      && run.result == RetriesExceeded
      && Sends(run.events) == 4
      && TotalDelay(run.events) == 0
  {
    var s := State(0, token, authCalls);
    ExhaustsAfterMaxAttemptsPlusOne(cfg, makeRequest, token, authCalls);
    DelayPerFault(cfg, makeRequest, s);
    assert FaultsIn(makeRequest, 3, 1) == 0;
    assert FaultsIn(makeRequest, 2, 2) == 0;
    assert FaultsIn(makeRequest, 1, 3) == 0;
    assert FaultsIn(makeRequest, 0, 4) == 0;
  }

  /** A fault then a 200: the response is returned after two requests and
      one wait of the configured delay. */
  lemma FaultThenSuccess(cfg: Config, makeRequest: nat -> Completion<HttpResponse>, token: Option<string>, authCalls: nat)
    requires AuthNeverThrows(cfg)
    requires cfg.maxAttempts == 3 && cfg.retryDelayMs == 50
    requires makeRequest(0).Exceptional?
    requires makeRequest(1).Normal? && makeRequest(1).value.status == 200
    ensures var run := Loop(cfg, makeRequest, State(0, token, authCalls));
      && run.result == Returned(makeRequest(1).value)
      && Sends(run.events) == 2
      && TotalDelay(run.events) == 50
  {
    var s := State(0, token, authCalls);
    ReturnsFirstDecisiveResponse(cfg, makeRequest, token, authCalls, 1);
    DelayPerFault(cfg, makeRequest, s);
    assert FaultsIn(makeRequest, 0, 2) == 1;
  }

  /** The trace of a client holds only events it can cause, and its
      authorization counter counts the authorization POSTs in it. */
  ghost predicate Accounted(cfg: Config, authCalls: nat, trace: seq<Event>)
  {
    && authCalls == multiset(trace)[cfg.AuthPostEvent()]
    && AllAllowed(cfg, trace)
  }

  ghost predicate AllAllowed(cfg: Config, trace: seq<Event>)
  {
    if trace == [] then true else Allowed(cfg, trace[0]) && AllAllowed(cfg, trace[1..])
  }

  lemma {:induction false} AllAllowedMeans(cfg: Config, trace: seq<Event>)
    ensures AllAllowed(cfg, trace) <==> forall e | e in trace :: Allowed(cfg, e)
  {
    if trace != [] {
      AllAllowedMeans(cfg, trace[1..]);
      assert forall e | e in trace :: e == trace[0] || e in trace[1..];
    }
  }

  /** A run of the loop keeps a client's trace accounted for. */
  lemma AccountedAfterRun(cfg: Config, authCalls: nat, trace: seq<Event>, run: Run, s: State,
                          makeRequest: nat -> Completion<HttpResponse>)
    requires run == Loop(cfg, makeRequest, s)
    requires s.authCalls == authCalls
    ensures Accounted(cfg, authCalls, trace) ==> Accounted(cfg, run.authCalls, trace + run.events)
  {
    RunCountsAuthPosts(cfg, makeRequest, s);
    RunEventsAllowed(cfg, makeRequest, s);
    assert multiset(trace + run.events) == multiset(trace) + multiset(run.events);
    assert forall e | e in trace + run.events :: e in trace || e in run.events;
    AllAllowedMeans(cfg, trace);
    AllAllowedMeans(cfg, trace + run.events);
  }

  // ---------------------------------------------------------------------------
  // The client

  /** The request closure of lines 43 and 48-54, for a call begun after the
      client had sent `first` requests: attempt `k` of the call is the
      client's request number `first + k`, because every attempt sends
      exactly one request. */
  function Attempts(transport: (Request, nat) -> Completion<HttpResponse>, request: Request, first: nat): nat -> Completion<HttpResponse>
  {
    (k: nat) => transport(request, first + k)
  }

  /** The retrying client. The transport is represented by what it returns:
      `authServer(n)` is how the client's n-th authorization POST ends, and
      `transport(request, n)` how its n-th request, counted over the
      client's whole life, ends when that request is `request`. The trace
      records what the client did to the outside world, so the requests
      sent so far are `Sends(trace)`. */
  class RetryableApiClient {
    const authenticationUri: string
    const username: string
    const password: string
    const tokenExtractor: HttpResponse -> Option<string>
    const authServer: nat -> Completion<HttpResponse>
    const transport: (Request, nat) -> Completion<HttpResponse>
    const maxAttempts: int
    const exceptionRetryDelayMs: int

    var token: Option<string>
    var authCalls: nat
    var trace: seq<Event>

    /** The configuration the loop runs under. */
    function Settings(): Config
    {
      Config(maxAttempts, exceptionRetryDelayMs, authenticationUri, username, password, authServer, tokenExtractor)
    }

    /** Every event in the trace is one this client can cause, and
        `authCalls` counts the authorization POSTs in it. This is an
        invariant of the trace that every method keeps; no other contract
        depends on it. */
    ghost predicate Valid()
      reads this
    {
      Accounted(Settings(), authCalls, trace)
    }

    /** Lines 24-39: no token is cached at first. */
    constructor (authenticationUri: string, username: string, password: string,
                 tokenExtractor: HttpResponse -> Option<string>,
                 authServer: nat -> Completion<HttpResponse>,
                 transport: (Request, nat) -> Completion<HttpResponse>,
                 maxAttempts: int := DefaultMaxRetries,
                 exceptionRetryDelayMs: int := DefaultRetryMs)
      ensures Valid()
      ensures this.authenticationUri == authenticationUri && this.username == username && this.password == password
      ensures this.tokenExtractor == tokenExtractor && this.authServer == authServer && this.transport == transport
      ensures this.maxAttempts == maxAttempts && this.exceptionRetryDelayMs == exceptionRetryDelayMs
      ensures token == None && authCalls == 0 && trace == []
    {
      this.authenticationUri := authenticationUri;
      this.username := username;
      this.password := password;
      this.tokenExtractor := tokenExtractor;
      this.authServer := authServer;
      this.transport := transport;
      this.maxAttempts := maxAttempts;
      this.exceptionRetryDelayMs := exceptionRetryDelayMs;
      token := None;
      authCalls := 0;
      trace := [];
    }

    /** Lines 96-104: POST the credentials to the authentication URI and
        hand the response to the token extractor; an exception the POST
        throws propagates. The token is not stored here. */
    method Authorize() returns (r: Completion<Option<string>>)
      modifies this`authCalls, this`trace
      ensures authCalls == old(authCalls) + 1
      ensures trace == old(trace) + [AuthPost(authenticationUri, username, password)]
      ensures r == match authServer(old(authCalls))
                   case Exceptional => Exceptional
                   case Normal(response) => Normal(tokenExtractor(response))
    {
      var response := authServer(authCalls);
      authCalls := authCalls + 1;
      trace := trace + [AuthPost(authenticationUri, username, password)];
      match response
      case Exceptional =>
        r := Exceptional;
      case Normal(message) =>
        r := Normal(tokenExtractor(message));
    }

    /** Line 91: `Task.Delay` of the configured delay, recorded rather than
        waited for. */
    method Delay()
      modifies this`trace
      ensures trace == old(trace) + [Delayed(exceptionRetryDelayMs)]
    {
      trace := trace + [Delayed(exceptionRetryDelayMs)];
    }

    /** Lines 69-92: the loop body once the budget check has passed:
        authorize if no token is cached, make the request, and classify its
        outcome. */
    method Pass(makeRequest: nat -> Completion<HttpResponse>, attempt: nat) returns (done: bool, r: TryResult, nextAttempt: nat)
      modifies this`token, this`authCalls, this`trace
      ensures var it := Iterate(Settings(), makeRequest, State(attempt, old(token), old(authCalls)));
        && done == it.Stop?
        && trace == old(trace) + it.events
        && (done ==> r == it.result && token == it.token && authCalls == it.authCalls)
        && (!done ==> it.next == State(nextAttempt, token, authCalls))
    {
      ghost var cfg := Settings();
      ghost var s := State(attempt, token, authCalls);
      done, r, nextAttempt := false, RetriesExceeded, attempt;
      if token.None? {
        var authorized := Authorize();
        if authorized.Exceptional? {
          done, r := true, AuthorizationThrew;
          return;
        }
        token := authorized.value;
      }
      assert Authorized(cfg, s) == Normal(State(attempt, token, authCalls));
      var outcome := makeRequest(attempt);
      trace := trace + [Sent];
      match outcome
      case Exceptional =>
        nextAttempt := attempt + 1;
        Delay();
      case Normal(response) =>
        if response.status == Unauthorized {
          token := None;
          nextAttempt := attempt + 1;
        } else {
          done, r := true, Returned(response);
        }
    }

    /** One pass of the loop body, told where the whole loop is heading: it
        either ends the loop with the loop's outcome or leaves the loop
        heading to the same outcome from the next attempt. */
    method Step(makeRequest: nat -> Completion<HttpResponse>, attempt: nat, ghost run: Run, ghost total: seq<Event>)
      returns (done: bool, r: TryResult, nextAttempt: nat)
      requires attempt <= maxAttempts
      requires Heading(Settings(), makeRequest, State(attempt, token, authCalls), trace, run, total)
      modifies this`token, this`authCalls, this`trace
      ensures done ==> r == run.result && token == run.token && authCalls == run.authCalls && trace == total
      ensures !done ==> nextAttempt == attempt + 1
      ensures !done ==> Heading(Settings(), makeRequest, State(nextAttempt, token, authCalls), trace, run, total)
    {
      ghost var s := State(attempt, token, authCalls);
      ghost var before := trace;
      done, r, nextAttempt := Pass(makeRequest, attempt);
      if done {
        Finish(Settings(), makeRequest, s, before, run, total);
      } else {
        Resume(Settings(), makeRequest, s, State(nextAttempt, token, authCalls), before, trace, run, total);
      }
    }

    /** Lines 58-94: the retry loop, following `Loop` step by step. */
    method Try(makeRequest: nat -> Completion<HttpResponse>) returns (r: TryResult)
      requires Valid()
      modifies this`token, this`authCalls, this`trace
      ensures Valid()
      ensures var run := Loop(Settings(), makeRequest, State(0, old(token), old(authCalls)));
        && r == run.result
        && token == run.token
        && authCalls == run.authCalls
        && trace == old(trace) + run.events
    {
      ghost var cfg := Settings();
      ghost var run := Loop(cfg, makeRequest, State(0, token, authCalls));
      ghost var total := trace + run.events;
      AccountedAfterRun(cfg, authCalls, trace, run, State(0, token, authCalls), makeRequest);
      var attempt: nat := 0;
      while true
        invariant Heading(cfg, makeRequest, State(attempt, token, authCalls), trace, run, total)
        decreases maxAttempts + 1 - attempt
      {
        if attempt > maxAttempts {
          GiveUp(cfg, makeRequest, State(attempt, token, authCalls), trace, run, total);
          r := RetriesExceeded;
          return;
        }
        var done;
        done, r, attempt := Step(makeRequest, attempt, run, total);
        if done {
          return;
        }
      }
    }

    /** Lines 41-44: a GET of `requestUri`, retried by `Try`. */
    method GetAsync(requestUri: string) returns (r: TryResult)
      requires Valid()
      modifies this`token, this`authCalls, this`trace
      ensures Valid()
      ensures var run := Loop(Settings(), Attempts(transport, Get(requestUri), Sends(old(trace))), State(0, old(token), old(authCalls)));
        && r == run.result
        && token == run.token
        && authCalls == run.authCalls
        && trace == old(trace) + run.events
        && Sends(trace) == Sends(old(trace)) + Sends(run.events)
    {
      ghost var before := trace;
      r := Try(Attempts(transport, Get(requestUri), Sends(trace)));
      CountAppend(Sent, before, trace[|before|..]);
      assert before + trace[|before|..] == trace;
    }

    /** Lines 46-55: a POST of the serialized `content` to `requestUri`,
        retried by `Try`; every attempt sends the same content. */
    method PostAsync(requestUri: string, content: string) returns (r: TryResult)
      requires Valid()
      modifies this`token, this`authCalls, this`trace
      ensures Valid()
      ensures var run := Loop(Settings(), Attempts(transport, Post(requestUri, content), Sends(old(trace))), State(0, old(token), old(authCalls)));
        && r == run.result
        && token == run.token
        && authCalls == run.authCalls
        && trace == old(trace) + run.events
        && Sends(trace) == Sends(old(trace)) + Sends(run.events)
    {
      ghost var before := trace;
      r := Try(Attempts(transport, Post(requestUri, content), Sends(trace)));
      CountAppend(Sent, before, trace[|before|..]);
      assert before + trace[|before|..] == trace;
    }
  }
}
