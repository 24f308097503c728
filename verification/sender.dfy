/** The authenticated request sender (`requestSender`): one attempt with
    the cached Bearer token, and on a 401 one negotiation of a new token
    followed by one retry. The network is an oracle `net`: each call
    made ends as the script says: the attempt, then the token endpoint
    call, then the retry. */
module Sender {
  import opened Basics
  import opened Http
  import opened Challenge

  /** Default timeout of a registry call, in milliseconds. */
  const DefaultTimeoutMs: nat := 60000

  /** Per-call options a caller passes; None leaves the default. */
  datatype Options = Options(headers: Option<Headers>, timeoutMs: Option<nat>, followRedirect: Option<bool>)

  /** How the caller's options are combined with the defaults. */
  datatype Merge =
    | Layered   // `got.extend(defaults).extend(options)`: header maps merged, the caller's win
    | Assigned  // `got.extend(Object.assign(defaults, options))`: the caller's `headers` replace the defaults whole

  /** How a call fails. */
  datatype SendError =
    | NeedLogin(authenticateHeader: Option<string>)  // a 401 during recovery
    | AuthFailed                                     // any other failure during recovery
    | Rethrown(cause: Outcome)                       // the first attempt's own failure, unchanged

  /** The scripted outcomes of the up to three network calls of one
      `requestSender` call, in the order they would be made. */
  datatype Script = Script(attempt: Outcome, fetch: Outcome, retry: Outcome) {

    /** The outcome of the call at position `k` (0, 1 or 2). */
    function At(k: nat): Outcome {
      if k == 0 then attempt else if k == 1 then fetch else retry
    }
  }

  /** One network call made on behalf of the sender. */
  datatype Call = Attempt(request: Request) | TokenFetch(request: Request)

  /** What one `requestSender` call did: its result, the cached token
      afterwards, and the network calls in the order made. */
  datatype Run = Run(result: Result<Response, SendError>, token: string, calls: seq<Call>)

  /** The default headers: a Bearer authorization exactly when a token is cached. */
  function DefaultHeaders(token: string): (h: Headers)
    ensures Authorization in h <==> token != ""
    ensures Authorization in h ==> h[Authorization] == "Bearer " + token
    ensures h.Keys <= {Authorization}
  {
    if token != "" then map[Authorization := "Bearer " + token] else map[]
  }

  /** The request the client makes for `url` with the caller's options. */
  function ClientRequest(merge: Merge, token: string, url: string, opts: Options): (r: Request)
    ensures r.url == url
    ensures r.timeoutMs == opts.timeoutMs.GetOr(DefaultTimeoutMs)
    ensures r.followRedirect == opts.followRedirect.GetOr(true)
    ensures merge.Layered? ==>
      && r.headers.Keys == DefaultHeaders(token).Keys + opts.headers.GetOr(map[]).Keys
      && (forall k | k in opts.headers.GetOr(map[]) :: r.headers[k] == opts.headers.GetOr(map[])[k])
    ensures merge.Assigned? ==> r.headers == opts.headers.GetOr(DefaultHeaders(token))
  {
    var headers := match merge
      case Layered => DefaultHeaders(token) + opts.headers.GetOr(map[])
      case Assigned => opts.headers.GetOr(DefaultHeaders(token));
    Request(url, headers, opts.timeoutMs.GetOr(DefaultTimeoutMs), opts.followRedirect.GetOr(true))
  }

  /** The retry: the same request with the new token as its authorization. */
  function Retried(req: Request, token: string): (r: Request)
    ensures r.url == req.url && r.timeoutMs == req.timeoutMs && r.followRedirect == req.followRedirect
    ensures r.headers.Keys == req.headers.Keys + {Authorization}
    ensures r.headers[Authorization] == "Bearer " + token
    ensures forall k | k in req.headers && k != Authorization :: r.headers[k] == req.headers[k]
  {
    req.(headers := req.headers[Authorization := "Bearer " + token])
  }

  /** The number of attempts at the caller's request among `calls`. */
  function Attempts(calls: seq<Call>): (n: nat)
    ensures n <= |calls|
  {
    if |calls| == 0 then 0
    else (if calls[0].Attempt? then 1 else 0) + Attempts(calls[1..])
  }

  /** A token the code accepts: present and non-empty. */
  predicate Usable(token: Option<string>) {
    token.Some? && token.value != ""
  }

  /** The challenge header of a 401 outcome. */
  function ChallengeOf(o: Outcome): Option<string> {
    if o.Rejected? then Header(o.headers, WwwAuthenticate) else None
  }

  /** The recovery after a 401 on `first`: negotiate a token (call 1), store
      it if usable, retry (call 2). A 401 anywhere here means login is
      needed; every other failure is reported as an authentication failure. */
  function Recover(first: Request, cached: string, secret: string, challenge: Option<string>, fetched: Outcome, retried: Outcome): (run: Run)
    ensures 1 <= |run.calls| <= 3 && run.calls[0] == Attempt(first)
    ensures |run.calls| >= 2 <==> TokenUrl(challenge).Success?
    ensures |run.calls| >= 2 ==> run.calls[1] == TokenFetch(TokenRequest(TokenUrl(challenge).value, secret))
    ensures |run.calls| == 3 ==> run.calls[2] == Attempt(Retried(first, run.token))
    ensures |run.calls| < 3 ==> run.token == cached
    ensures |run.calls| == 3 ==> fetched.Delivered? && fetched.response.token == Some(run.token) && run.token != ""
    ensures |run.calls| == 2 ==> !(fetched.Delivered? && Usable(fetched.response.token))
    ensures !(run.result.Failure? && run.result.error.Rethrown?)
    ensures |run.calls| == 1 ==> run.result == Failure(AuthFailed)
    ensures |run.calls| == 2 ==>
      run.result == Failure(if fetched.Unauthorized() then NeedLogin(ChallengeOf(fetched)) else AuthFailed)
    ensures |run.calls| == 3 ==>
      run.result == if retried.Delivered? then Success(retried.response)
                    else Failure(if retried.Unauthorized() then NeedLogin(ChallengeOf(retried)) else AuthFailed)
  {
    var n := Negotiate(challenge, secret, fetched);
    var done := [Attempt(first)] + (if n.fetch.Some? then [TokenFetch(n.fetch.value)] else []);
    match n.result
    case Failure(e) =>
      if e.FetchFailed? && e.cause.Unauthorized() then
        Run(Failure(NeedLogin(Header(e.cause.headers, WwwAuthenticate))), cached, done)
      else
        Run(Failure(AuthFailed), cached, done)
    case Success(token) =>
      if !Usable(token) then Run(Failure(AuthFailed), cached, done)
      else Retry(first, token.value, done, retried)
  }

  /** The retry with the freshly stored token, whose outcome is `o`. */
  function Retry(first: Request, newToken: string, done: seq<Call>, o: Outcome): (run: Run)
    ensures run.calls == done + [Attempt(Retried(first, newToken))]
    ensures run.token == newToken
    ensures run.result.Success? <==> o.Delivered?
    ensures run.result.Success? ==> run.result.value == o.response
    ensures run.result.Failure? ==>
      run.result.error == if o.Unauthorized() then NeedLogin(ChallengeOf(o)) else AuthFailed
  {
    var calls := done + [Attempt(Retried(first, newToken))];
    match o
    case Delivered(resp) => Run(Success(resp), newToken, calls)
    case Rejected(status, headers) =>
      if status == 401 then Run(Failure(NeedLogin(Header(headers, WwwAuthenticate))), newToken, calls)
      else Run(Failure(AuthFailed), newToken, calls)
    case Unreachable(_) => Run(Failure(AuthFailed), newToken, calls)
  }

  /** `requestSender(url, options)` against a repository whose cached token
      is `cached` and whose Basic secret is `secret`. */
  function Send(merge: Merge, cached: string, secret: string, url: string, opts: Options, net: Script): (run: Run)
    // the calls made: the attempt, then possibly a token fetch, then possibly one retry
    ensures 1 <= |run.calls| <= 3
    ensures run.calls[0] == Attempt(ClientRequest(merge, cached, url, opts))
    ensures |run.calls| >= 2 <==> net.attempt.Unauthorized() && TokenUrl(ChallengeOf(net.attempt)).Success?
    ensures |run.calls| >= 2 ==>
      TokenUrl(ChallengeOf(net.attempt)).Success? &&
      run.calls[1] == TokenFetch(TokenRequest(TokenUrl(ChallengeOf(net.attempt)).value, secret))
    ensures |run.calls| == 3 ==> run.calls[2] == Attempt(Retried(run.calls[0].request, run.token))
    ensures Attempts(run.calls) == if |run.calls| == 3 then 2 else 1
    // the cached token: replaced only by a usable negotiated token, before the retry
    ensures |run.calls| < 3 ==> run.token == cached
    ensures |run.calls| == 3 ==> net.fetch.Delivered? && net.fetch.response.token == Some(run.token) && run.token != ""
    ensures |run.calls| == 3 <==> |run.calls| >= 2 && net.fetch.Delivered? && Usable(net.fetch.response.token)
    // a first attempt that is not a 401 is returned or rethrown unchanged
    ensures !net.attempt.Unauthorized() ==>
      && |run.calls| == 1 && run.token == cached
      && run.result == (if net.attempt.Delivered? then Success(net.attempt.response) else Failure(Rethrown(net.attempt)))
    // after a 401 the recovery block decides
    ensures net.attempt.Unauthorized() ==> !(run.result.Failure? && run.result.error.Rethrown?)
    ensures net.attempt.Unauthorized() && |run.calls| == 1 ==>
      run.result == Failure(AuthFailed) && TokenUrl(ChallengeOf(net.attempt)).Failure?
    ensures net.attempt.Unauthorized() && |run.calls| >= 2 && net.At(|run.calls| - 1).Unauthorized() ==>
      run.result == Failure(NeedLogin(ChallengeOf(net.At(|run.calls| - 1))))
    ensures run.result.Failure? && run.result.error.NeedLogin? ==>
      |run.calls| >= 2 && net.At(|run.calls| - 1).Unauthorized()
    ensures run.result.Success? ==>
      |run.calls| != 2 && net.At(|run.calls| - 1).Delivered? && run.result.value == net.At(|run.calls| - 1).response
    // the retry's own outcome is the result
    ensures |run.calls| == 3 ==>
      run.result == if net.retry.Delivered? then Success(net.retry.response)
                    else Failure(if net.retry.Unauthorized() then NeedLogin(ChallengeOf(net.retry)) else AuthFailed)
  {
    var first := ClientRequest(merge, cached, url, opts);
    var o := net.attempt;
    var run :=
      if o.Unauthorized() then
        Recover(first, cached, secret, ChallengeOf(o), net.fetch, net.retry)
      else
        Run(if o.Delivered? then Success(o.response) else Failure(Rethrown(o)), cached, [Attempt(first)]);
    AttemptsAtMostTwo(run.calls);
    run
  }

  /** An attempt, possibly a token fetch, and possibly an attempt after
      it: one attempt, or two when the retry is there. */
  lemma AttemptsAtMostTwo(calls: seq<Call>)
    requires 1 <= |calls| <= 3 && calls[0].Attempt?
    requires |calls| >= 2 ==> calls[1].TokenFetch?
    requires |calls| == 3 ==> calls[2].Attempt?
    ensures Attempts(calls) == if |calls| == 3 then 2 else 1
  {
    if |calls| >= 2 {
      var rest := calls[1..];
      assert Attempts(rest) == Attempts(rest[1..]);
      if |calls| == 3 {
        assert rest[1..][1..] == [];
      }
    } else {
      assert calls[1..] == [];
    }
  }

  /** With layered options the first attempt carries the cached token
      whenever one is cached and the caller sets no authorization. */
  lemma LayeredSendsCachedToken(cached: string, url: string, opts: Options)
    requires Authorization !in opts.headers.GetOr(map[])
    ensures var r := ClientRequest(Layered, cached, url, opts);
      && (Authorization in r.headers <==> cached != "")
      && (cached != "" ==> r.headers[Authorization] == "Bearer " + cached)
  {
  }

  /** With assigned options, caller headers without an authorization make
      the first attempt anonymous, even with a token cached. */
  lemma AssignedDropsCachedToken(cached: string, url: string, opts: Options)
    requires opts.headers.Some? && Authorization !in opts.headers.value
    ensures Authorization !in ClientRequest(Assigned, cached, url, opts).headers
  {
  }

  /** The two merges differ only when the caller passes headers and a
      token is cached. */
  lemma MergesAgree(cached: string, url: string, opts: Options)
    requires opts.headers.None? || cached == ""
    ensures ClientRequest(Layered, cached, url, opts) == ClientRequest(Assigned, cached, url, opts)
  {
    if opts.headers.Some? {
      assert DefaultHeaders(cached) == map[];
      assert map[] + opts.headers.value == opts.headers.value;
    }
  }

  /** A token obtained by one call is the one the next call sends first. */
  lemma TokenCarriesOver(secret: string, cached: string, url: string, opts: Options, net: Script,
                         url': string, opts': Options, net': Script)
    requires Authorization !in opts'.headers.GetOr(map[])
    ensures var run := Send(Layered, cached, secret, url, opts, net);
      var next := Send(Layered, run.token, secret, url', opts', net');
      run.token != "" ==> next.calls[0].request.headers[Authorization] == "Bearer " + run.token
  {
    var run := Send(Layered, cached, secret, url, opts, net);
    LayeredSendsCachedToken(run.token, url', opts');
  }

  /** A token endpoint answering without a `token` field fails the call
      and leaves the cached token as it was. */
  lemma MissingTokenKeepsCache(merge: Merge, cached: string, secret: string, url: string, opts: Options, net: Script)
    requires net.attempt.Unauthorized()
    requires net.fetch.Delivered? && net.fetch.response.token.None?
    ensures Send(merge, cached, secret, url, opts, net).result == Failure(AuthFailed)
    ensures Send(merge, cached, secret, url, opts, net).token == cached
  {
  }

  /** After a 401 carrying a valid challenge and a usable new token, a
      second 401, on the retry, ends in "need login" after exactly two
      attempts, never a third. */
  lemma SecondUnauthorizedNeedsLogin(merge: Merge, cached: string, secret: string, url: string, opts: Options, net: Script,
                                     c: Challenge, tail: string)
    requires WellFormed(c) && c.realm != "" && c.service != ""
    requires c.scope.None? ==> !OpensScope(tail)
    requires net.attempt.Unauthorized() && ChallengeOf(net.attempt) == Some(Render(c) + tail)
    requires net.fetch.Delivered? && Usable(net.fetch.response.token)
    requires net.retry.Unauthorized()
    ensures var run := Send(merge, cached, secret, url, opts, net);
      && run.result == Failure(NeedLogin(ChallengeOf(net.retry)))
      && Attempts(run.calls) == 2
      && run.token == net.fetch.response.token.value
  {
    TokenUrlOfChallenge(c, tail);
  }
}
