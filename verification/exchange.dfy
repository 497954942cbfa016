/** The renewal exchange, `QPayAuth._fetch_token` (qpay/auth.py:47-80). Apart from the
    clock and the provider it reads nothing and writes no field, so it is a function: given
    the credentials, the refresh token argument, the clock with the index of its next
    reading, and the provider with the number of requests already sent, it yields the
    outcome and the requests it sent, in order. */
module Exchange {
  import opened Wrappers
  import opened Tokens

  datatype Exchange = Exchange(outcome: Result<TokenPair, AuthError>, calls: seq<Request>)

  /** `Response.raise_for_status` raises `HTTPError` for client and server errors. */
  predicate RaisesForStatus(status: int)
  {
    400 <= status < 600
  }

  /** The request one attempt sends (auth.py:52-62): the refresh endpoint with the refresh
      token as bearer credential when a refresh token was passed and is unexpired at `now`,
      otherwise the token endpoint with basic credentials. */
  function ChooseRequest(username: string, password: string, refresh: Option<RefreshToken>, now: Time): (req: Request)
    ensures req.endpoint == RefreshEndpoint <==> refresh.Some? && Unexpired(refresh.value.expires, now)
    ensures req.endpoint == RefreshEndpoint ==> req.credential == Bearer(refresh.value.token)
    ensures req.endpoint == TokenEndpoint ==> req.credential == Basic(username, password)
  {
    if refresh.Some? && Unexpired(refresh.value.expires, now) then
      Post(RefreshEndpoint, Bearer(refresh.value.token))
    else
      Post(TokenEndpoint, Basic(username, password))
  }

  /** Reading the token pair out of a non-error body (auth.py:64-73). Python evaluates the
      keyword arguments left to right, so the KeyError names the first missing field in
      `ReadOrder`. */
  function ParsePair(body: Body, now: Time): (r: Result<TokenPair, AuthError>)
    ensures r.Ok? <==> forall k: Key :: Present(body, k)
    ensures r.Ok? ==> body.accessToken.Some? && body.expiresIn.Some? && body.refreshToken.Some? && body.refreshExpiresIn.Some?
    ensures r.Ok? ==> r.value.access == AccessToken(body.accessToken.value, now + body.expiresIn.value)
    ensures r.Ok? ==> r.value.refresh == RefreshToken(body.refreshToken.value, now + body.refreshExpiresIn.value)
    ensures r.Err? ==> exists i :: 0 <= i < |ReadOrder| && r.error == KeyError(ReadOrder[i])
                                   && !Present(body, ReadOrder[i])
                                   && forall j :: 0 <= j < i ==> Present(body, ReadOrder[j])
  {
    if body.accessToken.None? then
      assert ReadOrder[0] == AccessTokenKey && !Present(body, AccessTokenKey);
      Err(KeyError(AccessTokenKey))
    else if body.expiresIn.None? then
      assert ReadOrder[1] == ExpiresInKey && !Present(body, ExpiresInKey);
      Err(KeyError(ExpiresInKey))
    else if body.refreshToken.None? then
      assert ReadOrder[2] == RefreshTokenKey && !Present(body, RefreshTokenKey);
      Err(KeyError(RefreshTokenKey))
    else if body.refreshExpiresIn.None? then
      assert ReadOrder[3] == RefreshExpiresInKey && !Present(body, RefreshExpiresInKey);
      Err(KeyError(RefreshExpiresInKey))
    else
      Ok(TokenPair(
        AccessToken(body.accessToken.value, now + body.expiresIn.value),
        RefreshToken(body.refreshToken.value, now + body.refreshExpiresIn.value)))
  }

  /** Whether an attempt that received `resp` recurses (auth.py:76): an HTTP error with
      status 401 while a refresh token argument is present. Which endpoint answered does
      not matter. */
  predicate Retries(refresh: Option<RefreshToken>, resp: Response)
  {
    refresh.Some? && resp.Reply? && RaisesForStatus(resp.status) && resp.status == 401
  }

  /** `_fetch_token(refresh)`. Each attempt reads the clock once (reading `tick`) and sends
      one request (the provider's request number `sent`). The retry is `_fetch_token()`
      without a refresh token: it reads the clock again and cannot retry itself. */
  function FetchToken(username: string, password: string, refresh: Option<RefreshToken>,
                      clock: Clock, tick: nat, host: Server, sent: nat): (x: Exchange)
    decreases refresh.Some?
    ensures 1 <= |x.calls| <= 2
    ensures x.calls[0] == ChooseRequest(username, password, refresh, clock(tick))
    ensures |x.calls| == 2 <==> Retries(refresh, host(sent, x.calls[0]))
    ensures |x.calls| == 2 ==> x.calls[1] == Post(TokenEndpoint, Basic(username, password))
  {
    var now := clock(tick);
    var req := ChooseRequest(username, password, refresh, now);
    var resp := host(sent, req);
    match resp
    case ConnectionFailed => Exchange(Err(ConnectionError), [req])
    case Reply(status, body) =>
      if RaisesForStatus(status) then
        if refresh.Some? && status == 401 then
          var retry := FetchToken(username, password, None, clock, tick + 1, host, sent + 1);
          Exchange(retry.outcome, [req] + retry.calls)
        else
          Exchange(Err(QPayException(status)), [req])
      else
        Exchange(ParsePair(body, now), [req])
  }

  /** The index of the last attempt of an exchange, which decides its outcome. */
  function LastAttempt(x: Exchange): nat
  {
    if |x.calls| == 0 then 0 else |x.calls| - 1
  }

  /** Expiry arithmetic (auth.py:51, 65-72): a successful exchange built its pair from the
      non-error response to its last request, and both expiries are offsets from the single
      clock reading that attempt took. */
  lemma ExpiryArithmetic(username: string, password: string, refresh: Option<RefreshToken>,
                         clock: Clock, tick: nat, host: Server, sent: nat)
    ensures var x := FetchToken(username, password, refresh, clock, tick, host, sent);
            var k := LastAttempt(x);
            var now := clock(tick + k);
            var resp := host(sent + k, x.calls[k]);
            x.outcome.Ok? ==>
              resp.Reply? && !RaisesForStatus(resp.status) &&
              resp.body.accessToken.Some? && resp.body.expiresIn.Some? &&
              resp.body.refreshToken.Some? && resp.body.refreshExpiresIn.Some? &&
              x.outcome.value.access == AccessToken(resp.body.accessToken.value, now + resp.body.expiresIn.value) &&
              x.outcome.value.refresh == RefreshToken(resp.body.refreshToken.value, now + resp.body.refreshExpiresIn.value)
  {
  }

  /** Error propagation (auth.py:74-80): an exchange fails with QPayException(s) exactly
      when its last request got an HTTP error with status s that is not retried; with
      KeyError exactly when the last response was not an error but lacked a field; with
      ConnectionError exactly when the provider could not be reached. */
  lemma ErrorPropagation(username: string, password: string, refresh: Option<RefreshToken>,
                         clock: Clock, tick: nat, host: Server, sent: nat)
    ensures var x := FetchToken(username, password, refresh, clock, tick, host, sent);
            var k := LastAttempt(x);
            var resp := host(sent + k, x.calls[k]);
            var arg := if k == 0 then refresh else None;
            && (x.outcome == Err(ConnectionError) <==> resp.ConnectionFailed?)
            && (forall s :: x.outcome == Err(QPayException(s)) <==>
                  resp.Reply? && resp.status == s && RaisesForStatus(s) && !Retries(arg, resp))
            && (x.outcome.Err? && x.outcome.error.KeyError? <==>
                  resp.Reply? && !RaisesForStatus(resp.status) && exists key :: !Present(resp.body, key))
  {
  }

  /** Refresh rejected (auth.py:76-77): when the refresh endpoint answers 401, exactly one
      more request follows, to the token endpoint with basic credentials, and the exchange
      ends as a fresh basic exchange at the next clock reading would. */
  lemma RefreshRejectedFallsBack(username: string, password: string, refresh: RefreshToken,
                                 clock: Clock, tick: nat, host: Server, sent: nat)
    requires Unexpired(refresh.expires, clock(tick))
    requires host(sent, Post(RefreshEndpoint, Bearer(refresh.token))).Reply?
    requires host(sent, Post(RefreshEndpoint, Bearer(refresh.token))).status == 401
    ensures var x := FetchToken(username, password, Some(refresh), clock, tick, host, sent);
            var fallback := FetchToken(username, password, None, clock, tick + 1, host, sent + 1);
            && x.calls == [Post(RefreshEndpoint, Bearer(refresh.token)), Post(TokenEndpoint, Basic(username, password))]
            && x.outcome == fallback.outcome
            && |fallback.calls| == 1
  {
  }

  /** A second 401, on the fallback request, is raised and not retried again. */
  lemma SecondRejectionPropagates(username: string, password: string, refresh: RefreshToken,
                                  clock: Clock, tick: nat, host: Server, sent: nat)
    requires Unexpired(refresh.expires, clock(tick))
    requires host(sent, Post(RefreshEndpoint, Bearer(refresh.token))).Reply?
    requires host(sent, Post(RefreshEndpoint, Bearer(refresh.token))).status == 401
    requires host(sent + 1, Post(TokenEndpoint, Basic(username, password))).Reply?
    requires host(sent + 1, Post(TokenEndpoint, Basic(username, password))).status == 401
    ensures var x := FetchToken(username, password, Some(refresh), clock, tick, host, sent);
            x.outcome == Err(QPayException(401)) && |x.calls| == 2
  {
  }

  /** The retry condition looks only at the refresh token argument (auth.py:76): with a
      refresh token that has already expired, the token endpoint is the one that answers
      401, and it is asked a second time with the same basic credentials. */
  lemma ExpiredRefreshStillRetries(username: string, password: string, refresh: RefreshToken,
                                   clock: Clock, tick: nat, host: Server, sent: nat)
    requires !Unexpired(refresh.expires, clock(tick))
    requires host(sent, Post(TokenEndpoint, Basic(username, password))).Reply?
    requires host(sent, Post(TokenEndpoint, Basic(username, password))).status == 401
    ensures var x := FetchToken(username, password, Some(refresh), clock, tick, host, sent);
            x.calls == [Post(TokenEndpoint, Basic(username, password)), Post(TokenEndpoint, Basic(username, password))]
  {
  }
}
