/** The token store, `QPayAuth` (qpay/auth.py:25-97). `GetTokenStep` says what one call of
    `_get_token` does to the store; the class `QPayAuth` holds the store in mutable fields
    and its methods are proved to follow `GetTokenStep`. */
module Auth {
  import opened Wrappers
  import opened Tokens
  import opened Exchange

  /** What an object fixes at construction (auth.py:26-39): the provider behind `_host`,
      the credentials, and the clock `_timestamp` reads. */
  datatype Config = Config(host: Server, username: string, password: string, clock: Clock)

  /** The mutable part of an object: the two stored tokens, and how many clock readings and
      provider requests it has used so far. */
  datatype Store = Store(access: Option<AccessToken>, refresh: Option<RefreshToken>, ticks: nat, sent: nat)

  /** The result of one `_get_token`: what it returns or raises, the store afterwards, and the
      requests it sent, in order. */
  datatype Step = Step(result: Result<AccessToken, AuthError>, next: Store, calls: seq<Request>)

  /** The store a fresh object starts with (auth.py:33-34). */
  const Initial: Store := Store(None, None, 0, 0)

  /** Whether the cache check of auth.py:86 passes at `now`. */
  predicate CacheHit(s: Store, now: Time)
  {
    s.access.Some? && Unexpired(s.access.value.expires, now)
  }

  /** The two tokens are stored together or not at all: they start absent (auth.py:33-34)
      and are only ever assigned as a pair (auth.py:89). */
  predicate PairStored(s: Store)
  {
    s.access.Some? <==> s.refresh.Some?
  }

  /** One `_get_token` (auth.py:82-92): read the clock; return the stored access token if it
      is unexpired; otherwise run the exchange with the stored refresh token and, if it
      succeeds, store the new pair and return its access token. A raised error leaves both
      tokens as they were, since the assignment of auth.py:89 is never reached. */
  function GetTokenStep(cfg: Config, s: Store): (st: Step)
    ensures PairStored(s) ==> PairStored(st.next)
    ensures st.result.Ok? ==> st.next.access == Some(st.result.value)
    ensures st.next.ticks > s.ticks && st.next.sent == s.sent + |st.calls|
  {
    var now := cfg.clock(s.ticks);
    if CacheHit(s, now) then
      Step(Ok(s.access.value), s.(ticks := s.ticks + 1), [])
    else
      var x := FetchToken(cfg.username, cfg.password, s.refresh, cfg.clock, s.ticks + 1, cfg.host, s.sent);
      var used := s.(ticks := s.ticks + 1 + |x.calls|, sent := s.sent + |x.calls|);
      match x.outcome
      case Ok(pair) => Step(Ok(pair.access), used.(access := Some(pair.access), refresh := Some(pair.refresh)), x.calls)
      case Err(e) => Step(Err(e), used, x.calls)
  }

  /** Cache hit (auth.py:84-87): no request is sent exactly when the stored access token is
      unexpired at the first clock reading; then that token is returned and only the clock
      reading is used up. */
  lemma CacheHitIsSilent(cfg: Config, s: Store)
    ensures var st := GetTokenStep(cfg, s);
            (st.calls == [] <==> CacheHit(s, cfg.clock(s.ticks)))
            && (CacheHit(s, cfg.clock(s.ticks)) ==>
                  st.result == Ok(s.access.value) && st.next == s.(ticks := s.ticks + 1))
  {
  }

  /** Pair replacement (auth.py:89-92): after a renewal that succeeds, both stored tokens
      come from the one exchange, and the returned token is the newly stored access token. */
  lemma PairReplacement(cfg: Config, s: Store)
    ensures var st := GetTokenStep(cfg, s);
            var x := FetchToken(cfg.username, cfg.password, s.refresh, cfg.clock, s.ticks + 1, cfg.host, s.sent);
            !CacheHit(s, cfg.clock(s.ticks)) && st.result.Ok? ==>
              x.outcome.Ok? && st.calls == x.calls
              && st.next.access == Some(x.outcome.value.access) && st.next.refresh == Some(x.outcome.value.refresh)
              && st.next.access == Some(st.result.value)
  {
  }

  /** Error propagation (auth.py:78-80, 89): `_get_token` raises only after a renewal, it
      raises exactly the error the exchange raised, and both stored tokens stay as they
      were. */
  lemma ErrorKeepsTokens(cfg: Config, s: Store)
    ensures var st := GetTokenStep(cfg, s);
            var x := FetchToken(cfg.username, cfg.password, s.refresh, cfg.clock, s.ticks + 1, cfg.host, s.sent);
            st.result.Err? ==>
              !CacheHit(s, cfg.clock(s.ticks)) && x.outcome == Err(st.result.error) && st.calls == x.calls
              && st.next.access == s.access && st.next.refresh == s.refresh
  {
  }

  /** Two `_get_token` calls in a row, as the lock serialises them (auth.py:83): the second
      caller sends nothing when the first stored a token still unexpired at the second
      caller's clock reading. When the first call raised and nothing usable was stored
      before it, the second caller runs an exchange of its own. */
  lemma SerializedCallers(cfg: Config, s: Store)
    ensures var first := GetTokenStep(cfg, s);
            var second := GetTokenStep(cfg, first.next);
            && (first.result.Ok? && Unexpired(first.result.value.expires, cfg.clock(first.next.ticks)) ==>
                  second.calls == [] && second.result == first.result)
            && (first.result.Err? && !CacheHit(s, cfg.clock(first.next.ticks)) ==>
                  |second.calls| >= 1)
  {

  }

  /** Bounded work: one `_get_token` sends at most two requests, a second one only after a
      401 while a refresh token was stored, and uses one clock reading per request plus the
      one of the cache check. */
  lemma AtMostTwoRequests(cfg: Config, s: Store)
    ensures var st := GetTokenStep(cfg, s);
            && |st.calls| <= 2
            && (|st.calls| == 2 ==> s.refresh.Some? && st.calls[1] == Post(TokenEndpoint, Basic(cfg.username, cfg.password)))
            && st.next.ticks == s.ticks + 1 + |st.calls|
            && st.next.sent == s.sent + |st.calls|
  {
  }

  /** Branch choice (auth.py:52-62), as seen from `_get_token`: the first request of a
      renewal goes to the refresh endpoint, carrying the stored refresh token as bearer
      credential, exactly when a refresh token is stored and unexpired at the exchange's
      own clock reading. */
  lemma RenewalBranch(cfg: Config, s: Store)
    ensures var st := GetTokenStep(cfg, s);
            var now := cfg.clock(s.ticks + 1);
            !CacheHit(s, cfg.clock(s.ticks)) ==>
              |st.calls| >= 1
              && (st.calls[0].endpoint == RefreshEndpoint <==> s.refresh.Some? && Unexpired(s.refresh.value.expires, now))
              && (st.calls[0].endpoint == RefreshEndpoint ==> st.calls[0].credential == Bearer(s.refresh.value.token))
              && (st.calls[0].endpoint == TokenEndpoint ==> st.calls[0].credential == Basic(cfg.username, cfg.password))
  {
  }

  /** Consistent comparison (auth.py:57, 86): a token that expires exactly at the clock
      reading is stale for the cache check and unusable for the refresh choice alike. */
  lemma ExpiringNowIsStale(cfg: Config, s: Store)
    requires s.access.Some? && s.access.value.expires == cfg.clock(s.ticks)
    requires s.refresh.Some? && s.refresh.value.expires == cfg.clock(s.ticks + 1)
    ensures var st := GetTokenStep(cfg, s);
            |st.calls| >= 1 && st.calls[0] == Post(TokenEndpoint, Basic(cfg.username, cfg.password))
  {
  }

  /** The provider only ever grants positive lifetimes. */
  ghost predicate PositiveLifetimes(host: Server)
  {
    forall n: nat, req: Request ::
      host(n, req).Reply? ==>
        (host(n, req).body.expiresIn.Some? ==> host(n, req).body.expiresIn.value > 0)
  }

  /** The token `_get_token` returns is unexpired at its own cache-check reading, provided the
      clock does not run backwards during the call and the provider grants positive
      lifetimes. The source checks neither; without them a renewed token can be stale when
      it is returned. */
  lemma ReturnedTokenUnexpired(cfg: Config, s: Store)
    requires cfg.clock(s.ticks) <= cfg.clock(s.ticks + 1) <= cfg.clock(s.ticks + 2)
    requires PositiveLifetimes(cfg.host)
    ensures var st := GetTokenStep(cfg, s);
            st.result.Ok? ==> Unexpired(st.result.value.expires, cfg.clock(s.ticks))
  {
    var st := GetTokenStep(cfg, s);
    if !CacheHit(s, cfg.clock(s.ticks)) && st.result.Ok? {
      ExpiryArithmetic(cfg.username, cfg.password, s.refresh, cfg.clock, s.ticks + 1, cfg.host, s.sent);
    }
  }

  /** An object of the source class. The fields mirror `_access_token`, `_refresh_token`,
      `_host`, `_username`, `_password` and `_now`; `ticks` and `sent` count the clock
      readings and requests so far, and `history` records every request sent. */
  class QPayAuth {
    var accessToken: Option<AccessToken>
    var refreshToken: Option<RefreshToken>
    const host: Server
    const username: string
    const password: string
    const now: Clock
    var ticks: nat
    var sent: nat
    ghost var history: seq<Request>

    ghost predicate Valid()
      reads this
    {
      PairStored(State()) && sent == |history|
    }

    function Cfg(): Config
    {
      Config(host, username, password, now)
    }

    function State(): Store
      reads this
    {
      Store(accessToken, refreshToken, ticks, sent)
    }

    /** `QPayAuth.__init__` (auth.py:26-39): no tokens yet. */
    constructor (host: Server, username: string, password: string, now: Clock)
      ensures Valid() && State() == Initial && history == []
      ensures Cfg() == Config(host, username, password, now)
    {
      this.accessToken := None;
      this.refreshToken := None;
      this.host := host;
      this.username := username;
      this.password := password;
      this.now := now;
      this.ticks := 0;
      this.sent := 0;
      this.history := [];
    }

    /** `_timestamp` (auth.py:41-45): the next reading of the clock. */
    method Timestamp() returns (t: Time)
      modifies this`ticks
      ensures t == now(old(ticks)) && ticks == old(ticks) + 1
    {
      t := now(ticks);
      ticks := ticks + 1;
    }

    /** `_get_token` (auth.py:82-92). */
    method GetToken() returns (r: Result<AccessToken, AuthError>)
      requires Valid()
      modifies this`accessToken, this`refreshToken, this`ticks, this`sent, this`history
      ensures Valid()
      ensures var st := GetTokenStep(Cfg(), old(State()));
              r == st.result && State() == st.next && history == old(history) + st.calls
    {
      var t := Timestamp();
      if accessToken.Some? && Unexpired(accessToken.value.expires, t) {
        return Ok(accessToken.value);
      }
      var x := FetchToken(username, password, refreshToken, now, ticks, host, sent);
      ticks := ticks + |x.calls|;
      sent := sent + |x.calls|;
      history := history + x.calls;
      match x.outcome {
        case Ok(pair) =>
          accessToken, refreshToken := Some(pair.access), Some(pair.refresh);
          r := Ok(pair.access);
        case Err(e) =>
          r := Err(e);
      }
    }

    /** `__call__` (auth.py:94-97): get a token and put it into the request's headers as a
        bearer credential. An error from `_get_token` leaves the headers untouched. */
    method Call(req: OutgoingRequest) returns (r: Result<OutgoingRequest, AuthError>)
      requires Valid()
      modifies this`accessToken, this`refreshToken, this`ticks, this`sent, this`history, req`headers
      ensures Valid()
      ensures var st := GetTokenStep(Cfg(), old(State()));
              && State() == st.next && history == old(history) + st.calls
              && (st.result.Ok? ==>
                    r == Ok(req) && req.headers == old(req.headers)["Authorization" := BearerHeader(st.result.value.token)])
              && (st.result.Err? ==> r == Err(st.result.error) && req.headers == old(req.headers))
    {
      var token := GetToken();
      match token {
        case Ok(t) =>
          req.headers := req.headers["Authorization" := BearerHeader(t.token)];
          r := Ok(req);
        case Err(e) =>
          r := Err(e);
      }
    }
  }

  /** The request object `__call__` receives; only its header dictionary is modelled. */
  class OutgoingRequest {
    var headers: map<string, string>

    constructor (headers: map<string, string>)
      ensures this.headers == headers
    {
      this.headers := headers;
    }
  }
}
