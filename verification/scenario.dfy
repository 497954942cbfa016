/** The scenario of tests/test_auth.py:14-71: a provider that always grants an access token
    for 10 s and a refresh token for 50 s, and a clock frozen at T0, then at T0 + 40 s, then
    at T0 + 30 min, with one `_get_token` and one `__call__` at each instant. */
module Scenario {
  import opened Wrappers
  import opened Tokens
  import opened Exchange
  import opened Auth

  const AccessValue := "DUMMY_ACCESS_TOKEN"
  const NewAccessValue := "NEW_DUMMY_ACCESS_TOKEN"
  const RefreshValue := "DUMMY_REFRESH_TOKEN"
  const NewRefreshValue := "NEW_DUMMY_REFRESH_TOKEN"

  /** The mocked provider: the token endpoint and the refresh endpoint each answer with a
      fixed body (test_auth.py:15-33). */
  function MockHost(): Server
  {
    (n: nat, req: Request) =>
      if req.endpoint == TokenEndpoint then
        Reply(200, Body(Some(AccessValue), Some(10), Some(RefreshValue), Some(50)))
      else
        Reply(200, Body(Some(NewAccessValue), Some(10), Some(NewRefreshValue), Some(50)))
  }

  /** Readings 0-2 (`_get_token`, then `__call__` which renews at most once) fall in the first
      block, 3-5 in the second and 6 onwards in the third. */
  function FrozenClock(t0: Time): Clock
  {
    (k: nat) => if k < 3 then t0 else if k < 6 then t0 + 40 else t0 + 1800
  }

  function MockConfig(t0: Time): Config
  {
    Config(MockHost(), "username", "password", FrozenClock(t0))
  }

  /** Token, then refresh, then token: the three `_get_token` calls return the tokens the test
      expects, each `__call__` right after one is a cache hit returning the same token, and
      the provider sees exactly token, refresh, token (test_auth.py:43-71). */
  lemma TokenRefreshTokenScenario(t0: Time)
    ensures var cfg := MockConfig(t0);
            var g1 := GetTokenStep(cfg, Initial);
            var c1 := GetTokenStep(cfg, g1.next);
            var g2 := GetTokenStep(cfg, c1.next);
            var c2 := GetTokenStep(cfg, g2.next);
            var g3 := GetTokenStep(cfg, c2.next);
            var c3 := GetTokenStep(cfg, g3.next);
            && g1.result == Ok(AccessToken(AccessValue, t0 + 10)) && c1.result == g1.result
            && g2.result == Ok(AccessToken(NewAccessValue, t0 + 40 + 10)) && c2.result == g2.result
            && g3.result == Ok(AccessToken(AccessValue, t0 + 1800 + 10)) && c3.result == g3.result
            && g1.calls + c1.calls + g2.calls + c2.calls + g3.calls + c3.calls ==
               [Post(TokenEndpoint, Basic("username", "password")),
                Post(RefreshEndpoint, Bearer(RefreshValue)),
                Post(TokenEndpoint, Basic("username", "password"))]
  {
  }

  /** The same scenario on an object: after the three rounds the request carries the bearer
      header of the last token, and the object's request history is token, refresh, token. */
  method RunScenario(t0: Time) returns (auth: QPayAuth, req: OutgoingRequest)
    ensures auth.history ==
            [Post(TokenEndpoint, Basic("username", "password")),
             Post(RefreshEndpoint, Bearer(RefreshValue)),
             Post(TokenEndpoint, Basic("username", "password"))]
    ensures "Authorization" in req.headers && req.headers["Authorization"] == BearerHeader(AccessValue)
  {
    TokenRefreshTokenScenario(t0);
    ghost var cfg := MockConfig(t0);
    ghost var g1 := GetTokenStep(cfg, Initial);
    ghost var c1 := GetTokenStep(cfg, g1.next);
    ghost var g2 := GetTokenStep(cfg, c1.next);
    ghost var c2 := GetTokenStep(cfg, g2.next);
    ghost var g3 := GetTokenStep(cfg, c2.next);
    ghost var c3 := GetTokenStep(cfg, g3.next);
    auth := new QPayAuth(MockHost(), "username", "password", FrozenClock(t0));
    assert auth.Cfg() == cfg;
    req := new OutgoingRequest(map[]);
    var t := auth.GetToken();
    assert auth.State() == g1.next && auth.history == g1.calls;
    var r := auth.Call(req);
    assert auth.State() == c1.next && auth.history == g1.calls + c1.calls;
    t := auth.GetToken();
    assert auth.State() == g2.next && auth.history == g1.calls + c1.calls + g2.calls;
    r := auth.Call(req);
    assert auth.State() == c2.next && auth.history == g1.calls + c1.calls + g2.calls + c2.calls;
    t := auth.GetToken();
    assert auth.State() == g3.next && auth.history == g1.calls + c1.calls + g2.calls + c2.calls + g3.calls;
    r := auth.Call(req);
    assert c3.result == Ok(AccessToken(AccessValue, t0 + 1810));
  }
}
