/** The values the token store works with (qpay/auth.py): the two token records, the
    requests sent to the provider's auth endpoints, the provider's answers, the errors an
    exchange can raise, and the two oracles that stand for the clock and the provider. */
module Tokens {
  import opened Wrappers

  /** Time in whole seconds. `datetime` and `timedelta` become integers. */
  type Time = int

  /** `AccessToken` (auth.py:15-17): an opaque value and its absolute expiry. */
  datatype AccessToken = AccessToken(token: string, expires: Time)

  /** `RefreshToken` (auth.py:20-22). */
  datatype RefreshToken = RefreshToken(token: string, expires: Time)

  /** The pair one successful exchange produces (the tuple returned at auth.py:73). */
  datatype TokenPair = TokenPair(access: AccessToken, refresh: RefreshToken)

  /** Both freshness checks of the source compare with a strict `expires > now`
      (auth.py:57 and auth.py:86): a token expiring exactly at `now` is stale. */
  predicate Unexpired(expires: Time, now: Time)
  {
    expires > now
  }

  /** The two endpoints under `<host>/auth/`. */
  datatype Endpoint = TokenEndpoint | RefreshEndpoint

  /** How a request authenticates: HTTP basic auth with the username and password, or an
      `Authorization: Bearer <token>` header. */
  datatype Credential = Basic(username: string, password: string) | Bearer(token: string)

  /** One `requests.post` of the exchange. */
  datatype Request = Post(endpoint: Endpoint, credential: Credential)

  /** The value of an `Authorization` header that carries `token` as a bearer credential;
      used for the refresh call (auth.py:55) and for authenticated requests (auth.py:96). */
  function BearerHeader(token: string): (h: string)
    ensures |h| == |token| + 7 && h[..7] == "Bearer " && h[7..] == token
  {
    "Bearer " + token
  }

  /** The four fields the exchange reads from a JSON body; a field the body lacks is None. */
  datatype Body = Body(
    accessToken: Option<string>,
    expiresIn: Option<int>,
    refreshToken: Option<string>,
    refreshExpiresIn: Option<int>)

  /** The provider's answer to one request: a response with a status code and a body, or a
      failure to reach the provider at all (`requests.ConnectionError` and its kin). */
  datatype Response = Reply(status: int, body: Body) | ConnectionFailed

  /** The keys of a token response body, in the order auth.py:66-71 reads them:
      "access_token", "expires_in", "refresh_token" and "refresh_expires_in". */
  datatype Key = AccessTokenKey | ExpiresInKey | RefreshTokenKey | RefreshExpiresInKey

  const ReadOrder: seq<Key> := [AccessTokenKey, ExpiresInKey, RefreshTokenKey, RefreshExpiresInKey]

  predicate Present(body: Body, key: Key)
  {
    match key
    case AccessTokenKey => body.accessToken.Some?
    case ExpiresInKey => body.expiresIn.Some?
    case RefreshTokenKey => body.refreshToken.Some?
    case RefreshExpiresInKey => body.refreshExpiresIn.Some?
  }

  /** What an exchange can raise.
      - QPayException: an HTTP error response that is not retried (auth.py:78-80); the
        exception's message is the error body, of which the model keeps the status.
      - KeyError: a non-error response whose body lacks a field (auth.py:66-71); it is not
        wrapped into a QPayException.
      - ConnectionError: the provider could not be reached; `requests` raises it and the
        exchange lets it through unchanged. */
  datatype AuthError = QPayException(status: int) | KeyError(key: Key) | ConnectionError

  /** The clock: reading number k (counted over the whole life of one QPayAuth object)
      returns the time `Clock(k)`. It stands for the injected `now` callable or, when none
      was given, the wall clock (auth.py:41-45). */
  type Clock = nat -> Time

  /** The provider: its answer to the n-th request the object sends (counted from 0). */
  type Server = (nat, Request) -> Response
}
