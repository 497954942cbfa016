# qpay token store, modelled in Dafny

This project models the token lifecycle of the qpay Python client: the class `QPayAuth` in
`qpay/auth.py`. It is a `requests` auth hook. It keeps an optional access token and an
optional refresh token, each with an absolute expiry. Before each authenticated request it
hands out the stored access token if that token is still unexpired. Otherwise it renews the
pair through the provider's `auth/refresh` endpoint, using the refresh token as a bearer
credential, or through `auth/token` with basic credentials. One HTTP 401 answer while a
refresh token is present triggers a single retry with basic credentials.

The model abstracts the clock and the network. The clock is a function `Clock` from reading
number to time in whole seconds. Reading k is the k-th call of `_timestamp` over the
object's life, so an injected `now` callable and the wall clock are the same abstraction.
The provider is a function `Server` from request number and request to response. A response
is `Reply(status, body)` or `ConnectionFailed`.

Files:

- `wrappers.dfy`: `Option` and `Result`.
- `tokens.dfy` (module `Tokens`): the token records, requests, responses, the error
  datatype, the strict freshness test `Unexpired`, and the bearer header.
- `exchange.dfy` (module `Exchange`): `_fetch_token` as the recursive function
  `FetchToken`, together with its lemmas. It returns the outcome and the requests it sent,
  in order.
- `auth.dfy` (module `Auth`): `GetTokenStep`, the pure meaning of one `_get_token`, and the
  lemmas about it. It also holds the class `QPayAuth`, whose fields mirror the Python
  object's fields. `GetToken` and `Call` are proved to follow `GetTokenStep`; `Timestamp`
  is proved to return the next clock reading. A ghost `history` records every request sent.
  The object invariant `Valid` says that the two tokens are stored together or not at all.
- `scenario.dfy` (module `Scenario`): the token, refresh, token scenario of
  `tests/test_auth.py`. It is stated on the pure steps and replayed by a verified method on
  an object.

## Where the model follows the code rather than the intended design

- The 401 retry condition (`qpay/auth.py:76`) only checks that a refresh-token argument was
  passed. It does not check which endpoint answered. With an expired refresh token the token
  endpoint answers. If it says 401, the same basic-credential request is sent a second time
  (`Exchange.ExpiredRefreshStillRetries`). The retry evidently exists to recover from a
  refresh token the provider no longer accepts. When basic credentials were the ones
  rejected, repeating them gains nothing.
- The retry calls `_fetch_token()`, which reads the clock again. The fallback pair's expiries
  are therefore offsets from that second reading (`Exchange.ExpiryArithmetic`). Within one
  attempt, both expiries use the same reading.
- A successful body that lacks a field raises `KeyError` for the first missing key, in the
  order `access_token`, `expires_in`, `refresh_token`, `refresh_expires_in`. It is not
  converted into `QPayException`.
- The code does not guarantee that a renewed token is unexpired when it is returned. A
  provider lifetime of zero or less, or a clock that runs backwards, yields a stale token.
  `Auth.ReturnedTokenUnexpired` proves freshness only under those two assumptions.
- Both freshness checks use strict `expires > now`.

## Model

| member | source | states |
|---|---|---|
| `Tokens.BearerHeader` | qpay/auth.py:96 | the header value is `Bearer ` followed by exactly the token |
| `Exchange.ChooseRequest` | qpay/auth.py:52-62 | the refresh endpoint is chosen iff a refresh token was passed and expires strictly after `now`; that request carries the refresh token as bearer credential; otherwise the token endpoint is chosen, with basic username/password credentials |
| `Exchange.ParsePair` | qpay/auth.py:64-73 | the body yields a pair iff all four fields are present; the access expiry is `now + expires_in` and the refresh expiry is `now + refresh_expires_in`; otherwise it raises KeyError naming the first missing field in reading order |
| `Exchange.FetchToken` | qpay/auth.py:47-80 | one exchange sends one or two requests; the first is the one `ChooseRequest` picks at the attempt's clock reading; a second is sent iff the first got an HTTP 401 while a refresh token was passed; the second is always a basic-credential token request |
| `Exchange.ExpiryArithmetic` | qpay/auth.py:51-73 | a successful exchange built its pair from the non-error response to its last request; both expiries are offsets from the single clock reading of that attempt |
| `Exchange.ErrorPropagation` | qpay/auth.py:74-80 | the exchange ends in ConnectionError iff the last request could not reach the provider; it ends in QPayException(s) iff the last response was an HTTP error with status s that is not retried; it ends in KeyError iff the last response was not an error but lacked a field |
| `Exchange.RefreshRejectedFallsBack` | qpay/auth.py:74-77 | a 401 from the refresh endpoint leads to exactly one basic-credential token request; the exchange ends as that fresh exchange does, and the fallback makes a single request |
| `Exchange.SecondRejectionPropagates` | qpay/auth.py:74-80 | a 401 on the fallback token request is raised as QPayException(401) after exactly two requests |
| `Exchange.ExpiredRefreshStillRetries` | qpay/auth.py:57-77 | with a refresh token already expired, a 401 from the token endpoint makes the exchange ask the token endpoint a second time |
| `Auth.GetTokenStep` | qpay/auth.py:82-92 | one `_get_token` keeps the two tokens stored together or not at all, stores the token it returns, and uses one clock reading per request plus the cache check; the lemmas below give the rest of its meaning |
| `Auth.CacheHitIsSilent` | qpay/auth.py:84-87 | `_get_token` sends no request iff the stored access token is unexpired at its clock reading; then it returns that token and changes nothing but the clock count |
| `Auth.PairReplacement` | qpay/auth.py:89-92 | after a successful renewal, both stored tokens come from the same exchange; the returned token is the newly stored access token |
| `Auth.ErrorKeepsTokens` | qpay/auth.py:78-91 | `_get_token` raises only after a renewal, and it raises exactly the exchange's error (see `Exchange.ErrorPropagation`) after sending exactly the exchange's requests; both stored tokens are left as they were |
| `Auth.SerializedCallers` | qpay/auth.py:83-92 | of two calls in a row, the second sends nothing and returns the same token when the first stored a token still unexpired at the second's reading; when the first raised and no usable token was stored, the second runs its own exchange |
| `Auth.AtMostTwoRequests` | qpay/auth.py:74-92 | one `_get_token` sends at most two requests; it sends a second only while a refresh token is stored, and the second is a token request; the clock and request counts advance accordingly |
| `Auth.RenewalBranch` | qpay/auth.py:52-62 | a renewal's first request goes to the refresh endpoint, with the stored refresh token as bearer, iff a refresh token is stored and unexpired at the exchange's reading; otherwise it is a basic-credential token request |
| `Auth.ExpiringNowIsStale` | qpay/auth.py:57-86 | an access token expiring exactly at the check is renewed; a refresh token expiring exactly at the exchange's reading is not used |
| `Auth.ReturnedTokenUnexpired` | qpay/auth.py:82-92 | with a clock that does not run backwards and positive provider lifetimes, a returned token expires strictly after the cache check's reading |
| `Auth.QPayAuth.constructor` | qpay/auth.py:26-39 | a new object stores no tokens, has read no clock and has sent no request |
| `Auth.QPayAuth.Timestamp` | qpay/auth.py:41-45 | returns the next clock reading and counts it |
| `Auth.QPayAuth.GetToken` | qpay/auth.py:82-92 | the result, the new tokens and counters, and the requests appended to the history are those of `GetTokenStep` on the old state |
| `Auth.QPayAuth.Call` | qpay/auth.py:94-97 | on success, sets the request's `Authorization` header to `Bearer <token>`, changes no other header and returns the same request; on error the headers are unchanged; the store changes as in `GetToken` |
| `Scenario.TokenRefreshTokenScenario` | tests/test_auth.py:14-71 | with lifetimes of 10 s and 50 s and calls at T0, T0+40 s and T0+30 min, the returned tokens are A expiring at T0+10, then A2 expiring at T0+50, then A expiring at T0+1810; each following `__call__` is a cache hit; the provider sees token, refresh, token |
| `Scenario.RunScenario` | tests/test_auth.py:40-71 | the same scenario on an object leaves the history token, refresh, token and the request's header `Bearer DUMMY_ACCESS_TOKEN` |

## Left out

- `threading.Lock` (qpay/auth.py:35, 83): `GetToken` is modelled as a sequential method. The
  lock covers the freshness check, the exchange and the store update, so concurrent callers
  run one after another, as `Auth.SerializedCallers` describes for two of them. A caller
  that waited sends no request only if the renewal before it succeeded and its token is
  still unexpired at that caller's own clock reading. After a failed renewal nothing is
  stored, so each waiting caller runs its own exchange. A lifetime of zero or less also
  makes the next caller renew again. Mutual exclusion itself is not stated in Dafny.
- `qpay/singleton.py` (double-checked lazy construction under a lock): concurrency only.
- `qpay/main.py`: the `requests.Session` wrapper, the pydantic invoice and payment records,
  and `Decimal` serialisation are library glue with no behaviour of their own.
- `qpay/exceptions.py`: only the HTTP status of `QPayException` is kept. Its message (the
  error body) and its request and response objects are not modelled.
- The host string and `urljoin` (qpay/auth.py:36, 54, 59): endpoints are the tags
  `TokenEndpoint` and `RefreshEndpoint`.
- The base64 encoding of the basic `Authorization` header: credentials stay as the pair
  `Basic(username, password)`.
- `datetime` and `timedelta`: times are whole seconds; fractional lifetimes are not modelled.
- Expiry overflow (qpay/auth.py:67, 71): `timedelta(seconds=...)` and `now + timedelta` raise
  `OverflowError` for huge or very negative lifetimes. The error propagates and the stored
  tokens stay unchanged. In the model expiries are unbounded integers, so such an exchange
  succeeds with an out-of-range expiry instead.
- Case-insensitive headers (qpay/auth.py:96): `requests` hands the hook a request whose
  header dictionary ignores case, so setting `Authorization` replaces an existing
  `authorization` entry. The model's headers are a plain `map<string, string>`, in which
  differently cased keys stay separate entries.
- Blocking and timeouts (qpay/auth.py:53, 58): `requests.post` is called without a timeout
  and can block forever, holding the lock. A `Server` always answers, so the model does not
  capture a request that never returns.
- JSON decoding: a body is the four fields the exchange reads, each present or absent. A
  non-JSON body, wrongly typed fields, and the `JSONDecodeError` of `exc.response.json()`
  at qpay/auth.py:79 are not modelled. Extra fields such as `token_type` are ignored.
- Exceptions raised by an injected `now` callable are not modelled.
- Redirects and other transport details: a response is the final status and body.
- Logging (`logger.exception`).
