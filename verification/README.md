# caddy-shield gate logic in Dafny

A model of the decision logic of the `shield` Caddy middleware: the extraction of a
bearer token from the `Authorization` header, the 401-or-proxy gate of `ServeHTTP`, the
single-slot JWKS cache with its millisecond freshness window, the fail-closed verdict
chain of the SuperTokens authenticator, and the mapping of the directory service's
`{"upstreams": [...]}` answer to reverse-proxy upstreams.

Modules (one per source file, plus shared wrappers):

- `Outcomes` (outcomes.dfy): `Option` and `Result`, for nil pointers and `(value, error)` pairs.
- `Bearer` (bearer.dfy): `GetToken` over byte strings with ASCII upper-casing.
- `Middleware` (middleware.dfy): the `ServeHTTP` gate, with the authenticator as a predicate on the token.
- `JwksCache` (jwks_cache.dfy): `getJWKSFromCacheIfPresent` and `getJWKS` as a state machine
  `GetJwks(cache, now, fetchOutcome, doneAt) -> Step(cache', result, fetched)`, and sequential runs of it.
- `Auth` (auth.dfy): `AuthenticatorSuperTokens`, with its constructor, cookie lookup and the verdict chain.
- `Upstreams` (upstreams.dfy): `do`, `UpstreamsFromHostname` and the order-preserving mapping.

Oracles and parameters: the clock is two integer-millisecond parameters per `getJWKS` call.
`now` is the reading inside the freshness check (supertokens.go:17). `doneAt` is the reading
stored as `LastFetched` after the fetch (supertokens.go:52). `keyfunc.Get` is a
`Result<K, FetchError>` parameter, with `K` the key set. `jwt.Parse` is a function from the
token and the key set to a `Parsed` outcome. The HTTP exchange of `do` is a
`Result<Response, TransportError>`, and the JSON decoding is a `Result<seq<string>, DecodeError>`
inside the response. The `*auth` authenticator that `ServeHTTP` calls is a predicate on the token.

Upper-casing: Go's `strings.ToUpper` is Unicode-aware. The model folds ASCII letters only.
This gives the same answer to "do the first six bytes upper-case to `BEARER`?". The only
non-ASCII characters that upper-case to ASCII letters become `I` and `S`, and neither
letter occurs in `BEARER`.

## Model

| member | source | states |
|---|---|---|
| Bearer.GetToken | module.go:87-93 | A header of at most 7 bytes gives the empty token. The token is non-empty exactly when the header is longer than 7 bytes and starts with "bearer" in any mix of cases (checked against a per-byte spelling predicate, not against upper-casing). A non-empty token is the header from byte 7 on, of length `len - 7 >= 1`. |
| Bearer.SchemeFoldingAgrees | module.go:89 | Upper-casing the first six bytes gives `BEARER` iff every byte is the upper- or lower-case letter of "bearer" at that position. |
| Bearer.TokenRoundTrip | module.go:89-90 | A header built from any case spelling of the scheme, any byte at index 6 and a non-empty token gives that token back. |
| Bearer.SchemeCaseIgnored | module.go:89 | `bearer`, `BeArEr` and `BEARER` prefixes give the same result for the same remainder. |
| Bearer.SeparatorNotInspected | module.go:89-90 | Overwriting byte 6 of a header of 7 or more bytes never changes the token. |
| Middleware.ServeHttp | module.go:70-85 | The request is rejected iff the authenticator refuses its token. A rejection carries status 401 and proxies nothing. An acceptance proxies to exactly one upstream, `localhost:6969`. |
| Middleware.MalformedHeaderActsAsAbsent | module.go:71-72 | A header with no well-formed bearer credential is gated like an absent header: the authenticator is asked about the empty token. |
| Middleware.MissingCredentialRejected | module.go:71-74 | If the authenticator refuses the empty token, every request without a well-formed bearer credential gets 401 and is not proxied. |
| Middleware.GateDependsOnTokenOnly | module.go:71-72 | Two headers that carry the same token are gated identically. |
| JwksCache.CachedIfFresh | supertokens.go:11-30 | An empty slot gives nothing. The entry is returned iff the slot is occupied and `now - lastFetched < maxAge`, and what is returned is the slot's entry. |
| JwksCache.Refresh | supertokens.go:38-56 | The write-locked part always fetches and keeps the max age. A failed fetch returns the error and leaves the cache unchanged. A successful fetch stores `(jwks, doneAt)` and returns that same key set. |
| JwksCache.GetJwks | supertokens.go:32-57 | A fetch happens iff the slot is empty or stale at `now`. A fresh hit returns the cached key set and leaves the cache unchanged. Otherwise the call is exactly one `Refresh`. |
| JwksCache.StaleAtMaxAge | supertokens.go:24 | An entry exactly `maxAge` old is stale, and the call that sees it fetches. |
| JwksCache.HitAfterRefresh | supertokens.go:24-25 | After a successful fetch stamped `doneAt`, a call at any `t` with `t - doneAt < maxAge` does not fetch and returns the fetched key set. |
| JwksCache.NoRecheckUnderWriteLock | supertokens.go:32-55 | Two callers that both found the entry stale at `now` each fetch once. After the first stores its key set, that entry is fresh at the second caller's time `t`, and a call checking at `t` would be a hit. The second caller still fetches and overwrites the entry. There is no single-flight. |
| JwksCache.Run | supertokens.go:32-57 | A run of sequential calls returns one result per call. It fetches at most once per call and never changes the max age. |
| JwksCache.QuietWindow | supertokens.go:24-25 | Across any run whose calls all fall inside the cached entry's freshness window, nothing is fetched and the cache is unchanged. Every call returns the cached key set. |
| JwksCache.FailuresAlwaysRefetch | supertokens.go:45-47 | From an empty slot, when every fetch fails, every call fetches and returns its error, and the slot stays empty. Failures are not cached. |
| JwksCache.SlotFromFetch | supertokens.go:49-55 | After any run the slot is either the initial one or the key set of a call that found the slot empty or stale, and so called the fetcher, and whose fetch succeeded. That key set is stamped with the call's post-fetch time. |
| Auth.NewAuthenticator | auth.go:25-34 | A new authenticator reads the `sAccessToken` cookie and starts with an empty cache of max age 60000 ms. |
| Auth.FindCookie | auth.go:37 | The lookup finds nothing iff no cookie has the name. Otherwise it returns the value of the first cookie with that name. |
| Auth.Authenticated | auth.go:36-67 | A missing cookie rejects with no lookup, no fetch and no state change. The cookie key and URL are kept. With a cookie, the key set is obtained by exactly one `getJWKS` call. The authenticator afterwards carries that call's cache, and whether it fetched is reported, whatever the verdict. An acceptance means the cookie exists, the cache afterwards holds a key set, and the token parses, is valid and has object claims under that cached key set. |
| Auth.VerdictIsConjunction | auth.go:36-67 | The verdict is true iff the cookie is present, the key set is obtained, and the parse is error-free, valid and has object claims. |
| Auth.NoCookieNoFetch | auth.go:37-40 | Without the session cookie the result is false, nothing is fetched and the authenticator is unchanged. |
| Auth.FetchErrorRejects | auth.go:42-46 | When the key set must be fetched and the fetch fails, the result is false and the cache is unchanged. |
| Auth.ClaimsContentIgnored | auth.go:56-66 | The contents of object claims, including the empty object, never change the verdict or the cache. |
| Auth.FirstCallFetches | auth.go:30-31 | A new authenticator fetches on its first call with a cookie. After a success, a call within 60000 ms of the fetch is served from the cache with the fetched key set. |
| Upstreams.Do | upstreams.go:36-48 | `do` never returns an error. Its response is nil exactly when the transport failed. Otherwise it is the transport's response. |
| Upstreams.BuildUpstreams | upstreams.go:65-71 | The output has one upstream per input string, in input order, with `out[i].Dial == in[i]`. Reading the dials back gives the input. |
| Upstreams.HandleDoResult | upstreams.go:57-71 | A returned error is passed on. A nil response is dereferenced. A decode error is returned. A decoded list becomes upstreams whose dials are that list. |
| Upstreams.UpstreamsFromHostname | upstreams.go:54-72 | A transport failure ends in a nil dereference and is never returned as an error. A decode failure returns that error. A decoded list, empty or absent included, gives a non-error result whose dials are the list in order. |
| Upstreams.DoCorrected | upstreams.go:43-44 | The corrected `do` returns a response exactly when it returns no error, and a transport failure becomes the returned error. |
| Upstreams.UpstreamsFromHostnameCorrected | upstreams.go:54-72 | Over the corrected `do` no outcome is a nil dereference, and a transport failure is the returned error. The decode and mapping cases are as in the as-written method. |

## Behaviour worth noting

- Scheme check: `GetToken` reads only the first six bytes and drops byte 6 unread, so `BearerXabc` yields `abc` (`Bearer.SeparatorNotInspected`).
- Claims: any object-shaped claim set is accepted, including `{}`. The copy into `claimsMap` never influences the result (`Auth.ClaimsContentIgnored`).
- Refresh: `getJWKS` fetches unconditionally once it holds the write lock. Concurrent callers that all found the entry stale each fetch once (`JwksCache.NoRecheckUnderWriteLock`).
- Gate: `ServeHTTP` answers 401 to unauthenticated requests and proxies authenticated ones to the fixed address `localhost:6969`. It has no fallback upstream. No caller of `UpstreamsFromHostname` appears in module.go, auth.go, supertokens.go, db.go or caddyfile.go.
- Lookup errors: `do` swallows transport failures (see Findings).
- Response body: the decode result in `Response` is unconstrained. It therefore also covers an HTTP client that has already read and closed the raw response body before `UpstreamsFromHostname` decodes it. In that case only the decode-error outcome occurs.

## Left out

- Locking: the `sync.RWMutex` in supertokens.go is not modelled. Calls are sequential, except that `NoRecheckUnderWriteLock` models the one interleaving the missing re-check permits.
- Clock arithmetic: `time.Now().UnixNano() / int64(time.Millisecond)` and the `int64` subtraction are modelled as unbounded integers. Millisecond timestamps are far from `int64` overflow.
- Key sets: `keyfunc.Get`, `jwt.Parse`, the key function and signature checking are oracles. The `RefreshUnknownKID` option is inside `keyfunc` and not modelled.
- Claims copy: the copy of the claims into `claimsMap` (auth.go:61-65) has no effect on the result and is not modelled beyond `Auth.ClaimsContentIgnored`.
- Logging: the logger is not modelled.
- Cookies: request cookies are given already parsed. The parsing of `Cookie` headers inside `Request.Cookie` is not modelled.
- HTTP and JSON: the resty request (basic auth, `host` query parameter, request URL) and `encoding/json` decoding are oracles. The `ctx` and `host` arguments therefore do not appear.
- Header lookup: `Header.Get("Authorization")` is a parameter, and an absent header is the empty value.
- The `*auth` authenticator called by `ServeHTTP` (`NewAuth`) is not part of this model. It is a predicate on the token.
- `Provision`, `Validate`, `Cleanup`, `CaddyModule`, the usage pool and module registration (module.go) are framework plumbing. The database of db.go and the Caddyfile directive of caddyfile.go are not part of this model.
- Proxying: the reverse proxy's own forwarding (`rp.ServeHTTP`) is not modelled. The model stops at the upstream pool it is built with.

## Findings

| source | as written | input that shows it | evidently intended | confidence | as-written member | corrected member |
|---|---|---|---|---|---|---|
| upstreams.go:43-62 | `do` returns `(nil, nil)` when the request fails, so `UpstreamsFromHostname` skips its error check and reads `resp.Body` from a nil response | any transport failure, such as the directory service being unreachable | `do` returns the transport error, and `UpstreamsFromHostname` returns `(nil, err)` | high; not executed | Upstreams.UpstreamsFromHostname | Upstreams.UpstreamsFromHostnameCorrected |
