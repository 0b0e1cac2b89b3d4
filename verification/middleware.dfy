/** The request gate of `ShieldMiddleware.ServeHTTP` (module.go): the bearer token of the
    request is handed to the authenticator; a refusal answers 401 and stops the chain, an
    acceptance proxies the request to one fixed upstream. The authenticator (`*auth`) is
    not part of this model and appears as a predicate on the token. */
module Middleware {
  import opened Bearer
  import opened Upstreams

  /** The only upstream authenticated requests are proxied to. */
  const ProxyDial: string := "localhost:6969"

  const StatusUnauthorized: int := 401

  /** What the middleware does with a request: answer with a status and stop, or hand the
      request to a reverse proxy over the given upstream pool. */
  datatype Outcome = Reject(status: int) | Proxy(pool: seq<Upstream>)

  /** The gate decision for a request whose `Authorization` header value is
      `authorization`. */
  function ServeHttp(authorization: Bytes, authenticated: Bytes -> bool): (r: Outcome)
    ensures r.Reject? <==> !authenticated(GetToken(authorization))
    ensures r.Reject? ==> r.status == StatusUnauthorized
    ensures r.Proxy? ==> |r.pool| == 1 && r.pool[0].dial == ProxyDial
  {
    if !authenticated(GetToken(authorization)) then Reject(StatusUnauthorized)
    else Proxy([Upstream(ProxyDial)])
  }

  /** A header with no well-formed bearer credential is handled exactly like a request
      with no `Authorization` header: the authenticator is asked about the empty token. */
  lemma MalformedHeaderActsAsAbsent(authorization: Bytes, authenticated: Bytes -> bool)
    requires |authorization| <= 7 || !HasBearerScheme(authorization)
    ensures ServeHttp(authorization, authenticated) == ServeHttp([], authenticated)
  {
  }

  /** Fail-closed: when the authenticator refuses the empty token, every request without
      a well-formed bearer credential is rejected with 401 and never proxied. */
  lemma MissingCredentialRejected(authorization: Bytes, authenticated: Bytes -> bool)
    requires |authorization| <= 7 || !HasBearerScheme(authorization)
    requires !authenticated([])
    ensures ServeHttp(authorization, authenticated) == Reject(401)
  {
  }

  /** Whether a request is proxied depends on the header only through its token: two
      headers carrying the same credential are gated identically. */
  lemma GateDependsOnTokenOnly(h1: Bytes, h2: Bytes, authenticated: Bytes -> bool)
    requires GetToken(h1) == GetToken(h2)
    ensures ServeHttp(h1, authenticated) == ServeHttp(h2, authenticated)
  {
  }
}
