/** `AuthenticatorSuperTokens` of auth.go: the session cookie of a request is checked
    against the key set supplied by the cache of supertokens.go. Token parsing and
    signature checking (`jwt.Parse` with the key set's key function) are an oracle from
    the token and the key set to a parse outcome. */
module Auth {
  import opened Outcomes
  import opened JwksCache

  /** The name of the cookie that carries the access token. */
  const SessionCookie: string := "sAccessToken"

  /** The authenticator's state: the cookie it reads, its key-set cache and the URL the
      key set is fetched from. */
  datatype Authenticator<K> = Authenticator(cookieKey: string, cache: Cache<K>, coreUrl: string)

  /** A cookie of the request, as already parsed from its `Cookie` headers. */
  datatype Cookie = Cookie(name: string, value: string)

  /** The claims of a parsed token: a JSON object (claim name to the claim's JSON text),
      or claims of some other shape. */
  datatype Claims = MapClaims(entries: map<string, string>) | OtherClaims

  /** What `jwt.Parse` gives: an error, or a token with its validity flag and claims. */
  datatype Parsed = ParseError | Token(valid: bool, claims: Claims)

  /** One call of `Authenticated`: the authenticator after it (its cache may have been
      refreshed), the verdict, and whether the key set was fetched. */
  datatype Verdict<K> = Verdict(authenticator: Authenticator<K>, authenticated: bool, fetched: bool)

  /** `NewAuthenticatorSuperTokens`: reads the `sAccessToken` cookie, starts with an empty
      cache whose entries stay fresh for 60000 ms. */
  function NewAuthenticator<K>(coreUrl: string): (a: Authenticator<K>)
    ensures a.cookieKey == SessionCookie && a.coreUrl == coreUrl
    ensures a.cache.slot.None? && a.cache.maxAgeMillis == DefaultMaxAgeMillis
  {
    Authenticator(SessionCookie, Cache(None, DefaultMaxAgeMillis), coreUrl)
  }

  /** `Request.Cookie`: the value of the first cookie with the given name, if any. */
  function FindCookie(cookies: seq<Cookie>, name: string): (r: Option<string>)
    ensures r.None? <==> forall i :: 0 <= i < |cookies| ==> cookies[i].name != name
    ensures r.Some? ==> exists i :: 0 <= i < |cookies| && cookies[i] == Cookie(name, r.value) &&
                                    forall j :: 0 <= j < i ==> cookies[j].name != name
    decreases |cookies|
  {
    if cookies == [] then None
    else if cookies[0].name == name then Some(cookies[0].value)
    else
      var r := FindCookie(cookies[1..], name);
      if r.Some? then
        ghost var i :| 0 <= i < |cookies[1..]| && cookies[1..][i] == Cookie(name, r.value) &&
                       forall j :: 0 <= j < i ==> cookies[1..][j].name != name;
        assert cookies[i + 1] == Cookie(name, r.value);
        r
      else r
  }

  /** A parse outcome that lets the request through: parsed without error, valid, and with
      object-shaped claims. What the claims contain does not matter. */
  predicate Accepts(p: Parsed) {
    p.Token? && p.valid && p.claims.MapClaims?
  }

  /** `Authenticated`: a missing cookie rejects at once; otherwise the key set is obtained
      through the cache (`getJWKS`, called exactly once, whose effect on the cache stays
      whatever the verdict) and the verdict is whether the token parses, is valid and has
      object claims. Every failure rejects. */
  function Authenticated<K>(a: Authenticator<K>, cookies: seq<Cookie>, now: int,
                            fetch: Result<K, FetchError>, doneAt: int,
                            parse: (string, K) -> Parsed): (v: Verdict<K>)
    ensures FindCookie(cookies, a.cookieKey).None? ==> v == Verdict(a, false, false)
    ensures v.authenticator.cookieKey == a.cookieKey && v.authenticator.coreUrl == a.coreUrl
    ensures FindCookie(cookies, a.cookieKey).Some? ==>
              var s := GetJwks(a.cache, now, fetch, doneAt);
              v.authenticator == a.(cache := s.cache) && v.fetched == s.fetched
    ensures v.authenticated ==>
              && FindCookie(cookies, a.cookieKey).Some?
              && v.authenticator.cache.slot.Some?
              && Accepts(parse(FindCookie(cookies, a.cookieKey).value, v.authenticator.cache.slot.value.jwks))
  {
    match FindCookie(cookies, a.cookieKey)
    case None => Verdict(a, false, false)
    case Some(token) =>
      var s := GetJwks(a.cache, now, fetch, doneAt);
      var a' := a.(cache := s.cache);
      match s.result
      case Err(_) => Verdict(a', false, s.fetched)
      case Ok(jwks) =>
        match parse(token, jwks)
        case ParseError => Verdict(a', false, s.fetched)
        case Token(valid, claims) =>
          if !valid then Verdict(a', false, s.fetched)
          else if !claims.MapClaims? then Verdict(a', false, s.fetched)
          else Verdict(a', true, s.fetched)
  }

  /** The verdict is the conjunction of the stages, each failing closed: a session cookie
      is present, the key set is obtained, and the token parses, is valid and has object
      claims under that key set. */
  lemma VerdictIsConjunction<K>(a: Authenticator<K>, cookies: seq<Cookie>, now: int,
                                fetch: Result<K, FetchError>, doneAt: int,
                                parse: (string, K) -> Parsed)
    ensures var v := Authenticated(a, cookies, now, fetch, doneAt, parse);
            var cookie := FindCookie(cookies, a.cookieKey);
            var s := GetJwks(a.cache, now, fetch, doneAt);
            v.authenticated <==> cookie.Some? && s.result.Ok? && Accepts(parse(cookie.value, s.result.value))
  {
  }

  /** Without a session cookie the key set is neither looked up nor fetched, and the
      request is rejected whatever else it carries. */
  lemma NoCookieNoFetch<K>(a: Authenticator<K>, cookies: seq<Cookie>, now: int,
                           fetch: Result<K, FetchError>, doneAt: int,
                           parse: (string, K) -> Parsed)
    requires forall i :: 0 <= i < |cookies| ==> cookies[i].name != a.cookieKey
    ensures var v := Authenticated(a, cookies, now, fetch, doneAt, parse);
            !v.authenticated && !v.fetched && v.authenticator == a
  {
  }

  /** A failed key-set fetch rejects the request and leaves the cache as it was. */
  lemma FetchErrorRejects<K>(a: Authenticator<K>, cookies: seq<Cookie>, now: int,
                             e: FetchError, doneAt: int, parse: (string, K) -> Parsed)
    requires FindCookie(cookies, a.cookieKey).Some?
    requires a.cache.slot.None? || !Fresh(a.cache.slot.value, now, a.cache.maxAgeMillis)
    ensures var v := Authenticated(a, cookies, now, Err(e), doneAt, parse);
            !v.authenticated && v.fetched && v.authenticator == a
  {
  }

  /** The contents of object claims never matter, the empty object included: swapping
      one claims object for another gives the same verdict and the same cache. */
  lemma ClaimsContentIgnored<K>(a: Authenticator<K>, cookies: seq<Cookie>, now: int,
                                fetch: Result<K, FetchError>, doneAt: int,
                                parse: (string, K) -> Parsed, parse': (string, K) -> Parsed)
    requires forall t, k :: parse(t, k).Token? && parse(t, k).claims.MapClaims? ==>
               parse'(t, k).Token? && parse'(t, k).valid == parse(t, k).valid && parse'(t, k).claims.MapClaims?
    requires forall t, k :: !(parse(t, k).Token? && parse(t, k).claims.MapClaims?) ==> parse'(t, k) == parse(t, k)
    ensures Authenticated(a, cookies, now, fetch, doneAt, parse) == Authenticated(a, cookies, now, fetch, doneAt, parse')
  {
  }

  /** A fresh authenticator fetches on its first call that carries a session cookie, and a
      success there serves every call of the next 60000 ms from the cache. */
  lemma FirstCallFetches<K>(coreUrl: string, cookies: seq<Cookie>, now: int,
                            jwks: K, doneAt: int, parse: (string, K) -> Parsed,
                            later: int, cookies': seq<Cookie>, fetch': Result<K, FetchError>, doneAt': int)
    requires FindCookie(cookies, SessionCookie).Some?
    requires FindCookie(cookies', SessionCookie).Some?
    requires later - doneAt < 60000
    ensures var v := Authenticated(NewAuthenticator<K>(coreUrl), cookies, now, Ok(jwks), doneAt, parse);
            var v' := Authenticated(v.authenticator, cookies', later, fetch', doneAt', parse);
            v.fetched && !v'.fetched && v'.authenticator == v.authenticator &&
            v'.authenticated == Accepts(parse(FindCookie(cookies', SessionCookie).value, jwks))
  {
  }
}
