/** Extraction of a bearer credential from the value of an `Authorization` header
    (`ShieldMiddleware.GetToken` in module.go). Go strings are byte strings, so a header
    value is a sequence of bytes; an absent header reads as the empty value. */
module Bearer {

  newtype uint8 = x: int | 0 <= x < 256

  type Bytes = seq<uint8>

  /** "BEARER", the upper-cased scheme the first six bytes are compared with. */
  const Scheme: Bytes := [66, 69, 65, 82, 69, 82]

  /** "bearer", the lower-case spelling of the same scheme. */
  const SchemeLower: Bytes := [98, 101, 97, 114, 101, 114]

  /** ASCII upper-casing of one byte: `a`..`z` become `A`..`Z`, every other byte is kept. */
  function ToUpper(b: uint8): uint8 {
    if 97 <= b <= 122 then b - 32 else b
  }

  /** Upper-casing of a whole byte string, byte by byte. */
  function UpperAll(s: Bytes): Bytes {
    seq(|s|, i requires 0 <= i < |s| => ToUpper(s[i]))
  }

  /** A six-byte spelling of the scheme in any mix of cases: every position holds the
      upper- or the lower-case letter of "bearer". Stated without upper-casing, as the
      reference the folding comparison is checked against. */
  predicate IsSchemeSpelling(p: Bytes) {
    |p| == 6 && forall i :: 0 <= i < 6 ==> p[i] == Scheme[i] || p[i] == SchemeLower[i]
  }

  /** The header starts with some spelling of the scheme. */
  predicate HasBearerScheme(header: Bytes) {
    |header| >= 6 && IsSchemeSpelling(header[..6])
  }

  /** Upper-casing the first six bytes gives "BEARER" exactly when they spell the scheme
      in some mix of cases. */
  lemma SchemeFoldingAgrees(header: Bytes)
    requires |header| >= 6
    ensures UpperAll(header[..6]) == Scheme <==> HasBearerScheme(header)
  {
    var u := UpperAll(header[..6]);
    if u == Scheme {
      forall i | 0 <= i < 6
        ensures header[i] == Scheme[i] || header[i] == SchemeLower[i]
      {
        assert ToUpper(header[..6][i]) == Scheme[i];
      }
    }
    if HasBearerScheme(header) {
      forall i | 0 <= i < 6
        ensures u[i] == Scheme[i]
      {
        assert header[..6][i] == Scheme[i] || header[..6][i] == SchemeLower[i];
      }
    }
  }

  /** The token of a header value: the bytes after index 7 when the value is longer than
      seven bytes and its first six bytes upper-case to "BEARER"; the empty string
      otherwise. Byte 6 (where "Bearer <token>" has its space) is dropped unread. */
  function GetToken(header: Bytes): (token: Bytes)
    ensures |header| <= 7 ==> token == []
    ensures token != [] <==> |header| > 7 && HasBearerScheme(header)
    ensures token != [] ==> token == header[7..] && |token| == |header| - 7
  {
    if |header| > 7 then
      SchemeFoldingAgrees(header);
      if UpperAll(header[..6]) == Scheme then header[7..] else []
    else []
  }

  /** Round trip: a header built from any spelling of the scheme, any separator byte and
      a non-empty token gives that token back. */
  lemma TokenRoundTrip(scheme: Bytes, separator: uint8, token: Bytes)
    requires IsSchemeSpelling(scheme)
    requires token != []
    ensures GetToken(scheme + [separator] + token) == token
  {
    var header := scheme + [separator] + token;
    assert header[..6] == scheme;
    assert header[7..] == token;
  }

  /** The scheme comparison ignores case: headers that differ only in how the scheme
      is spelled give the same token. */
  lemma SchemeCaseIgnored(p: Bytes, q: Bytes, rest: Bytes)
    requires IsSchemeSpelling(p) && IsSchemeSpelling(q)
    ensures GetToken(p + rest) == GetToken(q + rest)
  {
    assert (p + rest)[..6] == p;
    assert (q + rest)[..6] == q;
    if |rest| > 1 {
      assert (p + rest)[7..] == rest[1..] == (q + rest)[7..];
    }
  }

  /** Byte 6 is never inspected: overwriting it never changes the token. */
  lemma SeparatorNotInspected(header: Bytes, b: uint8)
    requires |header| >= 7
    ensures GetToken(header[6 := b]) == GetToken(header)
  {
    var h' := header[6 := b];
    assert h'[..6] == header[..6];
    assert h'[7..] == header[7..];
  }
}
