/**
 * The authentication gate in front of every protected route: the bearer
 * token is taken from the Authorization header, checked by the JSON Web
 * Token library, and its claims become the caller's identity.
 *
 * Signing and verification belong to the library and are parameters here;
 * `verify` also decides expiry, so it stands for the library at the moment
 * of the request.
 */
module Auth {
  import opened Wrappers
  import Strings
  import opened Records

  /** What a token carries: login signs `{userId, email}` and the gate exposes it as `req.user`. */
  datatype Claims = Claims(userId: ObjectId, email: string)

  const FallbackSecret: string := "your-secret-key"

  /** The lifetime login asks the library to put in every token. */
  const TokenLifetime: string := "24h"

  /**
   * The token library as configured by the environment: `env` is the
   * JWT_SECRET variable, `sign(claims, secret, expiresIn)` makes a token and
   * `verify(token, secret)` gives its claims back, or None when the token is
   * rejected.
   */
  datatype Jwt = Jwt(
    env: Option<string>,
    sign: (Claims, string, string) -> string,
    verify: (string, string) -> Option<Claims>)
  {
    /** `process.env.JWT_SECRET || 'your-secret-key'`: an unset or empty variable falls back. */
    function Secret(): (s: string)
      ensures s != ""
      ensures env.Some? && env.value != "" ==> s == env.value
      ensures env.None? || env.value == "" ==> s == FallbackSecret
    {
      if env.Some? && env.value != "" then env.value else FallbackSecret
    }
  }

  /**
   * `authHeader && authHeader.split(' ')[1]`, with a falsy result (missing
   * header, no second segment, empty second segment) as None.
   */
  function BearerToken(header: Option<string>): (token: Option<string>)
    ensures header.None? ==> token.None?
    ensures token.Some? ==> token.value != "" && ' ' !in token.value
  {
    match header
    case None => None
    case Some(h) =>
      if h == "" then None
      else
        var parts := Strings.Split(h, ' ');
        if |parts| < 2 || parts[1] == "" then None else Some(parts[1])
  }

  /** The first word is not checked: any scheme, or none at all, followed by a word gives that word. */
  lemma SchemeIsIgnored(scheme: string, token: string)
    requires ' ' !in scheme && ' ' !in token && token != ""
    ensures BearerToken(Some(scheme + " " + token)) == Some(token)
  {
    Strings.SplitAtSeparator(scheme, token, ' ');
    Strings.SplitWithoutSeparator(token, ' ');
  }

  /** Only the second segment counts: whatever follows it is ignored. */
  lemma LaterSegmentsAreIgnored(scheme: string, token: string, rest: string)
    requires ' ' !in scheme && ' ' !in token && token != ""
    ensures BearerToken(Some(scheme + " " + token + " " + rest)) == Some(token)
  {
    assert scheme + " " + token + " " + rest == scheme + [' '] + (token + [' '] + rest);
    Strings.SplitAtSeparator(scheme, token + [' '] + rest, ' ');
    Strings.SplitAtSeparator(token, rest, ' ');
  }

  /** A header without a space has no token. */
  lemma OneWordHasNoToken(h: string)
    requires ' ' !in h
    ensures BearerToken(Some(h)) == None
  {
    Strings.SplitWithoutSeparator(h, ' ');
  }

  /** Two spaces after the first word make the token segment empty: no token. */
  lemma DoubleSpaceHasNoToken(scheme: string, rest: string)
    requires ' ' !in scheme
    ensures BearerToken(Some(scheme + "  " + rest)) == None
  {
    assert scheme + "  " + rest == scheme + [' '] + ([] + [' '] + rest);
    Strings.SplitAtSeparator(scheme, [] + [' '] + rest, ' ');
    Strings.SplitAtSeparator([], rest, ' ');
  }

  /** A first word followed by a single trailing space leaves the token segment empty: no token. */
  lemma TrailingSpaceHasNoToken(scheme: string)
    requires ' ' !in scheme
    ensures BearerToken(Some(scheme + " ")) == None
  {
    assert scheme + " " == scheme + [' '] + [];
    Strings.SplitAtSeparator(scheme, [], ' ');
  }

  /** The gate's decision: a refusal with its status and message, or the caller's claims. */
  datatype Gate = Denied(status: nat, message: string) | Admitted(claims: Claims)

  /** `authenticateToken`: 401 without a token, 403 when the library rejects it, else the claims. */
  function Authenticate(header: Option<string>, jwt: Jwt): (g: Gate)
    ensures BearerToken(header).None? ==> g == Denied(401, "Access token required")
    ensures BearerToken(header).Some? ==>
      match jwt.verify(BearerToken(header).value, jwt.Secret())
      case None => g == Denied(403, "Invalid token")
      case Some(c) => g == Admitted(c)
  {
    match BearerToken(header)
    case None => Denied(401, "Access token required")
    case Some(token) =>
      match jwt.verify(token, jwt.Secret())
      case None => Denied(403, "Invalid token")
      case Some(claims) => Admitted(claims)
  }

  /** A request is admitted exactly when it carries a token the library accepts, and with that token's claims. */
  lemma AdmittedIff(header: Option<string>, jwt: Jwt, c: Claims)
    ensures Authenticate(header, jwt) == Admitted(c) <==>
      exists t :: BearerToken(header) == Some(t) && jwt.verify(t, jwt.Secret()) == Some(c)
  {
    if Authenticate(header, jwt) == Admitted(c) {
      var t := BearerToken(header).value;
      assert BearerToken(header) == Some(t) && jwt.verify(t, jwt.Secret()) == Some(c);
    }
  }
}
