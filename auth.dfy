/** Tiered authentication: the mandatory check used by the camera endpoint and
    the optional, never-failing check used by the area endpoint. The identity
    provider's token verification is an oracle parameter. */
module Auth {
  import opened Wrappers

  /** The claims of a decoded ID token. */
  type Claims = map<string, string>

  /** The claim every successful path reads (`decoded_token['uid']`). */
  const UidClaim: string := "uid"

  /** What the identity provider's verification does with a token: return the
      decoded claims, or raise (malformed, expired or forged token, network). */
  datatype VerifyOutcome = Decoded(claims: Claims) | Raised(message: string)

  type Verifier = string -> VerifyOutcome

  datatype HttpError = HttpError(status: int, detail: string)

  const ServiceUnavailable: HttpError := HttpError(503, "Firebase service unavailable")
  const InvalidToken: HttpError := HttpError(401, "Invalid authentication token")

  /** Verification returned claims and reading their `uid` does not raise. */
  predicate Identified(o: VerifyOutcome) {
    o.Decoded? && UidClaim in o.claims
  }

  /** Mandatory authentication on an already extracted bearer credential. */
  function VerifyFirebaseToken(firebaseAvailable: bool, token: string, verify: Verifier): (r: Result<Claims, HttpError>)
    // provider unavailable: 503, whatever the verifier would say
    ensures !firebaseAvailable ==> r == Err(ServiceUnavailable)
    // provider available: success exactly when the token verifies with a uid
    ensures firebaseAvailable ==> (r.Ok? <==> Identified(verify(token)))
    // every verification failure is a 401
    ensures firebaseAvailable && !Identified(verify(token)) ==> r == Err(InvalidToken)
    // success hands back the decoded claims unchanged
    ensures r.Ok? ==> verify(token) == Decoded(r.value) && UidClaim in r.value
  {
    if !firebaseAvailable then Err(ServiceUnavailable)
    else
      match verify(token)
      case Decoded(claims) => if UidClaim in claims then Ok(claims) else Err(InvalidToken)
      case Raised(_) => Err(InvalidToken)
  }

  const BearerPrefix: string := "Bearer "

  /** The token in an `Authorization` value: everything after `Bearer `. */
  function BearerToken(header: string): (t: Option<string>)
    ensures t.Some? <==> |header| >= |BearerPrefix| && header[..|BearerPrefix|] == BearerPrefix
    ensures t.Some? ==> header == BearerPrefix + t.value
  {
    if |header| >= 7 && header[..7] == BearerPrefix then Some(header[7..]) else None
  }

  /** Putting the prefix in front of any token and parsing gives the token back. */
  lemma BearerTokenRoundTrip(token: string)
    ensures BearerToken(BearerPrefix + token) == Some(token)
  {
    var h := BearerPrefix + token;
    assert h[..7] == BearerPrefix;
    assert h[7..] == token;
  }

  /** Optional authentication: every failure (no header, empty header, provider
      unavailable, no `Bearer ` scheme, verification raising) becomes `None`. */
  function GetOptionalAuth(firebaseAvailable: bool, authorization: Option<string>, verify: Verifier): (r: Option<Claims>)
    ensures authorization == None || authorization == Some("") || !firebaseAvailable ==> r == None
    ensures authorization.Some? && BearerToken(authorization.value).None? ==> r == None
    ensures r.Some? <==> (firebaseAvailable && authorization.Some? && authorization.value != ""
                          && BearerToken(authorization.value).Some?
                          && Identified(verify(BearerToken(authorization.value).value)))
    ensures r.Some? ==> verify(BearerToken(authorization.value).value) == Decoded(r.value)
  {
    if authorization.None? || authorization.value == "" || !firebaseAvailable then None
    else
      match BearerToken(authorization.value)
      case None => None
      case Some(token) =>
        match verify(token)
        case Decoded(claims) => if UidClaim in claims then Some(claims) else None
        case Raised(_) => None
  }

  /** A verifier that accepts exactly one token. */
  function AcceptOnly(token: string, claims: Claims): Verifier {
    t => if t == token then Decoded(claims) else Raised("invalid token")
  }

  /** The string handed to the verifier is the header without its first seven
      characters: with a verifier that knows one token, optional authentication
      succeeds on exactly one header, `Bearer ` followed by that token. */
  lemma OptionalAuthAcceptsExactlyBearerToken(token: string, claims: Claims, header: string)
    requires UidClaim in claims
    ensures GetOptionalAuth(true, Some(header), AcceptOnly(token, claims)) == Some(claims)
            <==> header == BearerPrefix + token
  {
    if header == BearerPrefix + token {
      BearerTokenRoundTrip(token);
    }
  }

  /** A successful optional check always yields non-empty claims, so the
      endpoint's truthiness test on them agrees with "a user was resolved". */
  lemma OptionalAuthClaimsNonEmpty(firebaseAvailable: bool, authorization: Option<string>, verify: Verifier)
    ensures GetOptionalAuth(firebaseAvailable, authorization, verify).Some? ==>
              |GetOptionalAuth(firebaseAvailable, authorization, verify).value| > 0
  {
    var r := GetOptionalAuth(firebaseAvailable, authorization, verify);
    if r.Some? {
      assert UidClaim in r.value.Keys;
    }
  }
}
