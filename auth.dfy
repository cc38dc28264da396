/** Token helpers (src/lib/auth.ts) and the authentication guard every API
    route opens with. Signing and verifying a JSON Web Token, and bcrypt, are
    library code: they enter the model as function parameters, and what the
    routes rely on of them is stated as a predicate on those parameters. */
module Auth {
  import opened Common
  import opened Text
  import opened UserModel

  /** The scheme prefix `extractTokenFromHeader` looks for: case-sensitive, one space. */
  const BearerPrefix: string := "Bearer "

  /** `expiresIn: '7d'`, in seconds. */
  const TokenLifetimeSeconds: nat := 7 * 24 * 60 * 60

  const NoTokenProvided: string := "No token provided"
  const InvalidOrExpiredToken: string := "Invalid or expired token"

  /** What a verified token decodes to. */
  datatype Claims = Claims(userId: string, email: string, role: string)

  /** What `jwt.sign` is given: the claims and the expiry option. */
  datatype TokenPayload = TokenPayload(claims: Claims, expiresIn: nat)

  /** The payload `generateToken` signs for a user. */
  function GeneratePayload(u: User): (p: TokenPayload)
    ensures p.claims == Claims(u.id, u.email, RoleName(u.role))
    ensures p.expiresIn == TokenLifetimeSeconds
  {
    TokenPayload(Claims(u.id, u.email, RoleName(u.role)), TokenLifetimeSeconds)
  }

  /** `generateToken(user)`: the signed payload. */
  function GenerateToken(u: User, sign: TokenPayload -> string): string
  {
    sign(GeneratePayload(u))
  }

  /** What `jwt.verify` does with a token: decodes it, or throws (bad signature,
      expired, malformed). The clock is inside this parameter. */
  datatype JwtOutcome = Decoded(claims: Claims) | Threw

  /** `verifyToken`: the decoded claims, with every exception turned into `null`. */
  function VerifyToken(token: string, jwtVerify: string -> JwtOutcome): (r: Option<Claims>)
    ensures r.None? <==> jwtVerify(token).Threw?
    ensures r.Some? ==> r.value == jwtVerify(token).claims
  {
    match jwtVerify(token)
    case Decoded(c) => Some(c)
    case Threw => None
  }

  /** A signer and a verifier that agree: what the routes assume of the secret
      they share (a token signed now verifies to the claims it was signed with). */
  ghost predicate SoundSigner(sign: TokenPayload -> string, jwtVerify: string -> JwtOutcome)
  {
    forall p :: jwtVerify(sign(p)) == Decoded(p.claims)
  }

  /** `extractTokenFromHeader`: the rest of a header that starts with exactly
      `"Bearer "`, and `null` for an absent or empty header or any other scheme. */
  function ExtractTokenFromHeader(authorization: Option<string>): (r: Option<string>)
    ensures r.Some? <==> authorization.Some? && StartsWith(authorization.value, BearerPrefix)
    ensures r.Some? ==> authorization.value == BearerPrefix + r.value
    ensures r.Some? ==> |r.value| == |authorization.value| - |BearerPrefix|
  {
    if authorization.None? || |authorization.value| == 0 || !StartsWith(authorization.value, BearerPrefix) then None
    else
      var h := authorization.value;
      assert h == h[..|BearerPrefix|] + h[|BearerPrefix|..];
      Some(h[|BearerPrefix|..])
  }

  /** Extraction undoes prefixing: `extractTokenFromHeader("Bearer " + t) == t`. */
  lemma ExtractTokenRoundTrip(t: string)
    ensures ExtractTokenFromHeader(Some(BearerPrefix + t)) == Some(t)
  {
    assert (BearerPrefix + t)[..|BearerPrefix|] == BearerPrefix;
    assert (BearerPrefix + t)[|BearerPrefix|..] == t;
  }

  /** The bare prefix yields the empty token, which the routes then treat as missing. */
  lemma ExtractTokenOfBarePrefix()
    ensures ExtractTokenFromHeader(Some(BearerPrefix)) == Some("")
  {
    ExtractTokenRoundTrip("");
    assert BearerPrefix + "" == BearerPrefix;
  }

  /** An absent or empty header gives no token. */
  lemma ExtractTokenOfNothing()
    ensures ExtractTokenFromHeader(None) == None
    ensures ExtractTokenFromHeader(Some("")) == None
  {
  }

  /** The scheme is compared case-sensitively: `"bearer "` is refused. */
  lemma ExtractTokenIsCaseSensitive(t: string)
    ensures ExtractTokenFromHeader(Some("bearer " + t)) == None
  {
    assert ("bearer " + t)[0] == 'b';
  }

  /** The outcome of the guard at the top of a route. */
  datatype Access = Granted(claims: Claims) | Denied(status: nat, error: string)

  /** The guard every protected route repeats: no usable token is 401
      "No token provided"; a token `verifyToken` refuses is 401 "Invalid or
      expired token". The caller's `authorization || undefined` makes an
      empty header absent. */
  function Authenticate(authorization: Option<string>, jwtVerify: string -> JwtOutcome): (a: Access)
    ensures a.Denied? ==> a.status == 401
    ensures a == Denied(401, NoTokenProvided) <==>
              ExtractTokenFromHeader(authorization).None? || ExtractTokenFromHeader(authorization).value == ""
    ensures a == Denied(401, InvalidOrExpiredToken) <==>
              && ExtractTokenFromHeader(authorization).Some? && ExtractTokenFromHeader(authorization).value != ""
              && jwtVerify(ExtractTokenFromHeader(authorization).value).Threw?
    ensures a.Granted? ==> exists token :: authorization == Some(BearerPrefix + token) && jwtVerify(token) == Decoded(a.claims)
  {
    var token := ExtractTokenFromHeader(authorization);
    if token.None? || token.value == "" then Denied(401, NoTokenProvided)
    else
      var decoded := VerifyToken(token.value, jwtVerify);
      if decoded.None? then Denied(401, InvalidOrExpiredToken)
      else Granted(decoded.value)
  }

  /** A token `generateToken` issued, sent back as a Bearer header, passes the
      guard with exactly the signed user's id, e-mail and role. */
  lemma IssuedTokenAuthenticates(u: User, sign: TokenPayload -> string, jwtVerify: string -> JwtOutcome)
    requires SoundSigner(sign, jwtVerify)
    requires GenerateToken(u, sign) != ""
    ensures Authenticate(Some(BearerPrefix + GenerateToken(u, sign)), jwtVerify)
              == Granted(Claims(u.id, u.email, RoleName(u.role)))
  {
    ExtractTokenRoundTrip(GenerateToken(u, sign));
    assert jwtVerify(sign(GeneratePayload(u))) == Decoded(GeneratePayload(u).claims);
  }
}
