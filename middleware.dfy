/** The edge middleware (src/middleware.ts): a path-prefix gate that runs the
    token checks on `/api/protected` paths and lets everything else through,
    and the matcher that decides which requests reach it at all. */
module Middleware {
  import opened Common
  import opened Text
  import opened Auth

  const ProtectedPrefix: string := "/api/protected"

  /** `NextResponse.next()` or an early JSON error response. */
  datatype Decision = Next | Respond(status: nat, error: string)

  /** `middleware(request)`. */
  function Gate(path: string, authorization: Option<string>, jwtVerify: string -> JwtOutcome): (d: Decision)
    ensures !StartsWith(path, ProtectedPrefix) ==> d == Next
    ensures StartsWith(path, ProtectedPrefix) ==>
              match Authenticate(authorization, jwtVerify)
              case Granted(_) => d == Next
              case Denied(status, error) => d == Respond(status, error)
  {
    if !StartsWith(path, ProtectedPrefix) then Next
    else
      match Authenticate(authorization, jwtVerify)
      case Granted(_) => Next
      case Denied(status, error) => Respond(status, error)
  }

  /** A protected path without a Bearer token is answered 401 "No token provided". */
  lemma GateWithoutToken(path: string, jwtVerify: string -> JwtOutcome)
    requires StartsWith(path, ProtectedPrefix)
    ensures Gate(path, None, jwtVerify) == Respond(401, NoTokenProvided)
  {
  }

  /** A protected path whose token fails verification is answered 401 "Invalid or expired token". */
  lemma GateWithRefusedToken(path: string, token: string, jwtVerify: string -> JwtOutcome)
    requires StartsWith(path, ProtectedPrefix) && token != "" && jwtVerify(token).Threw?
    ensures Gate(path, Some(BearerPrefix + token), jwtVerify) == Respond(401, InvalidOrExpiredToken)
  {
    ExtractTokenRoundTrip(token);
  }

  /** Any token that verifies passes, whatever role it carries: there is no role check. */
  lemma GateHasNoRoleCheck(path: string, token: string, jwtVerify: string -> JwtOutcome, c: Claims)
    requires token != "" && jwtVerify(token) == Decoded(c)
    ensures Gate(path, Some(BearerPrefix + token), jwtVerify) == Next
  {
    ExtractTokenRoundTrip(token);
  }

  /** The `matcher` entry `'/api/protected/:path*'`: the prefix itself and every
      path below it. */
  predicate Matched(path: string)
  {
    path == ProtectedPrefix || StartsWith(path, ProtectedPrefix + "/")
  }

  /** A request as the framework handles it: the middleware runs only on matched paths. */
  function Route(path: string, authorization: Option<string>, jwtVerify: string -> JwtOutcome): (d: Decision)
    ensures !Matched(path) ==> d == Next
    ensures Matched(path) ==> d == Gate(path, authorization, jwtVerify)
  {
    if Matched(path) then Gate(path, authorization, jwtVerify) else Next
  }

  /** Every matched path passes the middleware's own prefix test, so on the paths
      it runs on the gate always checks the token. */
  lemma MatchedIsProtected(path: string)
    requires Matched(path)
    ensures StartsWith(path, ProtectedPrefix)
  {
    if path != ProtectedPrefix {
      assert path[..|ProtectedPrefix|] == (ProtectedPrefix + "/")[..|ProtectedPrefix|];
    }
  }

  /** Paths outside the matcher, such as `/api/auth/verify`, `/api/user/...` and
      `/api/services/...`, are never gated: those routes guard themselves. */
  lemma UnmatchedPassesThrough(authorization: Option<string>, jwtVerify: string -> JwtOutcome)
    ensures Route("/api/auth/verify", authorization, jwtVerify) == Next
    ensures Route("/api/services", authorization, jwtVerify) == Next
  {
    assert "/api/auth/verify"[5] != ProtectedPrefix[5];
    assert "/api/services"[5] != ProtectedPrefix[5];
  }
}
