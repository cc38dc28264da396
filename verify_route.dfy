/** `GET /api/auth/verify` (src/app/api/auth/verify/route.ts): the guard chain
    no token / refused token / user gone, and the password-free user it answers with. */
module VerifyRoute {
  import opened Common
  import opened UserModel
  import opened Auth

  const UserNotFound: string := "User not found"
  const TokenVerified: string := "Token verified successfully"

  datatype VerifyBody = VerifyBody(message: string, user: UserView)

  /** The handler. A decoded id that is not an ObjectId makes `findById` throw,
      which the `catch` answers 500. */
  function VerifyGet(authorization: Option<string>, jwtVerify: string -> JwtOutcome, isObjectId: string -> bool,
                     users: seq<User>): (r: Reply<VerifyBody>)
    ensures Authenticate(authorization, jwtVerify).Denied? ==>
              r == Err(401, Authenticate(authorization, jwtVerify).error)
    ensures Authenticate(authorization, jwtVerify).Granted? && !isObjectId(Authenticate(authorization, jwtVerify).claims.userId) ==>
              r == Err(500, InternalError)
    ensures r.Err? && r.status == 404 <==>
              && Authenticate(authorization, jwtVerify).Granted?
              && isObjectId(Authenticate(authorization, jwtVerify).claims.userId)
              && FindUserById(users, Authenticate(authorization, jwtVerify).claims.userId).None?
    ensures r.Err? && r.status == 404 ==> r.error == UserNotFound
    ensures r.Ok? ==> && r.status == 200 && r.body.message == TokenVerified
                      && Authenticate(authorization, jwtVerify).Granted?
                      && exists u :: u in users && u.id == Authenticate(authorization, jwtVerify).claims.userId
                                     && r.body.user == View(u)
  {
    match Authenticate(authorization, jwtVerify)
    case Denied(status, error) => Err(status, error)
    case Granted(claims) =>
      if !isObjectId(claims.userId) then Err(500, InternalError)
      else match FindUserById(users, claims.userId)
      case None => Err(404, UserNotFound)
      case Some(u) => Ok(200, VerifyBody(TokenVerified, View(u)))
  }

  /** A freshly issued token for a stored user verifies to that user's view. */
  lemma VerifyIssuedToken(u: User, users: seq<User>, sign: TokenPayload -> string, jwtVerify: string -> JwtOutcome,
                          isObjectId: string -> bool)
    requires SoundSigner(sign, jwtVerify) && GenerateToken(u, sign) != ""
    requires isObjectId(u.id) && FindUserById(users, u.id) == Some(u)
    ensures VerifyGet(Some(BearerPrefix + GenerateToken(u, sign)), jwtVerify, isObjectId, users) == Ok(200, VerifyBody(TokenVerified, View(u)))
  {
    IssuedTokenAuthenticates(u, sign, jwtVerify);
  }

  /** The view answered never depends on the stored password hash. */
  lemma VerifyIgnoresPassword(authorization: Option<string>, jwtVerify: string -> JwtOutcome,
                              isObjectId: string -> bool, users: seq<User>, i: nat, newHash: string)
    requires i < |users|
    ensures VerifyGet(authorization, jwtVerify, isObjectId, users[i := users[i].(password := newHash)])
         == VerifyGet(authorization, jwtVerify, isObjectId, users)
  {
    var users' := users[i := users[i].(password := newHash)];
    match Authenticate(authorization, jwtVerify)
    case Denied(_, _) =>
    case Granted(claims) =>
      FindIgnoresPassword(users, i, newHash, claims.userId);
  }

  lemma {:induction false} FindIgnoresPassword(users: seq<User>, i: nat, newHash: string, id: string)
    requires i < |users|
    ensures var r := FindUserById(users[i := users[i].(password := newHash)], id);
            var r0 := FindUserById(users, id);
            r.None? == r0.None? && (r.Some? ==> View(r.value) == View(r0.value))
  {
    if i > 0 {
      assert users[i := users[i].(password := newHash)][1..] == users[1..][i - 1 := users[i].(password := newHash)];
      FindIgnoresPassword(users[1..], i - 1, newHash, id);
    }
  }
}
