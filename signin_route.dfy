/** `POST /api/auth/signin` (src/app/api/auth/signin/route.ts): looks the user
    up by lower-cased e-mail and checks the password against the stored hash.
    An unknown address and a wrong password get the same answer, so a caller
    cannot tell which one failed. Success answers with a signed token and the
    user without its password. */
module SigninRoute {
  import opened Common
  import opened Text
  import opened UserModel
  import opened Auth
  import opened SignupRoute

  const CredentialsRequired: string := "Email and password are required"
  const InvalidCredentials: string := "Invalid email or password"
  const LoginSuccessful: string := "Login successful"

  datatype SigninBody = SigninBody(email: Option<string>, password: Option<string>)

  datatype SigninReply = SigninReply(message: string, user: UserView, token: string)

  /** The handler. `compare` is bcrypt's comparison of a plain password with a
      stored hash; `sign` is the JWT signer behind `generateToken`. */
  function Signin(body: Option<SigninBody>, users: seq<User>, compare: (string, string) -> bool,
                  sign: TokenPayload -> string): (r: Reply<SigninReply>)
    ensures body.None? ==> r == Err(500, InternalError)
    ensures body.Some? ==>
              (!TruthyText(body.value.email) || !TruthyText(body.value.password) <==> r == Err(400, CredentialsRequired))
    ensures r.Err? && r.status == 401 ==> r.error == InvalidCredentials
    ensures body.Some? && TruthyText(body.value.email) && TruthyText(body.value.password) ==>
              (r == Err(401, InvalidCredentials) <==>
                 || FindUserByEmail(users, EmailKey(body.value.email.value)).None?
                 || !compare(body.value.password.value, FindUserByEmail(users, EmailKey(body.value.email.value)).value.password))
    ensures r.Ok? ==> && r.status == 200 && r.body.message == LoginSuccessful
                      && exists u :: && u in users && u.email == EmailKey(body.value.email.value)
                                     && compare(body.value.password.value, u.password)
                                     && r.body.user == View(u) && r.body.token == GenerateToken(u, sign)
  {
    if body.None? then Err(500, InternalError)
    else if !TruthyText(body.value.email) || !TruthyText(body.value.password) then Err(400, CredentialsRequired)
    else match FindUserByEmail(users, EmailKey(body.value.email.value))
      case None => Err(401, InvalidCredentials)
      case Some(u) =>
        if !compare(body.value.password.value, u.password) then Err(401, InvalidCredentials)
        else Ok(200, SigninReply(LoginSuccessful, View(u), GenerateToken(u, sign)))
  }

  /** The token sign-in hands out passes every route's guard as that user. */
  lemma SigninTokenAuthenticates(body: Option<SigninBody>, users: seq<User>, compare: (string, string) -> bool,
                                 sign: TokenPayload -> string, jwtVerify: string -> JwtOutcome)
    requires SoundSigner(sign, jwtVerify)
    requires Signin(body, users, compare, sign).Ok?
    requires Signin(body, users, compare, sign).body.token != ""
    ensures var reply := Signin(body, users, compare, sign).body;
            Authenticate(Some(BearerPrefix + reply.token), jwtVerify)
              == Granted(Claims(reply.user.id, reply.user.email, RoleName(reply.user.role)))
  {
    var u := FindUserByEmail(users, EmailKey(body.value.email.value)).value;
    IssuedTokenAuthenticates(u, sign, jwtVerify);
  }

  /** Whoever signs up can then sign in, with the same password and the
      address in any capitalisation. */
  lemma SignupThenSignin(signup: SignupBody, users: seq<User>, hash: string -> string, newId: string, now: int,
                         compare: (string, string) -> bool, sign: TokenPayload -> string, email: string)
    requires SignupDecision(Some(signup), users, hash, newId, now).Registered?
    requires forall p :: compare(p, hash(p))
    requires ToLower(email) == ToLower(signup.email.value) && email != ""
    ensures var u := SignupDecision(Some(signup), users, hash, newId, now).user;
            Signin(Some(SigninBody(Some(email), signup.password)), users + [u], compare, sign)
              == Ok(200, SigninReply(LoginSuccessful, View(u), GenerateToken(u, sign)))
  {
    var u := SignupDecision(Some(signup), users, hash, newId, now).user;
    RegisteredUserShape(Some(signup), users, hash, newId, now);
    assert EmailKey(email) == EmailKey(signup.email.value);
    FindAfterAppend(users, u);
  }

  lemma {:induction false} FindAfterAppend(users: seq<User>, u: User)
    requires forall v :: v in users ==> v.email != u.email
    ensures FindUserByEmail(users + [u], u.email) == Some(u)
  {
    if users != [] {
      assert (users + [u])[1..] == users[1..] + [u];
      FindAfterAppend(users[1..], u);
    }
  }
}
