/** `POST /api/auth/signup` (src/app/api/auth/signup/route.ts): account
    creation. The checks run in a fixed order (fields present, password long
    enough, a known role, an unused e-mail); only then is the password hashed
    and the user saved. The answer carries the user without the password, and
    no token. */
module SignupRoute {
  import opened Common
  import opened Text
  import opened UserModel
  import opened Database

  const FieldsRequired: string := "Name, email, and password are required"
  const PasswordTooShort: string := "Password must be at least 6 characters long"
  const RoleInvalid: string := "Role must be either seeker or taskio"
  const EmailTaken: string := "User with this email already exists"
  const UserCreated: string := "User created successfully"

  /** The fields destructured from the JSON body; absent or `null` is `None`. */
  datatype SignupBody = SignupBody(name: Option<string>, email: Option<string>, password: Option<string>,
                                   role: Option<string>)

  /** The 201 body: a message and the new user without its password. */
  datatype SignupReply = SignupReply(message: string, user: UserView)

  /** The key `User.findOne({ email })` looks up: the route lower-cases the
      address, and the schema's `lowercase` and `trim` setters also apply to
      query filters. */
  function EmailKey(email: string): (k: string)
    ensures IsLowerCase(k) && Trimmed(k)
  {
    TrimKeepsLowerCase(ToLower(ToLower(email)));
    Trim(ToLower(ToLower(email)))
  }

  /** `['seeker', 'taskio'].includes(role)`: an absent role is not included. */
  predicate KnownRole(role: Option<string>)
  {
    role == Some("seeker") || role == Some("taskio")
  }

  /** `!name || !email || !password` is false. */
  predicate FieldsGiven(b: SignupBody)
  {
    TruthyText(b.name) && TruthyText(b.email) && TruthyText(b.password)
  }

  /** How sign-up ends: an error response, or the user it saves. */
  datatype SignupResult = Refused(status: nat, error: string) | Registered(user: User)

  /** `new User({ name, email: email.toLowerCase(), password: hashedPassword, role })`. */
  function NewUserInput(b: SignupBody, hash: string -> string): UserInput
    requires FieldsGiven(b)
  {
    UserInput(b.name, Some(ToLower(b.email.value)), Some(hash(b.password.value)), b.role)
  }

  /** The decision the handler reaches. `hash` is bcrypt; a body that is not
      JSON, and a user the schema refuses at `save()`, are both 500. */
  function SignupDecision(body: Option<SignupBody>, users: seq<User>, hash: string -> string, newId: string,
                          now: int): (d: SignupResult)
    ensures body.None? ==> d == Refused(500, InternalError)
    ensures body.Some? ==> (!FieldsGiven(body.value) <==> d == Refused(400, FieldsRequired))
    ensures body.Some? && FieldsGiven(body.value) ==>
              (|body.value.password.value| < PasswordMinLength <==> d == Refused(400, PasswordTooShort))
    ensures body.Some? && FieldsGiven(body.value) && |body.value.password.value| >= PasswordMinLength ==>
              (!KnownRole(body.value.role) <==> d == Refused(400, RoleInvalid))
    ensures body.Some? && FieldsGiven(body.value) && |body.value.password.value| >= PasswordMinLength
            && KnownRole(body.value.role) ==>
              (FindUserByEmail(users, EmailKey(body.value.email.value)).Some? <==> d == Refused(409, EmailTaken))
    ensures body.Some? && FieldsGiven(body.value) && |body.value.password.value| >= PasswordMinLength
            && KnownRole(body.value.role) && FindUserByEmail(users, EmailKey(body.value.email.value)).None? ==>
              var cast := CastUser(newId, NewUserInput(body.value, hash), now);
              && (cast.None? ==> d == Refused(500, InternalError))
              && (cast.Some? ==> d == Registered(cast.value))
    ensures d.Refused? ==> d.status in {400, 409, 500}
  {
    if body.None? then Refused(500, InternalError)
    else
      var b := body.value;
      if !FieldsGiven(b) then Refused(400, FieldsRequired)
      else if |b.password.value| < PasswordMinLength then Refused(400, PasswordTooShort)
      else if !KnownRole(b.role) then Refused(400, RoleInvalid)
      else if FindUserByEmail(users, EmailKey(b.email.value)).Some? then Refused(409, EmailTaken)
      else
        match CastUser(newId, NewUserInput(b, hash), now)
        case None => Refused(500, InternalError)
        case Some(u) => Registered(u)
  }

  /** A saved user has the lower-cased, trimmed address, the hash and never the
      plain password, the role asked for, and an address no stored user has. */
  lemma RegisteredUserShape(body: Option<SignupBody>, users: seq<User>, hash: string -> string, newId: string,
                            now: int)
    requires SignupDecision(body, users, hash, newId, now).Registered?
    ensures var u := SignupDecision(body, users, hash, newId, now).user;
            && body.Some? && ValidUser(u)
            && u.id == newId && u.email == EmailKey(body.value.email.value)
            && u.password == hash(body.value.password.value)
            && RoleName(u.role) == body.value.role.value
            && forall v :: v in users ==> v.email != u.email
  {
    var b := body.value;
    ToLowerIdempotent(b.email.value);
  }

  /** The duplicate check ignores the case of the address: a taken address in
      any capitalisation is 409. */
  lemma DuplicateIgnoresCase(b: SignupBody, users: seq<User>, hash: string -> string, newId: string, now: int,
                             other: string)
    requires FieldsGiven(b)
    requires |b.password.value| >= PasswordMinLength && KnownRole(b.role)
    requires ToLower(other) == ToLower(b.email.value)
    requires exists u :: u in users && u.email == EmailKey(other)
    ensures SignupDecision(Some(b), users, hash, newId, now) == Refused(409, EmailTaken)
  {
  }

  /** A missing role is refused, although the schema would default it to seeker. */
  lemma MissingRoleRefused(b: SignupBody, users: seq<User>, hash: string -> string, newId: string, now: int)
    requires FieldsGiven(b)
    requires |b.password.value| >= PasswordMinLength && b.role.None?
    ensures SignupDecision(Some(b), users, hash, newId, now) == Refused(400, RoleInvalid)
    ensures CastRole(b.role) == Some(Seeker)
  {
  }

  /** `await user.save()`: only a registered user joins the collection; the
      unique e-mail index and the schema invariant are kept. */
  method Signup(store: Store, body: Option<SignupBody>, hash: string -> string, newId: string, now: int,
                isObjectId: string -> bool)
    returns (r: Reply<SignupReply>)
    modifies store
    ensures var d := SignupDecision(body, old(store.users), hash, newId, now);
            && (d.Refused? ==> r == Err(d.status, d.error) && store.users == old(store.users))
            && (d.Registered? ==> r == Ok(201, SignupReply(UserCreated, View(d.user)))
                                  && store.users == old(store.users) + [d.user])
    ensures store.services == old(store.services) && store.bookings == old(store.bookings)
    ensures store.hosted == old(store.hosted)
    ensures UniqueEmails(old(store.users)) ==> UniqueEmails(store.users)
    ensures old(store.Valid(isObjectId)) ==> store.Valid(isObjectId)
  {
    var d := SignupDecision(body, store.users, hash, newId, now);
    match d
    case Refused(status, error) =>
      r := Err(status, error);
    case Registered(u) =>
      RegisteredUserShape(body, store.users, hash, newId, now);
      store.users := store.users + [u];
      r := Ok(201, SignupReply(UserCreated, View(u)));
  }
}
